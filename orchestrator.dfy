/** The orchestrator: three append-only registries and the single `run`.

    The registries are module-level arrays in Slither.js; here they are the
    fields of one `Orchestrator` object. `Run` returns what `run()` only
    shows on the console and through `process.exit`: the ordered test
    results, the exit status, and the trace of notifications and invocations. */
module Orchestration {
  import opened Signals
  import opened Callbacks
  import opened Runners

  class Orchestrator {
    var setup: seq<Entry>
    var tests: seq<Entry>
    var teardown: seq<Entry>

    constructor ()
      ensures setup == [] && tests == [] && teardown == []
    {
      setup, tests, teardown := [], [], [];
    }

    /** `setup(name, fn)` */
    method Setup(name: string, action: Behaviour)
      modifies this`setup
      ensures setup == old(setup) + [Entry(name, action, false)]
      ensures tests == old(tests) && teardown == old(teardown)
    {
      setup := setup + [Entry(name, action, false)];
    }

    /** `xsetup(name, fn)` */
    method XSetup(name: string, action: Behaviour)
      modifies this`setup
      ensures setup == old(setup) + [Entry(name, action, true)]
      ensures tests == old(tests) && teardown == old(teardown)
    {
      setup := setup + [Entry(name, action, true)];
    }

    /** `test(name, fn)` */
    method Test(name: string, action: Behaviour)
      modifies this`tests
      ensures tests == old(tests) + [Entry(name, action, false)]
      ensures setup == old(setup) && teardown == old(teardown)
    {
      tests := tests + [Entry(name, action, false)];
    }

    /** `xtest(name, fn)` */
    method XTest(name: string, action: Behaviour)
      modifies this`tests
      ensures tests == old(tests) + [Entry(name, action, true)]
      ensures setup == old(setup) && teardown == old(teardown)
    {
      tests := tests + [Entry(name, action, true)];
    }

    /** `teardown(name, fn)` */
    method Teardown(name: string, action: Behaviour)
      modifies this`teardown
      ensures teardown == old(teardown) + [Entry(name, action, false)]
      ensures setup == old(setup) && tests == old(tests)
    {
      teardown := teardown + [Entry(name, action, false)];
    }

    /** `xteardown(name, fn)` */
    method XTeardown(name: string, action: Behaviour)
      modifies this`teardown
      ensures teardown == old(teardown) + [Entry(name, action, true)]
      ensures setup == old(setup) && tests == old(tests)
    {
      teardown := teardown + [Entry(name, action, true)];
    }

    /** `run()`: setup, then every test in order, then teardown whatever the
        tests did; exit status 1 exactly when some test result did not pass. */
    method Run() returns (results: seq<TestResult>, exitCode: int, trace: seq<Event>)
      ensures |results| == |tests|
      ensures forall i :: 0 <= i < |tests| ==> results[i] == RunTest(tests[i]).result
      ensures exitCode == 0 || exitCode == 1
      ensures exitCode == 1 <==> exists i :: 0 <= i < |results| && !results[i].pass
      ensures exitCode == 1 <==> exists i :: 0 <= i < |tests| && Fails(tests[i])
      ensures trace == [RunStarted] + PhaseLog(SetupPhase, setup) + RunTests(tests).trace
                       + PhaseLog(TeardownPhase, teardown) + [RunFinished(exitCode == 0)]
      ensures Invocations(trace) ==
        Invoking(SetupPhase, setup) + Invoking(TestPhase, tests) + Invoking(TeardownPhase, teardown)
      ensures forall i, j :: 0 <= i < j < |Invocations(trace)| ==>
        Rank(Invocations(trace)[i].phase) <= Rank(Invocations(trace)[j].phase)
    {
      trace := [RunStarted];
      var setupTrace := RunCallbacks(SetupPhase, setup);
      trace := trace + setupTrace;
      var testRun := RunTests(tests);
      results := testRun.results;
      trace := trace + testRun.trace;
      var teardownTrace := RunCallbacks(TeardownPhase, teardown);
      trace := trace + teardownTrace;
      var failure := FindFailure(results);
      exitCode := if failure.Some? then 1 else 0;
      trace := trace + [RunFinished(failure.None?)];

      Verdict(tests);
      assert Invocations(trace) ==
        Invoking(SetupPhase, setup) + Invoking(TestPhase, tests) + Invoking(TeardownPhase, teardown) by {
        RunInvocations(setupTrace, testRun.trace, teardownTrace, failure.None?);
        TestPhaseInvocations(tests);
        PhaseInvocations(SetupPhase, setup);
        PhaseInvocations(TeardownPhase, teardown);
      }
      PhasesInOrder(setup, tests, teardown);
    }
  }

  /** The verdict depends on the tests alone: some result fails exactly when
      some test is not skipped and its action does not throw the pass signal,
      so skipped tests never make a run fail. */
  lemma Verdict(tests: seq<Entry>)
    ensures FindFailure(RunTests(tests).results).Some? <==> exists i :: 0 <= i < |tests| && Fails(tests[i])
  {
    var results := RunTests(tests).results;
    if i :| 0 <= i < |tests| && Fails(tests[i]) {
      assert !results[i].pass;
    }
  }

  /** The run's invocations are those of its three phases, in phase order;
      the start and finish notifications invoke nothing. */
  lemma RunInvocations(setupTrace: seq<Event>, testTrace: seq<Event>, teardownTrace: seq<Event>, passed: bool)
    ensures Invocations([RunStarted] + setupTrace + testTrace + teardownTrace + [RunFinished(passed)])
         == Invocations(setupTrace) + Invocations(testTrace) + Invocations(teardownTrace)
  {
    NoInvocations([RunStarted]);
    NoInvocations([RunFinished(passed)]);
    var s1 := [RunStarted] + setupTrace;
    InvocationsAppend([RunStarted], setupTrace);
    assert Invocations(s1) == Invocations(setupTrace);
    var s2 := s1 + testTrace;
    InvocationsAppend(s1, testTrace);
    var s3 := s2 + teardownTrace;
    InvocationsAppend(s2, teardownTrace);
    InvocationsAppend(s3, [RunFinished(passed)]);
    assert Invocations(s3 + [RunFinished(passed)]) == Invocations(s3);
  }

  /** Every setup invocation comes before every test invocation, and every
      test invocation before every teardown invocation. */
  lemma PhasesInOrder(setup: seq<Entry>, tests: seq<Entry>, teardown: seq<Entry>)
    ensures var calls := Invoking(SetupPhase, setup) + Invoking(TestPhase, tests)
                         + Invoking(TeardownPhase, teardown);
      forall i, j :: 0 <= i < j < |calls| ==> Rank(calls[i].phase) <= Rank(calls[j].phase)
  {
    var a, b, c := Invoking(SetupPhase, setup), Invoking(TestPhase, tests), Invoking(TeardownPhase, teardown);
    var calls := a + b + c;
    forall k | 0 <= k < |calls|
      ensures Rank(calls[k].phase) == if k < |a| then 0 else if k < |a| + |b| then 1 else 2
    {
      if k < |a| { assert calls[k] == a[k]; }
      else if k < |a| + |b| { assert calls[k] == b[k - |a|]; }
      else { assert calls[k] == c[k - |a| - |b|]; }
    }
  }

  lemma InvokingOfThree(p: Phase, a: Entry, b: Entry, c: Entry)
    ensures Invoking(p, [a, b, c]) ==
      (if a.skip then [] else [Invoked(p, a.name)])
      + (if b.skip then [] else [Invoked(p, b.name)])
      + (if c.skip then [] else [Invoked(p, c.name)])
  {
    InvokingSplit(p, [a, b, c], 0);
    InvokingSplit(p, [b, c], 0);
    InvokingSplit(p, [c], 0);
    assert [a, b, c][1..] == [b, c] && [b, c][1..] == [c] && [c][1..] == [];
  }

  /** The entries spec/Slither.spec.js registers, each closure replaced by
      how it ends when the run keeps its ordering promises: the setups and
      teardowns return, the two tests call `pass()`, and the three skipped
      entries would call `fail`. */
  const SuiteSetup: seq<Entry> := [
    Entry("Setup runs before test", Returns, false),
    Entry("Second setup runs after first", Returns, false),
    Entry("Skipped setups do not run", Fail("Skipped setup ran"), true)]
  const SuiteTests: seq<Entry> := [
    Entry("Test runs after setup", Pass(), false),
    Entry("Second test runs after first", Pass(), false),
    Entry("Skipped tests do not run", Fail("Skipped test ran"), true)]
  const SuiteTeardown: seq<Entry> := [
    Entry("Teardown runs last", Returns, false),
    Entry("Second teardown runs after first", Returns, false),
    Entry("Skipped teardowns do not run", Fail("Skipped teardown ran"), true)]

  /** The registrations of spec/Slither.spec.js, in the file's order: the
      three registries interleave, and each keeps its own order. */
  method SuiteRegistry() returns (slither: Orchestrator)
    ensures fresh(slither)
    ensures slither.setup == SuiteSetup && slither.tests == SuiteTests
    ensures slither.teardown == SuiteTeardown
  {
    slither := new Orchestrator();
    slither.Setup("Setup runs before test", Returns);
    slither.Test("Test runs after setup", Pass());
    slither.Teardown("Teardown runs last", Returns);
    slither.Setup("Second setup runs after first", Returns);
    slither.Test("Second test runs after first", Pass());
    slither.Teardown("Second teardown runs after first", Returns);
    slither.XSetup("Skipped setups do not run", Fail("Skipped setup ran"));
    slither.XTest("Skipped tests do not run", Fail("Skipped test ran"));
    slither.XTeardown("Skipped teardowns do not run", Fail("Skipped teardown ran"));
  }

  /** Running that suite: every test passes (the skipped one with its
      reason), the run exits with status 0, and the actions invoked are the
      two setups, the two tests and the two teardowns, in that order; no
      skipped action is invoked. */
  method SpecSuite() returns (results: seq<TestResult>, exitCode: int, calls: seq<Event>)
    ensures results == [
      TestResult("Test runs after setup", true, None),
      TestResult("Second test runs after first", true, None),
      TestResult("Skipped tests do not run", true, Some(TestSkipped))]
    ensures exitCode == 0
    ensures calls == [
      Invoked(SetupPhase, "Setup runs before test"),
      Invoked(SetupPhase, "Second setup runs after first"),
      Invoked(TestPhase, "Test runs after setup"),
      Invoked(TestPhase, "Second test runs after first"),
      Invoked(TeardownPhase, "Teardown runs last"),
      Invoked(TeardownPhase, "Second teardown runs after first")]
  {
    var slither := SuiteRegistry();
    var trace;
    results, exitCode, trace := slither.Run();
    calls := Invocations(trace);
    InvokingOfThree(SetupPhase, SuiteSetup[0], SuiteSetup[1], SuiteSetup[2]);
    InvokingOfThree(TestPhase, SuiteTests[0], SuiteTests[1], SuiteTests[2]);
    InvokingOfThree(TeardownPhase, SuiteTeardown[0], SuiteTeardown[1], SuiteTeardown[2]);
  }
}
