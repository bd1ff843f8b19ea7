/** The phase runners and the verdict.

    `RunCallbacks` is the loop shared by `runSetup` and `runTeardown`;
    `PhaseLog` is the trace it must produce, defined entry by entry.
    `RunTest` classifies one test entry, `RunTests` is `tests.map(runTest)`,
    and `FindFailure` is `results.find(hasFailure)`. */
module Runners {
  import opened Signals
  import opened Callbacks

  /** The reason recorded for a test whose action returned without signalling. */
  const NoPassOrFailCalled: string := "No \"pass()\" or \"fail()\" called."
  /** The reason recorded for a skipped test. */
  const TestSkipped: string := "Test skipped"

  /** `{name, pass, reason?}`: the result of one test entry. */
  datatype TestResult = TestResult(name: string, pass: bool, reason: Option<string>)

  /** The result of one test entry together with the trace running it left. */
  datatype TestRun = TestRun(result: TestResult, trace: seq<Event>)

  /** The results of the whole test phase, in test order, and its trace. */
  datatype TestPhaseRun = TestPhaseRun(results: seq<TestResult>, trace: seq<Event>)

  // ---------------------------------------------------------------------------
  // Setup and teardown

  /** The trace one setup or teardown entry leaves: its name line, then for an
      entry that is not skipped the invocation and, when the action throws
      (whatever it throws, the pass signal included), the error line carrying
      the thrown message. Nothing propagates. */
  function EntryLog(p: Phase, e: Entry): seq<Event>
  {
    if e.skip then [ItemStarted(p, e.name, true)]
    else
      [ItemStarted(p, e.name, false), Invoked(p, e.name)]
      + (if e.action.Throws() then [ItemError(p, ThrownMessage(e.action))] else [])
  }

  /** One setup or teardown entry invokes its action once unless it is
      skipped, and logs an error line exactly when that action throws. */
  lemma EntryLogShape(p: Phase, e: Entry)
    ensures Invocations(EntryLog(p, e)) == if e.skip then [] else [Invoked(p, e.name)]
    ensures (exists k :: 0 <= k < |EntryLog(p, e)| && EntryLog(p, e)[k].ItemError?)
        <==> !e.skip && e.action.Throws()
  {
    var log := EntryLog(p, e);
    if e.skip {
      NoInvocations(log);
    } else {
      var after := if e.action.Throws() then [ItemError(p, ThrownMessage(e.action))] else [];
      assert log == [ItemStarted(p, e.name, false)] + [Invoked(p, e.name)] + after;
      InvocationsOfOne([ItemStarted(p, e.name, false)], Invoked(p, e.name), after);
      if e.action.Throws() { assert log[2].ItemError?; }
    }
  }

  /** The trace of the entries of one phase, run one after the other. */
  function EntriesLog(p: Phase, entries: seq<Entry>): seq<Event>
  {
    if entries == [] then []
    else EntriesLog(p, entries[..|entries| - 1]) + EntryLog(p, entries[|entries| - 1])
  }

  /** The trace of `runSetup` (p = SetupPhase) or `runTeardown`
      (p = TeardownPhase): a header line when there is anything to run, then
      every entry in registration order. */
  function PhaseLog(p: Phase, entries: seq<Entry>): seq<Event>
  {
    PhaseHeader(p, entries) + EntriesLog(p, entries)
  }

  /** "Setting up..." / "Cleaning up...", only when the phase has entries. */
  function PhaseHeader(p: Phase, entries: seq<Entry>): seq<Event>
  {
    if |entries| > 0 then [PhaseStarted(p)] else []
  }

  lemma {:induction false} EntriesLogAppend(p: Phase, a: seq<Entry>, b: seq<Entry>)
    ensures EntriesLog(p, a + b) == EntriesLog(p, a) + EntriesLog(p, b)
  {
    if b != [] {
      assert (a + b)[..|a + b| - 1] == a + b[..|b| - 1];
      EntriesLogAppend(p, a, b[..|b| - 1]);
    } else {
      assert a + b == a;
    }
  }

  /** One step of the phase loop: after entry `i` the trace has grown by
      exactly that entry's own trace. */
  lemma PhaseLogStep(p: Phase, entries: seq<Entry>, i: nat, trace: seq<Event>)
    requires i < |entries|
    requires trace == PhaseHeader(p, entries) + EntriesLog(p, entries[..i])
    ensures trace + EntryLog(p, entries[i]) == PhaseHeader(p, entries) + EntriesLog(p, entries[..i + 1])
  {
    assert entries[..i + 1][..i] == entries[..i];
  }

  /** The trace of a phase's entries is the trace of those before entry `i`,
      then entry `i`'s own, then the trace of those after it. */
  lemma EntriesLogAt(p: Phase, entries: seq<Entry>, i: nat)
    requires i < |entries|
    ensures EntriesLog(p, entries) ==
      EntriesLog(p, entries[..i]) + EntryLog(p, entries[i]) + EntriesLog(p, entries[i + 1..])
  {
    var e, pre, post := entries[i], entries[..i], entries[i + 1..];
    assert entries == pre + [e] + post;
    EntriesLogAppend(p, pre + [e], post);
    EntriesLogAppend(p, pre, [e]);
    assert [e][..0] == [];
  }

  lemma {:induction false} EntriesInvocations(p: Phase, entries: seq<Entry>)
    ensures Invocations(EntriesLog(p, entries)) == Invoking(p, entries)
  {
    if entries != [] {
      var n := |entries| - 1;
      EntriesInvocations(p, entries[..n]);
      EntryLogShape(p, entries[n]);
      InvocationsAppend(EntriesLog(p, entries[..n]), EntryLog(p, entries[n]));
    }
  }

  /** A phase invokes exactly its entries that are not skipped, each once, in
      registration order. */
  lemma PhaseInvocations(p: Phase, entries: seq<Entry>)
    ensures Invocations(PhaseLog(p, entries)) == Invoking(p, entries)
  {
    var header := PhaseHeader(p, entries);
    assert Invocations(header) == [] by {
      if |entries| > 0 { assert header[..0] == []; }
    }
    InvocationsAppend(header, EntriesLog(p, entries));
    EntriesInvocations(p, entries);
  }

  /** Isolation: when entry `i` throws, its error is logged right after its
      invocation and the rest of the phase is exactly the trace of the later
      entries, so no throw stops the phase. */
  lemma ThrowIsCaught(p: Phase, entries: seq<Entry>, i: nat)
    requires i < |entries| && !entries[i].skip && entries[i].action.Throws()
    ensures PhaseLog(p, entries) ==
      [PhaseStarted(p)] + EntriesLog(p, entries[..i])
      + [ItemStarted(p, entries[i].name, false), Invoked(p, entries[i].name),
         ItemError(p, ThrownMessage(entries[i].action))]
      + EntriesLog(p, entries[i + 1..])
  {
    var e := entries[i];
    var pre, post := EntriesLog(p, entries[..i]), EntriesLog(p, entries[i + 1..]);
    var middle := [ItemStarted(p, e.name, false), Invoked(p, e.name), ItemError(p, ThrownMessage(e.action))];
    assert EntryLog(p, e) == middle;
    EntriesLogAt(p, entries, i);
    assert EntriesLog(p, entries) == pre + middle + post;
    assert PhaseHeader(p, entries) == [PhaseStarted(p)];
  }

  /** Isolation: whatever entry `i`'s action does, the same actions of the
      phase are invoked in the same order. */
  lemma PhaseIsolation(p: Phase, entries: seq<Entry>, i: nat, b: Behaviour)
    requires i < |entries|
    ensures Invocations(PhaseLog(p, entries[i := entries[i].(action := b)]))
         == Invocations(PhaseLog(p, entries))
  {
    PhaseInvocations(p, entries);
    PhaseInvocations(p, entries[i := entries[i].(action := b)]);
    InvokingIgnoresBehaviour(p, entries, i, b);
  }

  /** The `forEach` callback of `runSetup` / `runTeardown`: a skipped entry
      is only announced; otherwise the action is invoked and whatever it
      throws is caught and logged. */
  method RunCallback(p: Phase, e: Entry) returns (log: seq<Event>)
    ensures log == EntryLog(p, e)
  {
    if e.skip {
      log := [ItemStarted(p, e.name, true)];
    } else {
      log := [ItemStarted(p, e.name, false), Invoked(p, e.name)];
      if e.action.Throws() {
        log := log + [ItemError(p, ThrownMessage(e.action))];
      }
    }
  }

  /** `runSetup` (p = SetupPhase) / `runTeardown` (p = TeardownPhase): a
      header when there is anything to run, then every entry in order. */
  method RunCallbacks(p: Phase, entries: seq<Entry>) returns (trace: seq<Event>)
    ensures trace == PhaseLog(p, entries)
  {
    trace := if |entries| > 0 then [PhaseStarted(p)] else [];
    var i := 0;
    assert entries[..0] == [];
    while i < |entries|
      invariant 0 <= i <= |entries|
      invariant trace == PhaseHeader(p, entries) + EntriesLog(p, entries[..i])
    {
      var log := RunCallback(p, entries[i]);
      PhaseLogStep(p, entries, i, trace);
      trace := trace + log;
      i := i + 1;
    }
    assert entries[..i] == entries;
  }

  // ---------------------------------------------------------------------------
  // Tests

  /** `runTest`: a skipped test passes with reason "Test skipped" and its
      action is never called; otherwise the action is called once and the
      test passes exactly when it throws the pass signal. A fail signal or
      any other error fails the test with the thrown message as reason; an
      action that returns fails it with the fixed "no pass or fail" reason. */
  function RunTest(e: Entry): (run: TestRun)
    ensures run.result.name == e.name
    ensures run.result.pass <==> e.skip || e.action.ThrowsPass?
    ensures e.skip ==> run.result.reason == Some(TestSkipped)
    ensures !e.skip && e.action.Returns? ==> run.result.reason == Some(NoPassOrFailCalled)
    ensures !e.skip && e.action.Throws() && !e.action.ThrowsPass? ==> run.result.reason == ThrownMessage(e.action)
    ensures !e.skip && e.action.ThrowsPass? ==> run.result.reason == None
  {
    if e.skip then
      TestRun(TestResult(e.name, true, Some(TestSkipped)), [ItemStarted(TestPhase, e.name, true)])
    else
      var called := [ItemStarted(TestPhase, e.name, false), Invoked(TestPhase, e.name)];
      var last: Event :=
        if e.action.Returns? then ItemError(TestPhase, Some(NoPassOrFailCalled))
        else if e.action.ThrowsPass? then ItemPassed
        else ItemError(TestPhase, ThrownMessage(e.action));
      var result :=
        if e.action.Returns? then TestResult(e.name, false, Some(NoPassOrFailCalled))
        else if e.action.ThrowsPass? then TestResult(e.name, true, None)
        else TestResult(e.name, false, ThrownMessage(e.action));
      var trace := called + [last];
      TestRun(result, trace)
  }

  /** The two signals round-trip through the test runner: a test whose
      action calls `pass()` passes with no reason, and one whose action calls
      `fail(reason)` fails with exactly that reason. */
  lemma SignalOutcomes(name: string, reason: string)
    ensures RunTest(Entry(name, Pass(), false)).result == TestResult(name, true, None)
    ensures RunTest(Entry(name, Fail(reason), false)).result == TestResult(name, false, Some(reason))
  {
  }

  /** `tests.map(runTest)`: one result per test, in test order, and the test
      actions invoked in test order, skipped ones left out. */
  function RunTests(tests: seq<Entry>): (run: TestPhaseRun)
    ensures |run.results| == |tests|
    ensures forall i :: 0 <= i < |tests| ==> run.results[i] == RunTest(tests[i]).result
  {
    if tests == [] then TestPhaseRun([], [])
    else
      var n := |tests| - 1;
      var done := RunTests(tests[..n]);
      var last := RunTest(tests[n]);
      TestPhaseRun(done.results + [last.result], done.trace + last.trace)
  }

  /** A test entry's action is invoked once, unless the entry is skipped. */
  lemma RunTestInvocations(e: Entry)
    ensures Invocations(RunTest(e).trace) == if e.skip then [] else [Invoked(TestPhase, e.name)]
  {
    var trace := RunTest(e).trace;
    if e.skip {
      NoInvocations(trace);
    } else {
      InvocationsOfOne([ItemStarted(TestPhase, e.name, false)], Invoked(TestPhase, e.name), trace[2..]);
      assert trace == [ItemStarted(TestPhase, e.name, false)] + [Invoked(TestPhase, e.name)] + trace[2..];
    }
  }

  /** The test phase invokes the actions of the tests that are not skipped,
      each once, in test order. */
  lemma {:induction false} TestPhaseInvocations(tests: seq<Entry>)
    ensures Invocations(RunTests(tests).trace) == Invoking(TestPhase, tests)
  {
    if tests != [] {
      var n := |tests| - 1;
      TestPhaseInvocations(tests[..n]);
      RunTestInvocations(tests[n]);
      InvocationsAppend(RunTests(tests[..n]).trace, RunTest(tests[n]).trace);
    }
  }

  /** A test whose entry is run fails exactly when it is not skipped and its
      action does not throw the pass signal. */
  predicate Fails(e: Entry)
  {
    !e.skip && !e.action.ThrowsPass?
  }

  /** `hasFailure`. */
  predicate HasFailure(r: TestResult)
  {
    !r.pass
  }

  /** `results.find(hasFailure)`: the first result that failed, if any. */
  function FindFailure(results: seq<TestResult>): (found: Option<TestResult>)
    ensures found.None? <==> forall i :: 0 <= i < |results| ==> results[i].pass
    ensures found.Some? ==>
      !found.value.pass &&
      exists i :: 0 <= i < |results| && results[i] == found.value &&
        forall j :: 0 <= j < i ==> results[j].pass
  {
    if results == [] then None
    else if HasFailure(results[0]) then Some(results[0])
    else
      var found := FindFailure(results[1..]);
      if found.Some? then
        ghost var i :| 0 <= i < |results[1..]| && results[1..][i] == found.value &&
          forall j :: 0 <= j < i ==> results[1..][j].pass;
        assert results[i + 1] == found.value;
        assert forall j :: 0 <= j < i + 1 ==> results[j].pass by {
          forall j | 0 <= j < i + 1 ensures results[j].pass {
            if j > 0 { assert results[j] == results[1..][j - 1]; }
          }
        }
        found
      else
        assert forall j :: 1 <= j < |results| ==> results[j] == results[1..][j - 1];
        found
  }
}
