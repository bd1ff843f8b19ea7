/** Registered callbacks and the trace a run leaves behind.

    The trace is the sequence of console notifications the orchestrator
    writes, interleaved with one `Invoked` event at each moment an action is
    called. The console text and its emoji are not modelled, only which
    notification it is and what it carries. */
module Callbacks {
  import opened Signals

  /** The three phases of a run, in the order they execute. */
  datatype Phase = SetupPhase | TestPhase | TeardownPhase

  function Rank(p: Phase): nat
  {
    match p
    case SetupPhase => 0
    case TestPhase => 1
    case TeardownPhase => 2
  }

  /** A registered callback `{name, fn, skip}`; `skip` is absent (false)
      unless the entry was registered through an `x` variant. */
  datatype Entry = Entry(name: string, action: Behaviour, skip: bool)

  datatype Event =
    | RunStarted                                          // "Starting tests."
    | PhaseStarted(phase: Phase)                          // "Setting up..." / "Cleaning up..."
    | ItemStarted(phase: Phase, name: string, skipped: bool) // entry name, "[SKIPPED]" when skipped
    | Invoked(phase: Phase, name: string)                 // the entry's action is called
    | ItemError(phase: Phase, message: Option<string>)    // "ERROR: <message>"
    | ItemPassed                                          // "Test passed."
    | RunFinished(passed: bool)                           // "Tests completed." / "Tests failed."

  /** The action invocations recorded in a trace, in order. */
  function Invocations(trace: seq<Event>): seq<Event>
  {
    if trace == [] then []
    else
      var last := trace[|trace| - 1];
      Invocations(trace[..|trace| - 1]) + (if last.Invoked? then [last] else [])
  }

  /** A trace with no `Invoked` event records no invocation. */
  lemma {:induction false} NoInvocations(trace: seq<Event>)
    requires forall k :: 0 <= k < |trace| ==> !trace[k].Invoked?
    ensures Invocations(trace) == []
  {
    if trace != [] {
      NoInvocations(trace[..|trace| - 1]);
    }
  }

  /** A trace with exactly one `Invoked` event records exactly that one. */
  lemma InvocationsOfOne(before: seq<Event>, call: Event, after: seq<Event>)
    requires call.Invoked?
    requires forall k :: 0 <= k < |before| ==> !before[k].Invoked?
    requires forall k :: 0 <= k < |after| ==> !after[k].Invoked?
    ensures Invocations(before + [call] + after) == [call]
  {
    NoInvocations(before);
    NoInvocations(after);
    assert [call][..0] == [];
    InvocationsAppend(before, [call]);
    InvocationsAppend(before + [call], after);
  }

  /** The invocations that running `entries` in phase `p` must make: one per
      entry that is not skipped, in registration order. */
  function Invoking(p: Phase, entries: seq<Entry>): (calls: seq<Event>)
    ensures forall k :: 0 <= k < |calls| ==> calls[k].Invoked? && calls[k].phase == p
  {
    if entries == [] then []
    else
      var last := entries[|entries| - 1];
      Invoking(p, entries[..|entries| - 1]) + (if last.skip then [] else [Invoked(p, last.name)])
  }

  lemma {:induction false} InvocationsAppend(a: seq<Event>, b: seq<Event>)
    ensures Invocations(a + b) == Invocations(a) + Invocations(b)
  {
    if b != [] {
      assert (a + b)[..|a + b| - 1] == a + b[..|b| - 1];
      InvocationsAppend(a, b[..|b| - 1]);
    } else {
      assert a + b == a;
    }
  }

  lemma {:induction false} InvokingAppend(p: Phase, a: seq<Entry>, b: seq<Entry>)
    ensures Invoking(p, a + b) == Invoking(p, a) + Invoking(p, b)
  {
    if b != [] {
      assert (a + b)[..|a + b| - 1] == a + b[..|b| - 1];
      InvokingAppend(p, a, b[..|b| - 1]);
    } else {
      assert a + b == a;
    }
  }

  /** Entry `i` contributes exactly one invocation, of its own name and at its
      own place, when it is not skipped, and none when it is. */
  lemma InvokingSplit(p: Phase, entries: seq<Entry>, i: nat)
    requires i < |entries|
    ensures Invoking(p, entries) ==
      Invoking(p, entries[..i])
      + (if entries[i].skip then [] else [Invoked(p, entries[i].name)])
      + Invoking(p, entries[i + 1..])
  {
    assert entries == entries[..i] + [entries[i]] + entries[i + 1..];
    InvokingAppend(p, entries[..i] + [entries[i]], entries[i + 1..]);
    InvokingAppend(p, entries[..i], [entries[i]]);
    assert [entries[i]][..0] == [];
  }

  /** Which entries get invoked depends on their names and skip flags only,
      never on how any action ends. */
  lemma {:induction false} InvokingIgnoresBehaviour(p: Phase, entries: seq<Entry>, i: nat, b: Behaviour)
    requires i < |entries|
    ensures Invoking(p, entries[i := entries[i].(action := b)]) == Invoking(p, entries)
  {
    var changed := entries[i := entries[i].(action := b)];
    var n := |entries| - 1;
    assert changed[n].name == entries[n].name && changed[n].skip == entries[n].skip;
    if i < n {
      assert changed[..n] == entries[..n][i := entries[i].(action := b)];
      InvokingIgnoresBehaviour(p, entries[..n], i, b);
    } else {
      assert changed[..n] == entries[..n];
    }
    assert Invoking(p, changed) == Invoking(p, changed[..n])
      + (if changed[n].skip then [] else [Invoked(p, changed[n].name)]);
  }
}
