# Slither test orchestrator, modelled in Dafny

Slither is a minimal JavaScript test runner. A suite registers named setup,
test and teardown callbacks. The x-prefixed variants register them as
skipped. `run()` then executes all setups, then all tests, then all
teardowns, and exits the process with status 1 when some test failed.

A test reports its verdict by throwing. `pass()` throws a `TestPass`.
`fail(reason)` throws a `TestFailError` whose message is the reason. Anything
else an action throws counts as a failure carrying that error's message. A
test whose action returns without throwing fails with the fixed reason
`No "pass()" or "fail()" called.`. Setup and teardown callbacks catch every
throw, `pass()` included, log it, and carry on with the next entry.

The model has four modules:

- `Signals` (`signals.dfy`): how an action ends. It is a `Behaviour`:
  `Returns`, `ThrowsPass`, `ThrowsFail(reason)` or `ThrowsOther(message)`.
  The message is optional because the thrown value need not have a
  `message` property. `Pass` and `Fail` model `pass()` and `fail(reason)`.
  A failed result's reason is the thrown value's `message`. That is
  undefined when the value has no such property (`throw "boom"`,
  `throw 42`), so the model gives `reason == None` there. A non-Error value
  that has one (`throw {message: "x"}`) gives `Some("x")`
  (src/Slither.js:67-68).
- `Callbacks` (`callbacks.dfy`): the registered entry `{name, action, skip}`,
  the three phases, and the trace. The trace is the console notifications
  in order, plus an `Invoked` event each time an action is called.
  `Invocations` picks out the calls in a trace. `Invoking` is the reference
  definition of which calls a phase must make.
- `Runners` (`runners.dfy`): `runSetup`/`runTeardown` are one loop method,
  `RunCallbacks`, with its per-entry callback `RunCallback`. Both are proved
  against the trace functions `EntryLog`/`PhaseLog`. `runTest` is `RunTest`,
  `tests.map(runTest)` is `RunTests`, and `results.find(hasFailure)` is
  `FindFailure`.
- `Orchestration` (`orchestrator.dfy`): the class `Orchestrator` owns the
  three registries as `seq<Entry>` fields. It has the six registration
  methods and `Run`. `Run` returns the results, the exit status (0 or 1) and
  the trace. `SuiteRegistry`/`SpecSuite` replay `spec/Slither.spec.js`.

## Model

| member | source | states |
|---|---|---|
| `Signals.Pass` | src/Slither.js:29-31 | `pass()` always throws the pass signal; the signal's message is "The test passed successfully" (src/TestPass.js:5) |
| `Signals.Fail` | src/Slither.js:33-35 | `fail(reason)` always throws a fail signal whose message is exactly `reason` (src/TestFailError.js:5); it is never the pass signal |
| `Runners.SignalOutcomes` | src/Slither.js:62-68 | round trip through the test runner: an action calling `pass()` gives `{name, pass: true}` with no reason; one calling `fail(r)` gives `{name, pass: false, reason: r}` |
| `Runners.RunTest` | src/Slither.js:52-70 | result carries the entry's name; passes iff skipped or the action threw the pass signal; reason "Test skipped" when skipped, the fixed no-pass-or-fail reason when the action returned, the thrown message on any other throw, none on a pass |
| `Runners.RunTestInvocations` | src/Slither.js:53-57 | a skipped test's action is never invoked; a non-skipped test's action is invoked exactly once |
| `Runners.RunTests` | src/Slither.js:124 | one result per test, same length, result `i` is the result of test `i` (order and names preserved) |
| `Runners.TestPhaseInvocations` | src/Slither.js:124 | the test phase invokes exactly the non-skipped tests' actions, once each, in registration order |
| `Runners.FindFailure` | src/Slither.js:126 | `results.find(hasFailure)`, with `hasFailure` (src/Slither.js:87) modelled by `HasFailure`, is none iff every result passed; otherwise it is the first result whose `pass` is false |
| `Runners.RunCallback` | src/Slither.js:39-49 | one setup/teardown entry: its trace equals `EntryLog`, whose meaning is stated by `EntryLogShape`: announced, invoked once iff not skipped, an error line iff not skipped and the action threw |
| `Runners.RunCallbacks` | src/Slither.js:37-50 | `runSetup` (and `runTeardown`, src/Slither.js:72-85, the same loop): the loop's trace equals `PhaseLog`, the header when non-empty followed by every entry's trace in order |
| `Runners.EntryLogShape` | src/Slither.js:40-47 | a setup/teardown entry is invoked once iff not skipped, and logs an error line iff its action threw, whatever it threw (the pass signal too) |
| `Runners.EntriesLogAt` | src/Slither.js:74-84 | the trace of a phase is the trace of the entries before `i`, then entry `i`'s own, then the entries after it: no entry affects another's trace |
| `Runners.PhaseInvocations` | src/Slither.js:72-85 | a setup/teardown phase invokes exactly its non-skipped entries, once each, in registration order |
| `Runners.ThrowIsCaught` | src/Slither.js:78-82 | when entry `i` throws, its error line follows its invocation and the rest of the phase is the full trace of the later entries: the throw neither propagates nor stops the phase |
| `Runners.PhaseIsolation` | src/Slither.js:43-47 | whatever entry `i`'s action does, the phase invokes the same actions in the same order |
| `Callbacks.InvokingSplit` | src/Slither.js:39-44 | entry `i` contributes one invocation, of its own name at its own position, when not skipped, and none when skipped |
| `Callbacks.InvokingIgnoresBehaviour` | src/Slither.js:74-80 | which entries are invoked depends only on their skip flags, never on how any action ends |
| `Orchestration.Orchestrator.constructor` | src/Slither.js:98-100 | the three registries start empty |
| `Orchestration.Orchestrator.Setup` | src/Slither.js:103-105 | appends exactly `{name, fn}` (not skipped) to setup; tests and teardown unchanged; no uniqueness check on names |
| `Orchestration.Orchestrator.XSetup` | src/Slither.js:106-108 | appends exactly `{name, fn, skip: true}` to setup; tests and teardown unchanged |
| `Orchestration.Orchestrator.Test` | src/Slither.js:109-111 | appends exactly `{name, fn}` to tests; setup and teardown unchanged |
| `Orchestration.Orchestrator.XTest` | src/Slither.js:112-114 | appends exactly `{name, fn, skip: true}` to tests; setup and teardown unchanged |
| `Orchestration.Orchestrator.Teardown` | src/Slither.js:115-117 | appends exactly `{name, fn}` to teardown; setup and tests unchanged |
| `Orchestration.Orchestrator.XTeardown` | src/Slither.js:118-120 | appends exactly `{name, fn, skip: true}` to teardown; setup and tests unchanged |
| `Orchestration.Orchestrator.Run` | src/Slither.js:121-128 | results are `tests.map(runTest)`; exit status is 0 or 1, and 1 iff some result failed iff some non-skipped test did not throw the pass signal; the trace is start, setup phase, test phase, teardown phase (unconditionally), finish; its invocations are setup's, then tests', then teardown's, so phase ranks never decrease |
| `Orchestration.Verdict` | src/Slither.js:87-96 | the verdict depends on the tests alone: `find(hasFailure)` finds something iff some test is not skipped and its action does not throw the pass signal, so skipped tests never fail a run |
| `Orchestration.PhasesInOrder` | src/Slither.js:122-125 | every setup invocation precedes every test invocation, which precedes every teardown invocation |
| `Orchestration.SuiteRegistry` | spec/Slither.spec.js:7-45 | the interleaved registrations of the example suite leave each registry holding its own entries in file order |
| `Orchestration.SpecSuite` | spec/Slither.spec.js:1-48 | running the example suite: both tests pass, the skipped test passes with "Test skipped", exit status 0, and the invoked actions are the two setups, two tests and two teardowns in that order, with no skipped action invoked |

## Left out

- Console output: the text of `logTask`/`logSubTask` (src/logging.js) and the emoji are not modelled. Each console line is an abstract `Event` in the returned trace.
- The emoji module is not part of this model. It only supplies labels.
- `process.exit(1)` is modelled as the returned exit status 1; the status 0 of a normal exit is returned likewise.
- Actions are not code: each entry carries the one way its action ends. An action whose outcome depends on state changed by earlier actions (the flags in spec/Slither.spec.js) is modelled by the outcome it has under the proved ordering. Other side effects of actions are not modelled.
- A thrown `null` or `undefined` is not modelled. Reading `error.message` inside the `catch` then throws a TypeError, which escapes the runner and aborts `run()`.
- Actions that never terminate, and asynchronous actions, are not modelled. A returned promise counts as a normal return, which is `Returns`.
- The `stack` field and prototype wiring of `TestPass`/`TestFailError` are JavaScript runtime plumbing. Only `message` is kept.
- Registration after `run()`, or from inside a running action, is not modelled (in the code a setup action that calls `test(...)` adds a test that then runs, while `forEach` and `map` skip entries appended during their own iteration). `Run` does not change the registries.
