# Suite lifecycle ordering, modelled in Dafny

A model of the lifecycle core of testify's generic `suite` package. It covers:

- how `suite.Run[T, G]` picks the methods to run (`methodFilter`);
- how it wires a fresh `Suite[T, G]` struct for the suite node, each test and each sub-test, with the set-once guards `setT`, `setG`, `setS`, `setP` and the `Require`/`Assert` accessors;
- the hook and cleanup state machine that the top-level `Run` and `Suite.Run` (sub-tests) set up around every node, over the nine optional capabilities of `suite/interfaces.go`.

A suite is an immutable tree: the suite's name, a record of the capabilities it implements, and its methods in enumeration order. Each method and sub-test records how each hook call on its node ends: it returns, it fails without unwinding (`t.Error`), or it panics (a panic or `FailNow`). A pure interpreter turns the tree into the trace of events an observer sees. Each node owns a LIFO cleanup stack (the engine's `T.Cleanup`). A panic ends the rest of the node's straight-line chain; the node's deferred `recoverAndFailOnPanic` marks it failed. The stack pops only after the node's function and all of its sub-tests have finished, and every popped cleanup runs in its own recovery wrapper.

Modules:

- `Capabilities`, `Tree`, `Wiring`: the data model and the set-once guards.
- `Selection`: `methodFilter` and the run-set loop.
- `Lifecycle`: the interpreter.
- `Shapes`: closed forms of each node's trace.
- `Ordering`: call orders, teardowns despite panics, exactly-once.
- `Absence`: removing a capability removes only its own calls.
- `Brackets` and `Nesting`: the `>name`/`<name` hook-call log is well nested, and equals the test's tracker log when no setup panics.
- `Directories`: replaying that log as mkdir and remove, as the parallel suite's TearDownSuite does, succeeds and leaves nothing behind.
- `Scope`: which events a sub-tree may emit.
- `Identity`: fresh instances, one shared global, parent links.
- `Stats`: what `HandleStats` is handed.
- `Scenarios`: the suites of `suite/suite_test.go` run through the model.

Each capability check in the code (`any(suite).(SetupTestSuite)` and the like, suite/suite.go:200-358) guards only that capability's own calls. So `Absence.AbsentCapability` compares a suite that implements a capability with the same suite without it. If every call of that capability returns, the run without it is the run with it minus those calls. For `WithStats`, the statistics events and the `HandleStats` call disappear too. The pass state is the same in both runs, and so is the record unless the capability is `WithStats`. When a call panics or fails, removing it changes the run, and the lemma says nothing about that case.

Every nesting and ordering lemma holds for any list of sibling tests and sub-tests, so it holds for every sequential order of siblings; interleaved parallel siblings are not modelled (see Left out).

The nesting results are about the hook-call log (`Nesting.Log`): one `>node` per setup call and one `<node` per teardown call, whatever the call's outcome. That is the log of a tracker whose hooks append before anything can fail. The tracker of suite/suite_test.go appends as the last statement of each setup (suite/suite_test.go:69, 119, 139) and as the first of each teardown (74, 124, 144). So a setup that panics appends nothing while its teardown still appends. `Nesting.TrackerIsLog` shows that this tracker's log equals the hook-call log exactly when no setup panics. `Directories.SetupTestPanicBreaksTracker` shows that a panicking SetupTest leaves an unmatched `<test`.

The parallel suite's TearDownSuite replays its tracker log as `os.Mkdir` for each `>node` and `os.Remove` for each `<node` (suite/suite_test.go:90-111). Well nesting alone does not pass that check: a node may open under a directory that is not its parent (`Directories.NestingIsNotContainment`). With all three setups and their teardowns, `Directories.RunPassesDirectoryCheck` proves the check for the hook-call log of every completed run: every mkdir finds its parent and no clash, every remove finds its directory empty, and no directory is left. `Directories.TrackerPassesDirectoryCheck` proves it for the real tracker on runs whose setups all return.

`methodFilter` follows the code: a non-empty `testify.m` pattern decides alone, and `testify.x` is then never consulted (suite/suite.go:385-388). The exclude pattern is not applied on top of the include pattern: with `^TestA` and `Skip$`, `TestA2Skip` is still selected (`Scenarios.IncludeWinsOverExclude`).

## Model

| member | source | states |
|---|---|---|
| Wiring.SetT | suite/suite.go:111-118 | succeeds exactly when no engine handle is set; on success only the handle changes, to the new one |
| Wiring.SetG | suite/suite.go:121-126 | succeeds exactly when no global pointer is set; on success only that pointer changes |
| Wiring.SetS | suite/suite.go:129-134 | succeeds exactly when the node has no instance yet; on success only the instance changes |
| Wiring.SetP | suite/suite.go:137-142 | fails only when a parent is already recorded, so a nil parent may be set on a fresh node; on success only the parent changes |
| Wiring.Require | suite/suite.go:145-150 | panics exactly when T is unset, otherwise yields the stopping (`require`) checker bound to the node's own T |
| Wiring.Assert | suite/suite.go:153-158 | panics exactly when T is unset, otherwise yields the continuing (`assert`) checker bound to the node's own T |
| Wiring.SetOnce | suite/suite.go:111-142 | after a successful set that stores a non-nil value, a second set of the same field panics, whatever value it stores; a nil parent set by `setP` can still be overwritten |
| Wiring.Wire | suite/suite.go:182-187 | the four set calls succeed exactly on the zero struct and then yield exactly the given handle, global, instance and parent |
| Wiring.NewNode | suite/suite.go:309-314 | wiring a zero struct never panics |
| Wiring.WiredNodeIsUsable | suite/suite.go:109-158 | a wired node hands out a require and an assert checker on its own T, and wiring it a second time panics |
| Lifecycle.FailOnPanic | suite/suite.go:160-172 | a recovered panic marks the node failed and ends its chain; a nil one changes nothing; the failed flag stays truthful (failed exactly when some emitted event faulted) exactly when a recovered panic is already on the trace |
| Lifecycle.Enter | suite/suite.go:306-317 | a node starts running, with no fault on its trace, an empty cleanup stack and a truthful failed flag |
| Lifecycle.Register | suite/suite.go:340-345 | a cleanup is pushed only when the capability is present and the chain is still running; no event is emitted and the failed flag stays truthful if it was |
| Lifecycle.Note | suite/suite.go:278-279 | a statistics marker is appended only when statistics are on and the chain is running; the trace has a fault afterwards exactly when it had one before or the appended event faults, so a non-faulting marker keeps the failed flag truthful |
| Lifecycle.Invoke | suite/suite.go:347-349 | a present hook on a running chain adds its call event, fails the node if the call faults and ends the chain if it panics; otherwise nothing changes; the failed flag keeps meaning "some event faulted" |
| Lifecycle.Fire | suite/suite.go:269-276 | one popped cleanup: afterwards the node is failed exactly when it was before or the cleanup's own events fault |
| Lifecycle.Unwind | suite/suite.go:196-205 | popping the whole stack: afterwards failed exactly when failed before or some popped cleanup faulted |
| Lifecycle.SubTestPrologue | suite/suite.go:182-210 | a sub-test's chain: Started with a fresh handle and instance, the shared global and the caller as parent, then SetupSubTest; TearDownSubTest is on the stack whether or not SetupSubTest panics; failed exactly when SetupSubTest faulted |
| Lifecycle.RunSubTest | suite/suite.go:178-217 | a sub-test consumes at least one fresh identity and is failed exactly when some event of its subtree faulted |
| Lifecycle.RunBody | suite/suite.go:212-215 | a body runs only on a live chain, leaves the stack alone, only extends the trace and keeps "failed iff a fault occurred" |
| Lifecycle.RunSubTests | suite/suite.go:178-179 | sibling sub-tests run in order; the list is failed exactly when one of its events faulted |
| Lifecycle.TestPrologue | suite/suite.go:306-360 | a test's chain: Started, the statistics start, SetupTest, then BeforeTest with the suite and method names only if SetupTest did not panic; the stack holds the record, then TearDownTest, then AfterTest only if SetupTest did not panic |
| Lifecycle.RunTest | suite/suite.go:306-363 | a test consumes a fresh identity and is failed exactly when some event of its subtree faulted |
| Lifecycle.RunTests | suite/suite.go:369-372 | the selected tests run in order; failed exactly when some event faulted |
| Lifecycle.SuitePrologue | suite/suite.go:259-297 | the suite node's chain: Started with a nil parent, statistics start, SetupSuite; the stack holds the statistics delivery under TearDownSuite, both registered before SetupSuite runs |
| Lifecycle.RunSuite | suite/suite.go:259-373 | a non-empty run set always completes, failed exactly when some event faulted |
| Lifecycle.Run | suite/suite.go:220-257 | an invalid pattern ends the run exactly when selection fails, reporting selection's first error; nothing runs exactly when the run set is empty |
| Selection.MatchString | suite/suite.go:386-387 | matching fails exactly when the pattern does not compile |
| Selection.MethodFilter | suite/suite.go:376-397 | only names starting with "Test" can be accepted, every other name is rejected without error, and an error comes only from a pattern that does not compile |
| Selection.IncludeIgnoresExclude | suite/suite.go:385-388 | with an include pattern, the exclude pattern makes no difference, and a "Test" name is judged by the include match alone |
| Selection.ExcludeDropsMatches | suite/suite.go:390-394 | without an include pattern, a compiling exclude pattern keeps exactly the "Test" names it does not match; one that does not compile is the error for every "Test" name, and other names are still rejected without error |
| Selection.NoPatternsKeepsTestNames | suite/suite.go:376-396 | with neither pattern, exactly the "Test" names are kept and no error is possible |
| Selection.Selected | suite/suite.go:240-252 | selection succeeds exactly when every name filters without error; on error it is the first failing name's error; on success the run set is an order-preserving subsequence holding exactly the accepted methods |
| Selection.SelectedCounts | suite/suite.go:240-252 | a successful selection holds every copy of each accepted method and no copy of a rejected one |
| Selection.SelectMethods | suite/suite.go:241-252 | the loop computes the same run set or the same first error |
| Ordering.SetupSuiteFirst | suite/suite.go:293-297 | SetupSuite is called exactly once, right after the suite node starts and the statistics start, before every event of every test |
| Ordering.SetupSuitePanics | suite/suite.go:286-297 | when SetupSuite panics no test runs, but TearDownSuite and HandleStats still run; the run fails and HandleStats gets no test entries |
| Ordering.TearDownSuiteAfterTests | suite/suite.go:282-291 | TearDownSuite is called exactly once, after every event of every test and sub-test, followed only by the end of the statistics and HandleStats |
| Ordering.HandleStatsLast | suite/suite.go:265-276 | the end of the statistics and HandleStats with the suite's name are the last two events, HandleStats is called exactly once, and both come after every test event |
| Ordering.TestCallOrder | suite/suite.go:332-362 | a test whose SetupTest and BeforeTest do not panic emits exactly SetupTest, BeforeTest(suite, method), the method, its sub-tests, AfterTest(suite, method), TearDownTest, then its record |
| Ordering.SetupTestPanics | suite/suite.go:340-349 | when SetupTest panics, BeforeTest, the method and AfterTest do not run, TearDownTest still does, and the test is recorded as failed |
| Ordering.BeforeTestPanics | suite/suite.go:351-360 | when BeforeTest panics, the method does not run, AfterTest and TearDownTest still do, and the test is recorded as failed |
| Ordering.SetupSubTestPanics | suite/suite.go:200-210 | when SetupSubTest panics, the sub-test function does not run, TearDownSubTest still does, and the sub-test is failed |
| Ordering.NoTestMethodsRunNothing | suite/suite.go:254-257 | a suite without any "Test" method runs nothing, whatever the patterns |
| Ordering.AbsentHookSilent | suite/interfaces.go:3-56 | a capability the suite does not implement is never called, on any node |
| Absence.Drop | suite/interfaces.go:3-56 | the capability record without one capability no longer implements it |
| Absence.DropKeepsOthers | suite/interfaces.go:3-56 | removing one capability leaves every other capability as it was |
| Absence.SubTestErase | suite/suite.go:196-210 | if every SetupSubTest/TearDownSubTest call of a sub-tree returns, running it without that capability gives the same trace minus those calls, the same failure and the same numbering |
| Absence.TestErase | suite/suite.go:323-362 | the same for a test and any of the seven node-level capabilities; with HandleStats the record events disappear too, and otherwise the record is the same |
| Absence.TestsErase | suite/suite.go:369-372 | the same across the list of selected tests |
| Absence.SuiteErase | suite/suite.go:259-302 | the same for the whole suite node, SetupSuite, TearDownSuite and HandleStats included |
| Absence.AbsentCapability | suite/suite.go:220-373 | `Run` on a suite without one capability, whose calls in the suite with it all return, reaches the same filter verdict, and when it runs, the same trace minus that capability's events and the same pass state |
| Scope.SubTestScoped | suite/suite.go:182-210 | a sub-test's events all lie in its own subtree, call only SetupSubTest/TearDownSubTest the suite implements, and every node started shares the global data, with the caller's instance as its direct children's parent |
| Scope.TestScoped | suite/suite.go:306-362 | a test's events all lie under its own name, call no suite-level hook and only implemented ones, and its nodes share the global data with the suite's instance as the test's parent |
| Scope.TestsScoped | suite/suite.go:369-372 | the events of the tests never belong to the suite node and never call a suite-level hook |
| Scope.SuiteTests | suite/suite.go:293-302 | the tests run exactly when SetupSuite did not panic, and otherwise emit nothing and record nothing |
| Scope.SuiteParts | suite/suite.go:259-297 | a completed run is the prologue, the tests, TearDownSuite, then the end of the statistics and HandleStats, and its record is the tests' record |
| Nesting.SubTestNested | suite/suite.go:196-210 | with paired setups and teardowns, a sub-test's hook-call log is well nested; with all setups, it opens once per node started |
| Nesting.TestNested | suite/suite.go:332-349 | with paired setups and teardowns, a test's hook-call log is well nested; with all setups, it opens once per node started |
| Nesting.SuiteIsWellNested | suite/suite.go:282-297 | with paired setups and teardowns, the whole run's hook-call log is well nested and, with all setups, holds two entries per node started; setup calls count whatever their outcome |
| Nesting.RunIsWellNested | suite/suite.go:240-297 | with paired setups and teardowns, every completed `Run` has a well-nested hook-call log, with two entries per node started when all setups exist |
| Nesting.TrackerIsLog | suite/suite_test.go:116-145 | the log of a tracker that appends at the end of each setup and the start of each teardown equals the hook-call log when no setup panics, and is strictly shorter when one does |
| Directories.ChainChild | suite/suite_test.go:80-82 | the directories open under a child are those open under its parent plus the child itself |
| Directories.WrapRestores | suite/suite_test.go:90-104 | a node's `>`/`<` pair around a log that restores the directories with the node in place restores them without it, when the node is new, its parent exists and nothing lies inside it |
| Directories.SubTestRestores | suite/suite.go:196-210 | with all setups and their teardowns, a sub-test's log replays from its parent's open directories back to them |
| Directories.TestRestores | suite/suite.go:332-349 | the same for a test, from the suite's directory alone |
| Directories.TestsRestore | suite/suite.go:369-372 | the same for the whole list of tests |
| Directories.SuiteRestores | suite/suite_test.go:90-111 | with all setups and their teardowns, a suite run's hook-call log replays from no directory, every mkdir and remove succeeding, and leaves no directory |
| Directories.RunPassesDirectoryCheck | suite/suite_test.go:90-111 | the hook-call log of every completed `Run` of such a suite passes the parallel suite's directory check |
| Directories.TrackerPassesDirectoryCheck | suite/suite_test.go:64-111 | on a completed `Run` of such a suite whose setups all return, the real tracker's log equals the hook-call log and passes the directory check |
| Directories.SetupTestPanicBreaksTracker | suite/suite_test.go:116-126 | when SetupTest panics, the hook-call log of the test is `>test <test` but the real tracker's log is `<test` alone, and its replay fails |
| Directories.NestingIsNotContainment | suite/suite_test.go:90-104 | a well-nested log can still fail the check, when a node opens under a directory that is not its parent |
| Brackets.NestedIsBalanced | suite/suite_test.go:90-104 | a well-nested log has exactly as many closing entries as opening ones |
| Identity.SubTestOwners | suite/suite.go:182-187 | the nodes a sub-test starts get consecutive fresh handles and instances, each pair with the same number |
| Identity.TestOwners | suite/suite.go:309-314 | the same for a test and everything under it |
| Identity.TestsOwners | suite/suite.go:369-372 | the same across the whole list of tests |
| Identity.SuiteOwners | suite/suite.go:223-228 | over a whole run the nodes are numbered 0, 1, 2, ... in start order |
| Identity.OwnersDistinct | suite/suite.go:182-187 | no two started nodes share a handle or an instance |
| Identity.SubTestCount | suite/suite.go:207-215 | a sub-test starts one node for itself and its children's nodes only if SetupSubTest did not panic |
| Identity.TestCount | suite/suite.go:347-362 | a test starts its sub-tests only if neither SetupTest nor BeforeTest panicked |
| Identity.TestsCount | suite/suite.go:369-372 | the tests of a run start the sum of their nodes |
| Identity.SuiteCount | suite/suite.go:293-302 | a run numbers exactly the nodes the tree allows: the tests only if SetupSuite did not panic |
| Stats.TestPassState | suite/suite.go:323-362 | a test fails exactly when `Stats.TestFails` holds: SetupTest faulted, or BeforeTest faulted after SetupTest returned, or the method or a sub-test faulted on a live chain, or AfterTest (when registered) or TearDownTest faulted |
| Stats.TestRecord | suite/suite.go:323-330 | with statistics, a test's last event and only record is its pass state, "no fault anywhere in the test", and the shared record gets that same entry |
| Stats.RunTestsStats | suite/suite.go:323-330 | with distinct names, the record gains exactly one entry per test, keeps every older entry, and agrees with every record event |
| Stats.NoStatsWithoutHandler | suite/suite.go:259-263 | without HandleStats no statistics event is emitted and the record stays empty |
| Stats.TestsKeepStats | suite/suite.go:325-330 | without HandleStats the tests leave the record unchanged |
| Stats.SuiteStats | suite/suite.go:259-280 | HandleStats is handed one entry per selected test, agreeing with that test's record event, or none when SetupSuite panicked |
| Scenarios.ParallelSuiteTracker | suite/suite_test.go:89-111 | the parallel suite's hook-call log holds 20 entries, well nested, and its directory replay succeeds and leaves nothing behind |
| Scenarios.ParallelTrackerPassesCheck | suite/suite_test.go:64-111 | every hook of the parallel suite returns, so its real tracker logs the same entries and passes its directory check |
| Scenarios.LogSize | suite/suite_test.go:89-104 | a run with paired hooks and all setups logs two well-nested entries per node it starts |
| Scenarios.StatsSuiteScenario | suite/suite_test.go:469-493 | the statistics suite fails, HandleStats is called last with its name, TestPanic is recorded as failed and TestSomething as passed |
| Scenarios.BareTestStats | suite/suite_test.go:461-467 | a test without test-level hooks or sub-tests fails exactly when its method does, and is recorded so |
| Scenarios.SkippingSuiteSetup | suite/suite_test.go:359-380 | a suite whose only method is not a test never calls its panicking SetupSuite or TearDownSuite |
| Scenarios.IncludeWinsOverExclude | suite/suite.go:385-388 | `^TestA` with `Skip$` selects TestA1 and TestA2Skip |
| Scenarios.ExcludeAloneDropsSkip | suite/suite.go:390-394 | `Skip$` alone selects TestA1 and TestB1 |
| Scenarios.InvalidIncludeStopsRun | suite/suite.go:244-248 | an include pattern that does not compile ends the run with its error before any hook |
| Scenarios.InvalidExcludeStopsRun | suite/suite.go:390-393 | an exclude pattern that does not compile ends the run with its error before any hook |

## Left out

- Concurrency: `t.Parallel`, goroutine interleavings, `time.Sleep` and the mutex around the tracker. The model runs each child to completion before its parent's cleanups, which is the one ordering the engine guarantees.
- The tracker's own code: the nesting results are stated for the hook-call log, in which a setup's entry counts as appended even when the setup then panics. The tracker of suite/suite_test.go matches it only on runs whose setups do not panic (`Nesting.TrackerIsLog`); the directory check is proved for the real tracker only when every setup returns.
- Interleaved parallel siblings: the parallel suite's sub-tests call `s.Parallel()` and sleep a random time (suite/suite_test.go:157-162), so their entries may interleave in the tracker. The model runs siblings one after another, so the nesting and directory results cover every sequential order of siblings only.
- The regular-expression engine: a pattern is compiled by an abstract function to a matcher or an error; `^Test` is a prefix test.
- Reflection: method enumeration and its order, `method.Func.Call` and `setField`, including its "embed `*suite.Suite`" panic (suite/suite.go:192-194, 233-235, 399-421). The suite's methods are an input sequence.
- Clocks and the internals of `SuiteInformation`: the start and end times become marker events, and only each test's `Passed` is kept. `SuiteInformation.Passed` is not part of this model.
- Plumbing: `flag.Parse`, the `os.Exit(1)` and stderr message on a bad pattern (modelled as an `InvalidFilter` report), the "no tests to run" log line (a `NothingToRun` report), `debug.Stack` text and logging.
- The thin delegations to `testing.T` and the assert/require libraries (suite/suite.go:32-108).
- Engine-side behaviour: failfast, skipping and deadlines (suite/suite_test.go:496-574), and the stdout-capture logging test (suite/suite_test.go:397-443). `T.Skip` in a method is modelled as a normal return.
- A panic inside the statistics record cleanup (`stats.end`) cannot happen and is not modelled.
