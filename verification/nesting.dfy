/** The setup/teardown log of suite/suite_test.go: each setup hook appends
    `>node`, each teardown hook appends `<node`. `Log` is the hook-call log,
    with one entry per setup or teardown call whatever its outcome: the log
    of a tracker whose hooks append before anything can fail. For a suite
    whose setups and teardowns come in pairs, that log is well nested for
    every run, and when all three setups exist it holds two entries per
    node. The tracker of suite/suite_test.go appends at the end of each
    setup (`TrackerLog`); it equals the hook-call log exactly when no setup
    panics. */
module Nesting {
  import opened Wrappers
  import opened Capabilities
  import opened Tree
  import opened Wiring
  import opened Selection
  import opened Lifecycle
  import opened Brackets

  predicate Opening(h: Hook) {
    h == SetupSuite || h == SetupTest || h == SetupSubTest
  }

  predicate Closing(h: Hook) {
    h == TearDownSuite || h == TearDownTest || h == TearDownSubTest
  }

  /** The hook-call log entry of one event: a setup call counts as
      appended even when the setup then panics. */
  function Entry(e: Event): seq<Bracket<Path>> {
    if e.Called? && Opening(e.hook) then [Open(e.node)]
    else if e.Called? && Closing(e.hook) then [Close(e.node)]
    else []
  }

  /** The log of a trace. */
  function Log(trace: seq<Event>): seq<Bracket<Path>> {
    if trace == [] then [] else Entry(trace[0]) + Log(trace[1..])
  }

  /** The number of nodes started in a trace. */
  function Nodes(trace: seq<Event>): nat {
    if trace == [] then 0 else (if trace[0].Started? then 1 else 0) + Nodes(trace[1..])
  }

  lemma {:induction false} LogConcat(a: seq<Event>, b: seq<Event>)
    ensures Log(a + b) == Log(a) + Log(b)
    ensures Nodes(a + b) == Nodes(a) + Nodes(b)
    decreases |a|
  {
    if a == [] {
      assert a + b == b;
    } else {
      assert (a + b)[0] == a[0] && (a + b)[1..] == a[1..] + b;
      LogConcat(a[1..], b);
    }
  }

  lemma LogConcat3(a: seq<Event>, b: seq<Event>, c: seq<Event>)
    ensures Log(a + b + c) == Log(a) + Log(b) + Log(c)
    ensures Nodes(a + b + c) == Nodes(a) + Nodes(b) + Nodes(c)
  {
    LogConcat(a + b, c);
    LogConcat(a, b);
  }

  /** The entry the tracker of suite/suite_test.go really appends for one
      event. Its setups append as their last statement, so a setup that
      panics (or calls FailNow) appends nothing; its teardowns append first,
      so every teardown call is logged. */
  function TrackerEntry(e: Event): seq<Bracket<Path>> {
    if e.Called? && Opening(e.hook) && e.outcome != Panics then [Open(e.node)]
    else if e.Called? && Closing(e.hook) then [Close(e.node)]
    else []
  }

  function TrackerLog(trace: seq<Event>): seq<Bracket<Path>> {
    if trace == [] then [] else TrackerEntry(trace[0]) + TrackerLog(trace[1..])
  }

  /** No setup call of the trace panics. */
  predicate SetupsContinue(trace: seq<Event>) {
    forall e :: e in trace && e.Called? && Opening(e.hook) ==> e.outcome != Panics
  }

  /** The tracker's log is the hook-call log exactly when no setup panics;
      otherwise it is shorter, one `>node` short per panicking setup. */
  lemma {:induction false} TrackerIsLog(trace: seq<Event>)
    ensures SetupsContinue(trace) ==> TrackerLog(trace) == Log(trace)
    ensures !SetupsContinue(trace) ==> |TrackerLog(trace)| < |Log(trace)|
    ensures |TrackerLog(trace)| <= |Log(trace)|
    decreases |trace|
  {
    if trace != [] {
      TrackerIsLog(trace[1..]);
      assert forall e :: e in trace <==> e == trace[0] || e in trace[1..];
    }
  }

  lemma {:induction false} TrackerConcat(a: seq<Event>, b: seq<Event>)
    ensures TrackerLog(a + b) == TrackerLog(a) + TrackerLog(b)
    decreases |a|
  {
    if a == [] {
      assert a + b == b;
    } else {
      assert (a + b)[0] == a[0] && (a + b)[1..] == a[1..] + b;
      TrackerConcat(a[1..], b);
    }
  }

  lemma TrackerOpt(b: bool, e: Event)
    ensures TrackerLog(Opt(b, e)) == if b then TrackerEntry(e) else []
  {
    if b { assert [e][1..] == []; }
  }

  /** The log entry of one cleanup when it fires on `node`. */
  function CleanupEntry(node: Path, c: Cleanup): seq<Bracket<Path>> {
    match c
    case Deferred(h, args, o) => Entry(Called(node, h, args, o))
    case _ => []
  }

  /** The log entries a cleanup stack produces when popped, top first. */
  function StackLog(node: Path, stack: Stack): seq<Bracket<Path>> {
    match stack
    case Bottom => []
    case Push(below, c) => CleanupEntry(node, c) + StackLog(node, below)
  }

  /** Popping the stack logs exactly what the stack says, whatever the
      failure state and statistics. */
  lemma {:induction false} UnwindLog(node: Path, stack: Stack, failed: bool, stats: map<string, bool>)
    ensures Log(Unwind(node, stack, failed, stats).trace) == StackLog(node, stack)
    ensures Nodes(Unwind(node, stack, failed, stats).trace) == 0
  {
    match stack
    case Bottom =>
    case Push(below, c) =>
      var top := Fire(node, c, failed, stats);
      var u := Unwind(node, below, top.failed, top.stats);
      UnwindLog(node, below, top.failed, top.stats);
      LogConcat(top.trace, u.trace);
      FireLog(node, c, failed, stats);
  }

  lemma FireLog(node: Path, c: Cleanup, failed: bool, stats: map<string, bool>)
    ensures Log(Fire(node, c, failed, stats).trace) == CleanupEntry(node, c)
    ensures Nodes(Fire(node, c, failed, stats).trace) == 0
  {
    match c
    case Deferred(h, args, o) => LogOne(Called(node, h, args, o));
    case RecordEnd(test) => LogOne(TestEnd(node, !failed));
    case DeliverStats(args, o) => LogTwo(StatsEnd(node), Called(node, HandleStats, args, o));
  }

  predicate AllSetups(caps: Caps) {
    caps.setupSuite && caps.setupTest && caps.setupSubTest
  }

  /** A node's log: what its function emitted before the body, the body's
      part, then its cleanups. */
  lemma FinishLog(node: Path, f: Frame, b: BodyRun, stats: map<string, bool>)
    requires f.trace <= b.frame.trace && b.frame.stack == f.stack
    ensures Log(b.frame.trace + Unwind(node, b.frame.stack, b.frame.failed, stats).trace)
      == Log(f.trace) + Log(b.frame.trace[|f.trace|..]) + StackLog(node, f.stack)
    ensures Nodes(b.frame.trace + Unwind(node, b.frame.stack, b.frame.failed, stats).trace)
      == Nodes(f.trace) + Nodes(b.frame.trace[|f.trace|..])
  {
    var tail := b.frame.trace[|f.trace|..];
    var u := Unwind(node, b.frame.stack, b.frame.failed, stats);
    assert b.frame.trace == f.trace + tail;
    UnwindLog(node, b.frame.stack, b.frame.failed, stats);
    LogConcat(f.trace, tail);
    LogConcat(f.trace + tail, u.trace);
  }

  lemma LogOne(e: Event)
    ensures Log([e]) == Entry(e) && Nodes([e]) == if e.Started? then 1 else 0
  {
    assert [e][1..] == [];
  }

  lemma LogTwo(e: Event, e': Event)
    ensures Log([e, e']) == Entry(e) + Entry(e')
    ensures Nodes([e, e']) == (if e.Started? then 1 else 0) + (if e'.Started? then 1 else 0)
  {
    LogConcat([e], [e']);
    LogOne(e);
    LogOne(e');
    assert [e, e'] == [e] + [e'];
  }

  lemma LogOpt(b: bool, e: Event)
    ensures Log(Opt(b, e)) == if b then Entry(e) else []
    ensures Nodes(Opt(b, e)) == if b && e.Started? then 1 else 0
  {
    if b { LogOne(e); }
  }

  lemma StackLogOne(node: Path, b: bool, c: Cleanup)
    ensures StackLog(node, PushIf(Bottom, b, c)) == if b then CleanupEntry(node, c) else []
  {
    if b { assert CleanupEntry(node, c) + [] == CleanupEntry(node, c); }
  }

  /** A node whose level has its setup and teardown, or neither, around a
      well-nested inner log. */
  lemma PairLog(node: Path, paired: bool, log: seq<Bracket<Path>>, inner: seq<Bracket<Path>>)
    requires log == Opt(paired, Open(node)) + inner + Opt(paired, Close(node))
    requires WellNested(inner)
    ensures WellNested(log)
    ensures Opens(log) == Opens(inner) + (if paired then 1 else 0)
  {
    if paired {
      NestedWrap(node, inner);
      OpensConcat([Open(node)] + inner, [Close(node)]);
      OpensConcat([Open(node)], inner);
      assert Opens([Open(node)]) == 1 by { assert [Open(node)][1..] == []; }
      assert Opens([Close(node)]) == 0 by { assert [Close(node)][1..] == []; }
    } else {
      assert log == inner;
    }
  }

  /** A sub-test node's log and node count before its function. */
  lemma SubTestPrefixLog(caps: Caps, g: GlobalRef, caller: Instance, node: Path, st: SubTest, next: nat)
    ensures var f := SubTestPrologue(caps, g, caller, node, st, next);
      && Log(f.trace) == Opt(caps.setupSubTest, Open(node))
      && Nodes(f.trace) == 1
      && StackLog(node, f.stack) == Opt(caps.tearDownSubTest, Close(node))
  {
    var f := SubTestPrologue(caps, g, caller, node, st, next);
    var a := [Started(node, NewNode(Handle(next), g, Instance(next), Some(caller)))];
    var c := Called(node, SetupSubTest, [], st.setup);
    LogConcat(a, Opt(caps.setupSubTest, c));
    LogOne(a[0]);
    LogOpt(caps.setupSubTest, c);
    StackLogOne(node, caps.tearDownSubTest, Deferred(TearDownSubTest, [], st.tearDown));
  }

  lemma {:induction false} SubTestNested(caps: Caps, g: GlobalRef, caller: Instance, parent: Path, st: SubTest, next: nat)
    requires caps.Paired()
    ensures WellNested(Log(RunSubTest(caps, g, caller, parent, st, next).trace))
    ensures AllSetups(caps) ==>
      Opens(Log(RunSubTest(caps, g, caller, parent, st, next).trace)) == Nodes(RunSubTest(caps, g, caller, parent, st, next).trace)
    decreases st, 2
  {
    var node := parent + [st.name];
    var f := SubTestPrologue(caps, g, caller, node, st, next);
    var tail := RunBody(caps, g, Instance(next), node, st.body, f, next + 1).frame.trace[|f.trace|..];
    BodyNested(caps, g, Instance(next), node, st.body, f, next + 1);
    SubTestLog(caps, g, caller, parent, st, next);
    PairLog(node, caps.setupSubTest, Log(RunSubTest(caps, g, caller, parent, st, next).trace), Log(tail));
  }

  /** A sub-test's log wraps its function's log in its own pair. */
  lemma SubTestLog(caps: Caps, g: GlobalRef, caller: Instance, parent: Path, st: SubTest, next: nat)
    ensures var node := parent + [st.name];
      var f := SubTestPrologue(caps, g, caller, node, st, next);
      var tail := RunBody(caps, g, Instance(next), node, st.body, f, next + 1).frame.trace[|f.trace|..];
      var r := RunSubTest(caps, g, caller, parent, st, next);
      && Log(r.trace) == Opt(caps.setupSubTest, Open(node)) + Log(tail) + Opt(caps.tearDownSubTest, Close(node))
      && Nodes(r.trace) == 1 + Nodes(tail)
  {
    var node := parent + [st.name];
    var f := SubTestPrologue(caps, g, caller, node, st, next);
    var b := RunBody(caps, g, Instance(next), node, st.body, f, next + 1);
    FinishLog(node, f, b, map[]);
    SubTestPrefixLog(caps, g, caller, node, st, next);
  }

  lemma {:induction false} BodyNested(caps: Caps, g: GlobalRef, self: Instance, node: Path, body: Body, f: Frame, next: nat)
    requires caps.Paired()
    ensures WellNested(Log(RunBody(caps, g, self, node, body, f, next).frame.trace[|f.trace|..]))
    ensures AllSetups(caps) ==>
      Opens(Log(RunBody(caps, g, self, node, body, f, next).frame.trace[|f.trace|..]))
        == Nodes(RunBody(caps, g, self, node, body, f, next).frame.trace[|f.trace|..])
    decreases body, 1
  {
    var r := RunBody(caps, g, self, node, body, f, next);
    if !f.live {
      assert r.frame.trace[|f.trace|..] == [];
    } else {
      var kids := RunSubTests(caps, g, self, node, body.subTests, next);
      assert r.frame.trace == f.trace + [BodyRan(node, body.ends)] + kids.trace;
      assert r.frame.trace[|f.trace|..] == [BodyRan(node, body.ends)] + kids.trace;
      SubTestsNested(caps, g, self, node, body.subTests, next);
      LogConcat([BodyRan(node, body.ends)], kids.trace);
      LogOne(BodyRan(node, body.ends));
      assert Log([BodyRan(node, body.ends)] + kids.trace) == Log(kids.trace);
    }
  }

  lemma {:induction false} SubTestsNested(caps: Caps, g: GlobalRef, caller: Instance, parent: Path, subs: seq<SubTest>, next: nat)
    requires caps.Paired()
    ensures WellNested(Log(RunSubTests(caps, g, caller, parent, subs, next).trace))
    ensures AllSetups(caps) ==>
      Opens(Log(RunSubTests(caps, g, caller, parent, subs, next).trace)) == Nodes(RunSubTests(caps, g, caller, parent, subs, next).trace)
    decreases subs, 0
  {
    if subs != [] {
      var first := RunSubTest(caps, g, caller, parent, subs[0], next);
      var rest := RunSubTests(caps, g, caller, parent, subs[1..], first.next);
      SubTestNested(caps, g, caller, parent, subs[0], next);
      SubTestsNested(caps, g, caller, parent, subs[1..], first.next);
      LogConcat(first.trace, rest.trace);
      NestedConcat(Log(first.trace), Log(rest.trace));
      OpensConcat(Log(first.trace), Log(rest.trace));
    }
  }

  /** A test node's log and node count before its method. */
  lemma TestPrefixLog(s: Suite, m: Method, next: nat)
    ensures var f := TestPrologue(s, m, next);
      && Log(f.trace) == Opt(s.caps.setupTest, Open([m.name]))
      && Nodes(f.trace) == 1
      && StackLog([m.name], f.stack) == Opt(s.caps.tearDownTest, Close([m.name]))
  {
    var f := TestPrologue(s, m, next);
    var node := [m.name];
    var setupOk := Continues(s.caps.setupTest, m.setupTest);
    TestTraceLog(node, Started(node, NewNode(Handle(next), Global, Instance(next), Some(SuiteInstance))),
      s.caps.handleStats, s.caps.setupTest, setupOk && s.caps.beforeTest, m.setupTest, [s.name, m.name], m.beforeTest);
    TestStackLog(node, s.caps.handleStats, s.caps.tearDownTest, setupOk && s.caps.afterTest,
      m.name, m.tearDownTest, [s.name, m.name], m.afterTest);
  }

  lemma TestTraceLog(node: Path, start: Event, b1: bool, b2: bool, b3: bool, o2: Outcome, args: seq<string>, o3: Outcome)
    requires start.Started?
    ensures var t := [start] + Opt(b1, TestBegin(node)) + Opt(b2, Called(node, SetupTest, [], o2))
                     + Opt(b3, Called(node, BeforeTest, args, o3));
      Log(t) == Opt(b2, Open(node)) && Nodes(t) == 1
  {
    var a := [start];
    var b := Opt(b1, TestBegin(node));
    var c := Opt(b2, Called(node, SetupTest, [], o2));
    var d := Opt(b3, Called(node, BeforeTest, args, o3));
    LogConcat(a + b + c, d);
    LogConcat(a + b, c);
    LogConcat(a, b);
    LogOne(start);
    LogOpt(b1, TestBegin(node));
    LogOpt(b2, Called(node, SetupTest, [], o2));
    LogOpt(b3, Called(node, BeforeTest, args, o3));
  }

  lemma TestStackLog(node: Path, b1: bool, b2: bool, b3: bool, name: string, o2: Outcome, args: seq<string>, o3: Outcome)
    ensures StackLog(node, PushIf(PushIf(PushIf(Bottom, b1, RecordEnd(name)), b2, Deferred(TearDownTest, [], o2)),
                                  b3, Deferred(AfterTest, args, o3)))
            == Opt(b2, Close(node))
  {
    var x := PushIf(Bottom, b1, RecordEnd(name));
    StackLogOne(node, b1, RecordEnd(name));
    assert StackLog(node, x) == [];
    assert StackLog(node, PushIf(x, b2, Deferred(TearDownTest, [], o2))) == Opt(b2, Close(node)) by {
      if b2 { assert [Close(node)] + [] == [Close(node)]; }
    }
  }

  lemma {:induction false} TestNested(s: Suite, m: Method, stats: map<string, bool>, next: nat)
    requires s.caps.Paired()
    ensures WellNested(Log(RunTest(s, m, stats, next).trace))
    ensures AllSetups(s.caps) ==> Opens(Log(RunTest(s, m, stats, next).trace)) == Nodes(RunTest(s, m, stats, next).trace)
  {
    var node := [m.name];
    var f := TestPrologue(s, m, next);
    var tail := RunBody(s.caps, Global, Instance(next), node, m.body, f, next + 1).frame.trace[|f.trace|..];
    BodyNested(s.caps, Global, Instance(next), node, m.body, f, next + 1);
    TestLog(s, m, stats, next);
    PairLog(node, s.caps.setupTest, Log(RunTest(s, m, stats, next).trace), Log(tail));
  }

  /** A test's log wraps its method's log in its own pair. */
  lemma TestLog(s: Suite, m: Method, stats: map<string, bool>, next: nat)
    ensures var node := [m.name];
      var f := TestPrologue(s, m, next);
      var tail := RunBody(s.caps, Global, Instance(next), node, m.body, f, next + 1).frame.trace[|f.trace|..];
      var r := RunTest(s, m, stats, next);
      && Log(r.trace) == Opt(s.caps.setupTest, Open(node)) + Log(tail) + Opt(s.caps.tearDownTest, Close(node))
      && Nodes(r.trace) == 1 + Nodes(tail)
  {
    var node := [m.name];
    var f := TestPrologue(s, m, next);
    var b := RunBody(s.caps, Global, Instance(next), node, m.body, f, next + 1);
    FinishLog(node, f, b, stats);
    TestPrefixLog(s, m, next);
  }

  lemma {:induction false} TestsNested(s: Suite, run: seq<Method>, stats: map<string, bool>, next: nat)
    requires s.caps.Paired()
    ensures WellNested(Log(RunTests(s, run, stats, next).trace))
    ensures AllSetups(s.caps) ==> Opens(Log(RunTests(s, run, stats, next).trace)) == Nodes(RunTests(s, run, stats, next).trace)
    decreases |run|
  {
    if run != [] {
      var first := RunTest(s, run[0], stats, next);
      var rest := RunTests(s, run[1..], first.stats, first.next);
      TestNested(s, run[0], stats, next);
      TestsNested(s, run[1..], first.stats, first.next);
      LogConcat(first.trace, rest.trace);
      NestedConcat(Log(first.trace), Log(rest.trace));
      OpensConcat(Log(first.trace), Log(rest.trace));
    }
  }

  /** The suite node's log and node count before its tests. */
  lemma SuitePrefixLog(s: Suite)
    ensures var f := SuitePrologue(s);
      && Log(f.trace) == Opt(s.caps.setupSuite, Open([]))
      && Nodes(f.trace) == 1
      && StackLog([], f.stack) == Opt(s.caps.tearDownSuite, Close([]))
  {
    SuitePrefixTrace(s);
    SuitePrefixStack(s);
  }

  lemma SuitePrefixTrace(s: Suite)
    ensures var f := SuitePrologue(s);
      Log(f.trace) == Opt(s.caps.setupSuite, Open([])) && Nodes(f.trace) == 1
  {
    var a := [Started([], NewNode(Handle(0), Global, SuiteInstance, None))];
    var b := Opt(s.caps.handleStats, StatsBegin([]));
    var c := Opt(s.caps.setupSuite, Called([], SetupSuite, [], s.setupSuite));
    LogConcat(a + b, c);
    LogConcat(a, b);
    LogOne(a[0]);
    LogOpt(s.caps.handleStats, StatsBegin([]));
    LogOpt(s.caps.setupSuite, Called([], SetupSuite, [], s.setupSuite));
  }

  lemma SuitePrefixStack(s: Suite)
    ensures StackLog([], SuitePrologue(s).stack) == Opt(s.caps.tearDownSuite, Close([]))
  {
    var x := PushIf(Bottom, s.caps.handleStats, DeliverStats([s.name], s.handleStats));
    StackLogOne([], s.caps.handleStats, DeliverStats([s.name], s.handleStats));
    assert StackLog([], x) == [];
    assert StackLog([], PushIf(x, s.caps.tearDownSuite, Deferred(TearDownSuite, [], s.tearDownSuite))) == Opt(s.caps.tearDownSuite, Close([])) by {
      if s.caps.tearDownSuite { var log: seq<Bracket<Path>> := [Close([])]; assert log + [] == log; }
    }
  }

  /** With paired setups and teardowns, the hook-call log of a suite run
      is a well-nested bracket sequence: a node's teardown entry comes after
      every entry of its sub-tree. With all three setups implemented it
      holds exactly two entries per node started (the suite, each test,
      each sub-test); a setup call counts whatever its outcome. */
  lemma {:induction false} SuiteIsWellNested(s: Suite, run: seq<Method>)
    requires s.caps.Paired()
    ensures WellNested(Log(RunSuite(s, run).trace))
    ensures AllSetups(s.caps) ==> |Log(RunSuite(s, run).trace)| == 2 * Nodes(RunSuite(s, run).trace)
  {
    var f := SuitePrologue(s);
    var t := if f.live then RunTests(s, run, map[], 1) else TestRun([], false, map[], 1);
    if f.live { TestsNested(s, run, map[], 1); }
    SuiteLog(s, run);
    PairLog([], s.caps.setupSuite, Log(RunSuite(s, run).trace), Log(t.trace));
    NestedIsBalanced(Log(RunSuite(s, run).trace));
  }

  /** The suite node's log wraps its tests' log in its own pair. */
  lemma SuiteLog(s: Suite, run: seq<Method>)
    ensures var f := SuitePrologue(s);
      var t := if f.live then RunTests(s, run, map[], 1) else TestRun([], false, map[], 1);
      && Log(RunSuite(s, run).trace) == Opt(s.caps.setupSuite, Open([])) + Log(t.trace) + Opt(s.caps.tearDownSuite, Close([]))
      && Nodes(RunSuite(s, run).trace) == 1 + Nodes(t.trace)
  {
    var f := SuitePrologue(s);
    var t := if f.live then RunTests(s, run, map[], 1) else TestRun([], false, map[], 1);
    var u := Unwind([], f.stack, f.failed || t.failed, t.stats);
    assert RunSuite(s, run).trace == f.trace + t.trace + u.trace;
    UnwindLog([], f.stack, f.failed || t.failed, t.stats);
    SuitePrefixLog(s);
    LogConcat3(f.trace, t.trace, u.trace);
  }

  /** With paired setups and teardowns, the hook-call log of every
      completed run is well nested (and two entries per node when all
      setups exist). */
  lemma RunIsWellNested(s: Suite, cfg: FilterConfig)
    requires s.caps.Paired()
    requires Run(s, cfg).Completed?
    ensures WellNested(Log(Run(s, cfg).trace))
    ensures AllSetups(s.caps) ==> |Log(Run(s, cfg).trace)| == 2 * Nodes(Run(s, cfg).trace)
  {
    SuiteIsWellNested(s, Selected(cfg, s.methods).value);
  }
}
