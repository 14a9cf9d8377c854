/** Closed forms of what each node of the interpreter emits: its
    straight-line prologue, its function's part (nothing when the prologue
    panicked), then its cleanups in reverse registration order. The
    ordering, statistics and identity properties are read off these. */
module Shapes {
  import opened Wrappers
  import opened Capabilities
  import opened Tree
  import opened Wiring
  import opened Lifecycle

  /** Popping a stack whose top may or may not be `c`. */
  lemma UnwindPushIf(node: Path, below: Stack, p: bool, c: Cleanup, failed: bool, stats: map<string, bool>)
    ensures var top := Fire(node, c, failed, stats);
      var u := Unwind(node, below, top.failed, top.stats);
      Unwind(node, PushIf(below, p, c), failed, stats)
        == if p then Unwound(top.trace + u.trace, u.failed, u.stats) else Unwind(node, below, failed, stats)
  {
  }

  /** A stack of at most one cleanup. */
  lemma UnwindOne(node: Path, p: bool, c: Cleanup, failed: bool, stats: map<string, bool>)
    ensures Unwind(node, PushIf(Bottom, p, c), failed, stats)
      == if p then Fire(node, c, failed, stats) else Unwound([], failed, stats)
  {
    if p {
      var top := Fire(node, c, failed, stats);
      assert top.trace + [] == top.trace;
    }
  }

  /** The three cleanups a test may hold fire AfterTest first, then
      TearDownTest, then the statistics record, which sees the failures
      of the two hooks before it. */
  lemma TestCleanups(node: Path, name: string, withStats: bool, withTearDown: bool, withAfter: bool,
                     tearDown: Outcome, args: seq<string>, after: Outcome, failed: bool, stats: map<string, bool>)
    ensures var u := Unwind(node, PushIf(PushIf(PushIf(Bottom,
                                    withStats, RecordEnd(name)),
                                    withTearDown, Deferred(TearDownTest, [], tearDown)),
                                    withAfter, Deferred(AfterTest, args, after)), failed, stats);
      var before := failed || FaultsIf(withAfter, after) || FaultsIf(withTearDown, tearDown);
      && u.trace == Opt(withAfter, Called(node, AfterTest, args, after))
                    + Opt(withTearDown, Called(node, TearDownTest, [], tearDown))
                    + Opt(withStats, TestEnd(node, !before))
      && u.failed == before
      && u.stats == if withStats then stats[name := !before] else stats
  {
    var x := PushIf(Bottom, withStats, RecordEnd(name));
    var y := PushIf(x, withTearDown, Deferred(TearDownTest, [], tearDown));
    var failedY := failed || FaultsIf(withAfter, after);
    var before := failedY || FaultsIf(withTearDown, tearDown);
    var ux := Unwind(node, x, before, stats);
    UnwindOne(node, withStats, RecordEnd(name), before, stats);
    assert ux.trace == Opt(withStats, TestEnd(node, !before));
    var uy := Unwind(node, y, failedY, stats);
    assert uy.trace == Opt(withTearDown, Called(node, TearDownTest, [], tearDown)) + ux.trace;
    assert uy.failed == ux.failed && uy.stats == ux.stats;
    var uz := Unwind(node, PushIf(y, withAfter, Deferred(AfterTest, args, after)), failed, stats);
    assert uz.trace == Opt(withAfter, Called(node, AfterTest, args, after)) + uy.trace;
    assert uz.failed == uy.failed && uz.stats == uy.stats;
    Assoc(Opt(withAfter, Called(node, AfterTest, args, after)), Opt(withTearDown, Called(node, TearDownTest, [], tearDown)), ux.trace);
  }

  lemma Assoc<T>(a: seq<T>, b: seq<T>, c: seq<T>)
    ensures a + (b + c) == a + b + c
  {
  }

  /** The two cleanups the suite may hold fire TearDownSuite first, then the
      end of the statistics and HandleStats. */
  lemma SuiteCleanups(name: string, withStats: bool, withTearDown: bool, handle: Outcome, tearDown: Outcome,
                      failed: bool, stats: map<string, bool>)
    ensures var u := Unwind([], PushIf(PushIf(Bottom,
                                 withStats, DeliverStats([name], handle)),
                                 withTearDown, Deferred(TearDownSuite, [], tearDown)), failed, stats);
      && u.trace == Opt(withTearDown, Called([], TearDownSuite, [], tearDown))
                    + (if withStats then [StatsEnd([]), Called([], HandleStats, [name], handle)] else [])
      && u.stats == stats
  {
    var x := PushIf(Bottom, withStats, DeliverStats([name], handle));
    var failedX := failed || FaultsIf(withTearDown, tearDown);
    var ux := Unwind([], x, failedX, stats);
    UnwindOne([], withStats, DeliverStats([name], handle), failedX, stats);
    assert ux.trace == if withStats then [StatsEnd([]), Called([], HandleStats, [name], handle)] else [];
  }

  /** A node's function: nothing once its chain has stopped, otherwise the
      function's own event followed by the sub-tests it started. */
  lemma BodyShape(caps: Caps, g: GlobalRef, self: Instance, node: Path, body: Body, f: Frame, next: nat)
    ensures var r := RunBody(caps, g, self, node, body, f, next);
      var kids := RunSubTests(caps, g, self, node, body.subTests, next);
      && r.frame.trace == f.trace + (if f.live then [BodyRan(node, body.ends)] + kids.trace else [])
      && r.frame.failed == (f.failed || (f.live && (kids.failed || body.ends.Faults())))
      && r.next == (if f.live then kids.next else next)
  {
    var kids := RunSubTests(caps, g, self, node, body.subTests, next);
    if f.live {
      Assoc(f.trace, [BodyRan(node, body.ends)], kids.trace);
    } else {
      assert f.trace + [] == f.trace;
    }
  }

  /** A sub-test's whole trace: its prologue, its function unless
      SetupSubTest panicked, and TearDownSubTest in any case. */
  lemma SubTestShape(caps: Caps, g: GlobalRef, caller: Instance, parent: Path, st: SubTest, next: nat)
    ensures var node := parent + [st.name];
      var setupOk := Continues(caps.setupSubTest, st.setup);
      var kids := RunSubTests(caps, g, Instance(next), node, st.body.subTests, next + 1);
      var r := RunSubTest(caps, g, caller, parent, st, next);
      && r.trace == [Started(node, NewNode(Handle(next), g, Instance(next), Some(caller)))]
                    + Opt(caps.setupSubTest, Called(node, SetupSubTest, [], st.setup))
                    + (if setupOk then [BodyRan(node, st.body.ends)] + kids.trace else [])
                    + Opt(caps.tearDownSubTest, Called(node, TearDownSubTest, [], st.tearDown))
      && r.next == if setupOk then kids.next else next + 1
  {
    var node := parent + [st.name];
    var f := SubTestPrologue(caps, g, caller, node, st, next);
    var b := RunBody(caps, g, Instance(next), node, st.body, f, next + 1);
    BodyShape(caps, g, Instance(next), node, st.body, f, next + 1);
    UnwindOne(node, caps.tearDownSubTest, Deferred(TearDownSubTest, [], st.tearDown), b.frame.failed, map[]);
  }

  /** A test's whole trace: its prologue, its method unless SetupTest or
      BeforeTest panicked, then AfterTest (only if SetupTest returned),
      TearDownTest, and last the statistics record of its pass state. */
  lemma TestShape(s: Suite, m: Method, stats: map<string, bool>, next: nat)
    ensures var node := [m.name];
      var f := TestPrologue(s, m, next);
      var setupOk := Continues(s.caps.setupTest, m.setupTest);
      var kids := RunSubTests(s.caps, Global, Instance(next), node, m.body.subTests, next + 1);
      var r := RunTest(s, m, stats, next);
      && r.trace == f.trace
                    + (if f.live then [BodyRan(node, m.body.ends)] + kids.trace else [])
                    + Opt(setupOk && s.caps.afterTest, Called(node, AfterTest, [s.name, m.name], m.afterTest))
                    + Opt(s.caps.tearDownTest, Called(node, TearDownTest, [], m.tearDownTest))
                    + Opt(s.caps.handleStats, TestEnd(node, !r.failed))
      && r.stats == (if s.caps.handleStats then stats[m.name := !r.failed] else stats)
      && r.next == if f.live then kids.next else next + 1
  {
    var node := [m.name];
    var f := TestPrologue(s, m, next);
    var setupOk := Continues(s.caps.setupTest, m.setupTest);
    var kids := RunSubTests(s.caps, Global, Instance(next), node, m.body.subTests, next + 1);
    var mid := if f.live then [BodyRan(node, m.body.ends)] + kids.trace else [];
    var b := RunBody(s.caps, Global, Instance(next), node, m.body, f, next + 1);
    BodyShape(s.caps, Global, Instance(next), node, m.body, f, next + 1);
    assert b.frame.trace == f.trace + mid;
    var u := Unwind(node, f.stack, b.frame.failed, stats);
    assert RunTest(s, m, stats, next) == TestRun(b.frame.trace + u.trace, u.failed, u.stats, b.next);
    TestCleanups(node, m.name, s.caps.handleStats, s.caps.tearDownTest, setupOk && s.caps.afterTest,
      m.tearDownTest, [s.name, m.name], m.afterTest, b.frame.failed, stats);
    Glue(f.trace, mid, b.frame.trace,
      Opt(setupOk && s.caps.afterTest, Called(node, AfterTest, [s.name, m.name], m.afterTest)),
      Opt(s.caps.tearDownTest, Called(node, TearDownTest, [], m.tearDownTest)),
      Opt(s.caps.handleStats, TestEnd(node, !u.failed)), u.trace);
  }

  lemma Glue<T>(pre: seq<T>, mid: seq<T>, body: seq<T>, a: seq<T>, b: seq<T>, c: seq<T>, cleanups: seq<T>)
    requires body == pre + mid && cleanups == a + b + c
    ensures body + cleanups == pre + mid + a + b + c
  {
  }

  /** The suite's whole trace: its prologue, its tests unless SetupSuite
      panicked, then TearDownSuite, then the statistics end and HandleStats. */
  lemma SuiteShape(s: Suite, run: seq<Method>)
    ensures var f := SuitePrologue(s);
      var t := if f.live then RunTests(s, run, map[], 1) else TestRun([], false, map[], 1);
      var r := RunSuite(s, run);
      && r.trace == f.trace + t.trace
                    + Opt(s.caps.tearDownSuite, Called([], TearDownSuite, [], s.tearDownSuite))
                    + (if s.caps.handleStats then [StatsEnd([]), Called([], HandleStats, [s.name], s.handleStats)] else [])
      && r.stats == t.stats
  {
    var f := SuitePrologue(s);
    var t := if f.live then RunTests(s, run, map[], 1) else TestRun([], false, map[], 1);
    var u := Unwind([], f.stack, f.failed || t.failed, t.stats);
    assert RunSuite(s, run) == Completed(f.trace + t.trace + u.trace, u.failed, u.stats);
    SuiteCleanups(s.name, s.caps.handleStats, s.caps.tearDownSuite, s.handleStats, s.tearDownSuite, f.failed || t.failed, t.stats);
    var o1 := Opt(s.caps.tearDownSuite, Called([], TearDownSuite, [], s.tearDownSuite));
    var o2 := if s.caps.handleStats then [StatsEnd([]), Called([], HandleStats, [s.name], s.handleStats)] else [];
    assert u.trace == o1 + o2;
    Assoc(f.trace + t.trace, o1, o2);
  }
}
