/** The call orders suite/suite.go promises: SetupTest, BeforeTest, the
    test, AfterTest, TearDownTest; teardowns registered before their setups
    still run when the setup panics; TearDownSuite and HandleStats run once,
    after every test. */
module Ordering {
  import opened Wrappers
  import opened Capabilities
  import opened Tree
  import opened Wiring
  import opened Selection
  import opened Lifecycle
  import opened Shapes
  import opened Scope

  /** The event is a call of hook `h`. */
  predicate IsHook(e: Event, h: Hook) {
    e.Called? && e.hook == h
  }

  /** Position `i` holds the one and only call of `h`. */
  predicate OnlyAt(trace: seq<Event>, i: int, h: Hook) {
    && 0 <= i < |trace|
    && IsHook(trace[i], h)
    && forall j :: 0 <= j < |trace| && IsHook(trace[j], h) ==> j == i
  }

  /** Every event of a test or sub-test comes before position `i`. */
  predicate TestEventsBefore(trace: seq<Event>, i: int) {
    forall j :: 0 <= j < |trace| && trace[j].node != [] ==> j < i
  }

  /** Every event of a test or sub-test comes after position `i`. */
  predicate TestEventsAfter(trace: seq<Event>, i: int) {
    forall j :: 0 <= j < |trace| && trace[j].node != [] ==> i < j
  }

  predicate NoHook(trace: seq<Event>, h: Hook) {
    forall e :: e in trace ==> !IsHook(e, h)
  }

  predicate OnSuiteNode(trace: seq<Event>) {
    forall e :: e in trace ==> e.node == []
  }

  lemma Locate(a: seq<Event>, x: Event, b: seq<Event>, h: Hook)
    requires IsHook(x, h) && NoHook(a, h) && NoHook(b, h)
    ensures OnlyAt(a + [x] + b, |a|, h)
  {
    var t := a + [x] + b;
    forall j | 0 <= j < |t| && IsHook(t[j], h)
      ensures j == |a|
    {
    }
  }

  lemma NodesBefore(a: seq<Event>, b: seq<Event>)
    requires OnSuiteNode(b)
    ensures TestEventsBefore(a + b, |a|)
  {
    var t := a + b;
    forall j | 0 <= j < |t| && t[j].node != []
      ensures j < |a|
    {
    }
  }

  lemma NodesAfter(a: seq<Event>, b: seq<Event>, i: int)
    requires 0 <= i < |a| && OnSuiteNode(a)
    ensures TestEventsAfter(a + b, i)
  {
    var t := a + b;
    forall j | 0 <= j < |t| && t[j].node != []
      ensures i < j
    {
    }
  }

  lemma NoHookConcat(a: seq<Event>, b: seq<Event>, h: Hook)
    requires NoHook(a, h) && NoHook(b, h)
    ensures NoHook(a + b, h)
  {
  }

  /** No test or sub-test event is a call of a suite-level hook. */
  lemma RunTreeNoSuiteHook(s: Suite, trace: seq<Event>, h: Hook)
    requires RunTreeTrace(s, trace) && SuiteLevel(h)
    ensures NoHook(trace, h)
  {
    forall e | e in trace
      ensures !IsHook(e, h)
    {
      assert RunTreeEvent(s, e);
    }
  }

  /** Tests and sub-tests call only capabilities the suite implements. */
  lemma RunTreeSilent(s: Suite, trace: seq<Event>, h: Hook)
    requires RunTreeTrace(s, trace) && !s.caps.Has(h)
    ensures NoHook(trace, h)
  {
    forall e | e in trace
      ensures !IsHook(e, h)
    {
      assert RunTreeEvent(s, e);
    }
  }

  /** So does the suite node, before and after its tests. */
  lemma SuiteOwnSilent(s: Suite, h: Hook)
    requires !s.caps.Has(h)
    ensures NoHook(SuitePrologue(s).trace, h)
    ensures NoHook(Opt(s.caps.tearDownSuite, Called([], TearDownSuite, [], s.tearDownSuite)), h)
    ensures NoHook(if s.caps.handleStats then [StatsEnd([]), Called([], HandleStats, [s.name], s.handleStats)] else [], h)
  {
  }

  lemma NoHookConcat4(a: seq<Event>, b: seq<Event>, c: seq<Event>, d: seq<Event>, h: Hook)
    requires NoHook(a, h) && NoHook(b, h) && NoHook(c, h) && NoHook(d, h)
    ensures NoHook(a + b + c + d, h)
  {
  }

  /** A capability the suite does not implement is never called, on any
      node. */
  lemma AbsentHookSilent(s: Suite, run: seq<Method>, h: Hook)
    requires !s.caps.Has(h)
    ensures NoHook(RunSuite(s, run).trace, h)
  {
    SuiteParts(s, run);
    RunTreeSilent(s, SuiteTests(s, run).trace, h);
    SuiteOwnSilent(s, h);
    NoHookConcat4(SuitePrologue(s).trace, SuiteTests(s, run).trace,
      Opt(s.caps.tearDownSuite, Called([], TearDownSuite, [], s.tearDownSuite)),
      if s.caps.handleStats then [StatsEnd([]), Called([], HandleStats, [s.name], s.handleStats)] else [], h);
  }

  /** The suite node's prologue calls no hook but SetupSuite. */
  lemma SuitePrologueEvents(s: Suite)
    ensures var p := SuitePrologue(s).trace;
      && OnSuiteNode(p)
      && NoHook(p, TearDownSuite) && NoHook(p, HandleStats)
  {
  }

  /** A hook call followed only by suite-node events that are not calls of
      it: the only call, after every test event. */
  lemma LastCallOf(x: seq<Event>, c: Event, post: seq<Event>, h: Hook)
    requires NoHook(x, h) && IsHook(c, h) && c.node == []
    requires NoHook(post, h) && OnSuiteNode(post)
    ensures var t := x + [c] + post;
      OnlyAt(t, |t| - 1 - |post|, h) && TestEventsBefore(t, |t| - 1 - |post|)
  {
    Locate(x, c, post, h);
    NodesBefore(x, [c] + post);
    assert x + [c] + post == x + ([c] + post);
  }

  /** TearDownSuite runs exactly once, after every event of every test:
      last of all, or just before the end of the statistics and
      HandleStats. */
  lemma TearDownSuiteAfterTests(s: Suite, run: seq<Method>)
    requires s.caps.tearDownSuite
    ensures var r := RunSuite(s, run);
      var i := |r.trace| - (if s.caps.handleStats then 3 else 1);
      OnlyAt(r.trace, i, TearDownSuite) && TestEventsBefore(r.trace, i)
  {
    var p := SuitePrologue(s).trace;
    var t := SuiteTests(s, run).trace;
    var td := Called([], TearDownSuite, [], s.tearDownSuite);
    var post: seq<Event> := if s.caps.handleStats then [StatsEnd([]), Called([], HandleStats, [s.name], s.handleStats)] else [];
    SuiteParts(s, run);
    SuitePrologueEvents(s);
    RunTreeNoSuiteHook(s, t, TearDownSuite);
    NoHookConcat(p, t, TearDownSuite);
    LastCallOf(p + t, td, post, TearDownSuite);
  }

  /** The end of the statistics and HandleStats are the last two events,
      after every event of every test; HandleStats is called exactly once,
      with the suite's name. */
  lemma HandleStatsLast(s: Suite, run: seq<Method>)
    requires s.caps.handleStats
    ensures var r := RunSuite(s, run);
      var n := |r.trace|;
      && n >= 3
      && r.trace[n - 2] == StatsEnd([])
      && r.trace[n - 1] == Called([], HandleStats, [s.name], s.handleStats)
      && OnlyAt(r.trace, n - 1, HandleStats)
      && TestEventsBefore(r.trace, n - 2)
  {
    var p := SuitePrologue(s).trace;
    var t := SuiteTests(s, run).trace;
    var o := Opt(s.caps.tearDownSuite, Called([], TearDownSuite, [], s.tearDownSuite));
    var hs := Called([], HandleStats, [s.name], s.handleStats);
    SuiteParts(s, run);
    SuitePrologueEvents(s);
    RunTreeNoSuiteHook(s, t, HandleStats);
    NoHookConcat(p, t, HandleStats);
    StatsTail(p + t + o, hs);
  }

  lemma StatsTail(x: seq<Event>, hs: Event)
    requires NoHook(x, HandleStats) && IsHook(hs, HandleStats) && hs.node == []
    ensures var t := x + [StatsEnd([]), hs];
      && t[|t| - 2] == StatsEnd([]) && t[|t| - 1] == hs
      && OnlyAt(t, |t| - 1, HandleStats) && TestEventsBefore(t, |t| - 2)
  {
    var se: seq<Event> := [StatsEnd([])];
    Locate(x + se, hs, [], HandleStats);
    NodesBefore(x, se + [hs]);
    assert x + se + [hs] + [] == x + [StatsEnd([]), hs];
    assert x + (se + [hs]) == x + [StatsEnd([]), hs];
  }

  /** A hook call at the head of the suite node's own events and not called
      again: the only call, before every test event. */
  lemma FirstCallOf(a: seq<Event>, c: Event, rest: seq<Event>, h: Hook)
    requires NoHook(a, h) && OnSuiteNode(a) && IsHook(c, h) && c.node == []
    requires NoHook(rest, h)
    ensures OnlyAt(a + [c] + rest, |a|, h) && TestEventsAfter(a + [c] + rest, |a|)
  {
    Locate(a, c, rest, h);
    NodesAfter(a + [c], rest, |a|);
  }

  /** SetupSuite runs exactly once, right after the node starts (and the
      statistics start), before any event of any test. */
  lemma SetupSuiteFirst(s: Suite, run: seq<Method>)
    requires s.caps.setupSuite
    ensures var r := RunSuite(s, run);
      var i := if s.caps.handleStats then 2 else 1;
      && r.trace[0] == Started([], NewNode(Handle(0), Global, SuiteInstance, None))
      && (s.caps.handleStats ==> r.trace[1] == StatsBegin([]))
      && OnlyAt(r.trace, i, SetupSuite) && TestEventsAfter(r.trace, i)
  {
    var start := [Started([], NewNode(Handle(0), Global, SuiteInstance, None))];
    var sb := Opt(s.caps.handleStats, StatsBegin([]));
    var setup := Called([], SetupSuite, [], s.setupSuite);
    var t := SuiteTests(s, run).trace;
    var o := Opt(s.caps.tearDownSuite, Called([], TearDownSuite, [], s.tearDownSuite));
    var post: seq<Event> := if s.caps.handleStats then [StatsEnd([]), Called([], HandleStats, [s.name], s.handleStats)] else [];
    SuiteParts(s, run);
    assert Opt(s.caps.setupSuite, setup) == [setup];
    RunTreeNoSuiteHook(s, t, SetupSuite);
    SetupSuiteTail(start + sb, setup, t, o, post);
    assert (start + sb)[0] == start[0];
    assert s.caps.handleStats ==> (start + sb)[1] == StatsBegin([]);
  }

  lemma SetupSuiteTail(a: seq<Event>, c: Event, t: seq<Event>, o: seq<Event>, post: seq<Event>)
    requires NoHook(a, SetupSuite) && OnSuiteNode(a) && IsHook(c, SetupSuite) && c.node == []
    requires NoHook(t, SetupSuite) && NoHook(o, SetupSuite) && NoHook(post, SetupSuite)
    ensures var r := a + [c] + t + o + post;
      OnlyAt(r, |a|, SetupSuite) && TestEventsAfter(r, |a|)
    ensures |a| >= 1 ==> (a + [c] + t + o + post)[0] == a[0]
    ensures |a| >= 2 ==> (a + [c] + t + o + post)[1] == a[1]
  {
    NoHookConcat(t, o, SetupSuite);
    NoHookConcat(t + o, post, SetupSuite);
    FirstCallOf(a, c, t + o + post, SetupSuite);
    assert a + [c] + t + o + post == a + [c] + (t + o + post);
  }

  /** SetupSuite panicking stops the suite node before any test, but
      TearDownSuite and HandleStats still run, and HandleStats sees no
      test. */
  lemma SetupSuitePanics(s: Suite, run: seq<Method>)
    requires s.caps.setupSuite && s.setupSuite == Panics
    ensures var r := RunSuite(s, run);
      && r.trace == [Started([], NewNode(Handle(0), Global, SuiteInstance, None))]
                    + Opt(s.caps.handleStats, StatsBegin([]))
                    + [Called([], SetupSuite, [], Panics)]
                    + Opt(s.caps.tearDownSuite, Called([], TearDownSuite, [], s.tearDownSuite))
                    + (if s.caps.handleStats then [StatsEnd([]), Called([], HandleStats, [s.name], s.handleStats)] else [])
      && r.failed
      && r.stats == map[]
  {
    var p := SuitePrologue(s).trace;
    SuiteShape(s, run);
    assert p + [] == p;
    assert Called([], SetupSuite, [], Panics) in p;
  }

  /** The per-test call order: SetupTest, BeforeTest with the suite and
      test names, the test method and its sub-tests, AfterTest with the
      same names, TearDownTest, then the test's statistics record. */
  lemma TestCallOrder(s: Suite, m: Method, stats: map<string, bool>, next: nat)
    requires s.caps.setupTest && s.caps.beforeTest && s.caps.afterTest && s.caps.tearDownTest
    requires m.setupTest != Panics && m.beforeTest != Panics
    ensures var node := [m.name];
      var kids := RunSubTests(s.caps, Global, Instance(next), node, m.body.subTests, next + 1);
      var r := RunTest(s, m, stats, next);
      r.trace == [Started(node, NewNode(Handle(next), Global, Instance(next), Some(SuiteInstance)))]
                 + Opt(s.caps.handleStats, TestBegin(node))
                 + [Called(node, SetupTest, [], m.setupTest),
                    Called(node, BeforeTest, [s.name, m.name], m.beforeTest),
                    BodyRan(node, m.body.ends)]
                 + kids.trace
                 + [Called(node, AfterTest, [s.name, m.name], m.afterTest),
                    Called(node, TearDownTest, [], m.tearDownTest)]
                 + Opt(s.caps.handleStats, TestEnd(node, !r.failed))
  {
    var node := [m.name];
    var kids := RunSubTests(s.caps, Global, Instance(next), node, m.body.subTests, next + 1);
    var r := RunTest(s, m, stats, next);
    TestShape(s, m, stats, next);
    var sc := Called(node, SetupTest, [], m.setupTest);
    var bc := Called(node, BeforeTest, [s.name, m.name], m.beforeTest);
    var ac := Called(node, AfterTest, [s.name, m.name], m.afterTest);
    var tc := Called(node, TearDownTest, [], m.tearDownTest);
    assert Opt(true, sc) == [sc] && Opt(true, bc) == [bc] && Opt(true, ac) == [ac] && Opt(true, tc) == [tc];
    Regroup([Started(node, NewNode(Handle(next), Global, Instance(next), Some(SuiteInstance)))],
      Opt(s.caps.handleStats, TestBegin(node)), sc, bc, BodyRan(node, m.body.ends), kids.trace, ac, tc,
      Opt(s.caps.handleStats, TestEnd(node, !r.failed)));
  }

  lemma Regroup<T>(st: seq<T>, tb: seq<T>, sc: T, bc: T, br: T, kids: seq<T>, ac: T, tc: T, te: seq<T>)
    ensures st + tb + [sc] + [bc] + ([br] + kids) + [ac] + [tc] + te
         == st + tb + [sc, bc, br] + kids + [ac, tc] + te
  {
  }

  /** SetupTest panicking skips BeforeTest, the method and AfterTest (never
      registered), but TearDownTest still runs and the test is recorded
      as failed. */
  lemma SetupTestPanics(s: Suite, m: Method, stats: map<string, bool>, next: nat)
    requires s.caps.setupTest && m.setupTest == Panics
    ensures var node := [m.name];
      var r := RunTest(s, m, stats, next);
      && r.trace == [Started(node, NewNode(Handle(next), Global, Instance(next), Some(SuiteInstance)))]
                    + Opt(s.caps.handleStats, TestBegin(node))
                    + [Called(node, SetupTest, [], Panics)]
                    + Opt(s.caps.tearDownTest, Called(node, TearDownTest, [], m.tearDownTest))
                    + Opt(s.caps.handleStats, TestEnd(node, false))
      && r.failed
      && r.stats == (if s.caps.handleStats then stats[m.name := false] else stats)
      && r.next == next + 1
  {
    var node := [m.name];
    var f := TestPrologue(s, m, next);
    TestShape(s, m, stats, next);
    assert f.trace + [] + [] == f.trace;
    assert f.failed;
  }

  /** BeforeTest panicking skips the method, but AfterTest (registered
      once SetupTest returned) and TearDownTest still run, and the test is
      recorded as failed. */
  lemma BeforeTestPanics(s: Suite, m: Method, stats: map<string, bool>, next: nat)
    requires Continues(s.caps.setupTest, m.setupTest)
    requires s.caps.beforeTest && m.beforeTest == Panics
    ensures var node := [m.name];
      var r := RunTest(s, m, stats, next);
      && r.trace == [Started(node, NewNode(Handle(next), Global, Instance(next), Some(SuiteInstance)))]
                    + Opt(s.caps.handleStats, TestBegin(node))
                    + Opt(s.caps.setupTest, Called(node, SetupTest, [], m.setupTest))
                    + [Called(node, BeforeTest, [s.name, m.name], Panics)]
                    + Opt(s.caps.afterTest, Called(node, AfterTest, [s.name, m.name], m.afterTest))
                    + Opt(s.caps.tearDownTest, Called(node, TearDownTest, [], m.tearDownTest))
                    + Opt(s.caps.handleStats, TestEnd(node, false))
      && r.failed
      && r.stats == (if s.caps.handleStats then stats[m.name := false] else stats)
  {
    var f := TestPrologue(s, m, next);
    TestShape(s, m, stats, next);
    assert f.trace + [] == f.trace;
    assert f.failed;
  }

  /** SetupSubTest panicking skips the sub-test function, but
      TearDownSubTest (registered before it) still runs. */
  lemma SetupSubTestPanics(caps: Caps, g: GlobalRef, caller: Instance, parent: Path, st: SubTest, next: nat)
    requires caps.setupSubTest && st.setup == Panics
    ensures var node := parent + [st.name];
      var r := RunSubTest(caps, g, caller, parent, st, next);
      && r.trace == [Started(node, NewNode(Handle(next), g, Instance(next), Some(caller))),
                     Called(node, SetupSubTest, [], Panics)]
                    + Opt(caps.tearDownSubTest, Called(node, TearDownSubTest, [], st.tearDown))
      && r.failed
      && r.next == next + 1
  {
    var node := parent + [st.name];
    var r := RunSubTest(caps, g, caller, parent, st, next);
    SubTestShape(caps, g, caller, parent, st, next);
    var e := Called(node, SetupSubTest, [], Panics);
    assert e in r.trace && e.Faulty();
  }

  /** A suite none of whose methods starts with "Test" runs nothing at all:
      no SetupSuite, no TearDownSuite, whatever the filter patterns, which
      are then never compiled. */
  lemma NoTestMethodsRunNothing(s: Suite, cfg: FilterConfig)
    requires forall i :: 0 <= i < |s.methods| ==> !IsTestName(s.methods[i].name)
    ensures Run(s, cfg) == NothingToRun
  {
    NoneSelected(cfg, s.methods);
  }

  lemma {:induction false} NoneSelected(cfg: FilterConfig, ms: seq<Method>)
    requires forall i :: 0 <= i < |ms| ==> !IsTestName(ms[i].name)
    ensures Selected(cfg, ms) == Success([])
  {
    if ms != [] {
      assert !IsTestName(ms[0].name);
      NoneSelected(cfg, ms[1..]);
    }
  }
}
