/** What each level of the tree may emit. A sub-test's trace stays inside
    its own sub-tree and holds only sub-test hooks the suite implements; a
    test's trace holds no suite-level event; every node shares the suite's
    global data, and each node's direct children name it as their parent. */
module Scope {
  import opened Wrappers
  import opened Capabilities
  import opened Tree
  import opened Wiring
  import opened Lifecycle
  import opened Shapes

  /** An event that a sub-test started under `parent` by the node whose
      instance is `caller` may emit, for a suite with capabilities `caps`
      and global data `g`. */
  predicate SubTreeEvent(caps: Caps, g: GlobalRef, caller: Instance, parent: Path, e: Event) {
    && parent < e.node
    && (e.Started? || e.BodyRan? || (e.Called? && (e.hook == SetupSubTest || e.hook == TearDownSubTest)))
    && (e.Called? ==> caps.Has(e.hook))
    && (e.Started? ==> e.ctx.g == Some(g) && (|e.node| == |parent| + 1 ==> e.ctx.parent == Some(caller)))
  }

  predicate SubTreeTrace(caps: Caps, g: GlobalRef, caller: Instance, parent: Path, trace: seq<Event>) {
    forall e :: e in trace ==> SubTreeEvent(caps, g, caller, parent, e)
  }

  lemma PrefixTrans(a: Path, b: Path, c: Path)
    requires a < b && b < c
    ensures a < c
  {
    assert c[..|b|][..|a|] == c[..|a|];
  }

  /** A grandchild's events are in the sub-tree too, and too deep for the
      direct-child condition. */
  lemma Widen(caps: Caps, g: GlobalRef, caller: Instance, parent: Path, name: string, self: Instance, trace: seq<Event>)
    requires SubTreeTrace(caps, g, self, parent + [name], trace)
    ensures SubTreeTrace(caps, g, caller, parent, trace)
  {
    forall e | e in trace
      ensures SubTreeEvent(caps, g, caller, parent, e)
    {
      PrefixTrans(parent, parent + [name], e.node);
    }
  }

  lemma SubTreeConcat(caps: Caps, g: GlobalRef, caller: Instance, parent: Path, a: seq<Event>, b: seq<Event>)
    requires SubTreeTrace(caps, g, caller, parent, a) && SubTreeTrace(caps, g, caller, parent, b)
    ensures SubTreeTrace(caps, g, caller, parent, a + b)
  {
  }

  /** The sub-test's own events: its start, and the two hooks only when
      the suite implements them. */
  lemma SubTestOwn(caps: Caps, g: GlobalRef, caller: Instance, parent: Path, st: SubTest, next: nat)
    ensures var node := parent + [st.name];
      && SubTreeTrace(caps, g, caller, parent, [Started(node, NewNode(Handle(next), g, Instance(next), Some(caller)))])
      && SubTreeTrace(caps, g, caller, parent, Opt(caps.setupSubTest, Called(node, SetupSubTest, [], st.setup)))
      && SubTreeTrace(caps, g, caller, parent, Opt(caps.tearDownSubTest, Called(node, TearDownSubTest, [], st.tearDown)))
  {
    var node := parent + [st.name];
    assert parent < node;
  }

  lemma {:induction false} SubTestScoped(caps: Caps, g: GlobalRef, caller: Instance, parent: Path, st: SubTest, next: nat)
    ensures SubTreeTrace(caps, g, caller, parent, RunSubTest(caps, g, caller, parent, st, next).trace)
    decreases st, 1
  {
    var node := parent + [st.name];
    var setupOk := Continues(caps.setupSubTest, st.setup);
    var kids := RunSubTests(caps, g, Instance(next), node, st.body.subTests, next + 1);
    SubTestShape(caps, g, caller, parent, st, next);
    SubTestsScoped(caps, g, Instance(next), node, st.body.subTests, next + 1);
    Widen(caps, g, caller, parent, st.name, Instance(next), kids.trace);
    SubTestOwn(caps, g, caller, parent, st, next);
    var start := [Started(node, NewNode(Handle(next), g, Instance(next), Some(caller)))];
    var setup := Opt(caps.setupSubTest, Called(node, SetupSubTest, [], st.setup));
    var mid := if setupOk then [BodyRan(node, st.body.ends)] + kids.trace else [];
    var tearDown := Opt(caps.tearDownSubTest, Called(node, TearDownSubTest, [], st.tearDown));
    assert parent < node;
    SubTreeConcat(caps, g, caller, parent, [BodyRan(node, st.body.ends)], kids.trace);
    SubTreeConcat(caps, g, caller, parent, start, setup);
    SubTreeConcat(caps, g, caller, parent, start + setup, mid);
    SubTreeConcat(caps, g, caller, parent, start + setup + mid, tearDown);
  }

  lemma {:induction false} SubTestsScoped(caps: Caps, g: GlobalRef, caller: Instance, parent: Path, subs: seq<SubTest>, next: nat)
    ensures SubTreeTrace(caps, g, caller, parent, RunSubTests(caps, g, caller, parent, subs, next).trace)
    decreases subs, 0
  {
    if subs != [] {
      var first := RunSubTest(caps, g, caller, parent, subs[0], next);
      SubTestScoped(caps, g, caller, parent, subs[0], next);
      SubTestsScoped(caps, g, caller, parent, subs[1..], first.next);
    }
  }

  /** An event that test `name` or one of its sub-tests may emit. */
  predicate TestTreeEvent(s: Suite, name: string, e: Event) {
    && [name] <= e.node
    && !e.SuiteEvent()
    && !e.StatsBegin? && !e.StatsEnd?
    && (e.Called? ==> s.caps.Has(e.hook))
    && (e.TestBegin? || e.TestEnd? ==> s.caps.handleStats && e.node == [name])
    && (e.Started? ==> e.ctx.g == Some(Global) && (|e.node| == 1 ==> e.ctx.parent == Some(SuiteInstance)))
  }

  predicate TestTreeTrace(s: Suite, name: string, trace: seq<Event>) {
    forall e :: e in trace ==> TestTreeEvent(s, name, e)
  }

  lemma TestTreeConcat(s: Suite, name: string, a: seq<Event>, b: seq<Event>)
    requires TestTreeTrace(s, name, a) && TestTreeTrace(s, name, b)
    ensures TestTreeTrace(s, name, a + b)
  {
  }

  /** The test's prologue stays inside the test. */
  lemma TestPrologueScoped(s: Suite, m: Method, next: nat)
    ensures TestTreeTrace(s, m.name, TestPrologue(s, m, next).trace)
  {
    var node := [m.name];
    var setupOk := Continues(s.caps.setupTest, m.setupTest);
    var a := [Started(node, NewNode(Handle(next), Global, Instance(next), Some(SuiteInstance)))];
    var b := Opt(s.caps.handleStats, TestBegin(node));
    var c := Opt(s.caps.setupTest, Called(node, SetupTest, [], m.setupTest));
    var d := Opt(setupOk && s.caps.beforeTest, Called(node, BeforeTest, [s.name, m.name], m.beforeTest));
    TestTreeConcat(s, m.name, a, b);
    TestTreeConcat(s, m.name, a + b, c);
    TestTreeConcat(s, m.name, a + b + c, d);
  }

  /** Its function and the sub-tests it starts stay inside the test. */
  lemma TestMidScoped(s: Suite, m: Method, next: nat)
    ensures var kids := RunSubTests(s.caps, Global, Instance(next), [m.name], m.body.subTests, next + 1);
      TestTreeTrace(s, m.name, [BodyRan([m.name], m.body.ends)] + kids.trace)
  {
    var node := [m.name];
    var kids := RunSubTests(s.caps, Global, Instance(next), node, m.body.subTests, next + 1);
    SubTestsScoped(s.caps, Global, Instance(next), node, m.body.subTests, next + 1);
    forall e | e in kids.trace
      ensures TestTreeEvent(s, m.name, e)
    {
      assert SubTreeEvent(s.caps, Global, Instance(next), node, e);
    }
    TestTreeConcat(s, m.name, [BodyRan(node, m.body.ends)], kids.trace);
  }

  /** So do its cleanups, whatever pass state the record carries. */
  lemma TestCleanupsScoped(s: Suite, m: Method, withAfter: bool, passed: bool)
    ensures TestTreeTrace(s, m.name, Opt(withAfter && s.caps.afterTest, Called([m.name], AfterTest, [s.name, m.name], m.afterTest))
                             + Opt(s.caps.tearDownTest, Called([m.name], TearDownTest, [], m.tearDownTest))
                             + Opt(s.caps.handleStats, TestEnd([m.name], passed)))
  {
    var node := [m.name];
    var a := Opt(withAfter && s.caps.afterTest, Called(node, AfterTest, [s.name, m.name], m.afterTest));
    var b := Opt(s.caps.tearDownTest, Called(node, TearDownTest, [], m.tearDownTest));
    var c := Opt(s.caps.handleStats, TestEnd(node, passed));
    TestTreeConcat(s, m.name, a, b);
    TestTreeConcat(s, m.name, a + b, c);
  }

  lemma Split3<T>(x: seq<T>, y: seq<T>, a: seq<T>, b: seq<T>, c: seq<T>)
    ensures x + y + a + b + c == x + y + (a + b + c)
  {
  }

  lemma TestScoped(s: Suite, m: Method, stats: map<string, bool>, next: nat)
    ensures TestTreeTrace(s, m.name, RunTest(s, m, stats, next).trace)
  {
    var node := [m.name];
    var f := TestPrologue(s, m, next);
    var r := RunTest(s, m, stats, next);
    var setupOk := Continues(s.caps.setupTest, m.setupTest);
    var kids := RunSubTests(s.caps, Global, Instance(next), node, m.body.subTests, next + 1);
    TestShape(s, m, stats, next);
    TestPrologueScoped(s, m, next);
    TestMidScoped(s, m, next);
    TestCleanupsScoped(s, m, setupOk, !r.failed);
    var mid := if f.live then [BodyRan(node, m.body.ends)] + kids.trace else [];
    var a := Opt(setupOk && s.caps.afterTest, Called(node, AfterTest, [s.name, m.name], m.afterTest));
    var b := Opt(s.caps.tearDownTest, Called(node, TearDownTest, [], m.tearDownTest));
    var c := Opt(s.caps.handleStats, TestEnd(node, !r.failed));
    Split3(f.trace, mid, a, b, c);
    TestTreeConcat(s, m.name, f.trace, mid);
    TestTreeConcat(s, m.name, f.trace + mid, a + b + c);
  }

  /** An event that some test of the run set may emit: below the suite
      node, and never one of the suite node's own. */
  predicate RunTreeEvent(s: Suite, e: Event) {
    && e.node != []
    && !e.SuiteEvent()
    && !e.StatsBegin? && !e.StatsEnd?
    && (e.Called? ==> s.caps.Has(e.hook))
    && (e.TestBegin? || e.TestEnd? ==> s.caps.handleStats && |e.node| == 1)
    && (e.Started? ==> e.ctx.g == Some(Global) && (|e.node| == 1 ==> e.ctx.parent == Some(SuiteInstance)))
  }

  predicate RunTreeTrace(s: Suite, trace: seq<Event>) {
    forall e :: e in trace ==> RunTreeEvent(s, e)
  }

  lemma {:induction false} TestsScoped(s: Suite, run: seq<Method>, stats: map<string, bool>, next: nat)
    ensures RunTreeTrace(s, RunTests(s, run, stats, next).trace)
    decreases |run|
  {
    if run != [] {
      var m := run[0];
      var first := RunTest(s, m, stats, next);
      TestScoped(s, m, stats, next);
      TestsScoped(s, run[1..], first.stats, first.next);
      forall e | e in first.trace
        ensures RunTreeEvent(s, e)
      {
        assert TestTreeEvent(s, m.name, e);
      }
    }
  }

  /** The tests the suite node runs: none if SetupSuite panicked. */
  function SuiteTests(s: Suite, run: seq<Method>): (t: TestRun)
    ensures RunTreeTrace(s, t.trace)
    ensures Continues(s.caps.setupSuite, s.setupSuite) ==> t == RunTests(s, run, map[], 1)
    ensures !Continues(s.caps.setupSuite, s.setupSuite) ==> t.trace == [] && t.stats == map[]
  {
    if Continues(s.caps.setupSuite, s.setupSuite) then
      TestsScoped(s, run, map[], 1);
      RunTests(s, run, map[], 1)
    else TestRun([], false, map[], 1)
  }

  /** The suite trace split into the prologue, the tests and the two
      cleanups. */
  lemma SuiteParts(s: Suite, run: seq<Method>)
    ensures var r := RunSuite(s, run);
      r.Completed? && r.trace == SuitePrologue(s).trace + SuiteTests(s, run).trace
        + Opt(s.caps.tearDownSuite, Called([], TearDownSuite, [], s.tearDownSuite))
        + (if s.caps.handleStats then [StatsEnd([]), Called([], HandleStats, [s.name], s.handleStats)] else [])
      && r.stats == SuiteTests(s, run).stats
  {
    SuiteShape(s, run);
  }
}
