/** Fresh instances: every node a run starts gets its own engine handle and
    its own suite instance (`new(T)`), never one another node has. Nodes
    are numbered in the order they start, and the handle and instance of a
    node carry the same number. */
module Identity {
  import opened Wrappers
  import opened Capabilities
  import opened Tree
  import opened Wiring
  import opened Lifecycle
  import opened Shapes
  import opened Scope

  /** The engine handle and suite instance a node was wired with. */
  type Own = (Option<Handle>, Option<Instance>)

  /** The handles and instances of the nodes a trace starts, in order. */
  function Owners(trace: seq<Event>): seq<Own> {
    if trace == [] then []
    else (if trace[0].Started? then [(trace[0].ctx.t, trace[0].ctx.suite)] else []) + Owners(trace[1..])
  }

  /** The handles and instances numbered `a` up to, not including, `b`. */
  function Numbered(a: nat, b: nat): (r: seq<Own>)
    ensures |r| == if a <= b then b - a else 0
    ensures forall i :: 0 <= i < |r| ==> r[i] == (Some(Handle(a + i)), Some(Instance(a + i)))
    decreases b - a
  {
    if a >= b then [] else [(Some(Handle(a)), Some(Instance(a)))] + Numbered(a + 1, b)
  }

  lemma NumberedSplit(a: nat, b: nat, c: nat)
    requires a <= b <= c
    ensures Numbered(a, c) == Numbered(a, b) + Numbered(b, c)
  {
    var l := Numbered(a, b) + Numbered(b, c);
    assert |l| == |Numbered(a, c)|;
    forall i | 0 <= i < |l|
      ensures l[i] == Numbered(a, c)[i]
    {
      if i >= b - a {
        assert l[i] == Numbered(b, c)[i - (b - a)];
      }
    }
  }

  lemma {:induction false} OwnersConcat(a: seq<Event>, b: seq<Event>)
    ensures Owners(a + b) == Owners(a) + Owners(b)
    decreases |a|
  {
    if a == [] {
      assert a + b == b;
    } else {
      assert (a + b)[0] == a[0] && (a + b)[1..] == a[1..] + b;
      OwnersConcat(a[1..], b);
    }
  }

  lemma OwnersOne(e: Event)
    ensures Owners([e]) == if e.Started? then [(e.ctx.t, e.ctx.suite)] else []
  {
    assert [e][1..] == [];
  }

  lemma OwnersOpt(b: bool, e: Event)
    requires !e.Started?
    ensures Owners(Opt(b, e)) == []
  {
    if b {
      OwnersOne(e);
    }
  }

  /** A node started with handle and instance number `n`. */
  lemma StartedOwner(node: Path, n: nat, g: GlobalRef, p: Option<Instance>)
    ensures Owners([Started(node, NewNode(Handle(n), g, Instance(n), p))]) == Numbered(n, n + 1)
  {
    OwnersOne(Started(node, NewNode(Handle(n), g, Instance(n), p)));
  }

  /** The nodes a sub-test starts, itself first, are numbered from `next`
      up to the number it hands back. */
  lemma {:induction false} SubTestOwners(caps: Caps, g: GlobalRef, caller: Instance, parent: Path, st: SubTest, next: nat)
    ensures var r := RunSubTest(caps, g, caller, parent, st, next);
      Owners(r.trace) == Numbered(next, r.next)
    decreases st, 1
  {
    var node := parent + [st.name];
    var setupOk := Continues(caps.setupSubTest, st.setup);
    var kids := RunSubTests(caps, g, Instance(next), node, st.body.subTests, next + 1);
    var r := RunSubTest(caps, g, caller, parent, st, next);
    SubTestShape(caps, g, caller, parent, st, next);
    SubTestsOwners(caps, g, Instance(next), node, st.body.subTests, next + 1);
    var start := [Started(node, NewNode(Handle(next), g, Instance(next), Some(caller)))];
    var setup := Opt(caps.setupSubTest, Called(node, SetupSubTest, [], st.setup));
    var mid := if setupOk then [BodyRan(node, st.body.ends)] + kids.trace else [];
    var tearDown := Opt(caps.tearDownSubTest, Called(node, TearDownSubTest, [], st.tearDown));
    StartedOwner(node, next, g, Some(caller));
    OwnersOpt(caps.setupSubTest, Called(node, SetupSubTest, [], st.setup));
    OwnersOpt(caps.tearDownSubTest, Called(node, TearDownSubTest, [], st.tearDown));
    if setupOk {
      OwnersConcat([BodyRan(node, st.body.ends)], kids.trace);
      OwnersOne(BodyRan(node, st.body.ends));
      NumberedSplit(next, next + 1, kids.next);
    }
    OwnersConcat(start, setup);
    OwnersConcat(start + setup, mid);
    OwnersConcat(start + setup + mid, tearDown);
  }

  lemma {:induction false} SubTestsOwners(caps: Caps, g: GlobalRef, caller: Instance, parent: Path, subs: seq<SubTest>, next: nat)
    ensures var r := RunSubTests(caps, g, caller, parent, subs, next);
      Owners(r.trace) == Numbered(next, r.next)
    decreases subs, 0
  {
    if subs != [] {
      var first := RunSubTest(caps, g, caller, parent, subs[0], next);
      var rest := RunSubTests(caps, g, caller, parent, subs[1..], first.next);
      SubTestOwners(caps, g, caller, parent, subs[0], next);
      SubTestsOwners(caps, g, caller, parent, subs[1..], first.next);
      OwnersConcat(first.trace, rest.trace);
      NumberedSplit(next, first.next, rest.next);
    }
  }

  /** The test's prologue starts the test's own node and nothing else. */
  lemma TestPrologueOwners(s: Suite, m: Method, next: nat)
    ensures Owners(TestPrologue(s, m, next).trace) == Numbered(next, next + 1)
  {
    var node := [m.name];
    var setupOk := Continues(s.caps.setupTest, m.setupTest);
    var a := [Started(node, NewNode(Handle(next), Global, Instance(next), Some(SuiteInstance)))];
    var b := Opt(s.caps.handleStats, TestBegin(node));
    var c := Opt(s.caps.setupTest, Called(node, SetupTest, [], m.setupTest));
    var d := Opt(setupOk && s.caps.beforeTest, Called(node, BeforeTest, [s.name, m.name], m.beforeTest));
    StartedOwner(node, next, Global, Some(SuiteInstance));
    OwnersOpt(s.caps.handleStats, TestBegin(node));
    OwnersOpt(s.caps.setupTest, Called(node, SetupTest, [], m.setupTest));
    OwnersOpt(setupOk && s.caps.beforeTest, Called(node, BeforeTest, [s.name, m.name], m.beforeTest));
    OwnersConcat(a, b);
    OwnersConcat(a + b, c);
    OwnersConcat(a + b + c, d);
  }

  /** A test's cleanups start no node. */
  lemma TestCleanupsOwners(s: Suite, m: Method, withAfter: bool, passed: bool)
    ensures Owners(Opt(withAfter && s.caps.afterTest, Called([m.name], AfterTest, [s.name, m.name], m.afterTest))
                   + Opt(s.caps.tearDownTest, Called([m.name], TearDownTest, [], m.tearDownTest))
                   + Opt(s.caps.handleStats, TestEnd([m.name], passed))) == []
  {
    var node := [m.name];
    var a := Opt(withAfter && s.caps.afterTest, Called(node, AfterTest, [s.name, m.name], m.afterTest));
    var b := Opt(s.caps.tearDownTest, Called(node, TearDownTest, [], m.tearDownTest));
    var c := Opt(s.caps.handleStats, TestEnd(node, passed));
    OwnersOpt(withAfter && s.caps.afterTest, Called(node, AfterTest, [s.name, m.name], m.afterTest));
    OwnersOpt(s.caps.tearDownTest, Called(node, TearDownTest, [], m.tearDownTest));
    OwnersOpt(s.caps.handleStats, TestEnd(node, passed));
    OwnersConcat(a, b);
    OwnersConcat(a + b, c);
  }

  /** A node's own start, then the nodes numbered after it, then events
      that start nothing. */
  lemma OwnersJoin(pre: seq<Event>, mid: seq<Event>, post: seq<Event>, n: nat, last: nat)
    requires n + 1 <= last
    requires Owners(pre) == Numbered(n, n + 1) && Owners(mid) == Numbered(n + 1, last) && Owners(post) == []
    ensures Owners(pre + mid + post) == Numbered(n, last)
  {
    OwnersConcat(pre, mid);
    OwnersConcat(pre + mid, post);
    NumberedSplit(n, n + 1, last);
  }

  /** The test method and the sub-tests it starts, if it runs. */
  lemma TestMidOwners(s: Suite, m: Method, next: nat)
    ensures var f := TestPrologue(s, m, next);
      var kids := RunSubTests(s.caps, Global, Instance(next), [m.name], m.body.subTests, next + 1);
      Owners(if f.live then [BodyRan([m.name], m.body.ends)] + kids.trace else [])
        == Numbered(next + 1, if f.live then kids.next else next + 1)
  {
    var node := [m.name];
    var f := TestPrologue(s, m, next);
    var kids := RunSubTests(s.caps, Global, Instance(next), node, m.body.subTests, next + 1);
    if f.live {
      SubTestsOwners(s.caps, Global, Instance(next), node, m.body.subTests, next + 1);
      OwnersConcat([BodyRan(node, m.body.ends)], kids.trace);
      OwnersOne(BodyRan(node, m.body.ends));
    }
  }

  /** The nodes a test starts, itself first, are numbered from `next` up to
      the number it hands back. */
  lemma TestOwners(s: Suite, m: Method, stats: map<string, bool>, next: nat)
    ensures var r := RunTest(s, m, stats, next);
      Owners(r.trace) == Numbered(next, r.next)
  {
    var node := [m.name];
    var f := TestPrologue(s, m, next);
    var r := RunTest(s, m, stats, next);
    var setupOk := Continues(s.caps.setupTest, m.setupTest);
    var kids := RunSubTests(s.caps, Global, Instance(next), node, m.body.subTests, next + 1);
    TestShape(s, m, stats, next);
    TestPrologueOwners(s, m, next);
    TestCleanupsOwners(s, m, setupOk, !r.failed);
    TestMidOwners(s, m, next);
    var mid := if f.live then [BodyRan(node, m.body.ends)] + kids.trace else [];
    var a := Opt(setupOk && s.caps.afterTest, Called(node, AfterTest, [s.name, m.name], m.afterTest));
    var b := Opt(s.caps.tearDownTest, Called(node, TearDownTest, [], m.tearDownTest));
    var c := Opt(s.caps.handleStats, TestEnd(node, !r.failed));
    Split3(f.trace, mid, a, b, c);
    OwnersJoin(f.trace, mid, a + b + c, next, r.next);
  }

  lemma {:induction false} TestsOwners(s: Suite, run: seq<Method>, stats: map<string, bool>, next: nat)
    ensures var r := RunTests(s, run, stats, next);
      Owners(r.trace) == Numbered(next, r.next)
    decreases |run|
  {
    if run != [] {
      var first := RunTest(s, run[0], stats, next);
      var rest := RunTests(s, run[1..], first.stats, first.next);
      TestOwners(s, run[0], stats, next);
      TestsOwners(s, run[1..], first.stats, first.next);
      OwnersConcat(first.trace, rest.trace);
      NumberedSplit(next, first.next, rest.next);
    }
  }

  /** The suite node's own events start only the suite node, number 0. */
  lemma SuiteOwnOwners(s: Suite)
    ensures Owners(SuitePrologue(s).trace) == Numbered(0, 1)
    ensures Owners(Opt(s.caps.tearDownSuite, Called([], TearDownSuite, [], s.tearDownSuite))) == []
    ensures Owners(if s.caps.handleStats then [StatsEnd([]), Called([], HandleStats, [s.name], s.handleStats)] else []) == []
  {
    var a := [Started([], NewNode(Handle(0), Global, SuiteInstance, None))];
    var b := Opt(s.caps.handleStats, StatsBegin([]));
    var c := Opt(s.caps.setupSuite, Called([], SetupSuite, [], s.setupSuite));
    StartedOwner([], 0, Global, None);
    OwnersOpt(s.caps.handleStats, StatsBegin([]));
    OwnersOpt(s.caps.setupSuite, Called([], SetupSuite, [], s.setupSuite));
    OwnersOpt(s.caps.tearDownSuite, Called([], TearDownSuite, [], s.tearDownSuite));
    OwnersConcat(a, b);
    OwnersConcat(a + b, c);
    if s.caps.handleStats {
      OwnersConcat([StatsEnd([])], [Called([], HandleStats, [s.name], s.handleStats)]);
      OwnersOne(StatsEnd([]));
      OwnersOne(Called([], HandleStats, [s.name], s.handleStats));
    }
  }

  /** The tests the suite node runs are numbered from 1. */
  lemma SuiteTestsOwners(s: Suite, run: seq<Method>)
    ensures var t := SuiteTests(s, run);
      t.next >= 1 && Owners(t.trace) == Numbered(1, t.next)
  {
    if Continues(s.caps.setupSuite, s.setupSuite) {
      TestsOwners(s, run, map[], 1);
    }
  }

  /** A whole run numbers its nodes 0, 1, 2, ... in the order they start:
      no two nodes share a handle or an instance, and each node's handle
      and instance carry the same number. */
  lemma SuiteOwners(s: Suite, run: seq<Method>)
    ensures var r := RunSuite(s, run);
      Owners(r.trace) == Numbered(0, |Owners(r.trace)|)
  {
    var t := SuiteTests(s, run);
    var p := SuitePrologue(s).trace;
    var o := Opt(s.caps.tearDownSuite, Called([], TearDownSuite, [], s.tearDownSuite));
    var post: seq<Event> := if s.caps.handleStats then [StatsEnd([]), Called([], HandleStats, [s.name], s.handleStats)] else [];
    SuiteParts(s, run);
    SuiteOwnOwners(s);
    SuiteTestsOwners(s, run);
    OwnersConcat(o, post);
    Assoc(p + t.trace, o, post);
    OwnersJoin(p, t.trace, o + post, 0, t.next);
    FromZero(Owners(RunSuite(s, run).trace), t.next);
  }

  lemma FromZero(x: seq<Own>, n: nat)
    requires x == Numbered(0, n)
    ensures x == Numbered(0, |x|)
  {
  }

  /** Hence the owners of two different started nodes differ. */
  lemma OwnersDistinct(s: Suite, run: seq<Method>, i: nat, j: nat)
    requires i < j < |Owners(RunSuite(s, run).trace)|
    ensures Owners(RunSuite(s, run).trace)[i] != Owners(RunSuite(s, run).trace)[j]
  {
    SuiteOwners(s, run);
  }

  /** How many nodes a sub-test starts: itself, and its sub-tests only if
      SetupSubTest did not panic. */
  function SubTestSize(caps: Caps, st: SubTest): nat
    decreases st, 1
  {
    1 + (if Continues(caps.setupSubTest, st.setup) then SubTestsSize(caps, st.body.subTests) else 0)
  }

  function SubTestsSize(caps: Caps, subs: seq<SubTest>): nat
    decreases subs, 0
  {
    if subs == [] then 0 else SubTestSize(caps, subs[0]) + SubTestsSize(caps, subs[1..])
  }

  /** How many nodes a test starts: itself, and its sub-tests only if
      neither SetupTest nor BeforeTest panicked. */
  function TestSize(s: Suite, m: Method): nat {
    1 + (if Continues(s.caps.setupTest, m.setupTest) && Continues(s.caps.beforeTest, m.beforeTest)
         then SubTestsSize(s.caps, m.body.subTests) else 0)
  }

  function TestsSize(s: Suite, run: seq<Method>): nat {
    if run == [] then 0 else TestSize(s, run[0]) + TestsSize(s, run[1..])
  }

  /** How many nodes a run starts: the suite node, and its tests only if
      SetupSuite did not panic. */
  function SuiteSize(s: Suite, run: seq<Method>): nat {
    1 + (if Continues(s.caps.setupSuite, s.setupSuite) then TestsSize(s, run) else 0)
  }

  lemma {:induction false} SubTestCount(caps: Caps, g: GlobalRef, caller: Instance, parent: Path, st: SubTest, next: nat)
    ensures RunSubTest(caps, g, caller, parent, st, next).next == next + SubTestSize(caps, st)
    decreases st, 1
  {
    var node := parent + [st.name];
    SubTestShape(caps, g, caller, parent, st, next);
    SubTestsCount(caps, g, Instance(next), node, st.body.subTests, next + 1);
  }

  lemma {:induction false} SubTestsCount(caps: Caps, g: GlobalRef, caller: Instance, parent: Path, subs: seq<SubTest>, next: nat)
    ensures RunSubTests(caps, g, caller, parent, subs, next).next == next + SubTestsSize(caps, subs)
    decreases subs, 0
  {
    if subs != [] {
      var first := RunSubTest(caps, g, caller, parent, subs[0], next);
      SubTestCount(caps, g, caller, parent, subs[0], next);
      SubTestsCount(caps, g, caller, parent, subs[1..], first.next);
    }
  }

  lemma TestCount(s: Suite, m: Method, stats: map<string, bool>, next: nat)
    ensures RunTest(s, m, stats, next).next == next + TestSize(s, m)
  {
    TestShape(s, m, stats, next);
    SubTestsCount(s.caps, Global, Instance(next), [m.name], m.body.subTests, next + 1);
  }

  lemma {:induction false} TestsCount(s: Suite, run: seq<Method>, stats: map<string, bool>, next: nat)
    ensures RunTests(s, run, stats, next).next == next + TestsSize(s, run)
    decreases |run|
  {
    if run != [] {
      var first := RunTest(s, run[0], stats, next);
      TestCount(s, run[0], stats, next);
      TestsCount(s, run[1..], first.stats, first.next);
    }
  }

  /** The nodes a run starts are numbered 0 up to the run's size: a node
      whose setup panicked starts no children, every other node starts all
      of its own. */
  lemma SuiteCount(s: Suite, run: seq<Method>)
    ensures Owners(RunSuite(s, run).trace) == Numbered(0, SuiteSize(s, run))
  {
    SuiteOwners(s, run);
    var t := SuiteTests(s, run);
    SuiteParts(s, run);
    SuiteTestsOwners(s, run);
    if Continues(s.caps.setupSuite, s.setupSuite) {
      TestsCount(s, run, map[], 1);
    }
    SuiteLength(s, run);
  }

  /** The number of owners is one more than the tests' last number. */
  lemma SuiteLength(s: Suite, run: seq<Method>)
    ensures |Owners(RunSuite(s, run).trace)| == SuiteTests(s, run).next
  {
    var t := SuiteTests(s, run);
    var p := SuitePrologue(s).trace;
    var o := Opt(s.caps.tearDownSuite, Called([], TearDownSuite, [], s.tearDownSuite));
    var post: seq<Event> := if s.caps.handleStats then [StatsEnd([]), Called([], HandleStats, [s.name], s.handleStats)] else [];
    SuiteParts(s, run);
    SuiteOwnOwners(s);
    SuiteTestsOwners(s, run);
    OwnersConcat(o, post);
    Assoc(p + t.trace, o, post);
    OwnersJoin(p, t.trace, o + post, 0, t.next);
  }
}
