/** What an absent capability changes: every `any(suite).(H)` check of
    suite/suite.go guards exactly the calls of H (and, for WithStats, the
    whole statistics record), so a suite without H runs as the same suite
    with an H that always returns, minus those calls. */
module Absence {
  import opened Wrappers
  import opened Capabilities
  import opened Tree
  import opened Wiring
  import opened Lifecycle
  import opened Shapes
  import opened Stats
  import opened Selection

  /** The same capabilities with `h` removed. */
  function Drop(c: Caps, h: Hook): (r: Caps)
    ensures !r.Has(h)
  {
    Caps(c.setupSuite && h != SetupSuite, c.tearDownSuite && h != TearDownSuite,
         c.setupTest && h != SetupTest, c.tearDownTest && h != TearDownTest,
         c.beforeTest && h != BeforeTest, c.afterTest && h != AfterTest,
         c.handleStats && h != HandleStats,
         c.setupSubTest && h != SetupSubTest, c.tearDownSubTest && h != TearDownSubTest)
  }

  /** Dropping `h` keeps every other capability as it was. */
  lemma DropKeepsOthers(c: Caps, h: Hook, k: Hook)
    requires k != h
    ensures Drop(c, h).Has(k) == c.Has(k)
  {
    match k
    case SetupSuite =>
    case TearDownSuite =>
    case SetupTest =>
    case TearDownTest =>
    case BeforeTest =>
    case AfterTest =>
    case HandleStats =>
    case SetupSubTest =>
    case TearDownSubTest =>
  }

  /** The event exists only because the suite implements `h`: a call of
      it, or for HandleStats any statistics event. */
  predicate Of(e: Event, h: Hook) {
    (e.Called? && e.hook == h)
    || (h == HandleStats && (e.StatsBegin? || e.StatsEnd? || e.TestBegin? || e.TestEnd?))
  }

  /** `trace` without the events of `h`, in order. */
  function Erase(trace: seq<Event>, h: Hook): (r: seq<Event>)
    ensures |r| <= |trace|
  {
    if trace == [] then []
    else (if Of(trace[0], h) then [] else [trace[0]]) + Erase(trace[1..], h)
  }

  /** Erasing keeps exactly the events that are not `h`'s. */
  lemma {:induction false} EraseMembers(trace: seq<Event>, h: Hook)
    ensures forall e :: e in Erase(trace, h) <==> e in trace && !Of(e, h)
    decreases |trace|
  {
    if trace != [] {
      EraseMembers(trace[1..], h);
      assert trace == [trace[0]] + trace[1..];
    }
  }

  lemma {:induction false} EraseConcat(a: seq<Event>, b: seq<Event>, h: Hook)
    ensures Erase(a + b, h) == Erase(a, h) + Erase(b, h)
    decreases |a|
  {
    if a == [] {
      assert a + b == b;
    } else {
      assert (a + b)[0] == a[0] && (a + b)[1..] == a[1..] + b;
      EraseConcat(a[1..], b, h);
      var x := if Of(a[0], h) then [] else [a[0]];
      assert Erase(a + b, h) == x + Erase(a[1..] + b, h);
      assert x + (Erase(a[1..], h) + Erase(b, h)) == (x + Erase(a[1..], h)) + Erase(b, h);
    }
  }

  lemma EraseOne(e: Event, h: Hook)
    ensures Erase([e], h) == if Of(e, h) then [] else [e]
  {
    assert [e][1..] == [];
  }

  /** The calls of `h` all return. */
  predicate QuietTrace(trace: seq<Event>, h: Hook) {
    forall e :: e in trace && Of(e, h) ==> !e.Faulty()
  }

  /** Removing calls that all returned removes no failure. */
  lemma EraseKeepsFaults(trace: seq<Event>, h: Hook)
    requires QuietTrace(trace, h)
    ensures HasFault(Erase(trace, h)) <==> HasFault(trace)
  {
    EraseMembers(trace, h);
    if HasFault(trace) {
      var e :| e in trace && e.Faulty();
      assert e in Erase(trace, h);
    }
  }

  /** The outcome `o` of a call of hook `k` returns if `k` is `h`. */
  predicate Calm(h: Hook, k: Hook, o: Outcome) {
    k == h ==> o == Returns
  }

  /** Every call of `h` in a sub-test tree returns. */
  predicate QuietSub(h: Hook, st: SubTest)
    decreases st, 1
  {
    Calm(h, SetupSubTest, st.setup) && Calm(h, TearDownSubTest, st.tearDown) && QuietSubs(h, st.body.subTests)
  }

  predicate QuietSubs(h: Hook, subs: seq<SubTest>)
    decreases subs, 0
  {
    forall i :: 0 <= i < |subs| ==> QuietSub(h, subs[i])
  }

  /** Every call of `h` on a test node and below returns. */
  predicate QuietMethod(h: Hook, m: Method) {
    && Calm(h, SetupTest, m.setupTest) && Calm(h, BeforeTest, m.beforeTest)
    && Calm(h, AfterTest, m.afterTest) && Calm(h, TearDownTest, m.tearDownTest)
    && QuietSubs(h, m.body.subTests)
  }

  /** Every call of `h` anywhere in the suite returns. */
  predicate QuietSuite(h: Hook, s: Suite) {
    && Calm(h, SetupSuite, s.setupSuite) && Calm(h, TearDownSuite, s.tearDownSuite)
    && Calm(h, HandleStats, s.handleStats)
    && forall i :: 0 <= i < |s.methods| ==> QuietMethod(h, s.methods[i])
  }

  /** `present'` is `present` for any hook but `h`, and false for `h`. */
  predicate Kept(h: Hook, k: Hook, present: bool, present': bool) {
    if k == h then !present' else present' == present
  }

  /** Whether a chain goes on past a hook, and whether the hook reports a
      failure, does not depend on `h` being implemented when `h`'s calls
      return. */
  lemma ContinuesKept(h: Hook, k: Hook, present: bool, present': bool, o: Outcome)
    requires Kept(h, k, present, present') && Calm(h, k, o)
    ensures Continues(present, o) == Continues(present', o)
    ensures FaultsIf(present, o) == FaultsIf(present', o)
  {
  }

  /** An optional call of hook `k` with `h` and without it. */
  lemma EraseCall(h: Hook, k: Hook, present: bool, present': bool, e: Event)
    requires Kept(h, k, present, present') && e.Called? && e.hook == k && Calm(h, k, e.outcome)
    ensures Erase(Opt(present, e), h) == Opt(present', e)
    ensures QuietTrace(Opt(present, e), h)
  {
    EraseOne(e, h);
  }

  lemma Erase4(a: seq<Event>, b: seq<Event>, c: seq<Event>, d: seq<Event>, h: Hook)
    ensures Erase(a + b + c + d, h) == Erase(a, h) + Erase(b, h) + Erase(c, h) + Erase(d, h)
  {
    EraseConcat(a + b + c, d, h);
    EraseConcat(a + b, c, h);
    EraseConcat(a, b, h);
  }

  /** The optional body part of a node: its first event and its children. */
  lemma EraseBody(live: bool, e: Event, kt: seq<Event>, kt': seq<Event>, h: Hook)
    requires !Of(e, h) && Erase(kt, h) == kt' && QuietTrace(kt, h)
    ensures Erase(if live then [e] + kt else [], h) == if live then [e] + kt' else []
    ensures QuietTrace(if live then [e] + kt else [], h)
  {
    if live {
      EraseConcat([e], kt, h);
      EraseOne(e, h);
    }
  }

  /** Four consecutive parts of a trace, each erased on its own. */
  lemma EraseParts(a: seq<Event>, b: seq<Event>, c: seq<Event>, d: seq<Event>,
                   a': seq<Event>, b': seq<Event>, c': seq<Event>, d': seq<Event>, h: Hook)
    requires Erase(a, h) == a' && Erase(b, h) == b' && Erase(c, h) == c' && Erase(d, h) == d'
    requires QuietTrace(a, h) && QuietTrace(b, h) && QuietTrace(c, h) && QuietTrace(d, h)
    ensures Erase(a + b + c + d, h) == a' + b' + c' + d'
    ensures QuietTrace(a + b + c + d, h)
  {
    Erase4(a, b, c, d, h);
  }

  /** The closed form of a sub-test's trace, with and without `h`. */
  lemma SubTestPieces(caps: Caps, h: Hook, start: Event, node: Path, st: SubTest, kt: seq<Event>, kt': seq<Event>)
    requires start.Started? && QuietSub(h, st) && Erase(kt, h) == kt' && QuietTrace(kt, h)
    ensures var caps' := Drop(caps, h);
      var setupOk := Continues(caps.setupSubTest, st.setup);
      var x := [start] + Opt(caps.setupSubTest, Called(node, SetupSubTest, [], st.setup))
               + (if setupOk then [BodyRan(node, st.body.ends)] + kt else [])
               + Opt(caps.tearDownSubTest, Called(node, TearDownSubTest, [], st.tearDown));
      var y := [start] + Opt(caps'.setupSubTest, Called(node, SetupSubTest, [], st.setup))
               + (if setupOk then [BodyRan(node, st.body.ends)] + kt' else [])
               + Opt(caps'.tearDownSubTest, Called(node, TearDownSubTest, [], st.tearDown));
      Erase(x, h) == y && QuietTrace(x, h)
  {
    var caps' := Drop(caps, h);
    EraseOne(start, h);
    EraseCall(h, SetupSubTest, caps.setupSubTest, caps'.setupSubTest, Called(node, SetupSubTest, [], st.setup));
    EraseCall(h, TearDownSubTest, caps.tearDownSubTest, caps'.tearDownSubTest, Called(node, TearDownSubTest, [], st.tearDown));
    EraseBody(Continues(caps.setupSubTest, st.setup), BodyRan(node, st.body.ends), kt, kt', h);
    EraseParts([start], Opt(caps.setupSubTest, Called(node, SetupSubTest, [], st.setup)),
               if Continues(caps.setupSubTest, st.setup) then [BodyRan(node, st.body.ends)] + kt else [],
               Opt(caps.tearDownSubTest, Called(node, TearDownSubTest, [], st.tearDown)),
               [start], Opt(caps'.setupSubTest, Called(node, SetupSubTest, [], st.setup)),
               if Continues(caps.setupSubTest, st.setup) then [BodyRan(node, st.body.ends)] + kt' else [],
               Opt(caps'.tearDownSubTest, Called(node, TearDownSubTest, [], st.tearDown)), h);
  }

  /** A sub-test with `h` and the same sub-test without it. */
  lemma {:induction false} SubTestErase(caps: Caps, h: Hook, g: GlobalRef, caller: Instance, parent: Path, st: SubTest, next: nat)
    requires QuietSub(h, st)
    ensures var a := RunSubTest(caps, g, caller, parent, st, next);
      var b := RunSubTest(Drop(caps, h), g, caller, parent, st, next);
      Erase(a.trace, h) == b.trace && a.failed == b.failed && a.next == b.next && QuietTrace(a.trace, h)
    decreases st, 1
  {
    var caps' := Drop(caps, h);
    var node := parent + [st.name];
    var a := RunSubTest(caps, g, caller, parent, st, next);
    SubTestShape(caps, g, caller, parent, st, next);
    SubTestShape(caps', g, caller, parent, st, next);
    SubTestsErase(caps, h, g, Instance(next), node, st.body.subTests, next + 1);
    ContinuesKept(h, SetupSubTest, caps.setupSubTest, caps'.setupSubTest, st.setup);
    SubTestPieces(caps, h, Started(node, NewNode(Handle(next), g, Instance(next), Some(caller))), node, st,
                  RunSubTests(caps, g, Instance(next), node, st.body.subTests, next + 1).trace,
                  RunSubTests(caps', g, Instance(next), node, st.body.subTests, next + 1).trace);
    EraseKeepsFaults(a.trace, h);
  }

  lemma {:induction false} SubTestsErase(caps: Caps, h: Hook, g: GlobalRef, caller: Instance, parent: Path, subs: seq<SubTest>, next: nat)
    requires QuietSubs(h, subs)
    ensures var a := RunSubTests(caps, g, caller, parent, subs, next);
      var b := RunSubTests(Drop(caps, h), g, caller, parent, subs, next);
      Erase(a.trace, h) == b.trace && a.failed == b.failed && a.next == b.next && QuietTrace(a.trace, h)
    decreases subs, 0
  {
    if subs != [] {
      var caps' := Drop(caps, h);
      var first := RunSubTest(caps, g, caller, parent, subs[0], next);
      SubTestErase(caps, h, g, caller, parent, subs[0], next);
      assert QuietSubs(h, subs[1..]) by {
        forall i | 0 <= i < |subs[1..]|
          ensures QuietSub(h, subs[1..][i])
        {
          assert subs[1..][i] == subs[i + 1];
        }
      }
      SubTestsErase(caps, h, g, caller, parent, subs[1..], first.next);
      var rest := RunSubTests(caps, g, caller, parent, subs[1..], first.next);
      EraseConcat(first.trace, rest.trace, h);
    }
  }

  /** An optional event `e`, present on `p` with `h` and on `p'` without
      it: either it is `h`'s, missing without `h` and not a failure, or it
      is not `h`'s and present alike. */
  predicate Shed(h: Hook, p: bool, p': bool, e: Event) {
    (Of(e, h) && !p' && !e.Faulty()) || (!Of(e, h) && p == p')
  }

  lemma EraseShed(h: Hook, p: bool, p': bool, e: Event)
    requires Shed(h, p, p', e)
    ensures Erase(Opt(p, e), h) == Opt(p', e)
    ensures QuietTrace(Opt(p, e), h)
  {
    EraseOne(e, h);
  }

  lemma CallShed(h: Hook, k: Hook, p: bool, p': bool, e: Event)
    requires Kept(h, k, p, p') && e.Called? && e.hook == k && Calm(h, k, e.outcome)
    ensures Shed(h, p, p', e)
  {
  }

  lemma StatShed(h: Hook, p: bool, p': bool, e: Event)
    requires Kept(h, HandleStats, p, p')
    requires e.StatsBegin? || e.StatsEnd? || e.TestBegin? || e.TestEnd?
    ensures Shed(h, p, p', e)
  {
  }

  /** A first event and three optional ones, with and without `h`. */
  lemma EraseOpts(h: Hook, e0: Event, p1: bool, p1': bool, e1: Event, p2: bool, p2': bool, e2: Event,
                  p3: bool, p3': bool, e3: Event)
    requires !Of(e0, h) && Shed(h, p1, p1', e1) && Shed(h, p2, p2', e2) && Shed(h, p3, p3', e3)
    ensures Erase([e0] + Opt(p1, e1) + Opt(p2, e2) + Opt(p3, e3), h) == [e0] + Opt(p1', e1) + Opt(p2', e2) + Opt(p3', e3)
    ensures QuietTrace([e0] + Opt(p1, e1) + Opt(p2, e2) + Opt(p3, e3), h)
  {
    EraseOne(e0, h);
    EraseShed(h, p1, p1', e1);
    EraseShed(h, p2, p2', e2);
    EraseShed(h, p3, p3', e3);
    EraseParts([e0], Opt(p1, e1), Opt(p2, e2), Opt(p3, e3), [e0], Opt(p1', e1), Opt(p2', e2), Opt(p3', e3), h);
  }

  lemma EraseTwo(a: seq<Event>, b: seq<Event>, a': seq<Event>, b': seq<Event>, h: Hook)
    requires Erase(a, h) == a' && Erase(b, h) == b' && QuietTrace(a, h) && QuietTrace(b, h)
    ensures Erase(a + b, h) == a' + b' && QuietTrace(a + b, h)
  {
    EraseConcat(a, b, h);
  }

  /** A prefix, a body part and three optional events, with and without `h`. */
  lemma EraseTail(h: Hook, pre: seq<Event>, pre': seq<Event>, live: bool, e0: Event, kt: seq<Event>, kt': seq<Event>,
                  p1: bool, p1': bool, e1: Event, p2: bool, p2': bool, e2: Event, p3: bool, p3': bool, e3: Event)
    requires Erase(pre, h) == pre' && QuietTrace(pre, h)
    requires !Of(e0, h) && Erase(kt, h) == kt' && QuietTrace(kt, h)
    requires Shed(h, p1, p1', e1) && Shed(h, p2, p2', e2) && Shed(h, p3, p3', e3)
    ensures var x := pre + (if live then [e0] + kt else []) + Opt(p1, e1) + Opt(p2, e2) + Opt(p3, e3);
      Erase(x, h) == pre' + (if live then [e0] + kt' else []) + Opt(p1', e1) + Opt(p2', e2) + Opt(p3', e3)
      && QuietTrace(x, h)
  {
    var mid, mid' := if live then [e0] + kt else [], if live then [e0] + kt' else [];
    EraseBody(live, e0, kt, kt', h);
    EraseShed(h, p1, p1', e1);
    EraseShed(h, p2, p2', e2);
    EraseShed(h, p3, p3', e3);
    EraseTwo(pre, mid, pre', mid', h);
    EraseTwo(pre + mid, Opt(p1, e1), pre' + mid', Opt(p1', e1), h);
    EraseTwo(pre + mid + Opt(p1, e1), Opt(p2, e2), pre' + mid' + Opt(p1', e1), Opt(p2', e2), h);
    EraseTwo(pre + mid + Opt(p1, e1) + Opt(p2, e2), Opt(p3, e3), pre' + mid' + Opt(p1', e1) + Opt(p2', e2), Opt(p3', e3), h);
  }

  /** A test's method runs with `h` exactly when it runs without it. */
  lemma TestPrologueLive(s: Suite, h: Hook, m: Method, next: nat)
    requires QuietMethod(h, m)
    ensures TestPrologue(s, m, next).live == TestPrologue(s.(caps := Drop(s.caps, h)), m, next).live
  {
    var c, c' := s.caps, Drop(s.caps, h);
    ContinuesKept(h, SetupTest, c.setupTest, c'.setupTest, m.setupTest);
    ContinuesKept(h, BeforeTest, c.beforeTest, c'.beforeTest, m.beforeTest);
  }

  /** The closed form of a test's prologue, with and without `h`. */
  lemma TestProloguePieces(s: Suite, h: Hook, m: Method, next: nat)
    requires QuietMethod(h, m)
    ensures var a := TestPrologue(s, m, next);
      var b := TestPrologue(s.(caps := Drop(s.caps, h)), m, next);
      Erase(a.trace, h) == b.trace && QuietTrace(a.trace, h)
  {
    var c, c' := s.caps, Drop(s.caps, h);
    var node := [m.name];
    var setupOk := Continues(c.setupTest, m.setupTest);
    ContinuesKept(h, SetupTest, c.setupTest, c'.setupTest, m.setupTest);
    StatShed(h, c.handleStats, c'.handleStats, TestBegin(node));
    CallShed(h, SetupTest, c.setupTest, c'.setupTest, Called(node, SetupTest, [], m.setupTest));
    CallShed(h, BeforeTest, setupOk && c.beforeTest, setupOk && c'.beforeTest,
             Called(node, BeforeTest, [s.name, m.name], m.beforeTest));
    var start := Started(node, NewNode(Handle(next), Global, Instance(next), Some(SuiteInstance)));
    var setup := Called(node, SetupTest, [], m.setupTest);
    var before := Called(node, BeforeTest, [s.name, m.name], m.beforeTest);
    EraseOpts(h, start, c.handleStats, c'.handleStats, TestBegin(node), c.setupTest, c'.setupTest, setup,
              setupOk && c.beforeTest, setupOk && c'.beforeTest, before);
    var x := [start] + Opt(c.handleStats, TestBegin(node)) + Opt(c.setupTest, setup) + Opt(setupOk && c.beforeTest, before);
    var y := [start] + Opt(c'.handleStats, TestBegin(node)) + Opt(c'.setupTest, setup) + Opt(setupOk && c'.beforeTest, before);
    assert TestPrologue(s, m, next).trace == x;
    assert TestPrologue(s.(caps := c'), m, next).trace == y;
  }

  lemma TestFailsKept(c: Caps, h: Hook, m: Method, kidsFailed: bool)
    requires QuietMethod(h, m)
    ensures TestFails(c, m, kidsFailed) == TestFails(Drop(c, h), m, kidsFailed)
  {
    var c' := Drop(c, h);
    var setupOk := Continues(c.setupTest, m.setupTest);
    ContinuesKept(h, SetupTest, c.setupTest, c'.setupTest, m.setupTest);
    ContinuesKept(h, BeforeTest, c.beforeTest, c'.beforeTest, m.beforeTest);
    ContinuesKept(h, AfterTest, setupOk && c.afterTest, setupOk && c'.afterTest, m.afterTest);
    ContinuesKept(h, TearDownTest, c.tearDownTest, c'.tearDownTest, m.tearDownTest);
  }

  lemma TestFailsIs(s: Suite, m: Method, stats: map<string, bool>, next: nat)
    ensures RunTest(s, m, stats, next).failed
            == TestFails(s.caps, m, RunSubTests(s.caps, Global, Instance(next), [m.name], m.body.subTests, next + 1).failed)
  {
    TestPassState(s, m, stats, next);
  }

  /** A test fails with `h` exactly when it fails without it. */
  lemma TestFailedKept(s: Suite, h: Hook, m: Method, stats1: map<string, bool>, stats2: map<string, bool>, next: nat)
    requires QuietMethod(h, m)
    requires RunSubTests(s.caps, Global, Instance(next), [m.name], m.body.subTests, next + 1).failed
             == RunSubTests(Drop(s.caps, h), Global, Instance(next), [m.name], m.body.subTests, next + 1).failed
    ensures RunTest(s, m, stats1, next).failed == RunTest(s.(caps := Drop(s.caps, h)), m, stats2, next).failed
  {
    var s' := s.(caps := Drop(s.caps, h));
    TestFailsIs(s, m, stats1, next);
    TestFailsIs(s', m, stats2, next);
    TestFailsKept(s.caps, h, m, RunSubTests(s.caps, Global, Instance(next), [m.name], m.body.subTests, next + 1).failed);
  }

  /** A test's events after its prologue `pre`: the method and its
      sub-tests if the chain is live, then the cleanups in the order they
      fire. */
  function TestTail(pre: seq<Event>, s: Suite, m: Method, live: bool, passed: bool, kt: seq<Event>): seq<Event> {
    var node := [m.name];
    var setupOk := Continues(s.caps.setupTest, m.setupTest);
    pre
    + (if live then [BodyRan(node, m.body.ends)] + kt else [])
    + Opt(setupOk && s.caps.afterTest, Called(node, AfterTest, [s.name, m.name], m.afterTest))
    + Opt(s.caps.tearDownTest, Called(node, TearDownTest, [], m.tearDownTest))
    + Opt(s.caps.handleStats, TestEnd(node, passed))
  }

  lemma TestSplit(s: Suite, m: Method, stats: map<string, bool>, next: nat)
    ensures var f := TestPrologue(s, m, next);
      var r := RunTest(s, m, stats, next);
      var kids := RunSubTests(s.caps, Global, Instance(next), [m.name], m.body.subTests, next + 1);
      r.trace == TestTail(f.trace, s, m, f.live, !r.failed, kids.trace)
  {
    TestShape(s, m, stats, next);
  }

  /** A test's trace in closed form, with `h` and without it. */
  lemma TailErase(pre: seq<Event>, pre': seq<Event>, s: Suite, h: Hook, m: Method, live: bool, passed: bool, kt: seq<Event>, kt': seq<Event>)
    requires QuietMethod(h, m) && Erase(kt, h) == kt' && QuietTrace(kt, h)
    requires Erase(pre, h) == pre' && QuietTrace(pre, h)
    ensures var x := TestTail(pre, s, m, live, passed, kt);
      Erase(x, h) == TestTail(pre', s.(caps := Drop(s.caps, h)), m, live, passed, kt') && QuietTrace(x, h)
  {
    var c, c' := s.caps, Drop(s.caps, h);
    var node := [m.name];
    var setupOk := Continues(c.setupTest, m.setupTest);
    var after := Called(node, AfterTest, [s.name, m.name], m.afterTest);
    var down := Called(node, TearDownTest, [], m.tearDownTest);
    ContinuesKept(h, SetupTest, c.setupTest, c'.setupTest, m.setupTest);
    CallShed(h, AfterTest, setupOk && c.afterTest, setupOk && c'.afterTest, after);
    CallShed(h, TearDownTest, c.tearDownTest, c'.tearDownTest, down);
    StatShed(h, c.handleStats, c'.handleStats, TestEnd(node, passed));
    EraseTail(h, pre, pre', live, BodyRan(node, m.body.ends), kt, kt', setupOk && c.afterTest, setupOk && c'.afterTest, after,
              c.tearDownTest, c'.tearDownTest, down, c.handleStats, c'.handleStats, TestEnd(node, passed));
  }

  /** The trace of a test with `h`, erased, is the trace without it. */
  lemma TestTraceErase(s: Suite, h: Hook, m: Method, stats1: map<string, bool>, stats2: map<string, bool>, next: nat)
    requires QuietMethod(h, m)
    ensures var a := RunTest(s, m, stats1, next);
      var b := RunTest(s.(caps := Drop(s.caps, h)), m, stats2, next);
      Erase(a.trace, h) == b.trace && QuietTrace(a.trace, h)
  {
    var s' := s.(caps := Drop(s.caps, h));
    var node := [m.name];
    var a := RunTest(s, m, stats1, next);
    var kids := RunSubTests(s.caps, Global, Instance(next), node, m.body.subTests, next + 1);
    var kids' := RunSubTests(s'.caps, Global, Instance(next), node, m.body.subTests, next + 1);
    SubTestsErase(s.caps, h, Global, Instance(next), node, m.body.subTests, next + 1);
    TestFailedKept(s, h, m, stats1, stats2, next);
    var f, f' := TestPrologue(s, m, next), TestPrologue(s', m, next);
    TestProloguePieces(s, h, m, next);
    TestPrologueLive(s, h, m, next);
    TestSplit(s, m, stats1, next);
    TestSplit(s', m, stats2, next);
    TailErase(f.trace, f'.trace, s, h, m, f.live, !a.failed, kids.trace, kids'.trace);
  }

  /** A test with `h` and the same test without it; the statistics record
      is the same unless `h` is HandleStats itself. */
  lemma TestErase(s: Suite, h: Hook, m: Method, stats1: map<string, bool>, stats2: map<string, bool>, next: nat)
    requires QuietMethod(h, m)
    ensures var a := RunTest(s, m, stats1, next);
      var b := RunTest(s.(caps := Drop(s.caps, h)), m, stats2, next);
      && Erase(a.trace, h) == b.trace && a.failed == b.failed && a.next == b.next && QuietTrace(a.trace, h)
      && (h != HandleStats && stats1 == stats2 ==> a.stats == b.stats)
  {
    var s' := s.(caps := Drop(s.caps, h));
    var node := [m.name];
    SubTestsErase(s.caps, h, Global, Instance(next), node, m.body.subTests, next + 1);
    TestFailedKept(s, h, m, stats1, stats2, next);
    TestTraceErase(s, h, m, stats1, stats2, next);
    TestPrologueLive(s, h, m, next);
    TestShape(s, m, stats1, next);
    TestShape(s', m, stats2, next);
  }

  /** The selected tests in order, with `h` and without it. */
  lemma {:induction false} TestsErase(s: Suite, h: Hook, run: seq<Method>, stats1: map<string, bool>, stats2: map<string, bool>, next: nat)
    requires forall i :: 0 <= i < |run| ==> QuietMethod(h, run[i])
    requires h != HandleStats ==> stats1 == stats2
    ensures var a := RunTests(s, run, stats1, next);
      var b := RunTests(s.(caps := Drop(s.caps, h)), run, stats2, next);
      && Erase(a.trace, h) == b.trace && a.failed == b.failed && a.next == b.next && QuietTrace(a.trace, h)
      && (h != HandleStats ==> a.stats == b.stats)
    decreases |run|
  {
    if run != [] {
      var s' := s.(caps := Drop(s.caps, h));
      var first := RunTest(s, run[0], stats1, next);
      var first' := RunTest(s', run[0], stats2, next);
      TestErase(s, h, run[0], stats1, stats2, next);
      TestsErase(s, h, run[1..], first.stats, first'.stats, first.next);
      EraseTwo(first.trace, RunTests(s, run[1..], first.stats, first.next).trace,
               first'.trace, RunTests(s', run[1..], first'.stats, first'.next).trace, h);
    }
  }

  /** The suite's tests run with `h` exactly when they run without it. */
  lemma SuitePrologueLive(s: Suite, h: Hook)
    requires Calm(h, SetupSuite, s.setupSuite)
    ensures SuitePrologue(s).live == SuitePrologue(s.(caps := Drop(s.caps, h))).live
  {
    ContinuesKept(h, SetupSuite, s.caps.setupSuite, Drop(s.caps, h).setupSuite, s.setupSuite);
  }

  /** The suite node's prologue, with `h` and without it. */
  lemma SuitePrologueErase(s: Suite, h: Hook)
    requires Calm(h, SetupSuite, s.setupSuite)
    ensures var a := SuitePrologue(s);
      var b := SuitePrologue(s.(caps := Drop(s.caps, h)));
      Erase(a.trace, h) == b.trace && QuietTrace(a.trace, h)
  {
    var c, c' := s.caps, Drop(s.caps, h);
    var start := Started([], NewNode(Handle(0), Global, SuiteInstance, None));
    var setup := Called([], SetupSuite, [], s.setupSuite);
    StatShed(h, c.handleStats, c'.handleStats, StatsBegin([]));
    CallShed(h, SetupSuite, c.setupSuite, c'.setupSuite, setup);
    EraseOne(start, h);
    EraseShed(h, c.handleStats, c'.handleStats, StatsBegin([]));
    EraseShed(h, c.setupSuite, c'.setupSuite, setup);
    var x0, x0' := [start] + Opt(c.handleStats, StatsBegin([])), [start] + Opt(c'.handleStats, StatsBegin([]));
    EraseTwo([start], Opt(c.handleStats, StatsBegin([])), [start], Opt(c'.handleStats, StatsBegin([])), h);
    EraseTwo(x0, Opt(c.setupSuite, setup), x0', Opt(c'.setupSuite, setup), h);
    assert SuitePrologue(s).trace == x0 + Opt(c.setupSuite, setup);
    assert SuitePrologue(s.(caps := c')).trace == x0' + Opt(c'.setupSuite, setup);
  }

  /** The suite node's closing events, with `h` and without it. */
  lemma SuiteEndErase(s: Suite, h: Hook)
    requires Calm(h, TearDownSuite, s.tearDownSuite) && Calm(h, HandleStats, s.handleStats)
    ensures var c, c' := s.caps, Drop(s.caps, h);
      var down := Called([], TearDownSuite, [], s.tearDownSuite);
      var x := Opt(c.tearDownSuite, down)
               + (if c.handleStats then [StatsEnd([]), Called([], HandleStats, [s.name], s.handleStats)] else []);
      var y := Opt(c'.tearDownSuite, down)
               + (if c'.handleStats then [StatsEnd([]), Called([], HandleStats, [s.name], s.handleStats)] else []);
      Erase(x, h) == y && QuietTrace(x, h)
  {
    var c, c' := s.caps, Drop(s.caps, h);
    var down := Called([], TearDownSuite, [], s.tearDownSuite);
    var deliver := Called([], HandleStats, [s.name], s.handleStats);
    CallShed(h, TearDownSuite, c.tearDownSuite, c'.tearDownSuite, down);
    EraseShed(h, c.tearDownSuite, c'.tearDownSuite, down);
    StatShed(h, c.handleStats, c'.handleStats, StatsEnd([]));
    CallShed(h, HandleStats, c.handleStats, c'.handleStats, deliver);
    EraseShed(h, c.handleStats, c'.handleStats, StatsEnd([]));
    EraseShed(h, c.handleStats, c'.handleStats, deliver);
    assert (if c.handleStats then [StatsEnd([]), deliver] else []) == Opt(c.handleStats, StatsEnd([])) + Opt(c.handleStats, deliver);
    assert (if c'.handleStats then [StatsEnd([]), deliver] else []) == Opt(c'.handleStats, StatsEnd([])) + Opt(c'.handleStats, deliver);
    EraseTwo(Opt(c.handleStats, StatsEnd([])), Opt(c.handleStats, deliver), Opt(c'.handleStats, StatsEnd([])), Opt(c'.handleStats, deliver), h);
    EraseTwo(Opt(c.tearDownSuite, down), Opt(c.handleStats, StatsEnd([])) + Opt(c.handleStats, deliver),
             Opt(c'.tearDownSuite, down), Opt(c'.handleStats, StatsEnd([])) + Opt(c'.handleStats, deliver), h);
  }

  /** The suite node's trace in closed form. */
  function SuiteTrace(pre: seq<Event>, tt: seq<Event>, s: Suite): seq<Event> {
    pre + tt + Opt(s.caps.tearDownSuite, Called([], TearDownSuite, [], s.tearDownSuite))
    + (if s.caps.handleStats then [StatsEnd([]), Called([], HandleStats, [s.name], s.handleStats)] else [])
  }

  lemma SuiteSplit(s: Suite, run: seq<Method>)
    ensures var f := SuitePrologue(s);
      var t := if f.live then RunTests(s, run, map[], 1) else TestRun([], false, map[], 1);
      var r := RunSuite(s, run);
      r.trace == SuiteTrace(f.trace, t.trace, s) && r.stats == t.stats
  {
    SuiteShape(s, run);
  }

  /** The suite's trace in closed form, with `h` and without it. */
  lemma SuiteTraceErase(pre: seq<Event>, pre': seq<Event>, tt: seq<Event>, tt': seq<Event>, s: Suite, h: Hook)
    requires Calm(h, TearDownSuite, s.tearDownSuite) && Calm(h, HandleStats, s.handleStats)
    requires Erase(pre, h) == pre' && QuietTrace(pre, h) && Erase(tt, h) == tt' && QuietTrace(tt, h)
    ensures Erase(SuiteTrace(pre, tt, s), h) == SuiteTrace(pre', tt', s.(caps := Drop(s.caps, h)))
    ensures QuietTrace(SuiteTrace(pre, tt, s), h)
  {
    var c, c' := s.caps, Drop(s.caps, h);
    var o, o' := Opt(c.tearDownSuite, Called([], TearDownSuite, [], s.tearDownSuite)), Opt(c'.tearDownSuite, Called([], TearDownSuite, [], s.tearDownSuite));
    var post := if c.handleStats then [StatsEnd([]), Called([], HandleStats, [s.name], s.handleStats)] else [];
    var post' := if c'.handleStats then [StatsEnd([]), Called([], HandleStats, [s.name], s.handleStats)] else [];
    SuiteEndErase(s, h);
    EraseConcat(o, post, h);
    EraseKeepsQuiet(o, post, h);
    EraseTwo(pre, tt, pre', tt', h);
    EraseTwo(pre + tt, o, pre' + tt', o', h);
    EraseTwo(pre + tt + o, post, pre' + tt' + o', post', h);
  }

  lemma EraseKeepsQuiet(a: seq<Event>, b: seq<Event>, h: Hook)
    requires QuietTrace(a + b, h)
    ensures QuietTrace(a, h) && QuietTrace(b, h)
  {
    assert forall e :: e in a ==> e in a + b;
    assert forall e :: e in b ==> e in a + b;
  }

  /** A suite run on `run` with `h` and without it. */
  lemma SuiteErase(s: Suite, h: Hook, run: seq<Method>)
    requires Calm(h, SetupSuite, s.setupSuite) && Calm(h, TearDownSuite, s.tearDownSuite)
    requires Calm(h, HandleStats, s.handleStats)
    requires forall i :: 0 <= i < |run| ==> QuietMethod(h, run[i])
    ensures var a := RunSuite(s, run);
      var b := RunSuite(s.(caps := Drop(s.caps, h)), run);
      && Erase(a.trace, h) == b.trace && a.failed == b.failed
      && (h != HandleStats ==> a.stats == b.stats)
      && QuietTrace(a.trace, h)
  {
    var s' := s.(caps := Drop(s.caps, h));
    var a := RunSuite(s, run);
    var f, f' := SuitePrologue(s), SuitePrologue(s');
    SuitePrologueErase(s, h);
    SuitePrologueLive(s, h);
    if f.live {
      TestsErase(s, h, run, map[], map[], 1);
    }
    var t := if f.live then RunTests(s, run, map[], 1) else TestRun([], false, map[], 1);
    var t' := if f'.live then RunTests(s', run, map[], 1) else TestRun([], false, map[], 1);
    SuiteSplit(s, run);
    SuiteSplit(s', run);
    SuiteTraceErase(f.trace, f'.trace, t.trace, t'.trace, s, h);
    EraseKeepsFaults(a.trace, h);
  }

  /** `suite.Run` on a suite that implements `h` and on the same suite
      without it: the same verdict on the filter, and when the suite runs,
      the same trace minus `h`'s events and the same pass state; the
      statistics record differs only when `h` is HandleStats. */
  lemma AbsentCapability(s: Suite, h: Hook, cfg: FilterConfig)
    requires QuietSuite(h, s)
    ensures var a := Run(s, cfg);
      var b := Run(s.(caps := Drop(s.caps, h)), cfg);
      && (a.Completed? <==> b.Completed?)
      && (!a.Completed? ==> a == b)
      && (a.Completed? ==> Erase(a.trace, h) == b.trace && a.failed == b.failed
                           && (h != HandleStats ==> a.stats == b.stats))
      && (a.Completed? ==> QuietTrace(a.trace, h))
  {
    match Selected(cfg, s.methods)
    case Failure(_) =>
    case Success(run) =>
      forall i | 0 <= i < |run|
        ensures QuietMethod(h, run[i])
      {
        assert run[i] in run;
        var j :| 0 <= j < |s.methods| && s.methods[j] == run[i];
      }
      SuiteErase(s, h, run);
  }
}
