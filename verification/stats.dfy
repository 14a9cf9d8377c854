/** The statistics a suite implementing WithStats collects: each test's
    record is taken by a cleanup registered before any other on the test's
    node, so it fires last and sees every failure of the test, of its
    per-test hooks and of its sub-tests. */
module Stats {
  import opened Wrappers
  import opened Capabilities
  import opened Tree
  import opened Wiring
  import opened Selection
  import opened Lifecycle
  import opened Shapes
  import opened Scope

  /** When a test fails, in terms of its hooks' outcomes and whether its
      sub-tests failed: SetupTest faults, BeforeTest faults after SetupTest
      returned, the method or one of its sub-tests faults (if they ran), or
      AfterTest (registered only once SetupTest returned) or TearDownTest
      faults. */
  predicate TestFails(c: Caps, m: Method, kidsFailed: bool) {
    var setupOk := Continues(c.setupTest, m.setupTest);
    var live := setupOk && Continues(c.beforeTest, m.beforeTest);
    || FaultsIf(c.setupTest, m.setupTest)
    || (setupOk && FaultsIf(c.beforeTest, m.beforeTest))
    || (live && (kidsFailed || m.body.ends.Faults()))
    || FaultsIf(setupOk && c.afterTest, m.afterTest)
    || FaultsIf(c.tearDownTest, m.tearDownTest)
  }

  /** The pass state the statistics record for a test follows its hooks'
      outcomes. */
  lemma TestPassState(s: Suite, m: Method, stats: map<string, bool>, next: nat)
    ensures var kids := RunSubTests(s.caps, Global, Instance(next), [m.name], m.body.subTests, next + 1);
      var r := RunTest(s, m, stats, next);
      r.failed <==> TestFails(s.caps, m, kids.failed)
  {
    var node := [m.name];
    var f := TestPrologue(s, m, next);
    var setupOk := Continues(s.caps.setupTest, m.setupTest);
    var b := RunBody(s.caps, Global, Instance(next), node, m.body, f, next + 1);
    BodyShape(s.caps, Global, Instance(next), node, m.body, f, next + 1);
    TestCleanups(node, m.name, s.caps.handleStats, s.caps.tearDownTest, setupOk && s.caps.afterTest,
      m.tearDownTest, [s.name, m.name], m.afterTest, b.frame.failed, stats);
  }

  predicate NoTestEnd(trace: seq<Event>) {
    forall e :: e in trace ==> !e.TestEnd?
  }

  lemma NoTestEndConcat(a: seq<Event>, b: seq<Event>)
    requires NoTestEnd(a) && NoTestEnd(b)
    ensures NoTestEnd(a + b)
  {
  }

  /** Everything a test emits before its statistics record. */
  lemma TestBeforeRecord(s: Suite, m: Method, next: nat, withAfter: bool)
    ensures var node := [m.name];
      var f := TestPrologue(s, m, next);
      var kids := RunSubTests(s.caps, Global, Instance(next), node, m.body.subTests, next + 1);
      NoTestEnd(f.trace + (if f.live then [BodyRan(node, m.body.ends)] + kids.trace else [])
                + Opt(withAfter && s.caps.afterTest, Called(node, AfterTest, [s.name, m.name], m.afterTest))
                + Opt(s.caps.tearDownTest, Called(node, TearDownTest, [], m.tearDownTest)))
  {
    var node := [m.name];
    var f := TestPrologue(s, m, next);
    var kids := RunSubTests(s.caps, Global, Instance(next), node, m.body.subTests, next + 1);
    SubTestsScoped(s.caps, Global, Instance(next), node, m.body.subTests, next + 1);
    forall e | e in kids.trace
      ensures !e.TestEnd?
    {
      assert SubTreeEvent(s.caps, Global, Instance(next), node, e);
    }
    NoTestEndConcat([BodyRan(node, m.body.ends)], kids.trace);
    var mid := if f.live then [BodyRan(node, m.body.ends)] + kids.trace else [];
    NoTestEndConcat(f.trace, mid);
  }

  /** With statistics, a test's last event is its record, the only one it
      emits, and it holds the test's pass state: no fault anywhere in the
      test's trace. The shared record gets the same entry. */
  lemma TestRecord(s: Suite, m: Method, stats: map<string, bool>, next: nat)
    requires s.caps.handleStats
    ensures var r := RunTest(s, m, stats, next);
      && |r.trace| > 0
      && r.trace[|r.trace| - 1] == TestEnd([m.name], !HasFault(r.trace))
      && (forall e :: e in r.trace && e.TestEnd? ==> e == TestEnd([m.name], !HasFault(r.trace)))
      && r.stats == stats[m.name := !HasFault(r.trace)]
  {
    var node := [m.name];
    var f := TestPrologue(s, m, next);
    var r := RunTest(s, m, stats, next);
    var setupOk := Continues(s.caps.setupTest, m.setupTest);
    var kids := RunSubTests(s.caps, Global, Instance(next), node, m.body.subTests, next + 1);
    TestShape(s, m, stats, next);
    TestBeforeRecord(s, m, next, setupOk);
    var x := f.trace + (if f.live then [BodyRan(node, m.body.ends)] + kids.trace else [])
             + Opt(setupOk && s.caps.afterTest, Called(node, AfterTest, [s.name, m.name], m.afterTest))
             + Opt(s.caps.tearDownTest, Called(node, TearDownTest, [], m.tearDownTest));
    assert r.trace == x + [TestEnd(node, !r.failed)];
  }

  /** The names of a list of methods. */
  function Names(run: seq<Method>): (r: set<string>)
    ensures forall i :: 0 <= i < |run| ==> run[i].name in r
    ensures forall k :: k in r ==> exists i :: 0 <= i < |run| && run[i].name == k
  {
    if run == [] then {} else {run[0].name} + Names(run[1..])
  }

  /** No two methods share a name (Go method names of one type are distinct). */
  predicate DistinctNames(run: seq<Method>) {
    forall i, j :: 0 <= i < j < |run| ==> run[i].name != run[j].name
  }

  /** Every record event in `trace` agrees with the shared record `st`. */
  predicate Agrees(trace: seq<Event>, st: map<string, bool>) {
    forall e :: e in trace && e.TestEnd? ==> |e.node| == 1 && e.node[0] in st && st[e.node[0]] == e.passed
  }

  /** Every test of `run` has an entry in `st` and emitted its record event. */
  predicate Recorded(run: seq<Method>, trace: seq<Event>, st: map<string, bool>) {
    forall i :: 0 <= i < |run| ==> run[i].name in st && TestEnd([run[i].name], st[run[i].name]) in trace
  }

  /** `st` keeps every entry of `stats` outside `names`. */
  predicate Keeps(stats: map<string, bool>, st: map<string, bool>, names: set<string>) {
    forall k :: k in stats && k !in names ==> k in st && st[k] == stats[k]
  }

  /** One test followed by the rest of the list. */
  lemma StatsStep(run: seq<Method>, p: bool, stats: map<string, bool>, t1: seq<Event>, s1: map<string, bool>,
                  t2: seq<Event>, s2: map<string, bool>)
    requires run != [] && run[0].name !in Names(run[1..])
    requires TestEnd([run[0].name], p) in t1
    requires forall e :: e in t1 && e.TestEnd? ==> e == TestEnd([run[0].name], p)
    requires s1 == stats[run[0].name := p]
    requires s2.Keys == s1.Keys + Names(run[1..]) && Keeps(s1, s2, Names(run[1..]))
    requires Recorded(run[1..], t2, s2) && Agrees(t2, s2)
    ensures s2.Keys == stats.Keys + Names(run) && Keeps(stats, s2, Names(run))
    ensures Recorded(run, t1 + t2, s2) && Agrees(t1 + t2, s2)
  {
    assert Names(run) == {run[0].name} + Names(run[1..]);
    forall i | 0 <= i < |run|
      ensures run[i].name in s2 && TestEnd([run[i].name], s2[run[i].name]) in t1 + t2
    {
      if i > 0 {
        assert run[i] == run[1..][i - 1];
      }
    }
  }

  lemma HeadNotInTail(run: seq<Method>)
    requires run != [] && DistinctNames(run)
    ensures run[0].name !in Names(run[1..]) && DistinctNames(run[1..])
  {
  }

  /** With statistics, the record after a list of tests has an entry for
      each of them and keeps every other entry; each entry is the pass
      state its test's record event carried, and every test emitted one. */
  lemma {:induction false} RunTestsStats(s: Suite, run: seq<Method>, stats: map<string, bool>, next: nat)
    requires s.caps.handleStats && DistinctNames(run)
    ensures var r := RunTests(s, run, stats, next);
      && r.stats.Keys == stats.Keys + Names(run)
      && Keeps(stats, r.stats, Names(run))
      && Recorded(run, r.trace, r.stats)
      && Agrees(r.trace, r.stats)
    decreases |run|
  {
    if run != [] {
      var m := run[0];
      var first := RunTest(s, m, stats, next);
      var rest := RunTests(s, run[1..], first.stats, first.next);
      TestRecord(s, m, stats, next);
      RunTestsStats(s, run[1..], first.stats, first.next);
      HeadNotInTail(run);
      StatsStep(run, !HasFault(first.trace), stats, first.trace, first.stats, rest.trace, rest.stats);
    }
  }

  /** Without statistics, no statistics event is emitted and the record
      stays empty. */
  lemma NoStatsWithoutHandler(s: Suite, run: seq<Method>)
    requires !s.caps.handleStats
    ensures var r := RunSuite(s, run);
      && r.stats == map[]
      && forall e :: e in r.trace ==> !e.StatsBegin? && !e.StatsEnd? && !e.TestBegin? && !e.TestEnd?
  {
    var f := SuitePrologue(s);
    var t := if f.live then RunTests(s, run, map[], 1) else TestRun([], false, map[], 1);
    SuiteShape(s, run);
    if f.live {
      TestsScoped(s, run, map[], 1);
      TestsKeepStats(s, run, map[], 1);
    }
    forall e | e in t.trace
      ensures !e.StatsBegin? && !e.StatsEnd? && !e.TestBegin? && !e.TestEnd?
    {
      assert RunTreeEvent(s, e);
    }
  }

  lemma {:induction false} TestsKeepStats(s: Suite, run: seq<Method>, stats: map<string, bool>, next: nat)
    requires !s.caps.handleStats
    ensures RunTests(s, run, stats, next).stats == stats
    decreases |run|
  {
    if run != [] {
      var first := RunTest(s, run[0], stats, next);
      TestShape(s, run[0], stats, next);
      TestsKeepStats(s, run[1..], first.stats, first.next);
    }
  }

  /** What HandleStats is handed: one entry per test of the run set, each
      agreeing with that test's record event, or no entry at all when
      SetupSuite panicked. */
  lemma SuiteStats(s: Suite, run: seq<Method>)
    requires s.caps.handleStats && DistinctNames(run)
    ensures var r := RunSuite(s, run);
      && r.stats.Keys == (if Continues(s.caps.setupSuite, s.setupSuite) then Names(run) else {})
      && (Continues(s.caps.setupSuite, s.setupSuite) ==> Recorded(run, r.trace, r.stats))
      && Agrees(r.trace, r.stats)
  {
    var t := SuiteTests(s, run);
    SuiteParts(s, run);
    SuiteTestsStats(s, run);
    SuiteOwnNoRecord(s);
    SuiteAgrees(SuitePrologue(s).trace, t.trace,
      Opt(s.caps.tearDownSuite, Called([], TearDownSuite, [], s.tearDownSuite)),
      [StatsEnd([]), Called([], HandleStats, [s.name], s.handleStats)], t.stats, run);
  }

  /** The tests' part of the suite trace and the record they leave. */
  lemma SuiteTestsStats(s: Suite, run: seq<Method>)
    requires s.caps.handleStats && DistinctNames(run)
    ensures var t := SuiteTests(s, run);
      && t.stats.Keys == (if Continues(s.caps.setupSuite, s.setupSuite) then Names(run) else {})
      && (Continues(s.caps.setupSuite, s.setupSuite) ==> Recorded(run, t.trace, t.stats))
      && Agrees(t.trace, t.stats)
  {
    if Continues(s.caps.setupSuite, s.setupSuite) {
      RunTestsStats(s, run, map[], 1);
      var none: map<string, bool> := map[];
      assert none.Keys + Names(run) == Names(run);
    }
  }

  lemma SuiteOwnNoRecord(s: Suite)
    ensures NoTestEnd(SuitePrologue(s).trace)
    ensures NoTestEnd(Opt(s.caps.tearDownSuite, Called([], TearDownSuite, [], s.tearDownSuite)))
    ensures NoTestEnd([StatsEnd([]), Called([], HandleStats, [s.name], s.handleStats)])
  {
  }

  /** The suite node's own events carry no record, so only the tests'
      events matter. */
  lemma SuiteAgrees(p: seq<Event>, t: seq<Event>, o: seq<Event>, post: seq<Event>, st: map<string, bool>, run: seq<Method>)
    requires NoTestEnd(p) && NoTestEnd(o) && NoTestEnd(post)
    requires Agrees(t, st)
    ensures Agrees(p + t + o + post, st)
    ensures Recorded(run, t, st) ==> Recorded(run, p + t + o + post, st)
  {
  }
}
