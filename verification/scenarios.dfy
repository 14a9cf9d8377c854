/** The concrete suites of suite/suite_test.go, run through the model: the
    parallel suite's setup/teardown tracker, the statistics suite with one
    panicking test, the suite without test methods, and the selection of a
    run set with both filter patterns set. */
module Scenarios {
  import opened Wrappers
  import opened Capabilities
  import opened Tree
  import opened Wiring
  import opened Selection
  import opened Lifecycle
  import opened Brackets
  import opened Nesting
  import opened Identity
  import opened Scope
  import opened Ordering
  import opened Stats
  import opened Directories
  import Absence

  /** Every capability of suite/interfaces.go. */
  const AllCaps := Caps(true, true, true, true, true, true, true, true, true)

  /** A test method or sub-test function that only starts `subs`. */
  function Plain(subs: seq<SubTest>): Body {
    Body(subs, Returns)
  }

  function Sub(name: string): SubTest {
    SubTest(name, Returns, Plain([]), Returns)
  }

  function PlainMethod(name: string, body: Body): Method {
    Method(name, Returns, Returns, body, Returns, Returns)
  }

  /** ParallelSuite: every capability, TestOne and TestTwo with three
      sub-tests each, and TestSkip with none (skipping ends the method
      without failing it). */
  function ParallelSuite(name: string): Suite {
    Suite(name, AllCaps, Returns, Returns, Returns,
      [PlainMethod("TestOne", Plain([Sub("sub1"), Sub("sub2"), Sub("sub3")])),
       PlainMethod("TestSkip", Plain([])),
       PlainMethod("TestTwo", Plain([Sub("sub1"), Sub("sub2"), Sub("sub3")]))])
  }

  /** A filter that accepts every method selects the whole list. */
  lemma {:induction false} SelectedAll(cfg: FilterConfig, ms: seq<Method>)
    requires forall i :: 0 <= i < |ms| ==> MethodFilter(cfg, ms[i].name) == Success(true)
    ensures Selected(cfg, ms) == Success(ms)
  {
    if ms != [] {
      SelectedAll(cfg, ms[1..]);
      assert [ms[0]] + ms[1..] == ms;
    }
  }

  /** Selection of a list with a first element, one filter call at a time. */
  lemma SelectedCons(cfg: FilterConfig, m: Method, rest: seq<Method>, keep: bool, tail: seq<Method>)
    requires MethodFilter(cfg, m.name) == Success(keep)
    requires Selected(cfg, rest) == Success(tail)
    ensures Selected(cfg, [m] + rest) == Success(if keep then [m] + tail else tail)
  {
    assert ([m] + rest)[0] == m && ([m] + rest)[1..] == rest;
  }

  /** The number of nodes a trace starts is the number of its owners. */
  lemma {:induction false} NodesAreOwners(trace: seq<Event>)
    ensures Nodes(trace) == |Owners(trace)|
    decreases |trace|
  {
    if trace != [] {
      NodesAreOwners(trace[1..]);
    }
  }

  /** The three methods pass the default filter. */
  lemma ParallelSelected(name: string, compile: string -> Regex)
    ensures Selected(FilterConfig("", "", compile), ParallelSuite(name).methods) == Success(ParallelSuite(name).methods)
  {
    var ms := ParallelSuite(name).methods;
    assert "TestOne"[..4] == "Test" && "TestSkip"[..4] == "Test" && "TestTwo"[..4] == "Test";
    assert ms[0].name == "TestOne" && ms[1].name == "TestSkip" && ms[2].name == "TestTwo";
    SelectedAll(FilterConfig("", "", compile), ms);
  }

  /** Three plain sub-tests start three nodes. */
  lemma ThreeSubs(caps: Caps, a: string, b: string, c: string)
    ensures SubTestsSize(caps, [Sub(a), Sub(b), Sub(c)]) == 3
  {
    var subs := [Sub(a), Sub(b), Sub(c)];
    assert SubTestSize(caps, Sub(a)) == 1 && SubTestSize(caps, Sub(b)) == 1 && SubTestSize(caps, Sub(c)) == 1;
    assert subs[1..] == [Sub(b), Sub(c)] && subs[1..][1..] == [Sub(c)] && subs[1..][1..][1..] == [];
    assert SubTestsSize(caps, [Sub(c)]) == 1;
    assert SubTestsSize(caps, [Sub(b), Sub(c)]) == 2;
  }

  /** The suite node, three tests and six sub-tests. */
  lemma ParallelSize(name: string)
    ensures SuiteSize(ParallelSuite(name), ParallelSuite(name).methods) == 10
  {
    var s := ParallelSuite(name);
    var ms := s.methods;
    ThreeSubs(AllCaps, "sub1", "sub2", "sub3");
    assert TestSize(s, ms[0]) == 4 && TestSize(s, ms[1]) == 1 && TestSize(s, ms[2]) == 4;
    assert ms[1..] == [ms[1], ms[2]] && ms[1..][1..] == [ms[2]] && ms[1..][1..][1..] == [];
    assert TestsSize(s, [ms[2]]) == 4;
    assert TestsSize(s, [ms[1], ms[2]]) == 5;
    assert TestsSize(s, ms) == 9;
  }

  /** A run of a suite whose every capability is paired and every setup
      present logs two entries per node it starts, well nested. */
  lemma LogSize(s: Suite, cfg: FilterConfig, run: seq<Method>)
    requires s.caps.Paired() && AllSetups(s.caps)
    requires Selected(cfg, s.methods) == Success(run) && run != []
    ensures var r := Run(s, cfg);
      r.Completed? && WellNested(Log(r.trace)) && |Log(r.trace)| == 2 * SuiteSize(s, run)
  {
    RunIsWellNested(s, cfg);
    SuiteCount(s, run);
    NodesAreOwners(RunSuite(s, run).trace);
  }

  /** By the time TearDownSuite checks it, the hook-call log holds twenty
      entries, each node's `>` before its children's and its `<` after
      them: the suite, three tests and six sub-tests, two entries each.
      Replaying it as mkdir and remove succeeds and leaves nothing behind. */
  lemma ParallelSuiteTracker(name: string, compile: string -> Regex)
    ensures var r := Run(ParallelSuite(name), FilterConfig("", "", compile));
      r.Completed? && WellNested(Log(r.trace)) && |Log(r.trace)| == 20
      && Replay(Log(r.trace), {}) == Some({})
  {
    RunPassesDirectoryCheck(ParallelSuite(name), FilterConfig("", "", compile));
    ParallelSelected(name, compile);
    ParallelSize(name);
    LogSize(ParallelSuite(name), FilterConfig("", "", compile), ParallelSuite(name).methods);
  }

  /** Every hook of the parallel suite returns. */
  lemma ParallelSuiteQuiet(name: string, h: Hook)
    ensures Absence.QuietSuite(h, ParallelSuite(name))
  {
    var three := [Sub("sub1"), Sub("sub2"), Sub("sub3")];
    SubQuiet(h, "sub1");
    SubQuiet(h, "sub2");
    SubQuiet(h, "sub3");
    PlainQuiet(h, "TestOne", three);
    PlainQuiet(h, "TestSkip", []);
    PlainQuiet(h, "TestTwo", three);
  }

  lemma SubQuiet(h: Hook, name: string)
    ensures Absence.QuietSub(h, Sub(name))
  {
    assert Absence.QuietSubs(h, []);
  }

  lemma PlainQuiet(h: Hook, name: string, subs: seq<SubTest>)
    requires forall i :: 0 <= i < |subs| ==> Absence.QuietSub(h, subs[i])
    ensures Absence.QuietMethod(h, PlainMethod(name, Plain(subs)))
  {
  }

  /** The parallel suite's own tracker, which appends at the end of each
      setup, logs the same twenty entries and passes its directory check. */
  lemma ParallelTrackerPassesCheck(name: string, compile: string -> Regex)
    ensures var r := Run(ParallelSuite(name), FilterConfig("", "", compile));
      TrackerLog(r.trace) == Log(r.trace) && Replay(TrackerLog(r.trace), {}) == Some({})
  {
    ParallelSuiteTracker(name, compile);
    ParallelSuiteQuiet(name, SetupSuite);
    ParallelSuiteQuiet(name, SetupTest);
    ParallelSuiteQuiet(name, SetupSubTest);
    TrackerPassesDirectoryCheck(ParallelSuite(name), FilterConfig("", "", compile));
  }

  /** suiteWithStats: HandleStats only, TestPanic panics, TestSomething
      passes. */
  function StatsSuite(name: string): Suite {
    Suite(name, Caps(false, false, false, false, false, false, true, false, false),
      Returns, Returns, Returns,
      [PlainMethod("TestPanic", Body([], Panics)),
       PlainMethod("TestSomething", Plain([]))])
  }

  /** Neither test hook is implemented and the method starts no sub-test. */
  predicate Bare(s: Suite, m: Method) {
    !s.caps.setupTest && !s.caps.beforeTest && !s.caps.afterTest && !s.caps.tearDownTest && m.body.subTests == []
  }

  /** Such a test fails exactly when its method does, and that is what the
      record holds for it. */
  lemma BareTestStats(s: Suite, m: Method, stats: map<string, bool>, next: nat)
    requires s.caps.handleStats && Bare(s, m)
    ensures var r := RunTest(s, m, stats, next);
      && (r.failed <==> m.body.ends.Faults())
      && r.stats == stats[m.name := !m.body.ends.Faults()]
  {
    TestRecord(s, m, stats, next);
    TestPassState(s, m, stats, next);
  }

  /** A list of one test runs just that test. */
  lemma OneTest(s: Suite, m: Method, stats: map<string, bool>, next: nat)
    ensures var t := RunTests(s, [m], stats, next);
      var r := RunTest(s, m, stats, next);
      t.failed == r.failed && t.stats == r.stats
  {
    assert [m][0] == m && [m][1..] == [];
  }

  /** Two such tests in a row. */
  lemma TwoBareTests(s: Suite, m1: Method, m2: Method)
    requires s.caps.handleStats && Bare(s, m1) && Bare(s, m2)
    ensures var t := RunTests(s, [m1, m2], map[], 1);
      && (t.failed <==> m1.body.ends.Faults() || m2.body.ends.Faults())
      && t.stats == map[m1.name := !m1.body.ends.Faults()][m2.name := !m2.body.ends.Faults()]
  {
    var none: map<string, bool> := map[];
    var first := RunTest(s, m1, none, 1);
    BareTestStats(s, m1, none, 1);
    BareTestStats(s, m2, first.stats, first.next);
    OneTest(s, m2, first.stats, first.next);
    assert [m1, m2][0] == m1 && [m1, m2][1..] == [m2];
  }

  lemma StatsSelected(name: string, compile: string -> Regex)
    ensures Selected(FilterConfig("", "", compile), StatsSuite(name).methods) == Success(StatsSuite(name).methods)
  {
    var ms := StatsSuite(name).methods;
    assert "TestPanic"[..4] == "Test" && "TestSomething"[..4] == "Test";
    assert ms[0].name == "TestPanic" && ms[1].name == "TestSomething";
    SelectedAll(FilterConfig("", "", compile), ms);
  }

  /** The run fails because of TestPanic; HandleStats is called last, with
      the suite's name, and is handed TestPanic as failed and TestSomething
      as passed. */
  lemma StatsSuiteScenario(name: string, compile: string -> Regex)
    ensures var r := Run(StatsSuite(name), FilterConfig("", "", compile));
      && r.Completed?
      && r.failed
      && r.stats == map["TestPanic" := false, "TestSomething" := true]
      && r.trace[|r.trace| - 1] == Called([], HandleStats, [name], Returns)
  {
    var s := StatsSuite(name);
    var run := s.methods;
    StatsSelected(name, compile);
    TwoBareTests(s, run[0], run[1]);
    assert [run[0], run[1]] == run;
    SuiteParts(s, run);
    HandleStatsLast(s, run);
    var t := SuiteTests(s, run);
    var e :| e in t.trace && e.Faulty();
    assert e in RunSuite(s, run).trace;
  }

  /** SuiteSetupSkipTester: SetupSuite and TearDownSuite would panic, but
      the only method does not start with "Test", so nothing runs. */
  lemma SkippingSuiteSetup(compile: string -> Regex, incl: string, excl: string)
    ensures var s := Suite("SuiteSetupSkipTester", Caps(true, true, false, false, false, false, false, false, false),
                           Panics, Panics, Returns, [PlainMethod("NonTestMethod", Plain([]))]);
      Run(s, FilterConfig(incl, excl, compile)) == NothingToRun
  {
    assert "NonTestMethod"[0] != "Test"[0];
  }

  /** A matcher for the two patterns below: `^TestA` is a prefix test,
      `Skip$` a suffix test; any other pattern fails to compile. */
  function SampleCompile(pattern: string): Regex {
    if pattern == "^TestA" then Valid(name => "TestA" <= name)
    else if pattern == "Skip$" then Valid(name => |name| >= 4 && name[|name| - 4..] == "Skip")
    else Invalid("error parsing regexp: " + pattern)
  }

  /** The three method names of the filter examples. */
  function FilterMethods(): seq<Method> {
    [PlainMethod("TestA1", Plain([])), PlainMethod("TestA2Skip", Plain([])), PlainMethod("TestB1", Plain([]))]
  }

  /** How `^TestA` and `Skip$` judge the three names. */
  lemma SampleMatches()
    ensures SampleCompile("^TestA") == Valid(name => "TestA" <= name)
    ensures SampleCompile("Skip$") == Valid(name => |name| >= 4 && name[|name| - 4..] == "Skip")
    ensures "TestA" <= "TestA1" && "TestA" <= "TestA2Skip" && !("TestA" <= "TestB1")
    ensures IsTestName("TestA1") && IsTestName("TestA2Skip") && IsTestName("TestB1")
    ensures var a, b, c := "TestA1", "TestA2Skip", "TestB1";
      a[|a| - 4..] != "Skip" && b[|b| - 4..] == "Skip" && c[|c| - 4..] != "Skip"
  {
    assert "TestA1"[..5] == "TestA" && "TestA2Skip"[..5] == "TestA" && "TestB1"[4] != "TestA"[4];
    assert "TestA1"[..4] == "Test" && "TestA2Skip"[..4] == "Test" && "TestB1"[..4] == "Test";
    var a, b, c := "TestA1", "TestA2Skip", "TestB1";
    assert a[|a| - 4..][0] != "Skip"[0] && c[|c| - 4..][0] != "Skip"[0];
    assert b[|b| - 4..] == "Skip";
  }

  /** With `testify.m=^TestA` and `testify.x=Skip$`, the include pattern
      decides alone, so TestA2Skip is still selected. */
  lemma IncludeWinsOverExclude()
    ensures var ms := FilterMethods();
      Selected(FilterConfig("^TestA", "Skip$", SampleCompile), ms) == Success([ms[0], ms[1]])
  {
    var ms := FilterMethods();
    var cfg := FilterConfig("^TestA", "Skip$", SampleCompile);
    SampleMatches();
    assert MethodFilter(cfg, ms[0].name) == Success(true);
    assert MethodFilter(cfg, ms[1].name) == Success(true);
    assert MethodFilter(cfg, ms[2].name) == Success(false);
    SelectedCons(cfg, ms[2], [], false, []);
    assert [ms[2]] + [] == ms[2..];
    SelectedCons(cfg, ms[1], ms[2..], true, []);
    assert [ms[1]] + ms[2..] == ms[1..] && [ms[1]] + [] == [ms[1]];
    SelectedCons(cfg, ms[0], ms[1..], true, [ms[1]]);
    assert [ms[0]] + ms[1..] == ms && [ms[0]] + [ms[1]] == [ms[0], ms[1]];
  }

  /** Without the include pattern, the same exclude pattern drops it. */
  lemma ExcludeAloneDropsSkip()
    ensures var ms := FilterMethods();
      Selected(FilterConfig("", "Skip$", SampleCompile), ms) == Success([ms[0], ms[2]])
  {
    var ms := FilterMethods();
    var cfg := FilterConfig("", "Skip$", SampleCompile);
    SampleMatches();
    assert MethodFilter(cfg, ms[0].name) == Success(true);
    assert MethodFilter(cfg, ms[1].name) == Success(false);
    assert MethodFilter(cfg, ms[2].name) == Success(true);
    SelectedCons(cfg, ms[2], [], true, []);
    assert [ms[2]] + [] == ms[2..];
    SelectedCons(cfg, ms[1], ms[2..], false, ms[2..]);
    assert [ms[1]] + ms[2..] == ms[1..];
    SelectedCons(cfg, ms[0], ms[1..], true, ms[2..]);
    assert [ms[0]] + ms[1..] == ms && [ms[0]] + ms[2..] == [ms[0], ms[2]];
  }

  /** An include pattern that does not compile is reported as an invalid
      filter, and nothing runs. */
  lemma InvalidIncludeStopsRun()
    ensures var s := Suite("S", AllCaps, Returns, Returns, Returns, [PlainMethod("TestA1", Plain([]))]);
      Run(s, FilterConfig("(", "", SampleCompile)) == InvalidFilter("error parsing regexp: (")
  {
    assert "TestA1"[..4] == "Test";
  }

  /** An exclude pattern that does not compile stops the run just the same. */
  lemma InvalidExcludeStopsRun()
    ensures var s := Suite("S", AllCaps, Returns, Returns, Returns, [PlainMethod("TestA1", Plain([]))]);
      Run(s, FilterConfig("", "(", SampleCompile)) == InvalidFilter("error parsing regexp: (")
  {
    assert "TestA1"[..4] == "Test";
  }
}
