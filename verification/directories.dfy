/** The directory replay of the parallel suite's TearDownSuite
    (suite/suite_test.go:76-111): every `>node` entry of the tracker log is
    an `os.Mkdir` of the node's path, every `<node` entry an `os.Remove`.
    A mkdir fails when the directory exists or its parent does not; a
    remove fails when the directory is missing or not empty. For a suite
    with all three setups and their teardowns, the replay of every run's
    hook-call log succeeds and leaves no directory behind; the real
    tracker's log does too when every setup returns, and may fail when a
    setup panics. */
module Directories {
  import opened Wrappers
  import opened Capabilities
  import opened Tree
  import opened Wiring
  import opened Selection
  import opened Lifecycle
  import opened Brackets
  import opened Nesting
  import Absence
  import Ordering

  /** The directory holding `p`; the suite's own directory sits in the
      working directory, which always exists. */
  predicate ParentExists(p: Path, dirs: set<Path>) {
    p == [] || p[..|p| - 1] in dirs
  }

  /** Some directory of `dirs` lies directly inside `p`. */
  predicate HasChild(p: Path, dirs: set<Path>) {
    exists q :: q in dirs && q != [] && q[..|q| - 1] == p
  }

  /** `os.Mkdir(p)`. */
  function Mkdir(p: Path, dirs: set<Path>): (r: Option<set<Path>>)
    ensures r.Some? <==> p !in dirs && ParentExists(p, dirs)
    ensures r.Some? ==> r.value == dirs + {p}
  {
    if p in dirs || !ParentExists(p, dirs) then None else Some(dirs + {p})
  }

  /** `os.Remove(p)` on a directory. */
  function Remove(p: Path, dirs: set<Path>): (r: Option<set<Path>>)
    ensures r.Some? <==> p in dirs && !HasChild(p, dirs)
    ensures r.Some? ==> r.value == dirs - {p}
  {
    if p !in dirs || HasChild(p, dirs) then None else Some(dirs - {p})
  }

  /** The replay loop: the directories left after the whole log, or None at
      the first entry that fails (the test's Fatalf). */
  function Replay(log: seq<Bracket<Path>>, dirs: set<Path>): Option<set<Path>>
    decreases |log|
  {
    if log == [] then Some(dirs)
    else
      var step := match log[0] case Open(p) => Mkdir(p, dirs) case Close(p) => Remove(p, dirs);
      match step
      case None => None
      case Some(d) => Replay(log[1..], d)
  }

  lemma {:induction false} ReplayConcat(a: seq<Bracket<Path>>, b: seq<Bracket<Path>>, dirs: set<Path>)
    ensures Replay(a + b, dirs) == match Replay(a, dirs) case None => None case Some(d) => Replay(b, d)
    decreases |a|
  {
    if a != [] {
      assert (a + b)[0] == a[0] && (a + b)[1..] == a[1..] + b;
      var step := match a[0] case Open(p) => Mkdir(p, dirs) case Close(p) => Remove(p, dirs);
      if step.Some? {
        ReplayConcat(a[1..], b, step.value);
      }
    } else {
      assert a + b == b;
    }
  }

  /** A log that replays from `dirs` back to `dirs`. */
  predicate Restores(log: seq<Bracket<Path>>, dirs: set<Path>) {
    Replay(log, dirs) == Some(dirs)
  }

  /** The directories open while a node at `p` runs: `p` and every
      ancestor of it. */
  function Chain(p: Path): (r: set<Path>)
    ensures p in r
    ensures forall q :: q in r ==> |q| <= |p|
  {
    assert p[..|p|] == p;
    set k | 0 <= k <= |p| :: p[..k]
  }

  /** A child's chain is its parent's chain with the child added. */
  lemma ChainChild(p: Path, n: string)
    ensures Chain(p + [n]) == Chain(p) + {p + [n]}
  {
    var c := p + [n];
    forall q | q in Chain(c)
      ensures q in Chain(p) + {c}
    {
      var k :| 0 <= k <= |c| && q == c[..k];
      if k <= |p| {
        assert c[..k] == p[..k];
      } else {
        assert c[..k] == c;
      }
    }
    forall q | q in Chain(p)
      ensures q in Chain(c)
    {
      var k :| 0 <= k <= |p| && q == p[..k];
      assert c[..k] == p[..k];
    }
  }

  /** Wrapping a log that restores `dirs + {node}` in node's own pair
      restores `dirs`, when node is new, its parent exists and nothing in
      `dirs` lies inside it. */
  lemma WrapRestores(node: Path, dirs: set<Path>, inner: seq<Bracket<Path>>)
    requires node !in dirs && ParentExists(node, dirs) && !HasChild(node, dirs)
    requires Restores(inner, dirs + {node})
    ensures Restores([Open(node)] + inner + [Close(node)], dirs)
  {
    var d := dirs + {node};
    assert Mkdir(node, dirs) == Some(d);
    ReplayConcat([Open(node)] + inner, [Close(node)], dirs);
    ReplayConcat([Open(node)], inner, dirs);
    var open: seq<Bracket<Path>> := [Open(node)];
    assert open[1..] == [];
    assert Replay([Open(node)], dirs) == Some(d);
    assert !HasChild(node, d);
    assert d - {node} == dirs;
    var close: seq<Bracket<Path>> := [Close(node)];
    assert close[1..] == [];
  }

  /** A node one level below `parent` can be wrapped over `Chain(parent)`. */
  lemma ChildRestores(parent: Path, n: string, inner: seq<Bracket<Path>>)
    requires Restores(inner, Chain(parent + [n]))
    ensures Restores([Open(parent + [n])] + inner + [Close(parent + [n])], Chain(parent))
  {
    var c := parent + [n];
    ChainChild(parent, n);
    assert c[..|c| - 1] == parent;
    assert !HasChild(c, Chain(parent));
    WrapRestores(c, Chain(parent), inner);
  }

  lemma {:induction false} SubTestRestores(caps: Caps, g: GlobalRef, caller: Instance, parent: Path, st: SubTest, next: nat)
    requires caps.Paired() && AllSetups(caps)
    ensures Restores(Log(RunSubTest(caps, g, caller, parent, st, next).trace), Chain(parent))
    decreases st, 2
  {
    var node := parent + [st.name];
    var f := SubTestPrologue(caps, g, caller, node, st, next);
    var tail := RunBody(caps, g, Instance(next), node, st.body, f, next + 1).frame.trace[|f.trace|..];
    BodyRestores(caps, g, Instance(next), node, st.body, f, next + 1);
    SubTestLog(caps, g, caller, parent, st, next);
    ChildRestores(parent, st.name, Log(tail));
  }

  lemma {:induction false} BodyRestores(caps: Caps, g: GlobalRef, self: Instance, node: Path, body: Body, f: Frame, next: nat)
    requires caps.Paired() && AllSetups(caps)
    ensures Restores(Log(RunBody(caps, g, self, node, body, f, next).frame.trace[|f.trace|..]), Chain(node))
    decreases body, 1
  {
    var r := RunBody(caps, g, self, node, body, f, next);
    if !f.live {
      assert r.frame.trace[|f.trace|..] == [];
    } else {
      var kids := RunSubTests(caps, g, self, node, body.subTests, next);
      assert r.frame.trace[|f.trace|..] == [BodyRan(node, body.ends)] + kids.trace;
      SubTestsRestore(caps, g, self, node, body.subTests, next);
      LogConcat([BodyRan(node, body.ends)], kids.trace);
      LogOne(BodyRan(node, body.ends));
      assert Log([BodyRan(node, body.ends)] + kids.trace) == Log(kids.trace);
    }
  }

  lemma {:induction false} SubTestsRestore(caps: Caps, g: GlobalRef, caller: Instance, parent: Path, subs: seq<SubTest>, next: nat)
    requires caps.Paired() && AllSetups(caps)
    ensures Restores(Log(RunSubTests(caps, g, caller, parent, subs, next).trace), Chain(parent))
    decreases subs, 0
  {
    if subs != [] {
      var first := RunSubTest(caps, g, caller, parent, subs[0], next);
      var rest := RunSubTests(caps, g, caller, parent, subs[1..], first.next);
      SubTestRestores(caps, g, caller, parent, subs[0], next);
      SubTestsRestore(caps, g, caller, parent, subs[1..], first.next);
      LogConcat(first.trace, rest.trace);
      ReplayConcat(Log(first.trace), Log(rest.trace), Chain(parent));
    }
  }

  lemma TestRestores(s: Suite, m: Method, stats: map<string, bool>, next: nat)
    requires s.caps.Paired() && AllSetups(s.caps)
    ensures Restores(Log(RunTest(s, m, stats, next).trace), Chain([]))
  {
    var node := [m.name];
    var f := TestPrologue(s, m, next);
    var tail := RunBody(s.caps, Global, Instance(next), node, m.body, f, next + 1).frame.trace[|f.trace|..];
    BodyRestores(s.caps, Global, Instance(next), node, m.body, f, next + 1);
    TestLog(s, m, stats, next);
    assert node == [] + [m.name];
    ChildRestores([], m.name, Log(tail));
  }

  lemma {:induction false} TestsRestore(s: Suite, run: seq<Method>, stats: map<string, bool>, next: nat)
    requires s.caps.Paired() && AllSetups(s.caps)
    ensures Restores(Log(RunTests(s, run, stats, next).trace), Chain([]))
    decreases |run|
  {
    if run != [] {
      var first := RunTest(s, run[0], stats, next);
      var rest := RunTests(s, run[1..], first.stats, first.next);
      TestRestores(s, run[0], stats, next);
      TestsRestore(s, run[1..], first.stats, first.next);
      LogConcat(first.trace, rest.trace);
      ReplayConcat(Log(first.trace), Log(rest.trace), Chain([]));
    }
  }

  /** The replay of a suite run's log, from a working directory without
      the suite's directory, succeeds at every entry and removes every
      directory it made. */
  lemma SuiteRestores(s: Suite, run: seq<Method>)
    requires s.caps.Paired() && AllSetups(s.caps)
    ensures Replay(Log(RunSuite(s, run).trace), {}) == Some({})
  {
    var f := SuitePrologue(s);
    var t := if f.live then RunTests(s, run, map[], 1) else TestRun([], false, map[], 1);
    if f.live { TestsRestore(s, run, map[], 1); }
    SuiteLog(s, run);
    assert Chain([]) == {} + {[]};
    WrapRestores([], {}, Log(t.trace));
  }

  /** Well nesting alone does not pass the check: a sub-tree may open
      under a node that is not its parent. */
  lemma NestingIsNotContainment()
    ensures var log := [Open([]), Open(["B", "x"]), Close(["B", "x"]), Close([])];
      WellNested(log) && Replay(log, {}) == None
  {
  }

  /** Every completed run of such a suite passes the directory check:
      each mkdir finds its parent and no clash, each remove finds its
      directory empty, and the suite's directory is gone at the end. */
  lemma RunPassesDirectoryCheck(s: Suite, cfg: FilterConfig)
    requires s.caps.Paired() && AllSetups(s.caps)
    requires Run(s, cfg).Completed?
    ensures Replay(Log(Run(s, cfg).trace), {}) == Some({})
  {
    SuiteRestores(s, Selected(cfg, s.methods).value);
  }

  /** The tracker of suite/suite_test.go passes the check on every
      completed run of such a suite whose setups all return: then it logs
      exactly the hook-call log. */
  lemma TrackerPassesDirectoryCheck(s: Suite, cfg: FilterConfig)
    requires s.caps.Paired() && AllSetups(s.caps)
    requires Run(s, cfg).Completed?
    requires Absence.QuietSuite(SetupSuite, s) && Absence.QuietSuite(SetupTest, s) && Absence.QuietSuite(SetupSubTest, s)
    ensures TrackerLog(Run(s, cfg).trace) == Log(Run(s, cfg).trace)
    ensures Replay(TrackerLog(Run(s, cfg).trace), {}) == Some({})
  {
    var trace := Run(s, cfg).trace;
    Absence.AbsentCapability(s, SetupSuite, cfg);
    Absence.AbsentCapability(s, SetupTest, cfg);
    Absence.AbsentCapability(s, SetupSubTest, cfg);
    forall e | e in trace && e.Called? && Opening(e.hook)
      ensures e.outcome != Panics
    {
      assert Absence.Of(e, e.hook);
    }
    TrackerIsLog(trace);
    RunPassesDirectoryCheck(s, cfg);
  }

  /** A SetupTest that panics appends no `>test`, but its TearDownTest
      still appends `<test`: the tracker's replay then removes a directory
      that was never made, while the hook-call log stays paired. */
  lemma SetupTestPanicBreaksTracker(s: Suite, m: Method, stats: map<string, bool>, next: nat)
    requires s.caps.setupTest && s.caps.tearDownTest && m.setupTest == Panics
    ensures var r := RunTest(s, m, stats, next);
      && Log(r.trace) == [Open([m.name]), Close([m.name])]
      && TrackerLog(r.trace) == [Close([m.name])]
      && Replay(TrackerLog(r.trace), Chain([])) == None
  {
    Ordering.SetupTestPanics(s, m, stats, next);
    PanickedTestLogs([m.name], Started([m.name], NewNode(Handle(next), Global, Instance(next), Some(SuiteInstance))),
      s.caps.handleStats, m.tearDownTest);
  }

  /** The two logs of a test trace whose SetupTest panicked. */
  lemma PanickedTestLogs(node: Path, start: Event, stats: bool, o: Outcome)
    requires start.Started? && node != []
    ensures var t := [start] + Opt(stats, TestBegin(node)) + [Called(node, SetupTest, [], Panics)]
                     + [Called(node, TearDownTest, [], o)] + Opt(stats, TestEnd(node, false));
      && Log(t) == [Open(node), Close(node)]
      && TrackerLog(t) == [Close(node)]
      && Replay(TrackerLog(t), Chain(node[..|node| - 1])) == None
  {
    PanickedTestTracker(node, start, stats, o);
    PanickedTestLog(node, start, stats, o);
    assert node !in Chain(node[..|node| - 1]);
    assert Remove(node, Chain(node[..|node| - 1])) == None;
  }

  lemma PanickedTestTracker(node: Path, start: Event, stats: bool, o: Outcome)
    requires start.Started?
    ensures TrackerLog([start] + Opt(stats, TestBegin(node)) + [Called(node, SetupTest, [], Panics)]
                       + [Called(node, TearDownTest, [], o)] + Opt(stats, TestEnd(node, false))) == [Close(node)]
  {
    var a := [start];
    var b := Opt(stats, TestBegin(node));
    var c := [Called(node, SetupTest, [], Panics)];
    var d := [Called(node, TearDownTest, [], o)];
    var e := Opt(stats, TestEnd(node, false));
    TrackerConcat(a + b + c + d, e);
    TrackerConcat(a + b + c, d);
    TrackerConcat(a + b, c);
    TrackerConcat(a, b);
    TrackerOpt(true, a[0]);
    TrackerOpt(stats, TestBegin(node));
    TrackerOpt(true, c[0]);
    TrackerOpt(true, d[0]);
    TrackerOpt(stats, TestEnd(node, false));
  }

  lemma PanickedTestLog(node: Path, start: Event, stats: bool, o: Outcome)
    requires start.Started?
    ensures Log([start] + Opt(stats, TestBegin(node)) + [Called(node, SetupTest, [], Panics)]
                + [Called(node, TearDownTest, [], o)] + Opt(stats, TestEnd(node, false))) == [Open(node), Close(node)]
  {
    var a := [start];
    var b := Opt(stats, TestBegin(node));
    var c := [Called(node, SetupTest, [], Panics)];
    var d := [Called(node, TearDownTest, [], o)];
    var e := Opt(stats, TestEnd(node, false));
    LogConcat(a + b + c + d, e);
    LogConcat(a + b + c, d);
    LogConcat(a + b, c);
    LogConcat(a, b);
    LogOpt(true, a[0]);
    LogOpt(stats, TestBegin(node));
    LogOpt(true, c[0]);
    LogOpt(true, d[0]);
    LogOpt(stats, TestEnd(node, false));
  }
}
