/** The lifecycle scheduler of suite/suite.go: the top-level `Run`, the
    per-test function it hands to the engine, and `Suite.Run` for sub-tests.

    Every node runs a straight-line chain of steps. A step either registers a
    cleanup (`T.Cleanup`) on the node's LIFO stack or calls something. A
    panic (or FailNow) in a call ends the chain: the node's deferred
    `recoverAndFailOnPanic` marks it failed. The engine then pops the
    cleanup stack, but only after the node's function and all its
    sub-tests have finished; each popped cleanup runs in its own recovery
    wrapper, so one that panics does not stop the next. Sub-tests are run to
    completion where they are started, which keeps the one ordering the
    engine guarantees: children finish before the parent's cleanups. */
module Lifecycle {
  import opened Wrappers
  import opened Capabilities
  import opened Tree
  import opened Wiring
  import opened Selection

  /** A node's position: [] for the suite, [test] for a test method, and one
      more name per level of sub-test. */
  type Path = seq<string>

  /** What an observer of a run sees, in order. */
  datatype Event =
    | Started(node: Path, ctx: Context)                              // node function entered, struct wired
    | Called(node: Path, hook: Hook, args: seq<string>, outcome: Outcome)  // a capability invoked on the node
    | BodyRan(node: Path, outcome: Outcome)                          // test method or sub-test function
    | StatsBegin(node: Path)                                         // stats.Start recorded
    | TestBegin(node: Path)                                          // stats.start(test)
    | TestEnd(node: Path, passed: bool)                              // stats.end(test, passed)
    | StatsEnd(node: Path)                                           // stats.End recorded
  {
    /** The event reports a failure on its node. */
    predicate Faulty() {
      (Called? || BodyRan?) && outcome.Faults()
    }

    /** The event belongs to the suite node itself. */
    predicate SuiteEvent() {
      StatsBegin? || StatsEnd? || (Called? && SuiteLevel(hook))
    }
  }

  /** Some event of the trace reports a failure. */
  ghost predicate HasFault(trace: seq<Event>) {
    exists e :: e in trace && e.Faulty()
  }

  /** `[x]` when `b` holds, otherwise nothing. */
  function Opt<T>(b: bool, x: T): seq<T> {
    if b then [x] else []
  }

  /** A hook call lets its node's chain go on: the hook is absent or did
      not panic. */
  predicate Continues(present: bool, o: Outcome) {
    !(present && o == Panics)
  }

  /** A present hook call reports a failure. */
  predicate FaultsIf(present: bool, o: Outcome) {
    present && o.Faults()
  }

  /** An action registered with `T.Cleanup`. */
  datatype Cleanup =
    | Deferred(hook: Hook, args: seq<string>, outcome: Outcome)   // a recovery-wrapped after-hook
    | RecordEnd(test: string)                                     // stats.end(test, !Failed())
    | DeliverStats(args: seq<string>, outcome: Outcome)           // stats.End, then HandleStats

  /** A node's cleanup stack; the engine appends each registration and
      pops from the most recent one. */
  datatype Stack = Bottom | Push(below: Stack, top: Cleanup)

  /** `st` with `c` on top when `b` holds. */
  function PushIf(st: Stack, b: bool, c: Cleanup): Stack {
    if b then Push(st, c) else st
  }

  /** The state of one node's function: what it has emitted, its cleanup
      stack, whether the node is marked failed, and whether its chain is
      still running. */
  datatype Frame = Frame(trace: seq<Event>, stack: Stack, failed: bool, live: bool)

  /** The frame's failed flag says exactly whether some event it emitted
      reported a failure. */
  ghost predicate Truthful(f: Frame) {
    f.failed <==> HasFault(f.trace)
  }

  /** The frame a node's function starts in, once its struct is wired. */
  function Enter(node: Path, ctx: Context): (f: Frame)
    ensures f.trace == [Started(node, ctx)] && f.stack == Bottom && !f.failed && f.live
    ensures Truthful(f) && !HasFault(f.trace)
  {
    Frame([Started(node, ctx)], Bottom, false, true)
  }

  /** failOnPanic: a non-nil recovered value fails the node and, through
      FailNow, ends what is left of its function; a nil one changes nothing. */
  function FailOnPanic(f: Frame, recovered: bool): (r: Frame)
    ensures !recovered ==> r == f
    ensures recovered ==> r.failed && !r.live
    ensures r.trace == f.trace && r.stack == f.stack
    ensures r.failed == (f.failed || recovered)
    ensures Truthful(f) ==> (Truthful(r) <==> (!recovered || HasFault(f.trace)))
  {
    if recovered then f.(failed := true, live := false) else f
  }

  /** `if c, ok := any(suite).(C); ok { s.Cleanup(...) }` */
  function Register(f: Frame, present: bool, c: Cleanup): (r: Frame)
    ensures r.trace == f.trace && r.failed == f.failed && r.live == f.live
    ensures r.stack == PushIf(f.stack, f.live && present, c)
    ensures Truthful(r) <==> Truthful(f)
  {
    if f.live && present then f.(stack := Push(f.stack, c)) else f
  }

  /** A bookkeeping step that cannot fail (stats.Start, stats.start). */
  function Note(f: Frame, present: bool, e: Event): (r: Frame)
    ensures r.stack == f.stack && r.failed == f.failed && r.live == f.live
    ensures r.trace == if f.live && present then f.trace + [e] else f.trace
    ensures HasFault(r.trace) <==> HasFault(f.trace) || (f.live && present && e.Faulty())
    ensures !e.Faulty() ==> (Truthful(r) <==> Truthful(f))
  {
    if f.live && present then f.(trace := f.trace + [e]) else f
  }

  /** `if c, ok := any(suite).(C); ok { c.Hook(args...) }` under the node's
      deferred recovery. */
  function Invoke(f: Frame, present: bool, node: Path, h: Hook, args: seq<string>, o: Outcome): (r: Frame)
    ensures r.stack == f.stack
    ensures !(f.live && present) ==> r == f
    ensures f.live && present ==>
      r.trace == f.trace + [Called(node, h, args, o)] && r.failed == (f.failed || o.Faults()) && r.live == (o != Panics)
    ensures Truthful(f) ==> Truthful(r)
  {
    assert Called(node, h, args, o) in f.trace + [Called(node, h, args, o)];
    if f.live && present then
      FailOnPanic(Frame(f.trace + [Called(node, h, args, o)], f.stack, f.failed || o == Fails, true), o == Panics)
    else f
  }

  /** The result of popping a node's cleanup stack. */
  datatype Unwound = Unwound(trace: seq<Event>, failed: bool, stats: map<string, bool>)

  /** One cleanup firing on `node` in its own recovery wrapper: a deferred
      hook call, the end of a test's statistics with its pass/fail state at
      that moment, or the suite's statistics handler. */
  function Fire(node: Path, c: Cleanup, failed: bool, stats: map<string, bool>): (u: Unwound)
    ensures u.failed <==> failed || HasFault(u.trace)
  {
    match c
    case Deferred(h, args, o) =>
      var e := Called(node, h, args, o);
      assert e in [e];
      Unwound([e], failed || o.Faults(), stats)
    case RecordEnd(test) =>
      Unwound([TestEnd(node, !failed)], failed, stats[test := !failed])
    case DeliverStats(args, o) =>
      var e := Called(node, HandleStats, args, o);
      assert e in [StatsEnd(node), e];
      Unwound([StatsEnd(node), e], failed || o.Faults(), stats)
  }

  /** The engine pops the cleanup stack from the top. Every cleanup fires,
      whatever the ones before it did; `stats` is the suite's shared
      statistics record. */
  function Unwind(node: Path, stack: Stack, failed: bool, stats: map<string, bool>): (u: Unwound)
    ensures u.failed <==> failed || HasFault(u.trace)
  {
    match stack
    case Bottom => Unwound([], failed, stats)
    case Push(below, c) =>
      var top := Fire(node, c, failed, stats);
      var u := Unwind(node, below, top.failed, top.stats);
      Unwound(top.trace + u.trace, u.failed, u.stats)
  }

  /** A sub-test, a list of sibling sub-tests, or a test, after it ran. */
  datatype NodeRun = NodeRun(trace: seq<Event>, failed: bool, next: nat)

  /** A frame after a body ran, and the next free instance identity. */
  datatype BodyRun = BodyRun(frame: Frame, next: nat)

  /** `Suite.Run(name, fn)` called from the node `parent` whose instance is
      `caller`: a fresh struct and instance sharing the global data `g`,
      TearDownSubTest registered before SetupSubTest runs, then `fn`. */
  function RunSubTest(caps: Caps, g: GlobalRef, caller: Instance, parent: Path, st: SubTest, next: nat): (r: NodeRun)
    ensures r.next > next
    ensures r.failed <==> HasFault(r.trace)
    decreases st, 2
  {
    var node := parent + [st.name];
    var f := SubTestPrologue(caps, g, caller, node, st, next);
    var b := RunBody(caps, g, Instance(next), node, st.body, f, next + 1);
    var u := Unwind(node, b.frame.stack, b.frame.failed, map[]);
    NodeRun(b.frame.trace + u.trace, u.failed, b.next)
  }

  /** The straight-line part of a sub-test before `fn`: TearDownSubTest is
      registered before SetupSubTest runs, so it is on the stack whatever
      SetupSubTest does. */
  function SubTestPrologue(caps: Caps, g: GlobalRef, caller: Instance, node: Path, st: SubTest, next: nat): (f: Frame)
    ensures f.trace == [Started(node, NewNode(Handle(next), g, Instance(next), Some(caller)))]
                       + Opt(caps.setupSubTest, Called(node, SetupSubTest, [], st.setup))
    ensures f.stack == PushIf(Bottom, caps.tearDownSubTest, Deferred(TearDownSubTest, [], st.tearDown))
    ensures f.live == Continues(caps.setupSubTest, st.setup)
    ensures f.failed == FaultsIf(caps.setupSubTest, st.setup)
    ensures f.failed <==> HasFault(f.trace)
  {
    var f0 := Enter(node, NewNode(Handle(next), g, Instance(next), Some(caller)));
    var f1 := Register(f0, caps.tearDownSubTest, Deferred(TearDownSubTest, [], st.tearDown));
    Invoke(f1, caps.setupSubTest, node, SetupSubTest, [], st.setup)
  }

  /** The test method or sub-test function of node `node` (instance `self`),
      if its chain is still running: the sub-tests it starts run to
      completion, and a failing sub-test marks this node failed too. */
  function RunBody(caps: Caps, g: GlobalRef, self: Instance, node: Path, body: Body, f: Frame, next: nat): (r: BodyRun)
    ensures r.next >= next
    ensures r.frame.stack == f.stack
    ensures f.trace <= r.frame.trace
    ensures (f.failed <==> HasFault(f.trace)) ==> (r.frame.failed <==> HasFault(r.frame.trace))
    decreases body, 1
  {
    if !f.live then BodyRun(f, next)
    else
      var kids := RunSubTests(caps, g, self, node, body.subTests, next);
      var f' := Frame(f.trace + [BodyRan(node, body.ends)] + kids.trace, f.stack,
                      f.failed || kids.failed || body.ends == Fails, true);
      assert BodyRan(node, body.ends) in f'.trace;
      BodyRun(FailOnPanic(f', body.ends == Panics), kids.next)
  }

  /** Sibling sub-tests, started one after another. */
  function RunSubTests(caps: Caps, g: GlobalRef, caller: Instance, parent: Path, subs: seq<SubTest>, next: nat): (r: NodeRun)
    ensures r.next >= next
    ensures r.failed <==> HasFault(r.trace)
    decreases subs, 0
  {
    if subs == [] then NodeRun([], false, next)
    else
      var first := RunSubTest(caps, g, caller, parent, subs[0], next);
      var rest := RunSubTests(caps, g, caller, parent, subs[1..], first.next);
      NodeRun(first.trace + rest.trace, first.failed || rest.failed, rest.next)
  }

  /** A test and the statistics record after it. */
  datatype TestRun = TestRun(trace: seq<Event>, failed: bool, stats: map<string, bool>, next: nat)

  /** The instance and global data the suite node is wired with. */
  const SuiteInstance: Instance := Instance(0)
  const Global: GlobalRef := GlobalRef(0)

  /** The function `Run` hands to the engine for one selected method. */
  function RunTest(s: Suite, m: Method, stats: map<string, bool>, next: nat): (r: TestRun)
    ensures r.next > next
    ensures r.failed <==> HasFault(r.trace)
  {
    var node := [m.name];
    var f := TestPrologue(s, m, next);
    var b := RunBody(s.caps, Global, Instance(next), node, m.body, f, next + 1);
    var u := Unwind(node, b.frame.stack, b.frame.failed, stats);
    TestRun(b.frame.trace + u.trace, u.failed, u.stats, b.next)
  }

  /** The straight-line part of a test before its method: the stats cleanup
      is registered first, so it fires last; TearDownTest is registered
      before SetupTest runs, AfterTest only after SetupTest returned. */
  function TestPrologue(s: Suite, m: Method, next: nat): (f: Frame)
    ensures var node := [m.name];
      var setupOk := Continues(s.caps.setupTest, m.setupTest);
      && f.trace == [Started(node, NewNode(Handle(next), Global, Instance(next), Some(SuiteInstance)))]
                    + Opt(s.caps.handleStats, TestBegin(node))
                    + Opt(s.caps.setupTest, Called(node, SetupTest, [], m.setupTest))
                    + Opt(setupOk && s.caps.beforeTest, Called(node, BeforeTest, [s.name, m.name], m.beforeTest))
      && f.stack == PushIf(PushIf(PushIf(Bottom,
                      s.caps.handleStats, RecordEnd(m.name)),
                      s.caps.tearDownTest, Deferred(TearDownTest, [], m.tearDownTest)),
                      setupOk && s.caps.afterTest, Deferred(AfterTest, [s.name, m.name], m.afterTest))
      && f.live == (setupOk && Continues(s.caps.beforeTest, m.beforeTest))
      && f.failed == (FaultsIf(s.caps.setupTest, m.setupTest) || (setupOk && FaultsIf(s.caps.beforeTest, m.beforeTest)))
    ensures f.failed <==> HasFault(f.trace)
  {
    var node := [m.name];
    var withStats := s.caps.handleStats;
    var f0 := Enter(node, NewNode(Handle(next), Global, Instance(next), Some(SuiteInstance)));
    var f1 := Register(f0, withStats, RecordEnd(m.name));
    var f2 := Note(f1, withStats, TestBegin(node));
    var f3 := Register(f2, s.caps.tearDownTest, Deferred(TearDownTest, [], m.tearDownTest));
    var f4 := Invoke(f3, s.caps.setupTest, node, SetupTest, [], m.setupTest);
    var f5 := Register(f4, s.caps.afterTest, Deferred(AfterTest, [s.name, m.name], m.afterTest));
    Invoke(f5, s.caps.beforeTest, node, BeforeTest, [s.name, m.name], m.beforeTest)
  }

  /** The selected tests, run one after another as children of the suite node. */
  function RunTests(s: Suite, run: seq<Method>, stats: map<string, bool>, next: nat): (r: TestRun)
    ensures r.next >= next
    ensures r.failed <==> HasFault(r.trace)
  {
    if run == [] then TestRun([], false, stats, next)
    else
      var first := RunTest(s, run[0], stats, next);
      var rest := RunTests(s, run[1..], first.stats, first.next);
      TestRun(first.trace + rest.trace, first.failed || rest.failed, rest.stats, rest.next)
  }

  /** How a call of `Run` ends. */
  datatype Report =
    | InvalidFilter(err: string)                                     // "testify: invalid regexp", exit status 1
    | NothingToRun                                                   // "warning: no tests to run"
    | Completed(trace: seq<Event>, failed: bool, stats: map<string, bool>)

  /** The suite node for a non-empty run set: its prologue, then the tests
      unless SetupSuite panicked, then its cleanups. */
  function RunSuite(s: Suite, run: seq<Method>): (r: Report)
    ensures r.Completed? && (r.failed <==> HasFault(r.trace))
  {
    var f := SuitePrologue(s);
    var t := if f.live then RunTests(s, run, map[], 1) else TestRun([], false, map[], 1);
    var u := Unwind([], f.stack, f.failed || t.failed, t.stats);
    Completed(f.trace + t.trace + u.trace, u.failed, u.stats)
  }

  /** The straight-line part of the suite node: the stats cleanup is
      registered first, so it fires last; TearDownSuite is registered before
      SetupSuite runs, so it fires whatever SetupSuite does. */
  function SuitePrologue(s: Suite): (f: Frame)
    ensures f.trace == [Started([], NewNode(Handle(0), Global, SuiteInstance, None))]
                       + Opt(s.caps.handleStats, StatsBegin([]))
                       + Opt(s.caps.setupSuite, Called([], SetupSuite, [], s.setupSuite))
    ensures f.stack == PushIf(PushIf(Bottom,
                         s.caps.handleStats, DeliverStats([s.name], s.handleStats)),
                         s.caps.tearDownSuite, Deferred(TearDownSuite, [], s.tearDownSuite))
    ensures f.live == Continues(s.caps.setupSuite, s.setupSuite)
    ensures f.failed == FaultsIf(s.caps.setupSuite, s.setupSuite)
    ensures f.failed <==> HasFault(f.trace)
  {
    var withStats := s.caps.handleStats;
    var f0 := Enter([], NewNode(Handle(0), Global, SuiteInstance, None));
    var f1 := Register(f0, withStats, DeliverStats([s.name], s.handleStats));
    var f2 := Note(f1, withStats, StatsBegin([]));
    var f3 := Register(f2, s.caps.tearDownSuite, Deferred(TearDownSuite, [], s.tearDownSuite));
    Invoke(f3, s.caps.setupSuite, [], SetupSuite, [], s.setupSuite)
  }

  /** `suite.Run[T, G](t)`: select the run set, stop on a bad pattern or an
      empty run set, otherwise run the suite node. */
  function Run(s: Suite, cfg: FilterConfig): (r: Report)
    ensures r.InvalidFilter? <==> Selected(cfg, s.methods).Failure?
    ensures r.InvalidFilter? ==> r.err == Selected(cfg, s.methods).error
    ensures r.NothingToRun? <==> Selected(cfg, s.methods) == Success([])
    ensures r.Completed? ==> (r.failed <==> HasFault(r.trace))
  {
    match Selected(cfg, s.methods)
    case Failure(e) => InvalidFilter(e)
    case Success(run) => if run == [] then NothingToRun else RunSuite(s, run)
  }
}
