/** A context node (the `Suite[T, G]` struct of suite/suite.go): the engine
    handle, the shared global data, the node's own private suite instance and
    the instance of the node that created it. Pointers are modelled as
    identities; a nil pointer is `None`. */
module Wiring {
  import opened Wrappers

  /** The engine's per-node handle (`*testing.T`). */
  datatype Handle = Handle(id: nat)
  /** A pointer to the suite's global data (`*G`). */
  datatype GlobalRef = GlobalRef(id: nat)
  /** A pointer to a private suite instance (`*T`). */
  datatype Instance = Instance(id: nat)

  datatype Context = Context(
    t: Option<Handle>,
    g: Option<GlobalRef>,
    suite: Option<Instance>,
    parent: Option<Instance>)
  {
    /** The zero value `&Suite[T, G]{}`: nothing set. */
    predicate Fresh() {
      t.None? && g.None? && suite.None? && parent.None?
    }
  }

  const Zero: Context := Context(None, None, None, None)

  /** The message of a set-once guard's panic. */
  type Panic = string

  /** setT: refuses to overwrite an engine handle that is already set. */
  function SetT(c: Context, h: Handle): (r: Result<Context, Panic>)
    ensures r.Success? <==> c.t.None?
    ensures r.Success? ==> r.value.t == Some(h) && r.value.(t := c.t) == c
  {
    if c.t.Some? then Failure("Suite.testingT already set, can't overwrite")
    else Success(c.(t := Some(h)))
  }

  /** setG: refuses to overwrite the global data pointer. */
  function SetG(c: Context, g: GlobalRef): (r: Result<Context, Panic>)
    ensures r.Success? <==> c.g.None?
    ensures r.Success? ==> r.value.g == Some(g) && r.value.(g := c.g) == c
  {
    if c.g.Some? then Failure("Suite.g already set, can't overwrite")
    else Success(c.(g := Some(g)))
  }

  /** setS: refuses to overwrite the node's own instance. */
  function SetS(c: Context, s: Instance): (r: Result<Context, Panic>)
    ensures r.Success? <==> c.suite.None?
    ensures r.Success? ==> r.value.suite == Some(s) && r.value.(suite := c.suite) == c
  {
    if c.suite.Some? then Failure("Suite.suite already set, can't overwrite")
    else Success(c.(suite := Some(s)))
  }

  /** setP: fails only when a parent is already recorded; setting a nil
      parent on a node without one is allowed (the suite node does this). */
  function SetP(c: Context, p: Option<Instance>): (r: Result<Context, Panic>)
    ensures r.Success? <==> c.parent.None?
    ensures r.Success? ==> r.value.parent == p && r.value.(parent := c.parent) == c
  {
    if c.parent.Some? then Failure("Suite.parent already set, can't overwrite")
    else Success(c.(parent := p))
  }

  /** The assertion objects setT builds on T: `assert.New(T)` records a
      failure and lets the node go on, `require.New(T)` also stops it. */
  datatype Checker = Asserting(t: Handle) | Requiring(t: Handle)

  /** Require: the require-assertions object exists only once T is set,
      and it is the stopping kind, bound to that T. */
  function Require(c: Context): (r: Result<Checker, Panic>)
    ensures r.Success? <==> c.t.Some?
    ensures r.Success? ==> r.value.Requiring? && Some(r.value.t) == c.t
  {
    if c.t.None? then Failure("Suite.testingT not set, can't get Require object")
    else Success(Requiring(c.t.value))
  }

  /** Assert: the assert-assertions object exists only once T is set, and
      it is the continuing kind, bound to that T. */
  function Assert(c: Context): (r: Result<Checker, Panic>)
    ensures r.Success? <==> c.t.Some?
    ensures r.Success? ==> r.value.Asserting? && Some(r.value.t) == c.t
  {
    if c.t.None? then Failure("Suite.testingT not set, can't get Assert object")
    else Success(Asserting(c.t.value))
  }

  /** The four set calls every node performs in order on its new struct:
      setT, setG, setS, setP. */
  function Wire(c: Context, h: Handle, g: GlobalRef, s: Instance, p: Option<Instance>): (r: Result<Context, Panic>)
    ensures r.Success? <==> c.Fresh()
    ensures r.Success? ==> r.value == Context(Some(h), Some(g), Some(s), p)
  {
    var c1 :- SetT(c, h);
    var c2 :- SetG(c1, g);
    var c3 :- SetS(c2, s);
    SetP(c3, p)
  }

  /** A node built from the zero struct: wiring cannot fail. */
  function NewNode(h: Handle, g: GlobalRef, s: Instance, p: Option<Instance>): (c: Context)
    ensures Wire(Zero, h, g, s, p) == Success(c)
  {
    Wire(Zero, h, g, s, p).value
  }

  /** Each guard is set-once: after a successful set that stores a
      non-nil value, a second set panics, whatever value it tries to store.
      The parent guard only checks for a non-nil parent, so a nil parent
      may still be overwritten. */
  lemma SetOnce(c: Context, h: Handle, h': Handle, g: GlobalRef, g': GlobalRef,
                s: Instance, s': Instance, p: Instance, p': Option<Instance>)
    ensures SetT(c, h).Success? ==> SetT(SetT(c, h).value, h').Failure?
    ensures SetG(c, g).Success? ==> SetG(SetG(c, g).value, g').Failure?
    ensures SetS(c, s).Success? ==> SetS(SetS(c, s).value, s').Failure?
    ensures SetP(c, Some(p)).Success? ==> SetP(SetP(c, Some(p)).value, p').Failure?
    ensures SetP(c, None).Success? ==> SetP(SetP(c, None).value, p').Success?
  {
  }

  /** Once wired, a node can hand out its require and assert objects, and a
      second wiring of the same struct panics. */
  lemma WiredNodeIsUsable(h: Handle, g: GlobalRef, s: Instance, p: Option<Instance>)
    ensures Require(NewNode(h, g, s, p)) == Success(Requiring(h))
    ensures Assert(NewNode(h, g, s, p)) == Success(Asserting(h))
    ensures Wire(NewNode(h, g, s, p), h, g, s, p).Failure?
  {
  }
}
