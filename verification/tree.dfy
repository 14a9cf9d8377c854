/** What a suite run is given: the suite's name, the capabilities it
    implements, and its methods in declaration order. Each method and each
    sub-test carries, for every hook that can run on its node, how that hook
    call ends. This replaces both reflection over the suite type and the
    arbitrary Go code inside hooks and bodies. */
module Tree {
  import opened Capabilities

  /** How one call of a hook or body ends.
      Returns: normally. Fails: it reports a failure on its node (t.Error)
      and returns. Panics: it panics or calls FailNow, which unwinds the
      rest of the node's function. */
  datatype Outcome = Returns | Fails | Panics {
    /** The call leaves its node marked failed. */
    predicate Faults() {
      this != Returns
    }
  }

  /** A test method or sub-test function: the sub-tests it starts with
      `Suite.Run`, in call order, and how it ends after starting them. */
  datatype Body = Body(subTests: seq<SubTest>, ends: Outcome)

  /** One `Suite.Run(name, fn)` call: outcomes of SetupSubTest and
      TearDownSubTest on the new node, and what `fn` does. */
  datatype SubTest = SubTest(name: string, setup: Outcome, body: Body, tearDown: Outcome)

  /** One method of the suite type, with the outcomes of the per-test hooks
      on the node created for it (used only if the method is selected). */
  datatype Method = Method(
    name: string,
    setupTest: Outcome,
    beforeTest: Outcome,
    body: Body,
    afterTest: Outcome,
    tearDownTest: Outcome)

  /** A suite definition: its type name, capabilities, the outcomes of its
      suite-level hooks, and its methods in the order they are enumerated. */
  datatype Suite = Suite(
    name: string,
    caps: Caps,
    setupSuite: Outcome,
    tearDownSuite: Outcome,
    handleStats: Outcome,
    methods: seq<Method>)
}
