/** The nine optional lifecycle capabilities a suite may implement
    (suite/interfaces.go). Go detects each one by a type assertion on the
    suite instance; here a suite carries a record saying which it has. */
module Capabilities {

  /** One lifecycle capability. */
  datatype Hook =
    | SetupSuite       // SetupAllSuite
    | TearDownSuite    // TearDownAllSuite
    | SetupTest        // SetupTestSuite
    | TearDownTest     // TearDownTestSuite
    | BeforeTest
    | AfterTest
    | HandleStats      // WithStats
    | SetupSubTest
    | TearDownSubTest

  /** Hooks that act on the suite node itself rather than on a test or sub-test. */
  predicate SuiteLevel(h: Hook) {
    h == SetupSuite || h == TearDownSuite || h == HandleStats
  }

  /** Which capabilities the suite implements. */
  datatype Caps = Caps(
    setupSuite: bool,
    tearDownSuite: bool,
    setupTest: bool,
    tearDownTest: bool,
    beforeTest: bool,
    afterTest: bool,
    handleStats: bool,
    setupSubTest: bool,
    tearDownSubTest: bool)
  {
    /** The type assertion `any(suite).(H)` succeeds. */
    predicate Has(h: Hook) {
      match h
      case SetupSuite => setupSuite
      case TearDownSuite => tearDownSuite
      case SetupTest => setupTest
      case TearDownTest => tearDownTest
      case BeforeTest => beforeTest
      case AfterTest => afterTest
      case HandleStats => handleStats
      case SetupSubTest => setupSubTest
      case TearDownSubTest => tearDownSubTest
    }

    /** Every level that has a setup also has the matching teardown and vice versa. */
    predicate Paired() {
      setupSuite == tearDownSuite && setupTest == tearDownTest && setupSubTest == tearDownSubTest
    }
  }
}
