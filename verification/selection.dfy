/** Run-set selection: `methodFilter` and the loop in `Run` that applies it
    to every method of the suite (suite/suite.go). The regular-expression
    engine is abstract: `compile` turns a pattern into a matcher or an error. */
module Selection {
  import opened Wrappers
  import opened Tree

  datatype Regex = Invalid(err: string) | Valid(matches: string -> bool)

  /** The `testify.m` include pattern and the `testify.x` exclude pattern;
      the empty string means the flag is unset. */
  datatype FilterConfig = FilterConfig(includePattern: string, excludePattern: string, compile: string -> Regex)

  /** `regexp.MatchString("^Test", name)`. */
  predicate IsTestName(name: string) {
    "Test" <= name
  }

  /** `regexp.MatchString(pattern, name)`. */
  function MatchString(compile: string -> Regex, pattern: string, name: string): (r: Result<bool, string>)
    ensures r.Failure? <==> compile(pattern).Invalid?
  {
    match compile(pattern)
    case Invalid(e) => Failure(e)
    case Valid(m) => Success(m(name))
  }

  /** Decides whether one method name is in the run set. */
  function MethodFilter(cfg: FilterConfig, name: string): (r: Result<bool, string>)
    ensures r == Success(true) ==> IsTestName(name)
    ensures !IsTestName(name) ==> r == Success(false)
    ensures r.Failure? ==> cfg.compile(cfg.includePattern).Invalid? || cfg.compile(cfg.excludePattern).Invalid?
  {
    if !IsTestName(name) then Success(false)
    else if cfg.includePattern != "" then MatchString(cfg.compile, cfg.includePattern, name)
    else if cfg.excludePattern != "" then
      match MatchString(cfg.compile, cfg.excludePattern, name)
      case Failure(e) => Failure(e)
      case Success(m) => Success(!m)
    else Success(true)
  }

  /** A non-empty include pattern alone decides: the exclude pattern is never
      consulted, whatever it is. */
  lemma IncludeIgnoresExclude(cfg: FilterConfig, exclude: string, name: string)
    requires cfg.includePattern != ""
    ensures MethodFilter(cfg.(excludePattern := exclude), name) == MethodFilter(cfg, name)
    ensures IsTestName(name) ==> MethodFilter(cfg, name) == MatchString(cfg.compile, cfg.includePattern, name)
  {
  }

  /** Without an include pattern, a non-empty exclude pattern drops exactly the
      test names it matches; one that does not compile is an error for every
      test name. */
  lemma ExcludeDropsMatches(cfg: FilterConfig, name: string)
    requires cfg.includePattern == "" && cfg.excludePattern != ""
    ensures cfg.compile(cfg.excludePattern).Valid? ==>
      MethodFilter(cfg, name) == Success(IsTestName(name) && !cfg.compile(cfg.excludePattern).matches(name))
    ensures cfg.compile(cfg.excludePattern).Invalid? ==>
      MethodFilter(cfg, name) == if IsTestName(name) then Failure(cfg.compile(cfg.excludePattern).err) else Success(false)
  {
  }

  /** With neither pattern set, exactly the names starting with "Test" are kept
      and no pattern is ever compiled, so no error is possible. */
  lemma NoPatternsKeepsTestNames(cfg: FilterConfig, name: string)
    requires cfg.includePattern == "" && cfg.excludePattern == ""
    ensures MethodFilter(cfg, name) == Success(IsTestName(name))
  {
  }

  /** `a` is `b` with some elements dropped, in the same order. */
  predicate IsSubsequence<T(==)>(a: seq<T>, b: seq<T>)
    decreases |b|
  {
    if a == [] then true
    else if b == [] then false
    else (a[0] == b[0] && IsSubsequence(a[1..], b[1..])) || IsSubsequence(a, b[1..])
  }

  /** The run set: the methods the filter accepts, in declaration order, or
      the first filter error. */
  function Selected(cfg: FilterConfig, ms: seq<Method>): (r: Result<seq<Method>, string>)
    ensures r.Success? <==> forall i :: 0 <= i < |ms| ==> MethodFilter(cfg, ms[i].name).Success?
    ensures r.Failure? ==>
      exists i :: 0 <= i < |ms| && MethodFilter(cfg, ms[i].name) == Failure(r.error)
        && forall j :: 0 <= j < i ==> MethodFilter(cfg, ms[j].name).Success?
    ensures r.Success? ==> IsSubsequence(r.value, ms)
    ensures r.Success? ==> forall m :: m in r.value <==> m in ms && MethodFilter(cfg, m.name) == Success(true)
  {
    if ms == [] then Success([])
    else
      match MethodFilter(cfg, ms[0].name)
      case Failure(e) => Failure(e)
      case Success(keep) =>
        match Selected(cfg, ms[1..])
        case Failure(e) => Failure(e)
        case Success(rest) => Success(if keep then [ms[0]] + rest else rest)
  }

  /** Selection keeps every copy of an accepted method and no copy of a
      rejected one. */
  lemma {:induction false} SelectedCounts(cfg: FilterConfig, ms: seq<Method>)
    requires Selected(cfg, ms).Success?
    ensures forall m ::
      multiset(Selected(cfg, ms).value)[m] == if MethodFilter(cfg, m.name) == Success(true) then multiset(ms)[m] else 0
  {
    if ms != [] {
      SelectedCounts(cfg, ms[1..]);
      assert ms == [ms[0]] + ms[1..];
    }
  }

  /** Prefixes an already accepted list to a selection result. */
  function Prepend(acc: seq<Method>, r: Result<seq<Method>, string>): Result<seq<Method>, string> {
    match r
    case Failure(e) => Failure(e)
    case Success(rest) => Success(acc + rest)
  }

  lemma PrependPrepend(a: seq<Method>, b: seq<Method>, r: Result<seq<Method>, string>)
    ensures Prepend(a, Prepend(b, r)) == Prepend(a + b, r)
  {
    if r.Success? {
      assert a + (b + r.value) == (a + b) + r.value;
    }
  }

  lemma PrependNothing(r: Result<seq<Method>, string>)
    ensures Prepend([], r) == r
  {
    if r.Success? {
      assert [] + r.value == r.value;
    }
  }

  /** One step of selection over the suffix starting at `i`. */
  lemma SelectedStep(cfg: FilterConfig, ms: seq<Method>, i: nat)
    requires i < |ms|
    ensures MethodFilter(cfg, ms[i].name).Failure? ==>
      Selected(cfg, ms[i..]) == Failure(MethodFilter(cfg, ms[i].name).error)
    ensures MethodFilter(cfg, ms[i].name).Success? ==>
      Selected(cfg, ms[i..]) ==
        Prepend(if MethodFilter(cfg, ms[i].name).value then [ms[i]] else [], Selected(cfg, ms[i + 1..]))
  {
    var suffix := ms[i..];
    assert suffix[0] == ms[i] && suffix[1..] == ms[i + 1..];
    match Selected(cfg, ms[i + 1..]) {
      case Failure(_) =>
      case Success(rest) => assert [] + rest == rest;
    }
  }

  /** The loop over the suite's methods: each is filtered in order, the
      accepted ones are appended, and the first filter error ends selection
      (the Go code exits the process there). */
  method SelectMethods(cfg: FilterConfig, ms: seq<Method>) returns (r: Result<seq<Method>, string>)
    ensures r == Selected(cfg, ms)
    ensures r.Success? ==> IsSubsequence(r.value, ms)
  {
    var methods: seq<Method> := [];
    var i := 0;
    assert ms[i..] == ms;
    PrependNothing(Selected(cfg, ms));
    while i < |ms|
      invariant 0 <= i <= |ms|
      invariant Selected(cfg, ms) == Prepend(methods, Selected(cfg, ms[i..]))
    {
      SelectedStep(cfg, ms, i);
      match MethodFilter(cfg, ms[i].name)
      case Failure(e) =>
        return Failure(e);
      case Success(ok) =>
        var kept := if ok then [ms[i]] else [];
        PrependPrepend(methods, kept, Selected(cfg, ms[i + 1..]));
        methods := methods + kept;
      i := i + 1;
    }
    assert ms[i..] == [];
    assert methods + [] == methods;
    r := Success(methods);
  }
}
