/** Well-nested bracket sequences over labels: every Close matches the most
    recent unmatched Open with the same label, and nothing is left open. */
module Brackets {
  import opened Wrappers

  datatype Bracket<L> = Open(tag: L) | Close(tag: L)

  /** Reads `s` left to right with `stack` holding the unmatched labels (top
      at the end); None once a Close does not match. */
  function Scan<L(==)>(s: seq<Bracket<L>>, stack: seq<L>): Option<seq<L>>
    decreases |s|
  {
    if s == [] then Some(stack)
    else match s[0]
      case Open(x) => Scan(s[1..], stack + [x])
      case Close(x) =>
        if stack != [] && stack[|stack| - 1] == x then Scan(s[1..], stack[..|stack| - 1])
        else None
  }

  predicate WellNested<L(==)>(s: seq<Bracket<L>>) {
    Scan(s, []) == Some([])
  }

  /** Scanning a concatenation scans the parts in turn. */
  lemma {:induction false} ScanConcat<L>(a: seq<Bracket<L>>, b: seq<Bracket<L>>, stack: seq<L>)
    ensures Scan(a + b, stack) == match Scan(a, stack) case None => None case Some(st) => Scan(b, st)
    decreases |a|
  {
    if a == [] {
      assert a + b == b;
    } else {
      assert (a + b)[0] == a[0] && (a + b)[1..] == a[1..] + b;
      match a[0]
      case Open(x) => ScanConcat(a[1..], b, stack + [x]);
      case Close(x) =>
        if stack != [] && stack[|stack| - 1] == x {
          ScanConcat(a[1..], b, stack[..|stack| - 1]);
        }
    }
  }

  /** What lies below the labels a scan touches does not matter. */
  lemma {:induction false} ScanShift<L>(s: seq<Bracket<L>>, below: seq<L>, stack: seq<L>, out: seq<L>)
    requires Scan(s, stack) == Some(out)
    ensures Scan(s, below + stack) == Some(below + out)
    decreases |s|
  {
    if s != [] {
      match s[0]
      case Open(x) =>
        assert (below + stack) + [x] == below + (stack + [x]);
        ScanShift(s[1..], below, stack + [x], out);
      case Close(x) =>
        assert (below + stack)[..|below + stack| - 1] == below + stack[..|stack| - 1];
        ScanShift(s[1..], below, stack[..|stack| - 1], out);
    }
  }

  /** Two well-nested sequences in a row are well nested. */
  lemma NestedConcat<L>(a: seq<Bracket<L>>, b: seq<Bracket<L>>)
    requires WellNested(a) && WellNested(b)
    ensures WellNested(a + b)
  {
    ScanConcat(a, b, []);
  }

  /** A well-nested sequence between a matching pair is well nested. */
  lemma NestedWrap<L>(x: L, s: seq<Bracket<L>>)
    requires WellNested(s)
    ensures WellNested([Open(x)] + s + [Close(x)])
  {
    var w := [Open(x)] + s + [Close(x)];
    ScanShift(s, [x], [], []);
    assert [x] + [] == [x];
    assert w[0] == Open(x) && w[1..] == s + [Close(x)];
    assert Scan(w, []) == Scan(s + [Close(x)], [x]);
    ScanConcat(s, [Close(x)], [x]);
    assert Scan([Close(x)], [x]) == Scan([], []);
  }

  /** A well-nested sequence opens and closes equally often. */
  function Opens<L>(s: seq<Bracket<L>>): nat {
    if s == [] then 0 else (if s[0].Open? then 1 else 0) + Opens(s[1..])
  }

  lemma {:induction false} ScanBalance<L>(s: seq<Bracket<L>>, stack: seq<L>, out: seq<L>)
    requires Scan(s, stack) == Some(out)
    ensures 2 * Opens(s) + |stack| == |s| + |out|
    decreases |s|
  {
    if s != [] {
      match s[0]
      case Open(x) => ScanBalance(s[1..], stack + [x], out);
      case Close(x) => ScanBalance(s[1..], stack[..|stack| - 1], out);
    }
  }

  lemma NestedIsBalanced<L>(s: seq<Bracket<L>>)
    requires WellNested(s)
    ensures |s| == 2 * Opens(s)
  {
    ScanBalance(s, [], []);
  }

  lemma {:induction false} OpensConcat<L>(a: seq<Bracket<L>>, b: seq<Bracket<L>>)
    ensures Opens(a + b) == Opens(a) + Opens(b)
    decreases |a|
  {
    if a == [] {
      assert a + b == b;
    } else {
      assert (a + b)[0] == a[0] && (a + b)[1..] == a[1..] + b;
      OpensConcat(a[1..], b);
    }
  }
}
