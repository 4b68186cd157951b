/** Tuples of numbers, and byte strings, in the order Python gives them. */
module Orders {

  /** Where they first differ the one is smaller, or it ends there. */
  predicate Lower(a: seq<int>, b: seq<int>) {
    exists k :: 0 <= k <= |a| && k < |b| && a[..k] == b[..k] && (k == |a| || a[k] < b[k])
  }

  lemma LowerWithout(a: seq<int>, b: seq<int>)
    requires a != [] && b != [] && a[0] == b[0] && Lower(a, b)
    ensures Lower(a[1..], b[1..])
  {
    var k :| 0 <= k <= |a| && k < |b| && a[..k] == b[..k] && (k == |a| || a[k] < b[k]);
    assert a[1..][..k - 1] == a[..k][1..] && b[1..][..k - 1] == b[..k][1..];
  }

  lemma LowerWith(a: seq<int>, b: seq<int>)
    requires a != [] && b != [] && a[0] == b[0] && Lower(a[1..], b[1..])
    ensures Lower(a, b)
  {
    var x, y := a[1..], b[1..];
    var k :| 0 <= k <= |x| && k < |y| && x[..k] == y[..k] && (k == |x| || x[k] < y[k]);
    assert a[..k + 1] == [a[0]] + x[..k] && b[..k + 1] == [b[0]] + y[..k];
  }

  /** The first components decide, and where they are equal the rest does. */
  lemma LowerUnfolds(a: seq<int>, b: seq<int>)
    ensures Lower(a, b) <==>
      b != [] && (a == [] || a[0] < b[0] || (a[0] == b[0] && Lower(a[1..], b[1..])))
  {
    if b != [] && a == [] { assert a[..0] == b[..0]; }
    if b != [] && a != [] {
      if a[0] == b[0] && Lower(a, b) { LowerWithout(a, b); }
      if a[0] == b[0] && Lower(a[1..], b[1..]) { LowerWith(a, b); }
      if a[0] < b[0] { assert a[..0] == b[..0]; }
      forall k | 1 <= k <= |a| && k < |b| && a[..k] == b[..k] ensures a[0] == b[0] {
        assert a[..k][0] == b[..k][0];
      }
    }
  }
}
