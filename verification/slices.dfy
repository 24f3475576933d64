/** The parts of Go's `slices` package that the bot relies on, and duplicate-freedom. */
module Slices {

  /** Go's `slices.Contains`: a left-to-right scan for `x`. */
  function Contains<T(==)>(s: seq<T>, x: T): (r: bool)
    ensures r <==> x in s
  {
    if s == [] then false else s[0] == x || Contains(s[1..], x)
  }

  /** No element occurs twice. */
  predicate Distinct<T(==)>(s: seq<T>)
  {
    forall i, j :: 0 <= i < j < |s| ==> s[i] != s[j]
  }

  /** Appending an element that is not yet present keeps a sequence duplicate-free. */
  lemma AppendFreshKeepsDistinct<T>(s: seq<T>, x: T)
    requires Distinct(s) && x !in s
    ensures Distinct(s + [x])
  {
    forall i, j | 0 <= i < j < |s + [x]|
      ensures (s + [x])[i] != (s + [x])[j]
    {
      if j == |s| {
        assert s[i] in s;
      }
    }
  }

  /** In a duplicate-free sequence every element occurs exactly once. */
  lemma {:induction false} DistinctOccursOnce<T>(s: seq<T>, x: T)
    requires Distinct(s) && x in s
    ensures multiset(s)[x] == 1
  {
    var last := s[|s| - 1];
    var init := s[..|s| - 1];
    assert s == init + [last];
    assert Distinct(init);
    if x != last {
      DistinctOccursOnce(init, x);
    }
  }
}
