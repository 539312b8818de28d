/**
  Facet lists `Array.from(new Set(xs)).sort()` (strings, code-point order) and
  `Array.from(new Set(xs)).sort((a, b) => a - b)` (numbers): every distinct value
  once, in strictly increasing order.
 */
module Facets {
  import opened Seqs
  import opened Sorting
  import opened Text

  /** The comparator `(a, b) => a - b`. */
  function NumCmp(a: real, b: real): real { a - b }

  lemma LexCmpPreorder()
    ensures TotalPreorder(LexCmp)
  {
    forall a, b ensures Le(LexCmp, a, b) || Le(LexCmp, b, a) {
      LexTrichotomy(a, b);
    }
    forall a, b, c | Le(LexCmp, a, b) && Le(LexCmp, b, c) ensures Le(LexCmp, a, c) {
      if a != b && b != c { LexTransitive(a, b, c); }
    }
  }

  lemma NumCmpPreorder()
    ensures TotalPreorder(NumCmp)
  {
  }

  /** Sorting the distinct values keeps exactly the values of the input, once each. */
  lemma SortedUniqueMembers<T>(xs: seq<T>, cmp: (T, T) -> real)
    ensures var r := SortBy(Dedup(xs), cmp);
            Distinct(r) && forall x :: x in r <==> x in xs
  {
    var d := Dedup(xs);
    var r := SortBy(d, cmp);
    DistinctByMultiset(d, r);
    forall x ensures x in r <==> x in xs {
      SortByMembers(d, cmp, x);
      if x in xs {
        var i :| 0 <= i < |xs| && xs[i] == x;
      }
      if x in d {
        var i :| 0 <= i < |d| && d[i] == x;
      }
    }
  }

  /** Under an order that ties only equal values, sorted distinct values strictly increase. */
  lemma SortedUniqueStrict<T(!new)>(xs: seq<T>, cmp: (T, T) -> real)
    requires TotalPreorder(cmp)
    requires forall a, b :: cmp(a, b) == 0.0 ==> a == b
    ensures var r := SortBy(Dedup(xs), cmp);
            forall i, j :: 0 <= i < j < |r| ==> cmp(r[i], r[j]) < 0.0
  {
    SortBySorted(Dedup(xs), cmp);
    SortedUniqueMembers(xs, cmp);
    StrictlySorted(SortBy(Dedup(xs), cmp), cmp);
  }

  lemma StrictlySorted<T>(r: seq<T>, cmp: (T, T) -> real)
    requires SortedBy(r, cmp) && Distinct(r)
    requires forall a, b :: cmp(a, b) == 0.0 ==> a == b
    ensures forall i, j :: 0 <= i < j < |r| ==> cmp(r[i], r[j]) < 0.0
  {
    forall i, j | 0 <= i < j < |r| ensures cmp(r[i], r[j]) < 0.0 {
      assert Le(cmp, r[i], r[j]);
      assert r[i] != r[j];
    }
  }

  /** `Array.from(new Set(xs)).sort()` on strings. */
  function StringFacet(xs: seq<string>): (r: seq<string>)
    ensures Distinct(r)
    ensures forall i, j :: 0 <= i < j < |r| ==> LexLess(r[i], r[j])
    ensures forall x :: x in r <==> x in xs
  {
    LexCmpPreorder();
    SortedUniqueMembers(xs, LexCmp);
    SortedUniqueStrict(xs, LexCmp);
    SortBy(Dedup(xs), LexCmp)
  }

  /** `Array.from(new Set(xs)).sort((a, b) => a - b)` on numbers. */
  function NumberFacet(xs: seq<real>): (r: seq<real>)
    ensures Distinct(r)
    ensures forall i, j :: 0 <= i < j < |r| ==> r[i] < r[j]
    ensures forall x :: x in r <==> x in xs
  {
    NumCmpPreorder();
    SortedUniqueMembers(xs, NumCmp);
    SortedUniqueStrict(xs, NumCmp);
    SortBy(Dedup(xs), NumCmp)
  }
}
