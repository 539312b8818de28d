/** Array helpers of the source (`filter`, `map`, `Array.from(new Set(...))`, `flat`). */
module Seqs {
  import opened Wrappers

  /** `xs.filter(p)`. */
  function Filter<T(==)>(s: seq<T>, p: T -> bool): (r: seq<T>)
    ensures |r| <= |s|
  {
    if s == [] then []
    else (if p(s[0]) then [s[0]] else []) + Filter(s[1..], p)
  }

  /** The filter keeps exactly the elements that pass the test. */
  lemma {:induction false} FilterMembers<T>(s: seq<T>, p: T -> bool)
    ensures forall i :: 0 <= i < |Filter(s, p)| ==> Filter(s, p)[i] in s && p(Filter(s, p)[i])
    ensures forall i :: 0 <= i < |s| && p(s[i]) ==> s[i] in Filter(s, p)
  {
    if s != [] {
      FilterMembers(s[1..], p);
      assert s == [s[0]] + s[1..];
    }
  }

  /** `xs.map(f)`. */
  function Map<T, U>(s: seq<T>, f: T -> U): (r: seq<U>)
    ensures |r| == |s|
    ensures forall i :: 0 <= i < |s| ==> r[i] == f(s[i])
  {
    seq(|s|, i requires 0 <= i < |s| => f(s[i]))
  }

  predicate Distinct<T(==)>(s: seq<T>) {
    forall i, j :: 0 <= i < j < |s| ==> s[i] != s[j]
  }

  /** `Array.from(new Set(xs))`: every value once, in order of first occurrence. */
  function Dedup<T(==)>(s: seq<T>): (r: seq<T>)
    ensures Distinct(r)
    ensures forall i :: 0 <= i < |r| ==> r[i] in s
    ensures forall i :: 0 <= i < |s| ==> s[i] in r
    ensures |r| <= |s|
  {
    if s == [] then []
    else
      var d := Dedup(s[..|s| - 1]);
      assert s == s[..|s| - 1] + [s[|s| - 1]];
      if s[|s| - 1] in d then d else d + [s[|s| - 1]]
  }

  /** One more value is added to the distinct values exactly when it is new. */
  lemma DedupSnoc<T>(s: seq<T>, x: T)
    ensures Dedup(s + [x]) == if x in s then Dedup(s) else Dedup(s) + [x]
  {
    assert (s + [x])[..|s|] == s;
  }

  /** Concatenation of a list of lists. */
  function Concat<T>(ss: seq<seq<T>>): (r: seq<T>)
  {
    if ss == [] then [] else Concat(ss[..|ss| - 1]) + ss[|ss| - 1]
  }

  /** Index of the first element satisfying `p`, or `|s|` when there is none. */
  function FindIndex<T>(s: seq<T>, p: T -> bool): (i: nat)
    ensures i <= |s|
    ensures i < |s| ==> p(s[i])
    ensures forall k :: 0 <= k < i ==> !p(s[k])
  {
    if s == [] then 0 else if p(s[0]) then 0 else 1 + FindIndex(s[1..], p)
  }

  /** Index of the first occurrence of `x`, or `|s|` when there is none. */
  function Position<T(==)>(s: seq<T>, x: T): (i: nat)
    ensures i <= |s|
    ensures i < |s| ==> s[i] == x
    ensures i == |s| <==> x !in s
    ensures forall j :: 0 <= j < i ==> s[j] != x
  {
    if s == [] then 0 else if s[0] == x then 0 else 1 + Position(s[1..], x)
  }

  lemma {:induction false} FilterAppend<T>(a: seq<T>, b: seq<T>, p: T -> bool)
    ensures Filter(a + b, p) == Filter(a, p) + Filter(b, p)
  {
    if a == [] {
      assert a + b == b;
    } else {
      assert (a + b)[0] == a[0] && (a + b)[1..] == a[1..] + b;
      FilterAppend(a[1..], b, p);
      var head := if p(a[0]) then [a[0]] else [];
      assert Filter(a + b, p) == head + (Filter(a[1..], p) + Filter(b, p));
      assert Filter(a, p) == head + Filter(a[1..], p);
    }
  }

  /** Filtering by a predicate that holds everywhere keeps the sequence. */
  lemma {:induction false} FilterAll<T>(s: seq<T>, p: T -> bool)
    requires forall x :: x in s ==> p(x)
    ensures Filter(s, p) == s
  {
    if s != [] {
      FilterAll(s[1..], p);
    }
  }

  /** Two predicates that agree give the same filter. */
  lemma {:induction false} FilterExt<T>(s: seq<T>, p: T -> bool, q: T -> bool)
    requires forall x :: p(x) == q(x)
    ensures Filter(s, p) == Filter(s, q)
  {
    if s != [] {
      FilterExt(s[1..], p, q);
    }
  }

  /** Two successive filters are one filter by the conjunction. */
  lemma {:induction false} FilterFilter<T>(s: seq<T>, p: T -> bool, q: T -> bool, pq: T -> bool)
    requires forall x :: pq(x) == (p(x) && q(x))
    ensures Filter(Filter(s, p), q) == Filter(s, pq)
  {
    if s != [] {
      FilterFilter(s[1..], p, q, pq);
      var head := if p(s[0]) then [s[0]] else [];
      FilterAppend(head, Filter(s[1..], p), q);
    }
  }

  /** Filtering by a predicate that holds nowhere leaves nothing. */
  lemma {:induction false} FilterNone<T>(s: seq<T>, p: T -> bool)
    requires forall i :: 0 <= i < |s| ==> !p(s[i])
    ensures Filter(s, p) == []
  {
    if s != [] {
      FilterNone(s[1..], p);
    }
  }

  lemma {:induction false} FilterAppendOne<T>(s: seq<T>, x: T, p: T -> bool)
    ensures Filter(s + [x], p) == Filter(s, p) + (if p(x) then [x] else [])
  {
    FilterAppend(s, [x], p);
    assert Filter([x], p) == (if p(x) then [x] else []) + Filter([], p);
  }

  /** The values a view takes on the kept elements. */
  lemma MapFilterMembers<T, U>(s: seq<T>, p: T -> bool, f: T -> U, y: U)
    ensures y in Map(Filter(s, p), f) <==> exists i :: 0 <= i < |s| && p(s[i]) && f(s[i]) == y
  {
    var kept := Filter(s, p);
    FilterMembers(s, p);
    if y in Map(kept, f) {
      var k :| 0 <= k < |kept| && Map(kept, f)[k] == y;
      var i :| 0 <= i < |s| && s[i] == kept[k];
    }
    if exists i :: 0 <= i < |s| && p(s[i]) && f(s[i]) == y {
      var i :| 0 <= i < |s| && p(s[i]) && f(s[i]) == y;
      var k :| 0 <= k < |kept| && kept[k] == s[i];
      assert Map(kept, f)[k] == y;
    }
  }

  /** One more element of the input is one more element of the map. */
  lemma MapSnoc<T, U>(s: seq<T>, j: nat, f: T -> U)
    requires j < |s|
    ensures Map(s[..j + 1], f) == Map(s[..j], f) + [f(s[j])]
  {
  }

  /** One more list concatenated at the end. */
  lemma ConcatMapSnoc<T, U>(xs: seq<T>, x: T, f: T -> seq<U>)
    ensures Concat(Map(xs + [x], f)) == Concat(Map(xs, f)) + f(x)
  {
    assert Map(xs + [x], f)[..|xs|] == Map(xs, f);
  }

  lemma MapAppend<T, U>(a: seq<T>, b: seq<T>, f: T -> U)
    ensures Map(a + b, f) == Map(a, f) + Map(b, f)
  {
  }

  lemma {:induction false} ConcatLength<T>(ss: seq<seq<T>>, n: nat)
    requires forall i :: 0 <= i < |ss| ==> |ss[i]| == n
    ensures |Concat(ss)| == n * |ss|
  {
    if ss != [] {
      var init := ss[..|ss| - 1];
      assert forall i :: 0 <= i < |init| ==> init[i] == ss[i];
      ConcatLength(init, n);
      assert |Concat(ss)| == |Concat(init)| + |ss[|ss| - 1]|;
    }
  }

  /** The values of the `Some` entries, in order: `if (n) out.push(n)` over a list. */
  function Somes<T>(s: seq<Option<T>>): (r: seq<T>)
    ensures |r| <= |s|
  {
    if s == [] then []
    else Somes(s[..|s| - 1]) + (if s[|s| - 1].Some? then [s[|s| - 1].value] else [])
  }

  function Wrap<T>(x: T): Option<T> { Some(x) }

  predicate IsSome<T>(o: Option<T>) { o.Some? }

  /** Wrapping the extracted values again gives exactly the `Some` entries, in order. */
  lemma {:induction false} SomesAreTheSomeEntries<T>(s: seq<Option<T>>)
    ensures Map(Somes(s), Wrap) == Filter(s, IsSome)
  {
    if s != [] {
      var init, last := s[..|s| - 1], s[|s| - 1];
      SomesAreTheSomeEntries(init);
      assert s == init + [last];
      FilterAppendOne(init, last, IsSome);
      if last.Some? {
        MapAppend(Somes(init), [last.value], Wrap);
      }
    }
  }

  /** The first element a filter keeps is the first element satisfying the predicate. */
  lemma {:induction false} FilterHead<T>(s: seq<T>, p: T -> bool)
    requires Filter(s, p) != []
    ensures FindIndex(s, p) < |s| && Filter(s, p)[0] == s[FindIndex(s, p)]
  {
    if !p(s[0]) {
      FilterHead(s[1..], p);
    }
  }

  /** Lists of pairwise equal lengths have concatenations of equal length. */
  lemma {:induction false} ConcatSameLengths<T, U>(a: seq<seq<T>>, b: seq<seq<U>>)
    requires |a| == |b|
    requires forall i :: 0 <= i < |a| ==> |a[i]| == |b[i]|
    ensures |Concat(a)| == |Concat(b)|
  {
    if a != [] {
      ConcatSameLengths(a[..|a| - 1], b[..|b| - 1]);
    }
  }

  /** Filtering a duplicate-free sequence leaves it duplicate-free. */
  lemma {:induction false} FilterDistinct<T>(s: seq<T>, p: T -> bool)
    requires Distinct(s)
    ensures Distinct(Filter(s, p))
  {
    if s != [] {
      FilterDistinct(s[1..], p);
      FilterMembers(s[1..], p);
      assert s[0] !in s[1..];
      assert s[0] !in Filter(s[1..], p);
    }
  }

  /** A duplicate-free sequence is its own set, in order. */
  lemma {:induction false} DedupDistinct<T>(s: seq<T>)
    requires Distinct(s)
    ensures Dedup(s) == s
  {
    if s != [] {
      var init := s[..|s| - 1];
      assert Distinct(init);
      DedupDistinct(init);
      assert s[|s| - 1] !in init;
      assert s == init + [s[|s| - 1]];
    }
  }

  /** A filter keeps nothing exactly when no element satisfies the predicate. */
  lemma FilterEmptyIff<T>(s: seq<T>, p: T -> bool)
    ensures Filter(s, p) == [] <==> forall k :: 0 <= k < |s| ==> !p(s[k])
  {
    if forall k :: 0 <= k < |s| ==> !p(s[k]) {
      FilterNone(s, p);
    }
  }

  /** The total length of a list of lists. */
  function SumLengths<T>(ss: seq<seq<T>>): (n: nat)
  {
    if ss == [] then 0 else SumLengths(ss[..|ss| - 1]) + |ss[|ss| - 1]|
  }

  lemma {:induction false} ConcatSumLengths<T>(ss: seq<seq<T>>)
    ensures |Concat(ss)| == SumLengths(ss)
  {
    if ss != [] {
      ConcatSumLengths(ss[..|ss| - 1]);
    }
  }

  /** Element `j` of list `i` sits after all the elements of the lists before it. */
  lemma {:induction false} ConcatIndex<T>(ss: seq<seq<T>>, i: nat, j: nat)
    requires i < |ss| && j < |ss[i]|
    ensures SumLengths(ss[..i]) + j < |Concat(ss)|
    ensures Concat(ss)[SumLengths(ss[..i]) + j] == ss[i][j]
  {
    var init := ss[..|ss| - 1];
    ConcatSumLengths(init);
    if i == |ss| - 1 {
      assert ss[..i] == init;
    } else {
      assert init[..i] == ss[..i];
      ConcatIndex(init, i, j);
    }
  }

  /** Both tests hold. */
  function And<T>(p: T -> bool, q: T -> bool): T -> bool {
    (x: T) => p(x) && q(x)
  }

  /** The test `t` when `active`, no test otherwise. */
  function Guard<T>(active: bool, t: T -> bool): T -> bool {
    (x: T) => !active || t(x)
  }

  /** One stage of `if (active) arr = arr.filter(t)` after the stages that kept `p`. */
  lemma FilterStage<T>(s: seq<T>, p: T -> bool, active: bool, t: T -> bool)
    ensures (if active then Filter(Filter(s, p), t) else Filter(s, p)) == Filter(s, And(p, Guard(active, t)))
  {
    if active {
      FilterFilter(s, p, t, And(p, Guard(active, t)));
    } else {
      FilterExt(s, p, And(p, Guard(active, t)));
    }
  }

  /** Filtering, then mapping, is mapping, then filtering by the same test on the mapped values. */
  lemma {:induction false} FilterMap<T, U>(s: seq<T>, f: T -> U, q: U -> bool, p: T -> bool)
    requires forall x :: p(x) == q(f(x))
    ensures Map(Filter(s, p), f) == Filter(Map(s, f), q)
  {
    if s != [] {
      FilterMap(s[1..], f, q, p);
      assert Map(s, f)[1..] == Map(s[1..], f);
      var head := if p(s[0]) then [s[0]] else [];
      MapAppend(head, Filter(s[1..], p), f);
    }
  }
}
