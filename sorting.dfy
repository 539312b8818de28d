/**
  `Array.prototype.sort(cmp)`: a stable sort driven by a comparator that returns a
  negative, zero or positive number. It is modelled as insertion sort, which is
  stable: an element is inserted after every element it does not precede.
 */
module Sorting {
  import opened Seqs

  function Insert<T>(x: T, s: seq<T>, cmp: (T, T) -> real): (r: seq<T>)
    ensures |r| == |s| + 1
  {
    if s == [] then [x]
    else if cmp(s[0], x) > 0.0 then [x] + s
    else [s[0]] + Insert(x, s[1..], cmp)
  }

  lemma InsertPermutes<T>(x: T, s: seq<T>, cmp: (T, T) -> real)
    ensures multiset(Insert(x, s, cmp)) == multiset(s) + multiset{x}
  {
    var i := InsertPos(x, s, cmp);
    InsertSplit(x, s, cmp);
    assert s == s[..i] + s[i..];
  }

  function SortBy<T>(s: seq<T>, cmp: (T, T) -> real): (r: seq<T>)
    ensures |r| == |s|
    ensures multiset(r) == multiset(s)
  {
    if s == [] then []
    else
      assert s == s[..|s| - 1] + [s[|s| - 1]];
      InsertPermutes(s[|s| - 1], SortBy(s[..|s| - 1], cmp), cmp);
      Insert(s[|s| - 1], SortBy(s[..|s| - 1], cmp), cmp)
  }

  /** `a` comes no later than `b` under `cmp`. */
  predicate Le<T>(cmp: (T, T) -> real, a: T, b: T) {
    cmp(a, b) <= 0.0
  }

  /** A comparator that any two values can be ordered by, consistently. */
  ghost predicate TotalPreorder<T(!new)>(cmp: (T, T) -> real) {
    && (forall a, b :: Le(cmp, a, b) || Le(cmp, b, a))
    && (forall a, b, c :: Le(cmp, a, b) && Le(cmp, b, c) ==> Le(cmp, a, c))
  }

  ghost predicate SortedBy<T>(s: seq<T>, cmp: (T, T) -> real) {
    forall i, j :: 0 <= i < j < |s| ==> Le(cmp, s[i], s[j])
  }

  lemma {:induction false} InsertSorted<T(!new)>(x: T, s: seq<T>, cmp: (T, T) -> real)
    requires TotalPreorder(cmp)
    requires SortedBy(s, cmp)
    ensures SortedBy(Insert(x, s, cmp), cmp)
  {
    if s != [] && !(cmp(s[0], x) > 0.0) {
      var rest := Insert(x, s[1..], cmp);
      InsertSorted(x, s[1..], cmp);
      InsertPermutes(x, s[1..], cmp);
      forall k | 0 <= k < |rest| ensures Le(cmp, s[0], rest[k]) {
        assert rest[k] in multiset(rest);
        if rest[k] != x {
          assert rest[k] in multiset(s[1..]);
          var m :| 0 <= m < |s[1..]| && s[1..][m] == rest[k];
          assert s[m + 1] == rest[k];
        }
      }
    }
  }

  lemma {:induction false} SortBySorted<T(!new)>(s: seq<T>, cmp: (T, T) -> real)
    requires TotalPreorder(cmp)
    ensures SortedBy(SortBy(s, cmp), cmp)
  {
    if s != [] {
      SortBySorted(s[..|s| - 1], cmp);
      InsertSorted(s[|s| - 1], SortBy(s[..|s| - 1], cmp), cmp);
    }
  }

  /** Elements satisfying `p` are all tied under `cmp`. */
  ghost predicate TiedClass<T(!new)>(cmp: (T, T) -> real, p: T -> bool) {
    forall a, b :: p(a) && p(b) ==> Le(cmp, a, b)
  }

  /** Where `Insert` puts `x`: before the first element that comes strictly after it. */
  function InsertPos<T>(x: T, s: seq<T>, cmp: (T, T) -> real): (i: nat)
    ensures i <= |s|
  {
    if s == [] then 0
    else if cmp(s[0], x) > 0.0 then 0
    else InsertPos(x, s[1..], cmp) + 1
  }

  lemma {:induction false} InsertSplit<T>(x: T, s: seq<T>, cmp: (T, T) -> real)
    ensures var i := InsertPos(x, s, cmp); Insert(x, s, cmp) == s[..i] + [x] + s[i..]
  {
    if s != [] && cmp(s[0], x) <= 0.0 {
      var t := s[1..];
      var i := InsertPos(x, t, cmp);
      InsertSplit(x, t, cmp);
      assert s[..i + 1] == [s[0]] + t[..i];
      assert s[i + 1..] == t[i..];
    }
  }

  /** In a sorted sequence, everything from the insertion point on comes strictly after `x`. */
  lemma {:induction false} AfterInsertPos<T(!new)>(x: T, s: seq<T>, cmp: (T, T) -> real)
    requires TotalPreorder(cmp)
    requires SortedBy(s, cmp)
    ensures forall k :: InsertPos(x, s, cmp) <= k < |s| ==> !Le(cmp, s[k], x)
  {
    if s != [] && cmp(s[0], x) <= 0.0 {
      AfterInsertPos(x, s[1..], cmp);
      assert forall k :: 1 <= k < |s| ==> s[k] == s[1..][k - 1];
    } else if s != [] {
      forall k | 0 < k < |s| ensures !Le(cmp, s[k], x) {
        assert Le(cmp, s[0], s[k]);
      }
    }
  }

  lemma InsertStable<T>(x: T, s: seq<T>, cmp: (T, T) -> real, p: T -> bool)
    requires p(x) ==> Filter(s[InsertPos(x, s, cmp)..], p) == []
    ensures Filter(Insert(x, s, cmp), p) == Filter(s, p) + (if p(x) then [x] else [])
  {
    var i := InsertPos(x, s, cmp);
    InsertSplit(x, s, cmp);
    var before, after := s[..i], s[i..];
    assert s == before + after;
    FilterAppend(before, after, p);
    FilterAppend(before + [x], after, p);
    FilterAppendOne(before, x, p);
  }

  /** Nothing that comes strictly after a member of a tied class is in that class. */
  lemma {:induction false} LaterOutOfClass<T>(x: T, t: seq<T>, cmp: (T, T) -> real, p: T -> bool)
    requires forall a, b :: p(a) && p(b) ==> Le(cmp, a, b)
    requires p(x)
    requires forall k :: 0 <= k < |t| ==> !Le(cmp, t[k], x)
    ensures Filter(t, p) == []
  {
    if t != [] {
      assert !Le(cmp, t[0], x);
      assert !p(t[0]);
      LaterOutOfClass(x, t[1..], cmp, p);
    }
  }

  /** Inserting into a sorted sequence appends to the inserted element's tied class. */
  lemma InsertIntoSortedStable<T(!new)>(x: T, s: seq<T>, cmp: (T, T) -> real, p: T -> bool)
    requires TotalPreorder(cmp) && TiedClass(cmp, p)
    requires SortedBy(s, cmp)
    ensures Filter(Insert(x, s, cmp), p) == Filter(s, p) + (if p(x) then [x] else [])
  {
    var i := InsertPos(x, s, cmp);
    AfterInsertPos(x, s, cmp);
    if p(x) {
      LaterOutOfClass(x, s[i..], cmp, p);
    }
    InsertStable(x, s, cmp, p);
  }

  /** Stability: within a class of tied elements, sorting keeps the input order. */
  lemma {:induction false} SortByStable<T(!new)>(s: seq<T>, cmp: (T, T) -> real, p: T -> bool)
    requires TotalPreorder(cmp) && TiedClass(cmp, p)
    ensures Filter(SortBy(s, cmp), p) == Filter(s, p)
  {
    if s != [] {
      var init, last := s[..|s| - 1], s[|s| - 1];
      SortByStable(init, cmp, p);
      SortBySorted(init, cmp);
      InsertIntoSortedStable(last, SortBy(init, cmp), cmp, p);
      assert s == init + [last];
      FilterAppendOne(init, last, p);
    }
  }

  /** With a comparator that ties everything, sorting changes nothing. */
  lemma {:induction false} SortByAllTied<T>(s: seq<T>, cmp: (T, T) -> real)
    requires forall a, b :: cmp(a, b) == 0.0
    ensures SortBy(s, cmp) == s
  {
    if s != [] {
      var init := s[..|s| - 1];
      SortByAllTied(init, cmp);
      InsertAtEnd(s[|s| - 1], init, cmp);
      assert s == init + [s[|s| - 1]];
    }
  }

  lemma {:induction false} InsertAtEnd<T>(x: T, s: seq<T>, cmp: (T, T) -> real)
    requires forall k :: 0 <= k < |s| ==> cmp(s[k], x) <= 0.0
    ensures Insert(x, s, cmp) == s + [x]
  {
    if s != [] {
      InsertAtEnd(x, s[1..], cmp);
      assert s == [s[0]] + s[1..];
    }
  }

  /** Sorting keeps exactly the elements of the input. */
  lemma SortByMembers<T>(s: seq<T>, cmp: (T, T) -> real, x: T)
    ensures x in SortBy(s, cmp) <==> x in s
  {
    var r := SortBy(s, cmp);
    assert x in r <==> x in multiset(r);
    assert x in s <==> x in multiset(s);
  }

  /** A property of every element survives sorting. */
  lemma SortByAll<T>(s: seq<T>, cmp: (T, T) -> real, p: T -> bool)
    requires forall i :: 0 <= i < |s| ==> p(s[i])
    ensures forall i :: 0 <= i < |SortBy(s, cmp)| ==> p(SortBy(s, cmp)[i])
  {
    var r := SortBy(s, cmp);
    forall i | 0 <= i < |r| ensures p(r[i]) {
      SortByMembers(s, cmp, r[i]);
    }
  }

  /** Sorting keeps exactly the values of the input, seen through any view `f`. */
  lemma SortByMapMembers<T, U>(s: seq<T>, cmp: (T, T) -> real, f: T -> U, y: U)
    ensures y in Map(SortBy(s, cmp), f) <==> y in Map(s, f)
  {
    var r := SortBy(s, cmp);
    if y in Map(r, f) {
      var j :| 0 <= j < |r| && Map(r, f)[j] == y;
      SortByMembers(s, cmp, r[j]);
      var i :| 0 <= i < |s| && s[i] == r[j];
      assert Map(s, f)[i] == y;
    }
    if y in Map(s, f) {
      var i :| 0 <= i < |s| && Map(s, f)[i] == y;
      SortByMembers(s, cmp, s[i]);
      var j :| 0 <= j < |r| && r[j] == s[i];
      assert Map(r, f)[j] == y;
    }
  }

  lemma DistinctByMultiset<T>(a: seq<T>, b: seq<T>)
    requires multiset(a) == multiset(b)
    requires Distinct(a)
    ensures Distinct(b)
  {
    if !Distinct(b) {
      var i, j :| 0 <= i < j < |b| && b[i] == b[j];
      assert b == b[..j] + [b[j]] + b[j + 1..];
      assert b[..j] == b[..i] + [b[i]] + b[i + 1..j];
      assert multiset(b)[b[i]] >= 2;
      DistinctCount(a, b[i]);
    }
  }

  lemma {:induction false} DistinctCount<T>(a: seq<T>, x: T)
    requires Distinct(a)
    ensures multiset(a)[x] <= 1
  {
    if a != [] {
      var init := a[..|a| - 1];
      assert Distinct(init);
      DistinctCount(init, x);
      assert a == init + [a[|a| - 1]];
      if a[|a| - 1] == x {
        assert x !in init;
      }
    }
  }
}
