/**
  A JavaScript `Map<K, V[]>` filled by `if (!m.has(k)) m.set(k, []); m.get(k).push(v)`:
  a sequence of groups in order of first insertion, each with a distinct key.
 */
module Groups {
  import opened Seqs

  datatype Group<K, V> = Group(key: K, items: seq<V>)

  function Keys<K, V>(gs: seq<Group<K, V>>): (ks: seq<K>)
    ensures |ks| == |gs|
    ensures forall i :: 0 <= i < |gs| ==> ks[i] == gs[i].key
  {
    seq(|gs|, i requires 0 <= i < |gs| => gs[i].key)
  }

  function Items<K, V>(gs: seq<Group<K, V>>): (vs: seq<seq<V>>)
    ensures |vs| == |gs|
    ensures forall i :: 0 <= i < |gs| ==> vs[i] == gs[i].items
  {
    seq(|gs|, i requires 0 <= i < |gs| => gs[i].items)
  }

  /** Index of the group with key `k`, or `|gs|` when there is none (`m.has(k)` is `< |gs|`). */
  function Find<K(==), V>(gs: seq<Group<K, V>>, k: K): (i: nat)
    ensures i <= |gs|
    ensures i < |gs| ==> gs[i].key == k
    ensures i == |gs| <==> k !in Keys(gs)
  {
    Position(Keys(gs), k)
  }

  /** `if (!m.has(k)) m.set(k, []); m.get(k)!.push(v)`. */
  function Add<K(==), V>(gs: seq<Group<K, V>>, k: K, v: V): (r: seq<Group<K, V>>)
  {
    var i := Find(gs, k);
    if i == |gs| then gs + [Group(k, [v])]
    else gs[i := Group(k, gs[i].items + [v])]
  }

  /** The groups the loop `for (const v of vs) add(key(v), v)` builds. */
  function GroupBy<K(==), V>(vs: seq<V>, key: V -> K): (gs: seq<Group<K, V>>)
  {
    if vs == [] then []
    else Add(GroupBy(vs[..|vs| - 1], key), key(vs[|vs| - 1]), vs[|vs| - 1])
  }

  /** The values with key `k`. */
  function HasKey<K(==), V>(key: V -> K, k: K): V -> bool {
    v => key(v) == k
  }

  /** Adding a value adds its key at the end when it is new, and leaves the keys alone otherwise. */
  lemma KeysAdd<K, V>(gs: seq<Group<K, V>>, k: K, v: V)
    ensures Keys(Add(gs, k, v)) == if k in Keys(gs) then Keys(gs) else Keys(gs) + [k]
  {
    var i := Find(gs, k);
    if i == |gs| {
      assert Keys(gs + [Group(k, [v])]) == Keys(gs) + [k];
    } else {
      assert Keys(gs[i := Group(k, gs[i].items + [v])]) == Keys(gs);
    }
  }

  /** The keys are the distinct keys of the input, in order of first occurrence. */
  lemma {:induction false} GroupByKeys<K, V>(vs: seq<V>, key: V -> K)
    ensures Keys(GroupBy(vs, key)) == Dedup(Map(vs, key))
  {
    if vs != [] {
      var init := vs[..|vs| - 1];
      var last := vs[|vs| - 1];
      GroupByKeys(init, key);
      assert Map(vs, key) == Map(init, key) + [key(last)];
      DedupSnoc(Map(init, key), key(last));
      KeysAdd(GroupBy(init, key), key(last), last);
    }
  }

  /** Each group holds exactly the values with its key, in input order. */
  lemma {:induction false} GroupByItems<K, V>(vs: seq<V>, key: V -> K)
    ensures var gs := GroupBy(vs, key);
            forall i :: 0 <= i < |gs| ==> gs[i].items == Filter(vs, HasKey(key, gs[i].key))
  {
    if vs != [] {
      var init := vs[..|vs| - 1];
      var last := vs[|vs| - 1];
      assert vs == init + [last];
      GroupByItems(init, key);
      var gs := GroupBy(init, key);
      var i := Find(gs, key(last));
      var r := GroupBy(vs, key);
      GroupByKeys(init, key);
      assert Distinct(Keys(gs));
      forall j | 0 <= j < |r| ensures r[j].items == Filter(vs, HasKey(key, r[j].key)) {
        FilterAppendOne(init, last, HasKey(key, r[j].key));
        if j < |gs| {
          assert r[j].key == gs[j].key;
          if j != i {
            assert r[j] == gs[j];
            assert Keys(gs)[j] == gs[j].key;
            if i < |gs| {
              assert Keys(gs)[i] == key(last);
            }
            assert gs[j].key != key(last);
          }
        } else {
          assert r[j] == Group(key(last), [last]);
          assert key(last) !in Keys(gs);
          GroupByKeys(init, key);
          FilterNoKey(init, key, key(last));
        }
      }
    }
  }

  /** One group of `GroupBy`: the values with its key. */
  lemma GroupItemsAt<K, V>(vs: seq<V>, key: V -> K, i: nat)
    requires i < |GroupBy(vs, key)|
    ensures GroupBy(vs, key)[i].items == Filter(vs, HasKey(key, GroupBy(vs, key)[i].key))
  {
    GroupByItems(vs, key);
  }

  lemma FilterNoKey<K, V>(vs: seq<V>, key: V -> K, k: K)
    requires k !in Dedup(Map(vs, key))
    ensures Filter(vs, HasKey(key, k)) == []
  {
    forall i | 0 <= i < |vs| ensures !HasKey(key, k)(vs[i]) {
      assert Map(vs, key)[i] == key(vs[i]);
    }
    FilterNone(vs, HasKey(key, k));
  }

  predicate NonEmptyGroups<K, V>(gs: seq<Group<K, V>>) {
    forall i :: 0 <= i < |gs| ==> gs[i].items != []
  }

  /** Every group has at least one value. */
  lemma {:induction false} GroupByNonEmpty<K, V>(vs: seq<V>, key: V -> K)
    ensures forall i :: 0 <= i < |GroupBy(vs, key)| ==> GroupBy(vs, key)[i].items != []
  {
    if vs != [] {
      GroupByNonEmpty(vs[..|vs| - 1], key);
    }
  }

  /** Every value sits in the group of its own key. */
  predicate ItemsKeyed<K(==), V>(gs: seq<Group<K, V>>, key: V -> K) {
    forall i, j :: 0 <= i < |gs| && 0 <= j < |gs[i].items| ==> key(gs[i].items[j]) == gs[i].key
  }

  lemma {:induction false} GroupByItemKeys<K, V>(vs: seq<V>, key: V -> K)
    ensures ItemsKeyed(GroupBy(vs, key), key)
  {
    if vs != [] {
      var init, last := vs[..|vs| - 1], vs[|vs| - 1];
      GroupByItemKeys(init, key);
      var gs := GroupBy(init, key);
      var at := Find(gs, key(last));
      var r := GroupBy(vs, key);
      assert r == Add(gs, key(last), last);
      forall i, j | 0 <= i < |r| && 0 <= j < |r[i].items| ensures key(r[i].items[j]) == r[i].key {
        if i == at {
          if at < |gs| {
            assert r[i].items == gs[i].items + [last];
            if j < |gs[i].items| {
              assert r[i].items[j] == gs[i].items[j];
            }
          } else {
            assert r[i] == Group(key(last), [last]);
          }
        } else {
          assert r[i] == gs[i];
        }
      }
    }
  }

  /** Listing the groups one after another is a permutation of the input. */
  lemma {:induction false} GroupByPermutes<K, V>(vs: seq<V>, key: V -> K)
    ensures multiset(Concat(Items(GroupBy(vs, key)))) == multiset(vs)
  {
    if vs != [] {
      var init := vs[..|vs| - 1];
      var last := vs[|vs| - 1];
      assert vs == init + [last];
      GroupByPermutes(init, key);
      ItemsAdd(GroupBy(init, key), key(last), last);
    }
  }

  /** Adding a value adds it to the listed groups. */
  lemma ItemsAdd<K, V>(gs: seq<Group<K, V>>, k: K, v: V)
    ensures multiset(Concat(Items(Add(gs, k, v)))) == multiset(Concat(Items(gs))) + multiset{v}
  {
    var i := Find(gs, k);
    if i == |gs| {
      assert Items(gs + [Group(k, [v])]) == Items(gs) + [[v]];
    } else {
      var gs' := gs[i := Group(k, gs[i].items + [v])];
      assert Items(gs') == Items(gs)[i := gs[i].items + [v]];
      ConcatUpdate(Items(gs), i, [v]);
    }
  }

  /** Appending to one list adds its new values to the concatenation. */
  lemma {:induction false} ConcatUpdate<V>(ss: seq<seq<V>>, i: nat, extra: seq<V>)
    requires i < |ss|
    ensures multiset(Concat(ss[i := ss[i] + extra])) == multiset(Concat(ss)) + multiset(extra)
  {
    var n := |ss| - 1;
    var ss' := ss[i := ss[i] + extra];
    assert ss'[..n] == if i == n then ss[..n] else ss[..n][i := ss[i] + extra];
    if i < n {
      ConcatUpdate(ss[..n], i, extra);
    }
  }

  /** Adding a value, seen through a per-group view `f`: one view is appended or replaced. */
  lemma MapAdd<K, V, R>(gs: seq<Group<K, V>>, k: K, v: V, f: Group<K, V> -> R)
    ensures var i := Find(gs, k);
            Map(Add(gs, k, v), f) == if i == |gs| then Map(gs, f) + [f(Group(k, [v]))]
                                     else Map(gs, f)[i := f(Group(k, gs[i].items + [v]))]
  {
  }

  /** Index of the first entry whose key is `k`, or `|rs|`: `m.has(k)` / `m.get(k)` on a list of entries. */
  function IndexBy<K(==), R>(rs: seq<R>, rkey: R -> K, k: K): (i: nat)
    ensures i <= |rs|
    ensures i < |rs| ==> rkey(rs[i]) == k
    ensures forall j :: 0 <= j < i ==> rkey(rs[j]) != k
  {
    FindIndex(rs, (r: R) => rkey(r) == k)
  }

  /** With distinct keys, looking a key up in entries that carry their group's key finds its group. */
  lemma IndexByKeys<K, V, R>(gs: seq<Group<K, V>>, rs: seq<R>, rkey: R -> K, k: K)
    requires |rs| == |gs|
    requires forall m :: 0 <= m < |gs| ==> rkey(rs[m]) == gs[m].key
    requires Distinct(Keys(gs))
    ensures IndexBy(rs, rkey, k) == Find(gs, k)
  {
    var i := IndexBy(rs, rkey, k);
    var j := Find(gs, k);
    assert forall m :: 0 <= m < |gs| ==> rkey(rs[m]) == Keys(gs)[m];
    if i < |gs| {
      assert Keys(gs)[i] == k;
    } else {
      assert k !in Keys(gs);
    }
  }

  /** With distinct keys, looking a key up among the views finds its group. */
  lemma IndexByFind<K, V, R>(gs: seq<Group<K, V>>, f: Group<K, V> -> R, rkey: R -> K, k: K)
    requires forall g :: rkey(f(g)) == g.key
    requires Distinct(Keys(gs))
    ensures IndexBy(Map(gs, f), rkey, k) == Find(gs, k)
  {
    var rs := Map(gs, f);
    var i := IndexBy(rs, rkey, k);
    var j := Find(gs, k);
    assert forall m :: 0 <= m < |gs| ==> rkey(rs[m]) == Keys(gs)[m];
    if i < |gs| {
      assert Keys(gs)[i] == k;
    } else {
      assert k !in Keys(gs);
    }
  }
}
