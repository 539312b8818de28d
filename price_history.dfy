/**
  The chart data of the price-history chart: the points of every series are
  pivoted into one row per date, holding each vendor's price on that date, and
  the rows are sorted by date.
 */
module PriceHistory {
  import opened Seqs
  import opened Sorting
  import opened Text
  import opened Groups

  datatype PricePoint = PricePoint(date: string, price: real)

  /** One vendor's line; the brand only colours the chart. */
  datatype Series = Series(vendor: string, brand: string, data: seq<PricePoint>)

  /** A chart row: `{ date, [vendor]: price, ... }`, with the vendors' prices kept apart from the date. */
  datatype Row = Row(date: string, prices: map<string, real>)

  /** One point of one series, as the nested loops meet it. */
  datatype Entry = Entry(vendor: string, date: string, price: real)

  function EntryOf(vendor: string): PricePoint -> Entry {
    (p: PricePoint) => Entry(vendor, p.date, p.price)
  }

  function EntriesOf(s: Series): seq<Entry> {
    Map(s.data, EntryOf(s.vendor))
  }

  /** Every point of every series, series by series. */
  function Flatten(series: seq<Series>): seq<Entry> {
    Concat(Map(series, EntriesOf))
  }

  function DateOf(r: Row): string { r.date }
  function EntryDate(e: Entry): string { e.date }

  // ---------------------------------------------------------------- the map of rows by date

  /** `const row = map.get(p.date) ?? { date: p.date }; row[s.vendor] = p.price; map.set(p.date, row)`. */
  function Upsert(rows: seq<Row>, e: Entry): (r: seq<Row>)
  {
    var at := IndexBy(rows, DateOf, e.date);
    if at == |rows| then rows + [Row(e.date, map[e.vendor := e.price])]
    else rows[at := rows[at].(prices := rows[at].prices[e.vendor := e.price])]
  }

  /** The map's rows, in insertion order, once the entries are processed. */
  function RowsOf(es: seq<Entry>): seq<Row> {
    if es == [] then [] else Upsert(RowsOf(es[..|es| - 1]), es[|es| - 1])
  }

  /** The reference meaning of a row: the prices on date `d`, each vendor's from its last point on `d`. */
  function PricesOn(es: seq<Entry>, d: string): map<string, real> {
    if es == [] then map[]
    else
      var m := PricesOn(es[..|es| - 1], d);
      var e := es[|es| - 1];
      if e.date == d then m[e.vendor := e.price] else m
  }

  /** Strictly ascending by date. */
  predicate Ascending(rows: seq<Row>) {
    forall i, j :: 0 <= i < j < |rows| ==> LexLess(rows[i].date, rows[j].date)
  }

  /** `(a, b) => (a.date < b.date ? -1 : 1)`. */
  function DateCmp(a: Row, b: Row): real {
    if LexLess(a.date, b.date) then -1.0 else 1.0
  }

  /** The chart data `useMemo` computes. */
  function ChartData(series: seq<Series>): seq<Row> {
    SortBy(RowsOf(Flatten(series)), DateCmp)
  }

  // ---------------------------------------------------------------- the loops

  /** The nested loops over the series and their points, then the sort by date. */
  method PivotByDate(series: seq<Series>) returns (data: seq<Row>)
    ensures data == ChartData(series)
    ensures Ascending(data)
  {
    var rows: seq<Row> := [];
    for i := 0 to |series|
      invariant rows == RowsOf(Flatten(series[..i]))
    {
      var s := series[i];
      ghost var before := Flatten(series[..i]);
      assert before + EntriesOf(s)[..0] == before;
      for j := 0 to |s.data|
        invariant rows == RowsOf(before + EntriesOf(s)[..j])
      {
        var p := s.data[j];
        NextPoint(before, s, j, rows);
        ghost var prev := rows;
        var at := IndexBy(rows, DateOf, p.date);
        var row := if at < |rows| then rows[at] else Row(p.date, map[]);
        row := row.(prices := row.prices[s.vendor := p.price]);
        if at < |rows| {
          rows := rows[at := row];
        } else {
          rows := rows + [row];
        }
        UpsertByIndex(prev, Entry(s.vendor, p.date, p.price));
      }
      FlattenSnoc(series, i);
      assert EntriesOf(s)[..|s.data|] == EntriesOf(s);
    }
    assert series[..|series|] == series;
    data := SortBy(rows, DateCmp);
    ChartDataAscending(series);
  }

  /** The state after one more point of series `s`. */
  lemma NextPoint(before: seq<Entry>, s: Series, j: nat, rows: seq<Row>)
    requires j < |s.data| && rows == RowsOf(before + EntriesOf(s)[..j])
    ensures RowsOf(before + EntriesOf(s)[..j + 1]) == Upsert(rows, Entry(s.vendor, s.data[j].date, s.data[j].price))
  {
    var done := before + EntriesOf(s)[..j];
    assert before + EntriesOf(s)[..j + 1] == done + [Entry(s.vendor, s.data[j].date, s.data[j].price)];
    RowsOfSnoc(done, Entry(s.vendor, s.data[j].date, s.data[j].price));
  }

  /** The loop body's update, read off one row at a time, is `Upsert`. */
  lemma UpsertByIndex(rows: seq<Row>, e: Entry)
    ensures var at := IndexBy(rows, DateOf, e.date);
            var row := if at < |rows| then rows[at] else Row(e.date, map[]);
            var row' := row.(prices := row.prices[e.vendor := e.price]);
            Upsert(rows, e) == if at < |rows| then rows[at := row'] else rows + [row']
  {
    assert map[][e.vendor := e.price] == map[e.vendor := e.price];
  }

  lemma RowsOfSnoc(es: seq<Entry>, e: Entry)
    ensures RowsOf(es + [e]) == Upsert(RowsOf(es), e)
  {
    assert (es + [e])[..|es|] == es;
  }

  lemma FlattenSnoc(series: seq<Series>, i: nat)
    requires i < |series|
    ensures Flatten(series[..i + 1]) == Flatten(series[..i]) + EntriesOf(series[i])
  {
    assert Map(series[..i + 1], EntriesOf)[..i] == Map(series[..i], EntriesOf);
  }

  // ---------------------------------------------------------------- what the pivot promises

  /** One row per distinct date, in order of first appearance (before the sort). */
  lemma {:induction false} RowDates(es: seq<Entry>)
    ensures Map(RowsOf(es), DateOf) == Dedup(Map(es, EntryDate))
  {
    if es != [] {
      var init, e := es[..|es| - 1], es[|es| - 1];
      RowDates(init);
      assert es == init + [e];
      MapAppend(init, [e], EntryDate);
      DedupSnoc(Map(init, EntryDate), e.date);
      UpsertDates(RowsOf(init), e);
    }
  }

  /** Upserting adds the entry's date when it is new and keeps the dates otherwise. */
  lemma UpsertDates(rows: seq<Row>, e: Entry)
    ensures Map(Upsert(rows, e), DateOf) == if e.date in Map(rows, DateOf) then Map(rows, DateOf) else Map(rows, DateOf) + [e.date]
  {
    var at := IndexBy(rows, DateOf, e.date);
    if at == |rows| {
      assert e.date !in Map(rows, DateOf) by {
        forall k | 0 <= k < |rows| ensures Map(rows, DateOf)[k] != e.date {
        }
      }
      assert Map(rows + [Row(e.date, map[e.vendor := e.price])], DateOf) == Map(rows, DateOf) + [e.date];
    } else {
      assert Map(rows, DateOf)[at] == e.date;
      var rows' := rows[at := rows[at].(prices := rows[at].prices[e.vendor := e.price])];
      assert Map(rows', DateOf) == Map(rows, DateOf);
    }
  }

  /** No entry on date `d` gives no prices on `d`. */
  lemma {:induction false} PricesOnAbsent(es: seq<Entry>, d: string)
    requires d !in Map(es, EntryDate)
    ensures PricesOn(es, d) == map[]
  {
    if es != [] {
      assert Map(es, EntryDate)[..|es| - 1] == Map(es[..|es| - 1], EntryDate);
      assert Map(es, EntryDate)[|es| - 1] == es[|es| - 1].date;
      PricesOnAbsent(es[..|es| - 1], d);
    }
  }

  /** Every row holds, for each vendor, the price of that vendor's last point on the row's date, and nothing else. */
  predicate PricesHold(rows: seq<Row>, es: seq<Entry>) {
    forall i :: 0 <= i < |rows| ==> rows[i].prices == PricesOn(es, rows[i].date)
  }

  lemma {:induction false} RowPrices(es: seq<Entry>)
    ensures PricesHold(RowsOf(es), es)
  {
    if es != [] {
      var init, e := es[..|es| - 1], es[|es| - 1];
      RowPrices(init);
      RowDates(init);
      var rows := RowsOf(init);
      var r := RowsOf(es);
      var at := IndexBy(rows, DateOf, e.date);
      assert Distinct(Map(rows, DateOf));
      forall i | 0 <= i < |r| ensures r[i].prices == PricesOn(es, r[i].date) {
        if i < |rows| && i != at {
          assert r[i] == rows[i];
          if at < |rows| {
            assert Map(rows, DateOf)[i] != Map(rows, DateOf)[at];
          }
          assert rows[i].date != e.date;
        } else if at == |rows| {
          assert e.date !in Dedup(Map(init, EntryDate)) by {
            forall k | 0 <= k < |rows| ensures Map(rows, DateOf)[k] != e.date {
            }
          }
          PricesOnAbsent(init, e.date);
        }
      }
    }
  }

  /** A vendor has a price on `d` exactly when it has a point on `d`, and the price is that of its last such point. */
  lemma {:induction false} PricesOnLast(es: seq<Entry>, d: string, v: string)
    ensures v in PricesOn(es, d) <==> exists k :: 0 <= k < |es| && es[k].date == d && es[k].vendor == v
    ensures v in PricesOn(es, d) ==>
              exists k :: 0 <= k < |es| && es[k] == Entry(v, d, PricesOn(es, d)[v])
                          && forall k' :: k < k' < |es| ==> !(es[k'].date == d && es[k'].vendor == v)
  {
    if es != [] {
      var init, e := es[..|es| - 1], es[|es| - 1];
      PricesOnLast(init, d, v);
      if e.date == d && e.vendor == v {
        assert es[|es| - 1] == Entry(v, d, PricesOn(es, d)[v]);
      } else {
        assert (v in PricesOn(es, d) <==> v in PricesOn(init, d))
            && (v in PricesOn(es, d) ==> PricesOn(es, d)[v] == PricesOn(init, d)[v]);
        if v in PricesOn(es, d) {
          var k :| 0 <= k < |init| && init[k] == Entry(v, d, PricesOn(init, d)[v])
                   && forall k' :: k < k' < |init| ==> !(init[k'].date == d && init[k'].vendor == v);
          assert es[k] == init[k];
          forall k' | k < k' < |es| ensures !(es[k'].date == d && es[k'].vendor == v) {
            if k' < |init| {
              assert es[k'] == init[k'];
            }
          }
        }
        if exists k :: 0 <= k < |es| && es[k].date == d && es[k].vendor == v {
          var k :| 0 <= k < |es| && es[k].date == d && es[k].vendor == v;
          assert k < |init| && init[k] == es[k];
        }
      }
    }
  }

  /** Inserting a row with a new date into ascending rows keeps them ascending (the comparator never answers 0). */
  lemma {:induction false} InsertAscending(x: Row, rows: seq<Row>)
    requires Ascending(rows)
    requires forall k :: 0 <= k < |rows| ==> rows[k].date != x.date
    ensures Ascending(Insert(x, rows, DateCmp))
  {
    if rows != [] {
      LexTrichotomy(rows[0].date, x.date);
      if DateCmp(rows[0], x) > 0.0 {
        forall k | 0 <= k < |rows| ensures LexLess(x.date, rows[k].date) {
          if k > 0 {
            LexTransitive(x.date, rows[0].date, rows[k].date);
          }
        }
      } else {
        var rest := Insert(x, rows[1..], DateCmp);
        InsertAscending(x, rows[1..]);
        InsertPermutes(x, rows[1..], DateCmp);
        forall k | 0 <= k < |rest| ensures LexLess(rows[0].date, rest[k].date) {
          assert rest[k] in multiset(rows[1..]) + multiset{x};
          if rest[k] != x {
            var m :| 0 <= m < |rows[1..]| && rows[1..][m] == rest[k];
            assert rows[m + 1] == rest[k];
          }
        }
      }
    }
  }

  /** Sorting rows with distinct dates leaves them strictly ascending by date. */
  lemma {:induction false} SortAscending(rows: seq<Row>)
    requires Distinct(Map(rows, DateOf))
    ensures Ascending(SortBy(rows, DateCmp))
  {
    if rows != [] {
      var init, x := rows[..|rows| - 1], rows[|rows| - 1];
      assert Map(rows, DateOf)[..|rows| - 1] == Map(init, DateOf);
      SortAscending(init);
      var sorted := SortBy(init, DateCmp);
      forall k | 0 <= k < |sorted| ensures sorted[k].date != x.date {
        assert sorted[k] in multiset(init);
        var m :| 0 <= m < |init| && init[m] == sorted[k];
        assert Map(rows, DateOf)[m] != Map(rows, DateOf)[|rows| - 1];
      }
      InsertAscending(x, sorted);
    }
  }

  /** The chart rows are strictly ascending by date. */
  lemma ChartDataAscending(series: seq<Series>)
    ensures Ascending(ChartData(series))
  {
    RowDates(Flatten(series));
    SortAscending(RowsOf(Flatten(series)));
  }

  /** Each chart row holds the prices on its date. */
  lemma ChartRowPrices(series: seq<Series>)
    ensures PricesHold(ChartData(series), Flatten(series))
  {
    var es := Flatten(series);
    var rows := RowsOf(es);
    var data := ChartData(series);
    RowPrices(es);
    forall i | 0 <= i < |data| ensures data[i].prices == PricesOn(es, data[i].date) {
      SortByMembers(rows, DateCmp, data[i]);
      var j :| 0 <= j < |rows| && rows[j] == data[i];
      assert rows[j].prices == PricesOn(es, rows[j].date);
    }
  }

  /** The chart has a row for exactly the dates of the points. */
  lemma ChartDates(series: seq<Series>, d: string)
    ensures d in Map(ChartData(series), DateOf) <==> d in Map(Flatten(series), EntryDate)
  {
    var es := Flatten(series);
    RowDates(es);
    SortByMapMembers(RowsOf(es), DateCmp, DateOf, d);
  }

  /** No two chart rows share a date. */
  lemma ChartDatesDistinct(series: seq<Series>)
    ensures Distinct(Map(ChartData(series), DateOf))
  {
    var data := ChartData(series);
    ChartDataAscending(series);
    forall a, b | 0 <= a < b < |data| ensures Map(data, DateOf)[a] != Map(data, DateOf)[b] {
      LexIrreflexive(data[a].date);
    }
  }
}
