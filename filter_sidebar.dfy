/**
  The filter panel of the catalogue page: the filter state, the set toggles of
  its checkbox lists, the search and in-stock setters, the "any filter active"
  test that enables the reset button, and the range sliders.
 */
module FilterSidebar {
  import opened Wrappers
  import opened Seqs
  import opened Sorting
  import opened Facets

  /** The filters; `None` is an unset (`undefined`) bound. */
  datatype FilterState = FilterState(
    brands: seq<string>,
    generations: seq<string>,
    series: seq<string>,
    vendors: seq<string>,
    search: string,
    inStockOnly: bool,
    minPrice: Option<real>,
    maxPrice: Option<real>,
    minBaseClockGHz: Option<real>,
    maxBaseClockGHz: Option<real>,
    minTdpW: Option<real>,
    maxTdpW: Option<real>,
    cores: seq<real>,
    threads: seq<real>)

  /** The state the page starts in and `resetAll` restores: nothing selected, nothing bounded. */
  function InitialFilters(): FilterState {
    FilterState([], [], [], [], "", false, None, None, None, None, None, None, [], [])
  }

  // ---------------------------------------------------------------- toggle and toggleNum

  /** The string lists `toggle` is used on. */
  datatype ListKey = Brands | Generations | Series | Vendors

  function Selected(v: FilterState, key: ListKey): seq<string> {
    match key
    case Brands => v.brands
    case Generations => v.generations
    case Series => v.series
    case Vendors => v.vendors
  }

  /** `{ ...value, [key]: xs }`. */
  function WithSelected(v: FilterState, key: ListKey, xs: seq<string>): (r: FilterState)
    ensures Selected(r, key) == xs
    ensures forall k :: k != key ==> Selected(r, k) == Selected(v, k)
  {
    match key
    case Brands => v.(brands := xs)
    case Generations => v.(generations := xs)
    case Series => v.(series := xs)
    case Vendors => v.(vendors := xs)
  }

  /** `set.delete(x)` on the array of a set. */
  function Remove<T(==,!new)>(xs: seq<T>, x: T): (r: seq<T>)
    ensures forall y :: y in r <==> y in xs && y != x
  {
    var other := (y: T) => y != x;
    FilterMembers(xs, other);
    Filter(xs, other)
  }

  /**
    `new Set(xs)`, then `delete(x)` when present and `add(x)` otherwise, read
    back in insertion order: `x` flips membership, nothing else does, and no
    value is repeated.
   */
  function SetToggle<T(==,!new)>(xs: seq<T>, x: T): (r: seq<T>)
    ensures Distinct(r)
    ensures x in r <==> x !in xs
    ensures forall y :: y != x ==> (y in r <==> y in xs)
  {
    var d := Dedup(xs);
    assert forall y :: y in d <==> y in xs;
    if x in d then
      FilterDistinct(d, y => y != x);
      Remove(d, x)
    else d + [x]
  }

  /** Toggling twice restores the set of selected values. */
  lemma ToggleTwiceSameSet<T(!new)>(xs: seq<T>, x: T)
    ensures forall y :: y in SetToggle(SetToggle(xs, x), x) <==> y in xs
  {
  }

  /** On a duplicate-free list without `x`, toggling twice restores the list itself. */
  lemma {:induction false} ToggleTwiceAbsent<T(!new)>(xs: seq<T>, x: T)
    requires Distinct(xs) && x !in xs
    ensures SetToggle(SetToggle(xs, x), x) == xs
  {
    DedupDistinct(xs);
    var once := xs + [x];
    assert SetToggle(xs, x) == once;
    DedupDistinct(once);
    FilterAppendOne(xs, x, y => y != x);
    FilterAll(xs, y => y != x);
  }

  /** `toggle`: flip one value of one checkbox list; every other field is kept. */
  method Toggle(value: FilterState, key: ListKey, item: string) returns (next: FilterState)
    ensures Selected(next, key) == SetToggle(Selected(value, key), item)
    ensures WithSelected(next, key, Selected(value, key)) == value
  {
    var arr := Dedup(Selected(value, key));
    if item in arr {
      arr := Remove(arr, item);
    } else {
      arr := arr + [item];
    }
    next := WithSelected(value, key, arr);
  }

  /** The number lists `toggleNum` is used on. */
  datatype NumKey = Cores | Threads

  function SelectedNums(v: FilterState, key: NumKey): seq<real> {
    match key
    case Cores => v.cores
    case Threads => v.threads
  }

  /** `Array.from(set).sort((a, b) => a - b)` after the toggle: the toggled set, increasing. */
  function NumToggle(xs: seq<real>, n: real): (r: seq<real>)
    ensures forall i, j :: 0 <= i < j < |r| ==> r[i] < r[j]
    ensures n in r <==> n !in xs
    ensures forall y :: y != n ==> (y in r <==> y in xs)
  {
    var t := SetToggle(xs, n);
    var r := SortBy(t, NumCmp);
    NumCmpPreorder();
    SortBySorted(t, NumCmp);
    DistinctByMultiset(t, r);
    forall y ensures y in r <==> y in t { SortByMembers(t, NumCmp, y); }
    StrictlySorted(r, NumCmp);
    r
  }

  /** `toggleNum`: flip one value of the cores or threads list and keep it sorted. */
  method ToggleNum(value: FilterState, key: NumKey, n: real) returns (next: FilterState)
    ensures SelectedNums(next, key) == NumToggle(SelectedNums(value, key), n)
    ensures key == Cores ==> next.(cores := value.cores) == value
    ensures key == Threads ==> next.(threads := value.threads) == value
  {
    var members := Dedup(SelectedNums(value, key));
    if n in members {
      members := Remove(members, n);
    } else {
      members := members + [n];
    }
    var sorted := SortBy(members, NumCmp);
    next := if key == Cores then value.(cores := sorted) else value.(threads := sorted);
  }

  // ---------------------------------------------------------------- the other handlers

  /** `setSearch`: only the search text changes. */
  function SetSearch(v: FilterState, s: string): (r: FilterState)
    ensures r.search == s && r.(search := v.search) == v
  {
    v.(search := s)
  }

  /** `setInStock`: only the in-stock flag changes. */
  function SetInStock(v: FilterState, checked: bool): (r: FilterState)
    ensures r.inStockOnly == checked && r.(inStockOnly := v.inStockOnly) == v
  {
    v.(inStockOnly := checked)
  }

  /** `hasActiveFilters`: some list is non-empty, search is non-empty, in-stock is on or a bound is set. */
  function HasActiveFilters(v: FilterState): (active: bool)
    ensures !active <==> v == InitialFilters()
  {
    || |v.brands| > 0 || |v.generations| > 0 || |v.series| > 0 || |v.vendors| > 0
    || v.search != []
    || v.inStockOnly
    || v.minPrice != None || v.maxPrice != None
    || v.minBaseClockGHz != None || v.maxBaseClockGHz != None
    || v.minTdpW != None || v.maxTdpW != None
    || |v.cores| > 0 || |v.threads| > 0
  }

  /** The three range sliders. */
  datatype Dimension = Price | BaseClock | Tdp

  /** A slider's `onValueChange([min, max])`: both bounds of its dimension are set, nothing else changes. */
  function SetRange(v: FilterState, dim: Dimension, lo: real, hi: real): (r: FilterState)
    ensures HasActiveFilters(r)
    ensures dim == Price ==> r.minPrice == Some(lo) && r.maxPrice == Some(hi)
                             && r.(minPrice := v.minPrice, maxPrice := v.maxPrice) == v
    ensures dim == BaseClock ==> r.minBaseClockGHz == Some(lo) && r.maxBaseClockGHz == Some(hi)
                                 && r.(minBaseClockGHz := v.minBaseClockGHz, maxBaseClockGHz := v.maxBaseClockGHz) == v
    ensures dim == Tdp ==> r.minTdpW == Some(lo) && r.maxTdpW == Some(hi)
                           && r.(minTdpW := v.minTdpW, maxTdpW := v.maxTdpW) == v
  {
    match dim
    case Price => v.(minPrice := Some(lo), maxPrice := Some(hi))
    case BaseClock => v.(minBaseClockGHz := Some(lo), maxBaseClockGHz := Some(hi))
    case Tdp => v.(minTdpW := Some(lo), maxTdpW := Some(hi))
  }

  /** The slider's full range: the catalogue's price bounds, 0.5 to 6 GHz, or 15 to 300 W. */
  function FullRange(dim: Dimension, priceRange: (real, real)): (real, real) {
    match dim
    case Price => priceRange
    case BaseClock => (0.5, 6.0)
    case Tdp => (15.0, 300.0)
  }

  /** The slider's displayed position: each unset bound shows the range endpoint. */
  function Shown(v: FilterState, dim: Dimension, priceRange: (real, real)): (real, real) {
    var (lo, hi) := match dim
      case Price => (v.minPrice, v.maxPrice)
      case BaseClock => (v.minBaseClockGHz, v.maxBaseClockGHz)
      case Tdp => (v.minTdpW, v.maxTdpW);
    var full := FullRange(dim, priceRange);
    (lo.GetOr(full.0), hi.GetOr(full.1))
  }

  /** Moving a slider shows exactly the chosen bounds; with no bound set it shows the full range. */
  lemma SliderShows(v: FilterState, dim: Dimension, priceRange: (real, real), lo: real, hi: real)
    ensures Shown(SetRange(v, dim, lo, hi), dim, priceRange) == (lo, hi)
    ensures Shown(InitialFilters(), dim, priceRange) == FullRange(dim, priceRange)
  {
  }
}
