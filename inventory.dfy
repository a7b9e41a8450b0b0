/** The Inventory page of src/app/pages/Inventory.tsx: the search and filter over the items, the distinct
    categories and locations, and the stock status of an item. */
module Inventory {
  import opened Types
  import Strings
  import Seqs

  /** The name or the SKU contains the query, ignoring case. */
  predicate MatchesSearch(item: InventoryItem, query: string) {
    Strings.ContainsIgnoringCase(item.name, query) || Strings.ContainsIgnoringCase(item.sku, query)
  }

  /** The three conditions an item must meet to stay in the table. */
  predicate Keeps(item: InventoryItem, query: string, category: string, location: string) {
    && MatchesSearch(item, query)
    && (category == "all" || item.category == category)
    && (location == "all" || item.location == location)
  }

  /** `filteredItems`: exactly the items that meet all three conditions. */
  function FilteredItems(items: seq<InventoryItem>, query: string, category: string, location: string): (r: seq<InventoryItem>)
    ensures |r| <= |items|
    ensures forall i :: 0 <= i < |r| ==> r[i] in items && Keeps(r[i], query, category, location)
    ensures forall i :: 0 <= i < |items| && Keeps(items[i], query, category, location) ==> items[i] in r
  {
    Seqs.Filter(items, item => Keeps(item, query, category, location))
  }

  /** The filter keeps the items' order: filtering a concatenation is concatenating the filtered parts. */
  lemma FilteredItemsKeepOrder(a: seq<InventoryItem>, b: seq<InventoryItem>, query: string, category: string, location: string)
    ensures FilteredItems(a + b, query, category, location) ==
            FilteredItems(a, query, category, location) + FilteredItems(b, query, category, location)
  {
    Seqs.FilterAppend(a, b, item => Keeps(item, query, category, location));
  }

  /** The initial state of the page, an empty search with both filters on 'all', shows every item. */
  lemma InitialFilterShowsAll(items: seq<InventoryItem>)
    ensures FilteredItems(items, "", "all", "all") == items
  {
    forall i | 0 <= i < |items|
      ensures Keeps(items[i], "", "all", "all")
    {
      Strings.ContainsEmpty(Strings.Lower(items[i].name));
      assert Strings.Lower("") == "";
    }
    Seqs.FilterAll(items, item => Keeps(item, "", "all", "all"));
  }

  function CategoryColumn(items: seq<InventoryItem>): (r: seq<string>)
    ensures |r| == |items| && forall i :: 0 <= i < |items| ==> r[i] == items[i].category
  {
    seq(|items|, i requires 0 <= i < |items| => items[i].category)
  }

  function LocationColumn(items: seq<InventoryItem>): (r: seq<string>)
    ensures |r| == |items| && forall i :: 0 <= i < |items| ==> r[i] == items[i].location
  {
    seq(|items|, i requires 0 <= i < |items| => items[i].location)
  }

  /** `[...new Set(items.map(item => item.category))]`: each category once, exactly those present. */
  function Categories(items: seq<InventoryItem>): (r: seq<string>)
    ensures Seqs.NoDuplicates(r)
    ensures forall i :: 0 <= i < |items| ==> items[i].category in r
    ensures forall j :: 0 <= j < |r| ==> exists i :: 0 <= i < |items| && items[i].category == r[j]
  {
    Seqs.Distinct(CategoryColumn(items))
  }

  /** `[...new Set(items.map(item => item.location))]`: each location once, exactly those present. */
  function Locations(items: seq<InventoryItem>): (r: seq<string>)
    ensures Seqs.NoDuplicates(r)
    ensures forall i :: 0 <= i < |items| ==> items[i].location in r
    ensures forall j :: 0 <= j < |r| ==> exists i :: 0 <= i < |items| && items[i].location == r[j]
  {
    Seqs.Distinct(LocationColumn(items))
  }

  /** The categories and locations come in the order in which they first occur among the items. */
  lemma ColumnsFirstSeen(items: seq<InventoryItem>)
    ensures forall i, j :: 0 <= i < j < |Categories(items)| ==>
      Seqs.FirstIndex(CategoryColumn(items), Categories(items)[i]) < Seqs.FirstIndex(CategoryColumn(items), Categories(items)[j])
    ensures forall i, j :: 0 <= i < j < |Locations(items)| ==>
      Seqs.FirstIndex(LocationColumn(items), Locations(items)[i]) < Seqs.FirstIndex(LocationColumn(items), Locations(items)[j])
  {
    Seqs.DistinctFirstSeen(CategoryColumn(items));
    Seqs.DistinctFirstSeen(LocationColumn(items));
  }

  datatype StockStatus = Critical | Low | Normal {
    function Label(): string {
      match this
      case Critical => "Critical"
      case Low => "Low"
      case Normal => "Normal"
    }

    function Variant(): string {
      match this
      case Critical => "destructive"
      case Low => "secondary"
      case Normal => "default"
    }

    /** 2 for Critical, 1 for Low, 0 for Normal. */
    function Rank(): nat {
      match this
      case Critical => 2
      case Low => 1
      case Normal => 0
    }
  }

  /** `getStockStatus`: `percentage = (current / reorder) * 100`, Critical at most 50, Low at most 100.
      With a reorder level of 0 the division gives Infinity (Normal), NaN (Normal: every comparison fails) or
      -Infinity (Critical), by the sign of the stock. */
  function GetStockStatus(current: int, reorder: int): StockStatus {
    if reorder == 0 then (if current < 0 then Critical else Normal)
    else
      var percentage := (current as real / reorder as real) * 100.0;
      if percentage <= 50.0 then Critical
      else if percentage <= 100.0 then StockStatus.Low
      else Normal
  }

  /** For a positive reorder level the thresholds are integer comparisons: Critical iff the stock is at most half
      the level, Low iff above half and at most the level (so a stock exactly at the level is Low), else Normal. */
  lemma StockStatusThresholds(current: int, reorder: int)
    requires reorder > 0
    ensures GetStockStatus(current, reorder) == Critical <==> 2 * current <= reorder
    ensures GetStockStatus(current, reorder) == StockStatus.Low <==> reorder < 2 * current && current <= reorder
    ensures GetStockStatus(current, reorder) == Normal <==> reorder < current
  {
    var c, r := current as real, reorder as real;
    var percentage := (c / r) * 100.0;
    assert percentage * r == c * 100.0;
    assert (percentage - 50.0) * r == c * 100.0 - 50.0 * r;
    assert (percentage - 100.0) * r == c * 100.0 - 100.0 * r;
    PositiveFactor(percentage - 50.0, r);
    PositiveFactor(percentage - 100.0, r);
  }

  /** With the reorder level fixed and not negative, more stock never gives a more severe status. */
  lemma StockStatusMonotone(c1: int, c2: int, reorder: int)
    requires reorder >= 0 && c1 <= c2
    ensures GetStockStatus(c2, reorder).Rank() <= GetStockStatus(c1, reorder).Rank()
  {
    if reorder > 0 {
      StockStatusThresholds(c1, reorder);
      StockStatusThresholds(c2, reorder);
    }
  }

  /** For a negative reorder level the division flips the comparisons: Critical iff twice the stock is at least
      the level, Low iff the stock is at least the level and twice it is below, Normal iff the stock is below the
      level. More stock then gives a MORE severe status. */
  lemma NegativeReorderThresholds(current: int, reorder: int)
    requires reorder < 0
    ensures GetStockStatus(current, reorder) == Critical <==> reorder <= 2 * current
    ensures GetStockStatus(current, reorder) == StockStatus.Low <==> reorder <= current && 2 * current < reorder
    ensures GetStockStatus(current, reorder) == Normal <==> current < reorder
  {
    var c, r := current as real, reorder as real;
    var percentage := (c / r) * 100.0;
    assert percentage * r == c * 100.0;
    assert (percentage - 50.0) * r == c * 100.0 - 50.0 * r;
    assert (percentage - 100.0) * r == c * 100.0 - 100.0 * r;
    NegativeFactor(percentage - 50.0, r);
    NegativeFactor(percentage - 100.0, r);
  }

  /** Multiplying by a positive number keeps "at most zero". */
  lemma PositiveFactor(x: real, r: real)
    requires r > 0.0
    ensures x <= 0.0 <==> x * r <= 0.0
  {
    if x > 0.0 { assert x * r > 0.0; }
  }

  /** Multiplying by a negative number turns "at most zero" into "at least zero". */
  lemma NegativeFactor(x: real, r: real)
    requires r < 0.0
    ensures x <= 0.0 <==> x * r >= 0.0
  {
    if x > 0.0 { assert x * r < 0.0 by { assert x * (-r) > 0.0; } }
  }

  /** The badge of a row: its text and its variant name each pick out exactly one band of the stock, for a
      positive reorder level. */
  lemma StockBadge(current: int, reorder: int)
    requires reorder > 0
    ensures var status := GetStockStatus(current, reorder);
      && (status.Label() == "Critical" <==> 2 * current <= reorder)
      && (status.Label() == "Low" <==> reorder < 2 * current && current <= reorder)
      && (status.Label() == "Normal" <==> reorder < current)
      && (status.Variant() == "destructive" <==> 2 * current <= reorder)
      && (status.Variant() == "secondary" <==> reorder < 2 * current && current <= reorder)
      && (status.Variant() == "default" <==> reorder < current)
  {
    StockStatusThresholds(current, reorder);
  }
}
