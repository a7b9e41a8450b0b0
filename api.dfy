/** The client-side post-processing of src/app/lib/api.ts, once Firestore has returned its documents: the
    inventory search, the department and date-range filters of the operations list, and the dashboard overview.
    The fetched documents, the clock and date parsing are parameters. */
module Api {
  import opened Wrappers
  import opened Types
  import Strings
  import Seqs
  import Inventory

  // ----- inventoryApi.search -----

  /** The lower-cased query occurs in the lower-cased name, SKU or category. */
  predicate SearchMatches(item: InventoryItem, searchQuery: string) {
    var q := Strings.Lower(searchQuery);
    Strings.Contains(Strings.Lower(item.name), q) || Strings.Contains(Strings.Lower(item.sku), q) ||
    Strings.Contains(Strings.Lower(item.category), q)
  }

  /** `search`: exactly the items that match, in the order fetched. */
  function Search(all: seq<InventoryItem>, searchQuery: string): (r: seq<InventoryItem>)
    ensures forall i :: 0 <= i < |r| ==> r[i] in all && SearchMatches(r[i], searchQuery)
    ensures forall i :: 0 <= i < |all| && SearchMatches(all[i], searchQuery) ==> all[i] in r
  {
    Seqs.Filter(all, item => SearchMatches(item, searchQuery))
  }

  /** An empty query keeps every item, and the search keeps the fetched order. */
  lemma SearchEmptyAndOrder(all: seq<InventoryItem>, more: seq<InventoryItem>, searchQuery: string)
    ensures Search(all, "") == all
    ensures Search(all + more, searchQuery) == Search(all, searchQuery) + Search(more, searchQuery)
  {
    forall i | 0 <= i < |all|
      ensures SearchMatches(all[i], "")
    {
      assert Strings.Lower("") == "";
      Strings.ContainsEmpty(Strings.Lower(all[i].name));
    }
    Seqs.FilterAll(all, item => SearchMatches(item, ""));
    Seqs.FilterAppend(all, more, item => SearchMatches(item, searchQuery));
  }

  /** The search of the API matches more than the Inventory page's: it also looks at the category. */
  lemma PageSearchImpliesApiSearch(item: InventoryItem, query: string)
    ensures Inventory.MatchesSearch(item, query) ==> SearchMatches(item, query)
  {
  }

  // ----- operationsApi.getAll -----

  /** One day in milliseconds. */
  const DayMs: int := 24 * 60 * 60 * 1000

  datatype MetricFilters = MetricFilters(department: Option<string>, dateRange: Option<string>)

  /** `filters?.department && filters.department !== 'all'`: a non-empty department other than 'all'. */
  predicate DepartmentApplies(filters: Option<MetricFilters>) {
    filters.Some? && filters.value.department.Some? && filters.value.department.value != "" &&
    filters.value.department.value != "all"
  }

  /** `filters?.dateRange && filters.dateRange !== 'all'`. */
  predicate DateRangeApplies(filters: Option<MetricFilters>) {
    filters.Some? && filters.value.dateRange.Some? && filters.value.dateRange.value != "" &&
    filters.value.dateRange.value != "all"
  }

  /** `fromDate`: 7, 30 or 90 days before `now`; any other range gives the epoch. */
  function CutOff(range: string, now: int): (from: int)
    ensures range == "7d" ==> from == now - 7 * 86400000
    ensures range == "30d" ==> from == now - 30 * 86400000
    ensures range == "90d" ==> from == now - 90 * 86400000
    ensures range !in {"7d", "30d", "90d"} ==> from == 0
  {
    if range == "7d" then now - 7 * DayMs
    else if range == "30d" then now - 30 * DayMs
    else if range == "90d" then now - 90 * DayMs
    else 0
  }

  /** `new Date(r.recorded_at) >= fromDate`; an unparseable date is NaN and fails the comparison. */
  predicate RecordedSince(m: OperationalMetric, from: int, parse: string -> Option<int>) {
    parse(m.recorded_at).Some? && parse(m.recorded_at).value >= from
  }

  /** Whether a record survives both filters. */
  predicate Kept(m: OperationalMetric, filters: Option<MetricFilters>, now: int, parse: string -> Option<int>) {
    && (DepartmentApplies(filters) ==> m.department == Some(filters.value.department.value))
    && (DateRangeApplies(filters) ==> RecordedSince(m, CutOff(filters.value.dateRange.value, now), parse))
  }

  function KeptBy(filters: Option<MetricFilters>, now: int, parse: string -> Option<int>): OperationalMetric -> bool {
    (m: OperationalMetric) => Kept(m, filters, now, parse)
  }

  function InDepartment(department: string): OperationalMetric -> bool {
    (m: OperationalMetric) => m.department == Some(department)
  }

  function Since(from: int, parse: string -> Option<int>): OperationalMetric -> bool {
    (m: OperationalMetric) => RecordedSince(m, from, parse)
  }

  /** `getAll` after the fetch: the department filter, then the date filter, each only when it applies.
      The result is the fetched list with exactly the records that pass both, in the fetched order. */
  method GetAll(fetched: seq<OperationalMetric>, filters: Option<MetricFilters>, now: int, parse: string -> Option<int>)
    returns (results: seq<OperationalMetric>)
    ensures results == Seqs.Filter(fetched, KeptBy(filters, now, parse))
    ensures forall i :: 0 <= i < |results| ==> results[i] in fetched && Kept(results[i], filters, now, parse)
    ensures forall i :: 0 <= i < |fetched| && Kept(fetched[i], filters, now, parse) ==> fetched[i] in results
    ensures !DepartmentApplies(filters) && !DateRangeApplies(filters) ==> results == fetched
  {
    results := fetched;
    if DepartmentApplies(filters) {
      results := Seqs.Filter(results, InDepartment(filters.value.department.value));
    }
    if DateRangeApplies(filters) {
      results := Seqs.Filter(results, Since(CutOff(filters.value.dateRange.value, now), parse));
    }
    ghost var keep := KeptBy(filters, now, parse);
    if DepartmentApplies(filters) && DateRangeApplies(filters) {
      var dept, since := InDepartment(filters.value.department.value), Since(CutOff(filters.value.dateRange.value, now), parse);
      Seqs.FilterFilter(fetched, dept, since, keep);
    } else if DepartmentApplies(filters) {
      Seqs.FilterSame(fetched, InDepartment(filters.value.department.value), keep);
    } else if DateRangeApplies(filters) {
      Seqs.FilterSame(fetched, Since(CutOff(filters.value.dateRange.value, now), parse), keep);
    } else {
      Seqs.FilterAll(fetched, keep);
    }
  }

  // ----- dashboardApi.getOverview -----

  /** `current_stock <= reorder_level`. */
  predicate IsLowStock(item: InventoryItem) {
    item.current_stock <= item.reorder_level
  }

  function LowStockCount(items: seq<InventoryItem>): nat {
    |Seqs.Filter(items, IsLowStock)|
  }

  /** `reduce((sum, item) => sum + item.current_stock * item.unit_cost, 0)`. */
  function TotalValue(items: seq<InventoryItem>): real
    decreases |items|
  {
    if items == [] then 0.0 else TotalValue(items[..|items| - 1]) + items[|items| - 1].current_stock as real * items[|items| - 1].unit_cost
  }

  /** `reduce((sum, op) => sum + (op.value || 0), 0)`. */
  function ValueSum(ops: seq<OperationalMetric>): real
    decreases |ops|
  {
    if ops == [] then 0.0 else ValueSum(ops[..|ops| - 1]) + ops[|ops| - 1].value
  }

  /** `Math.round(x * 100) / 100`, where `Math.round` rounds halves up. */
  function RoundHundredths(x: real): real {
    ((x * 100.0 + 0.5).Floor as real) / 100.0
  }

  /** The four KPIs of the overview. */
  function OverviewKPIs(inventory: seq<InventoryItem>, operations: seq<OperationalMetric>): seq<KPI> {
    var totalItems := |inventory|;
    var lowStockItems := LowStockCount(inventory);
    var avgEfficiency := if |operations| > 0 then ValueSum(operations) / (|operations| as real) else 0.0;
    [
      KPI("Total Inventory Items", totalItems as real, "items", 0.0, Stable),
      KPI("Inventory Value", TotalValue(inventory), "$", 0.0, Up),
      KPI("Low Stock Alerts", lowStockItems as real, "items", 0.0, if lowStockItems > 0 then Down else Stable),
      KPI("Avg Efficiency", RoundHundredths(avgEfficiency), "%", 0.0, Up)
    ]
  }

  /** `getOverview` on the fetched documents: the four KPIs, and empty lists everywhere else. */
  function GetOverview(inventory: seq<InventoryItem>, operations: seq<OperationalMetric>): DashboardOverview {
    DashboardOverview(OverviewKPIs(inventory, operations), [], [], OverviewCharts([], [], []))
  }

  /** The item total is the number of items; the low-stock count is the number of items at or below their
      reorder level, never more than the total; its trend is down exactly when that count is positive.
      Without operation records the efficiency is 0, and the overview carries no transactions or alerts. */
  lemma OverviewCounts(inventory: seq<InventoryItem>, operations: seq<OperationalMetric>)
    ensures var kpis := GetOverview(inventory, operations).kpis;
      && |kpis| == 4
      && kpis[0].value == |inventory| as real
      && kpis[2].value == LowStockCount(inventory) as real
      && LowStockCount(inventory) <= |inventory|
      && (kpis[2].trend == Down <==> exists i :: 0 <= i < |inventory| && IsLowStock(inventory[i]))
      && (kpis[2].trend == Stable <==> LowStockCount(inventory) == 0)
      && kpis[1].value == TotalValue(inventory)
      && (operations == [] ==> kpis[3].value == 0.0)
    ensures GetOverview(inventory, operations).recent_transactions == [] && GetOverview(inventory, operations).alerts == []
  {
    var low := Seqs.Filter(inventory, IsLowStock);
    if exists i :: 0 <= i < |inventory| && IsLowStock(inventory[i]) {
      var i :| 0 <= i < |inventory| && IsLowStock(inventory[i]);
      assert inventory[i] in low;
    }
    if |low| > 0 {
      assert low[0] in inventory;
    }
  }

  /** For a positive reorder level, an item counts as low stock exactly when the Inventory page shows it as
      Critical or Low. */
  lemma LowStockMatchesStatus(item: InventoryItem)
    requires item.reorder_level > 0
    ensures IsLowStock(item) <==> Inventory.GetStockStatus(item.current_stock, item.reorder_level) != Inventory.Normal
  {
    Inventory.StockStatusThresholds(item.current_stock, item.reorder_level);
  }
}
