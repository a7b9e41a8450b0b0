/** The Operations page of src/app/pages/Operations.tsx: the KPI whitelist, the department list and the
    department filter over the metrics. */
module Operations {
  import opened Wrappers
  import opened Types
  import Seqs

  /** The KPI names the page shows. */
  const OperationsKPINames: seq<string> := ["Order Fulfillment Rate", "Average Lead Time", "Operational Efficiency", "Average Downtime"]

  /** `operationsKPIs`: exactly the KPIs with one of the four names, in their original order. */
  function OperationsKPIs(kpis: seq<KPI>): (r: seq<KPI>)
    ensures forall i :: 0 <= i < |r| ==> r[i] in kpis && r[i].name in OperationsKPINames
    ensures forall i :: 0 <= i < |kpis| && kpis[i].name in OperationsKPINames ==> kpis[i] in r
  {
    Seqs.Filter(kpis, (k: KPI) => k.name in OperationsKPINames)
  }

  /** The whitelist keeps the KPIs' order. */
  lemma OperationsKPIsKeepOrder(a: seq<KPI>, b: seq<KPI>)
    ensures OperationsKPIs(a + b) == OperationsKPIs(a) + OperationsKPIs(b)
  {
    Seqs.FilterAppend(a, b, (k: KPI) => k.name in OperationsKPINames);
  }

  /** `metrics.map(m => m.department).filter(Boolean)`: the departments that are present and non-empty, in order. */
  function PresentDepartments(metrics: seq<OperationalMetric>): (r: seq<string>)
    ensures forall j :: 0 <= j < |r| ==>
      (r[j] != "" && exists i :: 0 <= i < |metrics| && metrics[i].department == Some(r[j]))
    ensures forall i :: 0 <= i < |metrics| && metrics[i].department.Some? && metrics[i].department.value != "" ==>
      metrics[i].department.value in r
    decreases |metrics|
  {
    if metrics == [] then []
    else
      var d := metrics[0].department;
      var rest := PresentDepartments(metrics[1..]);
      assert forall j :: 0 <= j < |rest| ==> exists i :: 0 <= i < |metrics| && metrics[i].department == Some(rest[j]) by {
        forall j | 0 <= j < |rest|
          ensures exists i :: 0 <= i < |metrics| && metrics[i].department == Some(rest[j])
        {
          var i :| 0 <= i < |metrics[1..]| && metrics[1..][i].department == Some(rest[j]);
          assert metrics[i + 1].department == Some(rest[j]);
        }
      }
      (if d.Some? && d.value != "" then [d.value] else []) + rest
  }

  /** `departments`: 'all', then each present department once. */
  function Departments(metrics: seq<OperationalMetric>): (r: seq<string>)
    ensures |r| >= 1 && r[0] == "all"
    ensures Seqs.NoDuplicates(r[1..])
    ensures forall j :: 1 <= j < |r| ==>
      (r[j] != "" && exists i :: 0 <= i < |metrics| && metrics[i].department == Some(r[j]))
    ensures forall i :: 0 <= i < |metrics| && metrics[i].department.Some? && metrics[i].department.value != "" ==>
      metrics[i].department.value in r[1..]
  {
    var present := PresentDepartments(metrics);
    var distinct := Seqs.Distinct(present);
    assert (["all"] + distinct)[1..] == distinct;
    ["all"] + distinct
  }

  /** The departments after 'all' come in the order of their first occurrence. */
  lemma DepartmentsFirstSeen(metrics: seq<OperationalMetric>)
    ensures var r := Departments(metrics)[1..];
      forall i, j :: 0 <= i < j < |r| ==>
        Seqs.FirstIndex(PresentDepartments(metrics), r[i]) < Seqs.FirstIndex(PresentDepartments(metrics), r[j])
  {
    Seqs.DistinctFirstSeen(PresentDepartments(metrics));
    assert Departments(metrics)[1..] == Seqs.Distinct(PresentDepartments(metrics));
  }

  /** The department filter of the metrics list. */
  predicate InDepartment(m: OperationalMetric, department: string) {
    department == "all" || m.department == Some(department)
  }

  /** The metrics listed for a department: on 'all' every metric, otherwise exactly those whose department equals
      it; a metric without a department is then hidden. */
  function DepartmentMetrics(metrics: seq<OperationalMetric>, department: string): (r: seq<OperationalMetric>)
    ensures forall i :: 0 <= i < |r| ==> r[i] in metrics && InDepartment(r[i], department)
    ensures forall i :: 0 <= i < |metrics| && InDepartment(metrics[i], department) ==> metrics[i] in r
    ensures department != "all" ==> forall i :: 0 <= i < |r| ==> r[i].department == Some(department)
  {
    Seqs.Filter(metrics, m => InDepartment(m, department))
  }

  /** On 'all' the list is the metrics themselves. */
  lemma AllDepartmentsShowsAll(metrics: seq<OperationalMetric>)
    ensures DepartmentMetrics(metrics, "all") == metrics
  {
    Seqs.FilterAll(metrics, m => InDepartment(m, "all"));
  }

  /** The department filter never reorders the metrics. */
  lemma DepartmentMetricsKeepOrder(a: seq<OperationalMetric>, b: seq<OperationalMetric>, department: string)
    ensures DepartmentMetrics(a + b, department) == DepartmentMetrics(a, department) + DepartmentMetrics(b, department)
  {
    Seqs.FilterAppend(a, b, m => InDepartment(m, department));
  }
}
