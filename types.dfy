/** The records of the dashboard (src/app/lib/types.ts) as datatypes.
    A role is a plain string: the declared union has four roles, but the running code also uses 'admin'.
    JavaScript numbers are `int` where they count things and `real` where they are amounts. */
module Types {
  import opened Wrappers

  type Role = string

  /** The roles the `UserRole` union declares. */
  const DeclaredRoles: set<Role> := {"super_admin", "org_admin", "analyst", "viewer"}

  datatype Organization = Organization(id: string, name: string, industry: string, created_at: string)

  /** A user carries exactly one role. `organization` and `avatar` are the optional fields. */
  datatype User = User(
    id: string,
    organization_id: string,
    organization: Option<Organization>,
    role: Role,
    email: string,
    name: string,
    avatar: Option<string>,
    created_at: string)

  /** `supplier` is the only optional field; stock levels and unit cost are always present. */
  datatype InventoryItem = InventoryItem(
    id: string,
    organization_id: string,
    name: string,
    sku: string,
    category: string,
    current_stock: int,
    reorder_level: int,
    unit_cost: real,
    location: string,
    supplier: Option<string>)

  /** The `type` of a transaction: exactly IN or OUT. */
  datatype TransactionKind = IN | OUT

  datatype InventoryTransaction = InventoryTransaction(
    id: string,
    item_id: string,
    item: Option<InventoryItem>,
    kind: TransactionKind,
    quantity: int,
    cost: real,
    reason: Option<string>,
    created_at: string)

  /** `unit` and `department` are optional; `recorded_at` is an ISO date string. */
  datatype OperationalMetric = OperationalMetric(
    id: string,
    organization_id: string,
    metric_name: string,
    value: real,
    unit: Option<string>,
    department: Option<string>,
    recorded_at: string)

  /** A KPI trend is exactly one of up, down or stable. */
  datatype Trend = Up | Down | Stable

  /** `change` is a percentage change. */
  datatype KPI = KPI(name: string, value: real, unit: string, change: real, trend: Trend)

  datatype ChartDataPoint = ChartDataPoint(date: string, value: real, pointLabel: Option<string>, category: Option<string>)

  datatype AlertKind = LowStock | OutOfStock | Overstock

  datatype Severity = High | Medium | Low

  datatype StockAlert = StockAlert(
    id: string,
    item: InventoryItem,
    kind: AlertKind,
    severity: Severity,
    message: string,
    created_at: string)

  datatype AuditLog = AuditLog(
    id: string,
    user_id: string,
    user: Option<User>,
    action: string,
    resource: string,
    details: string,
    ip_address: Option<string>,
    created_at: string)

  datatype OverviewCharts = OverviewCharts(
    inventory_value: seq<ChartDataPoint>,
    order_fulfillment: seq<ChartDataPoint>,
    operational_efficiency: seq<ChartDataPoint>)

  datatype DashboardOverview = DashboardOverview(
    kpis: seq<KPI>,
    recent_transactions: seq<InventoryTransaction>,
    alerts: seq<StockAlert>,
    charts: OverviewCharts)

  /** 'admin', the role the running code checks for, is not one of the declared roles. */
  lemma AdminIsUndeclared()
    ensures "admin" !in DeclaredRoles
    ensures forall r :: r in DeclaredRoles ==> r != "admin"
  {
  }
}
