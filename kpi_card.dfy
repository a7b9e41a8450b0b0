/** The KPI card of src/app/components/dashboard/KPICard.tsx: which trend icon it shows, in which colour,
    and the sign in front of the change. */
module KPICard {
  import opened Types
  import Api

  datatype TrendIcon = TrendingUp | TrendingDown | Minus

  /** `text-green-600`, `text-red-600` and `text-gray-600`. */
  datatype Tone = Green | Red | Gray {
    function ClassName(): string {
      match this
      case Green => "text-green-600"
      case Red => "text-red-600"
      case Gray => "text-gray-600"
    }
  }

  /** The icon follows the trend alone, one icon per trend. */
  function Icon(kpi: KPI): (icon: TrendIcon)
    ensures icon == TrendingUp <==> kpi.trend == Up
    ensures icon == TrendingDown <==> kpi.trend == Down
    ensures icon == Minus <==> kpi.trend == Stable
  {
    match kpi.trend
    case Up => TrendingUp
    case Down => TrendingDown
    case Stable => Minus
  }

  /** Green only for a rising trend with a positive change, red only for a falling trend with a negative
      change, grey for everything else. */
  function Color(kpi: KPI): (tone: Tone)
    ensures tone == Green <==> kpi.trend == Up && kpi.change > 0.0
    ensures tone == Red <==> kpi.trend == Down && kpi.change < 0.0
    ensures tone == Gray <==> !(kpi.trend == Up && kpi.change > 0.0) && !(kpi.trend == Down && kpi.change < 0.0)
  {
    if kpi.trend == Up && kpi.change > 0.0 then Green
    else if kpi.trend == Down && kpi.change < 0.0 then Red
    else Gray
  }

  /** A `+` in front of a positive change and nothing otherwise; a negative change carries its own sign. */
  function ChangePrefix(kpi: KPI): (prefix: string)
    ensures prefix == "+" <==> kpi.change > 0.0
    ensures prefix == "" <==> kpi.change <= 0.0
  {
    if kpi.change > 0.0 then "+" else ""
  }

  /** What the card draws, apart from the number formatting. */
  datatype CardView = CardView(title: string, icon: TrendIcon, iconClass: string, value: real, unit: string,
                               changePrefix: string, change: real, changeClass: string)

  function Card(kpi: KPI): CardView {
    var tone := Color(kpi);
    CardView(kpi.name, Icon(kpi), tone.ClassName(), kpi.value, kpi.unit, ChangePrefix(kpi), kpi.change, tone.ClassName())
  }

  /** The colour never contradicts the icon: green goes with the rising icon, red with the falling one, and
      the icon and the change line always share one colour. */
  lemma ColorAgreesWithIcon(kpi: KPI)
    ensures Color(kpi) == Green ==> Card(kpi).icon == TrendingUp
    ensures Color(kpi) == Red ==> Card(kpi).icon == TrendingDown
    ensures Card(kpi).iconClass == Card(kpi).changeClass
    ensures Card(kpi).iconClass in {"text-green-600", "text-red-600", "text-gray-600"}
  {
  }

  /** Every KPI of the dashboard overview carries a zero change, so every overview card is grey, shows no
      `+`, and the Low Stock Alerts card shows the falling icon exactly when some item is low on stock. */
  lemma {:induction false} OverviewCardsAreGray(inventory: seq<InventoryItem>, operations: seq<OperationalMetric>)
    ensures var kpis := Api.GetOverview(inventory, operations).kpis;
      && (forall i :: 0 <= i < |kpis| ==> Card(kpis[i]).iconClass == "text-gray-600" && Card(kpis[i]).changePrefix == "")
      && (Card(kpis[2]).icon == TrendingDown <==> exists j :: 0 <= j < |inventory| && Api.IsLowStock(inventory[j]))
  {
    Api.OverviewCounts(inventory, operations);
  }
}
