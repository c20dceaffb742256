/** The holdings table of the dashboard components: a P/L badge and a
    52-week marker coloured by the sign of the P/L percentage, a marker
    offset clamped onto the bar, and the detail drawer opened by a row. Its
    52-week ends come from the holding itself, a missing one counting as 0. */
module DashboardHoldingsTable {
  import opened Wrappers
  import opened ClientTypes
  import HoldingDetailDrawer

  function PlPercent(h: Holding): real {
    OrElse(h.unrealizedPlPercent, 0.0)
  }

  /** A missing P/L percentage counts as 0 and so as positive. */
  predicate IsPositive(h: Holding) {
    PlPercent(h) >= 0.0
  }

  const PositiveBadge := "bg-neon-cyan/10 text-neon-cyan border-neon-cyan/20"
  const NegativeBadge := "bg-red-500/10 text-red-400 border-red-500/20"
  const PositiveMarker := "bg-neon-cyan text-neon-cyan"
  const NegativeMarker := "bg-red-400 text-red-400"

  function Badge(h: Holding): string {
    if IsPositive(h) then PositiveBadge else NegativeBadge
  }

  function Sign(h: Holding): string {
    if IsPositive(h) then "+" else ""
  }

  function MarkerColor(h: Holding): string {
    if IsPositive(h) then PositiveMarker else NegativeMarker
  }

  /** The badge, the `+` and the marker colour all follow the sign of the
      P/L percentage; a holding without one shows as positive. */
  lemma SignFacts(h: Holding)
    ensures Sign(h) == "+" <==> PlPercent(h) >= 0.0
    ensures Badge(h) == PositiveBadge <==> PlPercent(h) >= 0.0
    ensures MarkerColor(h) == PositiveMarker <==> PlPercent(h) >= 0.0
    ensures h.unrealizedPlPercent.None? ==> Sign(h) == "+" && Badge(h) == PositiveBadge
  {
    assert PositiveBadge[3] == 'n' && NegativeBadge[3] == 'r';
    assert PositiveMarker[3] != NegativeMarker[3];
  }

  /** The position on the 52-week bar in percent; 50 without a positive
      range. */
  function Position(h: Holding): real {
    var range := OrElse(h.week52High, 0.0) - OrElse(h.week52Low, 0.0);
    var current := OrElse(h.currentPrice, 0.0) - OrElse(h.week52Low, 0.0);
    if range > 0.0 then current / range * 100.0 else 50.0
  }

  /** `Math.min(Math.max(position, 0), 100)`. */
  function Clamp(position: real): real {
    var atLeastZero := if position > 0.0 then position else 0.0;
    if atLeastZero < 100.0 then atLeastZero else 100.0
  }

  function MarkerOffset(h: Holding): real {
    Clamp(Position(h))
  }

  /** The marker offset is on the bar for every holding, and is the position
      itself whenever that already is. */
  lemma MarkerOnBar(h: Holding)
    ensures 0.0 <= MarkerOffset(h) <= 100.0
    ensures 0.0 <= Position(h) <= 100.0 ==> MarkerOffset(h) == Position(h)
    ensures Position(h) < 0.0 ==> MarkerOffset(h) == 0.0
    ensures Position(h) > 100.0 ==> MarkerOffset(h) == 100.0
  {
  }

  /** A holding without a 52-week range has its marker in the middle. */
  lemma NoRangeMidpoint(h: Holding)
    requires OrElse(h.week52High, 0.0) <= OrElse(h.week52Low, 0.0)
    ensures Position(h) == 50.0 && MarkerOffset(h) == 50.0
  {
  }

  /** A price inside a positive range puts the unclamped position on the
      bar already, at 0 for the low and 100 for the high; each missing
      field counts as 0, as in the position itself. */
  lemma PositionInRange(h: Holding)
    requires OrElse(h.week52Low, 0.0) < OrElse(h.week52High, 0.0)
    requires OrElse(h.week52Low, 0.0) <= OrElse(h.currentPrice, 0.0) <= OrElse(h.week52High, 0.0)
    ensures 0.0 <= Position(h) <= 100.0
    ensures OrElse(h.currentPrice, 0.0) == OrElse(h.week52Low, 0.0) ==> Position(h) == 0.0
    ensures OrElse(h.currentPrice, 0.0) == OrElse(h.week52High, 0.0) ==> Position(h) == 100.0
  {
    var lo, hi, p := OrElse(h.week52Low, 0.0), OrElse(h.week52High, 0.0), OrElse(h.currentPrice, 0.0);
    Ratio(p - lo, hi - lo);
  }

  datatype Row = Row(symbol: string, badge: string, sign: string, plPercent: real, markerColor: string, markerOffset: real)

  function RowOf(h: Holding): Row {
    Row(h.symbol, Badge(h), Sign(h), PlPercent(h), MarkerColor(h), MarkerOffset(h))
  }

  /** One row per holding, in order. */
  function Rows(holdings: seq<Holding>): (rows: seq<Row>)
    ensures |rows| == |holdings|
    ensures forall i :: 0 <= i < |holdings| ==> rows[i] == RowOf(holdings[i]) && rows[i].symbol == holdings[i].symbol
  {
    seq(|holdings|, i requires 0 <= i < |holdings| => RowOf(holdings[i]))
  }

  /** The selected row, shown in the detail drawer. */
  class Selection {
    var selected: Option<Holding>

    constructor()
      ensures selected == None && Drawer().None?
    {
      selected := None;
    }

    /** What the drawer renders: nothing while no row is selected. */
    function Drawer(): Option<HoldingDetailDrawer.View>
      reads this
    {
      HoldingDetailDrawer.Drawer(selected)
    }

    method RowClick(h: Holding)
      modifies this
      ensures selected == Some(h) && Drawer() == HoldingDetailDrawer.Drawer(Some(h))
    {
      selected := Some(h);
    }

    /** The drawer's close handler. */
    method Close()
      modifies this
      ensures selected == None && Drawer().None?
    {
      selected := None;
    }
  }
}
