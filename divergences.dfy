/** Where the client's copies of the same display logic agree and where they
    part: the two buy-score gauges, the drawer's recommendation, the four
    52-week bars and the two drawers' treatment of a zero return. */
module Divergences {
  import opened Wrappers
  import opened ClientTypes
  import Watchlist
  import StockCard
  import HoldingDetailDrawer
  import HoldingsTable
  import DashboardHoldingsTable
  import Design

  /** The two gauges split the scores at the same two points. */
  lemma GaugesAgree(score: real)
    ensures Watchlist.GaugeColor(score) == Watchlist.Red <==> StockCard.GaugeColor(score) == StockCard.Red
    ensures Watchlist.GaugeColor(score) == Watchlist.Yellow <==> StockCard.GaugeColor(score) == StockCard.Yellow
    ensures Watchlist.GaugeColor(score) == Watchlist.Green <==> StockCard.GaugeColor(score) == StockCard.Cyan
  {
    Watchlist.GaugeColorBands(score);
    StockCard.GaugeColorBands(score);
  }

  /** The gauges and the drawer's recommendation agree on every score except
      70, which the gauges show at their top colour and the drawer rates
      "Hold". */
  lemma SeventyIsTheOnlyDisagreement(score: real)
    ensures (Watchlist.GaugeColor(score) == Watchlist.Green) != (HoldingDetailDrawer.Recommendation(score) == HoldingDetailDrawer.StrongBuy)
      <==> score == 70.0
    ensures (Watchlist.GaugeColor(score) == Watchlist.Red) == (HoldingDetailDrawer.Recommendation(score) == HoldingDetailDrawer.ConsiderSelling)
    ensures Watchlist.GaugeColor(70.0) == Watchlist.Green && StockCard.GaugeColor(70.0) == StockCard.Cyan
    ensures HoldingDetailDrawer.Recommendation(70.0) == HoldingDetailDrawer.Hold
  {
    Watchlist.GaugeColorBands(score);
    HoldingDetailDrawer.RecommendationBands(score);
    Watchlist.GaugeColorBands(70.0);
    StockCard.GaugeColorBands(70.0);
  }

  /** The design system's buy-score colour uses other thresholds again: 70
      is lime there, and 30 is amber where both gauges show red. */
  lemma DesignColorDiffers()
    ensures Design.BuyScoreColor(70.0) == Design.AccentLime
    ensures Design.BuyScoreColor(30.0) == Design.AccentAmber
    ensures Watchlist.GaugeColor(30.0) == Watchlist.Red && StockCard.GaugeColor(30.0) == StockCard.Red
  {
  }

  /** For a flat 52-week range at a price off the range, the three guarded
      bars sit in the middle while the stock card's position is infinite. */
  lemma FlatRange(level: real, price: real)
    requires level > 0.0 && price > 0.0 && price != level
    ensures var h := Holding(0, "", "", 0.0, 0.0, "", Some(price), None, None, None, Some(level), Some(level), None);
      var q := Quote("", price, 0.0, 0.0, Some(level), Some(level), None, None);
      && HoldingsTable.Position(h, Some(q)) == 50.0
      && DashboardHoldingsTable.Position(h) == 50.0
      && Watchlist.Position(q) == 50.0
      && !StockCard.Position(StockCard.Stock("", "", price, 0.0, level, level, 0.0, "")).Finite?
  {
    StockCard.FlatRange(StockCard.Stock("", "", price, 0.0, level, level, 0.0, ""));
  }

  /** The two holdings tables read different 52-week fields: without a
      quote the dashboard page's table shows the middle whatever the
      holding's own range, while the other table places the price in it. */
  lemma TablesReadDifferentRanges(h: Holding)
    requires h.week52Low.Some? && h.week52High.Some? && h.currentPrice.Some?
    requires 0.0 < h.week52Low.value < h.currentPrice.value < h.week52High.value
    ensures HoldingsTable.Position(h, None) == 50.0
    ensures 0.0 < DashboardHoldingsTable.Position(h) < 100.0
  {
    var lo, hi, p := h.week52Low.value, h.week52High.value, h.currentPrice.value;
    Ratio(p - lo, hi - lo);
  }

  /** A price above the quote's 52-week high puts the page table's marker
      past the end of its bar; the dashboard table's clamp keeps its marker
      on the bar for every input. */
  lemma OnlyOneTableClamps(h: Holding, q: Quote)
    requires h.currentPrice.Some? && q.fiftyTwoWeekLow.Some? && q.fiftyTwoWeekHigh.Some?
    requires 0.0 < q.fiftyTwoWeekLow.value < q.fiftyTwoWeekHigh.value < h.currentPrice.value
    ensures HoldingsTable.Position(h, Some(q)) > 100.0
    ensures 0.0 <= DashboardHoldingsTable.MarkerOffset(h) <= 100.0
  {
    var lo, hi, p := q.fiftyTwoWeekLow.value, q.fiftyTwoWeekHigh.value, h.currentPrice.value;
    Ratio(p - lo, hi - lo);
    DashboardHoldingsTable.MarkerOnBar(h);
  }

  /** A holding exactly at cost: the page table's drawer colours its return
      as a loss, the dashboard drawer shows it as positive. */
  lemma ZeroReturnShownBothWays(h: Holding)
    requires h.unrealizedPl == Some(0.0) && h.unrealizedPlPercent == Some(0.0)
    ensures HoldingsTable.ReturnColor(h) == HoldingsTable.LossText
    ensures HoldingDetailDrawer.Drawer(Some(h)).value.isPositive
  {
  }
}
