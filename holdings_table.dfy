/** The dashboard page's holdings table: a row tint by P/L percentage, the
    signed P/L label, a 52-week range bar whose ends fall back to the current
    price, and the detail drawer opened by clicking a row. Quotes come from
    the page's symbol-to-quote map. */
module HoldingsTable {
  import opened Wrappers
  import opened ClientTypes

  const StrongGainTint := "rgba(16, 185, 129, 0.15)"
  const GainTint := "rgba(16, 185, 129, 0.08)"
  const StrongLossTint := "rgba(239, 68, 68, 0.15)"
  const LossTint := "rgba(239, 68, 68, 0.08)"
  const NoTint := "transparent"

  /** The row tint for a P/L percentage. */
  function PLColor(plPercent: real): string {
    if plPercent >= 20.0 then StrongGainTint
    else if plPercent > 0.0 then GainTint
    else if plPercent <= -20.0 then StrongLossTint
    else if plPercent < 0.0 then LossTint
    else NoTint
  }

  /** The five tints partition the P/L percentages: at least 20, strictly
      between 0 and 20, at most -20, strictly between -20 and 0, and 0. */
  lemma PLColorBands(p: real)
    ensures PLColor(p) == StrongGainTint <==> p >= 20.0
    ensures PLColor(p) == GainTint <==> 0.0 < p < 20.0
    ensures PLColor(p) == StrongLossTint <==> p <= -20.0
    ensures PLColor(p) == LossTint <==> -20.0 < p < 0.0
    ensures PLColor(p) == NoTint <==> p == 0.0
  {
    assert StrongGainTint != GainTint && StrongGainTint != StrongLossTint && StrongGainTint != LossTint;
    assert GainTint != StrongLossTint && GainTint != LossTint && StrongLossTint != LossTint;
    assert StrongGainTint[0] != NoTint[0] && GainTint[0] != NoTint[0];
    assert StrongLossTint[0] != NoTint[0] && LossTint[0] != NoTint[0];
  }

  /** The P/L percentage the row shows, a missing or zero one as 0. */
  function PlPercent(row: Holding): real {
    OrElse(row.unrealizedPlPercent, 0.0)
  }

  const GainText := "success.main"
  const LossText := "error.main"

  function PlSign(plPercent: real): string {
    if plPercent >= 0.0 then "+" else ""
  }

  function PlTextColor(plPercent: real): string {
    if plPercent >= 0.0 then GainText else LossText
  }

  /** The label has a `+` exactly when it is coloured as a gain, exactly
      when the P/L percentage is at least 0; a holding without a P/L shows
      as a gain. */
  lemma PlLabel(row: Holding)
    ensures PlSign(PlPercent(row)) == "+" <==> PlPercent(row) >= 0.0
    ensures PlTextColor(PlPercent(row)) == GainText <==> PlPercent(row) >= 0.0
    ensures row.unrealizedPlPercent.None? ==> PlSign(PlPercent(row)) == "+"
  {
    assert GainText[0] != LossText[0];
  }

  // ---------------------------------------------------------------------
  // The 52-week range bar

  function QuoteFor(quotes: map<string, Quote>, symbol: string): Option<Quote> {
    if symbol in quotes then Some(quotes[symbol]) else None
  }

  function QuoteHigh(quote: Option<Quote>): Option<real> {
    if quote.Some? then quote.value.fiftyTwoWeekHigh else None
  }

  function QuoteLow(quote: Option<Quote>): Option<real> {
    if quote.Some? then quote.value.fiftyTwoWeekLow else None
  }

  function Price(row: Holding): real {
    OrElse(row.currentPrice, 0.0)
  }

  /** The bar's top: the quote's 52-week high, else the current price, else 0. */
  function High(row: Holding, quote: Option<Quote>): real {
    OrElse(QuoteHigh(quote), Price(row))
  }

  /** The bar's bottom: the quote's 52-week low, else the current price, else 0. */
  function Low(row: Holding, quote: Option<Quote>): real {
    OrElse(QuoteLow(quote), Price(row))
  }

  /** Where the current price sits on the bar, in percent; 50 without a
      positive range. */
  function Position(row: Holding, quote: Option<Quote>): real {
    var range := High(row, quote) - Low(row, quote);
    if range > 0.0 then (Price(row) - Low(row, quote)) / range * 100.0 else 50.0
  }

  /** Without a quote, or with a quote whose 52-week fields are missing or 0,
      both ends are the current price and the marker sits in the middle. */
  lemma NoRangeMidpoint(row: Holding, quote: Option<Quote>)
    requires QuoteHigh(quote).None? || QuoteHigh(quote).value == 0.0
    requires QuoteLow(quote).None? || QuoteLow(quote).value == 0.0
    ensures High(row, quote) == Price(row) == Low(row, quote)
    ensures Position(row, quote) == 50.0
  {
  }

  /** A price between the bar's ends puts the marker on the bar, at its
      left end for the low and its right end for the high. */
  lemma PositionOnBar(row: Holding, quote: Option<Quote>)
    requires Low(row, quote) <= Price(row) <= High(row, quote)
    ensures 0.0 <= Position(row, quote) <= 100.0
    ensures High(row, quote) > Low(row, quote) && Price(row) == Low(row, quote) ==> Position(row, quote) == 0.0
    ensures High(row, quote) > Low(row, quote) && Price(row) == High(row, quote) ==> Position(row, quote) == 100.0
  {
    var lo, hi, p := Low(row, quote), High(row, quote), Price(row);
    if hi - lo > 0.0 {
      Ratio(p - lo, hi - lo);
    }
  }

  const NearLowColor := "#60A5FA"
  const NearHighColor := "#EF4444"
  const MidColor := "#F59E0B"

  /** The colour of both the bar and its marker dot. */
  function BarColor(position: real): string {
    if position < 20.0 then NearLowColor else if position > 80.0 then NearHighColor else MidColor
  }

  lemma BarColorBands(position: real)
    ensures BarColor(position) == NearLowColor <==> position < 20.0
    ensures BarColor(position) == NearHighColor <==> position > 80.0
    ensures BarColor(position) == MidColor <==> 20.0 <= position <= 80.0
  {
    assert NearLowColor[1] != NearHighColor[1] && NearLowColor[1] != MidColor[1] && NearHighColor[1] != MidColor[1];
  }

  // ---------------------------------------------------------------------
  // Rows

  datatype Row = Row(symbol: string, tint: string, sign: string, plColor: string, position: real, barColor: string,
                     barLow: real, barHigh: real)

  function RowOf(row: Holding, quotes: map<string, Quote>): Row {
    var quote := QuoteFor(quotes, row.symbol);
    var pl := PlPercent(row);
    var position := Position(row, quote);
    Row(row.symbol, PLColor(pl), PlSign(pl), PlTextColor(pl), position, BarColor(position),
        Low(row, quote), High(row, quote))
  }

  /** The table body: one row per holding, in order. */
  function Rows(holdings: seq<Holding>, quotes: map<string, Quote>): (rows: seq<Row>)
    ensures |rows| == |holdings|
    ensures forall i :: 0 <= i < |holdings| ==> rows[i] == RowOf(holdings[i], quotes) && rows[i].symbol == holdings[i].symbol
  {
    seq(|holdings|, i requires 0 <= i < |holdings| => RowOf(holdings[i], quotes))
  }

  /** A holding whose symbol has no quote gets the middle of the bar and the
      mid-range colour. */
  lemma UnquotedRow(row: Holding, quotes: map<string, Quote>)
    requires row.symbol !in quotes
    ensures RowOf(row, quotes).position == 50.0 && RowOf(row, quotes).barColor == MidColor
  {
    NoRangeMidpoint(row, None);
  }

  // ---------------------------------------------------------------------
  // The detail drawer

  /** The drawer's total-return colour. A zero or missing P/L is falsy and
      so shows as a loss. */
  function ReturnColor(row: Holding): string {
    if row.unrealizedPl.Some? && row.unrealizedPl.value != 0.0 && row.unrealizedPl.value >= 0.0 then GainText
    else LossText
  }

  /** The drawer shows a gain exactly for a positive P/L, unlike the table's
      label, which shows a P/L percentage of 0 as a gain. */
  lemma ReturnColorStrict(row: Holding)
    ensures ReturnColor(row) == GainText <==> row.unrealizedPl.Some? && row.unrealizedPl.value > 0.0
    ensures row.unrealizedPl == Some(0.0) && row.unrealizedPlPercent == Some(0.0) ==>
      ReturnColor(row) == LossText && PlTextColor(PlPercent(row)) == GainText
  {
    assert GainText[0] != LossText[0];
  }

  /** The row the table has selected; the drawer is open exactly when one is. */
  class Selection {
    var selected: Option<Holding>

    constructor()
      ensures selected == None && !DrawerOpen()
    {
      selected := None;
    }

    predicate DrawerOpen()
      reads this
    {
      selected.Some?
    }

    /** Clicking a row selects it and opens the drawer. */
    method RowClick(row: Holding)
      modifies this
      ensures selected == Some(row) && DrawerOpen()
    {
      selected := Some(row);
    }

    /** The drawer's close handler and its close button clear the selection. */
    method Close()
      modifies this
      ensures selected == None && !DrawerOpen()
    {
      selected := None;
    }
  }
}
