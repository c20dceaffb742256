/** The dashboard page: the portfolio totals it computes from the holdings it
    received, the quote request it builds from them, and the symbol-to-quote
    map it hands to the holdings table. `None` stands for data the page has
    not received yet. */
module Dashboard {
  import opened Wrappers
  import opened ClientTypes
  import MarketApi
  import PortfolioApi
  import DashboardHoldingsTable
  import HoldingDetailDrawer

  /** The running sum of market values, a missing or zero one adding 0. */
  function SumValues(hs: seq<Holding>): real {
    if hs == [] then 0.0 else SumValues(hs[..|hs| - 1]) + OrElse(hs[|hs| - 1].marketValue, 0.0)
  }

  /** The running sum of average cost times quantity. */
  function SumCosts(hs: seq<Holding>): real {
    if hs == [] then 0.0 else SumCosts(hs[..|hs| - 1]) + hs[|hs| - 1].avgCost * hs[|hs| - 1].quantity
  }

  function TotalValue(holdings: Option<seq<Holding>>): real {
    if holdings.Some? then SumValues(holdings.value) else 0.0
  }

  function TotalCost(holdings: Option<seq<Holding>>): real {
    if holdings.Some? then SumCosts(holdings.value) else 0.0
  }

  function TotalGain(holdings: Option<seq<Holding>>): real {
    TotalValue(holdings) - TotalCost(holdings)
  }

  /** The gain as a percentage of the cost, 0 unless the cost is positive. */
  function TotalGainPercent(holdings: Option<seq<Holding>>): (r: real)
    ensures TotalCost(holdings) <= 0.0 ==> r == 0.0
    ensures TotalCost(holdings) > 0.0 ==> r * TotalCost(holdings) == TotalGain(holdings) * 100.0
  {
    var cost := TotalCost(holdings);
    if cost > 0.0 then
      PortfolioApi.PercentRecovers(TotalGain(holdings), cost);
      TotalGain(holdings) / cost * 100.0
    else 0.0
  }

  /** Before the holdings arrive every total is 0. */
  lemma NoHoldingsNoTotals()
    ensures TotalValue(None) == 0.0 && TotalCost(None) == 0.0
    ensures TotalGain(None) == 0.0 && TotalGainPercent(None) == 0.0
  {
  }

  /** Holdings without a usable market value add nothing to the total value. */
  lemma {:induction false} UnvaluedHoldingsAddNothing(hs: seq<Holding>, more: seq<Holding>)
    requires forall i :: 0 <= i < |more| ==> more[i].marketValue.None? || more[i].marketValue.value == 0.0
    ensures SumValues(hs + more) == SumValues(hs)
  {
    if more != [] {
      var m := more[..|more| - 1];
      assert (hs + more)[..|hs + more| - 1] == hs + m;
      assert forall i :: 0 <= i < |m| ==> m[i] == more[i];
      assert (hs + more)[|hs + more| - 1] == more[|more| - 1];
      assert OrElse(more[|more| - 1].marketValue, 0.0) == 0.0;
      assert SumValues(hs + more) == SumValues(hs + m) + OrElse(more[|more| - 1].marketValue, 0.0);
      UnvaluedHoldingsAddNothing(hs, m);
    } else {
      assert hs + more == hs;
    }
  }

  /** The holding the client receives for one the portfolio endpoint valued.
      The response schema declares the identifying fields and the four
      computed amounts only, so the 52-week range and the buy score the
      endpoint computed are dropped on the way and arrive missing. */
  function ToClient(v: PortfolioApi.HoldingView): (c: Holding)
    ensures c.id == v.id && c.symbol == v.symbol && c.quantity == v.quantity && c.avgCost == v.avgCost
    ensures c.currentPrice == Some(v.currentPrice) && c.marketValue == Some(v.marketValue)
    ensures c.unrealizedPl == Some(v.unrealizedPl) && c.unrealizedPlPercent == Some(v.unrealizedPlPercent)
    ensures c.week52High.None? && c.week52Low.None? && c.buyScore.None?
  {
    Holding(v.id, v.symbol, v.name, v.quantity, v.avgCost, v.sector,
            Some(v.currentPrice), Some(v.marketValue), Some(v.unrealizedPl), Some(v.unrealizedPlPercent),
            None, None, None)
  }

  function ToClientAll(vs: seq<PortfolioApi.HoldingView>): (hs: seq<Holding>)
    ensures |hs| == |vs| && forall i :: 0 <= i < |vs| ==> hs[i] == ToClient(vs[i])
    ensures forall i :: 0 <= i < |vs| ==> hs[i].week52High.None? && hs[i].week52Low.None? && hs[i].buyScore.None?
  {
    seq(|vs|, i requires 0 <= i < |vs| => ToClient(vs[i]))
  }

  /** Since no served holding carries a range or a score, the dashboard
      table puts every marker in the middle of its bar, and the drawer rates
      every holding "Hold" at 50 and 0% above its 52-week low. */
  lemma ServedHoldingsShowMidpointAndHold(vs: seq<PortfolioApi.HoldingView>, i: nat)
    requires i < |vs|
    ensures var h := ToClientAll(vs)[i];
      var v := HoldingDetailDrawer.Drawer(Some(h)).value;
      && DashboardHoldingsTable.Position(h) == 50.0
      && DashboardHoldingsTable.MarkerOffset(h) == 50.0
      && v.buyScore == 50.0 && v.recommendation == HoldingDetailDrawer.Hold
      && v.aboveLow == 0
  {
    var h := ToClientAll(vs)[i];
    DashboardHoldingsTable.NoRangeMidpoint(h);
    HoldingDetailDrawer.UnscoredIsHold(h);
    HoldingDetailDrawer.AboveLowFigure(h);
  }

  lemma {:induction false} SumsAgree(vs: seq<PortfolioApi.HoldingView>)
    ensures SumValues(ToClientAll(vs)) == PortfolioApi.TotalValue(vs)
    ensures SumCosts(ToClientAll(vs)) == PortfolioApi.TotalCost(vs)
  {
    if vs != [] {
      var p := vs[..|vs| - 1];
      assert ToClientAll(vs)[..|vs| - 1] == ToClientAll(p);
      SumsAgree(p);
    }
  }

  /** On the holdings the portfolio endpoint returns, the page's totals are
      the endpoint's summary totals: the same value, P/L and P/L percentage. */
  lemma AgreesWithSummary(vs: seq<PortfolioApi.HoldingView>, draws: seq<real>)
    ensures var page, s := Some(ToClientAll(vs)), PortfolioApi.SummaryOf(vs, draws);
      && TotalValue(page) == s.totalValue
      && TotalCost(page) == PortfolioApi.TotalCost(vs)
      && TotalGain(page) == s.totalPl
      && TotalGainPercent(page) == s.totalPlPercent
  {
    SumsAgree(vs);
  }

  // ---------------------------------------------------------------------
  // The quote request

  function Symbols(hs: seq<Holding>): (syms: seq<string>)
    ensures |syms| == |hs| && forall i :: 0 <= i < |hs| ==> syms[i] == hs[i].symbol
  {
    seq(|hs|, i requires 0 <= i < |hs| => hs[i].symbol)
  }

  /** The symbols the quote query asks for; `None` while it is disabled. */
  function QuotesRequest(holdings: Option<seq<Holding>>): (r: Option<seq<string>>)
    ensures r.Some? <==> holdings.Some?
    ensures r.Some? ==> r.value == Symbols(holdings.value)
  {
    if holdings.Some? then Some(Symbols(holdings.value)) else None
  }

  /** The query string the client sends for the request. */
  function QuotesQuery(syms: seq<string>): string {
    MarketApi.Join(syms, ',')
  }

  /** A symbol that reaches the server as sent: the client puts the query
      into the URL unencoded, so an ampersand ends the parameter, a hash
      starts the fragment, and the server decodes a plus or a percent escape. */
  predicate QuerySafe(sym: string) {
    '&' !in sym && '#' !in sym && '+' !in sym && '%' !in sym
  }

  /** When the holdings have comma-free, query-safe symbols without
      surrounding whitespace, the market endpoint parses the query back to
      the holdings' symbols, in order. */
  lemma RequestReachesServer(hs: seq<Holding>)
    requires |hs| >= 1
    requires forall i :: 0 <= i < |hs| ==> ',' !in hs[i].symbol && MarketApi.Unpadded(hs[i].symbol)
    requires forall i :: 0 <= i < |hs| ==> QuerySafe(hs[i].symbol)
    ensures MarketApi.ParseSymbols(QuotesQuery(QuotesRequest(Some(hs)).value)) == Symbols(hs)
  {
    MarketApi.JoinParseRoundTrip(Symbols(hs));
  }

  /** An empty holdings list still sends the query, which the server reads as
      one empty symbol. */
  lemma EmptyHoldingsAskForEmptySymbol()
    ensures QuotesRequest(Some([])) == Some([])
    ensures MarketApi.ParseSymbols(QuotesQuery([])) == [""]
  {
    MarketApi.EmptyJoin();
  }

  // ---------------------------------------------------------------------
  // The quote map

  /** The quotes folded into an object keyed by symbol, a later quote
      overwriting an earlier one with the same symbol. */
  function QuoteMapOf(qs: seq<Quote>): map<string, Quote> {
    if qs == [] then map[] else QuoteMapOf(qs[..|qs| - 1])[qs[|qs| - 1].symbol := qs[|qs| - 1]]
  }

  function QuoteMap(quotes: Option<seq<Quote>>): map<string, Quote> {
    if quotes.Some? then QuoteMapOf(quotes.value) else map[]
  }

  /** Before the quotes arrive the map is empty. */
  lemma NoQuotesEmptyMap()
    ensures QuoteMap(None) == map[]
  {
  }

  /** Every quote's symbol is a key, and each key maps to one of the quotes
      with that symbol, so the keys are exactly the quotes' symbols. */
  lemma {:induction false} QuoteMapKeysAndValues(qs: seq<Quote>)
    ensures forall i :: 0 <= i < |qs| ==> qs[i].symbol in QuoteMapOf(qs)
    ensures forall k :: k in QuoteMapOf(qs) ==> QuoteMapOf(qs)[k].symbol == k && QuoteMapOf(qs)[k] in qs
  {
    if qs != [] {
      var p := qs[..|qs| - 1];
      QuoteMapKeysAndValues(p);
      assert forall i :: 0 <= i < |p| ==> p[i] == qs[i];
      assert qs == p + [qs[|qs| - 1]];
    }
  }

  /** A quote that no later quote shares a symbol with is the one the map
      holds for its symbol: with duplicates the last one wins. */
  lemma {:induction false} LastQuoteWins(qs: seq<Quote>, i: nat)
    requires i < |qs|
    requires forall j :: i < j < |qs| ==> qs[j].symbol != qs[i].symbol
    ensures qs[i].symbol in QuoteMapOf(qs) && QuoteMapOf(qs)[qs[i].symbol] == qs[i]
  {
    if i < |qs| - 1 {
      var p := qs[..|qs| - 1];
      assert p[i] == qs[i];
      LastQuoteWins(p, i);
    }
  }
}
