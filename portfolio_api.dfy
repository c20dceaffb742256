/** The portfolio endpoints: each statement entry is valued at its quoted
    price (or its average cost when there is no quote), and the summary adds
    the valuations up. The quote source is a parameter; the random trend
    factors are a parameter; the update timestamp is not modelled. */
module PortfolioApi {
  import opened Wrappers
  import PdfService
  import MarketApi

  type BaseHolding = PdfService.BaseHolding

  /** What the valuation reads from a quote. */
  datatype PortfolioQuote = PortfolioQuote(price: real, week52Low: real, week52High: real, buyScore: real)

  /** A valued holding as the endpoint returns it. */
  datatype HoldingView = HoldingView(
    id: int,
    userId: int,
    symbol: string,
    name: string,
    quantity: real,
    avgCost: real,
    currentPrice: real,
    marketValue: real,
    unrealizedPl: real,
    unrealizedPlPercent: real,
    sector: string,
    week52Low: real,
    week52High: real,
    buyScore: real)

  /** The float division by zero the percentage guard lets through. */
  datatype Error = DivisionByZero

  type QuoteSource = string -> Option<PortfolioQuote>

  /** The owner every valued holding is reported under. */
  const DemoUser: int := 1

  /** The buy score reported without a quote. */
  const DefaultBuyScore: real := 50.0

  /** The valuation of the entry at position idx; it fails exactly when the
      average cost is positive and the quantity is zero. */
  function ValueHolding(item: BaseHolding, idx: nat, quote: Option<PortfolioQuote>): (r: Result<HoldingView, Error>)
    ensures r.Err? <==> item.avgCost > 0.0 && item.quantity == 0.0
  {
    var price := if quote.Some? then quote.value.price else item.avgCost;
    var marketValue := item.quantity * price;
    var pl := marketValue - item.quantity * item.avgCost;
    var basis := item.quantity * item.avgCost;
    if item.avgCost > 0.0 && basis == 0.0 then Err(DivisionByZero)
    else
      var percent := if item.avgCost > 0.0 then pl / basis * 100.0 else 0.0;
      Ok(HoldingView(
        idx + 1, DemoUser, item.symbol, item.name, item.quantity, item.avgCost,
        price, marketValue, pl, percent, item.sector,
        if quote.Some? then quote.value.week52Low else 0.0,
        if quote.Some? then quote.value.week52High else 0.0,
        if quote.Some? then quote.value.buyScore else DefaultBuyScore))
  }

  /** The valued holdings of a list of entries, in entry order. */
  function Portfolio(base: seq<BaseHolding>, quotes: QuoteSource): (r: Result<seq<HoldingView>, Error>)
    ensures r.Ok? ==> |r.value| == |base|
  {
    if base == [] then Ok([])
    else
      var last := base[|base| - 1];
      match Portfolio(base[..|base| - 1], quotes)
      case Err(e) => Err(e)
      case Ok(prefix) =>
        match ValueHolding(last, |base| - 1, quotes(last.symbol))
        case Err(e) => Err(e)
        case Ok(h) => Ok(prefix + [h])
  }

  /** Some entry has a positive average cost and a zero quantity. */
  predicate HasZeroQuantity(base: seq<BaseHolding>) {
    exists i :: 0 <= i < |base| && base[i].avgCost > 0.0 && base[i].quantity == 0.0
  }

  // ---------------------------------------------------------------------
  // Valuation of one entry

  /** Market value is quantity times price, P/L is market value less cost
      basis, the price falls back to the average cost, and the range fields
      and buy score fall back to 0, 0 and 50 without a quote. The percentage
      is 0 for a non-positive average cost and otherwise recovers P/L from the
      cost basis. */
  lemma ValuationFacts(item: BaseHolding, idx: nat, quote: Option<PortfolioQuote>)
    requires ValueHolding(item, idx, quote).Ok?
    ensures var h := ValueHolding(item, idx, quote).value;
      && h.id == idx + 1 && h.userId == DemoUser
      && h.symbol == item.symbol && h.name == item.name && h.sector == item.sector
      && h.quantity == item.quantity && h.avgCost == item.avgCost
      && h.currentPrice == (if quote.Some? then quote.value.price else item.avgCost)
      && h.marketValue == item.quantity * h.currentPrice
      && h.unrealizedPl == h.marketValue - item.quantity * item.avgCost
      && (item.avgCost <= 0.0 ==> h.unrealizedPlPercent == 0.0)
      && (item.avgCost > 0.0 ==> h.unrealizedPlPercent * (item.quantity * item.avgCost) == h.unrealizedPl * 100.0)
      && (quote.None? ==> h.week52Low == 0.0 && h.week52High == 0.0 && h.buyScore == DefaultBuyScore)
      && (quote.Some? ==> h.week52Low == quote.value.week52Low && h.week52High == quote.value.week52High
                          && h.buyScore == quote.value.buyScore)
  {
    var h := ValueHolding(item, idx, quote).value;
    if item.avgCost > 0.0 {
      var basis := item.quantity * item.avgCost;
      assert basis != 0.0;
      assert h.unrealizedPlPercent == h.unrealizedPl / basis * 100.0;
    }
  }

  /** Without a quote the holding is valued at cost: no gain and no percentage. */
  lemma UnquotedHasNoGain(item: BaseHolding, idx: nat)
    requires ValueHolding(item, idx, None).Ok?
    ensures var h := ValueHolding(item, idx, None).value;
      h.currentPrice == item.avgCost && h.unrealizedPl == 0.0 && h.unrealizedPlPercent == 0.0
  {
    ValuationFacts(item, idx, None);
  }

  // ---------------------------------------------------------------------
  // The whole list

  /** The valued list has one holding per entry, in entry order, each the
      valuation of that entry at its position. */
  lemma {:induction false} PortfolioEntries(base: seq<BaseHolding>, quotes: QuoteSource)
    requires Portfolio(base, quotes).Ok?
    ensures var hs := Portfolio(base, quotes).value;
      forall i :: 0 <= i < |base| ==>
        ValueHolding(base[i], i, quotes(base[i].symbol)) == Ok(hs[i])
  {
    if base != [] {
      var p := base[..|base| - 1];
      PortfolioEntries(p, quotes);
      assert forall i :: 0 <= i < |p| ==> p[i] == base[i];
    }
  }

  /** Ids run 1..n, every holding belongs to the demo user, and each carries
      its entry's symbol, name, quantity, cost and sector. */
  lemma PortfolioIds(base: seq<BaseHolding>, quotes: QuoteSource)
    requires Portfolio(base, quotes).Ok?
    ensures var hs := Portfolio(base, quotes).value;
      && |hs| == |base|
      && forall i :: 0 <= i < |hs| ==>
           && hs[i].id == i + 1 && hs[i].userId == DemoUser
           && hs[i].symbol == base[i].symbol && hs[i].name == base[i].name
           && hs[i].quantity == base[i].quantity && hs[i].avgCost == base[i].avgCost
           && hs[i].sector == base[i].sector
  {
    var hs := Portfolio(base, quotes).value;
    PortfolioEntries(base, quotes);
    forall i | 0 <= i < |hs|
      ensures hs[i].id == i + 1 && hs[i].userId == DemoUser
      ensures hs[i].symbol == base[i].symbol && hs[i].name == base[i].name
      ensures hs[i].quantity == base[i].quantity && hs[i].avgCost == base[i].avgCost
      ensures hs[i].sector == base[i].sector
    {
      ValuationFacts(base[i], i, quotes(base[i].symbol));
    }
  }

  /** The endpoint fails exactly when some entry has a positive average cost
      and a zero quantity. */
  lemma {:induction false} PortfolioFailsIff(base: seq<BaseHolding>, quotes: QuoteSource)
    ensures Portfolio(base, quotes).Err? <==> HasZeroQuantity(base)
  {
    if base != [] {
      var p := base[..|base| - 1];
      var last := base[|base| - 1];
      PortfolioFailsIff(p, quotes);
      if HasZeroQuantity(p) {
        var i :| 0 <= i < |p| && p[i].avgCost > 0.0 && p[i].quantity == 0.0;
        assert base[i] == p[i];
      }
      if HasZeroQuantity(base) {
        var i :| 0 <= i < |base| && base[i].avgCost > 0.0 && base[i].quantity == 0.0;
        if i < |p| {
          assert p[i] == base[i];
        }
      }
    }
  }

  /** The statement's entries all have positive quantities, so valuing them
      never fails, whatever the quotes. */
  lemma StatementValuationSucceeds(quotes: QuoteSource)
    ensures Portfolio(PdfService.ParsePdfHoldings(), quotes).Ok?
    ensures |Portfolio(PdfService.ParsePdfHoldings(), quotes).value| == 27
  {
    PdfService.ParsedHoldingsPositive();
    PortfolioFailsIff(PdfService.ParsePdfHoldings(), quotes);
  }

  /** The loop of `get_portfolio`: value each entry in order. */
  method ValueEntries(base: seq<BaseHolding>, quotes: QuoteSource) returns (r: Result<seq<HoldingView>, Error>)
    ensures r == Portfolio(base, quotes)
  {
    var response: seq<HoldingView> := [];
    for idx := 0 to |base|
      invariant Portfolio(base[..idx], quotes) == Ok(response)
    {
      assert base[..idx + 1][..idx] == base[..idx];
      var item := base[idx];
      var valued := ValueHolding(item, idx, quotes(item.symbol));
      if valued.Err? {
        PortfolioFailsIff(base, quotes);
        assert base[idx].avgCost > 0.0 && base[idx].quantity == 0.0;
        assert HasZeroQuantity(base);
        assert Portfolio(base, quotes).Err?;
        assert Portfolio(base, quotes).error.DivisionByZero?;
        return Err(DivisionByZero);
      }
      var holding := valued.value;
      response := response + [holding];
    }
    assert base[..|base|] == base;
    return Ok(response);
  }

  /** `get_portfolio`: value the statement entries. */
  method GetPortfolio(quotes: QuoteSource) returns (r: Result<seq<HoldingView>, Error>)
    ensures r == Portfolio(PdfService.ParsePdfHoldings(), quotes)
  {
    r := ValueEntries(PdfService.ParsePdfHoldings(), quotes);
  }

  /** `sync_portfolio`: the same answer as `get_portfolio`. */
  method SyncPortfolio(quotes: QuoteSource) returns (r: Result<seq<HoldingView>, Error>)
    ensures r == Portfolio(PdfService.ParsePdfHoldings(), quotes)
  {
    r := GetPortfolio(quotes);
  }

  // ---------------------------------------------------------------------
  // The valuation as written, against the market quote record

  /** What the code as written meets on an entry. A market quote has no
      `price` attribute, so reading it raises first, before the percentage
      could divide by zero. */
  datatype WrittenError = NoPriceAttribute | WrittenDivisionByZero

  /** The market service's answers: the market quote record itself. */
  type MarketQuotes = string -> Option<MarketApi.StockQuote>

  /** One entry valued as written: any quote raises; without one the entry
      is valued at cost, as the intended valuation values it. */
  function ValueHoldingAsWritten(item: BaseHolding, idx: nat, quote: Option<MarketApi.StockQuote>): (r: Result<HoldingView, WrittenError>)
    ensures quote.Some? ==> r == Err(NoPriceAttribute)
    ensures quote.None? ==> (r.Ok? <==> ValueHolding(item, idx, None).Ok?)
    ensures quote.None? && r.Ok? ==> r.value == ValueHolding(item, idx, None).value
  {
    if quote.Some? then Err(NoPriceAttribute)
    else match ValueHolding(item, idx, None)
      case Ok(h) => Ok(h)
      case Err(_) => Err(WrittenDivisionByZero)
  }

  /** The entries valued as written, in order, stopping at the first failure. */
  function PortfolioAsWritten(base: seq<BaseHolding>, quotes: MarketQuotes): Result<seq<HoldingView>, WrittenError> {
    if base == [] then Ok([])
    else
      var last := base[|base| - 1];
      match PortfolioAsWritten(base[..|base| - 1], quotes)
      case Err(e) => Err(e)
      case Ok(prefix) =>
        match ValueHoldingAsWritten(last, |base| - 1, quotes(last.symbol))
        case Err(e) => Err(e)
        case Ok(h) => Ok(prefix + [h])
  }

  /** A quote for the first entry makes the endpoint raise on it. */
  lemma {:induction false} FirstQuotedFails(base: seq<BaseHolding>, quotes: MarketQuotes)
    requires base != [] && quotes(base[0].symbol).Some?
    ensures PortfolioAsWritten(base, quotes) == Err(NoPriceAttribute)
  {
    if |base| > 1 {
      var p := base[..|base| - 1];
      assert p[0] == base[0];
      FirstQuotedFails(p, quotes);
    }
  }

  /** The market service answers every symbol, with a cached, a live or a
      mock quote; as written, valuing the statement then raises on its first
      entry, and so do the summary and sync endpoints built on it. */
  lemma StatementFailsAsWritten(quotes: MarketQuotes)
    requires forall s :: quotes(s).Some?
    ensures PortfolioAsWritten(PdfService.ParsePdfHoldings(), quotes) == Err(NoPriceAttribute)
  {
    PdfService.ParsedHoldingsPositive();
    FirstQuotedFails(PdfService.ParsePdfHoldings(), quotes);
  }

  /** Without any quote, the code as written and the intended valuation agree. */
  lemma {:induction false} UnquotedAsWrittenAgrees(base: seq<BaseHolding>)
    ensures var w, v := PortfolioAsWritten(base, _ => None), Portfolio(base, _ => None);
      (w.Ok? <==> v.Ok?) && (w.Ok? ==> w.value == v.value)
  {
    if base != [] {
      UnquotedAsWrittenAgrees(base[..|base| - 1]);
    }
  }

  // ---------------------------------------------------------------------
  // The summary

  datatype Summary = Summary(
    totalValue: real,
    weeklyChangeValue: real,
    weeklyChangePercent: real,
    trendData: seq<real>,
    totalPl: real,
    totalPlPercent: real,
    sectorAllocation: map<string, real>)

  function TotalValue(hs: seq<HoldingView>): real {
    if hs == [] then 0.0 else TotalValue(hs[..|hs| - 1]) + hs[|hs| - 1].marketValue
  }

  function TotalCost(hs: seq<HoldingView>): real {
    if hs == [] then 0.0 else TotalCost(hs[..|hs| - 1]) + hs[|hs| - 1].quantity * hs[|hs| - 1].avgCost
  }

  function TotalUnrealizedPl(hs: seq<HoldingView>): real {
    if hs == [] then 0.0 else TotalUnrealizedPl(hs[..|hs| - 1]) + hs[|hs| - 1].unrealizedPl
  }

  /** Six trend points scaled down by the given factors, then the total. */
  function TrendData(total: real, draws: seq<real>): seq<real> {
    seq(|draws|, i requires 0 <= i < |draws| => total * (1.0 - draws[i])) + [total]
  }

  /** The fixed allocation every summary reports. */
  function SectorAllocation(): map<string, real> {
    map["Technology" := 60.0, "Consumer Cyclical" := 20.0, "Healthcare" := 10.0, "Other" := 10.0]
  }

  /** P/L as a percentage of a cost, 0 unless the cost is positive. */
  function PercentOfCost(pl: real, cost: real): (r: real)
    ensures cost <= 0.0 ==> r == 0.0
    ensures cost > 0.0 ==> r * cost == pl * 100.0
  {
    if cost > 0.0 then
      PercentRecovers(pl, cost);
      pl / cost * 100.0
    else 0.0
  }

  /** The summary of valued holdings, given the six random draws. */
  function SummaryOf(hs: seq<HoldingView>, draws: seq<real>): Summary {
    var totalValue := TotalValue(hs);
    var totalCost := TotalCost(hs);
    var totalPl := totalValue - totalCost;
    var totalPlPercent := PercentOfCost(totalPl, totalCost);
    Summary(totalValue, totalPl * 0.1, totalPlPercent * 0.1, TrendData(totalValue, draws),
            totalPl, totalPlPercent, SectorAllocation())
  }

  /** `get_portfolio_summary`: value the statement, then summarise. */
  function PortfolioSummary(quotes: QuoteSource, draws: seq<real>): (r: Result<Summary, Error>)
    ensures r.Ok? <==> Portfolio(PdfService.ParsePdfHoldings(), quotes).Ok?
  {
    match Portfolio(PdfService.ParsePdfHoldings(), quotes)
    case Err(e) => Err(e)
    case Ok(hs) => Ok(SummaryOf(hs, draws))
  }

  /** Draws of random.uniform(0.01, 0.05). */
  predicate ValidDraws(draws: seq<real>) {
    |draws| == 6 && forall i :: 0 <= i < |draws| ==> 0.01 <= draws[i] <= 0.05
  }

  lemma ScaleBetween(a: real, d: real, lo: real, hi: real)
    requires a >= 0.0 && lo <= d <= hi
    ensures a * lo <= a * d <= a * hi
  {
    assert a * (d - lo) >= 0.0;
    assert a * (hi - d) >= 0.0;
  }

  lemma ScaleBetweenNegative(a: real, d: real, lo: real, hi: real)
    requires a < 0.0 && lo <= d <= hi
    ensures a * hi <= a * d <= a * lo
  {
    assert a * (d - lo) <= 0.0;
    assert a * (hi - d) <= 0.0;
  }

  lemma PercentRecovers(x: real, c: real)
    requires c > 0.0
    ensures (x / c * 100.0) * c == x * 100.0
  {
    assert x / c * c == x;
  }

  /** The trend has seven points; the last is the total and each earlier one
      lies between 0.95 and 0.99 times the total. */
  lemma TrendShape(total: real, draws: seq<real>)
    requires ValidDraws(draws)
    ensures var t := TrendData(total, draws);
      && |t| == 7
      && t[6] == total
      && (forall i :: 0 <= i < 6 && total >= 0.0 ==> 0.95 * total <= t[i] <= 0.99 * total)
      && (forall i :: 0 <= i < 6 && total < 0.0 ==> 0.99 * total <= t[i] <= 0.95 * total)
  {
    var t := TrendData(total, draws);
    forall i | 0 <= i < 6
      ensures total >= 0.0 ==> 0.95 * total <= t[i] <= 0.99 * total
      ensures total < 0.0 ==> 0.99 * total <= t[i] <= 0.95 * total
    {
      var f := 1.0 - draws[i];
      assert t[i] == total * f;
      if total >= 0.0 {
        ScaleBetween(total, f, 0.95, 0.99);
        assert total * 0.95 <= total * f <= total * 0.99;
      } else {
        ScaleBetweenNegative(total, f, 0.95, 0.99);
        assert total * 0.99 <= total * f <= total * 0.95;
      }
    }
  }

  /** The allocation's percentages sum to 100 over its four sectors. */
  lemma SectorAllocationSumsTo100()
    ensures var a := SectorAllocation();
      && a.Keys == {"Technology", "Consumer Cyclical", "Healthcare", "Other"}
      && a["Technology"] + a["Consumer Cyclical"] + a["Healthcare"] + a["Other"] == 100.0
  {
  }

  /** A holding whose P/L is its market value less its cost. */
  predicate PlIsGap(h: HoldingView) {
    h.unrealizedPl == h.marketValue - h.quantity * h.avgCost
  }

  lemma {:induction false} TotalPlIsSumOfHoldingPl(hs: seq<HoldingView>)
    requires forall i :: 0 <= i < |hs| ==> PlIsGap(hs[i])
    ensures TotalUnrealizedPl(hs) == TotalValue(hs) - TotalCost(hs)
  {
    if hs != [] {
      var p := hs[..|hs| - 1];
      assert forall i :: 0 <= i < |p| ==> p[i] == hs[i];
      TotalPlIsSumOfHoldingPl(p);
    }
  }

  lemma {:induction false} AtCostTotals(hs: seq<HoldingView>)
    requires forall i :: 0 <= i < |hs| ==> hs[i].marketValue == hs[i].quantity * hs[i].avgCost
    ensures TotalValue(hs) == TotalCost(hs)
  {
    if hs != [] {
      var p := hs[..|hs| - 1];
      assert forall i :: 0 <= i < |p| ==> p[i] == hs[i];
      AtCostTotals(p);
    }
  }

  /** The summary's P/L is total value less total cost and equals the sum of
      the holdings' P/L; its percentage is 0 without a positive total cost and
      otherwise recovers the P/L from the cost; the weekly figures are a tenth
      of the P/L figures. */
  lemma SummaryTotals(base: seq<BaseHolding>, quotes: QuoteSource, draws: seq<real>)
    requires Portfolio(base, quotes).Ok?
    ensures var hs := Portfolio(base, quotes).value;
      var s := SummaryOf(hs, draws);
      && s.totalValue == TotalValue(hs)
      && s.totalPl == s.totalValue - TotalCost(hs)
      && s.totalPl == TotalUnrealizedPl(hs)
      && (TotalCost(hs) <= 0.0 ==> s.totalPlPercent == 0.0)
      && (TotalCost(hs) > 0.0 ==> s.totalPlPercent * TotalCost(hs) == s.totalPl * 100.0)
      && s.weeklyChangeValue == 0.1 * s.totalPl
      && s.weeklyChangePercent == 0.1 * s.totalPlPercent
      && s.sectorAllocation == SectorAllocation()
  {
    PortfolioPlIsTotalsGap(base, quotes);
  }

  /** Over a valued portfolio the holdings' P/L adds up to total value less
      total cost. */
  lemma PortfolioPlIsTotalsGap(base: seq<BaseHolding>, quotes: QuoteSource)
    requires Portfolio(base, quotes).Ok?
    ensures var hs := Portfolio(base, quotes).value;
      TotalUnrealizedPl(hs) == TotalValue(hs) - TotalCost(hs)
  {
    var hs := Portfolio(base, quotes).value;
    forall i | 0 <= i < |hs|
      ensures PlIsGap(hs[i])
    {
      EntryPl(base, quotes, i);
    }
    TotalPlIsSumOfHoldingPl(hs);
  }

  /** Each valued entry's P/L is its value less its cost. */
  lemma EntryPl(base: seq<BaseHolding>, quotes: QuoteSource, i: nat)
    requires Portfolio(base, quotes).Ok? && i < |Portfolio(base, quotes).value|
    ensures PlIsGap(Portfolio(base, quotes).value[i])
  {
    PortfolioEntries(base, quotes);
    ValuationFacts(base[i], i, quotes(base[i].symbol));
  }

  /** With no quote for any symbol every holding is at cost, so the summary
      shows value equal to cost and no gain. */
  lemma NoQuotesNoGain(base: seq<BaseHolding>, draws: seq<real>)
    requires Portfolio(base, _ => None).Ok?
    ensures var s := SummaryOf(Portfolio(base, _ => None).value, draws);
      s.totalValue == TotalCost(Portfolio(base, _ => None).value)
      && s.totalPl == 0.0 && s.totalPlPercent == 0.0 && s.weeklyChangeValue == 0.0
  {
    var quotes: QuoteSource := _ => None;
    var hs := Portfolio(base, quotes).value;
    PortfolioEntries(base, quotes);
    forall i | 0 <= i < |hs|
      ensures hs[i].marketValue == hs[i].quantity * hs[i].avgCost
    {
      ValuationFacts(base[i], i, None);
    }
    AtCostTotals(hs);
  }

  /** The statement summary always exists; without quotes it shows no gain. */
  lemma StatementSummary(quotes: QuoteSource, draws: seq<real>)
    ensures PortfolioSummary(quotes, draws).Ok?
    ensures PortfolioSummary(_ => None, draws).Ok? && PortfolioSummary(_ => None, draws).value.totalPl == 0.0
  {
    StatementValuationSucceeds(quotes);
    StatementValuationSucceeds(_ => None);
    NoQuotesNoGain(PdfService.ParsePdfHoldings(), draws);
  }
}
