/** The rules-based recommendation engine of the backend: holdings are valued
    at cost basis (quantity times average cost), grouped by sector, and four
    rules append recommendations while a diversification score is lowered
    from 100. A quote source then fills in each recommendation's price. */
module Recommendations {
  import opened Wrappers
  import Decimal

  /** A stored holding row, as far as the engine reads it. */
  datatype Holding = Holding(symbol: string, quantity: real, avgCost: real, sector: string)

  /** Which rule produced a recommendation, with the sector or symbol its
      reason text names (the text itself, with its rounded percentage, is not
      modelled). */
  datatype Reason =
    | SectorConcentration(sector: string)
    | StockConcentration(symbol: string)
    | FewHoldings
    | HeavyTech

  datatype Recommendation = Recommendation(
    symbol: string,
    reason: Reason,
    riskLevel: string,
    suggestedAction: string,
    currentPrice: Option<real>)

  datatype Response = Response(
    recommendations: seq<Recommendation>,
    portfolioRiskSummary: string,
    diversificationScore: int)

  /** The Technology share is computed without checking the total first. */
  datatype Error = DivisionByZero

  const SectorLimit: real := 0.4
  const HoldingLimit: real := 0.25
  const TechLimit: real := 0.5
  const Technology: string := "Technology"

  // ---------------------------------------------------------------------
  // Aggregation by sector

  function Cost(h: Holding): real {
    h.quantity * h.avgCost
  }

  /** Sum of the cost bases of all holdings. */
  function TotalValue(hs: seq<Holding>): real {
    if hs == [] then 0.0 else TotalValue(hs[..|hs| - 1]) + Cost(hs[|hs| - 1])
  }

  /** Sum of the cost bases of the holdings in sector `s`. */
  function SectorValue(hs: seq<Holding>, s: string): real {
    if hs == [] then 0.0
    else SectorValue(hs[..|hs| - 1], s) + (if hs[|hs| - 1].sector == s then Cost(hs[|hs| - 1]) else 0.0)
  }

  predicate Distinct(o: seq<string>) {
    forall i, j :: 0 <= i < j < |o| ==> o[i] != o[j]
  }

  /** The sectors in order of first appearance: the key order of the
      source's `sectors` dictionary. */
  function SectorOrder(hs: seq<Holding>): (o: seq<string>)
    ensures Distinct(o)
    ensures forall k :: 0 <= k < |hs| ==> hs[k].sector in o
  {
    if hs == [] then []
    else
      var p := hs[..|hs| - 1];
      var o := SectorOrder(p);
      assert forall k :: 0 <= k < |p| ==> p[k] == hs[k];
      if hs[|hs| - 1].sector in o then o else o + [hs[|hs| - 1].sector]
  }

  /** Every listed sector is the sector of some holding. */
  lemma {:induction false} SectorOrderFromHoldings(hs: seq<Holding>, s: string)
    requires s in SectorOrder(hs)
    ensures exists k :: 0 <= k < |hs| && hs[k].sector == s
  {
    var p := hs[..|hs| - 1];
    if s in SectorOrder(p) {
      SectorOrderFromHoldings(p, s);
      var k :| 0 <= k < |p| && p[k].sector == s;
      assert hs[k] == p[k];
    } else {
      assert hs[|hs| - 1].sector == s;
    }
  }

  lemma {:induction false} SectorValueOutside(hs: seq<Holding>, s: string)
    requires s !in SectorOrder(hs)
    ensures SectorValue(hs, s) == 0.0
  {
    if hs != [] {
      var p := hs[..|hs| - 1];
      assert s !in SectorOrder(p);
      SectorValueOutside(p, s);
    }
  }

  /** Sum of the sector values over a list of sectors. */
  function SumSectors(o: seq<string>, hs: seq<Holding>): real {
    if o == [] then 0.0 else SumSectors(o[..|o| - 1], hs) + SectorValue(hs, o[|o| - 1])
  }

  lemma {:induction false} SumSectorsStep(o: seq<string>, p: seq<Holding>, h: Holding)
    requires Distinct(o)
    ensures SumSectors(o, p + [h]) == SumSectors(o, p) + (if h.sector in o then Cost(h) else 0.0)
  {
    var hs := p + [h];
    assert hs[..|hs| - 1] == p;
    if o != [] {
      var q := o[..|o| - 1];
      assert Distinct(q);
      SumSectorsStep(q, p, h);
      assert h.sector in o <==> h.sector in q || h.sector == o[|o| - 1];
      assert o[|o| - 1] !in q;
    }
  }

  /** The sector values partition the total: they add up to `TotalValue`. */
  lemma {:induction false} SectorValuesSumToTotal(hs: seq<Holding>)
    ensures SumSectors(SectorOrder(hs), hs) == TotalValue(hs)
  {
    if hs != [] {
      var p, h := hs[..|hs| - 1], hs[|hs| - 1];
      assert hs == p + [h];
      SectorValuesSumToTotal(p);
      var o := SectorOrder(p);
      SumSectorsStep(o, p, h);
      if h.sector !in o {
        SumSectorsStep(o + [h.sector], p, h);
        assert (o + [h.sector])[..|o|] == o;
        SectorValueOutside(p, h.sector);
      }
    }
  }

  // ---------------------------------------------------------------------
  // The four rules

  function Vti(sector: string): Recommendation {
    Recommendation("VTI", SectorConcentration(sector), "Low", "Buy", Some(0.0))
  }

  function Reduce(h: Holding): Recommendation {
    Recommendation(h.symbol, StockConcentration(h.symbol), "High", "Reduce", None)
  }

  const Qqq: Recommendation := Recommendation("QQQ", FewHoldings, "Medium", "Watch", None)
  const Schd: Recommendation := Recommendation("SCHD", HeavyTech, "Low", "Buy", None)

  /** Rule 1: a sector holding more than 40% of a positive total. */
  predicate HeavySector(hs: seq<Holding>, s: string) {
    TotalValue(hs) > 0.0 && SectorValue(hs, s) / TotalValue(hs) > SectorLimit
  }

  /** Rule 2: a holding making up more than 25% of a positive total. */
  predicate HeavyHolding(h: Holding, total: real) {
    total > 0.0 && Cost(h) / total > HoldingLimit
  }

  /** Rule 4: Technology is present and its share exceeds one half. */
  predicate TechHeavy(hs: seq<Holding>) {
    Technology in SectorOrder(hs) && TotalValue(hs) != 0.0
    && SectorValue(hs, Technology) / TotalValue(hs) > TechLimit
  }

  /** Rule 4 divides by the total whenever Technology is present. */
  predicate TechDivisionByZero(hs: seq<Holding>) {
    Technology in SectorOrder(hs) && TotalValue(hs) == 0.0
  }

  function SectorRecsOver(o: seq<string>, hs: seq<Holding>): seq<Recommendation> {
    if o == [] then []
    else
      SectorRecsOver(o[..|o| - 1], hs)
      + (if HeavySector(hs, o[|o| - 1]) then [Vti(o[|o| - 1])] else [])
  }

  /** What rule 1 appends, sector by sector in dictionary order. */
  function SectorRecs(hs: seq<Holding>): seq<Recommendation> {
    if TotalValue(hs) > 0.0 then SectorRecsOver(SectorOrder(hs), hs) else []
  }

  /** What rule 2 appends, holding by holding. */
  function HoldingRecs(hs: seq<Holding>, total: real): seq<Recommendation> {
    if hs == [] then []
    else
      HoldingRecs(hs[..|hs| - 1], total)
      + (if HeavyHolding(hs[|hs| - 1], total) then [Reduce(hs[|hs| - 1])] else [])
  }

  function FewRecs(hs: seq<Holding>): seq<Recommendation> {
    if |hs| < 3 then [Qqq] else []
  }

  function TechRecs(hs: seq<Holding>): seq<Recommendation> {
    if TechHeavy(hs) then [Schd] else []
  }

  /** All recommendations before prices are attached, in rule order. */
  function Rules(hs: seq<Holding>): seq<Recommendation> {
    SectorRecs(hs) + HoldingRecs(hs, TotalValue(hs)) + FewRecs(hs) + TechRecs(hs)
  }

  function RawScore(hs: seq<Holding>): int {
    100 - 30 * |SectorRecs(hs)| - 10 * |HoldingRecs(hs, TotalValue(hs))| - (if |hs| < 3 then 20 else 0)
  }

  function Risk(hs: seq<Holding>): string {
    if |SectorRecs(hs)| > 0 then "High" else "Low"
  }

  function AtLeastZero(x: int): nat {
    if x < 0 then 0 else x
  }

  function SummaryText(risk: string, score: nat): string {
    "Portfolio Risk is " + risk + ". Diversification Score: " + Decimal.NatToString(score) + "/100"
  }

  // ---------------------------------------------------------------------
  // The price step

  function WithQuote(r: Recommendation, quote: string -> Option<real>): Recommendation {
    match quote(r.symbol)
    case Some(p) => r.(currentPrice := Some(p))
    case None => r
  }

  /** The price step changes only `currentPrice`, and only where the quote
      source has a quote for the recommendation's symbol. */
  function AttachQuotes(recs: seq<Recommendation>, quote: string -> Option<real>): (r: seq<Recommendation>)
    ensures |r| == |recs|
    ensures forall i :: 0 <= i < |r| ==> r[i].(currentPrice := recs[i].currentPrice) == recs[i]
    ensures forall i :: 0 <= i < |r| && quote(recs[i].symbol).None? ==> r[i] == recs[i]
    ensures forall i :: 0 <= i < |r| && quote(recs[i].symbol).Some? ==>
      r[i].currentPrice == Some(quote(recs[i].symbol).value)
  {
    seq(|recs|, i requires 0 <= i < |recs| => WithQuote(recs[i], quote))
  }

  /** The whole response, or the division error of rule 4. */
  function Generate(hs: seq<Holding>, quote: string -> Option<real>): Result<Response, Error> {
    if TechDivisionByZero(hs) then Err(DivisionByZero)
    else
      var score := AtLeastZero(RawScore(hs));
      Ok(Response(AttachQuotes(Rules(hs), quote), SummaryText(Risk(hs), score), score))
  }

  // ---------------------------------------------------------------------
  // The engine, step by step as the source runs it

  /** The first loop: total cost basis and the per-sector sums. A Dafny map
      has no key order, so the dictionary's insertion order is kept beside it. */
  method AggregateSectors(hs: seq<Holding>) returns (total: real, sectors: map<string, real>, order: seq<string>)
    ensures total == TotalValue(hs)
    ensures order == SectorOrder(hs)
    ensures forall s :: s in order ==> s in sectors && sectors[s] == SectorValue(hs, s)
    ensures forall s :: s in sectors ==> s in order
  {
    total, sectors, order := 0.0, map[], [];
    for i := 0 to |hs|
      invariant total == TotalValue(hs[..i])
      invariant order == SectorOrder(hs[..i])
      invariant forall s :: s in order ==> s in sectors && sectors[s] == SectorValue(hs[..i], s)
      invariant forall s :: s in sectors ==> s in order
    {
      var h := hs[i];
      assert hs[..i + 1][..i] == hs[..i];
      var v := Cost(h);
      total := total + v;
      var before := if h.sector in sectors then sectors[h.sector] else 0.0;
      if h.sector !in sectors {
        SectorValueOutside(hs[..i], h.sector);
        order := order + [h.sector];
      }
      sectors := sectors[h.sector := before + v];
    }
    assert hs[..|hs|] == hs;
  }

  /** The price step: set each recommendation's price in place when a quote exists. */
  method FetchPrices(recs: seq<Recommendation>, quote: string -> Option<real>) returns (out: seq<Recommendation>)
    ensures out == AttachQuotes(recs, quote)
  {
    out := recs;
    for i := 0 to |out|
      invariant |out| == |recs|
      invariant forall k :: 0 <= k < i ==> out[k] == WithQuote(recs[k], quote)
      invariant forall k :: i <= k < |out| ==> out[k] == recs[k]
    {
      var q := quote(out[i].symbol);
      if q.Some? {
        out := out[i := out[i].(currentPrice := Some(q.value))];
      }
    }
  }

  /** Rule 1: one VTI recommendation per over-weight sector, in dictionary
      order; each marks the portfolio High risk and costs 30 points. */
  method ApplySectorRule(holdings: seq<Holding>, total: real, sectors: map<string, real>, order: seq<string>,
                         recs: seq<Recommendation>, risk: string, score: int)
    returns (recs': seq<Recommendation>, risk': string, score': int)
    requires total == TotalValue(holdings)
    requires forall s :: s in order ==> s in sectors && sectors[s] == SectorValue(holdings, s)
    ensures var added := if total > 0.0 then SectorRecsOver(order, holdings) else [];
      && recs' == recs + added
      && risk' == (if added != [] then "High" else risk)
      && score' == score - 30 * |added|
  {
    recs', risk', score' := recs, risk, score;
    if total > 0.0 {
      for i := 0 to |order|
        invariant recs' == recs + SectorRecsOver(order[..i], holdings)
        invariant score' == score - 30 * |SectorRecsOver(order[..i], holdings)|
        invariant risk' == if SectorRecsOver(order[..i], holdings) != [] then "High" else risk
      {
        assert order[..i + 1][..i] == order[..i];
        var sector := order[i];
        assert sector in order;
        var weight := sectors[sector] / total;
        assert weight > SectorLimit <==> HeavySector(holdings, sector);
        if weight > SectorLimit {
          recs' := recs' + [Vti(sector)];
          risk' := "High";
          score' := score' - 30;
        }
      }
      assert order[..|order|] == order;
    }
  }

  /** Rule 2: one Reduce recommendation per over-weight holding, in holding
      order; each costs 10 points. */
  method ApplyHoldingRule(holdings: seq<Holding>, total: real, recs: seq<Recommendation>, score: int)
    returns (recs': seq<Recommendation>, score': int)
    ensures recs' == recs + HoldingRecs(holdings, total)
    ensures score' == score - 10 * |HoldingRecs(holdings, total)|
  {
    recs', score' := recs, score;
    for i := 0 to |holdings|
      invariant recs' == recs + HoldingRecs(holdings[..i], total)
      invariant score' == score - 10 * |HoldingRecs(holdings[..i], total)|
    {
      assert holdings[..i + 1][..i] == holdings[..i];
      var h := holdings[i];
      if total > 0.0 {
        var weight := Cost(h) / total;
        if weight > HoldingLimit {
          recs' := recs' + [Reduce(h)];
          score' := score' - 10;
        }
      }
    }
    assert holdings[..|holdings|] == holdings;
  }

  /** Rule 4: SCHD when Technology exceeds half the total. The share is
      computed whenever Technology is present, so a zero total fails here. */
  method ApplyTechRule(holdings: seq<Holding>, total: real, sectors: map<string, real>, order: seq<string>,
                       recs: seq<Recommendation>)
    returns (r: Result<seq<Recommendation>, Error>)
    requires total == TotalValue(holdings) && order == SectorOrder(holdings)
    requires forall s :: s in order ==> s in sectors && sectors[s] == SectorValue(holdings, s)
    requires forall s :: s in sectors ==> s in order
    ensures r == if TechDivisionByZero(holdings) then Err(DivisionByZero) else Ok(recs + TechRecs(holdings))
  {
    assert recs + [] == recs;
    if Technology in sectors {
      assert sectors[Technology] == SectorValue(holdings, Technology);
      if total == 0.0 {
        return Err(DivisionByZero);
      }
      if sectors[Technology] / total > TechLimit {
        return Ok(recs + [Schd]);
      }
      return Ok(recs);
    }
    assert Technology !in order;
    return Ok(recs);
  }

  method GenerateRecommendations(holdings: seq<Holding>, quote: string -> Option<real>)
    returns (r: Result<Response, Error>)
    ensures r == Generate(holdings, quote)
  {
    var recommendations: seq<Recommendation> := [];
    var portfolioRisk := "Low";
    var diversificationScore := 100;

    var total, sectors, order := AggregateSectors(holdings);
    recommendations, portfolioRisk, diversificationScore :=
      ApplySectorRule(holdings, total, sectors, order, recommendations, portfolioRisk, diversificationScore);
    assert recommendations == SectorRecs(holdings);
    recommendations, diversificationScore :=
      ApplyHoldingRule(holdings, total, recommendations, diversificationScore);

    // 3. Few holdings
    if |holdings| < 3 {
      recommendations := recommendations + [Qqq];
      diversificationScore := diversificationScore - 20;
    }
    assert recommendations == SectorRecs(holdings) + HoldingRecs(holdings, total) + FewRecs(holdings);

    var withTech := ApplyTechRule(holdings, total, sectors, order, recommendations);
    if withTech.Err? {
      return Err(withTech.error);
    }
    assert withTech.value == Rules(holdings);

    recommendations := FetchPrices(withTech.value, quote);
    var score := if diversificationScore < 0 then 0 else diversificationScore;
    r := Ok(Response(recommendations, SummaryText(portfolioRisk, score), score));
  }

  // ---------------------------------------------------------------------
  // Properties of the engine

  function CountReason(recs: seq<Recommendation>, reason: Reason): nat {
    if recs == [] then 0 else (if recs[0].reason == reason then 1 else 0) + CountReason(recs[1..], reason)
  }

  /** 0 for rule 1, 1 for rule 2, 2 for rule 3, 3 for rule 4. */
  function ReasonRank(reason: Reason): nat {
    match reason
    case SectorConcentration(_) => 0
    case StockConcentration(_) => 1
    case FewHoldings => 2
    case HeavyTech => 3
  }

  function RuleRank(r: Recommendation): nat {
    ReasonRank(r.reason)
  }

  function CountRank(recs: seq<Recommendation>, k: nat): nat {
    if recs == [] then 0 else (if RuleRank(recs[0]) == k then 1 else 0) + CountRank(recs[1..], k)
  }

  predicate AllRank(recs: seq<Recommendation>, k: nat) {
    forall i :: 0 <= i < |recs| ==> RuleRank(recs[i]) == k
  }

  /** The sector a rule 1 recommendation names ("" for the other rules). */
  function SectorOf(r: Recommendation): string {
    if r.reason.SectorConcentration? then r.reason.sector else ""
  }

  /** Each rule fixes symbol, risk level and action of what it produces. */
  predicate WellFormed(r: Recommendation) {
    match r.reason
    case SectorConcentration(_) => r.symbol == "VTI" && r.riskLevel == "Low" && r.suggestedAction == "Buy"
    case StockConcentration(sym) => r.symbol == sym && r.riskLevel == "High" && r.suggestedAction == "Reduce"
    case FewHoldings => r.symbol == "QQQ" && r.riskLevel == "Medium" && r.suggestedAction == "Watch"
    case HeavyTech => r.symbol == "SCHD" && r.riskLevel == "Low" && r.suggestedAction == "Buy"
  }

  predicate AllWellFormed(recs: seq<Recommendation>) {
    forall i :: 0 <= i < |recs| ==> WellFormed(recs[i])
  }

  lemma {:induction false} CountAppend(a: seq<Recommendation>, b: seq<Recommendation>, reason: Reason, k: nat)
    ensures CountReason(a + b, reason) == CountReason(a, reason) + CountReason(b, reason)
    ensures CountRank(a + b, k) == CountRank(a, k) + CountRank(b, k)
  {
    if a != [] {
      assert (a + b)[0] == a[0];
      assert (a + b)[1..] == a[1..] + b;
      CountAppend(a[1..], b, reason, k);
    } else {
      assert a + b == b;
    }
  }

  /** Counting cannot see a change that keeps every reason. */
  lemma {:induction false} CountSameReasons(a: seq<Recommendation>, b: seq<Recommendation>, reason: Reason, k: nat)
    requires |a| == |b| && forall i :: 0 <= i < |a| ==> a[i].reason == b[i].reason
    ensures CountReason(a, reason) == CountReason(b, reason)
    ensures CountRank(a, k) == CountRank(b, k)
  {
    if a != [] {
      assert a[0].reason == b[0].reason;
      CountSameReasons(a[1..], b[1..], reason, k);
    }
  }

  /** A list produced by one rule counts nothing of another rule's reason. */
  lemma {:induction false} CountUniform(a: seq<Recommendation>, k0: nat, reason: Reason, k: nat)
    requires AllRank(a, k0) && ReasonRank(reason) != k0
    ensures CountReason(a, reason) == 0
    ensures CountRank(a, k) == if k == k0 then |a| else 0
  {
    if a != [] {
      assert RuleRank(a[0]) == k0;
      CountUniform(a[1..], k0, reason, k);
    }
  }

  lemma {:induction false} SectorRecsShape(o: seq<string>, hs: seq<Holding>)
    ensures var sr := SectorRecsOver(o, hs);
      AllRank(sr, 0) && AllWellFormed(sr) && forall i :: 0 <= i < |sr| ==> SectorOf(sr[i]) in o
  {
    if o != [] {
      var p, x := o[..|o| - 1], o[|o| - 1];
      SectorRecsShape(p, hs);
      var sp, sr := SectorRecsOver(p, hs), SectorRecsOver(o, hs);
      forall i | 0 <= i < |sr| ensures RuleRank(sr[i]) == 0 && WellFormed(sr[i]) && SectorOf(sr[i]) in o {
        if i < |sp| {
          assert sr[i] == sp[i];
          assert SectorOf(sp[i]) in p;
        } else {
          assert sr[i] == Vti(x);
        }
      }
    }
  }

  lemma {:induction false} HoldingRecsShape(hs: seq<Holding>, total: real)
    ensures AllRank(HoldingRecs(hs, total), 1) && AllWellFormed(HoldingRecs(hs, total))
  {
    if hs != [] {
      var p := hs[..|hs| - 1];
      HoldingRecsShape(p, total);
      var hp, hr := HoldingRecs(p, total), HoldingRecs(hs, total);
      forall i | 0 <= i < |hr| ensures RuleRank(hr[i]) == 1 && WellFormed(hr[i]) {
        if i < |hp| {
          assert hr[i] == hp[i];
        } else {
          assert hr[i] == Reduce(hs[|hs| - 1]);
        }
      }
    }
  }

  lemma SectorRecsRank(hs: seq<Holding>)
    ensures AllRank(SectorRecs(hs), 0)
  {
    SectorRecsShape(SectorOrder(hs), hs);
  }

  lemma RulesShape(hs: seq<Holding>)
    ensures AllWellFormed(Rules(hs))
    ensures AllRank(SectorRecs(hs), 0)
    ensures AllRank(HoldingRecs(hs, TotalValue(hs)), 1)
  {
    SectorRecsShape(SectorOrder(hs), hs);
    HoldingRecsShape(hs, TotalValue(hs));
    var a, b, c, d := SectorRecs(hs), HoldingRecs(hs, TotalValue(hs)), FewRecs(hs), TechRecs(hs);
    var rs := Rules(hs);
    forall i | 0 <= i < |rs| ensures WellFormed(rs[i]) {
      if i < |a| { assert rs[i] == a[i]; }
      else if i < |a| + |b| { assert rs[i] == b[i - |a|]; }
      else if i < |a| + |b| + |c| { assert rs[i] == c[i - |a| - |b|]; }
      else { assert rs[i] == d[i - |a| - |b| - |c|]; }
    }
  }

  /** Every recommendation has the symbol, risk level and action of its rule,
      and the price step keeps them. */
  lemma GenerateWellFormed(hs: seq<Holding>, quote: string -> Option<real>)
    requires Generate(hs, quote).Ok?
    ensures AllWellFormed(Generate(hs, quote).value.recommendations)
  {
    RulesShape(hs);
    var rs, recs := Rules(hs), Generate(hs, quote).value.recommendations;
    forall i | 0 <= i < |recs| ensures WellFormed(recs[i]) {
      assert recs[i].(currentPrice := rs[i].currentPrice) == rs[i];
    }
  }

  /** Where each rule's output sits in the list. */
  lemma RulePositions(hs: seq<Holding>, quote: string -> Option<real>)
    requires Generate(hs, quote).Ok?
    ensures var recs, a, b := Generate(hs, quote).value.recommendations, SectorRecs(hs), HoldingRecs(hs, TotalValue(hs));
      forall i :: 0 <= i < |recs| ==>
        && (i < |a| ==> recs[i].reason == a[i].reason)
        && RuleRank(recs[i]) == if i < |a| then 0 else if i < |a| + |b| then 1
                                else if i < |a| + |b| + |FewRecs(hs)| then 2 else 3
  {
    RulesShape(hs);
    var a, b, c, d := SectorRecs(hs), HoldingRecs(hs, TotalValue(hs)), FewRecs(hs), TechRecs(hs);
    var rs, recs := Rules(hs), Generate(hs, quote).value.recommendations;
    forall i | 0 <= i < |recs|
      ensures (i < |a| ==> recs[i].reason == a[i].reason)
      ensures RuleRank(recs[i]) == if i < |a| then 0 else if i < |a| + |b| then 1
                                   else if i < |a| + |b| + |c| then 2 else 3
    {
      assert recs[i].(currentPrice := rs[i].currentPrice) == rs[i];
      if i < |a| { assert rs[i] == a[i]; }
      else if i < |a| + |b| { assert rs[i] == b[i - |a|]; }
      else if i < |a| + |b| + |c| { assert rs[i] == c[i - |a| - |b|]; }
      else { assert rs[i] == d[i - |a| - |b| - |c|]; }
    }
  }

  /** Recommendations appear in rule order: sector, holding, QQQ, SCHD. */
  lemma RuleOrder(hs: seq<Holding>, quote: string -> Option<real>)
    requires Generate(hs, quote).Ok?
    ensures var recs := Generate(hs, quote).value.recommendations;
      forall i, j :: 0 <= i < j < |recs| ==> RuleRank(recs[i]) <= RuleRank(recs[j])
  {
    RulePositions(hs, quote);
  }

  lemma {:induction false} SectorRecsCount(o: seq<string>, hs: seq<Holding>, s: string)
    requires Distinct(o)
    ensures CountReason(SectorRecsOver(o, hs), SectorConcentration(s)) == if s in o && HeavySector(hs, s) then 1 else 0
  {
    if o != [] {
      var p, x := o[..|o| - 1], o[|o| - 1];
      assert Distinct(p);
      SectorRecsCount(p, hs, s);
      CountAppend(SectorRecsOver(p, hs), if HeavySector(hs, x) then [Vti(x)] else [], SectorConcentration(s), 0);
      assert s in o <==> s in p || s == x;
      assert x !in p;
    }
  }

  /** A count over the response is the sum of the counts over the four rules. */
  lemma CountRules(hs: seq<Holding>, quote: string -> Option<real>, reason: Reason, k: nat)
    requires Generate(hs, quote).Ok?
    ensures var recs := Generate(hs, quote).value.recommendations;
      && CountReason(recs, reason) == CountReason(SectorRecs(hs), reason) + CountReason(HoldingRecs(hs, TotalValue(hs)), reason)
                                      + CountReason(FewRecs(hs), reason) + CountReason(TechRecs(hs), reason)
      && CountRank(recs, k) == CountRank(SectorRecs(hs), k) + CountRank(HoldingRecs(hs, TotalValue(hs)), k)
                                + CountRank(FewRecs(hs), k) + CountRank(TechRecs(hs), k)
  {
    var a, b, c, d := SectorRecs(hs), HoldingRecs(hs, TotalValue(hs)), FewRecs(hs), TechRecs(hs);
    CountAppend(a, b, reason, k);
    CountAppend(a + b, c, reason, k);
    CountAppend(a + b + c, d, reason, k);
    var rs, recs := Rules(hs), Generate(hs, quote).value.recommendations;
    forall i | 0 <= i < |recs| ensures recs[i].reason == rs[i].reason {
      assert recs[i].(currentPrice := rs[i].currentPrice) == rs[i];
    }
    CountSameReasons(recs, rs, reason, k);
  }

  /** Exactly one VTI recommendation for each sector whose weight exceeds 40%. */
  lemma VtiPerHeavySector(hs: seq<Holding>, quote: string -> Option<real>, s: string)
    requires Generate(hs, quote).Ok?
    ensures CountReason(Generate(hs, quote).value.recommendations, SectorConcentration(s))
            == if s in SectorOrder(hs) && HeavySector(hs, s) then 1 else 0
  {
    CountRules(hs, quote, SectorConcentration(s), 0);
    HoldingRecsShape(hs, TotalValue(hs));
    CountUniform(HoldingRecs(hs, TotalValue(hs)), 1, SectorConcentration(s), 0);
    assert CountReason(FewRecs(hs), SectorConcentration(s)) == 0;
    assert CountReason(TechRecs(hs), SectorConcentration(s)) == 0;
    if TotalValue(hs) > 0.0 {
      SectorRecsCount(SectorOrder(hs), hs, s);
    } else {
      assert SectorRecs(hs) == [] && !HeavySector(hs, s);
    }
  }

  /** The number of holdings with symbol `sym` that exceed 25% of the total. */
  function HeavyWithSymbol(hs: seq<Holding>, total: real, sym: string): nat {
    if hs == [] then 0
    else HeavyWithSymbol(hs[..|hs| - 1], total, sym)
         + (if hs[|hs| - 1].symbol == sym && HeavyHolding(hs[|hs| - 1], total) then 1 else 0)
  }

  lemma {:induction false} HoldingRecsCount(hs: seq<Holding>, total: real, sym: string)
    ensures CountReason(HoldingRecs(hs, total), StockConcentration(sym)) == HeavyWithSymbol(hs, total, sym)
  {
    if hs != [] {
      var p, h := hs[..|hs| - 1], hs[|hs| - 1];
      HoldingRecsCount(p, total, sym);
      CountAppend(HoldingRecs(p, total), if HeavyHolding(h, total) then [Reduce(h)] else [], StockConcentration(sym), 0);
    }
  }

  /** One Reduce recommendation carrying the holding's own symbol for each
      holding whose weight exceeds 25%. */
  lemma ReducePerHeavyHolding(hs: seq<Holding>, quote: string -> Option<real>, sym: string)
    requires Generate(hs, quote).Ok?
    ensures CountReason(Generate(hs, quote).value.recommendations, StockConcentration(sym))
            == HeavyWithSymbol(hs, TotalValue(hs), sym)
  {
    CountRules(hs, quote, StockConcentration(sym), 0);
    SectorRecsRank(hs);
    HoldingRecsShape(hs, TotalValue(hs));
    assert CountReason(FewRecs(hs), StockConcentration(sym)) == if StockConcentration(sym) == FewHoldings && |hs| < 3 then 1 else 0;
    assert CountReason(TechRecs(hs), StockConcentration(sym)) == if StockConcentration(sym) == HeavyTech && TechHeavy(hs) then 1 else 0;
    CountUniform(SectorRecs(hs), 0, StockConcentration(sym), 0);
    HoldingRecsCount(hs, TotalValue(hs), sym);
  }

  /** QQQ is recommended exactly when there are fewer than three holdings. */
  lemma QqqIffFewHoldings(hs: seq<Holding>, quote: string -> Option<real>)
    requires Generate(hs, quote).Ok?
    ensures CountReason(Generate(hs, quote).value.recommendations, FewHoldings) == if |hs| < 3 then 1 else 0
  {
    CountRules(hs, quote, FewHoldings, 0);
    SectorRecsRank(hs);
    HoldingRecsShape(hs, TotalValue(hs));
    assert CountReason(FewRecs(hs), FewHoldings) == if FewHoldings == FewHoldings && |hs| < 3 then 1 else 0;
    assert CountReason(TechRecs(hs), FewHoldings) == if FewHoldings == HeavyTech && TechHeavy(hs) then 1 else 0;
    CountUniform(SectorRecs(hs), 0, FewHoldings, 0);
    CountUniform(HoldingRecs(hs, TotalValue(hs)), 1, FewHoldings, 0);
  }

  /** SCHD is recommended exactly when Technology exceeds half the total. */
  lemma SchdIffHeavyTech(hs: seq<Holding>, quote: string -> Option<real>)
    requires Generate(hs, quote).Ok?
    ensures CountReason(Generate(hs, quote).value.recommendations, HeavyTech)
            == if TechHeavy(hs) then 1 else 0
  {
    CountRules(hs, quote, HeavyTech, 0);
    SectorRecsRank(hs);
    HoldingRecsShape(hs, TotalValue(hs));
    assert CountReason(FewRecs(hs), HeavyTech) == if HeavyTech == FewHoldings && |hs| < 3 then 1 else 0;
    assert CountReason(TechRecs(hs), HeavyTech) == if HeavyTech == HeavyTech && TechHeavy(hs) then 1 else 0;
    CountUniform(SectorRecs(hs), 0, HeavyTech, 0);
    CountUniform(HoldingRecs(hs, TotalValue(hs)), 1, HeavyTech, 0);
  }

  /** The reported score is what the recommendations cost: 30 per sector
      warning, 10 per holding warning, 20 for the few-holdings rule, floored at
      0; it never leaves [0, 100]. */
  lemma ScoreFromRecommendations(hs: seq<Holding>, quote: string -> Option<real>)
    requires Generate(hs, quote).Ok?
    ensures var r := Generate(hs, quote).value;
      && r.diversificationScore == AtLeastZero(100 - 30 * CountRank(r.recommendations, 0)
                                               - 10 * CountRank(r.recommendations, 1)
                                               - 20 * CountRank(r.recommendations, 2))
      && 0 <= r.diversificationScore <= 100
  {
    RulesShape(hs);
    var a, b := SectorRecs(hs), HoldingRecs(hs, TotalValue(hs));
    forall k: nat | k <= 2
      ensures CountRank(Generate(hs, quote).value.recommendations, k)
              == if k == 0 then |a| else if k == 1 then |b| else if |hs| < 3 then 1 else 0
    {
      CountRules(hs, quote, HeavyTech, k);
      CountUniform(a, 0, HeavyTech, k);
      CountUniform(b, 1, HeavyTech, k);
      assert CountRank(FewRecs(hs), k) == if k == 2 && |hs| < 3 then 1 else 0;
      assert CountRank(TechRecs(hs), k) == 0;
    }
    assert Generate(hs, quote).value.diversificationScore == AtLeastZero(RawScore(hs));
  }

  lemma {:induction false} SectorRecsNonEmpty(o: seq<string>, hs: seq<Holding>)
    ensures SectorRecsOver(o, hs) != [] <==> exists i :: 0 <= i < |o| && HeavySector(hs, o[i])
  {
    if o != [] {
      var p := o[..|o| - 1];
      SectorRecsNonEmpty(p, hs);
      if exists i :: 0 <= i < |p| && HeavySector(hs, p[i]) {
        var i :| 0 <= i < |p| && HeavySector(hs, p[i]);
        assert o[i] == p[i];
      }
      if exists i :: 0 <= i < |o| && HeavySector(hs, o[i]) {
        var i :| 0 <= i < |o| && HeavySector(hs, o[i]);
        if i < |p| { assert p[i] == o[i]; }
      }
    }
  }

  /** Risk is "High" exactly when some sector's weight exceeds 40%, and the
      summary text carries that risk and the reported score. */
  lemma RiskHighIffHeavySector(hs: seq<Holding>, quote: string -> Option<real>)
    requires Generate(hs, quote).Ok?
    ensures var r := Generate(hs, quote).value;
      var high := exists s :: s in SectorOrder(hs) && HeavySector(hs, s);
      r.portfolioRiskSummary == SummaryText(if high then "High" else "Low", r.diversificationScore)
  {
    var o := SectorOrder(hs);
    SectorRecsNonEmpty(o, hs);
    if exists s :: s in o && HeavySector(hs, s) {
      var s :| s in o && HeavySector(hs, s);
      var i :| 0 <= i < |o| && o[i] == s;
    }
  }

  /** An empty portfolio yields only the QQQ suggestion, score 80, risk Low. */
  lemma EmptyPortfolio(quote: string -> Option<real>)
    ensures Generate([], quote) == Ok(Response(AttachQuotes([Qqq], quote), SummaryText("Low", 80), 80))
    ensures Decimal.NatToString(80) == "80"
  {
    var hs: seq<Holding> := [];
    assert SectorOrder(hs) == [] && TotalValue(hs) == 0.0;
    assert !TechDivisionByZero(hs) && !TechHeavy(hs);
    assert SectorRecs(hs) == [] && HoldingRecs(hs, 0.0) == [];
    assert Rules(hs) == [Qqq];
    assert RawScore(hs) == 80;
    assert Risk(hs) == "Low";
    EightyDigits();
  }

  lemma EightyDigits()
    ensures Decimal.NatToString(80) == "80"
  {
    assert Decimal.DigitChar(8) == '8' && Decimal.DigitChar(0) == '0';
  }

  /** A lone Technology holding of zero quantity makes rule 4 divide by zero. */
  lemma ZeroValueTechnologyFails(quote: string -> Option<real>)
    ensures Generate([Holding("AAPL", 0.0, 150.0, Technology)], quote) == Err(DivisionByZero)
  {
    var hs := [Holding("AAPL", 0.0, 150.0, Technology)];
    assert hs[..0] == [];
    assert Cost(hs[0]) == 0.0;
    assert TotalValue(hs) == 0.0;
    assert SectorOrder(hs) == [Technology];
  }

  lemma {:induction false} PositiveTotal(hs: seq<Holding>)
    requires hs != [] && forall i :: 0 <= i < |hs| ==> Cost(hs[i]) > 0.0
    ensures TotalValue(hs) > 0.0
  {
    var p := hs[..|hs| - 1];
    assert Cost(hs[|hs| - 1]) > 0.0;
    if p != [] {
      assert forall i :: 0 <= i < |p| ==> p[i] == hs[i];
      PositiveTotal(p);
    }
  }

  /** With every cost basis positive the engine always answers. */
  lemma PositiveCostsNeverFail(hs: seq<Holding>, quote: string -> Option<real>)
    requires forall i :: 0 <= i < |hs| ==> Cost(hs[i]) > 0.0
    ensures Generate(hs, quote).Ok?
  {
    if hs != [] {
      PositiveTotal(hs);
    }
  }

  // First appearance order of the sector warnings

  /** Index of the first holding in sector `s`, or |hs| when there is none. */
  function FirstIndex(hs: seq<Holding>, s: string): (k: nat)
    ensures k <= |hs|
    ensures k < |hs| ==> hs[k].sector == s
    ensures forall j :: 0 <= j < k ==> hs[j].sector != s
  {
    if hs == [] then 0
    else
      var p := hs[..|hs| - 1];
      var k := FirstIndex(p, s);
      assert forall j :: 0 <= j < |p| ==> p[j] == hs[j];
      if k < |p| then k else if hs[|hs| - 1].sector == s then |p| else |hs|
  }

  lemma SectorOrderHasFirst(hs: seq<Holding>, s: string)
    requires s in SectorOrder(hs)
    ensures FirstIndex(hs, s) < |hs|
  {
    SectorOrderFromHoldings(hs, s);
    var k :| 0 <= k < |hs| && hs[k].sector == s;
  }

  /** `o` lists sectors by strictly increasing first appearance in `hs`. */
  predicate ByFirstAppearance(o: seq<string>, hs: seq<Holding>) {
    forall a, b :: 0 <= a < b < |o| ==> FirstIndex(hs, o[a]) < FirstIndex(hs, o[b])
  }

  /** The dictionary order sorts the sectors by first appearance. */
  lemma {:induction false} SectorOrderByFirstIndex(hs: seq<Holding>)
    ensures ByFirstAppearance(SectorOrder(hs), hs)
  {
    if hs != [] {
      var p, h := hs[..|hs| - 1], hs[|hs| - 1];
      SectorOrderByFirstIndex(p);
      var op, o := SectorOrder(p), SectorOrder(hs);
      forall c | 0 <= c < |op|
        ensures FirstIndex(hs, op[c]) == FirstIndex(p, op[c]) < |p|
      {
        SectorOrderHasFirst(p, op[c]);
      }
      if h.sector !in op {
        assert FirstIndex(hs, h.sector) == |p|;
        forall a | 0 <= a < |op| ensures o[a] == op[a] { }
      }
    }
  }

  lemma {:induction false} SectorRecsFollowOrder(o: seq<string>, hs: seq<Holding>)
    requires ByFirstAppearance(o, hs)
    ensures var sr := SectorRecsOver(o, hs);
      forall i, j :: 0 <= i < j < |sr| ==> FirstIndex(hs, SectorOf(sr[i])) < FirstIndex(hs, SectorOf(sr[j]))
  {
    if o != [] {
      var p, x := o[..|o| - 1], o[|o| - 1];
      assert forall a :: 0 <= a < |p| ==> p[a] == o[a];
      SectorRecsFollowOrder(p, hs);
      SectorRecsShape(p, hs);
      var sp, sr := SectorRecsOver(p, hs), SectorRecsOver(o, hs);
      forall i | 0 <= i < |sp| ensures sr[i] == sp[i] && FirstIndex(hs, SectorOf(sp[i])) < FirstIndex(hs, x) {
        var a :| 0 <= a < |p| && p[a] == SectorOf(sp[i]);
      }
      if |sr| > |sp| {
        assert sr[|sp|] == Vti(x);
      }
    }
  }

  /** The rule 1 output opens the response and nothing after it is a sector warning. */
  lemma SectorRecsLead(hs: seq<Holding>, quote: string -> Option<real>)
    requires Generate(hs, quote).Ok?
    ensures var recs, a := Generate(hs, quote).value.recommendations, SectorRecs(hs);
      && |a| <= |recs|
      && (forall i :: 0 <= i < |a| ==> SectorOf(recs[i]) == SectorOf(a[i]))
      && (forall i :: |a| <= i < |recs| ==> RuleRank(recs[i]) != 0)
  {
    RulesShape(hs);
    var a, b, c, d := SectorRecs(hs), HoldingRecs(hs, TotalValue(hs)), FewRecs(hs), TechRecs(hs);
    var rs, recs := Rules(hs), Generate(hs, quote).value.recommendations;
    forall i | 0 <= i < |recs|
      ensures i < |a| ==> SectorOf(recs[i]) == SectorOf(a[i])
      ensures |a| <= i ==> RuleRank(recs[i]) != 0
    {
      assert recs[i].(currentPrice := rs[i].currentPrice) == rs[i];
      if i < |a| { assert rs[i] == a[i]; }
      else if i < |a| + |b| { assert rs[i] == b[i - |a|]; }
      else if i < |a| + |b| + |c| { assert rs[i] == c[i - |a| - |b|]; }
      else { assert rs[i] == d[i - |a| - |b| - |c|]; }
    }
  }

  /** The VTI recommendations come in the order in which their sectors first
      appear among the holdings. */
  lemma VtiInFirstAppearanceOrder(hs: seq<Holding>, quote: string -> Option<real>)
    requires Generate(hs, quote).Ok?
    ensures var recs := Generate(hs, quote).value.recommendations;
      forall i, j :: 0 <= i < j < |recs| && RuleRank(recs[j]) == 0 ==>
        FirstIndex(hs, SectorOf(recs[i])) < FirstIndex(hs, SectorOf(recs[j]))
  {
    SectorRecsLead(hs, quote);
    var recs, a := Generate(hs, quote).value.recommendations, SectorRecs(hs);
    if TotalValue(hs) > 0.0 {
      SectorOrderByFirstIndex(hs);
      SectorRecsFollowOrder(SectorOrder(hs), hs);
      assert a == SectorRecsOver(SectorOrder(hs), hs);
      forall i, j | 0 <= i < j < |recs| && RuleRank(recs[j]) == 0
        ensures FirstIndex(hs, SectorOf(recs[i])) < FirstIndex(hs, SectorOf(recs[j]))
      {
        assert j < |a|;
        assert SectorOf(recs[i]) == SectorOf(a[i]);
        assert SectorOf(recs[j]) == SectorOf(a[j]);
        assert FirstIndex(hs, SectorOf(a[i])) < FirstIndex(hs, SectorOf(a[j]));
      }
    } else {
      assert |a| == 0;
    }
  }
}
