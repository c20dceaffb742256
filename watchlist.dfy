/** The watchlist: one card per quote, each with a buy-score gauge, a signed
    change label and a 52-week range bar. The gauge is a circle of radius
    45 whose stroke offset shows the score; pi is a parameter, since the
    model has no real number for it. */
module Watchlist {
  import opened Wrappers
  import opened ClientTypes
  import HoldingsTable

  const Red := "#EF4444"
  const Yellow := "#F59E0B"
  const Green := "#10B981"

  /** Red, overwritten by yellow from 40 and then by green from 70. */
  function GaugeColor(score: real): string {
    var initial := Red;
    var afterYellow := if score >= 40.0 then Yellow else initial;
    if score >= 70.0 then Green else afterYellow
  }

  lemma GaugeColorBands(score: real)
    ensures GaugeColor(score) == Red <==> score < 40.0
    ensures GaugeColor(score) == Yellow <==> 40.0 <= score < 70.0
    ensures GaugeColor(score) == Green <==> score >= 70.0
  {
    assert Red[1] != Yellow[1] && Red[1] != Green[1] && Yellow[1] != Green[1];
  }

  const GaugeRadius := 45.0

  function Circumference(pi: real): real {
    2.0 * pi * GaugeRadius
  }

  /** `circumference - (circumference * score) / 100`. */
  function GaugeOffset(pi: real, score: real): real {
    var c := Circumference(pi);
    c - (c * score) / 100.0
  }

  /** The offset is the uncovered share of the circle: the whole circle at
      score 0, nothing at 100, within the circle for scores in [0,100], and
      never larger for a larger score. */
  lemma GaugeOffsetFacts(pi: real, score: real, higher: real)
    requires pi > 0.0
    requires score <= higher
    ensures GaugeOffset(pi, score) == Circumference(pi) * (1.0 - score / 100.0)
    ensures GaugeOffset(pi, 0.0) == Circumference(pi) && GaugeOffset(pi, 100.0) == 0.0
    ensures 0.0 <= score <= 100.0 ==> 0.0 <= GaugeOffset(pi, score) <= Circumference(pi)
    ensures GaugeOffset(pi, higher) <= GaugeOffset(pi, score)
  {
    var c := Circumference(pi);
    assert c > 0.0;
    assert GaugeOffset(pi, higher) - GaugeOffset(pi, score) == c * (score - higher) / 100.0;
    if 0.0 <= score <= 100.0 {
      assert c * score / 100.0 <= c * 100.0 / 100.0 by {
        assert c * (100.0 - score) >= 0.0;
      }
    }
  }

  /** The score the gauge shows, 50 when the AI score is missing or 0. */
  function GaugeScore(q: Quote): real {
    OrElse(q.aiScore, 50.0)
  }

  /** A positive range from the 52-week fields, each missing one as 0, or
      the middle. */
  function Position(q: Quote): real {
    var low := OrElse(q.fiftyTwoWeekLow, 0.0);
    var range := OrElse(q.fiftyTwoWeekHigh, 0.0) - low;
    if range > 0.0 then (q.currentPrice - low) / range * 100.0 else 50.0
  }

  /** Without a positive 52-week range the marker is in the middle; a price
      inside a positive range puts it on the bar. */
  lemma PositionFacts(q: Quote)
    ensures OrElse(q.fiftyTwoWeekHigh, 0.0) <= OrElse(q.fiftyTwoWeekLow, 0.0) ==> Position(q) == 50.0
    ensures OrElse(q.fiftyTwoWeekLow, 0.0) <= q.currentPrice <= OrElse(q.fiftyTwoWeekHigh, 0.0) ==>
      0.0 <= Position(q) <= 100.0
  {
    var low, high := OrElse(q.fiftyTwoWeekLow, 0.0), OrElse(q.fiftyTwoWeekHigh, 0.0);
    if low <= q.currentPrice <= high && high - low > 0.0 {
      Ratio(q.currentPrice - low, high - low);
    }
  }

  predicate IsPositive(q: Quote) {
    q.percentChange >= 0.0
  }

  /** The change label: `+` for a non-negative change, nothing otherwise,
      then the change's magnitude. */
  function ChangeSign(q: Quote): string {
    if IsPositive(q) then "+" else ""
  }

  function ChangeMagnitude(q: Quote): real {
    if q.percentChange >= 0.0 then q.percentChange else -q.percentChange
  }

  const GainBackground := "rgba(16,185,129,0.15)"
  const LossBackground := "rgba(239,68,68,0.15)"

  function ChangeBackground(q: Quote): string {
    if IsPositive(q) then GainBackground else LossBackground
  }

  /** The label never shows a minus sign: a fall and a rise of the same size
      show the same magnitude and differ only in the `+` and the colour. */
  lemma ChangeLabelFacts(q: Quote, r: Quote)
    ensures ChangeMagnitude(q) >= 0.0
    ensures ChangeSign(q) == "+" <==> q.percentChange >= 0.0
    ensures ChangeSign(q) == "" <==> q.percentChange < 0.0
    ensures ChangeBackground(q) == GainBackground <==> q.percentChange >= 0.0
    ensures (if IsPositive(q) then ChangeMagnitude(q) else -ChangeMagnitude(q)) == q.percentChange
    ensures r.percentChange == -q.percentChange ==> ChangeMagnitude(r) == ChangeMagnitude(q)
  {
    assert GainBackground[5] != LossBackground[5];
  }

  /** The market cap shown, "N/A" when it is missing or empty. */
  function MarketCapText(q: Quote): string {
    if q.marketCap.Some? && q.marketCap.value != "" then q.marketCap.value else "N/A"
  }

  datatype Card = Card(symbol: string, marketCap: string, gaugeScore: real, gaugeColor: string,
                       sign: string, magnitude: real, position: real, barColor: string)

  function CardOf(q: Quote): Card {
    var score := GaugeScore(q);
    var position := Position(q);
    Card(q.symbol, MarketCapText(q), score, GaugeColor(score), ChangeSign(q), ChangeMagnitude(q),
         position, HoldingsTable.BarColor(position))
  }

  /** The watchlist: one card per quote, in input order. */
  function Cards(quotes: seq<Quote>): (cards: seq<Card>)
    ensures |cards| == |quotes|
    ensures forall i :: 0 <= i < |quotes| ==> cards[i] == CardOf(quotes[i]) && cards[i].symbol == quotes[i].symbol
  {
    seq(|quotes|, i requires 0 <= i < |quotes| => CardOf(quotes[i]))
  }

  /** A card's bar and marker share the 20/80 colour bands, and a quote
      without an AI score shows 50 in yellow. */
  lemma CardFacts(q: Quote)
    ensures CardOf(q).barColor == HoldingsTable.NearLowColor <==> Position(q) < 20.0
    ensures CardOf(q).barColor == HoldingsTable.NearHighColor <==> Position(q) > 80.0
    ensures CardOf(q).barColor == HoldingsTable.MidColor <==> 20.0 <= Position(q) <= 80.0
    ensures q.aiScore.None? || q.aiScore == Some(0.0) ==> CardOf(q).gaugeScore == 50.0 && CardOf(q).gaugeColor == Yellow
  {
    HoldingsTable.BarColorBands(Position(q));
    GaugeColorBands(GaugeScore(q));
  }
}
