/** The dashboard's stock card: a buy-score gauge of radius 16, the change
    shown as a magnitude with a direction, and a 52-week bar whose position
    divides by the range without a guard, so a flat range yields an infinity
    or NaN. */
module StockCard {
  import opened ClientTypes
  import Watchlist

  /** The fields the card reads from the stock it is given, all present;
      the client's declared quote type carries none but the symbol and the
      market cap under these names. */
  datatype Stock = Stock(symbol: string, name: string, price: real, changePercent: real,
                         week52High: real, week52Low: real, buyScore: real, marketCap: string)

  const Yellow := "text-yellow-500"
  const Cyan := "text-neon-cyan"
  const Red := "text-red-500"

  /** Yellow, overwritten by cyan from 70 and then by red below 40. */
  function GaugeColor(score: real): string {
    var initial := Yellow;
    var afterHigh := if score >= 70.0 then Cyan else initial;
    if score < 40.0 then Red else afterHigh
  }

  lemma GaugeColorBands(score: real)
    ensures GaugeColor(score) == Red <==> score < 40.0
    ensures GaugeColor(score) == Yellow <==> 40.0 <= score < 70.0
    ensures GaugeColor(score) == Cyan <==> score >= 70.0
  {
    assert Yellow[5] != Cyan[5] && Yellow[5] != Red[5] && Cyan[5] != Red[5];
  }

  const GaugeRadius := 16.0

  function Circumference(pi: real): real {
    2.0 * pi * GaugeRadius
  }

  /** `circumference - (score / 100) * circumference`. */
  function GaugeOffset(pi: real, score: real): real {
    var c := Circumference(pi);
    c - (score / 100.0) * c
  }

  /** The same shape as the watchlist gauge: the whole circle at 0, nothing
      at 100, never larger for a larger score. */
  lemma GaugeOffsetFacts(pi: real, score: real, higher: real)
    requires pi > 0.0
    requires score <= higher
    ensures GaugeOffset(pi, score) == Circumference(pi) * (1.0 - score / 100.0)
    ensures GaugeOffset(pi, 0.0) == Circumference(pi) && GaugeOffset(pi, 100.0) == 0.0
    ensures 0.0 <= score <= 100.0 ==> 0.0 <= GaugeOffset(pi, score) <= Circumference(pi)
    ensures GaugeOffset(pi, higher) <= GaugeOffset(pi, score)
  {
    var c := Circumference(pi);
    assert c > 0.0;
    assert GaugeOffset(pi, higher) - GaugeOffset(pi, score) == (score - higher) / 100.0 * c;
    if 0.0 <= score <= 100.0 {
      assert score / 100.0 * c <= c by {
        assert (1.0 - score / 100.0) * c >= 0.0;
      }
    }
  }

  /** Both gauges draw the same fraction of their circle for every score. */
  lemma GaugesShowSameFraction(pi: real, score: real)
    requires pi > 0.0
    ensures GaugeOffset(pi, score) / Circumference(pi) == Watchlist.GaugeOffset(pi, score) / Watchlist.Circumference(pi)
  {
    GaugeOffsetFacts(pi, score, score);
    Watchlist.GaugeOffsetFacts(pi, score, score);
  }

  /** `(price - low) / range * 100`, with no guard on the range. */
  function Position(s: Stock): JsNumber {
    JsScale(JsDivide(s.price - s.week52Low, s.week52High - s.week52Low), 100.0)
  }

  /** "Mid Range", overwritten by "Near Low" below 20 and then by
      "Near High" above 80; comparisons with NaN are false. */
  function RangeText(position: JsNumber): string {
    var initial := "Mid Range";
    var afterLow := if JsLess(position, 20.0) then "Near Low" else initial;
    if JsGreater(position, 80.0) then "Near High" else afterLow
  }

  /** With a proper range the position is the price's place in it and the
      text follows the 20/80 bands. */
  lemma PositionWithRange(s: Stock)
    requires s.week52High != s.week52Low
    ensures Position(s) == Finite((s.price - s.week52Low) / (s.week52High - s.week52Low) * 100.0)
    ensures var p := Position(s).value;
      && (RangeText(Position(s)) == "Near Low" <==> p < 20.0)
      && (RangeText(Position(s)) == "Near High" <==> p > 80.0)
      && (RangeText(Position(s)) == "Mid Range" <==> 20.0 <= p <= 80.0)
  {
    assert "Near Low"[5] != "Near High"[5];
  }

  /** A flat 52-week range divides by zero: the position is not a finite
      number, and the text reads "Near High" above the range, "Near Low"
      below it and "Mid Range" at it. */
  lemma FlatRange(s: Stock)
    requires s.week52High == s.week52Low
    ensures !Position(s).Finite?
    ensures s.price > s.week52Low ==> Position(s) == PosInfinity && RangeText(Position(s)) == "Near High"
    ensures s.price < s.week52Low ==> Position(s) == NegInfinity && RangeText(Position(s)) == "Near Low"
    ensures s.price == s.week52Low ==> Position(s) == NaN && RangeText(Position(s)) == "Mid Range"
  {
  }

  predicate IsPositive(s: Stock) {
    s.changePercent >= 0.0
  }

  function ChangeText(s: Stock): string {
    if IsPositive(s) then Cyan else "text-red-400"
  }

  /** `Math.abs(change_percent)`. */
  function ChangeMagnitude(s: Stock): real {
    if s.changePercent >= 0.0 then s.changePercent else -s.changePercent
  }

  /** The direction and the magnitude together give back the change. */
  lemma ChangeFacts(s: Stock)
    ensures ChangeMagnitude(s) >= 0.0
    ensures ChangeText(s) == Cyan <==> s.changePercent >= 0.0
    ensures (if IsPositive(s) then ChangeMagnitude(s) else -ChangeMagnitude(s)) == s.changePercent
  {
    assert Cyan[5] != "text-red-400"[5];
  }
}
