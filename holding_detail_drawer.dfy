/** The side drawer of the dashboard holdings table: the total return as a
    direction and a magnitude, the buy score with its recommendation and
    colours, and how far the price sits above the 52-week low. */
module HoldingDetailDrawer {
  import opened Wrappers
  import opened ClientTypes

  const StrongBuy := "Strong Buy"
  const Hold := "Hold"
  const ConsiderSelling := "Consider Selling"

  /** The buy score shown, 50 when it is missing or 0. */
  function BuyScore(h: Holding): real {
    OrElse(h.buyScore, 50.0)
  }

  /** "Hold", overwritten by "Strong Buy" above 70 and then by
      "Consider Selling" below 40. */
  function Recommendation(score: real): string {
    var initial := Hold;
    var afterHigh := if score > 70.0 then StrongBuy else initial;
    if score < 40.0 then ConsiderSelling else afterHigh
  }

  /** The three labels partition the scores; 70 itself is "Hold". */
  lemma RecommendationBands(score: real)
    ensures Recommendation(score) == StrongBuy <==> score > 70.0
    ensures Recommendation(score) == ConsiderSelling <==> score < 40.0
    ensures Recommendation(score) == Hold <==> 40.0 <= score <= 70.0
    ensures Recommendation(70.0) == Hold
  {
    assert StrongBuy[0] != Hold[0] && StrongBuy[0] != ConsiderSelling[0] && Hold[0] != ConsiderSelling[0];
  }

  /** A holding without a buy score is rated "Hold". */
  lemma UnscoredIsHold(h: Holding)
    requires h.buyScore.None? || h.buyScore.value == 0.0
    ensures BuyScore(h) == 50.0 && Recommendation(BuyScore(h)) == Hold
  {
  }

  function ScoreTextColor(score: real): string {
    if score > 70.0 then "text-neon-cyan" else if score < 40.0 then "text-red-400" else "text-yellow-400"
  }

  function ScoreBarColor(score: real): string {
    if score > 70.0 then "bg-neon-cyan text-neon-cyan"
    else if score < 40.0 then "bg-red-500 text-red-500"
    else "bg-yellow-500 text-yellow-500"
  }

  /** The score's text and bar colours change exactly where the
      recommendation does. */
  lemma ColoursFollowRecommendation(s: real, t: real)
    ensures Recommendation(s) == Recommendation(t) <==> ScoreTextColor(s) == ScoreTextColor(t)
    ensures Recommendation(s) == Recommendation(t) <==> ScoreBarColor(s) == ScoreBarColor(t)
  {
    RecommendationBands(s);
    RecommendationBands(t);
    assert "text-neon-cyan"[5] != "text-red-400"[5] && "text-neon-cyan"[5] != "text-yellow-400"[5];
    assert "text-red-400"[5] != "text-yellow-400"[5];
    assert "bg-neon-cyan text-neon-cyan"[3] != "bg-red-500 text-red-500"[3];
    assert "bg-neon-cyan text-neon-cyan"[3] != "bg-yellow-500 text-yellow-500"[3];
    assert "bg-red-500 text-red-500"[3] != "bg-yellow-500 text-yellow-500"[3];
  }

  /** JavaScript's `Math.round`: the nearest integer, halves rounded up. */
  function Round(x: real): (n: int)
    ensures n as real - 0.5 <= x < n as real + 0.5
  {
    (x + 0.5).Floor
  }

  /** The "% above 52-week low" figure: rounded when both the price and the
      low are truthy, else 0. */
  function AboveLow(h: Holding): int {
    var price := OrElse(h.currentPrice, 0.0);
    var low := OrElse(h.week52Low, 0.0);
    if price != 0.0 && low != 0.0 then Round((price - low) / low * 100.0) else 0
  }

  /** With a positive low, the figure is the price's distance above the low
      as a percentage of it, to the nearest whole percent; missing either
      value gives 0. */
  lemma AboveLowFigure(h: Holding)
    ensures h.currentPrice.None? || h.currentPrice == Some(0.0) || h.week52Low.None? || h.week52Low == Some(0.0) ==>
      AboveLow(h) == 0
    ensures h.currentPrice.Some? && h.currentPrice.value != 0.0 && h.week52Low.Some? && h.week52Low.value > 0.0 ==>
      var p, l := h.currentPrice.value, h.week52Low.value;
      var exact := (p - l) / l * 100.0;
      && AboveLow(h) as real - 0.5 <= exact < AboveLow(h) as real + 0.5
      && (p >= l ==> AboveLow(h) >= 0)
      && (p == l ==> AboveLow(h) == 0)
  {
    if h.currentPrice.Some? && h.currentPrice.value != 0.0 && h.week52Low.Some? && h.week52Low.value > 0.0 {
      var p, l := h.currentPrice.value, h.week52Low.value;
      if p >= l {
        assert (p - l) / l >= 0.0;
      }
    }
  }

  /** What the drawer shows for a holding. */
  datatype View = View(
    isPositive: bool,
    returnMagnitude: real,
    buyScore: real,
    recommendation: string,
    scoreTextColor: string,
    scoreBarColor: string,
    barWidth: real,
    aboveLow: int)

  /** The drawer: nothing for no holding. */
  function Drawer(holding: Option<Holding>): (r: Option<View>)
    ensures r.None? <==> holding.None?
  {
    match holding
    case None => None
    case Some(h) =>
      var pl := OrElse(h.unrealizedPlPercent, 0.0);
      var score := BuyScore(h);
      Some(View(pl >= 0.0, if pl >= 0.0 then pl else -pl, score, Recommendation(score),
                ScoreTextColor(score), ScoreBarColor(score), score, AboveLow(h)))
  }

  /** The return's direction and magnitude together recover the P/L
      percentage, a missing one counting as 0; the bar is as wide as the
      score, in percent. */
  lemma DrawerFacts(h: Holding)
    ensures var v := Drawer(Some(h)).value;
      var pl := OrElse(h.unrealizedPlPercent, 0.0);
      && v.returnMagnitude >= 0.0
      && (v.isPositive <==> pl >= 0.0)
      && (if v.isPositive then v.returnMagnitude else -v.returnMagnitude) == pl
      && v.barWidth == v.buyScore == BuyScore(h)
      && v.recommendation == Recommendation(v.buyScore)
  {
  }
}
