/** The design system's colour helpers: a buy-score colour in five bands and
    a colour per risk level, over the palette's constants. */
module Design {
  const SuccessMain := "#10B981"
  const AccentLime := "#84CC16"
  const AccentAmber := "#F59E0B"
  const WarningMain := "#F59E0B"
  const ErrorMain := "#EF4444"

  function BuyScoreColor(score: real): string {
    if score >= 80.0 then SuccessMain
    else if score >= 60.0 then AccentLime
    else if score >= 40.0 then AccentAmber
    else if score >= 20.0 then WarningMain
    else ErrorMain
  }

  /** Amber and the warning colour are the same hex, so the five bands show
      only four colours and every score in [20,60) looks the same. */
  lemma BuyScoreColorBands(score: real)
    ensures AccentAmber == WarningMain
    ensures BuyScoreColor(score) == SuccessMain <==> score >= 80.0
    ensures BuyScoreColor(score) == AccentLime <==> 60.0 <= score < 80.0
    ensures BuyScoreColor(score) == AccentAmber <==> 20.0 <= score < 60.0
    ensures BuyScoreColor(score) == ErrorMain <==> score < 20.0
  {
    assert SuccessMain[1] != AccentLime[1] && SuccessMain[1] != AccentAmber[1] && SuccessMain[1] != ErrorMain[1];
    assert AccentLime[1] != AccentAmber[1] && AccentLime[1] != ErrorMain[1] && AccentAmber[1] != ErrorMain[1];
  }

  /** The colours in the order of the bands they colour, red lowest. */
  function Rank(color: string): int {
    if color == ErrorMain then 0
    else if color == WarningMain then 1
    else if color == AccentLime then 2
    else if color == SuccessMain then 3
    else -1
  }

  /** A higher score never gets a lower band's colour, and every score,
      negative ones included, gets one of the palette's colours. */
  lemma BuyScoreColorMonotone(s: real, t: real)
    requires s <= t
    ensures 0 <= Rank(BuyScoreColor(s)) <= Rank(BuyScoreColor(t)) <= 3
  {
    BuyScoreColorBands(s);
    BuyScoreColorBands(t);
  }

  datatype RiskLevel = Low | Medium | High

  function RiskColor(risk: RiskLevel): string {
    match risk
    case Low => SuccessMain
    case Medium => WarningMain
    case High => ErrorMain
  }

  /** The three risk levels get three different colours, the same ones as a
      buy score of at least 80, one in [20,60) and one below 20. */
  lemma RiskColors(a: RiskLevel, b: RiskLevel)
    ensures RiskColor(a) == RiskColor(b) <==> a == b
    ensures RiskColor(Low) == BuyScoreColor(80.0)
    ensures RiskColor(Medium) == BuyScoreColor(20.0)
    ensures RiskColor(High) == BuyScoreColor(0.0)
  {
    assert SuccessMain[1] != WarningMain[1] && SuccessMain[1] != ErrorMain[1] && WarningMain[1] != ErrorMain[1];
  }
}
