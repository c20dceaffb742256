/** The records the React client receives from the API, with every field
    the API may omit as an `Option`, and JavaScript's `x || d` fallback on
    such a field. */
module ClientTypes {
  import opened Wrappers

  /** A holding as the client sees it. The three 52-week and score fields
      are not declared in the client's own type but are read by the tables
      and the drawer; the portfolio endpoint's response never carries them. */
  datatype Holding = Holding(
    id: int,
    symbol: string,
    name: string,
    quantity: real,
    avgCost: real,
    sector: string,
    currentPrice: Option<real>,
    marketValue: Option<real>,
    unrealizedPl: Option<real>,
    unrealizedPlPercent: Option<real>,
    week52High: Option<real>,
    week52Low: Option<real>,
    buyScore: Option<real>)

  /** A market quote as the client sees it. */
  datatype Quote = Quote(
    symbol: string,
    currentPrice: real,
    percentChange: real,
    change: real,
    fiftyTwoWeekHigh: Option<real>,
    fiftyTwoWeekLow: Option<real>,
    aiScore: Option<real>,
    marketCap: Option<string>)

  datatype User = User(id: int, email: string, fullName: Option<string>, isActive: bool)

  /** JavaScript's `x || d` on an optional number: a missing value and a
      zero are both falsy and give `d`. */
  function OrElse(x: Option<real>, d: real): (r: real)
    ensures x.Some? && x.value != 0.0 ==> r == x.value
    ensures x.None? || x.value == 0.0 ==> r == d
    ensures r == d || (x.Some? && r == x.value)
  {
    if x.Some? && x.value != 0.0 then x.value else d
  }

  /** A JavaScript number where it matters that division by zero does not
      fail: it gives an infinity, or NaN for 0/0. Only finite operands
      occur in the model, so only these four cases are needed. */
  datatype JsNumber = Finite(value: real) | PosInfinity | NegInfinity | NaN

  /** `a / b` on finite numbers. An exact 0 divisor is +0, so the sign of
      an infinite result is the sign of `a`. */
  function JsDivide(a: real, b: real): (r: JsNumber)
    ensures b != 0.0 ==> r == Finite(a / b)
    ensures b == 0.0 ==> (r == PosInfinity <==> a > 0.0) && (r == NegInfinity <==> a < 0.0) && (r == NaN <==> a == 0.0)
  {
    if b != 0.0 then Finite(a / b)
    else if a > 0.0 then PosInfinity
    else if a < 0.0 then NegInfinity
    else NaN
  }

  /** `x * k` for a positive finite `k`. */
  function JsScale(x: JsNumber, k: real): (r: JsNumber)
    requires k > 0.0
    ensures x.Finite? <==> r.Finite?
    ensures x.Finite? ==> r.value == x.value * k
    ensures !x.Finite? ==> r == x
  {
    match x
    case Finite(v) => Finite(v * k)
    case _ => x
  }

  /** `x < c` against a finite constant: false for NaN. */
  predicate JsLess(x: JsNumber, c: real) {
    match x
    case Finite(v) => v < c
    case NegInfinity => true
    case _ => false
  }

  /** `x > c` against a finite constant: false for NaN. */
  predicate JsGreater(x: JsNumber, c: real) {
    match x
    case Finite(v) => v > c
    case PosInfinity => true
    case _ => false
  }

  /** Where a quotient lies relative to 0 and 1: the step the position
      bars need to stay between their ends. */
  lemma Ratio(x: real, d: real)
    requires d > 0.0
    ensures x >= 0.0 ==> x / d >= 0.0
    ensures x > 0.0 ==> x / d > 0.0
    ensures x <= d ==> x / d <= 1.0
    ensures x < d ==> x / d < 1.0
    ensures x == d ==> x / d == 1.0
    ensures x > d ==> x / d > 1.0
  {
    if x < d {
      assert x / d < 1.0;
    } else if x == d {
      assert x / d == 1.0;
    } else {
      assert x / d > 1.0;
    }
    if x > 0.0 {
      assert x / d > 0.0;
    } else if x == 0.0 {
      assert x / d == 0.0;
    }
  }

}
