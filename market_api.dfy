/** The market endpoints: the single-quote lookup that answers 404 when the
    quote service has nothing, and the parsing of the comma-separated symbol
    list, with Python's `str.split(",")` and `str.strip()` written out. The
    client builds that list with `Array.join(",")`. */
module MarketApi {
  import opened Wrappers

  /** The quote record the endpoints return. */
  datatype StockQuote = StockQuote(
    symbol: string,
    currentPrice: real,
    highPrice: Option<real>,
    lowPrice: Option<real>,
    openPrice: Option<real>,
    previousClose: Option<real>,
    percentChange: Option<real>,
    change: Option<real>,
    fiftyTwoWeekHigh: Option<real>,
    fiftyTwoWeekLow: Option<real>,
    volatility: Option<real>,
    aiScore: Option<int>,
    marketCap: Option<string>)

  const SymbolNotFound: HttpError := HttpError(404, "Symbol not found")

  /** `get_quote`, given what the quote service answered for the symbol. */
  function GetQuote(quote: Option<StockQuote>): (r: Result<StockQuote, HttpError>)
    ensures r.Err? <==> quote.None?
    ensures r.Err? ==> r.error == SymbolNotFound
    ensures r.Ok? ==> r.value == quote.value
  {
    match quote
    case None => Err(SymbolNotFound)
    case Some(q) => Ok(q)
  }

  // ---------------------------------------------------------------------
  // Splitting and joining

  function Occurrences(s: string, c: char): nat {
    if s == [] then 0 else (if s[0] == c then 1 else 0) + Occurrences(s[1..], c)
  }

  /** Python's `s.split(sep)` for a one-character separator: the maximal
      separator-free pieces, empty ones included. */
  function Split(s: string, sep: char): (parts: seq<string>)
    ensures |parts| >= 1
  {
    if s == [] then [[]]
    else
      var rest := Split(s[1..], sep);
      if s[0] == sep then [[]] + rest else [[s[0]] + rest[0]] + rest[1..]
  }

  /** `parts.join(sep)`, as both Python and JavaScript define it. */
  function Join(parts: seq<string>, sep: char): string {
    if |parts| == 0 then []
    else if |parts| == 1 then parts[0]
    else parts[0] + [sep] + Join(parts[1..], sep)
  }

  /** A split yields one piece more than there are separators. */
  lemma {:induction false} SplitCount(s: string, sep: char)
    ensures |Split(s, sep)| == Occurrences(s, sep) + 1
  {
    if s != [] {
      SplitCount(s[1..], sep);
    }
  }

  /** No piece of a split contains the separator. */
  lemma {:induction false} SplitPiecesFree(s: string, sep: char)
    ensures forall i :: 0 <= i < |Split(s, sep)| ==> sep !in Split(s, sep)[i]
  {
    if s != [] {
      var rest := Split(s[1..], sep);
      SplitPiecesFree(s[1..], sep);
      if s[0] != sep {
        var parts := Split(s, sep);
        assert parts[0] == [s[0]] + rest[0];
        forall i | 1 <= i < |parts| ensures sep !in parts[i] {
          assert parts[i] == rest[i];
        }
      }
    }
  }

  /** Joining the pieces of a split with the separator gives back the input. */
  lemma {:induction false} JoinSplit(s: string, sep: char)
    ensures Join(Split(s, sep), sep) == s
  {
    if s != [] {
      var rest := Split(s[1..], sep);
      JoinSplit(s[1..], sep);
      if s[0] == sep {
        assert Split(s, sep)[1..] == rest;
        if |rest| == 1 {
          assert Join(Split(s, sep), sep) == [] + [sep] + rest[0];
        }
        assert s == [s[0]] + s[1..];
      } else {
        var parts := Split(s, sep);
        assert parts[1..] == rest[1..];
        if |rest| == 1 {
          assert Join(parts, sep) == [s[0]] + rest[0];
        } else {
          assert Join(rest, sep) == rest[0] + [sep] + Join(rest[1..], sep);
          assert Join(parts, sep) == [s[0]] + rest[0] + [sep] + Join(rest[1..], sep);
        }
        assert s == [s[0]] + s[1..];
      }
    }
  }

  /** A separator-free string splits into itself. */
  lemma {:induction false} SplitFree(w: string, sep: char)
    requires sep !in w
    ensures Split(w, sep) == [w]
  {
    if w != [] {
      SplitFree(w[1..], sep);
      assert w == [w[0]] + w[1..];
    }
  }

  /** Splitting around one separator splits each side. */
  lemma {:induction false} SplitAround(a: string, b: string, sep: char)
    ensures Split(a + [sep] + b, sep) == Split(a, sep) + Split(b, sep)
  {
    if a == [] {
      assert a + [sep] + b == [sep] + b;
      SplitCons(sep, b, sep);
    } else {
      SplitAround(a[1..], b, sep);
      PrependBoth(a[0], a[1..] + [sep] + b, a[1..], sep, Split(b, sep));
      assert a + [sep] + b == [a[0]] + (a[1..] + [sep] + b);
      assert a == [a[0]] + a[1..];
    }
  }

  /** One step of a split: the first character either is a separator and
      ends an empty first piece, or joins the first piece. */
  lemma SplitCons(c: char, t: string, sep: char)
    ensures var rest := Split(t, sep);
      Split([c] + t, sep) == if c == sep then [[]] + rest else [[c] + rest[0]] + rest[1..]
  {
    assert ([c] + t)[1..] == t;
  }

  /** A character put in front of a string whose pieces begin with those of
      `t` does to them what it does to the pieces of `t`. */
  lemma PrependBoth(c: char, x: string, t: string, sep: char, more: seq<string>)
    requires Split(x, sep) == Split(t, sep) + more
    ensures Split([c] + x, sep) == Split([c] + t, sep) + more
  {
    SplitCons(c, x, sep);
    SplitCons(c, t, sep);
    if c != sep {
      PrependToFirst(c, Split(t, sep), more);
    } else {
      assert [[]] + (Split(t, sep) + more) == ([[]] + Split(t, sep)) + more;
    }
  }

  lemma PrependToFirst(c: char, front: seq<string>, more: seq<string>)
    requires |front| >= 1
    ensures [[c] + (front + more)[0]] + (front + more)[1..] == ([[c] + front[0]] + front[1..]) + more
  {
    assert (front + more)[1..] == front[1..] + more;
  }

  /** Splitting a join of at least one separator-free piece gives back the
      pieces. */
  lemma {:induction false} SplitJoin(parts: seq<string>, sep: char)
    requires |parts| >= 1
    requires forall i :: 0 <= i < |parts| ==> sep !in parts[i]
    ensures Split(Join(parts, sep), sep) == parts
  {
    SplitFree(parts[0], sep);
    if |parts| > 1 {
      SplitJoin(parts[1..], sep);
      SplitAround(parts[0], Join(parts[1..], sep), sep);
      assert parts == [parts[0]] + parts[1..];
    }
  }

  // ---------------------------------------------------------------------
  // Stripping

  /** The characters Python's `str.isspace` accepts. */
  predicate IsSpace(c: char) {
    || ('\t' <= c <= '\r')
    || ('\U{1C}' <= c <= ' ')
    || c == '\U{85}' || c == '\U{A0}' || c == '\U{1680}'
    || ('\U{2000}' <= c <= '\U{200A}')
    || c == '\U{2028}' || c == '\U{2029}' || c == '\U{202F}' || c == '\U{205F}' || c == '\U{3000}'
  }

  /** Neither end of the string is whitespace. */
  predicate Unpadded(s: string) {
    s == [] || (!IsSpace(s[0]) && !IsSpace(s[|s| - 1]))
  }

  /** `lstrip()`: the suffix left after dropping leading whitespace. */
  function StripLeading(s: string): (r: string)
    ensures |r| <= |s| && r == s[|s| - |r|..]
    ensures forall k :: 0 <= k < |s| - |r| ==> IsSpace(s[k])
    ensures r == [] || !IsSpace(r[0])
  {
    if s != [] && IsSpace(s[0]) then StripLeading(s[1..]) else s
  }

  /** `rstrip()`: the prefix left after dropping trailing whitespace. */
  function StripTrailing(s: string): (r: string)
    ensures |r| <= |s| && r == s[..|r|]
    ensures forall k :: |r| <= k < |s| ==> IsSpace(s[k])
    ensures r == [] || !IsSpace(r[|r| - 1])
  {
    if s != [] && IsSpace(s[|s| - 1]) then StripTrailing(s[..|s| - 1]) else s
  }

  /** `strip()`. */
  function Strip(s: string): string {
    StripTrailing(StripLeading(s))
  }

  /** The stripped string has no whitespace at either end. */
  lemma StripEnds(s: string)
    ensures Unpadded(Strip(s))
  {
    var l := StripLeading(s);
    var r := StripTrailing(l);
    if r != [] {
      assert r[0] == l[0];
    }
  }

  /** Stripping adds no character. */
  lemma StripKeepsAbsent(s: string, c: char)
    requires c !in s
    ensures c !in Strip(s)
  {
    var l := StripLeading(s);
    assert forall i :: 0 <= i < |l| ==> l[i] == s[|s| - |l| + i];
    var r := StripTrailing(l);
    assert forall i :: 0 <= i < |r| ==> r[i] == l[i];
  }

  /** A string without whitespace at its ends is its own strip. */
  lemma StripUnpadded(s: string)
    requires Unpadded(s)
    ensures Strip(s) == s
  {
  }

  // ---------------------------------------------------------------------
  // The symbol list

  /** `[s.strip() for s in symbols.split(",")]`. */
  function ParseSymbols(symbols: string): seq<string> {
    var parts := Split(symbols, ',');
    seq(|parts|, i requires 0 <= i < |parts| => Strip(parts[i]))
  }

  /** One symbol per comma plus one, each stripped and comma-free, each the
      stripped piece between consecutive commas, in input order. */
  lemma ParseSymbolsShape(symbols: string)
    ensures var r, parts := ParseSymbols(symbols), Split(symbols, ',');
      && |r| == Occurrences(symbols, ',') + 1
      && |r| == |parts|
      && Join(parts, ',') == symbols
      && forall i :: 0 <= i < |r| ==> r[i] == Strip(parts[i]) && Unpadded(r[i]) && ',' !in r[i]
  {
    var r, parts := ParseSymbols(symbols), Split(symbols, ',');
    SplitCount(symbols, ',');
    SplitPiecesFree(symbols, ',');
    JoinSplit(symbols, ',');
    forall i | 0 <= i < |r| ensures Unpadded(r[i]) && ',' !in r[i] {
      StripEnds(parts[i]);
      StripKeepsAbsent(parts[i], ',');
    }
  }

  /** An empty query yields a single empty symbol. */
  lemma EmptyQuery()
    ensures ParseSymbols("") == [""]
  {
  }

  /** Two adjacent commas yield an empty symbol between the symbols of the
      two sides. */
  lemma AdjacentCommas(a: string, b: string)
    ensures var before := Split(a, ',');
      var r := ParseSymbols(a + [','] + [','] + b);
      |r| > |before| && r[|before|] == ""
  {
    var before := Split(a, ',');
    SplitAround(a, [','] + b, ',');
    assert a + [','] + [','] + b == a + [','] + ([','] + b);
    SplitAround([], b, ',');
    assert [] + [','] + b == [','] + b;
    assert Split(a + [','] + [','] + b, ',') == before + ([[]] + Split(b, ','));
  }

  /** The client's join of at least one comma-free, unpadded symbol parses
      back to the same list. */
  lemma JoinParseRoundTrip(syms: seq<string>)
    requires |syms| >= 1
    requires forall i :: 0 <= i < |syms| ==> ',' !in syms[i] && Unpadded(syms[i])
    ensures ParseSymbols(Join(syms, ',')) == syms
  {
    SplitJoin(syms, ',');
    var r := ParseSymbols(Join(syms, ','));
    forall i | 0 <= i < |syms| ensures r[i] == syms[i] {
      StripUnpadded(syms[i]);
    }
  }

  /** The client's join of no symbols is the empty query, which parses to one
      empty symbol rather than to no symbols. */
  lemma EmptyJoin()
    ensures ParseSymbols(Join([], ',')) == [""]
  {
  }
}
