/** The PDF-statement brokerage service and its HTTP endpoints: a brokerage
    connection per user that is created or re-enabled on import and disabled
    on disconnect, and a holdings table that a sync clears and reloads for one
    user from a fixed list of statement entries. The database is an in-memory
    pair of tables; row ids and timestamps are not modelled. */
module PdfService {
  import opened Wrappers

  /** One entry of the statement. */
  datatype BaseHolding = BaseHolding(symbol: string, name: string, quantity: real, avgCost: real, sector: string)

  /** A row of the brokerage connection table. */
  datatype Connection = Connection(
    userId: int,
    provider: string,
    accessToken: Option<string>,
    refreshToken: Option<string>,
    isConnected: bool)

  /** A row of the holdings table (the id column is left out). */
  datatype HoldingRow = HoldingRow(userId: int, symbol: string, name: string, quantity: real, avgCost: real, sector: string)

  const PdfImport: string := "pdf_import"

  /** Entry i of the statement, in statement order. */
  function StatementEntry(i: nat): BaseHolding
    requires i < 27
  {
    if i == 0 then BaseHolding("AMD", "Advanced Micro Devices Inc", 25.0, 116.90, "Technology")
    else if i == 1 then BaseHolding("NVDA", "NVIDIA Corporation", 12.0, 128.48, "Technology")
    else if i == 2 then BaseHolding("IONQ", "IonQ Inc", 37.0, 15.96, "Technology")
    else if i == 3 then BaseHolding("OKLO", "Oklo Inc Class A", 10.0, 19.59, "Energy")
    else if i == 4 then BaseHolding("PLTR", "Palantir Technologies Inc", 5.0, 85.24, "Technology")
    else if i == 5 then BaseHolding("RGTI", "Rigetti Computing Inc", 30.0, 19.41, "Technology")
    else if i == 6 then BaseHolding("SOFI", "SoFi Technologies Inc", 30.0, 11.87, "Financial Services")
    else if i == 7 then BaseHolding("TSLA", "Tesla Inc", 3.0, 300.91, "Consumer Cyclical")
    else if i == 8 then BaseHolding("GOOG", "Alphabet Inc Class C", 2.0, 167.58, "Technology")
    else if i == 9 then BaseHolding("BABA", "Alibaba Group Holding Ltd ADR", 2.0, 96.13, "Consumer Cyclical")
    else if i == 10 then BaseHolding("MO", "Altria Group Inc", 40.0, 58.94, "Consumer Defensive")
    else if i == 11 then BaseHolding("JNJ", "Johnson & Johnson", 2.0, 152.75, "Healthcare")
    else if i == 12 then BaseHolding("LEG", "Leggett & Platt Inc", 30.0, 8.59, "Consumer Cyclical")
    else if i == 13 then BaseHolding("ORCL", "Oracle Corp", 1.0, 183.00, "Technology")
    else if i == 14 then BaseHolding("QUBT", "Quantum Computing Inc", 40.0, 11.62, "Technology")
    else if i == 15 then BaseHolding("SOUN", "SoundHound AI Inc Class A", 5.0, 11.35, "Technology")
    else if i == 16 then BaseHolding("TGT", "Target Corp", 6.0, 113.33, "Consumer Defensive")
    else if i == 17 then BaseHolding("MMM", "3M Co", 2.0, 100.42, "Industrials")
    else if i == 18 then BaseHolding("URA", "Global X Uranium ETF", 2.0, 36.76, "Energy")
    else if i == 19 then BaseHolding("SCHD", "Schwab US Dividend Equity ETF", 23.0, 26.91, "Financial Services")
    else if i == 20 then BaseHolding("MRNY", "YieldMax MRNA Option Income", 100.0, 3.24, "Healthcare")
    else if i == 21 then BaseHolding("CONY", "YieldMax COIN Option Income", 15.0, 8.07, "Financial Services")
    else if i == 22 then BaseHolding("TSLY", "YieldMax TSLA Option Income", 18.0, 12.10, "Consumer Cyclical")
    else if i == 23 then BaseHolding("BABO", "YieldMax BABA Option Income", 2.0, 17.14, "Consumer Cyclical")
    else if i == 24 then BaseHolding("BDN", "Brandywine Realty Trust", 10.0, 5.75, "Real Estate")
    else if i == 25 then BaseHolding("ORC", "Orchid Island Capital Inc", 54.0, 7.23, "Real Estate")
    else BaseHolding("TWO", "Two Harbors Investment Corp", 10.0, 11.82, "Real Estate")
  }

  /** The holdings of the statement, in statement order. */
  function ParsePdfHoldings(): seq<BaseHolding> {
    seq(27, i requires 0 <= i < 27 => StatementEntry(i))
  }

  /** The position of each statement symbol; it is the witness that no symbol
      occurs twice. */
  function SymbolIndex(): map<string, nat> {
    map[
      "AMD" := 0, "NVDA" := 1, "IONQ" := 2, "OKLO" := 3, "PLTR" := 4, "RGTI" := 5, "SOFI" := 6,
      "TSLA" := 7, "GOOG" := 8, "BABA" := 9, "MO" := 10, "JNJ" := 11, "LEG" := 12, "ORCL" := 13,
      "QUBT" := 14, "SOUN" := 15, "TGT" := 16, "MMM" := 17, "URA" := 18, "SCHD" := 19,
      "MRNY" := 20, "CONY" := 21, "TSLY" := 22, "BABO" := 23, "BDN" := 24, "ORC" := 25,
      "TWO" := 26 ]
  }

  /** The statement entries in positions lo..hi-1 sit where SymbolIndex puts their symbols. */
  predicate IndexedBetween(lo: nat, hi: nat) {
    var hs := ParsePdfHoldings();
    forall i :: lo <= i < hi && i < |hs| ==> hs[i].symbol in SymbolIndex() && SymbolIndex()[hs[i].symbol] == i
  }

  lemma IndexedPart0()
    ensures IndexedBetween(0, 5)
  {
    var hs, index := ParsePdfHoldings(), SymbolIndex();
    forall i | 0 <= i < 5 && i < |hs|
      ensures hs[i].symbol in index && index[hs[i].symbol] == i
    {
      if i == 0 { assert index["AMD"] == 0; }
      else if i == 1 { assert index["NVDA"] == 1; }
      else if i == 2 { assert index["IONQ"] == 2; }
      else if i == 3 { assert index["OKLO"] == 3; }
      else if i == 4 { assert index["PLTR"] == 4; }
    }
  }

  lemma IndexedPart1()
    ensures IndexedBetween(5, 10)
  {
    var hs, index := ParsePdfHoldings(), SymbolIndex();
    forall i | 5 <= i < 10 && i < |hs|
      ensures hs[i].symbol in index && index[hs[i].symbol] == i
    {
      if i == 5 { assert index["RGTI"] == 5; }
      else if i == 6 { assert index["SOFI"] == 6; }
      else if i == 7 { assert index["TSLA"] == 7; }
      else if i == 8 { assert index["GOOG"] == 8; }
      else if i == 9 { assert index["BABA"] == 9; }
    }
  }

  lemma IndexedPart2()
    ensures IndexedBetween(10, 15)
  {
    var hs, index := ParsePdfHoldings(), SymbolIndex();
    forall i | 10 <= i < 15 && i < |hs|
      ensures hs[i].symbol in index && index[hs[i].symbol] == i
    {
      if i == 10 { assert index["MO"] == 10; }
      else if i == 11 { assert index["JNJ"] == 11; }
      else if i == 12 { assert index["LEG"] == 12; }
      else if i == 13 { assert index["ORCL"] == 13; }
      else if i == 14 { assert index["QUBT"] == 14; }
    }
  }

  lemma IndexedPart3()
    ensures IndexedBetween(15, 19)
  {
    var hs, index := ParsePdfHoldings(), SymbolIndex();
    forall i | 15 <= i < 19 && i < |hs|
      ensures hs[i].symbol in index && index[hs[i].symbol] == i
    {
      if i == 15 { assert index["SOUN"] == 15; }
      else if i == 16 { assert index["TGT"] == 16; }
      else if i == 17 { assert index["MMM"] == 17; }
      else if i == 18 { assert index["URA"] == 18; }
    }
  }

  lemma IndexedPart4()
    ensures IndexedBetween(19, 23)
  {
    var hs, index := ParsePdfHoldings(), SymbolIndex();
    forall i | 19 <= i < 23 && i < |hs|
      ensures hs[i].symbol in index && index[hs[i].symbol] == i
    {
      if i == 19 { assert index["SCHD"] == 19; }
      else if i == 20 { assert index["MRNY"] == 20; }
      else if i == 21 { assert index["CONY"] == 21; }
      else if i == 22 { assert index["TSLY"] == 22; }
    }
  }

  lemma IndexedPart5()
    ensures IndexedBetween(23, 27)
  {
    var hs, index := ParsePdfHoldings(), SymbolIndex();
    forall i | 23 <= i < 27 && i < |hs|
      ensures hs[i].symbol in index && index[hs[i].symbol] == i
    {
      if i == 23 { assert index["BABO"] == 23; }
      else if i == 24 { assert index["BDN"] == 24; }
      else if i == 25 { assert index["ORC"] == 25; }
      else if i == 26 { assert index["TWO"] == 26; }
    }
  }

  /** Every statement entry has a positive quantity and average cost. */
  lemma ParsedHoldingsPositive()
    ensures var hs := ParsePdfHoldings();
      |hs| == 27 && forall i :: 0 <= i < |hs| ==> hs[i].quantity > 0.0 && hs[i].avgCost > 0.0
  {
  }

  /** The statement has 27 entries with distinct symbols. */
  lemma ParsedHoldingsWellFormed()
    ensures var hs := ParsePdfHoldings();
      && |hs| == 27
      && (forall i, j :: 0 <= i < j < |hs| ==> hs[i].symbol != hs[j].symbol)
  {
    var hs := ParsePdfHoldings();
    IndexedPart0();
    IndexedPart1();
    IndexedPart2();
    IndexedPart3();
    IndexedPart4();
    IndexedPart5();
    assert forall i :: 0 <= i < |hs| ==> SymbolIndex()[hs[i].symbol] == i;
  }

  // ---------------------------------------------------------------------
  // Tables as values

  /** The unique constraint on the connection table's user column. */
  predicate UniqueUsers(conns: seq<Connection>) {
    forall i, j :: 0 <= i < j < |conns| ==> conns[i].userId != conns[j].userId
  }

  /** The first connection row of a user, as the filtered query's `first()`. */
  function FindConnection(conns: seq<Connection>, userId: int): (r: Option<nat>)
    ensures r.Some? ==> r.value < |conns| && conns[r.value].userId == userId
    ensures r.Some? ==> forall k :: 0 <= k < r.value ==> conns[k].userId != userId
    ensures r.None? ==> forall k :: 0 <= k < |conns| ==> conns[k].userId != userId
  {
    if conns == [] then None
    else if conns[0].userId == userId then Some(0)
    else
      match FindConnection(conns[1..], userId)
      case Some(k) => Some(k + 1)
      case None => None
  }

  /** The user's connection, if there is one. */
  function ConnectionOf(conns: seq<Connection>, userId: int): Option<Connection> {
    match FindConnection(conns, userId)
    case Some(i) => Some(conns[i])
    case None => None
  }

  /** The number of connection rows of a user. */
  function CountConnections(conns: seq<Connection>, userId: int): nat {
    if conns == [] then 0
    else (if conns[0].userId == userId then 1 else 0) + CountConnections(conns[1..], userId)
  }

  /** The row a fresh import inserts: no tokens, connected, provider pdf_import. */
  function NewConnection(userId: int): Connection {
    Connection(userId, PdfImport, None, None, true)
  }

  /** The connection table after connecting a user. */
  function ConnectTable(conns: seq<Connection>, userId: int): seq<Connection> {
    match FindConnection(conns, userId)
    case Some(i) => conns[i := conns[i].(isConnected := true, provider := PdfImport)]
    case None => conns + [NewConnection(userId)]
  }

  /** Whether disconnecting a user finds a row (the service's boolean result). */
  function CanDisconnect(conns: seq<Connection>, userId: int): bool {
    FindConnection(conns, userId).Some?
  }

  /** The connection table after disconnecting a user. */
  function DisconnectTable(conns: seq<Connection>, userId: int): seq<Connection> {
    match FindConnection(conns, userId)
    case Some(i) => conns[i := conns[i].(isConnected := false, accessToken := None, refreshToken := None)]
    case None => conns
  }

  function ToRow(h: BaseHolding, userId: int): HoldingRow {
    HoldingRow(userId, h.symbol, h.name, h.quantity, h.avgCost, h.sector)
  }

  /** The rows a sync inserts for a user, in statement order. */
  function RowsFor(hs: seq<BaseHolding>, userId: int): (rows: seq<HoldingRow>)
    ensures |rows| == |hs|
  {
    if hs == [] then [] else RowsFor(hs[..|hs| - 1], userId) + [ToRow(hs[|hs| - 1], userId)]
  }

  /** The rows of one user, in table order. */
  function UserRows(rows: seq<HoldingRow>, userId: int): seq<HoldingRow> {
    if rows == [] then []
    else UserRows(rows[..|rows| - 1], userId) + (if rows[|rows| - 1].userId == userId then [rows[|rows| - 1]] else [])
  }

  /** The table after the delete query: every row not of the user. */
  function OtherRows(rows: seq<HoldingRow>, userId: int): seq<HoldingRow> {
    if rows == [] then []
    else OtherRows(rows[..|rows| - 1], userId) + (if rows[|rows| - 1].userId != userId then [rows[|rows| - 1]] else [])
  }

  /** The holdings table after syncing a user from the statement entries. */
  function SyncTable(rows: seq<HoldingRow>, userId: int, hs: seq<BaseHolding>): seq<HoldingRow> {
    OtherRows(rows, userId) + RowsFor(hs, userId)
  }

  /** The status endpoint's answer. */
  datatype Status = Connected(provider: string) | NotConnected

  function ConnectionStatus(c: Option<Connection>): (s: Status)
    ensures s.Connected? <==> c.Some? && c.value.isConnected
    ensures s.Connected? ==> s.provider == c.value.provider
  {
    if c.Some? && c.value.isConnected then Connected(c.value.provider) else NotConnected
  }

  // ---------------------------------------------------------------------
  // Properties of the tables

  lemma {:induction false} FindUnique(conns: seq<Connection>, userId: int, k: nat)
    requires UniqueUsers(conns) && k < |conns| && conns[k].userId == userId
    ensures FindConnection(conns, userId) == Some(k)
  {
    var r := FindConnection(conns, userId);
    assert r.Some?;
    assert !(r.value < k);
  }

  /** Two tables whose rows carry the same user ids, position by position. */
  predicate SameUsers(a: seq<Connection>, b: seq<Connection>) {
    |a| == |b| && forall k :: 0 <= k < |a| ==> a[k].userId == b[k].userId
  }

  /** The lookup depends only on the user-id column. */
  lemma {:induction false} FindSameUsers(a: seq<Connection>, b: seq<Connection>, userId: int)
    requires SameUsers(a, b)
    ensures FindConnection(a, userId) == FindConnection(b, userId)
  {
    if a != [] {
      assert a[0].userId == b[0].userId;
      assert SameUsers(a[1..], b[1..]) by {
        forall k | 0 <= k < |a| - 1 ensures a[1..][k].userId == b[1..][k].userId {
          assert a[1..][k] == a[k + 1] && b[1..][k] == b[k + 1];
        }
      }
      FindSameUsers(a[1..], b[1..], userId);
    }
  }

  lemma {:induction false} CountNone(conns: seq<Connection>, userId: int)
    requires forall k :: 0 <= k < |conns| ==> conns[k].userId != userId
    ensures CountConnections(conns, userId) == 0
  {
    if conns != [] {
      assert conns[0].userId != userId;
      CountNone(conns[1..], userId);
    }
  }

  lemma {:induction false} CountOne(conns: seq<Connection>, userId: int, k: nat)
    requires UniqueUsers(conns) && k < |conns| && conns[k].userId == userId
    ensures CountConnections(conns, userId) == 1
  {
    if k == 0 {
      CountNone(conns[1..], userId);
    } else {
      assert conns[0].userId != userId;
      CountOne(conns[1..], userId, k - 1);
    }
  }

  /** Connecting an existing user rewrites that row in place and adds none;
      a user without a row gets a new connected pdf_import row at the end. */
  lemma ConnectShape(conns: seq<Connection>, userId: int)
    ensures var t := ConnectTable(conns, userId);
      match FindConnection(conns, userId)
      case Some(i) =>
        && |t| == |conns|
        && t[i] == conns[i].(isConnected := true, provider := PdfImport)
        && forall k :: 0 <= k < |t| && k != i ==> t[k] == conns[k]
      case None =>
        t == conns + [NewConnection(userId)]
  {
  }

  /** After connecting, the user has exactly one connection, it is connected
      with provider pdf_import, the unique constraint still holds, and every
      other user's connection is as before. */
  lemma ConnectLeavesOneConnection(conns: seq<Connection>, userId: int)
    requires UniqueUsers(conns)
    ensures var t := ConnectTable(conns, userId);
      && UniqueUsers(t)
      && CountConnections(t, userId) == 1
      && ConnectionOf(t, userId).Some?
      && ConnectionOf(t, userId).value.isConnected
      && ConnectionOf(t, userId).value.provider == PdfImport
      && forall v :: v != userId ==> ConnectionOf(t, v) == ConnectionOf(conns, v)
  {
    var t := ConnectTable(conns, userId);
    var f := FindConnection(conns, userId);
    var i: nat := if f.Some? then f.value else |conns|;
    assert i < |t| && t[i].userId == userId;
    assert forall k :: 0 <= k < |t| && k != i ==> t[k] == conns[k];
    assert forall k :: 0 <= k < |conns| && k != i ==> conns[k].userId != userId;
    assert UniqueUsers(t);
    CountOne(t, userId, i);
    FindUnique(t, userId, i);
    forall v | v != userId ensures ConnectionOf(t, v) == ConnectionOf(conns, v) {
      match FindConnection(conns, v)
      case Some(j) => {
        assert t[j] == conns[j];
        FindUnique(t, v, j);
      }
      case None => {
        assert forall k :: 0 <= k < |t| ==> t[k].userId != v;
      }
    }
  }

  /** Disconnecting a user without a row reports failure and changes nothing. */
  lemma DisconnectMissing(conns: seq<Connection>, userId: int)
    requires ConnectionOf(conns, userId).None?
    ensures !CanDisconnect(conns, userId) && DisconnectTable(conns, userId) == conns
  {
  }

  /** Disconnecting an existing user reports success, marks the row
      disconnected, clears both tokens, keeps the provider, and changes no
      other row. */
  lemma DisconnectExisting(conns: seq<Connection>, userId: int)
    requires ConnectionOf(conns, userId).Some?
    ensures var c, t := ConnectionOf(conns, userId).value, DisconnectTable(conns, userId);
      && CanDisconnect(conns, userId)
      && |t| == |conns|
      && ConnectionOf(t, userId) == Some(Connection(userId, c.provider, None, None, false))
      && forall k :: 0 <= k < |t| && conns[k].userId != userId ==> t[k] == conns[k]
  {
    var t := DisconnectTable(conns, userId);
    FindSameUsers(t, conns, userId);
  }

  /** After disconnecting, the status endpoint reports no connection. */
  lemma DisconnectedStatus(conns: seq<Connection>, userId: int)
    ensures ConnectionStatus(ConnectionOf(DisconnectTable(conns, userId), userId)) == NotConnected
  {
    var t := DisconnectTable(conns, userId);
    FindSameUsers(t, conns, userId);
  }

  /** With the unique constraint, the status is connected exactly when some
      row of the user is marked connected. */
  lemma StatusIffConnectedRow(conns: seq<Connection>, userId: int)
    requires UniqueUsers(conns)
    ensures ConnectionStatus(ConnectionOf(conns, userId)).Connected?
            <==> exists k :: 0 <= k < |conns| && conns[k].userId == userId && conns[k].isConnected
  {
    if exists k :: 0 <= k < |conns| && conns[k].userId == userId && conns[k].isConnected {
      var k :| 0 <= k < |conns| && conns[k].userId == userId && conns[k].isConnected;
      FindUnique(conns, userId, k);
    }
  }

  /** After connecting, the status endpoint reports pdf_import. */
  lemma ConnectedStatus(conns: seq<Connection>, userId: int)
    requires UniqueUsers(conns)
    ensures ConnectionStatus(ConnectionOf(ConnectTable(conns, userId), userId)) == Connected(PdfImport)
  {
    ConnectLeavesOneConnection(conns, userId);
  }

  lemma {:induction false} UserRowsAppend(a: seq<HoldingRow>, b: seq<HoldingRow>, userId: int)
    ensures UserRows(a + b, userId) == UserRows(a, userId) + UserRows(b, userId)
    ensures OtherRows(a + b, userId) == OtherRows(a, userId) + OtherRows(b, userId)
  {
    if b == [] {
      assert a + b == a;
    } else {
      var b' := b[..|b| - 1];
      assert (a + b)[..|a + b| - 1] == a + b';
      assert (a + b)[|a + b| - 1] == b[|b| - 1];
      UserRowsAppend(a, b', userId);
    }
  }

  lemma {:induction false} UserRowsOfOthers(rows: seq<HoldingRow>, userId: int, v: int)
    ensures UserRows(OtherRows(rows, userId), v) == if v == userId then [] else UserRows(rows, v)
  {
    if rows != [] {
      var p, r := rows[..|rows| - 1], rows[|rows| - 1];
      UserRowsOfOthers(p, userId, v);
      UserRowsAppend(OtherRows(p, userId), if r.userId != userId then [r] else [], v);
    }
  }

  lemma {:induction false} UserRowsOfNew(hs: seq<BaseHolding>, userId: int, v: int)
    ensures UserRows(RowsFor(hs, userId), v) == if v == userId then RowsFor(hs, userId) else []
  {
    if hs != [] {
      var p := hs[..|hs| - 1];
      UserRowsOfNew(p, userId, v);
      UserRowsAppend(RowsFor(p, userId), [ToRow(hs[|hs| - 1], userId)], v);
      assert [ToRow(hs[|hs| - 1], userId)][..0] == [];
    }
  }

  lemma {:induction false} RowsForAt(hs: seq<BaseHolding>, userId: int)
    ensures forall i :: 0 <= i < |hs| ==> RowsFor(hs, userId)[i] == ToRow(hs[i], userId)
  {
    if hs != [] {
      var p := hs[..|hs| - 1];
      RowsForAt(p, userId);
      assert forall i :: 0 <= i < |p| ==> p[i] == hs[i];
    }
  }

  /** After a sync the user's rows are the statement entries, in order, each
      carrying the user's id. */
  lemma SyncUserRows(rows: seq<HoldingRow>, userId: int, hs: seq<BaseHolding>)
    ensures var own := UserRows(SyncTable(rows, userId, hs), userId);
      && own == RowsFor(hs, userId)
      && |own| == |hs|
      && forall i :: 0 <= i < |hs| ==> own[i] == ToRow(hs[i], userId)
  {
    UserRowsAppend(OtherRows(rows, userId), RowsFor(hs, userId), userId);
    UserRowsOfOthers(rows, userId, userId);
    UserRowsOfNew(hs, userId, userId);
    RowsForAt(hs, userId);
  }

  /** A sync leaves every other user's rows as they were. */
  lemma SyncKeepsOtherUsers(rows: seq<HoldingRow>, userId: int, hs: seq<BaseHolding>, v: int)
    requires v != userId
    ensures UserRows(SyncTable(rows, userId, hs), v) == UserRows(rows, v)
  {
    UserRowsAppend(OtherRows(rows, userId), RowsFor(hs, userId), v);
    UserRowsOfOthers(rows, userId, v);
    UserRowsOfNew(hs, userId, v);
  }

  lemma {:induction false} OtherRowsOfNew(hs: seq<BaseHolding>, userId: int)
    ensures OtherRows(RowsFor(hs, userId), userId) == []
  {
    if hs != [] {
      var p := hs[..|hs| - 1];
      OtherRowsOfNew(p, userId);
      UserRowsAppend(RowsFor(p, userId), [ToRow(hs[|hs| - 1], userId)], userId);
      assert [ToRow(hs[|hs| - 1], userId)][..0] == [];
    }
  }

  lemma {:induction false} OtherRowsIdempotent(rows: seq<HoldingRow>, userId: int)
    ensures OtherRows(OtherRows(rows, userId), userId) == OtherRows(rows, userId)
  {
    if rows != [] {
      var p, r := rows[..|rows| - 1], rows[|rows| - 1];
      OtherRowsIdempotent(p, userId);
      UserRowsAppend(OtherRows(p, userId), if r.userId != userId then [r] else [], userId);
      if r.userId != userId {
        assert [r][..0] == [];
      }
    }
  }

  /** Syncing twice leaves the same table as syncing once. */
  lemma SyncIdempotent(rows: seq<HoldingRow>, userId: int, hs: seq<BaseHolding>)
    ensures SyncTable(SyncTable(rows, userId, hs), userId, hs) == SyncTable(rows, userId, hs)
  {
    var kept, added := OtherRows(rows, userId), RowsFor(hs, userId);
    UserRowsAppend(kept, added, userId);
    OtherRowsIdempotent(rows, userId);
    OtherRowsOfNew(hs, userId);
    assert OtherRows(kept + added, userId) == kept + [];
    assert kept + [] == kept;
  }

  // ---------------------------------------------------------------------
  // The service over a database

  class Database {
    var connections: seq<Connection>
    var holdings: seq<HoldingRow>

    predicate Valid()
      reads this
    {
      UniqueUsers(connections)
    }

    constructor ()
      ensures Valid() && connections == [] && holdings == []
    {
      connections, holdings := [], [];
    }

    /** `connect_account`: re-enable the user's row, or insert one. */
    method ConnectAccount(userId: int) returns (c: Connection)
      requires Valid()
      modifies this
      ensures Valid()
      ensures connections == ConnectTable(old(connections), userId)
      ensures holdings == old(holdings)
      ensures ConnectionOf(connections, userId) == Some(c)
      ensures c.isConnected && c.provider == PdfImport && c.userId == userId
    {
      ConnectLeavesOneConnection(connections, userId);
      var found := FindConnection(connections, userId);
      if found.Some? {
        var i := found.value;
        c := connections[i].(isConnected := true, provider := PdfImport);
        connections := connections[i := c];
      } else {
        c := NewConnection(userId);
        connections := connections + [c];
      }
    }

    /** `disconnect_account`: false and no change without a row. */
    method DisconnectAccount(userId: int) returns (ok: bool)
      requires Valid()
      modifies this
      ensures Valid()
      ensures ok == CanDisconnect(old(connections), userId)
      ensures connections == DisconnectTable(old(connections), userId)
      ensures holdings == old(holdings)
    {
      var found := FindConnection(connections, userId);
      if found.Some? {
        var i := found.value;
        connections := connections[i := connections[i].(isConnected := false, accessToken := None, refreshToken := None)];
        assert forall k :: 0 <= k < |connections| ==> connections[k].userId == old(connections)[k].userId;
        return true;
      }
      return false;
    }

    /** `sync_holdings`: delete the user's rows, then add one row per
        statement entry and return the added rows. */
    method SyncHoldings(userId: int) returns (added: seq<HoldingRow>)
      modifies this
      ensures holdings == SyncTable(old(holdings), userId, ParsePdfHoldings())
      ensures added == RowsFor(ParsePdfHoldings(), userId)
      ensures |added| == 27
      ensures connections == old(connections)
    {
      var data := ParsePdfHoldings();
      holdings := OtherRows(holdings, userId);
      ghost var kept := holdings;
      added := [];
      for i := 0 to |data|
        invariant holdings == kept + added
        invariant added == RowsFor(data[..i], userId)
        invariant connections == old(connections)
      {
        assert data[..i + 1][..i] == data[..i];
        var row := ToRow(data[i], userId);
        holdings := holdings + [row];
        added := added + [row];
      }
      assert data[..|data|] == data;
    }

    /** The brokerage status endpoint. */
    function Status(userId: int): Status
      reads this
    {
      ConnectionStatus(ConnectionOf(connections, userId))
    }

    /** The import endpoint: connect, then sync. */
    method ImportFromPdf(userId: int) returns (status: string, provider: string)
      requires Valid()
      modifies this
      ensures Valid()
      ensures connections == ConnectTable(old(connections), userId)
      ensures holdings == SyncTable(old(holdings), userId, ParsePdfHoldings())
      ensures Status(userId) == Connected(PdfImport)
      ensures status == "connected" && provider == PdfImport
    {
      var _ := ConnectAccount(userId);
      var _ := SyncHoldings(userId);
      status, provider := "connected", PdfImport;
    }

    /** The disconnect endpoint: HTTP 400 when the service reports failure. */
    method DisconnectBrokerage(userId: int) returns (r: Result<string, HttpError>)
      requires Valid()
      modifies this
      ensures Valid()
      ensures connections == DisconnectTable(old(connections), userId)
      ensures holdings == old(holdings)
      ensures r.Err? <==> ConnectionOf(old(connections), userId).None?
      ensures r.Err? ==> r.error == HttpError(400, "No active connection found")
      ensures r.Ok? ==> r.value == "disconnected" && Status(userId) == NotConnected
    {
      var ok := DisconnectAccount(userId);
      DisconnectedStatus(old(connections), userId);
      if !ok {
        return Err(HttpError(400, "No active connection found"));
      }
      return Ok("disconnected");
    }
  }
}
