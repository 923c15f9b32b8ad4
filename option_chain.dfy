/**
 * The server's option-chain transform (`process_option_chain_data` in main.py)
 * and the guards of its two HTTP routes.
 *
 * The foreign calls are parameters: `expiryDates` is what `expiry_list(symbol)`
 * returned, and `chainFor(expiry)` is what `oi_chain_builder(symbol, expiry, "full")`
 * returned (its rows and the last traded price of the underlying). Strikes and
 * the four raw per-row figures are integers; the underlying value and the
 * scaled open-interest figures are exact reals (no floating-point rounding).
 */
module OptionChain {
  import opened Wrappers

  /** main.py's LOT_DICT: contract lot size per index symbol. */
  const LotDict: map<string, nat> := map["NIFTY" := 50, "BANKNIFTY" := 15, "FINNIFTY" := 40, "MIDCPNIFTY" := 75]

  /** Lot size used when the symbol is not in LotDict. */
  const DefaultLot: nat := 50

  /** Half-width of the strike window around the underlying value. */
  const StrikeWindow: real := 1500.0

  /** One row of the chain built by `oi_chain_builder`. */
  datatype Row = Row(strike: int, callsOI: int, putsOI: int, callsChange: int, putsChange: int)

  /** The three-part result of `oi_chain_builder` without its timestamp. */
  datatype Chain = Chain(rows: seq<Row>, ltp: real)

  /** The four raw per-row figures that are scaled by the lot size. */
  datatype Field = CallsOI | PutsOI | CallsChange | PutsChange

  /** The JSON object `process_option_chain_data` returns. */
  datatype Payload = Payload(
    strikePrices: seq<int>,
    ceOpenInterests: seq<real>,
    peOpenInterests: seq<real>,
    expiryDates: seq<string>,
    selectedExpiry: string,
    ceOpenInterestsChange: seq<real>,
    peOpenInterestsChange: seq<real>,
    closestStrike: real,
    underlyingValue: real)

  /** An HTTP error response. */
  datatype HttpError = HttpError(status: int, detail: string)

  /** The explicit `HTTPException(500, "Failed to retrieve data")` of both routes. */
  const FailedToRetrieve := HttpError(500, "Failed to retrieve data")

  /** What FastAPI answers when the handler raises an uncaught exception (here an IndexError). */
  const InternalError := HttpError(500, "Internal Server Error")

  /** `LOT_DICT.get(symbol, 50)`. */
  function LotSize(symbol: string): (lot: nat)
    ensures lot > 0
    ensures lot == DefaultLot <==> symbol != "BANKNIFTY" && symbol != "FINNIFTY" && symbol != "MIDCPNIFTY"
  {
    if symbol in LotDict then LotDict[symbol] else DefaultLot
  }

  lemma LotSizes(other: string)
    requires other !in {"NIFTY", "BANKNIFTY", "FINNIFTY", "MIDCPNIFTY"}
    ensures LotSize("NIFTY") == 50 && LotSize("BANKNIFTY") == 15
    ensures LotSize("FINNIFTY") == 40 && LotSize("MIDCPNIFTY") == 75
    ensures LotSize(other) == 50
  {
  }

  /** Distance between two points of the price axis. */
  function Distance(a: real, b: real): (d: real)
    ensures d >= 0.0 && (d == a - b || d == b - a)
  {
    if a >= b then a - b else b - a
  }

  /** The row filter of the loop: strike within 1500 of the underlying and a multiple of 100. */
  predicate Qualifies(row: Row, underlying: real)
    ensures Qualifies(row, underlying)
        <==> row.strike % 100 == 0 && Distance(row.strike as real, underlying) <= StrikeWindow
  {
    underlying - StrikeWindow <= row.strike as real <= underlying + StrikeWindow && row.strike % 100 == 0
  }

  /** The rows the loop keeps, in input order. */
  function Kept(rows: seq<Row>, underlying: real): (kept: seq<Row>)
    ensures |kept| <= |rows|
    ensures forall i :: 0 <= i < |kept| ==> Qualifies(kept[i], underlying)
  {
    if rows == [] then []
    else
      var last := rows[|rows| - 1];
      Kept(rows[..|rows| - 1], underlying) + (if Qualifies(last, underlying) then [last] else [])
  }

  function FieldOf(row: Row, f: Field): int {
    match f
    case CallsOI => row.callsOI
    case PutsOI => row.putsOI
    case CallsChange => row.callsChange
    case PutsChange => row.putsChange
  }

  /** `(x * lot_size) / 1e3`, exactly. */
  function Scale(x: int, lot: nat): (v: real)
    ensures v * 1000.0 == (x * lot) as real
  {
    (x * lot) as real / 1000.0
  }

  function Strikes(rows: seq<Row>): (s: seq<int>)
    ensures |s| == |rows| && forall i :: 0 <= i < |rows| ==> s[i] == rows[i].strike
  {
    seq(|rows|, i requires 0 <= i < |rows| => rows[i].strike)
  }

  function Column(rows: seq<Row>, lot: nat, f: Field): (c: seq<real>)
    ensures |c| == |rows| && forall i :: 0 <= i < |rows| ==> c[i] == Scale(FieldOf(rows[i], f), lot)
  {
    seq(|rows|, i requires 0 <= i < |rows| => Scale(FieldOf(rows[i], f), lot))
  }

  /** The five numeric lists of a payload have one entry per strike. */
  predicate Aligned(p: Payload) {
    |p.ceOpenInterests| == |p.strikePrices| && |p.peOpenInterests| == |p.strikePrices|
    && |p.ceOpenInterestsChange| == |p.strikePrices| && |p.peOpenInterestsChange| == |p.strikePrices|
  }

  /**
   * What a successful answer for `expiry` contains: the expiry itself, the
   * expiry list unchanged, the kept rows' strikes and their four figures
   * scaled by the symbol's lot size, every strike a multiple of 100 inside the
   * window, and the chain's last price as both underlying and closest strike.
   */
  predicate Served(p: Payload, symbol: string, expiry: string, expiryDates: seq<string>, chainFor: string -> Chain) {
    var chain := chainFor(expiry);
    var kept := Kept(chain.rows, chain.ltp);
    var lot := LotSize(symbol);
    && p.selectedExpiry == expiry
    && p.expiryDates == expiryDates
    && p.underlyingValue == chain.ltp
    && p.closestStrike == chain.ltp
    && p.strikePrices == Strikes(kept)
    && p.ceOpenInterests == Column(kept, lot, CallsOI)
    && p.peOpenInterests == Column(kept, lot, PutsOI)
    && p.ceOpenInterestsChange == Column(kept, lot, CallsChange)
    && p.peOpenInterestsChange == Column(kept, lot, PutsChange)
    && Aligned(p)
    && forall i :: 0 <= i < |p.strikePrices| ==>
         p.strikePrices[i] % 100 == 0
         && p.underlyingValue - StrikeWindow <= p.strikePrices[i] as real <= p.underlyingValue + StrikeWindow
  }

  /** `find_closest_strike` is a stub whose body is `pass`: it always returns None. */
  function FindClosestStrike(strikePrices: seq<int>, underlying: real): (r: Option<real>)
    ensures r == None
  {
    None
  }

  lemma ColumnsSnoc(rows: seq<Row>, row: Row, lot: nat)
    ensures Strikes(rows + [row]) == Strikes(rows) + [row.strike]
    ensures forall f :: Column(rows + [row], lot, f) == Column(rows, lot, f) + [Scale(FieldOf(row, f), lot)]
  {
    assert Strikes(rows + [row]) == Strikes(rows) + [row.strike];
    forall f ensures Column(rows + [row], lot, f) == Column(rows, lot, f) + [Scale(FieldOf(row, f), lot)] {
      assert Column(rows + [row], lot, f) == Column(rows, lot, f) + [Scale(FieldOf(row, f), lot)];
    }
  }

  /** Appending one row to the input appends it to the kept rows exactly when it qualifies. */
  lemma KeptSnoc(rows: seq<Row>, row: Row, underlying: real)
    ensures Kept(rows + [row], underlying)
         == Kept(rows, underlying) + (if Qualifies(row, underlying) then [row] else [])
  {
    assert (rows + [row])[..|rows|] == rows;
  }

  /** Filtering distributes over concatenation: kept rows stay in input order. */
  lemma {:induction false} KeptAppend(a: seq<Row>, b: seq<Row>, underlying: real)
    ensures Kept(a + b, underlying) == Kept(a, underlying) + Kept(b, underlying)
    decreases |b|
  {
    if b == [] {
      assert a + b == a;
    } else {
      var b' := b[..|b| - 1];
      var last := b[|b| - 1];
      assert a + b == (a + b') + [last];
      assert b == b' + [last];
      KeptSnoc(a + b', last, underlying);
      KeptSnoc(b', last, underlying);
      KeptAppend(a, b', underlying);
    }
  }

  /**
   * Every qualifying row is kept as often as it occurs, and nothing else is
   * kept: the kept rows are exactly the qualifying rows of the input.
   */
  lemma {:induction false} KeptCounts(rows: seq<Row>, underlying: real, x: Row)
    ensures multiset(Kept(rows, underlying))[x]
         == if Qualifies(x, underlying) then multiset(rows)[x] else 0
  {
    if rows != [] {
      var init := rows[..|rows| - 1];
      var last := rows[|rows| - 1];
      assert rows == init + [last];
      KeptCounts(init, underlying, x);
    }
  }

  lemma KeptMembership(rows: seq<Row>, underlying: real, x: Row)
    ensures x in Kept(rows, underlying) <==> x in rows && Qualifies(x, underlying)
  {
    KeptCounts(rows, underlying, x);
    assert x in Kept(rows, underlying) <==> multiset(Kept(rows, underlying))[x] > 0;
    assert x in rows <==> multiset(rows)[x] > 0;
  }

  /** A payload carrying the kept rows of the chain for `expiry` keeps every strike in the window. */
  lemma ServedByLoop(p: Payload, symbol: string, expiry: string, expiryDates: seq<string>, chainFor: string -> Chain)
    requires var chain := chainFor(expiry);
      var kept := Kept(chain.rows, chain.ltp);
      var lot := LotSize(symbol);
      && p.selectedExpiry == expiry && p.expiryDates == expiryDates
      && p.underlyingValue == chain.ltp && p.closestStrike == chain.ltp
      && p.strikePrices == Strikes(kept)
      && p.ceOpenInterests == Column(kept, lot, CallsOI) && p.peOpenInterests == Column(kept, lot, PutsOI)
      && p.ceOpenInterestsChange == Column(kept, lot, CallsChange) && p.peOpenInterestsChange == Column(kept, lot, PutsChange)
    ensures Served(p, symbol, expiry, expiryDates, chainFor)
  {
    var chain := chainFor(expiry);
    var kept := Kept(chain.rows, chain.ltp);
    forall j | 0 <= j < |kept|
      ensures p.strikePrices[j] % 100 == 0
      ensures chain.ltp - StrikeWindow <= p.strikePrices[j] as real <= chain.ltp + StrikeWindow
    {
      assert p.strikePrices[j] == kept[j].strike && Qualifies(kept[j], chain.ltp);
    }
  }

  /**
   * `process_option_chain_data(symbol, selected_expiry_date)`. An empty
   * `selectedExpiryDate` stands for both Python's None and "" (both falsy).
   */
  method ProcessOptionChainData(symbol: string, selectedExpiryDate: string,
                                expiryDates: seq<string>, chainFor: string -> Chain)
    returns (r: Result<Payload, HttpError>)
    ensures r.Failure? <==> selectedExpiryDate == "" && expiryDates == []
    ensures r.Failure? ==> r.error == InternalError
    ensures r.Success? ==>
      Served(r.value, symbol, if selectedExpiryDate != "" then selectedExpiryDate else expiryDates[0], expiryDates, chainFor)
  {
    var lot := LotSize(symbol);
    if selectedExpiryDate == "" && expiryDates == [] {
      // expiry_dates[0] raises IndexError
      return Failure(InternalError);
    }
    var expiry := if selectedExpiryDate != "" then selectedExpiryDate else expiryDates[0];
    var chain := chainFor(expiry);
    var rows := chain.rows;
    var underlying := chain.ltp;

    var strikePrices: seq<int> := [];
    var ceOI: seq<real> := [];
    var peOI: seq<real> := [];
    var ceChange: seq<real> := [];
    var peChange: seq<real> := [];
    var i := 0;
    while i < |rows|
      invariant 0 <= i <= |rows|
      invariant strikePrices == Strikes(Kept(rows[..i], underlying))
      invariant ceOI == Column(Kept(rows[..i], underlying), lot, CallsOI)
      invariant peOI == Column(Kept(rows[..i], underlying), lot, PutsOI)
      invariant ceChange == Column(Kept(rows[..i], underlying), lot, CallsChange)
      invariant peChange == Column(Kept(rows[..i], underlying), lot, PutsChange)
    {
      var row := rows[i];
      assert rows[..i + 1] == rows[..i] + [row];
      KeptSnoc(rows[..i], row, underlying);
      if underlying - StrikeWindow <= row.strike as real <= underlying + StrikeWindow && row.strike % 100 == 0 {
        ColumnsSnoc(Kept(rows[..i], underlying), row, lot);
        strikePrices := strikePrices + [row.strike];
        ceOI := ceOI + [Scale(row.callsOI, lot)];
        peOI := peOI + [Scale(row.putsOI, lot)];
        ceChange := ceChange + [Scale(row.callsChange, lot)];
        peChange := peChange + [Scale(row.putsChange, lot)];
      }
      i := i + 1;
    }
    assert rows[..i] == rows;

    var closest := FindClosestStrike(strikePrices, underlying);
    var payload := Payload(
      strikePrices, ceOI, peOI, expiryDates, expiry, ceChange, peChange,
      closest.GetOr(underlying),
      underlying);
    ServedByLoop(payload, symbol, expiry, expiryDates, chainFor);
    r := Success(payload);
  }

  /** Route `GET /api/nifty-options/{symbol}`: the server picks the expiry. */
  method GetNiftyOptions(symbol: string, expiryDates: seq<string>, chainFor: string -> Chain)
    returns (r: Result<Payload, HttpError>)
    ensures symbol == "" ==> r == Failure(FailedToRetrieve)
    ensures symbol != "" ==> (r.Failure? <==> expiryDates == [])
    ensures symbol != "" && r.Failure? ==> r.error == InternalError
    ensures r.Success? ==> Served(r.value, symbol, expiryDates[0], expiryDates, chainFor)
  {
    if symbol != "" {
      r := ProcessOptionChainData(symbol, "", expiryDates, chainFor);
    } else {
      r := Failure(FailedToRetrieve);
    }
  }

  /** Route `GET /api/nifty-options/{symbol}/{expiry}`: the caller picks the expiry. */
  method GetNiftyOptionsForExpiry(symbol: string, expiry: string, expiryDates: seq<string>, chainFor: string -> Chain)
    returns (r: Result<Payload, HttpError>)
    ensures symbol == "" || expiry == "" ==> r == Failure(FailedToRetrieve)
    ensures symbol != "" && expiry != "" ==> r.Success? && Served(r.value, symbol, expiry, expiryDates, chainFor)
  {
    if symbol != "" && expiry != "" {
      r := ProcessOptionChainData(symbol, expiry, expiryDates, chainFor);
    } else {
      r := Failure(FailedToRetrieve);
    }
  }
}
