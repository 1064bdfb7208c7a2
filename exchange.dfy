/**
 * The exchange as both clients see it: a fixed snapshot of what its read
 * calls answer, an oracle saying which call fails and how, and a gateway
 * object that records every request in the order it is issued.
 */
module Exchange {
  import opened Wrappers
  import opened Decimals
  import FutureParsing

  type Side = FutureParsing.Side

  /** `'SELL' if side == 'BUY' else 'BUY'` */
  function Opposite(s: Side): (o: Side)
    ensures o != s
  {
    if s == FutureParsing.Buy then FutureParsing.Sell else FutureParsing.Buy
  }

  /** What a call can fail with, and what the client code itself raises. */
  datatype Failure =
    | ApiError         // `BinanceAPIException`: the venue refused the request
    | TransportError   // any other exception coming out of the SDK
    | ArithmeticError  // division by zero, on floats or on `Decimal`s
    | ValueError       // a math domain error or an unsupported order type
    | TypeError        // subscripting a missing (`None`) response
    | StopIteration    // `next()` over the filters without a default

  /** The symbol filters the clients read; every other kind is `OtherFilter`. */
  datatype Filter =
    | LotSize(stepSize: Dec, minQty: Dec)
    | PriceFilter(tickSize: Dec)
    | Notional(minNotional: real, maxNotional: Option<real>)
    | OtherFilter

  datatype FilterKind = LotSizeKind | PriceFilterKind | NotionalKind

  predicate OfKind(f: Filter, k: FilterKind) {
    match k
    case LotSizeKind => f.LotSize?
    case PriceFilterKind => f.PriceFilter?
    case NotionalKind => f.Notional?
  }

  /** `next((f for f in filters if f['filterType'] == kind), None)` */
  function FirstFilter(fs: seq<Filter>, k: FilterKind): (r: Option<Filter>)
    ensures r.Some? ==> OfKind(r.value, k)
    ensures r.Some? ==> exists i :: 0 <= i < |fs| && fs[i] == r.value
                                    && forall j :: 0 <= j < i ==> !OfKind(fs[j], k)
    ensures r.None? <==> forall i :: 0 <= i < |fs| ==> !OfKind(fs[i], k)
  {
    if fs == [] then None
    else if OfKind(fs[0], k) then Some(fs[0])
    else
      var r := FirstFilter(fs[1..], k);
      assert r.Some? ==> exists i :: 0 <= i < |fs[1..]| && fs[1..][i] == r.value
                                    && forall j :: 0 <= j < i ==> !OfKind(fs[1..][j], k);
      if r.Some? then
        var i :| 0 <= i < |fs[1..]| && fs[1..][i] == r.value
                 && forall j :: 0 <= j < i ==> !OfKind(fs[1..][j], k);
        assert fs[i + 1] == r.value && forall j :: 0 <= j < i + 1 ==> !OfKind(fs[j], k);
        r
      else
        assert forall i :: 1 <= i < |fs| ==> fs[i] == fs[1..][i - 1];
        r
  }

  datatype SymbolInfo = SymbolInfo(symbol: string, filters: seq<Filter>)
  datatype AssetBalance = AssetBalance(asset: string, balance: real)
  datatype OpenOrder = OpenOrder(symbol: string, orderId: nat)
  datatype Position = Position(symbol: string, amount: real)

  /** The first entry for `symbol`: the venue's symbol lookup. */
  function FindSymbol(infos: seq<SymbolInfo>, symbol: string): (r: Option<SymbolInfo>)
    ensures r.Some? ==> exists i :: 0 <= i < |infos| && infos[i] == r.value && r.value.symbol == symbol
                                    && forall j :: 0 <= j < i ==> infos[j].symbol != symbol
    ensures r.None? <==> forall i :: 0 <= i < |infos| ==> infos[i].symbol != symbol
  {
    if infos == [] then None
    else if infos[0].symbol == symbol then Some(infos[0])
    else
      var r := FindSymbol(infos[1..], symbol);
      assert forall i :: 1 <= i < |infos| ==> infos[i] == infos[1..][i - 1];
      if r.Some? then
        var i :| 0 <= i < |infos[1..]| && infos[1..][i] == r.value && r.value.symbol == symbol
                 && forall j :: 0 <= j < i ==> infos[1..][j].symbol != symbol;
        assert infos[i + 1] == r.value;
        r
      else r
  }

  /** The tick size of `symbol`'s PRICE_FILTER, when the symbol and the filter exist. */
  function TickSizeOf(infos: seq<SymbolInfo>, symbol: string): (t: Option<real>)
    ensures t.Some? ==> t.value >= 0.0
  {
    match FindSymbol(infos, symbol)
    case None => None
    case Some(si) =>
      match FirstFilter(si.filters, PriceFilterKind)
      case None => None
      case Some(pf) => Some(pf.tickSize.Value())
  }

  /** The open orders the venue lists for `symbol`, in its order. */
  function OrdersFor(orders: seq<OpenOrder>, symbol: string): (r: seq<OpenOrder>)
    ensures |r| <= |orders|
    ensures forall o :: o in r ==> o in orders && o.symbol == symbol
  {
    if orders == [] then []
    else if orders[0].symbol == symbol then [orders[0]] + OrdersFor(orders[1..], symbol)
    else OrdersFor(orders[1..], symbol)
  }

  /** The filter keeps exactly the orders on `symbol`: every kept order is on it, and none on it is dropped. */
  lemma {:induction false} OrdersForFilters(orders: seq<OpenOrder>, symbol: string)
    ensures var r := OrdersFor(orders, symbol);
            (forall k :: 0 <= k < |r| ==> r[k].symbol == symbol)
            && (forall o :: o in orders && o.symbol == symbol ==> o in r)
    decreases |orders|
  {
    if orders != [] {
      OrdersForFilters(orders[1..], symbol);
      var rest := OrdersFor(orders[1..], symbol);
      forall o | o in orders && o.symbol == symbol
        ensures o in OrdersFor(orders, symbol)
      {
        if o != orders[0] {
          assert o in orders[1..];
        }
      }
    }
  }

  /** The state of the account that the read calls report. */
  datatype Venue = Venue(
    futuresBalances: seq<AssetBalance>,
    availableBalance: real,
    futuresSymbols: seq<SymbolInfo>,
    futuresOpenOrders: seq<OpenOrder>,
    positions: seq<Position>,
    spotFreeUsdt: Option<real>,
    spotSymbols: seq<SymbolInfo>,
    spotOpenOrders: seq<OpenOrder>)

  /** `MARKET`, `STOP_MARKET` with its `stopPrice`, and `LIMIT` good-till-cancelled. */
  datatype OrderType = Market | StopMarket(stopPrice: Option<real>) | LimitGtc(price: real)

  datatype FuturesOrder = FuturesOrder(symbol: string, side: Side, orderType: OrderType, quantity: real)

  /** One call on the exchange client, with the arguments the clients pass. */
  datatype Request =
    | FuturesAccountBalance
    | FuturesChangeLeverage(symbol: string, leverage: int)
    | FuturesExchangeInfo
    | FuturesAccount
    | FuturesCreateOrder(order: FuturesOrder)
    | FuturesGetOpenOrders(symbol: string)
    | FuturesCancelOrder(symbol: string, orderId: nat)
    | FuturesPositionInformation
    | SpotAssetBalance
    | SpotSymbolInfo(symbol: string)
    | SpotLimitBuy(symbol: string, quantity: real, price: real)
    | SpotMarketBuy(symbol: string, quantity: real)
    | SpotLimitSell(symbol: string, quantity: real, price: real)
    | SpotGetOpenOrders(symbol: string)
    | SpotCancelOrder(symbol: string, orderId: nat)

  /** Requests that put an order on the book. */
  predicate IsOrder(r: Request) {
    r.FuturesCreateOrder? || r.SpotLimitBuy? || r.SpotMarketBuy? || r.SpotLimitSell?
  }

  /** Requests that take an order off the book. */
  predicate IsCancel(r: Request) {
    r.FuturesCancelOrder? || r.SpotCancelOrder?
  }

  predicate NoOrders(calls: seq<Request>) {
    forall i :: 0 <= i < |calls| ==> !IsOrder(calls[i])
  }

  predicate NoCancels(calls: seq<Request>) {
    forall i :: 0 <= i < |calls| ==> !IsCancel(calls[i])
  }

  /** Every cancel in `calls` comes before every order. */
  predicate CancelsBeforeOrders(calls: seq<Request>) {
    forall i, j :: 0 <= i < |calls| && 0 <= j < |calls| && IsCancel(calls[i]) && IsOrder(calls[j]) ==> i < j
  }

  /** Calls that place nothing followed by calls that cancel nothing keep cancels before orders. */
  lemma CancelsThenOrders(calls: seq<Request>, before: seq<Request>, after: seq<Request>)
    requires calls == before + after && NoOrders(before) && NoCancels(after)
    ensures CancelsBeforeOrders(calls)
  {
  }

  /** The snapshot the read calls answer from, and which call (by position) fails. */
  datatype Env = Env(venue: Venue, oracle: nat -> Option<Failure>)

  /** How a client operation ends: with a value, or with an exception. */
  datatype Flow<T> = Returned(value: T) | Raised(failure: Failure)

  /** The calls an operation issues, in order, and how it ends. */
  datatype Run<T> = Run(calls: seq<Request>, flow: Flow<T>)

  /**
   * Issues `reqs` in order from trace position `n`, stopping at the first
   * call that fails and raising its failure.
   */
  function AttemptEach(oracle: nat -> Option<Failure>, n: nat, reqs: seq<Request>): (r: Run<()>)
    ensures 1 <= |r.calls| <= |reqs| || (reqs == [] && r == Run([], Returned(())))
    decreases |reqs|
  {
    if reqs == [] then Run([], Returned(()))
    else if oracle(n).Some? then Run([reqs[0]], Raised(oracle(n).value))
    else
      var rest := AttemptEach(oracle, n + 1, reqs[1..]);
      Run([reqs[0]] + rest.calls, rest.flow)
  }

  /**
   * The calls issued are the requests up to and including the first that
   * fails, all of them when none fails; a failure is the one the failing
   * call met.
   */
  lemma {:induction false} AttemptEachPrefix(oracle: nat -> Option<Failure>, n: nat, reqs: seq<Request>)
    ensures var r := AttemptEach(oracle, n, reqs);
            r.calls == reqs[..|r.calls|]
            && (forall i :: n <= i < n + |r.calls| - 1 ==> oracle(i).None?)
            && (r.flow.Returned? <==> forall i :: n <= i < n + |reqs| ==> oracle(i).None?)
            && (r.flow.Returned? ==> r.calls == reqs)
            && (r.flow.Raised? ==> oracle(n + |r.calls| - 1) == Some(r.flow.failure))
    decreases |reqs|
  {
    if reqs != [] && oracle(n).None? {
      AttemptEachPrefix(oracle, n + 1, reqs[1..]);
      var rest := AttemptEach(oracle, n + 1, reqs[1..]);
      assert reqs == [reqs[0]] + reqs[1..];
      assert AttemptEach(oracle, n, reqs).calls == [reqs[0]] + rest.calls;
    }
  }

  /** `AttemptEach` issues the first request, and goes on only if it succeeded. */
  lemma AttemptEachStep(oracle: nat -> Option<Failure>, n: nat, reqs: seq<Request>)
    requires reqs != []
    ensures oracle(n).Some? ==> AttemptEach(oracle, n, reqs).calls == [reqs[0]]
    ensures oracle(n).None? ==> AttemptEach(oracle, n, reqs).calls == [reqs[0]] + AttemptEach(oracle, n + 1, reqs[1..]).calls
  {
  }

  /** One step of a loop that issues `reqs` from the end of the trace `before`. */
  lemma AttemptNext(oracle: nat -> Option<Failure>, before: seq<Request>, reqs: seq<Request>, all: seq<Request>)
    requires reqs != [] && all == before + AttemptEach(oracle, |before|, reqs).calls
    ensures oracle(|before|).Some? ==> all == before + [reqs[0]]
    ensures oracle(|before|).None? ==> all == (before + [reqs[0]]) + AttemptEach(oracle, |before| + 1, reqs[1..]).calls
    ensures oracle(|before|).Some? ==> AttemptEach(oracle, |before|, reqs).flow == Raised(oracle(|before|).value)
    ensures oracle(|before|).None? ==> AttemptEach(oracle, |before|, reqs).flow == AttemptEach(oracle, |before| + 1, reqs[1..]).flow
  {
    AttemptEachStep(oracle, |before|, reqs);
    if oracle(|before|).None? {
      AppendOne(before, reqs[0], AttemptEach(oracle, |before| + 1, reqs[1..]).calls);
    }
  }

  /** `AttemptNext` for the requests from index `i` on, as a loop over `reqs` sees them. */
  lemma AttemptAt(oracle: nat -> Option<Failure>, before: seq<Request>, reqs: seq<Request>, i: nat, all: seq<Request>)
    requires i < |reqs| && all == before + AttemptEach(oracle, |before|, reqs[i..]).calls
    ensures oracle(|before|).Some? ==> all == before + [reqs[i]]
    ensures oracle(|before|).None? ==> all == (before + [reqs[i]]) + AttemptEach(oracle, |before| + 1, reqs[i + 1..]).calls
    ensures oracle(|before|).Some? ==> AttemptEach(oracle, |before|, reqs[i..]).flow == Raised(oracle(|before|).value)
    ensures oracle(|before|).None? ==> AttemptEach(oracle, |before|, reqs[i..]).flow == AttemptEach(oracle, |before| + 1, reqs[i + 1..]).flow
  {
    assert reqs[i..][0] == reqs[i] && reqs[i..][1..] == reqs[i + 1..];
    AttemptNext(oracle, before, reqs[i..], all);
  }

  /** The oracle index a run starts at when it follows `calls` issued from index `n`. */
  function Next(n: nat, calls: seq<Request>): nat {
    n + |calls|
  }

  /** Two runs made one after the other leave the trace extended by the whole run. */
  lemma Sequenced(before: seq<Request>, middle: seq<Request>, after: seq<Request>,
                  first: seq<Request>, second: seq<Request>, whole: seq<Request>)
    requires middle == before + first && after == middle + second && whole == first + second
    ensures after == before + whole
  {
  }

  lemma AppendOne<T>(before: seq<T>, x: T, rest: seq<T>)
    ensures before + ([x] + rest) == (before + [x]) + rest
  {
  }

  /**
   * The exchange client: every call is appended to `trace`, and it fails as
   * the oracle says for its position in the trace.
   */
  class Gateway {
    const env: Env
    var trace: seq<Request>

    constructor (env: Env)
      ensures this.env == env && trace == []
    {
      this.env := env;
      trace := [];
    }

    method Call(r: Request) returns (failure: Option<Failure>)
      modifies this
      ensures trace == old(trace) + [r]
      ensures failure == env.oracle(|old(trace)|)
    {
      failure := env.oracle(|trace|);
      trace := trace + [r];
    }
  }
}
