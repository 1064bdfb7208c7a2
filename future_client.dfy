/**
 * The futures client: quantity sizing and price trimming on exact decimals,
 * and the order sequences it sends through the exchange gateway.
 */
module FutureClient {
  import opened Wrappers
  import opened Decimals
  import opened Exchange
  import FutureParsing
  import Text

  /** `TradingConstants.LEVERAGE` */
  const Leverage: int := 5
  /** `TradingConstants.RISK_PERCENTAGE` */
  const RiskPercentage: real := 0.05

  /** The balance of the first entry naming `asset`. */
  function FirstBalance(bs: seq<AssetBalance>, asset: string): (r: Option<real>)
    ensures r.Some? ==> exists i :: 0 <= i < |bs| && bs[i].asset == asset && bs[i].balance == r.value
                                    && forall j :: 0 <= j < i ==> bs[j].asset != asset
    ensures r.None? <==> forall i :: 0 <= i < |bs| ==> bs[i].asset != asset
  {
    if bs == [] then None
    else if bs[0].asset == asset then Some(bs[0].balance)
    else
      var r := FirstBalance(bs[1..], asset);
      assert forall i :: 1 <= i < |bs| ==> bs[i] == bs[1..][i - 1];
      if r.Some? then
        var i :| 0 <= i < |bs[1..]| && bs[1..][i].asset == asset && bs[1..][i].balance == r.value
                 && forall j :: 0 <= j < i ==> bs[1..][j].asset != asset;
        assert bs[i + 1].balance == r.value;
        r
      else r
  }

  /** `get_account_balance`: the USDT balance, or 0.0 when the account lists none. */
  function GetAccountBalanceRun(env: Env, n: nat): (r: Run<real>)
    ensures r.calls == [FuturesAccountBalance]
    ensures r.flow.Raised? <==> env.oracle(n).Some?
    ensures r.flow.Returned? ==>
              if FirstBalance(env.venue.futuresBalances, "USDT").Some?
              then r.flow.value == FirstBalance(env.venue.futuresBalances, "USDT").value
              else r.flow.value == 0.0
  {
    match env.oracle(n)
    case Some(f) => Run([FuturesAccountBalance], Raised(f))
    case None =>
      match FirstBalance(env.venue.futuresBalances, "USDT")
      case Some(b) => Run([FuturesAccountBalance], Returned(b))
      case None => Run([FuturesAccountBalance], Returned(0.0))
  }

  /** `set_leverage`: one leverage change, whose failure propagates. */
  function SetLeverageRun(env: Env, n: nat, symbol: string, leverage: int): (r: Run<()>)
    ensures r.calls == [FuturesChangeLeverage(symbol, leverage)]
    ensures r.flow.Raised? <==> env.oracle(n).Some?
  {
    match env.oracle(n)
    case Some(f) => Run([FuturesChangeLeverage(symbol, leverage)], Raised(f))
    case None => Run([FuturesChangeLeverage(symbol, leverage)], Returned(()))
  }

  /** `get_symbol_info`: the first listed symbol of that name, if any. */
  function GetSymbolInfoRun(env: Env, n: nat, symbol: string): (r: Run<Option<SymbolInfo>>)
    ensures r.calls == [FuturesExchangeInfo]
    ensures r.flow.Raised? <==> env.oracle(n).Some?
    ensures r.flow.Returned? ==> r.flow.value == FindSymbol(env.venue.futuresSymbols, symbol)
  {
    match env.oracle(n)
    case Some(f) => Run([FuturesExchangeInfo], Raised(f))
    case None => Run([FuturesExchangeInfo], Returned(FindSymbol(env.venue.futuresSymbols, symbol)))
  }

  /** `balance * RISK_PERCENTAGE * leverage / entry_price` */
  function RawQuantity(balance: real, entry: real, leverage: int): (q: real)
    requires entry != 0.0
    ensures balance >= 0.0 && leverage >= 0 && entry > 0.0 ==> q >= 0.0
  {
    balance * RiskPercentage * leverage as real / entry
  }

  /**
   * The sizing pipeline with the rounding precision as a parameter: the raw
   * quantity cut down to `places` decimal places, raised to `minQty`, then
   * trimmed to a whole number of steps. A zero entry price or a zero step
   * is a division by zero.
   */
  function SizeQuantity(balance: real, entry: real, leverage: int, step: Dec, minQty: Dec, places: nat)
    : (r: Result<real, Failure>)
    ensures r.Err? <==> entry == 0.0 || step.Value() == 0.0
    ensures r.Err? ==> r.error == ArithmeticError
    ensures r.Ok? ==> IsMultiple(r.value, step.Value())
    ensures r.Ok? && IsMultiple(minQty.Value(), step.Value()) ==> r.value >= minQty.Value()
    // the risk budget bounds the size from above, and from below up to one cut and one step
    ensures r.Ok? && balance >= 0.0 && leverage >= 0 && entry > 0.0 ==>
              var raw := RawQuantity(balance, entry, leverage);
              r.value <= Max(minQty.Value(), raw)
              && raw - Pow10(-(places as int)) - step.Value() < r.value
  {
    if entry == 0.0 then Err(ArithmeticError)
    else
      var q := RoundDownPlaces(RawQuantity(balance, entry, leverage), places);
      var adjusted := if minQty.Value() >= q then minQty.Value() else q;
      if step.Value() == 0.0 then Err(ArithmeticError)
      else
        assert IsMultiple(minQty.Value(), step.Value()) ==> minQty.Value() <= Trim(adjusted, step.Value()) by {
          if IsMultiple(minQty.Value(), step.Value()) {
            TrimIsLargest(minQty.Value(), adjusted, step.Value());
          }
        }
        Ok(Trim(adjusted, step.Value()))
  }

  /**
   * `calculate_quantity` as written: the precision is the number of digits
   * of the step's coefficient, `len(step_size.as_tuple()[1])`.
   */
  function FuturesQuantityAsWritten(balance: real, entry: real, leverage: int, step: Dec, minQty: Dec)
    : (r: Result<real, Failure>)
    ensures r.Err? <==> entry == 0.0 || step.Value() == 0.0
    ensures r.Ok? ==> IsMultiple(r.value, step.Value())
    ensures r.Ok? && IsMultiple(minQty.Value(), step.Value()) ==> r.value >= minQty.Value()
    ensures r.Ok? && balance >= 0.0 && leverage >= 0 && entry > 0.0 ==>
              var raw := RawQuantity(balance, entry, leverage);
              r.value <= Max(minQty.Value(), raw)
              && raw - Pow10(-(step.DigitCount() as int)) - step.Value() < r.value
  {
    SizeQuantity(balance, entry, leverage, step, minQty, step.DigitCount())
  }

  /** The sizing as intended: the precision is the step's number of fractional digits. */
  function FuturesQuantity(balance: real, entry: real, leverage: int, step: Dec, minQty: Dec)
    : (r: Result<real, Failure>)
    ensures r.Ok? ==> IsMultiple(r.value, step.Value())
    ensures r.Ok? && IsMultiple(minQty.Value(), step.Value()) ==> r.value >= minQty.Value()
  {
    SizeQuantity(balance, entry, leverage, step, minQty, step.FractionDigits())
  }

  /**
   * With the step's own precision the intermediate rounding never loses a
   * step: the quantity is the raw quantity trimmed to the step, raised to
   * `minQty`.
   */
  lemma FuturesQuantityIsTrimmedRaw(balance: real, entry: real, leverage: int, step: Dec, minQty: Dec)
    requires balance >= 0.0 && leverage >= 0 && entry > 0.0
    requires step.Value() > 0.0 && IsMultiple(minQty.Value(), step.Value())
    ensures FuturesQuantity(balance, entry, leverage, step, minQty)
            == Ok(Max(minQty.Value(), Trim(RawQuantity(balance, entry, leverage), step.Value())))
  {
    var raw := RawQuantity(balance, entry, leverage);
    var q := RoundDownPlaces(raw, step.FractionDigits());
    StepTrimsGrid(raw, step);
    TrimOfMax(minQty.Value(), q, step.Value());
  }

  /** Trimming to the step after cutting to the step's decimal places is trimming to the step. */
  lemma StepTrimsGrid(raw: real, step: Dec)
    requires raw >= 0.0 && step.Value() > 0.0
    ensures Trim(RoundDownPlaces(raw, step.FractionDigits()), step.Value()) == Trim(raw, step.Value())
  {
    var u := Pow10(-(step.FractionDigits() as int));
    UnitsPositive(step);
    ValueInUnits(step);
    TrimTwice(raw, u, step.Units(), step.Value());
  }

  /** Raising to a whole-step minimum commutes with trimming to the step. */
  lemma TrimOfMax(m: real, q: real, s: real)
    requires s > 0.0 && 0.0 <= m && 0.0 <= q && IsMultiple(m, s)
    ensures Trim(Max(m, q), s) == Max(m, Trim(q, s))
  {
    if m >= q {
      TrimMultiple(m, s);
    } else {
      TrimIsLargest(m, q, s);
    }
  }

  function Max(a: real, b: real): real { if a >= b then a else b }

  /**
   * When the step's coefficient has at least as many digits as the step has
   * decimal places (`1.00`, `0.100`), the code's precision keeps every step
   * and its sizing is the intended one.
   */
  lemma AsWrittenAgreesWhenPrecise(balance: real, entry: real, leverage: int, step: Dec, minQty: Dec)
    requires balance >= 0.0 && leverage >= 0 && entry >= 0.0
    requires step.DigitCount() >= step.FractionDigits()
    ensures FuturesQuantityAsWritten(balance, entry, leverage, step, minQty)
            == FuturesQuantity(balance, entry, leverage, step, minQty)
  {
    if entry != 0.0 && step.Value() != 0.0 {
      var raw := RawQuantity(balance, entry, leverage);
      var q1 := RoundDownPlaces(raw, step.DigitCount());
      var q2 := RoundDownPlaces(raw, step.FractionDigits());
      StepTrimsGridAt(raw, step, step.DigitCount());
      StepTrimsGridAt(raw, step, step.FractionDigits());
      MaxTrimEq(minQty.Value(), q1, q2, step.Value());
    }
  }

  /** Cutting to any precision at least the step's own, then trimming to the step, is trimming to the step. */
  lemma StepTrimsGridAt(raw: real, step: Dec, p: nat)
    requires raw >= 0.0 && step.Value() > 0.0 && p >= step.FractionDigits()
    ensures Trim(RoundDownPlaces(raw, p), step.Value()) == Trim(raw, step.Value())
  {
    var u := Pow10(-(p as int));
    UnitsPositive(step);
    ValueInUnits(step);
    var c := StepInUnitsOf(step.Value(), step.Units(), step.FractionDigits(), p);
    TrimTwice(raw, u, c, step.Value());
  }

  /** A positive amount of `k` units of `10^-f` is a whole number of units of any finer place `10^-p`. */
  lemma StepInUnitsOf(v: real, k: nat, f: nat, p: nat) returns (c: int)
    requires k >= 1 && p >= f && v == k as real * Pow10(-(f as int))
    ensures c >= 1 && v == c as real * Pow10(-(p as int))
  {
    Pow10Split(p, f);
    c := UnitsOfFinerPlace(v, k, Text.Pow10(p - f), Pow10(-(f as int)), Pow10(-(p as int)));
  }

  /** `v == k * x` and `x == t * u` make `v` a whole number `k * t` of `u`. */
  lemma UnitsOfFinerPlace(v: real, k: nat, t: nat, x: real, u: real) returns (c: int)
    requires k >= 1 && t >= 1 && v == k as real * x && x == t as real * u
    ensures c >= 1 && v == c as real * u
  {
    c := k * t;
    ProductAsReal(k, t);
    ProductAtLeastOne(k, t);
    Reassociate(v, k as real, t as real, u, x);
  }

  lemma ProductAtLeastOne(k: nat, t: nat)
    requires k >= 1 && t >= 1
    ensures k * t >= 1
  {
  }

  lemma Reassociate(v: real, k: real, t: real, u: real, x: real)
    requires v == k * x && x == t * u
    ensures v == (k * t) * u
  {
  }

  /** `10^-f == 10^(p - f) * 10^-p` */
  lemma Pow10Split(p: nat, f: nat)
    requires p >= f
    ensures Pow10(-(f as int)) == Text.Pow10(p - f) as real * Pow10(-(p as int))
  {
    var a, b := Text.Pow10(p - f) as real, Text.Pow10(f) as real;
    PowerProduct(p, f);
    NegativePower(f);
    ScaleInverse(a, b, Pow10(-(p as int)), Pow10(-(f as int)));
  }

  /** `10^-p == 1 / (10^(p - f) * 10^f)` */
  lemma PowerProduct(p: nat, f: nat)
    requires p >= f
    ensures Pow10(-(p as int)) == 1.0 / (Text.Pow10(p - f) as real * Text.Pow10(f) as real)
  {
    Text.Pow10Add(p - f, f);
    assert p - f + f == p;
    ProductAsReal(Text.Pow10(p - f), Text.Pow10(f));
    NegativePower(p);
  }

  /** `10^-k == 1 / 10^k` */
  lemma NegativePower(k: nat)
    ensures Pow10(-(k as int)) == 1.0 / Text.Pow10(k) as real
  {
  }

  lemma ProductAsReal(i: nat, j: nat)
    ensures (i * j) as real == i as real * j as real
  {
  }

  lemma ScaleInverse(a: real, b: real, x: real, y: real)
    requires a > 0.0 && b > 0.0 && x == 1.0 / (a * b) && y == 1.0 / b
    ensures y == a * x
  {
    assert (a * b) * x == 1.0;
  }

  /** Raising to the same minimum keeps two quantities with the same trim at the same trim. */
  lemma MaxTrimEq(m: real, a: real, b: real, s: real)
    requires s > 0.0 && m >= 0.0 && a >= 0.0 && b >= 0.0 && Trim(a, s) == Trim(b, s)
    ensures Trim(Max(m, a), s) == Trim(Max(m, b), s)
  {
    if b <= m < a {
      TrimMonotone(b, m, s);
      TrimMonotone(m, a, s);
    } else if a <= m < b {
      TrimMonotone(a, m, s);
      TrimMonotone(m, b, s);
    }
  }

  /**
   * A 0.001 step written `0.001` has one coefficient digit, so the code
   * rounds 0.005 down to one decimal place, to 0.0, and the minimum lifts it
   * to 0.001; with three places the quantity stays 0.005.
   */
  lemma AsWrittenDropsSteps()
    ensures FuturesQuantityAsWritten(1000.0, 50000.0, 5, Dec(1, -3), Dec(1, -3)) == Ok(0.001)
    ensures FuturesQuantity(1000.0, 50000.0, 5, Dec(1, -3), Dec(1, -3)) == Ok(0.005)
  {
    var step := Dec(1, -3);
    assert step.Value() == 0.001;
    assert step.DigitCount() == 1;
    assert RawQuantity(1000.0, 50000.0, 5) == 0.005;
    assert Pow10(-1) == 0.1;
    assert Pow10(-3) == 0.001;
    assert Trunc(0.005 / 0.1) == 0;
    assert RoundDownPlaces(0.005, 1) == 0.0;
    assert Trunc(0.001 / 0.001) == 1;
    assert Trim(0.001, 0.001) == 0.001;
    assert Trunc(0.005 / 0.001) == 5;
    assert RoundDownPlaces(0.005, 3) == 0.005;
    assert Trim(0.005, 0.001) == 0.005;
  }

  /** The LOT_SIZE filter of `symbol`, when the symbol and the filter exist. */
  function LotSizeOf(infos: seq<SymbolInfo>, symbol: string): (f: Option<Filter>)
    ensures f.Some? ==> f.value.LotSize?
  {
    match FindSymbol(infos, symbol)
    case None => None
    case Some(si) => FirstFilter(si.filters, LotSizeKind)
  }

  /**
   * `calculate_quantity`: one exchange-info call; 0.0 without the symbol or
   * its LOT_SIZE filter, otherwise a whole number of steps.
   */
  function CalculateQuantityRun(env: Env, n: nat, balance: real, entry: real, leverage: int, symbol: string)
    : (r: Run<real>)
    ensures r.calls == [FuturesExchangeInfo]
    ensures env.oracle(n).Some? ==> r.flow == Raised(env.oracle(n).value)
    ensures (env.oracle(n).None? && LotSizeOf(env.venue.futuresSymbols, symbol).None?)
              ==> r.flow == Returned(0.0)
    ensures r.flow.Raised? && env.oracle(n).None? ==> r.flow.failure == ArithmeticError
    ensures r.flow.Returned? && LotSizeOf(env.venue.futuresSymbols, symbol).Some? ==>
              var lot := LotSizeOf(env.venue.futuresSymbols, symbol).value;
              IsMultiple(r.flow.value, lot.stepSize.Value())
              && (IsMultiple(lot.minQty.Value(), lot.stepSize.Value()) ==> r.flow.value >= lot.minQty.Value())
    ensures env.oracle(n).None? && LotSizeOf(env.venue.futuresSymbols, symbol).Some? ==>
              var lot := LotSizeOf(env.venue.futuresSymbols, symbol).value;
              (r.flow.Raised? <==> entry == 0.0 || lot.stepSize.Value() == 0.0)
    ensures r.flow.Returned? && LotSizeOf(env.venue.futuresSymbols, symbol).Some?
            && balance >= 0.0 && leverage >= 0 && entry > 0.0 ==>
              var lot := LotSizeOf(env.venue.futuresSymbols, symbol).value;
              var raw := RawQuantity(balance, entry, leverage);
              r.flow.value <= Max(lot.minQty.Value(), raw)
              && raw - Pow10(-(lot.stepSize.DigitCount() as int)) - lot.stepSize.Value() < r.flow.value
  {
    var info := GetSymbolInfoRun(env, n, symbol);
    match info.flow
    case Raised(f) => Run(info.calls, Raised(f))
    case Returned(None) => Run(info.calls, Returned(0.0))
    case Returned(Some(si)) =>
      match FirstFilter(si.filters, LotSizeKind)
      case None => Run(info.calls, Returned(0.0))
      case Some(lot) =>
        match FuturesQuantityAsWritten(balance, entry, leverage, lot.stepSize, lot.minQty)
        case Ok(q) => Run(info.calls, Returned(q))
        case Err(f) => Run(info.calls, Raised(f))
  }

  /** The stop-loss and take-profit legs: opposite side, same quantity. */
  function ProtectiveOrders(symbol: string, side: Side, quantity: real, stop: real, target: real)
    : (rs: seq<Request>)
    ensures |rs| == 2
    ensures forall k :: 0 <= k < 2 ==> rs[k].FuturesCreateOrder? && rs[k].order.side == Opposite(side)
                                       && rs[k].order.symbol == symbol && rs[k].order.quantity == quantity
    ensures rs[0].order.orderType == StopMarket(Some(stop)) && rs[1].order.orderType == LimitGtc(target)
  {
    [FuturesCreateOrder(FuturesOrder(symbol, Opposite(side), StopMarket(Some(stop)), quantity)),
     FuturesCreateOrder(FuturesOrder(symbol, Opposite(side), LimitGtc(target), quantity))]
  }

  /**
   * `place_order`: account read, margin check against the full estimated
   * cost, symbol lookup, then the market entry and, only when the entry
   * went through, the two protective legs at tick-trimmed prices.
   */
  function PlaceOrderRun(env: Env, n: nat, symbol: string, side: Side, quantity: real,
                         entry: real, stop: real, target: real): (r: Run<()>)
    ensures 1 <= |r.calls| <= 5 && r.calls[0] == FuturesAccount
    // the margin check passes or nothing more is asked
    ensures (env.oracle(n).None? && quantity * entry > env.venue.availableBalance)
              ==> r == Run([FuturesAccount], Returned(()))
  {
    if env.oracle(n).Some? then Run([FuturesAccount], Raised(env.oracle(n).value))
    else if quantity * entry > env.venue.availableBalance then Run([FuturesAccount], Returned(()))
    else if env.oracle(n + 1).Some? then Run([FuturesAccount, FuturesExchangeInfo], Raised(env.oracle(n + 1).value))
    else
      match TickSizeOf(env.venue.futuresSymbols, symbol)
      case None => Run([FuturesAccount, FuturesExchangeInfo], Returned(()))
      case Some(tick) =>
        if tick == 0.0 then Run([FuturesAccount, FuturesExchangeInfo], Raised(ArithmeticError))
        else
          var entryOrder := FuturesCreateOrder(FuturesOrder(symbol, side, Market, quantity));
          if env.oracle(n + 2).Some? then Run([FuturesAccount, FuturesExchangeInfo, entryOrder], Returned(()))
          else
            var legs := ProtectiveOrders(symbol, side, quantity, Trim(stop, tick), Trim(target, tick));
            Run([FuturesAccount, FuturesExchangeInfo, entryOrder, legs[0], legs[1]], Returned(()))
  }

  /**
   * Once the account read and the symbol lookup go through and the margin
   * suffices, the PRICE_FILTER decides: without it nothing is placed, a zero
   * tick is a division by zero, and otherwise the market entry is sent and
   * the call returns.
   */
  lemma PlaceOrderEntrySent(env: Env, n: nat, symbol: string, side: Side, quantity: real,
                            entry: real, stop: real, target: real)
    requires env.oracle(n).None? && quantity * entry <= env.venue.availableBalance && env.oracle(n + 1).None?
    ensures var r := PlaceOrderRun(env, n, symbol, side, quantity, entry, stop, target);
            var tick := TickSizeOf(env.venue.futuresSymbols, symbol);
            (tick.None? ==> r == Run([FuturesAccount, FuturesExchangeInfo], Returned(())))
            && (tick == Some(0.0) ==> r == Run([FuturesAccount, FuturesExchangeInfo], Raised(ArithmeticError)))
            && (tick.Some? && tick.value != 0.0 ==>
                  |r.calls| >= 3 && r.calls[2] == FuturesCreateOrder(FuturesOrder(symbol, side, Market, quantity))
                  && r.flow == Returned(()))
  {
  }

  /** No order without the symbol's PRICE_FILTER, and none when something raises. */
  lemma PlaceOrderNothingPlaced(env: Env, n: nat, symbol: string, side: Side, quantity: real,
                                entry: real, stop: real, target: real)
    ensures var r := PlaceOrderRun(env, n, symbol, side, quantity, entry, stop, target);
            (TickSizeOf(env.venue.futuresSymbols, symbol).None? || r.flow.Raised?) ==> NoOrders(r.calls)
  {
  }

  /** The first order is the market entry, placed only after a passed margin check. */
  lemma PlaceOrderEntryFirst(env: Env, n: nat, symbol: string, side: Side, quantity: real,
                             entry: real, stop: real, target: real)
    ensures var r := PlaceOrderRun(env, n, symbol, side, quantity, entry, stop, target);
            !NoOrders(r.calls) ==>
              |r.calls| >= 3 && NoOrders(r.calls[..2]) && quantity * entry <= env.venue.availableBalance
              && r.calls[2] == FuturesCreateOrder(FuturesOrder(symbol, side, Market, quantity))
  {
  }

  /**
   * The protective legs are attempted exactly when the entry went through,
   * both of them whatever becomes of either, at tick-trimmed prices.
   */
  lemma PlaceOrderProtectiveLegs(env: Env, n: nat, symbol: string, side: Side, quantity: real,
                                 entry: real, stop: real, target: real)
    ensures var r := PlaceOrderRun(env, n, symbol, side, quantity, entry, stop, target);
            |r.calls| > 3 <==> !NoOrders(r.calls) && env.oracle(n + 2).None?
    ensures var r := PlaceOrderRun(env, n, symbol, side, quantity, entry, stop, target);
            |r.calls| > 3 ==>
              var tick := TickSizeOf(env.venue.futuresSymbols, symbol).value;
              |r.calls| == 5 && r.flow == Returned(()) && tick != 0.0
              && r.calls[3..] == ProtectiveOrders(symbol, side, quantity, Trim(stop, tick), Trim(target, tick))
  {
    var r := PlaceOrderRun(env, n, symbol, side, quantity, entry, stop, target);
    var tick := TickSizeOf(env.venue.futuresSymbols, symbol);
    if env.oracle(n).None? && quantity * entry <= env.venue.availableBalance && env.oracle(n + 1).None?
       && tick.Some? && tick.value != 0.0 {
      var entryOrder := FuturesCreateOrder(FuturesOrder(symbol, side, Market, quantity));
      assert IsOrder(entryOrder);
      if env.oracle(n + 2).None? {
        var legs := ProtectiveOrders(symbol, side, quantity, Trim(stop, tick.value), Trim(target, tick.value));
        assert r.calls == [FuturesAccount, FuturesExchangeInfo, entryOrder, legs[0], legs[1]];
        assert r.calls[3..] == legs;
        assert r.calls[2] == entryOrder;
      } else {
        assert r.calls == [FuturesAccount, FuturesExchangeInfo, entryOrder];
      }
    } else {
      assert r.calls == [FuturesAccount] || r.calls == [FuturesAccount, FuturesExchangeInfo];
    }
  }

  /** `place_order` never cancels anything. */
  lemma PlaceOrderNeverCancels(env: Env, n: nat, symbol: string, side: Side, quantity: real,
                               entry: real, stop: real, target: real)
    ensures NoCancels(PlaceOrderRun(env, n, symbol, side, quantity, entry, stop, target).calls)
  {
    var r := PlaceOrderRun(env, n, symbol, side, quantity, entry, stop, target);
    assert forall i :: 0 <= i < |r.calls| ==> i == 0 || i == 1 || r.calls[i].FuturesCreateOrder?;
  }

  /** One cancel per listed order, in listed order. */
  function CancelRequests(orders: seq<OpenOrder>, symbol: string): (rs: seq<Request>)
    ensures |rs| == |orders|
    ensures forall k :: 0 <= k < |rs| ==> rs[k] == FuturesCancelOrder(symbol, orders[k].orderId)
  {
    seq(|orders|, k requires 0 <= k < |orders| => FuturesCancelOrder(symbol, orders[k].orderId))
  }

  /**
   * `cancel_open_futures_orders`: list the symbol's open orders, cancel them
   * in order, stop at the first failure, and never raise.
   */
  function CancelOpenFuturesOrdersRun(env: Env, n: nat, symbol: string): (r: Run<()>)
    ensures r.flow == Returned(())
    ensures |r.calls| >= 1 && r.calls[0] == FuturesGetOpenOrders(symbol)
  {
    var cancels := CancelRequests(OrdersFor(env.venue.futuresOpenOrders, symbol), symbol);
    if env.oracle(n).Some? then Run([FuturesGetOpenOrders(symbol)], Returned(()))
    else
      var rest := AttemptEach(env.oracle, n + 1, cancels);
      Run([FuturesGetOpenOrders(symbol)] + rest.calls, Returned(()))
  }

  /**
   * The cancel pass places nothing; after the listing come the cancels of
   * the listed orders, in order, from the first on; and every listed order
   * is cancelled when no call fails.
   */
  lemma CancelOpenFuturesOrdersCancels(env: Env, n: nat, symbol: string)
    ensures var r := CancelOpenFuturesOrdersRun(env, n, symbol);
            NoOrders(r.calls)
            && |r.calls| <= 1 + |OrdersFor(env.venue.futuresOpenOrders, symbol)|
            && r.calls[1..] == CancelRequests(OrdersFor(env.venue.futuresOpenOrders, symbol), symbol)[..|r.calls| - 1]
            && ((forall i :: n <= i < n + |r.calls| ==> env.oracle(i).None?) ==>
                  |r.calls| == 1 + |OrdersFor(env.venue.futuresOpenOrders, symbol)|)
  {
    var r := CancelOpenFuturesOrdersRun(env, n, symbol);
    var cancels := CancelRequests(OrdersFor(env.venue.futuresOpenOrders, symbol), symbol);
    if env.oracle(n).None? {
      AttemptEachPrefix(env.oracle, n + 1, cancels);
      var rest := AttemptEach(env.oracle, n + 1, cancels);
      assert r.calls == [FuturesGetOpenOrders(symbol)] + rest.calls;
      assert r.calls[1..] == rest.calls;
      assert forall i :: 1 <= i < |r.calls| ==> r.calls[i] == cancels[i - 1];
    } else {
      assert r.calls == [FuturesGetOpenOrders(symbol)];
    }
  }

  /** The list read comes first; the cancels follow, from oracle index `m`, only when it succeeds. */
  lemma CancelOpenFuturesOrdersSteps(env: Env, n: nat, m: nat, symbol: string)
    requires m == n + 1
    ensures env.oracle(n).Some? ==> CancelOpenFuturesOrdersRun(env, n, symbol).calls == [FuturesGetOpenOrders(symbol)]
    ensures env.oracle(n).None? ==>
              CancelOpenFuturesOrdersRun(env, n, symbol).calls
              == [FuturesGetOpenOrders(symbol)]
                 + AttemptEach(env.oracle, m, CancelRequests(OrdersFor(env.venue.futuresOpenOrders, symbol), symbol)).calls
  {
  }

  /** Buy quantities count up, sell quantities down. */
  function Signed(o: FuturesOrder): real {
    if o.side == FutureParsing.Buy then o.quantity else -o.quantity
  }

  /** The order that offsets position `p`: SELL a long, BUY a short, for `|amount|`. */
  function Offset(p: Position, t: OrderType): (o: FuturesOrder)
    ensures o.symbol == p.symbol && o.orderType == t && o.quantity >= 0.0
    ensures Signed(o) + p.amount == 0.0
  {
    FuturesOrder(p.symbol, if p.amount > 0.0 then FutureParsing.Sell else FutureParsing.Buy, t, Abs(p.amount))
  }

  predicate Open(p: Position, symbol: Option<string>) {
    symbol == Some(p.symbol) && p.amount != 0.0
  }

  /** One offsetting order per open position of `symbol`, in listed order. */
  function PositionOrders(ps: seq<Position>, symbol: Option<string>, t: OrderType): (rs: seq<Request>)
    ensures |rs| <= |ps|
    ensures forall k :: 0 <= k < |rs| ==>
              rs[k].FuturesCreateOrder? && Some(rs[k].order.symbol) == symbol
              && rs[k].order.orderType == t && rs[k].order.quantity > 0.0
    ensures rs == [] <==> forall i :: 0 <= i < |ps| ==> !Open(ps[i], symbol)
  {
    if ps == [] then []
    else
      var rest := PositionOrders(ps[1..], symbol, t);
      assert forall i :: 1 <= i < |ps| ==> ps[i] == ps[1..][i - 1];
      if Open(ps[0], symbol) then [FuturesCreateOrder(Offset(ps[0], t))] + rest else rest
  }

  /** The first position contributes its offsetting order, if open, ahead of the rest's. */
  lemma PositionOrdersStep(ps: seq<Position>, symbol: Option<string>, t: OrderType)
    requires ps != []
    ensures Open(ps[0], symbol) ==> PositionOrders(ps, symbol, t) == [FuturesCreateOrder(Offset(ps[0], t))] + PositionOrders(ps[1..], symbol, t)
    ensures !Open(ps[0], symbol) ==> PositionOrders(ps, symbol, t) == PositionOrders(ps[1..], symbol, t)
  {
  }

  /** One turn of the loop over the positions, at a position that is not open: nothing is sent for it. */
  lemma PositionOrdersSkip(oracle: nat -> Option<Failure>, before: seq<Request>, ps: seq<Position>, i: nat,
                           symbol: Option<string>, t: OrderType, all: seq<Request>)
    requires i < |ps| && !Open(ps[i], symbol)
    requires all == before + AttemptEach(oracle, |before|, PositionOrders(ps[i..], symbol, t)).calls
    ensures all == before + AttemptEach(oracle, |before|, PositionOrders(ps[i + 1..], symbol, t)).calls
  {
    PositionOrdersStep(ps[i..], symbol, t);
    assert ps[i..][0] == ps[i] && ps[i..][1..] == ps[i + 1..];
  }

  /** One turn of the loop over the positions, at an open position: its offsetting order is sent next. */
  lemma PositionOrdersNext(oracle: nat -> Option<Failure>, before: seq<Request>, ps: seq<Position>, i: nat,
                           symbol: Option<string>, t: OrderType, all: seq<Request>)
    requires i < |ps| && Open(ps[i], symbol)
    requires all == before + AttemptEach(oracle, |before|, PositionOrders(ps[i..], symbol, t)).calls
    ensures oracle(|before|).Some? ==> all == before + [FuturesCreateOrder(Offset(ps[i], t))]
    ensures oracle(|before|).None? ==>
              all == (before + [FuturesCreateOrder(Offset(ps[i], t))])
                     + AttemptEach(oracle, |before| + 1, PositionOrders(ps[i + 1..], symbol, t)).calls
  {
    var reqs, rest := PositionOrders(ps[i..], symbol, t), PositionOrders(ps[i + 1..], symbol, t);
    PositionOrdersStep(ps[i..], symbol, t);
    assert ps[i..][0] == ps[i] && ps[i..][1..] == ps[i + 1..];
    assert reqs[0] == FuturesCreateOrder(Offset(ps[i], t)) && reqs[1..] == rest;
    AttemptNext(oracle, before, reqs, all);
  }

  /** The summed amount of `symbol`'s positions. */
  function NetPosition(ps: seq<Position>, symbol: string): real {
    if ps == [] then 0.0
    else (if ps[0].symbol == symbol then ps[0].amount else 0.0) + NetPosition(ps[1..], symbol)
  }

  /** The summed signed quantity of the orders among `rs`. */
  function NetOrdered(rs: seq<Request>): real {
    if rs == [] then 0.0
    else (if rs[0].FuturesCreateOrder? then Signed(rs[0].order) else 0.0) + NetOrdered(rs[1..])
  }

  /** Filling every offsetting order brings the symbol's net position to zero. */
  lemma {:induction false} PositionOrdersFlatten(ps: seq<Position>, symbol: string, t: OrderType)
    ensures NetOrdered(PositionOrders(ps, Some(symbol), t)) + NetPosition(ps, symbol) == 0.0
  {
    if ps != [] {
      PositionOrdersFlatten(ps[1..], symbol, t);
      var rest := PositionOrders(ps[1..], Some(symbol), t);
      if Open(ps[0], Some(symbol)) {
        var o := FuturesCreateOrder(Offset(ps[0], t));
        assert ([o] + rest)[0] == o && ([o] + rest)[1..] == rest;
      }
    }
  }

  /**
   * `close_order_in_profit` (a MARKET order per open position) and
   * `change_stop_loss` (a STOP_MARKET order per open position): read the
   * positions, place the offsetting orders in order, stop at the first
   * failure, never raise and never cancel.
   */
  function PositionOrdersRun(env: Env, n: nat, symbol: Option<string>, t: OrderType): (r: Run<()>)
    ensures r.flow == Returned(())
    ensures |r.calls| >= 1 && r.calls[0] == FuturesPositionInformation
    ensures forall i :: 0 <= i < |r.calls| ==> !IsCancel(r.calls[i])
    ensures |r.calls| <= 1 + |PositionOrders(env.venue.positions, symbol, t)|
    ensures r.calls[1..] == PositionOrders(env.venue.positions, symbol, t)[..|r.calls| - 1]
    ensures symbol.None? ==> r.calls == [FuturesPositionInformation]
    ensures (forall i :: n <= i < n + 1 + |PositionOrders(env.venue.positions, symbol, t)| ==> env.oracle(i).None?)
              ==> r.calls[1..] == PositionOrders(env.venue.positions, symbol, t)
  {
    var orders := PositionOrders(env.venue.positions, symbol, t);
    if env.oracle(n).Some? then Run([FuturesPositionInformation], Returned(()))
    else
      var rest := AttemptEach(env.oracle, n + 1, orders);
      AttemptEachPrefix(env.oracle, n + 1, orders);
      assert ([FuturesPositionInformation] + rest.calls)[1..] == rest.calls;
      Run([FuturesPositionInformation] + rest.calls, Returned(()))
  }

  /** The position read comes first; the offsetting orders follow only when it succeeds. */
  lemma PositionOrdersRunCalls(env: Env, n: nat, symbol: Option<string>, t: OrderType)
    ensures env.oracle(n).Some? ==> PositionOrdersRun(env, n, symbol, t).calls == [FuturesPositionInformation]
    ensures env.oracle(n).None? ==>
              PositionOrdersRun(env, n, symbol, t).calls
              == [FuturesPositionInformation] + AttemptEach(env.oracle, n + 1, PositionOrders(env.venue.positions, symbol, t)).calls
  {
  }

  /** `FutureClient`: its methods issue requests through the one gateway it owns. */
  class FutureClient {
    const client: Gateway

    constructor (client: Gateway)
      ensures this.client == client
    {
      this.client := client;
    }

    method GetAccountBalance() returns (flow: Flow<real>)
      modifies client
      ensures client.trace == old(client.trace) + GetAccountBalanceRun(client.env, |old(client.trace)|).calls
      ensures flow == GetAccountBalanceRun(client.env, |old(client.trace)|).flow
    {
      var failure := client.Call(FuturesAccountBalance);
      if failure.Some? {
        return Raised(failure.value);
      }
      var balances := client.env.venue.futuresBalances;
      var i := 0;
      while i < |balances|
        invariant 0 <= i <= |balances|
        invariant forall j :: 0 <= j < i ==> balances[j].asset != "USDT"
      {
        if balances[i].asset == "USDT" {
          return Returned(balances[i].balance);
        }
        i := i + 1;
      }
      return Returned(0.0);
    }

    method SetLeverage(symbol: string, leverage: int) returns (flow: Flow<()>)
      modifies client
      ensures client.trace == old(client.trace) + SetLeverageRun(client.env, |old(client.trace)|, symbol, leverage).calls
      ensures flow == SetLeverageRun(client.env, |old(client.trace)|, symbol, leverage).flow
    {
      var failure := client.Call(FuturesChangeLeverage(symbol, leverage));
      flow := if failure.Some? then Raised(failure.value) else Returned(());
    }

    method GetSymbolInfo(symbol: string) returns (flow: Flow<Option<SymbolInfo>>)
      modifies client
      ensures client.trace == old(client.trace) + GetSymbolInfoRun(client.env, |old(client.trace)|, symbol).calls
      ensures flow == GetSymbolInfoRun(client.env, |old(client.trace)|, symbol).flow
    {
      var failure := client.Call(FuturesExchangeInfo);
      if failure.Some? {
        return Raised(failure.value);
      }
      var infos := client.env.venue.futuresSymbols;
      var i := 0;
      while i < |infos|
        invariant 0 <= i <= |infos|
        invariant forall j :: 0 <= j < i ==> infos[j].symbol != symbol
      {
        if infos[i].symbol == symbol {
          return Returned(Some(infos[i]));
        }
        i := i + 1;
      }
      return Returned(None);
    }

    method CalculateQuantity(balance: real, entry: real, leverage: int, symbol: string) returns (flow: Flow<real>)
      modifies client
      ensures client.trace == old(client.trace)
                              + CalculateQuantityRun(client.env, |old(client.trace)|, balance, entry, leverage, symbol).calls
      ensures flow == CalculateQuantityRun(client.env, |old(client.trace)|, balance, entry, leverage, symbol).flow
    {
      var info := GetSymbolInfo(symbol);
      match info
      case Raised(f) => return Raised(f);
      case Returned(None) => return Returned(0.0);
      case Returned(Some(si)) =>
        var lot := FirstFilter(si.filters, LotSizeKind);
        if lot.None? {
          return Returned(0.0);
        }
        var step := lot.value.stepSize;
        if entry == 0.0 || step.Value() == 0.0 {
          return Raised(ArithmeticError);
        }
        var q := RoundDownPlaces(RawQuantity(balance, entry, leverage), step.DigitCount());
        var adjusted := if lot.value.minQty.Value() >= q then lot.value.minQty.Value() else q;
        return Returned(Trim(adjusted, step.Value()));
    }

    method PlaceOrder(symbol: string, side: Side, quantity: real, entry: real, stop: real, target: real)
      returns (flow: Flow<()>)
      modifies client
      ensures client.trace == old(client.trace)
                              + PlaceOrderRun(client.env, |old(client.trace)|, symbol, side, quantity, entry, stop, target).calls
      ensures flow == PlaceOrderRun(client.env, |old(client.trace)|, symbol, side, quantity, entry, stop, target).flow
    {
      var failure := client.Call(FuturesAccount);
      if failure.Some? {
        return Raised(failure.value);
      }
      if quantity * entry > client.env.venue.availableBalance {
        return Returned(());
      }
      var info := GetSymbolInfo(symbol);
      match info
      case Raised(f) => return Raised(f);
      case Returned(None) => return Returned(());
      case Returned(Some(si)) =>
        var priceFilter := FirstFilter(si.filters, PriceFilterKind);
        if priceFilter.None? {
          return Returned(());
        }
        var tick := priceFilter.value.tickSize.Value();
        if tick == 0.0 {
          return Raised(ArithmeticError);
        }
        var stopPrice := Trim(stop, tick);
        var targetPrice := Trim(target, tick);
        failure := client.Call(FuturesCreateOrder(FuturesOrder(symbol, side, Market, quantity)));
        if failure.Some? {
          return Returned(());
        }
        // each protective leg is attempted whatever became of the other
        failure := client.Call(FuturesCreateOrder(FuturesOrder(symbol, Opposite(side), StopMarket(Some(stopPrice)), quantity)));
        failure := client.Call(FuturesCreateOrder(FuturesOrder(symbol, Opposite(side), LimitGtc(targetPrice), quantity)));
        return Returned(());
    }

    method CancelOpenFuturesOrders(symbol: string)
      modifies client
      ensures client.trace == old(client.trace) + CancelOpenFuturesOrdersRun(client.env, |old(client.trace)|, symbol).calls
    {
      ghost var before := client.trace;
      var failure := client.Call(FuturesGetOpenOrders(symbol));
      ghost var middle := client.trace;
      CancelOpenFuturesOrdersSteps(client.env, |before|, |middle|, symbol);
      if failure.None? {
        var orders := OrdersFor(client.env.venue.futuresOpenOrders, symbol);
        CancelEach(symbol, orders);
        Sequenced(before, middle, client.trace, [FuturesGetOpenOrders(symbol)],
                  AttemptEach(client.env.oracle, |middle|, CancelRequests(orders, symbol)).calls,
                  CancelOpenFuturesOrdersRun(client.env, |before|, symbol).calls);
      }
    }

    /** The loop over the listed orders: one cancel each, until one fails. */
    method CancelEach(symbol: string, orders: seq<OpenOrder>)
      modifies client
      ensures client.trace == old(client.trace) + AttemptEach(client.env.oracle, |old(client.trace)|, CancelRequests(orders, symbol)).calls
    {
      ghost var oracle := client.env.oracle;
      ghost var cancels := CancelRequests(orders, symbol);
      ghost var all := client.trace + AttemptEach(oracle, |client.trace|, cancels).calls;
      assert cancels[0..] == cancels;
      var i := 0;
      while i < |orders|
        invariant 0 <= i <= |orders|
        invariant all == client.trace + AttemptEach(oracle, |client.trace|, cancels[i..]).calls
      {
        assert cancels[i] == FuturesCancelOrder(symbol, orders[i].orderId);
        AttemptAt(oracle, client.trace, cancels, i, all);
        var failure := client.Call(FuturesCancelOrder(symbol, orders[i].orderId));
        if failure.Some? {
          return;
        }
        i := i + 1;
      }
      assert cancels[i..] == [];
    }

    /** The loop `close_order_in_profit` and `change_stop_loss` share. */
    method OffsetPositions(symbol: Option<string>, t: OrderType)
      modifies client
      ensures client.trace == old(client.trace) + PositionOrdersRun(client.env, |old(client.trace)|, symbol, t).calls
    {
      ghost var before := client.trace;
      PositionOrdersRunCalls(client.env, |before|, symbol, t);
      var failure := client.Call(FuturesPositionInformation);
      if failure.None? {
        ghost var rest := AttemptEach(client.env.oracle, |before| + 1, PositionOrders(client.env.venue.positions, symbol, t)).calls;
        OffsetEach(client.env.venue.positions, symbol, t);
        AppendOne(before, FuturesPositionInformation, rest);
      }
    }

    /** The loop over the positions: an offsetting order for each open one, until one fails. */
    method OffsetEach(ps: seq<Position>, symbol: Option<string>, t: OrderType)
      modifies client
      ensures client.trace == old(client.trace) + AttemptEach(client.env.oracle, |old(client.trace)|, PositionOrders(ps, symbol, t)).calls
    {
      ghost var oracle := client.env.oracle;
      ghost var all := client.trace + AttemptEach(oracle, |client.trace|, PositionOrders(ps, symbol, t)).calls;
      assert ps[0..] == ps;
      var i := 0;
      while i < |ps|
        invariant 0 <= i <= |ps|
        invariant all == client.trace + AttemptEach(oracle, |client.trace|, PositionOrders(ps[i..], symbol, t)).calls
      {
        if Open(ps[i], symbol) {
          PositionOrdersNext(oracle, client.trace, ps, i, symbol, t, all);
          var failure := client.Call(FuturesCreateOrder(Offset(ps[i], t)));
          if failure.Some? {
            return;
          }
        } else {
          PositionOrdersSkip(oracle, client.trace, ps, i, symbol, t, all);
        }
        i := i + 1;
      }
      assert ps[i..] == [];
    }

    method CloseOrderInProfit(symbol: Option<string>)
      modifies client
      ensures client.trace == old(client.trace) + PositionOrdersRun(client.env, |old(client.trace)|, symbol, Market).calls
    {
      OffsetPositions(symbol, Market);
    }

    method ChangeStopLoss(symbol: Option<string>, newStopLoss: Option<real>)
      modifies client
      ensures client.trace == old(client.trace)
                              + PositionOrdersRun(client.env, |old(client.trace)|, symbol, StopMarket(newStopLoss)).calls
    {
      OffsetPositions(symbol, StopMarket(newStopLoss));
    }
  }
}
