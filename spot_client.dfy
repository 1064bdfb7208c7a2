/**
 * The spot client: balance read, notional-bounded sizing on floats, limit
 * and market buys at tick-rounded prices, cancelling and the take-profit
 * sell, all through the exchange gateway.
 */
module SpotClient {
  import opened Wrappers
  import opened Decimals
  import opened Exchange

  /** The share of the free USDT balance one spot entry may use. */
  const SpotRiskShare: real := 0.05

  /** The two order types a spot buy can take. */
  datatype SpotOrderType = LimitOrder | MarketOrder

  /** `get_usdt_balance`: the free USDT balance; a missing asset entry is `None['free']`. */
  function GetUsdtBalanceRun(env: Env, n: nat): (r: Run<real>)
    ensures r.calls == [SpotAssetBalance]
    ensures env.oracle(n).Some? ==> r.flow == Raised(env.oracle(n).value)
    ensures env.oracle(n).None? && env.venue.spotFreeUsdt.None? ==> r.flow == Raised(TypeError)
    ensures r.flow.Returned? <==> env.oracle(n).None? && env.venue.spotFreeUsdt.Some?
    ensures r.flow.Returned? ==> r.flow.value == env.venue.spotFreeUsdt.value
  {
    match env.oracle(n)
    case Some(f) => Run([SpotAssetBalance], Raised(f))
    case None =>
      match env.venue.spotFreeUsdt
      case None => Run([SpotAssetBalance], Raised(TypeError))
      case Some(b) => Run([SpotAssetBalance], Returned(b))
  }

  /** `round(price / tick_size) * tick_size`: the price on the nearest tick, ties to an even tick count. */
  function AdjustedPrice(price: real, tick: real): (p: real)
    requires tick > 0.0
    ensures IsMultiple(p, tick)
    ensures Abs(p - price) <= tick / 2.0
  {
    var k := RoundHalfEven(price / tick);
    MultipleOf(k, tick);
    NearestTick(price, tick);
    k as real * tick
  }

  /** No other tick on the grid is closer to `price` than the adjusted one. */
  lemma AdjustedPriceIsNearest(price: real, tick: real, j: int)
    requires tick > 0.0
    ensures Abs(AdjustedPrice(price, tick) - price) <= Abs(j as real * tick - price)
  {
    var a := AdjustedPrice(price, tick);
    var k := RoundHalfEven(price / tick);
    AdjustedPriceTicks(price, tick);
    RoundIsNearest(price / tick, j);
    NearerAtPrice(price, tick, k as real, j, a);
  }

  lemma AdjustedPriceTicks(price: real, tick: real)
    requires tick > 0.0
    ensures AdjustedPrice(price, tick) == RoundHalfEven(price / tick) as real * tick
  {
  }

  lemma NearerAtPrice(price: real, tick: real, k: real, j: int, a: real)
    requires tick > 0.0 && Abs(price / tick - k) <= Abs(price / tick - j as real) && a == k * tick
    ensures Abs(a - price) <= Abs(j as real * tick - price)
  {
    ScaledNearer(price / tick, k, j as real, tick, price, a, j as real * tick);
  }

  /** Scaling by a positive factor keeps the nearer of two points nearer. */
  lemma ScaledNearer(x: real, k: real, j: real, s: real, p: real, a: real, b: real)
    requires s > 0.0 && Abs(x - k) <= Abs(x - j) && p == x * s && a == k * s && b == j * s
    ensures Abs(a - p) <= Abs(b - p)
  {
    ScaleDistance(x, k, s, p, a);
    ScaleDistance(x, j, s, p, b);
    MulLe(Abs(x - k), Abs(x - j), s);
  }

  /** Distances scale with a positive factor. */
  lemma ScaleDistance(x: real, k: real, s: real, p: real, a: real)
    requires s > 0.0 && p == x * s && a == k * s
    ensures Abs(a - p) == Abs(x - k) * s
  {
    var d := a - p;
    assert d == (k - x) * s;
    if x - k < 0.0 {
      MulLt(0.0, k - x, s);
      assert Abs(d) == d && Abs(x - k) == k - x;
    } else {
      MulLe(0.0, x - k, s);
      assert d == -((x - k) * s);
      assert Abs(d) == -d && Abs(x - k) == x - k;
    }
  }

  /** The buy request `place_spot_order` sends for an order type. */
  function SpotBuy(symbol: string, quantity: real, price: real, t: SpotOrderType): (r: Request)
    ensures IsOrder(r) && !IsCancel(r)
    ensures t == LimitOrder <==> r == SpotLimitBuy(symbol, quantity, price)
    ensures t == MarketOrder <==> r == SpotMarketBuy(symbol, quantity)
  {
    match t
    case LimitOrder => SpotLimitBuy(symbol, quantity, price)
    case MarketOrder => SpotMarketBuy(symbol, quantity)
  }

  /**
   * `place_spot_order`: the symbol lookup, then, when the symbol has a
   * PRICE_FILTER, one buy at the price moved to the nearest tick. It returns
   * whether an order was placed; a symbol without the filter is no order.
   */
  function PlaceSpotOrderRun(env: Env, n: nat, symbol: string, price: real, quantity: real, t: SpotOrderType)
    : (r: Run<bool>)
    ensures 1 <= |r.calls| <= 2 && r.calls[0] == SpotSymbolInfo(symbol) && !IsOrder(r.calls[0])
    ensures |r.calls| == 2 ==>
              (r.calls[1].SpotLimitBuy? || r.calls[1].SpotMarketBuy?) && r.calls[1].symbol == symbol
              && (r.calls[1].SpotLimitBuy? <==> t == LimitOrder)
  {
    match env.oracle(n)
    case Some(f) => Run([SpotSymbolInfo(symbol)], Raised(f))
    case None =>
      match FindSymbol(env.venue.spotSymbols, symbol)
      case None => Run([SpotSymbolInfo(symbol)], Raised(TypeError))
      case Some(si) =>
        match FirstFilter(si.filters, PriceFilterKind)
        case None => Run([SpotSymbolInfo(symbol)], Returned(false))
        case Some(pf) =>
          var tick := pf.tickSize.Value();
          if tick == 0.0 then Run([SpotSymbolInfo(symbol)], Raised(ArithmeticError))
          else
            var order := SpotBuy(symbol, quantity, AdjustedPrice(price, tick), t);
            match env.oracle(n + 1)
            case Some(f) => Run([SpotSymbolInfo(symbol), order], Raised(f))
            case None => Run([SpotSymbolInfo(symbol), order], Returned(true))
  }

  /** What `place_spot_order` does on each path: lookup failures, no filter, and the one buy at the nearest tick. */
  lemma PlaceSpotOrderOutcome(env: Env, n: nat, symbol: string, price: real, quantity: real, t: SpotOrderType)
    ensures var r := PlaceSpotOrderRun(env, n, symbol, price, quantity, t);
            (env.oracle(n).Some? ==> r == Run([SpotSymbolInfo(symbol)], Raised(env.oracle(n).value)))
            && ((env.oracle(n).None? && FindSymbol(env.venue.spotSymbols, symbol).None?)
                  ==> r == Run([SpotSymbolInfo(symbol)], Raised(TypeError)))
            && (r.flow == Returned(false) <==>
                  env.oracle(n).None? && FindSymbol(env.venue.spotSymbols, symbol).Some?
                  && FirstFilter(FindSymbol(env.venue.spotSymbols, symbol).value.filters, PriceFilterKind).None?)
            && (r.flow == Returned(false) ==> |r.calls| == 1)
            && (r.flow == Returned(true) <==> |r.calls| == 2 && env.oracle(n + 1).None?)
            && (|r.calls| == 2 ==>
                  var tick := FirstFilter(FindSymbol(env.venue.spotSymbols, symbol).value.filters, PriceFilterKind)
                              .value.tickSize.Value();
                  tick > 0.0 && r.calls[1] == SpotBuy(symbol, quantity, AdjustedPrice(price, tick), t))
  {
  }

  /**
   * Past a successful lookup, the symbol's tick decides: a zero tick is a
   * division by zero before any order, and a non-zero one sends exactly one
   * buy, at the price moved to the nearest tick, which returns `True` unless
   * the venue refuses it.
   */
  lemma PlaceSpotOrderBuys(env: Env, n: nat, symbol: string, price: real, quantity: real, t: SpotOrderType)
    requires env.oracle(n).None?
    ensures var r := PlaceSpotOrderRun(env, n, symbol, price, quantity, t);
            var tick := TickSizeOf(env.venue.spotSymbols, symbol);
            (tick == Some(0.0) ==> r == Run([SpotSymbolInfo(symbol)], Raised(ArithmeticError)))
            && (tick.Some? && tick.value != 0.0 ==>
                  r.calls == [SpotSymbolInfo(symbol), SpotBuy(symbol, quantity, AdjustedPrice(price, tick.value), t)]
                  && (env.oracle(n + 1).None? ==> r.flow == Returned(true))
                  && (env.oracle(n + 1).Some? ==> r.flow == Raised(env.oracle(n + 1).value)))
  {
  }

  /** `math.floor(x / s) * s`: the greatest multiple of `s` at or below `x`. */
  function FloorToStep(x: real, s: real): (q: real)
    requires s != 0.0
    ensures IsMultiple(q, s)
    ensures s > 0.0 ==> q <= x < q + s
  {
    var k := Floor(x / s);
    MultipleOf(k, s);
    assert s > 0.0 ==> k as real * s <= x < k as real * s + s by {
      if s > 0.0 {
        FloorSteps(x, s, k);
      }
    }
    k as real * s
  }

  /** `math.ceil(m / p / s) * s`: the fewest steps whose value at price `p` reaches `m`. */
  function UpToMinimum(m: real, p: real, s: real): (q: real)
    requires p != 0.0 && s != 0.0
    ensures IsMultiple(q, s)
    ensures p > 0.0 && s > 0.0 ==> q * p >= m && (q - s) * p < m
  {
    var c := Ceil(m / p / s);
    MultipleOf(c, s);
    assert p > 0.0 && s > 0.0 ==> c as real * s * p >= m && (c as real * s - s) * p < m by {
      if p > 0.0 && s > 0.0 {
        FewestStepsAbove(m, p, s, c);
      }
    }
    c as real * s
  }

  /** `math.floor(m / p / s) * s`: the most steps whose value at price `p` stays within `m`. */
  function DownToMaximum(m: real, p: real, s: real): (q: real)
    requires p != 0.0 && s != 0.0
    ensures IsMultiple(q, s)
    ensures p > 0.0 && s > 0.0 ==> q * p <= m && (q + s) * p > m
  {
    var g := Floor(m / p / s);
    MultipleOf(g, s);
    assert p > 0.0 && s > 0.0 ==> g as real * s * p <= m && (g as real * s + s) * p > m by {
      if p > 0.0 && s > 0.0 {
        MostStepsBelow(m, p, s, g);
      }
    }
    g as real * s
  }

  /**
   * The sizing of `calculate_quantity` once the raw quantity is known:
   * floor it to a whole number of steps, then, when its value is below the
   * minimum notional, take the fewest steps that reach it, or, when it is
   * above the maximum notional, the most steps that stay within it. A zero
   * step is a division by zero.
   */
  function SpotQuantity(initial: real, price: real, step: real, minNotional: real, maxNotional: Option<real>)
    : (r: Result<real, Failure>)
    requires price != 0.0
    ensures r.Err? <==> step == 0.0
    ensures r.Err? ==> r.error == ArithmeticError
    ensures r.Ok? ==> IsMultiple(r.value, step)
  {
    if step == 0.0 then Err(ArithmeticError)
    else
      var q := FloorToStep(initial, step);
      if q * price < minNotional then Ok(UpToMinimum(minNotional, price, step))
      else if maxNotional.Some? && q * price > maxNotional.value then Ok(DownToMaximum(maxNotional.value, price, step))
      else Ok(q)
  }

  /**
   * At a positive price and step, a floored quantity whose value falls
   * short of the minimum notional becomes the least number of steps whose
   * value reaches it.
   */
  lemma SpotQuantityReachesMinimum(initial: real, price: real, step: real, minNotional: real, maxNotional: Option<real>)
    requires price > 0.0 && step > 0.0 && FloorToStep(initial, step) * price < minNotional
    ensures var q := SpotQuantity(initial, price, step, minNotional, maxNotional).value;
            q * price >= minNotional && (q - step) * price < minNotional
  {
    SpotQuantityBranches(initial, price, step, minNotional, maxNotional);
    var q := UpToMinimum(minNotional, price, step);
    assert SpotQuantity(initial, price, step, minNotional, maxNotional).value == q;
  }

  /**
   * At a positive price and step, a floored quantity whose value exceeds
   * the maximum notional (and meets the minimum) becomes the greatest number
   * of steps whose value stays within it.
   */
  lemma SpotQuantityWithinMaximum(initial: real, price: real, step: real, minNotional: real, maxNotional: Option<real>)
    requires price > 0.0 && step > 0.0 && maxNotional.Some?
    requires minNotional <= FloorToStep(initial, step) * price && FloorToStep(initial, step) * price > maxNotional.value
    ensures var q := SpotQuantity(initial, price, step, minNotional, maxNotional).value;
            q * price <= maxNotional.value && (q + step) * price > maxNotional.value
  {
    SpotQuantityBranches(initial, price, step, minNotional, maxNotional);
    var q := DownToMaximum(maxNotional.value, price, step);
    assert SpotQuantity(initial, price, step, minNotional, maxNotional).value == q;
  }

  /**
   * At a positive step, a floored quantity whose value lies within both
   * bounds is kept: the greatest whole number of steps at or below the raw
   * quantity.
   */
  lemma SpotQuantityKeepsFloor(initial: real, price: real, step: real, minNotional: real, maxNotional: Option<real>)
    requires price != 0.0 && step > 0.0
    requires minNotional <= FloorToStep(initial, step) * price
    requires maxNotional.None? || FloorToStep(initial, step) * price <= maxNotional.value
    ensures var q := SpotQuantity(initial, price, step, minNotional, maxNotional).value;
            q <= initial < q + step && q == FloorToStep(initial, step)
  {
    SpotQuantityBranches(initial, price, step, minNotional, maxNotional);
  }

  /** Which of the three quantities `calculate_quantity` settles on. */
  lemma SpotQuantityBranches(initial: real, price: real, step: real, minNotional: real, maxNotional: Option<real>)
    requires price != 0.0 && step != 0.0
    ensures var r := SpotQuantity(initial, price, step, minNotional, maxNotional);
            var f := FloorToStep(initial, step);
            (f * price < minNotional ==> r == Ok(UpToMinimum(minNotional, price, step)))
            && (minNotional <= f * price && maxNotional.Some? && f * price > maxNotional.value ==>
                  r == Ok(DownToMaximum(maxNotional.value, price, step)))
            && (minNotional <= f * price && (maxNotional.None? || f * price <= maxNotional.value) ==> r == Ok(f))
  {
  }

  /** `math.floor(x / s) * s` is at or below `x` and less than a step below it. */
  lemma FloorSteps(x: real, s: real, k: int)
    requires s > 0.0 && k as real <= x / s < k as real + 1.0
    ensures k as real * s <= x < k as real * s + s
  {
    LeSteps(x, s, k as real);
    LtNextStep(x, s, k as real);
  }

  /** `math.ceil(m / p / s)` steps are the fewest whose value at price `p` reaches `m`. */
  lemma FewestStepsAbove(m: real, p: real, s: real, c: int)
    requires p > 0.0 && s > 0.0 && c as real - 1.0 < m / p / s <= c as real
    ensures c as real * s * p >= m && (c as real * s - s) * p < m
  {
    var y := m / p;
    assert y * p == m;
    GeSteps(y, s, c as real);
    GtPrevStep(y, s, c as real);
    MulLe(y, c as real * s, p);
    MulLt(c as real * s - s, y, p);
  }

  /** `math.floor(m / p / s)` steps are the most whose value at price `p` stays within `m`. */
  lemma MostStepsBelow(m: real, p: real, s: real, g: int)
    requires p > 0.0 && s > 0.0 && g as real <= m / p / s < g as real + 1.0
    ensures g as real * s * p <= m && (g as real * s + s) * p > m
  {
    var y := m / p;
    assert y * p == m;
    LeSteps(y, s, g as real);
    LtNextStep(y, s, g as real);
    MulLe(g as real * s, y, p);
    MulLt(y, g as real * s + s, p);
  }

  /** `usdt_balance * 0.05 * leverage / price` */
  function InitialQuantity(balance: real, price: real, leverage: int): (q: real)
    requires price != 0.0
    ensures balance >= 0.0 && leverage >= 0 && price > 0.0 ==> q >= 0.0
  {
    balance * SpotRiskShare * leverage as real / price
  }

  /**
   * `calculate_quantity`: the balance read, the raw quantity (a zero price
   * raises before the symbol is looked up), the symbol lookup, then the
   * LOT_SIZE and NOTIONAL filters, both required, and the sizing.
   */
  function CalculateQuantityRun(env: Env, n: nat, symbol: string, price: real, leverage: int): (r: Run<real>)
    ensures r.calls == [SpotAssetBalance] || r.calls == [SpotAssetBalance, SpotSymbolInfo(symbol)]
    ensures NoOrders(r.calls)
    ensures r.calls == [SpotAssetBalance, SpotSymbolInfo(symbol)] <==> GetUsdtBalanceRun(env, n).flow.Returned? && price != 0.0
  {
    var balance := GetUsdtBalanceRun(env, n);
    match balance.flow
    case Raised(f) => Run([SpotAssetBalance], Raised(f))
    case Returned(b) =>
      if price == 0.0 then Run([SpotAssetBalance], Raised(ArithmeticError))
      else
        var initial := InitialQuantity(b, price, leverage);
        var calls := [SpotAssetBalance, SpotSymbolInfo(symbol)];
        match env.oracle(n + 1)
        case Some(f) => Run(calls, Raised(f))
        case None =>
          match FindSymbol(env.venue.spotSymbols, symbol)
          case None => Run(calls, Raised(TypeError))
          case Some(si) =>
            match SizeFromFilters(si.filters, initial, price)
            case Ok(q) => Run(calls, Returned(q))
            case Err(f) => Run(calls, Raised(f))
  }

  /** The symbol is listed with a LOT_SIZE of non-zero step and a NOTIONAL filter: `calculate_quantity` can size it. */
  predicate Sizable(infos: seq<SymbolInfo>, symbol: string) {
    FindSymbol(infos, symbol).Some?
    && var fs := FindSymbol(infos, symbol).value.filters;
    FirstFilter(fs, LotSizeKind).Some? && FirstFilter(fs, LotSizeKind).value.stepSize.Value() != 0.0
    && FirstFilter(fs, NotionalKind).Some?
  }

  /** The quantity `calculate_quantity` settles on for a sizable symbol when both reads succeed. */
  function SizedQuantity(venue: Venue, symbol: string, price: real, leverage: int): real
    requires venue.spotFreeUsdt.Some? && price != 0.0 && Sizable(venue.spotSymbols, symbol)
  {
    var fs := FindSymbol(venue.spotSymbols, symbol).value.filters;
    var lot, notional := FirstFilter(fs, LotSizeKind).value, FirstFilter(fs, NotionalKind).value;
    SpotQuantity(InitialQuantity(venue.spotFreeUsdt.value, price, leverage), price,
                 lot.stepSize.Value(), notional.minNotional, notional.maxNotional).value
  }

  /**
   * `calculate_quantity` returns exactly when both reads succeed, the
   * balance is there, the price is non-zero and the symbol is sizable; it
   * then returns the sized quantity after the two reads.
   */
  lemma CalculateQuantityReturns(env: Env, n: nat, symbol: string, price: real, leverage: int)
    ensures var r := CalculateQuantityRun(env, n, symbol, price, leverage);
            (r.flow.Returned? <==>
               env.oracle(n).None? && env.venue.spotFreeUsdt.Some? && price != 0.0
               && env.oracle(n + 1).None? && Sizable(env.venue.spotSymbols, symbol))
            && (r.flow.Returned? ==>
                  r.calls == [SpotAssetBalance, SpotSymbolInfo(symbol)]
                  && r.flow.value == SizedQuantity(env.venue, symbol, price, leverage))
  {
  }

  /** The early exits of `calculate_quantity`, and that a returned quantity lies on the symbol's LOT_SIZE grid. */
  lemma CalculateQuantityOutcome(env: Env, n: nat, symbol: string, price: real, leverage: int)
    ensures var r := CalculateQuantityRun(env, n, symbol, price, leverage);
            (GetUsdtBalanceRun(env, n).flow.Raised? ==> r == Run([SpotAssetBalance], GetUsdtBalanceRun(env, n).flow))
            && ((GetUsdtBalanceRun(env, n).flow.Returned? && price == 0.0)
                  ==> r == Run([SpotAssetBalance], Raised(ArithmeticError)))
            && (r.flow.Returned? ==> FindSymbol(env.venue.spotSymbols, symbol).Some?)
            && (r.flow.Returned? ==>
                  var si := FindSymbol(env.venue.spotSymbols, symbol).value;
                  FirstFilter(si.filters, LotSizeKind).Some? && FirstFilter(si.filters, NotionalKind).Some?
                  && IsMultiple(r.flow.value, FirstFilter(si.filters, LotSizeKind).value.stepSize.Value()))
  {
  }

  /**
   * The filter part of `calculate_quantity`: LOT_SIZE and NOTIONAL are both
   * required (`next` without a default), then the sizing on their values.
   */
  function SizeFromFilters(filters: seq<Filter>, initial: real, price: real): (r: Result<real, Failure>)
    requires price != 0.0
    ensures r == Err(StopIteration) <==>
              FirstFilter(filters, LotSizeKind).None? || FirstFilter(filters, NotionalKind).None?
    ensures r.Ok? ==>
              FirstFilter(filters, LotSizeKind).Some? && FirstFilter(filters, NotionalKind).Some?
              && IsMultiple(r.value, FirstFilter(filters, LotSizeKind).value.stepSize.Value())
  {
    match (FirstFilter(filters, LotSizeKind), FirstFilter(filters, NotionalKind))
    case (Some(lot), Some(notional)) =>
      SpotQuantity(initial, price, lot.stepSize.Value(), notional.minNotional, notional.maxNotional)
    case _ => Err(StopIteration)
  }

  /** Once the balance is read, the price is nonzero and the symbol is found, the filters decide. */
  lemma CalculateQuantityRunSized(env: Env, n: nat, symbol: string, price: real, leverage: int)
    requires GetUsdtBalanceRun(env, n).flow.Returned? && price != 0.0
    requires env.oracle(n + 1).None? && FindSymbol(env.venue.spotSymbols, symbol).Some?
    ensures var initial := InitialQuantity(GetUsdtBalanceRun(env, n).flow.value, price, leverage);
            var sized := SizeFromFilters(FindSymbol(env.venue.spotSymbols, symbol).value.filters, initial, price);
            CalculateQuantityRun(env, n, symbol, price, leverage).flow
            == (if sized.Ok? then Returned(sized.value) else Raised(sized.error))
  {
  }

  /** `except BinanceAPIException`: an exchange refusal is swallowed, anything else propagates. */
  function Swallow(f: Failure): (flow: Flow<()>)
    ensures flow.Raised? <==> f != ApiError
    ensures flow.Raised? ==> flow.failure == f
  {
    if f == ApiError then Returned(()) else Raised(f)
  }

  /** One spot cancel per listed order, in listed order. */
  function SpotCancelRequests(orders: seq<OpenOrder>, symbol: string): (rs: seq<Request>)
    ensures |rs| == |orders|
    ensures forall k :: 0 <= k < |rs| ==> rs[k] == SpotCancelOrder(symbol, orders[k].orderId)
  {
    seq(|orders|, k requires 0 <= k < |orders| => SpotCancelOrder(symbol, orders[k].orderId))
  }

  /**
   * `cancel_open_orders`: list the symbol's open orders and cancel them in
   * order, stopping at the first failure; an exchange refusal ends it
   * quietly, any other failure propagates.
   */
  function CancelOpenOrdersRun(env: Env, n: nat, symbol: string): (r: Run<()>)
    ensures |r.calls| >= 1 && r.calls[0] == SpotGetOpenOrders(symbol)
  {
    var cancels := SpotCancelRequests(OrdersFor(env.venue.spotOpenOrders, symbol), symbol);
    match env.oracle(n)
    case Some(f) => Run([SpotGetOpenOrders(symbol)], Swallow(f))
    case None =>
      var rest := AttemptEach(env.oracle, n + 1, cancels);
      var flow := match rest.flow
        case Returned(_) => Returned(())
        case Raised(f) => Swallow(f);
      Run([SpotGetOpenOrders(symbol)] + rest.calls, flow)
  }

  /** The cancel pass places nothing; the cancels follow the listing, in order, from its first order on. */
  lemma CancelOpenOrdersFollowListing(env: Env, n: nat, symbol: string)
    ensures var r := CancelOpenOrdersRun(env, n, symbol);
            NoOrders(r.calls)
            && |r.calls| <= 1 + |OrdersFor(env.venue.spotOpenOrders, symbol)|
            && r.calls[1..] == SpotCancelRequests(OrdersFor(env.venue.spotOpenOrders, symbol), symbol)[..|r.calls| - 1]
  {
    var cancels := SpotCancelRequests(OrdersFor(env.venue.spotOpenOrders, symbol), symbol);
    if env.oracle(n).None? {
      AttemptEachPrefix(env.oracle, n + 1, cancels);
      var rest := AttemptEach(env.oracle, n + 1, cancels);
      assert ([SpotGetOpenOrders(symbol)] + rest.calls)[1..] == rest.calls;
    }
  }

  /**
   * Only the last call can have failed; a refusal ends the run quietly and
   * any other failure is raised; when no call fails every listed order is
   * cancelled.
   */
  lemma {:induction false} CancelOpenOrdersOutcome(env: Env, n: nat, symbol: string)
    ensures var r := CancelOpenOrdersRun(env, n, symbol);
            (forall i :: n <= i < n + |r.calls| - 1 ==> env.oracle(i).None?)
            && (r.flow.Raised? <==> env.oracle(n + |r.calls| - 1).Some? && env.oracle(n + |r.calls| - 1) != Some(ApiError))
            && (r.flow.Raised? ==> env.oracle(n + |r.calls| - 1) == Some(r.flow.failure))
            && ((forall i :: n <= i < n + |r.calls| ==> env.oracle(i).None?) ==>
                  r.flow == Returned(()) && |r.calls| == 1 + |OrdersFor(env.venue.spotOpenOrders, symbol)|)
  {
    var cancels := SpotCancelRequests(OrdersFor(env.venue.spotOpenOrders, symbol), symbol);
    if env.oracle(n).None? {
      AttemptEachPrefix(env.oracle, n + 1, cancels);
    }
  }

  /** `close_order_at_profit`: one limit sell; a refusal is no order, anything else propagates. */
  function CloseOrderAtProfitRun(env: Env, n: nat, symbol: string, quantity: real, price: real): (r: Run<bool>)
    ensures r.calls == [SpotLimitSell(symbol, quantity, price)]
    ensures r.flow == Returned(true) <==> env.oracle(n).None?
    ensures r.flow == Returned(false) <==> env.oracle(n) == Some(ApiError)
    ensures r.flow.Raised? ==> env.oracle(n) == Some(r.flow.failure)
  {
    match env.oracle(n)
    case None => Run([SpotLimitSell(symbol, quantity, price)], Returned(true))
    case Some(f) =>
      if f == ApiError then Run([SpotLimitSell(symbol, quantity, price)], Returned(false))
      else Run([SpotLimitSell(symbol, quantity, price)], Raised(f))
  }

  /** The list read comes first; the cancels follow only when it succeeds. */
  lemma CancelOpenOrdersRunCalls(env: Env, n: nat, m: nat, symbol: string)
    requires m == n + 1
    ensures env.oracle(n).Some? ==>
              CancelOpenOrdersRun(env, n, symbol) == Run([SpotGetOpenOrders(symbol)], Swallow(env.oracle(n).value))
    ensures env.oracle(n).None? ==>
              var rest := AttemptEach(env.oracle, m, SpotCancelRequests(OrdersFor(env.venue.spotOpenOrders, symbol), symbol));
              CancelOpenOrdersRun(env, n, symbol).calls == [SpotGetOpenOrders(symbol)] + rest.calls
              && CancelOpenOrdersRun(env, n, symbol).flow
                 == (if rest.flow.Returned? then Returned(()) else Swallow(rest.flow.failure))
  {
  }

  /** `SpotClient`: its methods issue requests through the one gateway it owns. */
  class SpotClient {
    const client: Gateway

    constructor (client: Gateway)
      ensures this.client == client
    {
      this.client := client;
    }

    method GetUsdtBalance() returns (flow: Flow<real>)
      modifies client
      ensures client.trace == old(client.trace) + GetUsdtBalanceRun(client.env, |old(client.trace)|).calls
      ensures flow == GetUsdtBalanceRun(client.env, |old(client.trace)|).flow
    {
      var failure := client.Call(SpotAssetBalance);
      if failure.Some? {
        return Raised(failure.value);
      }
      match client.env.venue.spotFreeUsdt
      case None => return Raised(TypeError);
      case Some(b) => return Returned(b);
    }

    method PlaceSpotOrder(symbol: string, price: real, quantity: real, t: SpotOrderType) returns (flow: Flow<bool>)
      modifies client
      ensures client.trace == old(client.trace)
                              + PlaceSpotOrderRun(client.env, |old(client.trace)|, symbol, price, quantity, t).calls
      ensures flow == PlaceSpotOrderRun(client.env, |old(client.trace)|, symbol, price, quantity, t).flow
      ensures client.env.oracle(|old(client.trace)|).None? && TickSizeOf(client.env.venue.spotSymbols, symbol).Some?
              && TickSizeOf(client.env.venue.spotSymbols, symbol).value != 0.0 ==>
                client.trace == old(client.trace) + [SpotSymbolInfo(symbol),
                  SpotBuy(symbol, quantity, AdjustedPrice(price, TickSizeOf(client.env.venue.spotSymbols, symbol).value), t)]
    {
      if client.env.oracle(|client.trace|).None? {
        PlaceSpotOrderBuys(client.env, |client.trace|, symbol, price, quantity, t);
      }
      var failure := client.Call(SpotSymbolInfo(symbol));
      if failure.Some? {
        return Raised(failure.value);
      }
      var info := FindSymbol(client.env.venue.spotSymbols, symbol);
      if info.None? {
        return Raised(TypeError);
      }
      var priceFilter := FirstFilter(info.value.filters, PriceFilterKind);
      if priceFilter.None? {
        return Returned(false);
      }
      var tick := priceFilter.value.tickSize.Value();
      if tick == 0.0 {
        return Raised(ArithmeticError);
      }
      var adjusted := AdjustedPrice(price, tick);
      match t {
        case LimitOrder => failure := client.Call(SpotLimitBuy(symbol, quantity, adjusted));
        case MarketOrder => failure := client.Call(SpotMarketBuy(symbol, quantity));
      }
      flow := if failure.Some? then Raised(failure.value) else Returned(true);
    }

    method CalculateQuantity(symbol: string, price: real, leverage: int) returns (flow: Flow<real>)
      modifies client
      ensures client.trace == old(client.trace)
                              + CalculateQuantityRun(client.env, |old(client.trace)|, symbol, price, leverage).calls
      ensures flow == CalculateQuantityRun(client.env, |old(client.trace)|, symbol, price, leverage).flow
      ensures flow.Returned? <==>
                client.env.oracle(|old(client.trace)|).None? && client.env.oracle(|old(client.trace)| + 1).None?
                && client.env.venue.spotFreeUsdt.Some? && price != 0.0 && Sizable(client.env.venue.spotSymbols, symbol)
      ensures flow.Returned? ==> flow.value == SizedQuantity(client.env.venue, symbol, price, leverage)
    {
      ghost var n := |client.trace|;
      CalculateQuantityReturns(client.env, n, symbol, price, leverage);
      var balance := GetUsdtBalance();
      if balance.Raised? {
        return Raised(balance.failure);
      }
      if price == 0.0 {
        return Raised(ArithmeticError);
      }
      var initial := InitialQuantity(balance.value, price, leverage);
      var failure := client.Call(SpotSymbolInfo(symbol));
      if failure.Some? {
        return Raised(failure.value);
      }
      var info := FindSymbol(client.env.venue.spotSymbols, symbol);
      if info.None? {
        return Raised(TypeError);
      }
      CalculateQuantityRunSized(client.env, n, symbol, price, leverage);
      ghost var sized := SizeFromFilters(info.value.filters, initial, price);
      var lot := FirstFilter(info.value.filters, LotSizeKind);
      if lot.None? {
        return Raised(StopIteration);
      }
      var notional := FirstFilter(info.value.filters, NotionalKind);
      if notional.None? {
        return Raised(StopIteration);
      }
      var quantity := SpotQuantity(initial, price, lot.value.stepSize.Value(),
                                   notional.value.minNotional, notional.value.maxNotional);
      assert sized == quantity;
      flow := if quantity.Ok? then Returned(quantity.value) else Raised(quantity.error);
    }

    method CancelOpenOrders(symbol: string) returns (flow: Flow<()>)
      modifies client
      ensures client.trace == old(client.trace) + CancelOpenOrdersRun(client.env, |old(client.trace)|, symbol).calls
      ensures flow == CancelOpenOrdersRun(client.env, |old(client.trace)|, symbol).flow
    {
      ghost var before := client.trace;
      var failure := client.Call(SpotGetOpenOrders(symbol));
      ghost var middle := client.trace;
      CancelOpenOrdersRunCalls(client.env, |before|, |middle|, symbol);
      if failure.Some? {
        return Swallow(failure.value);
      }
      var orders := OrdersFor(client.env.venue.spotOpenOrders, symbol);
      var rest := CancelEach(symbol, orders);
      Sequenced(before, middle, client.trace, [SpotGetOpenOrders(symbol)],
                AttemptEach(client.env.oracle, |middle|, SpotCancelRequests(orders, symbol)).calls,
                CancelOpenOrdersRun(client.env, |before|, symbol).calls);
      flow := if rest.Returned? then Returned(()) else Swallow(rest.failure);
    }

    /** The loop over the listed orders: one cancel each, until one fails. */
    method CancelEach(symbol: string, orders: seq<OpenOrder>) returns (flow: Flow<()>)
      modifies client
      ensures client.trace == old(client.trace)
                              + AttemptEach(client.env.oracle, |old(client.trace)|, SpotCancelRequests(orders, symbol)).calls
      ensures flow == AttemptEach(client.env.oracle, |old(client.trace)|, SpotCancelRequests(orders, symbol)).flow
    {
      ghost var oracle := client.env.oracle;
      ghost var cancels := SpotCancelRequests(orders, symbol);
      ghost var all := client.trace + AttemptEach(oracle, |client.trace|, cancels).calls;
      ghost var result := AttemptEach(oracle, |client.trace|, cancels).flow;
      assert cancels[0..] == cancels;
      var i := 0;
      while i < |orders|
        invariant 0 <= i <= |orders|
        invariant all == client.trace + AttemptEach(oracle, |client.trace|, cancels[i..]).calls
        invariant result == AttemptEach(oracle, |client.trace|, cancels[i..]).flow
      {
        assert cancels[i] == SpotCancelOrder(symbol, orders[i].orderId);
        AttemptAt(oracle, client.trace, cancels, i, all);
        var failure := client.Call(SpotCancelOrder(symbol, orders[i].orderId));
        if failure.Some? {
          return Raised(failure.value);
        }
        i := i + 1;
      }
      assert cancels[i..] == [];
      return Returned(());
    }

    method CloseOrderAtProfit(symbol: string, quantity: real, price: real) returns (flow: Flow<bool>)
      modifies client
      ensures client.trace == old(client.trace)
                              + CloseOrderAtProfitRun(client.env, |old(client.trace)|, symbol, quantity, price).calls
      ensures flow == CloseOrderAtProfitRun(client.env, |old(client.trace)|, symbol, quantity, price).flow
    {
      var failure := client.Call(SpotLimitSell(symbol, quantity, price));
      flow := if failure.None? then Returned(true) else if failure.value == ApiError then Returned(false)
              else Raised(failure.value);
    }
  }
}
