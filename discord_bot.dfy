/**
 * The message dispatcher: which messages reach which handler, and the
 * sequence of client calls each handler makes for a parsed signal.
 */
module DiscordBot {
  import opened Wrappers
  import opened Text
  import opened Exchange
  import FutureParsing
  import SpotParsing
  import FutureClient
  import SpotClient

  /** Where `on_message` sends a message. */
  datatype Route = ToFutures | ToSpot | Ignored

  /**
   * `on_message`: the bot's own messages are ignored; a message starting
   * with `$` goes to the futures handler when it mentions LONG or SHORT
   * anywhere, to the spot handler otherwise.
   */
  function RouteMessage(fromSelf: bool, content: string): (r: Route)
    ensures r == ToFutures <==>
              !fromSelf && HasAt(content, 0, "$") && (Contains(content, "LONG") || Contains(content, "SHORT"))
    ensures r == ToSpot <==>
              !fromSelf && HasAt(content, 0, "$") && !Contains(content, "LONG") && !Contains(content, "SHORT")
    ensures r == Ignored <==> fromSelf || !HasAt(content, 0, "$")
  {
    if fromSelf || !HasAt(content, 0, "$") then Ignored
    else if Contains(content, "LONG") || Contains(content, "SHORT") then ToFutures
    else ToSpot
  }

  /**
   * The trade branch of `handle_future_message`: cancel the symbol's open
   * orders, then trade. Cancelling never raises, so the balance read
   * always follows the cancel pass.
   */
  function TradeRun(env: Env, n: nat, symbol: string, side: Side, entry: real, stop: real, target: real)
    : (r: Run<()>)
    ensures 1 <= |r.calls| && r.calls[0] == FuturesGetOpenOrders(symbol)
    ensures FuturesAccountBalance in r.calls
  {
    var cancel := FutureClient.CancelOpenFuturesOrdersRun(env, n, symbol);
    var rest := AfterCancelRun(env, Next(n, cancel.calls), symbol, side, entry, stop, target);
    assert (cancel.calls + rest.calls)[|cancel.calls|] == FuturesAccountBalance;
    Run(cancel.calls + rest.calls, rest.flow)
  }

  /**
   * What follows the cancels: read the balance, size the position at the
   * fixed leverage, set that leverage, and place the order with its
   * protective legs. The first failure ends the sequence.
   */
  function AfterCancelRun(env: Env, n: nat, symbol: string, side: Side, entry: real, stop: real, target: real)
    : (r: Run<()>)
    ensures 1 <= |r.calls| && r.calls[0] == FuturesAccountBalance
  {
    var balance := FutureClient.GetAccountBalanceRun(env, n);
    match balance.flow
    case Raised(f) => Run(balance.calls, Raised(f))
    case Returned(b) =>
      var sized := FutureClient.CalculateQuantityRun(env, n + 1, b, entry, FutureClient.Leverage, symbol);
      match sized.flow
      case Raised(f) => Run(balance.calls + sized.calls, Raised(f))
      case Returned(q) =>
        var leverage := FutureClient.SetLeverageRun(env, n + 2, symbol, FutureClient.Leverage);
        var before := balance.calls + sized.calls + leverage.calls;
        match leverage.flow
        case Raised(f) => Run(before, Raised(f))
        case Returned(_) =>
          var place := FutureClient.PlaceOrderRun(env, n + 3, symbol, side, q, entry, stop, target);
          Run(before + place.calls, place.flow)
  }

  /**
   * Once the balance, the sizing and the leverage have all returned, the
   * trade is those three calls followed by the order placement at index `m`.
   */
  lemma AfterCancelPlaced(env: Env, n: nat, m: nat, symbol: string, side: Side, entry: real, stop: real, target: real,
                          b: real, q: real)
    requires m == n + 3
    requires FutureClient.GetAccountBalanceRun(env, n).flow == Returned(b)
    requires FutureClient.CalculateQuantityRun(env, n + 1, b, entry, FutureClient.Leverage, symbol).flow == Returned(q)
    requires FutureClient.SetLeverageRun(env, n + 2, symbol, FutureClient.Leverage).flow == Returned(())
    ensures var place := FutureClient.PlaceOrderRun(env, m, symbol, side, q, entry, stop, target);
            AfterCancelRun(env, n, symbol, side, entry, stop, target)
            == Run([FuturesAccountBalance, FuturesExchangeInfo, FuturesChangeLeverage(symbol, FutureClient.Leverage)]
                   + place.calls, place.flow)
  {
  }

  /**
   * After the cancels nothing is cancelled, and orders go out only after
   * the leverage is set for the symbol, on the quantity the sizing returned,
   * and only then.
   */
  lemma AfterCancelOrders(env: Env, n: nat, symbol: string, side: Side, entry: real, stop: real, target: real)
    ensures var r := AfterCancelRun(env, n, symbol, side, entry, stop, target);
            NoCancels(r.calls)
            && (!NoOrders(r.calls) ==>
                  r.calls[..3] == [FuturesAccountBalance, FuturesExchangeInfo, FuturesChangeLeverage(symbol, FutureClient.Leverage)]
                  && NoOrders(r.calls[..3]))
  {
    var r := AfterCancelRun(env, n, symbol, side, entry, stop, target);
    var balance := FutureClient.GetAccountBalanceRun(env, n);
    var before := [FuturesAccountBalance, FuturesExchangeInfo, FuturesChangeLeverage(symbol, FutureClient.Leverage)];
    assert NoOrders(before) && NoCancels(before);
    if balance.flow.Returned? {
      var sized := FutureClient.CalculateQuantityRun(env, n + 1, balance.flow.value, entry, FutureClient.Leverage, symbol);
      if sized.flow.Returned? {
        var leverage := FutureClient.SetLeverageRun(env, n + 2, symbol, FutureClient.Leverage);
        if leverage.flow.Returned? {
          AfterCancelPlaced(env, n, n + 3, symbol, side, entry, stop, target, balance.flow.value, sized.flow.value);
          var place := FutureClient.PlaceOrderRun(env, n + 3, symbol, side, sized.flow.value, entry, stop, target);
          FutureClient.PlaceOrderNeverCancels(env, n + 3, symbol, side, sized.flow.value, entry, stop, target);
          JoinNoCancels(r.calls, before, place.calls);
          assert r.calls[..3] == before;
        } else {
          assert r.calls == before;
        }
      } else {
        assert r.calls == before[..2];
      }
    } else {
      assert r.calls == before[..1];
    }
  }

  /**
   * `handle_future_message`: a message that does not parse is an error
   * reply with no call; a close or stop-loss command goes to the futures
   * client with the symbol slot the parser left empty; a trade signal runs
   * the trade sequence. A raised failure becomes the error reply.
   */
  function HandleFutureMessageRun(env: Env, n: nat, content: string): (r: Run<()>)
    ensures FutureParsing.ParseFutureMessage(content).Err? ==> r == Run([], Raised(ValueError))
  {
    match FutureParsing.ParseFutureMessage(content)
    case Err(_) => Run([], Raised(ValueError))
    case Ok(sig) =>
      match sig.command
      case CloseOrder =>
        Run(FutureClient.PositionOrdersRun(env, n, sig.symbol, Market).calls, Returned(()))
      case ChangeStopLoss =>
        Run(FutureClient.PositionOrdersRun(env, n, sig.symbol, StopMarket(sig.stopLossPrice)).calls, Returned(()))
      case TradeSignal =>
        TradeRun(env, n, sig.symbol.value, sig.side.value, sig.entryPrice.value, sig.stopLossPrice.value,
                 sig.targetPrice.value)
  }

  /**
   * Neither a close nor a stop-loss change ever reaches an order: the
   * parser leaves their symbol slot empty, so no position matches and only
   * the position read is made.
   */
  lemma CommandsPlaceNothing(env: Env, n: nat, content: string)
    requires FutureParsing.ParseFutureMessage(content).Ok?
    requires FutureParsing.ParseFutureMessage(content).value.command != FutureParsing.TradeSignal
    ensures HandleFutureMessageRun(env, n, content) == Run([FuturesPositionInformation], Returned(()))
  {
  }

  /** A futures trade is the cancel pass followed by what comes after it, the latter starting at oracle index `m`. */
  lemma TradeSplit(env: Env, n: nat, m: nat, symbol: string, side: Side, entry: real, stop: real, target: real)
    requires m == Next(n, FutureClient.CancelOpenFuturesOrdersRun(env, n, symbol).calls)
    ensures var cancel := FutureClient.CancelOpenFuturesOrdersRun(env, n, symbol);
            var rest := AfterCancelRun(env, m, symbol, side, entry, stop, target);
            TradeRun(env, n, symbol, side, entry, stop, target) == Run(cancel.calls + rest.calls, rest.flow)
  {
  }

  /** In a trade, every cancel comes before every order. */
  lemma TradeCancelsBeforeOrders(env: Env, n: nat, symbol: string, side: Side, entry: real, stop: real, target: real)
    ensures CancelsBeforeOrders(TradeRun(env, n, symbol, side, entry, stop, target).calls)
  {
    var cancels := FutureClient.CancelOpenFuturesOrdersRun(env, n, symbol).calls;
    var m := Next(n, cancels);
    var rest := AfterCancelRun(env, m, symbol, side, entry, stop, target).calls;
    TradeSplit(env, n, m, symbol, side, entry, stop, target);
    FutureClient.CancelOpenFuturesOrdersCancels(env, n, symbol);
    AfterCancelOrders(env, m, symbol, side, entry, stop, target);
    CancelsThenOrders(TradeRun(env, n, symbol, side, entry, stop, target).calls, cancels, rest);
  }

  /** Every order among `calls` is a limit buy of `symbol`. */
  predicate OnlyLimitBuys(calls: seq<Request>, symbol: string) {
    forall i :: 0 <= i < |calls| && IsOrder(calls[i]) ==> calls[i].SpotLimitBuy? && calls[i].symbol == symbol
  }

  /**
   * The loop over the entry prices in `handle_spot_message`: for each, size
   * the buy and place it as a LIMIT order, in order; the first failure ends
   * the loop. Each price costs one to four calls, and a loop that
   * returned has visited every price.
   */
  function EntriesRun(env: Env, n: nat, symbol: string, prices: seq<real>): (r: Run<()>)
    ensures |r.calls| <= 4 * |prices|
    ensures r.flow.Returned? ==> |prices| <= |r.calls|
    ensures prices == [] ==> r == Run([], Returned(()))
    decreases |prices|
  {
    if prices == [] then Run([], Returned(()))
    else
      var head := EntryRun(env, n, symbol, prices[0]);
      match head.flow
      case Raised(f) => Run(head.calls, Raised(f))
      case Returned(_) =>
        var rest := EntriesRun(env, Next(n, head.calls), symbol, prices[1..]);
        Run(head.calls + rest.calls, rest.flow)
  }

  /** The entry loop cancels nothing, and every order it places is a limit buy of the message's symbol. */
  lemma {:induction false} EntriesOnlyBuy(env: Env, n: nat, symbol: string, prices: seq<real>)
    ensures var r := EntriesRun(env, n, symbol, prices);
            NoCancels(r.calls) && OnlyLimitBuys(r.calls, symbol)
    decreases |prices|
  {
    if prices != [] {
      var head := EntryRun(env, n, symbol, prices[0]);
      if head.flow.Returned? {
        var m := Next(n, head.calls);
        EntriesOnlyBuy(env, m, symbol, prices[1..]);
        EntriesContinue(env, n, m, symbol, prices);
        EntryOnlyBuys(env, n, symbol, prices[0]);
        JoinBuys(EntriesRun(env, n, symbol, prices).calls, head.calls, EntriesRun(env, m, symbol, prices[1..]).calls, symbol);
      } else {
        EntriesStop(env, n, symbol, prices);
        EntryOnlyBuys(env, n, symbol, prices[0]);
      }
    }
  }

  /** The symbol can be sized and has a non-zero PRICE_FILTER tick: an entry on it can reach the buy. */
  predicate Tradable(infos: seq<SymbolInfo>, symbol: string) {
    SpotClient.Sizable(infos, symbol) && TickSizeOf(infos, symbol).Some? && TickSizeOf(infos, symbol).value != 0.0
  }

  /** The buy one entry sends on a tradable symbol: a limit buy of the sized quantity at the price moved to the nearest tick. */
  function EntryBuy(venue: Venue, symbol: string, price: real): Request
    requires venue.spotFreeUsdt.Some? && price != 0.0 && Tradable(venue.spotSymbols, symbol)
  {
    SpotLimitBuy(symbol, SpotClient.SizedQuantity(venue, symbol, price, 1),
                 SpotClient.AdjustedPrice(price, TickSizeOf(venue.spotSymbols, symbol).value))
  }

  /** At index `j` of `calls`: the balance read, the two lookups of `symbol`, then `buy`. */
  predicate EntryBlockAt(calls: seq<Request>, j: int, symbol: string, buy: Request) {
    0 <= j && j + 4 <= |calls|
    && calls[j .. j + 3] == [SpotAssetBalance, SpotSymbolInfo(symbol), SpotSymbolInfo(symbol)]
    && calls[j + 3] == buy
  }

  /**
   * The calls of an entry loop in which nothing fails: per price, in order,
   * the balance read, the two symbol lookups, and that price's limit buy.
   */
  function EntryCalls(venue: Venue, symbol: string, prices: seq<real>): (r: seq<Request>)
    requires venue.spotFreeUsdt.Some? && Tradable(venue.spotSymbols, symbol)
    requires forall i :: 0 <= i < |prices| ==> prices[i] != 0.0
    ensures |r| == 4 * |prices|
    decreases |prices|
  {
    if prices == [] then []
    else
      [SpotAssetBalance, SpotSymbolInfo(symbol), SpotSymbolInfo(symbol), EntryBuy(venue, symbol, prices[0])]
      + EntryCalls(venue, symbol, prices[1..])
  }

  /** The `i`-th block of the failure-free entry loop is the `i`-th price's reads and limit buy. */
  lemma {:induction false} EntryCallsBlocks(venue: Venue, symbol: string, prices: seq<real>)
    requires venue.spotFreeUsdt.Some? && Tradable(venue.spotSymbols, symbol)
    requires forall i :: 0 <= i < |prices| ==> prices[i] != 0.0
    ensures forall i :: 0 <= i < |prices| ==>
              EntryBlockAt(EntryCalls(venue, symbol, prices), 4 * i, symbol, EntryBuy(venue, symbol, prices[i]))
    decreases |prices|
  {
    if prices != [] {
      var block := [SpotAssetBalance, SpotSymbolInfo(symbol), SpotSymbolInfo(symbol), EntryBuy(venue, symbol, prices[0])];
      var rest := EntryCalls(venue, symbol, prices[1..]);
      assert EntryCalls(venue, symbol, prices) == block + rest;
      EntryCallsBlocks(venue, symbol, prices[1..]);
      assert EntryBlockAt(block + rest, 0, symbol, EntryBuy(venue, symbol, prices[0]));
      forall i | 1 <= i < |prices|
        ensures EntryBlockAt(block + rest, 4 * i, symbol, EntryBuy(venue, symbol, prices[i]))
      {
        assert prices[1..][i - 1] == prices[i];
        AfterBlock(block, rest, 4 * (i - 1), symbol, EntryBuy(venue, symbol, prices[i]));
      }
    }
  }

  /** A block of `rest` is a block of the joined calls four places later. */
  lemma AfterBlock(block: seq<Request>, rest: seq<Request>, j: int, symbol: string, buy: Request)
    requires |block| == 4 && EntryBlockAt(rest, j, symbol, buy)
    ensures EntryBlockAt(block + rest, j + 4, symbol, buy)
  {
    assert (block + rest)[j + 4 .. j + 7] == rest[j .. j + 3];
  }

  /**
   * With every call succeeding, a balance and a tradable symbol, one entry
   * is the balance read, the two lookups and the limit buy, and returns.
   */
  lemma EntryBuys(env: Env, n: nat, symbol: string, price: real)
    requires env.oracle(n).None? && env.oracle(n + 1).None? && env.oracle(n + 2).None? && env.oracle(n + 3).None?
    requires env.venue.spotFreeUsdt.Some? && price != 0.0 && Tradable(env.venue.spotSymbols, symbol)
    ensures EntryRun(env, n, symbol, price)
            == Run([SpotAssetBalance, SpotSymbolInfo(symbol), SpotSymbolInfo(symbol), EntryBuy(env.venue, symbol, price)],
                   Returned(()))
  {
    SpotClient.CalculateQuantityReturns(env, n, symbol, price, 1);
    var q := SpotClient.SizedQuantity(env.venue, symbol, price, 1);
    SpotClient.PlaceSpotOrderBuys(env, n + 2, symbol, price, q, SpotClient.LimitOrder);
  }

  /**
   * With every call succeeding, a balance, a tradable symbol and non-zero
   * prices, the entry loop places one limit buy per price, in order, and
   * returns.
   */
  lemma {:induction false} EntriesBuy(env: Env, n: nat, symbol: string, prices: seq<real>)
    requires forall k :: n <= k ==> env.oracle(k).None?
    requires env.venue.spotFreeUsdt.Some? && Tradable(env.venue.spotSymbols, symbol)
    requires forall i :: 0 <= i < |prices| ==> prices[i] != 0.0
    ensures EntriesRun(env, n, symbol, prices) == Run(EntryCalls(env.venue, symbol, prices), Returned(()))
    decreases |prices|
  {
    if prices != [] {
      EntryBuys(env, n, symbol, prices[0]);
      var m := n + 4;
      assert forall i :: 0 <= i < |prices[1..]| ==> prices[1..][i] == prices[i + 1];
      EntriesBuy(env, m, symbol, prices[1..]);
      EntriesContinue(env, n, m, symbol, prices);
    }
  }

  /** `EntriesBuy` as an implication, for callers that cannot tell whether its conditions hold. */
  lemma EntriesLive(env: Env, n: nat, symbol: string, prices: seq<real>)
    ensures (forall k :: n <= k ==> env.oracle(k).None?)
            && env.venue.spotFreeUsdt.Some? && Tradable(env.venue.spotSymbols, symbol)
            && (forall i :: 0 <= i < |prices| ==> prices[i] != 0.0) ==>
              EntriesRun(env, n, symbol, prices) == Run(EntryCalls(env.venue, symbol, prices), Returned(()))
  {
    if (forall k :: n <= k ==> env.oracle(k).None?)
       && env.venue.spotFreeUsdt.Some? && Tradable(env.venue.spotSymbols, symbol)
       && (forall i :: 0 <= i < |prices| ==> prices[i] != 0.0) {
      EntriesBuy(env, n, symbol, prices);
    }
  }

  /** After an entry that returned, the loop's calls are that entry's calls and then the rest of the loop's. */
  lemma EntriesContinue(env: Env, n: nat, m: nat, symbol: string, prices: seq<real>)
    requires prices != [] && EntryRun(env, n, symbol, prices[0]).flow.Returned?
    requires m == Next(n, EntryRun(env, n, symbol, prices[0]).calls)
    ensures var rest := EntriesRun(env, m, symbol, prices[1..]);
            EntriesRun(env, n, symbol, prices) == Run(EntryRun(env, n, symbol, prices[0]).calls + rest.calls, rest.flow)
  {
  }

  /** An entry that raised ends the loop with its own calls. */
  lemma EntriesStop(env: Env, n: nat, symbol: string, prices: seq<real>)
    requires prices != [] && EntryRun(env, n, symbol, prices[0]).flow.Raised?
    ensures EntriesRun(env, n, symbol, prices) == EntryRun(env, n, symbol, prices[0])
  {
  }

  /** One entry: `calculate_quantity` at the entry price, then `place_spot_order` as a LIMIT buy. */
  function EntryRun(env: Env, n: nat, symbol: string, price: real): (r: Run<()>)
    ensures 1 <= |r.calls| <= 4
  {
    var sized := SpotClient.CalculateQuantityRun(env, n, symbol, price, 1);
    match sized.flow
    case Raised(f) => Run(sized.calls, Raised(f))
    case Returned(q) =>
      var place := SpotClient.PlaceSpotOrderRun(env, Next(n, sized.calls), symbol, price, q, SpotClient.LimitOrder);
      Run(sized.calls + place.calls, if place.flow.Raised? then Raised(place.flow.failure) else Returned(()))
  }

  /** One entry cancels nothing, and the only order it may place is a limit buy of `symbol`. */
  lemma EntryOnlyBuys(env: Env, n: nat, symbol: string, price: real)
    ensures var r := EntryRun(env, n, symbol, price);
            NoCancels(r.calls) && OnlyLimitBuys(r.calls, symbol)
  {
    var sized := SpotClient.CalculateQuantityRun(env, n, symbol, price, 1);
    SizingOnly(sized.calls, symbol);
    if sized.flow.Returned? {
      var place := SpotClient.PlaceSpotOrderRun(env, Next(n, sized.calls), symbol, price, sized.flow.value, SpotClient.LimitOrder);
      PlaceLimitBuyOnly(place.calls, symbol);
      JoinBuys(EntryRun(env, n, symbol, price).calls, sized.calls, place.calls, symbol);
    }
  }

  /** The sizing calls are queries: no cancel and no order. */
  lemma SizingOnly(calls: seq<Request>, symbol: string)
    requires calls == [SpotAssetBalance] || calls == [SpotAssetBalance, SpotSymbolInfo(symbol)]
    ensures NoCancels(calls) && OnlyLimitBuys(calls, symbol)
  {
  }

  /** A limit-buy placement is a query and at most one limit buy of `symbol`. */
  lemma PlaceLimitBuyOnly(calls: seq<Request>, symbol: string)
    requires 1 <= |calls| <= 2 && calls[0] == SpotSymbolInfo(symbol)
    requires |calls| == 2 ==> calls[1].SpotLimitBuy? && calls[1].symbol == symbol
    ensures NoCancels(calls) && OnlyLimitBuys(calls, symbol)
  {
  }

  /** Once the sizing has returned `q`, the entry is the sizing followed by the buy placed at index `m`. */
  lemma EntryPlaced(env: Env, n: nat, m: nat, symbol: string, price: real, q: real)
    requires SpotClient.CalculateQuantityRun(env, n, symbol, price, 1).flow == Returned(q)
    requires m == Next(n, SpotClient.CalculateQuantityRun(env, n, symbol, price, 1).calls)
    ensures var place := SpotClient.PlaceSpotOrderRun(env, m, symbol, price, q, SpotClient.LimitOrder);
            EntryRun(env, n, symbol, price)
            == Run(SpotClient.CalculateQuantityRun(env, n, symbol, price, 1).calls + place.calls,
                   if place.flow.Raised? then Raised(place.flow.failure) else Returned(()))
  {
  }

  lemma JoinBuys(calls: seq<Request>, a: seq<Request>, b: seq<Request>, symbol: string)
    requires calls == a + b
    requires NoCancels(a) && OnlyLimitBuys(a, symbol) && NoCancels(b) && OnlyLimitBuys(b, symbol)
    ensures NoCancels(calls) && OnlyLimitBuys(calls, symbol)
  {
    assert forall i :: |a| <= i < |calls| ==> calls[i] == b[i - |a|];
  }

  /** The take-profit step: size at the target price, then one limit sell there. */
  function TargetSellRun(env: Env, n: nat, symbol: string, target: real): (r: Run<()>)
    ensures r.flow.Returned? ==>
              |r.calls| >= 1 && r.calls[|r.calls| - 1].SpotLimitSell? && r.calls[|r.calls| - 1].symbol == symbol
              && r.calls[|r.calls| - 1].price == target
    ensures NoCancels(r.calls)
    ensures forall i :: 0 <= i < |r.calls| && IsOrder(r.calls[i]) ==>
              i == |r.calls| - 1 && r.calls[i].SpotLimitSell? && r.calls[i].symbol == symbol
              && r.calls[i].price == target
  {
    var sized := SpotClient.CalculateQuantityRun(env, n, symbol, target, 1);
    match sized.flow
    case Raised(f) => Run(sized.calls, Raised(f))
    case Returned(q) =>
      var sell := SpotClient.CloseOrderAtProfitRun(env, Next(n, sized.calls), symbol, q, target);
      assert sized.calls + sell.calls == sized.calls + [SpotLimitSell(symbol, q, target)];
      Run(sized.calls + sell.calls, if sell.flow.Raised? then Raised(sell.flow.failure) else Returned(()))
  }

  /** The calls of a take-profit step in which the reads succeed: the balance read, the lookup, and the limit sell of the sized quantity at the target. */
  function TargetSellCalls(venue: Venue, symbol: string, target: real): seq<Request>
    requires venue.spotFreeUsdt.Some? && target != 0.0 && SpotClient.Sizable(venue.spotSymbols, symbol)
  {
    [SpotAssetBalance, SpotSymbolInfo(symbol), SpotLimitSell(symbol, SpotClient.SizedQuantity(venue, symbol, target, 1), target)]
  }

  /**
   * When both reads succeed, the balance is there, the target is non-zero
   * and the symbol is sizable, the take-profit step sends the limit sell of
   * the quantity sized at the target; it raises only when the sell fails
   * with something other than an exchange refusal.
   */
  lemma TargetSellSells(env: Env, n: nat, symbol: string, target: real)
    requires env.oracle(n).None? && env.oracle(n + 1).None?
    requires env.venue.spotFreeUsdt.Some? && target != 0.0 && SpotClient.Sizable(env.venue.spotSymbols, symbol)
    ensures var r := TargetSellRun(env, n, symbol, target);
            r.calls == TargetSellCalls(env.venue, symbol, target)
            && r.flow == (if env.oracle(n + 2).Some? && env.oracle(n + 2).value != ApiError
                          then Raised(env.oracle(n + 2).value) else Returned(()))
  {
    SpotClient.CalculateQuantityReturns(env, n, symbol, target, 1);
  }

  /** `if parsed_info['final_target_price']`: present and not zero. */
  predicate SellsAtTarget(sig: SpotParsing.SpotSignal) {
    sig.finalTargetPrice.Some? && sig.finalTargetPrice.value != 0.0
  }

  /**
   * `handle_spot_message`: a message that does not parse is an error reply
   * with no call; without a symbol nothing is done; otherwise cancel the
   * symbol's open orders, buy at each entry price, then sell at the final
   * target when there is one. A raised failure ends the handler with the
   * error reply.
   */
  function HandleSpotMessageRun(env: Env, n: nat, content: string): (r: Run<()>)
    ensures SpotParsing.ParseSpotMessage(content).Err? ==> r == Run([], Raised(ValueError))
    ensures (SpotParsing.ParseSpotMessage(content).Ok? && SpotParsing.ParseSpotMessage(content).value.symbol.None?)
              ==> r == Run([], Returned(()))
  {
    match SpotParsing.ParseSpotMessage(content)
    case Err(_) => Run([], Raised(ValueError))
    case Ok(sig) =>
      match sig.symbol
      case None => Run([], Returned(()))
      case Some(symbol) => SpotTradeRun(env, n, symbol, sig)
  }

  /** The body of `handle_spot_message` once a symbol is known: the cancel pass, then what follows it. */
  function SpotTradeRun(env: Env, n: nat, symbol: string, sig: SpotParsing.SpotSignal): (r: Run<()>)
    ensures 1 <= |r.calls| && r.calls[0] == SpotGetOpenOrders(symbol)
    ensures |r.calls| <= |SpotClient.CancelOpenOrdersRun(env, n, symbol).calls| + 4 * |sig.entries| + 3
  {
    var cancel := SpotClient.CancelOpenOrdersRun(env, n, symbol);
    var rest := AfterSpotCancelRun(env, Next(n, cancel.calls), symbol, sig, cancel.flow);
    Run(cancel.calls + rest.calls, rest.flow)
  }

  /** A spot trade is the cancellation followed by what comes after it, the latter starting at oracle index `m`. */
  lemma SpotTradeSplit(env: Env, n: nat, m: nat, symbol: string, sig: SpotParsing.SpotSignal)
    requires m == Next(n, SpotClient.CancelOpenOrdersRun(env, n, symbol).calls)
    ensures var cancel := SpotClient.CancelOpenOrdersRun(env, n, symbol);
            var rest := AfterSpotCancelRun(env, m, symbol, sig, cancel.flow);
            SpotTradeRun(env, n, symbol, sig) == Run(cancel.calls + rest.calls, rest.flow)
  {
  }

  /** The buys and the sell run only when the cancel pass returned; a raised failure ends the handler. */
  function AfterSpotCancelRun(env: Env, n: nat, symbol: string, sig: SpotParsing.SpotSignal, cancelled: Flow<()>): (r: Run<()>)
    ensures cancelled.Raised? ==> r == Run([], cancelled)
  {
    match cancelled
    case Raised(_) => Run([], cancelled)
    case Returned(_) => BuyThenSellRun(env, n, symbol, sig)
  }

  /**
   * The entry buys, then the take-profit sell when the target is set and
   * the buys did not raise. Without a target (or with a zero one) nothing
   * is sold; a handler that returned with a target ends on the limit sell
   * at that target.
   */
  function BuyThenSellRun(env: Env, n: nat, symbol: string, sig: SpotParsing.SpotSignal): (r: Run<()>)
    ensures !SellsAtTarget(sig) ==> OnlyLimitBuys(r.calls, symbol)
    ensures r.flow.Returned? && SellsAtTarget(sig) ==>
              |r.calls| >= 1 && r.calls[|r.calls| - 1].SpotLimitSell?
              && r.calls[|r.calls| - 1].price == sig.finalTargetPrice.value
    ensures |r.calls| <= 4 * |sig.entries| + 3
  {
    var buys := EntriesRun(env, n, symbol, sig.entries);
    EntriesOnlyBuy(env, n, symbol, sig.entries);
    if buys.flow.Returned? && SellsAtTarget(sig) then
      var sell := TargetSellRun(env, Next(n, buys.calls), symbol, sig.finalTargetPrice.value);
      Run(buys.calls + sell.calls, sell.flow)
    else buys
  }

  /** The buys end the handler when one raised or no sell is due. */
  lemma BuyThenSellStops(env: Env, n: nat, symbol: string, sig: SpotParsing.SpotSignal)
    requires EntriesRun(env, n, symbol, sig.entries).flow.Raised? || !SellsAtTarget(sig)
    ensures BuyThenSellRun(env, n, symbol, sig) == EntriesRun(env, n, symbol, sig.entries)
  {
  }

  /** Otherwise the take-profit sell follows the buys, starting at oracle index `m`. */
  lemma BuyThenSellSells(env: Env, n: nat, m: nat, symbol: string, sig: SpotParsing.SpotSignal, buys: Run<()>)
    requires buys == EntriesRun(env, n, symbol, sig.entries)
    requires buys.flow.Returned? && SellsAtTarget(sig) && m == Next(n, buys.calls)
    ensures var sell := TargetSellRun(env, m, symbol, sig.finalTargetPrice.value);
            BuyThenSellRun(env, n, symbol, sig) == Run(buys.calls + sell.calls, sell.flow)
  {
  }

  /**
   * When no call fails, the balance is there, the symbol is tradable and no
   * entry price is zero, the handler places one limit buy per entry, in
   * order, then, when a non-zero target is set, the limit sell of the
   * quantity sized at that target, and returns.
   */
  lemma BuyThenSellPlaces(env: Env, n: nat, symbol: string, sig: SpotParsing.SpotSignal)
    requires forall k :: n <= k ==> env.oracle(k).None?
    requires env.venue.spotFreeUsdt.Some? && Tradable(env.venue.spotSymbols, symbol)
    requires forall i :: 0 <= i < |sig.entries| ==> sig.entries[i] != 0.0
    ensures !SellsAtTarget(sig) ==>
              BuyThenSellRun(env, n, symbol, sig) == Run(EntryCalls(env.venue, symbol, sig.entries), Returned(()))
    ensures SellsAtTarget(sig) ==>
              BuyThenSellRun(env, n, symbol, sig)
              == Run(EntryCalls(env.venue, symbol, sig.entries)
                     + TargetSellCalls(env.venue, symbol, sig.finalTargetPrice.value), Returned(()))
  {
    var buys := EntriesRun(env, n, symbol, sig.entries);
    EntriesBuy(env, n, symbol, sig.entries);
    if SellsAtTarget(sig) {
      var m := n + |buys.calls|;
      BuyThenSellSells(env, n, m, symbol, sig, buys);
      TargetSellSells(env, m, symbol, sig.finalTargetPrice.value);
    } else {
      BuyThenSellStops(env, n, symbol, sig);
    }
  }

  /** `BuyThenSellPlaces` as one implication, for callers that cannot tell whether its conditions hold. */
  lemma BuyThenSellLive(env: Env, n: nat, symbol: string, sig: SpotParsing.SpotSignal)
    ensures (forall k :: n <= k ==> env.oracle(k).None?)
            && env.venue.spotFreeUsdt.Some? && Tradable(env.venue.spotSymbols, symbol)
            && (forall i :: 0 <= i < |sig.entries| ==> sig.entries[i] != 0.0) ==>
              BuyThenSellRun(env, n, symbol, sig)
              == Run(EntryCalls(env.venue, symbol, sig.entries)
                     + (if SellsAtTarget(sig) then TargetSellCalls(env.venue, symbol, sig.finalTargetPrice.value) else []),
                     Returned(()))
  {
    if (forall k :: n <= k ==> env.oracle(k).None?)
       && env.venue.spotFreeUsdt.Some? && Tradable(env.venue.spotSymbols, symbol)
       && (forall i :: 0 <= i < |sig.entries| ==> sig.entries[i] != 0.0) {
      BuyThenSellPlaces(env, n, symbol, sig);
      assert EntryCalls(env.venue, symbol, sig.entries) + [] == EntryCalls(env.venue, symbol, sig.entries);
    }
  }

  /** After the cancel pass nothing is cancelled: the handler only buys and sells. */
  lemma AfterSpotCancelCancelsNothing(env: Env, n: nat, symbol: string, sig: SpotParsing.SpotSignal, cancelled: Flow<()>)
    ensures NoCancels(AfterSpotCancelRun(env, n, symbol, sig, cancelled).calls)
  {
    if cancelled.Returned? {
      var buys := EntriesRun(env, n, symbol, sig.entries);
      var m := Next(n, buys.calls);
      EntriesOnlyBuy(env, n, symbol, sig.entries);
      if buys.flow.Returned? && SellsAtTarget(sig) {
        BuyThenSellSells(env, n, m, symbol, sig, buys);
        var sell := TargetSellRun(env, m, symbol, sig.finalTargetPrice.value);
        JoinNoCancels(BuyThenSellRun(env, n, symbol, sig).calls, buys.calls, sell.calls);
      } else {
        BuyThenSellStops(env, n, symbol, sig);
      }
    }
  }

  lemma JoinNoCancels(calls: seq<Request>, a: seq<Request>, b: seq<Request>)
    requires calls == a + b && NoCancels(a) && NoCancels(b)
    ensures NoCancels(calls)
  {
    assert forall i :: |a| <= i < |calls| ==> calls[i] == b[i - |a|];
  }

  /** In a spot message no order is placed before the last cancellation. */
  lemma SpotCancelsBeforeOrders(env: Env, n: nat, symbol: string, sig: SpotParsing.SpotSignal)
    ensures CancelsBeforeOrders(SpotTradeRun(env, n, symbol, sig).calls)
  {
    var cancel := SpotClient.CancelOpenOrdersRun(env, n, symbol);
    var m := Next(n, cancel.calls);
    var rest := AfterSpotCancelRun(env, m, symbol, sig, cancel.flow);
    SpotTradeSplit(env, n, m, symbol, sig);
    SpotClient.CancelOpenOrdersFollowListing(env, n, symbol);
    AfterSpotCancelCancelsNothing(env, m, symbol, sig, cancel.flow);
    CancelsThenOrders(SpotTradeRun(env, n, symbol, sig).calls, cancel.calls, rest.calls);
  }

  /** Two successive appends to a trace are one append of both parts. */
  lemma Regroup(all: seq<Request>, before: seq<Request>, head: seq<Request>, rest: seq<Request>, after: seq<Request>)
    requires all == before + (head + rest) && after == before + head
    ensures all == after + rest
  {
  }

  /**
   * `MyBot`: one futures client and one spot client, each over its own
   * gateway. Handling a message changes only the trace of the gateway its
   * route selects.
   */
  class MyBot {
    const futureClient: FutureClient.FutureClient
    const spotClient: SpotClient.SpotClient

    /** The two clients never share a gateway. */
    predicate Valid() {
      futureClient.client != spotClient.client
    }

    constructor (futures: Env, spot: Env)
      ensures Valid()
      ensures futureClient.client.env == futures && futureClient.client.trace == []
      ensures spotClient.client.env == spot && spotClient.client.trace == []
    {
      var futuresGateway := new Gateway(futures);
      var spotGateway := new Gateway(spot);
      futureClient := new FutureClient.FutureClient(futuresGateway);
      spotClient := new SpotClient.SpotClient(spotGateway);
    }

    /** `on_message`: route the message, then run the selected handler; an ignored message changes nothing. */
    method OnMessage(fromSelf: bool, content: string) returns (flow: Flow<()>)
      requires Valid()
      modifies futureClient.client, spotClient.client
      ensures var route := RouteMessage(fromSelf, content);
              var futures := HandleFutureMessageRun(futureClient.client.env, |old(futureClient.client.trace)|, content);
              var spot := HandleSpotMessageRun(spotClient.client.env, |old(spotClient.client.trace)|, content);
              match route
              case ToFutures =>
                futureClient.client.trace == old(futureClient.client.trace) + futures.calls
                && spotClient.client.trace == old(spotClient.client.trace) && flow == futures.flow
              case ToSpot =>
                spotClient.client.trace == old(spotClient.client.trace) + spot.calls
                && futureClient.client.trace == old(futureClient.client.trace) && flow == spot.flow
              case Ignored =>
                futureClient.client.trace == old(futureClient.client.trace)
                && spotClient.client.trace == old(spotClient.client.trace) && flow == Returned(())
    {
      match RouteMessage(fromSelf, content) {
        case ToFutures =>
          flow := HandleFutureMessage(content);
        case ToSpot =>
          flow := HandleSpotMessage(content);
        case Ignored =>
          flow := Returned(());
      }
    }

    /** `handle_future_message`; a raised flow is the error reply. */
    method HandleFutureMessage(content: string) returns (flow: Flow<()>)
      modifies futureClient.client
      ensures futureClient.client.trace
              == old(futureClient.client.trace)
                 + HandleFutureMessageRun(futureClient.client.env, |old(futureClient.client.trace)|, content).calls
      ensures flow == HandleFutureMessageRun(futureClient.client.env, |old(futureClient.client.trace)|, content).flow
    {
      match FutureParsing.ParseFutureMessage(content) {
        case Err(_) =>
          flow := Raised(ValueError);
        case Ok(sig) =>
          match sig.command {
            case CloseOrder =>
              futureClient.CloseOrderInProfit(sig.symbol);
              flow := Returned(());
            case ChangeStopLoss =>
              futureClient.ChangeStopLoss(sig.symbol, sig.stopLossPrice);
              flow := Returned(());
            case TradeSignal =>
              flow := Trade(sig.symbol.value, sig.side.value, sig.entryPrice.value, sig.stopLossPrice.value,
                            sig.targetPrice.value);
          }
      }
    }

    /** The trade branch of `handle_future_message`. */
    method Trade(symbol: string, side: Side, entry: real, stop: real, target: real) returns (flow: Flow<()>)
      modifies futureClient.client
      ensures futureClient.client.trace
              == old(futureClient.client.trace)
                 + TradeRun(futureClient.client.env, |old(futureClient.client.trace)|, symbol, side, entry, stop, target).calls
      ensures flow == TradeRun(futureClient.client.env, |old(futureClient.client.trace)|, symbol, side, entry, stop, target).flow
    {
      ghost var env := futureClient.client.env;
      ghost var before := futureClient.client.trace;
      futureClient.CancelOpenFuturesOrders(symbol);
      ghost var middle := futureClient.client.trace;
      flow := AfterCancel(symbol, side, entry, stop, target);
      TradeSplit(env, |before|, |middle|, symbol, side, entry, stop, target);
      Sequenced(before, middle, futureClient.client.trace,
                FutureClient.CancelOpenFuturesOrdersRun(env, |before|, symbol).calls,
                AfterCancelRun(env, |middle|, symbol, side, entry, stop, target).calls,
                TradeRun(env, |before|, symbol, side, entry, stop, target).calls);
    }

    /** Balance, sizing, leverage and the order, as in the trade branch after the cancels. */
    method AfterCancel(symbol: string, side: Side, entry: real, stop: real, target: real) returns (flow: Flow<()>)
      modifies futureClient.client
      ensures futureClient.client.trace
              == old(futureClient.client.trace)
                 + AfterCancelRun(futureClient.client.env, |old(futureClient.client.trace)|, symbol, side, entry, stop, target).calls
      ensures flow == AfterCancelRun(futureClient.client.env, |old(futureClient.client.trace)|, symbol, side, entry, stop, target).flow
    {
      ghost var env := futureClient.client.env;
      ghost var before := futureClient.client.trace;
      var balance := futureClient.GetAccountBalance();
      if balance.Raised? {
        return Raised(balance.failure);
      }
      ghost var t1 := futureClient.client.trace;
      var quantity := futureClient.CalculateQuantity(balance.value, entry, FutureClient.Leverage, symbol);
      if quantity.Raised? {
        return Raised(quantity.failure);
      }
      ghost var t2 := futureClient.client.trace;
      var leverage := futureClient.SetLeverage(symbol, FutureClient.Leverage);
      if leverage.Raised? {
        return Raised(leverage.failure);
      }
      ghost var middle := futureClient.client.trace;
      ghost var prefix := [FuturesAccountBalance, FuturesExchangeInfo, FuturesChangeLeverage(symbol, FutureClient.Leverage)];
      assert middle == before + prefix by {
        assert t1 == before + [FuturesAccountBalance] && t2 == t1 + [FuturesExchangeInfo];
      }
      AfterCancelPlaced(env, |before|, |middle|, symbol, side, entry, stop, target, balance.value, quantity.value);
      flow := futureClient.PlaceOrder(symbol, side, quantity.value, entry, stop, target);
      Sequenced(before, middle, futureClient.client.trace, prefix,
                FutureClient.PlaceOrderRun(env, |middle|, symbol, side, quantity.value, entry, stop, target).calls,
                AfterCancelRun(env, |before|, symbol, side, entry, stop, target).calls);
    }

    /** `handle_spot_message`; a raised flow is the error reply. */
    method HandleSpotMessage(content: string) returns (flow: Flow<()>)
      modifies spotClient.client
      ensures spotClient.client.trace
              == old(spotClient.client.trace)
                 + HandleSpotMessageRun(spotClient.client.env, |old(spotClient.client.trace)|, content).calls
      ensures flow == HandleSpotMessageRun(spotClient.client.env, |old(spotClient.client.trace)|, content).flow
    {
      match SpotParsing.ParseSpotMessage(content) {
        case Err(_) =>
          flow := Raised(ValueError);
        case Ok(sig) =>
          if sig.symbol.None? {
            flow := Returned(());
          } else {
            flow := SpotTrade(sig.symbol.value, sig);
          }
      }
    }

    /** Cancel the symbol's open orders, then buy and sell unless the cancel pass raised. */
    method SpotTrade(symbol: string, sig: SpotParsing.SpotSignal) returns (flow: Flow<()>)
      modifies spotClient.client
      ensures spotClient.client.trace
              == old(spotClient.client.trace) + SpotTradeRun(spotClient.client.env, |old(spotClient.client.trace)|, symbol, sig).calls
      ensures flow == SpotTradeRun(spotClient.client.env, |old(spotClient.client.trace)|, symbol, sig).flow
    {
      ghost var env := spotClient.client.env;
      ghost var before := spotClient.client.trace;
      var cancelled := spotClient.CancelOpenOrders(symbol);
      ghost var middle := spotClient.client.trace;
      flow := AfterSpotCancel(symbol, sig, cancelled);
      SpotTradeSplit(env, |before|, |middle|, symbol, sig);
      Sequenced(before, middle, spotClient.client.trace,
                SpotClient.CancelOpenOrdersRun(env, |before|, symbol).calls,
                AfterSpotCancelRun(env, |middle|, symbol, sig, cancelled).calls,
                SpotTradeRun(env, |before|, symbol, sig).calls);
    }

    /** The buys and the sell when the cancel pass returned; otherwise its failure, with no call. */
    method AfterSpotCancel(symbol: string, sig: SpotParsing.SpotSignal, cancelled: Flow<()>) returns (flow: Flow<()>)
      modifies spotClient.client
      ensures spotClient.client.trace
              == old(spotClient.client.trace)
                 + AfterSpotCancelRun(spotClient.client.env, |old(spotClient.client.trace)|, symbol, sig, cancelled).calls
      ensures flow == AfterSpotCancelRun(spotClient.client.env, |old(spotClient.client.trace)|, symbol, sig, cancelled).flow
    {
      if cancelled.Raised? {
        assert spotClient.client.trace == spotClient.client.trace + [];
        return cancelled;
      }
      flow := BuyThenSell(symbol, sig);
    }

    /** The entry loop, then the take-profit sell when there is a target. */
    method BuyThenSell(symbol: string, sig: SpotParsing.SpotSignal) returns (flow: Flow<()>)
      modifies spotClient.client
      ensures spotClient.client.trace
              == old(spotClient.client.trace) + BuyThenSellRun(spotClient.client.env, |old(spotClient.client.trace)|, symbol, sig).calls
      ensures flow == BuyThenSellRun(spotClient.client.env, |old(spotClient.client.trace)|, symbol, sig).flow
      ensures (forall k :: |old(spotClient.client.trace)| <= k ==> spotClient.client.env.oracle(k).None?)
              && spotClient.client.env.venue.spotFreeUsdt.Some? && Tradable(spotClient.client.env.venue.spotSymbols, symbol)
              && (forall i :: 0 <= i < |sig.entries| ==> sig.entries[i] != 0.0) ==>
                flow == Returned(())
                && spotClient.client.trace == old(spotClient.client.trace) + EntryCalls(spotClient.client.env.venue, symbol, sig.entries)
                   + (if SellsAtTarget(sig)
                      then TargetSellCalls(spotClient.client.env.venue, symbol, sig.finalTargetPrice.value) else [])
    {
      ghost var env := spotClient.client.env;
      ghost var before := spotClient.client.trace;
      flow := Entries(symbol, sig.entries);
      ghost var middle := spotClient.client.trace;
      if flow.Raised? || !SellsAtTarget(sig) {
        BuyThenSellStops(env, |before|, symbol, sig);
        BuyThenSellLive(env, |before|, symbol, sig);
        return;
      }
      BuyThenSellSells(env, |before|, |middle|, symbol, sig, EntriesRun(env, |before|, symbol, sig.entries));
      flow := TargetSell(symbol, sig.finalTargetPrice.value);
      Sequenced(before, middle, spotClient.client.trace,
                EntriesRun(env, |before|, symbol, sig.entries).calls,
                TargetSellRun(env, |middle|, symbol, sig.finalTargetPrice.value).calls,
                BuyThenSellRun(env, |before|, symbol, sig).calls);
      BuyThenSellLive(env, |before|, symbol, sig);
    }

    /** The loop over the entry prices: one sized limit buy each, until one raises. */
    method Entries(symbol: string, prices: seq<real>) returns (flow: Flow<()>)
      modifies spotClient.client
      ensures spotClient.client.trace
              == old(spotClient.client.trace) + EntriesRun(spotClient.client.env, |old(spotClient.client.trace)|, symbol, prices).calls
      ensures flow == EntriesRun(spotClient.client.env, |old(spotClient.client.trace)|, symbol, prices).flow
      ensures (forall k :: |old(spotClient.client.trace)| <= k ==> spotClient.client.env.oracle(k).None?)
              && spotClient.client.env.venue.spotFreeUsdt.Some? && Tradable(spotClient.client.env.venue.spotSymbols, symbol)
              && (forall i :: 0 <= i < |prices| ==> prices[i] != 0.0) ==>
                spotClient.client.trace == old(spotClient.client.trace) + EntryCalls(spotClient.client.env.venue, symbol, prices)
                && flow == Returned(())
    {
      ghost var env := spotClient.client.env;
      ghost var whole := EntriesRun(env, |spotClient.client.trace|, symbol, prices);
      ghost var all := spotClient.client.trace + whole.calls;
      assert prices[0..] == prices;
      var i := 0;
      while i < |prices|
        invariant 0 <= i <= |prices|
        invariant env == spotClient.client.env
        invariant all == spotClient.client.trace + EntriesRun(env, |spotClient.client.trace|, symbol, prices[i..]).calls
        invariant whole.flow == EntriesRun(env, |spotClient.client.trace|, symbol, prices[i..]).flow
      {
        ghost var before := spotClient.client.trace;
        ghost var suffix := prices[i..];
        assert suffix[0] == prices[i] && suffix[1..] == prices[i + 1..];
        var entry := Entry(symbol, prices[i]);
        if entry.Raised? {
          EntriesStop(env, |before|, symbol, suffix);
          EntriesLive(env, |old(spotClient.client.trace)|, symbol, prices);
          return entry;
        }
        ghost var head := EntryRun(env, |before|, symbol, prices[i]);
        ghost var rest := EntriesRun(env, |spotClient.client.trace|, symbol, prices[i + 1..]);
        EntriesContinue(env, |before|, |spotClient.client.trace|, symbol, suffix);
        Regroup(all, before, head.calls, rest.calls, spotClient.client.trace);
        i := i + 1;
      }
      assert prices[i..] == [];
      flow := Returned(());
      EntriesLive(env, |old(spotClient.client.trace)|, symbol, prices);
    }

    /** One pass of the entry loop: size the buy at `price`, then place it as a limit order. */
    method Entry(symbol: string, price: real) returns (flow: Flow<()>)
      modifies spotClient.client
      ensures spotClient.client.trace
              == old(spotClient.client.trace) + EntryRun(spotClient.client.env, |old(spotClient.client.trace)|, symbol, price).calls
      ensures flow == EntryRun(spotClient.client.env, |old(spotClient.client.trace)|, symbol, price).flow
      ensures var n := |old(spotClient.client.trace)|;
              (forall k :: n <= k < n + 4 ==> spotClient.client.env.oracle(k).None?)
              && spotClient.client.env.venue.spotFreeUsdt.Some? && price != 0.0
              && Tradable(spotClient.client.env.venue.spotSymbols, symbol) ==>
                spotClient.client.trace == old(spotClient.client.trace)
                  + [SpotAssetBalance, SpotSymbolInfo(symbol), SpotSymbolInfo(symbol), EntryBuy(spotClient.client.env.venue, symbol, price)]
                && flow == Returned(())
    {
      ghost var env := spotClient.client.env;
      ghost var before := spotClient.client.trace;
      ghost var n := |before|;
      if (forall k :: n <= k < n + 4 ==> env.oracle(k).None?)
         && env.venue.spotFreeUsdt.Some? && price != 0.0 && Tradable(env.venue.spotSymbols, symbol) {
        assert env.oracle(n).None? && env.oracle(n + 1).None? && env.oracle(n + 2).None? && env.oracle(n + 3).None?;
        EntryBuys(env, n, symbol, price);
      }
      var quantity := spotClient.CalculateQuantity(symbol, price, 1);
      if quantity.Raised? {
        return Raised(quantity.failure);
      }
      ghost var middle := spotClient.client.trace;
      EntryPlaced(env, |before|, |middle|, symbol, price, quantity.value);
      var placed := spotClient.PlaceSpotOrder(symbol, price, quantity.value, SpotClient.LimitOrder);
      flow := if placed.Raised? then Raised(placed.failure) else Returned(());
      Sequenced(before, middle, spotClient.client.trace, SpotClient.CalculateQuantityRun(env, |before|, symbol, price, 1).calls,
                SpotClient.PlaceSpotOrderRun(env, |middle|, symbol, price, quantity.value, SpotClient.LimitOrder).calls,
                EntryRun(env, |before|, symbol, price).calls);
    }

    /** The take-profit step: size at the target, then one limit sell there. */
    method TargetSell(symbol: string, target: real) returns (flow: Flow<()>)
      modifies spotClient.client
      ensures spotClient.client.trace
              == old(spotClient.client.trace) + TargetSellRun(spotClient.client.env, |old(spotClient.client.trace)|, symbol, target).calls
      ensures flow == TargetSellRun(spotClient.client.env, |old(spotClient.client.trace)|, symbol, target).flow
      ensures var n := |old(spotClient.client.trace)|;
              spotClient.client.env.oracle(n).None? && spotClient.client.env.oracle(n + 1).None?
              && spotClient.client.env.venue.spotFreeUsdt.Some? && target != 0.0
              && SpotClient.Sizable(spotClient.client.env.venue.spotSymbols, symbol) ==>
                spotClient.client.trace == old(spotClient.client.trace) + TargetSellCalls(spotClient.client.env.venue, symbol, target)
                && (flow.Raised? <==> spotClient.client.env.oracle(n + 2).Some? && spotClient.client.env.oracle(n + 2).value != ApiError)
    {
      ghost var n := |spotClient.client.trace|;
      if spotClient.client.env.oracle(n).None? && spotClient.client.env.oracle(n + 1).None?
         && spotClient.client.env.venue.spotFreeUsdt.Some? && target != 0.0
         && SpotClient.Sizable(spotClient.client.env.venue.spotSymbols, symbol) {
        TargetSellSells(spotClient.client.env, n, symbol, target);
      }
      var quantity := spotClient.CalculateQuantity(symbol, target, 1);
      if quantity.Raised? {
        return Raised(quantity.failure);
      }
      var sold := spotClient.CloseOrderAtProfit(symbol, quantity.value, target);
      flow := if sold.Raised? then Raised(sold.failure) else Returned(());
    }
  }
}
