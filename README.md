# Discord trading bot — signal-to-order engine

This is a Dafny model of the part of the bot that turns a Discord message into exchange requests.

- **Routing.** `on_message` routes a `$`-prefixed message. It goes to the futures handler when it mentions `LONG` or `SHORT`, and to the spot handler otherwise.
- **Parsing.** Two regex parsers turn the text into a signal:
  - a futures trade signal, a `Close Order` command or a `Change Stoploss` command;
  - a spot signal with optional symbol, entry prices, stop loss and final target.
- **Clients.** The futures and spot clients turn a signal into Binance requests:
  - they cancel the symbol's open orders;
  - they read balances and symbol filters;
  - they size the position;
  - they place the entry order(s) and the protective or take-profit orders.

Modules, one file each:

| module | file | models |
|---|---|---|
| `Text` | text.dfy | character classes and runs behind the regex patterns, upper-casing, and `float()` of a `[\d.]+` capture |
| `Decimals` | decimals.dfy | exact decimals (`Decimal` of an exchange string), floor, ceil, truncation, `//`-trimming and round-half-even |
| `FutureParsing` | future_parsing.dfy | `parse_future_message` |
| `SpotParsing` | spot_parsing.dfy | `parse_spot_message` |
| `Exchange` | exchange.dfy | the exchange the clients talk to, as a `Gateway` object with a trace |
| `FutureClient` | future_client.dfy | `FutureClient` |
| `SpotClient` | spot_client.dfy | `SpotClient` |
| `DiscordBot` | discord_bot.dfy | `MyBot.on_message` and the two handlers |

**The exchange.**
- Every SDK call a client makes becomes one `Request`, appended to the `trace` of a `Gateway` object.
- Whether the k-th call fails, and with which exception, is decided by an oracle `nat -> Option<Failure>` in the gateway's environment.
- What the read calls answer is a fixed `Venue` snapshot: balances, symbols with their filters, open orders and positions.

**How the operations are stated.** Each client operation is written twice:
- as an imperative `method` on the client class, which calls the gateway;
- as a function `…Run(env, n, …)`, which gives the requests it issues and how it ends, starting at oracle index `n`. It ends either `Returned(value)` or `Raised(failure)`.

Each method's postcondition ties the gateway's new trace and its result to that function. The properties of the functions are proved as lemmas. The loops over open orders and open positions are `while` loops with invariants.

Behaviours of the code that the model keeps:
- For `Close Order` and `Change Stoploss`, `parse_future_message` returns no symbol (core_parsing/future_parsing.py:29, :33).
- The stop-loss command's price travels in the entry-price slot (core_parsing/future_parsing.py:33).
- The handler passes the symbol slot and the stop-loss slot, both empty (demo/discord_bot.py:59, :64).
- So neither command matches a position, and only the position read is made. `DiscordBot.CommandsPlaceNothing` proves this.
- The futures quantity is rounded to as many decimal places as the step size has coefficient digits, as the code does (core_future/future.py:68-72). The client and the handler size with this rule. The sizing with the step's fractional digits appears only as the corrected half of the finding below.

## Model

| member | source | states |
|---|---|---|
| Text.WordRun | core_parsing/future_parsing.py:12 | the `\w+` run at an index: every character in it is a word character and the next one is not |
| Text.DigitRun | core_parsing/spot_parsing.py:7 | the `\d+` run at an index is maximal: all digits, followed by a non-digit or the end |
| Text.NumeralRun | core_parsing/future_parsing.py:14 | the greedy `[\d.]+` run at an index is maximal |
| Text.LineEnd | core_parsing/spot_parsing.py:8 | `.*` stops at the first newline: no newline before the returned index, and a newline or the end at it |
| Text.Upper | core_parsing/future_parsing.py:38 | `.upper()` on ASCII: same length, lower-case letters shifted to upper case, everything else kept |
| Text.FirstDot | core_parsing/future_parsing.py:40 | the first `.` of a capture, or none when it has no dot |
| Text.DigitsBound | core_parsing/future_parsing.py:40 | a run of k digits reads as an integer below 10^k |
| Text.DigitsAppend | core_parsing/future_parsing.py:40 | reading `a + b` as digits is reading `a`, shifted left by the length of `b`, plus reading `b` |
| Text.DotCountNone | core_parsing/future_parsing.py:40 | a capture without a `.` counts no dots |
| Text.DotCountSome | core_parsing/future_parsing.py:40 | a capture with a `.` counts at least one, so `DotCount` is zero exactly when there is no dot |
| Text.DotCountSplit | core_parsing/future_parsing.py:40 | the dots of a capture are its first dot plus those after it, which decides the at-most-one-dot condition of `float()` |
| Text.Digits | core_parsing/future_parsing.py:40 | the digits of a capture with its dots removed: all digits, one fewer character per dot |
| Text.FractionLength | core_parsing/future_parsing.py:40 | the number of digits after the dot: zero without a dot, and shorter than the capture |
| Text.DecimalNumeral | core_parsing/future_parsing.py:40-42 | `float()` of a capture with a dot: succeeds exactly when there is no second dot and some digit; the value is the whole part plus the fraction |
| Text.DecimalExample | core_parsing/future_parsing.py:40 | `float("0.9")` is 0.9 |
| Text.WholeExample | core_parsing/future_parsing.py:41 | `float("49000")` is 49000.0 |
| Text.MalformedExamples | core_parsing/future_parsing.py:48-49 | `float("1.2.3")` and `float(".")` fail |
| Text.ParseAll | core_parsing/future_parsing.py:40 | the list comprehension of `float()`: succeeds exactly when every capture converts, element by element, in order |
| Text.ParseNumeral | core_parsing/future_parsing.py:40-42 | `float()` of a `[\d.]+` capture succeeds exactly when it has at most one dot and at least one digit; its value is the number written: the digits read as an integer, divided by ten to the number of digits after the dot |
| Text.WordAt | core_parsing/spot_parsing.py:5-6 | the `(\w+)` group after `$` holds only word characters |
| Decimals.Dec.Value | core_future/future.py:67 | a `Decimal` parsed from an exchange string has a non-negative value |
| Decimals.Dec.DigitCount | core_future/future.py:68 | `len(d.as_tuple()[1])`: a decimal has at least one coefficient digit |
| Decimals.UnitsPositive | core_future/future.py:67 | a positive step size counts at least one unit of its last decimal place |
| Decimals.ValueInUnits | core_future/future.py:67 | a decimal is its count of units times ten to the minus its fractional digits |
| Decimals.Floor | core_spot/spot.py:65 | `math.floor`: the greatest integer not above x |
| Decimals.Ceil | core_spot/spot.py:68 | `math.ceil`: the least integer not below x |
| Decimals.Trunc | core_future/future.py:51 | `Decimal //` truncates the quotient toward zero, for either sign |
| Decimals.Trim | core_future/future.py:47-57 | `(x // s) * s` is a multiple of `s`, and lies within one step of `x` on the side of zero |
| Decimals.TrimMonotone | core_future/future.py:47-51 | trimming keeps the order of two non-negative quantities |
| Decimals.TrimMultiple | core_future/future.py:47-51 | trimming a quantity already on the grid leaves it unchanged |
| Decimals.TrimIsLargest | core_future/future.py:47-51 | the trimmed quantity is the largest multiple of the step at or below `x`: no grid point between it and `x` |
| Decimals.TrimTwice | core_future/future.py:68-77 | trimming to a unit and then to a whole multiple of that unit equals trimming to the multiple directly |
| Decimals.TrimByUnits | core_future/future.py:68-77 | trimming to a step counted in units of its last decimal place is the floor of the unit count divided by the step's units |
| Decimals.RoundDownPlaces | core_future/future.py:70-72 | `quantize(Decimal('.000…'), rounding=ROUND_DOWN)` on a non-negative value: a multiple of 10^-p, at most the value and within 10^-p of it |
| Decimals.RoundHalfEven | core_spot/spot.py:30 | Python's `round()`: within one half of x, and an exact half goes to the even integer |
| Decimals.RoundIsNearest | core_spot/spot.py:30 | no integer is nearer to x than `round(x)` |
| Decimals.NearestTick | core_spot/spot.py:30 | `round(p / t) * t` is within half a tick of `p` |
| FutureParsing.Search | core_parsing/future_parsing.py:20-26 | `re.search`: the leftmost index from `i` where the pattern matches; no match before it; none at all when it is `None` |
| FutureParsing.TickerAt | core_parsing/future_parsing.py:38 | the ticker is the `\w+` word after `$`, upper-cased, followed by `USDT` |
| FutureParsing.Capture | core_parsing/future_parsing.py:14-18 | the `([\d.]+)` group of a match is non-empty and holds only digits and dots |
| FutureParsing.EntryCaptures | core_parsing/future_parsing.py:22 | `re.findall` of the entry pattern: empty exactly when there is no match; otherwise it starts with the leftmost match's capture |
| FutureParsing.ParseFutureMessage | core_parsing/future_parsing.py:6-49 | a close phrase anywhere wins; otherwise a change phrase gives a stop-loss change, and only a change phrase does, with its price in the entry slot and every other slot empty; with neither phrase the result is exactly the trade-signal parse, which fills every slot |
| FutureParsing.ParseTradeSignal | core_parsing/future_parsing.py:35-46 | a parsed trade signal is a TRADE_SIGNAL with all five slots filled |
| FutureParsing.TradeFields | core_parsing/future_parsing.py:38-46 | once every pattern has matched: the fields are read exactly when every entry, the stop loss and the target convert, and then carry the upper-cased ticker, the side, the first entry, the stop loss and the target; otherwise the numeral is malformed |
| FutureParsing.ParseTradeSignalAccepted | core_parsing/future_parsing.py:35-46 | with all five patterns present at their leftmost matches, the message is accepted exactly when every entry, the stop loss and the target convert; the signal then carries the leftmost symbol, side and prices; otherwise the error is a malformed numeral |
| FutureParsing.ChangeStopLossPrice | core_parsing/future_parsing.py:31-33 | with no close phrase, the leftmost change phrase decides: a malformed price is an error, and otherwise the result is the stop-loss change carrying that price |
| FutureParsing.ParseTradeSignalMissing | core_parsing/future_parsing.py:35-36 | a message lacking any of symbol, side, entry, stop loss or target is rejected as incorrect |
| FutureParsing.ParseTradeSignalMalformed | core_parsing/future_parsing.py:40 | one malformed entry numeral anywhere in the message, not only the first, makes the parse fail |
| FutureParsing.TradeSignalSymbol | core_parsing/future_parsing.py:38 | the symbol comes from the leftmost `$word`, upper-cased with `USDT` |
| FutureParsing.TradeSignalSide | core_parsing/future_parsing.py:39 | the side is BUY when the leftmost LONG/SHORT is LONG, SELL otherwise |
| FutureParsing.TradeSignalEntry | core_parsing/future_parsing.py:40-44 | the entry price is the first entry match's numeral |
| FutureParsing.TradeSignalStopLoss | core_parsing/future_parsing.py:41 | the stop loss is the price of the leftmost stop-loss match |
| FutureParsing.TradeSignalTarget | core_parsing/future_parsing.py:42 | the target is the price of the leftmost target match |
| FutureParsing.SymbolSample | core_parsing/future_parsing.py:12 | `$btc` names `BTCUSDT`; a space after `$` is no symbol |
| FutureParsing.SideSample | core_parsing/future_parsing.py:13 | `LONG` and `SHORT` match, `LON` does not |
| FutureParsing.EntrySample | core_parsing/future_parsing.py:14 | `Entry 1 = $0.9` captures `0.9`; a two-digit entry number does not match |
| FutureParsing.StopLossSample | core_parsing/future_parsing.py:15 | `Stoploss: 4H Close Below $48` captures `48`; a `1H` close does not match |
| FutureParsing.TargetSample | core_parsing/future_parsing.py:16 | `Target: $52` captures `52`; without the `$` there is no match |
| FutureParsing.CloseOrderSample | core_parsing/future_parsing.py:17 | `Close Order` matches; `CloseOrder` does not |
| FutureParsing.ChangeStopLossSample | core_parsing/future_parsing.py:18 | `Change Stoploss = $7` captures `7`; without the `=` there is no match |
| SpotParsing.LastBelow | core_parsing/spot_parsing.py:8 | the greedy `.*` backtracks to the rightmost `Below $p` on the line |
| SpotParsing.Search | core_parsing/spot_parsing.py:5-10 | `re.search`: the leftmost match from `i`, and no match when `None` |
| SpotParsing.CaptureStart | core_parsing/spot_parsing.py:7-10 | the capture of a numeric pattern starts on a digit or dot |
| SpotParsing.Capture | core_parsing/spot_parsing.py:7-10 | the `([\d.]+)` group is non-empty and holds only digits and dots |
| SpotParsing.EntryCaptures | core_parsing/spot_parsing.py:7 | `re.findall` of `Entry \d+ = $`: empty exactly when no entry matches; otherwise it starts with the leftmost capture |
| SpotParsing.OptionalPrice | core_parsing/spot_parsing.py:8-11 | `None` exactly when the pattern never matches; otherwise the `float()` of the leftmost capture; an error exactly when that capture is malformed |
| SpotParsing.ParseSpotMessage | core_parsing/spot_parsing.py:4-17 | fails exactly when the leftmost stop-loss or final-target capture, or any entry capture, is malformed; a message with none of the numeric phrases always parses |
| SpotParsing.SpotSymbol | core_parsing/spot_parsing.py:5-6 | the symbol is the leftmost `$word`, not upper-cased, with `USDT` appended |
| SpotParsing.SpotOptionalFields | core_parsing/spot_parsing.py:5-11 | symbol, stop loss and final target are absent exactly when their pattern never matches; a present stop loss or final target is the number of the leftmost match |
| SpotParsing.SpotEntries | core_parsing/spot_parsing.py:7-14 | one entry price per entry match, in order, each the `float()` of its capture |
| SpotParsing.EntrySample | core_parsing/spot_parsing.py:7 | `Entry 12 = $5` captures `5`; without an entry number there is no match |
| SpotParsing.StopLossSample | core_parsing/spot_parsing.py:8 | `Stoploss:Below $1Below $2` captures `2`, the last `Below $` on the line; a newline before `Below` is no match |
| SpotParsing.LastBelowSample | core_parsing/spot_parsing.py:8 | on `Stoploss:Below $1Below $2` the line runs to the end and the rightmost `Below $` is at index 17 |
| SpotParsing.FinalTargetSample | core_parsing/spot_parsing.py:10 | `Final Target: $3` captures `3`; `Target: $3` alone does not match |
| Exchange.Opposite | core_future/future.py:131 | the protective side differs from the entry side |
| Exchange.FirstFilter | core_future/future.py:65 | `next((f for f in filters if …), None)`: the first filter of the kind, or `None` when there is none |
| Exchange.FindSymbol | core_future/future.py:37-45 | the first symbol entry with that name, or `None` when none has it |
| Exchange.OrdersFor | core_future/future.py:161 | the open orders listed for a symbol are venue orders on that symbol, and no more of them than the venue holds |
| Exchange.OrdersForFilters | core_future/future.py:161 | every listed order is on the symbol, and every order of the symbol is listed |
| Exchange.CancelsThenOrders | demo/discord_bot.py:68-84 | a run that places nothing, followed by one that cancels nothing, has every cancel before every order |
| Exchange.AttemptEach | core_future/future.py:162-163 | issuing requests until the first raises issues at least one request for a non-empty list, at most all of them, and none for an empty one |
| Exchange.AttemptEachPrefix | core_future/future.py:160-166 | the issued requests are a prefix of the list; every call before the last went through; the run returns exactly when no call fails, and then all were issued; a raised failure is the last call's |
| Exchange.Gateway.constructor | core_future/future.py:15-19 | a fresh client over an environment has issued nothing |
| Exchange.Gateway.Call | core_future/future.py:25 | one SDK call appends its request to the trace and fails as the oracle says for that index |
| FutureClient.FirstBalance | core_future/future.py:25-29 | the balance of the first `USDT` entry, or none when no entry names it |
| FutureClient.GetAccountBalanceRun | core_future/future.py:21-29 | one balance read; raises exactly when the call fails; otherwise the first `USDT` balance, or 0.0 when there is none |
| FutureClient.SetLeverageRun | core_future/future.py:31-35 | one leverage change for the symbol; raises exactly when the call fails |
| FutureClient.GetSymbolInfoRun | core_future/future.py:37-45 | one exchange-info read; raises exactly when it fails; otherwise the symbol's entry or `None` |
| FutureClient.RawQuantity | core_future/future.py:70-71 | balance × 5% × leverage / entry is non-negative for non-negative inputs |
| FutureClient.SizeQuantity | core_future/future.py:67-77 | raises exactly when the entry price or the step is zero; otherwise a whole number of steps, at least `minQty` when `minQty` is on the grid, and, for non-negative inputs and a positive entry, at most the larger of `minQty` and the raw quantity, and less than one step plus one rounding unit below the raw quantity |
| FutureClient.FuturesQuantityAsWritten | core_future/future.py:67-77 | sizing as written, with the number of coefficient digits as precision: raises exactly when the entry price or the step is zero; otherwise on the step grid, at least `minQty` when that is on the grid, and, for non-negative inputs and a positive entry, at most the larger of `minQty` and the raw quantity, and less than one step plus one rounding unit below the raw quantity (the unit being 10 to the minus number of coefficient digits) |
| FutureClient.FuturesQuantity | core_future/future.py:67-77 | sizing with the step's fractional digits as precision: on the grid, and at least `minQty` when that is on the grid |
| FutureClient.FuturesQuantityIsTrimmedRaw | core_future/future.py:67-77 | the corrected sizing is `max(minQty, raw // step * step)`: the largest whole number of steps within the risk budget, raised to the minimum |
| FutureClient.StepTrimsGrid | core_future/future.py:68-77 | rounding down to the step's own decimal places loses no grid point before the trim |
| FutureClient.TrimOfMax | core_future/future.py:75-77 | trimming `max(minQty, q)` with `minQty` on the grid equals `max(minQty, trim(q))` |
| FutureClient.AsWrittenAgreesWhenPrecise | core_future/future.py:67-77 | when the step has at least as many coefficient digits as decimal places (`1.00`, `0.100`), the sizing as written equals the corrected sizing |
| FutureClient.StepTrimsGridAt | core_future/future.py:70-77 | rounding down to any precision at least the step's own decimal places, then trimming to the step, is trimming to the step |
| FutureClient.AsWrittenDropsSteps | core_future/future.py:68-72 | for step and `minQty` `0.001`, balance 1000, entry 50000 and leverage 5, the code sizes 0.001 where the corrected sizing gives 0.005 |
| FutureClient.LotSizeOf | core_future/future.py:63-65 | the LOT_SIZE filter of the symbol, when both exist |
| Exchange.TickSizeOf | core_future/future.py:98-108 | the PRICE_FILTER tick of the symbol, when both exist; never negative |
| FutureClient.CalculateQuantityRun | core_future/future.py:59-78 | one exchange-info call; a failed call raises; 0.0 without the symbol or its LOT_SIZE; past a successful call with a LOT_SIZE, it raises exactly when the entry or the step is zero; a returned quantity is a whole number of steps, at least `minQty` when that is on the grid, and, for a non-negative balance and leverage and a positive entry, at most the larger of `minQty` and the raw quantity and less than one step plus one rounding unit below it |
| FutureClient.ProtectiveOrders | core_future/future.py:125-154 | two legs on the opposite side for the same quantity: a STOP_MARKET at the stop, then a GTC LIMIT at the target |
| FutureClient.PlaceOrderRun | core_future/future.py:80-154 | the account is read first; when the estimated cost exceeds the available margin nothing else is asked |
| FutureClient.PlaceOrderNothingPlaced | core_future/future.py:98-110 | no order without the symbol's PRICE_FILTER, and none when something raised |
| FutureClient.PlaceOrderEntrySent | core_future/future.py:85-123 | when the account read succeeds, the cost fits the margin and the symbol read succeeds: no PRICE_FILTER ends after the two reads; a zero tick raises an arithmetic error before any order; a non-zero tick sends the MARKET entry for the full quantity as the third call, and the call returns |
| FutureClient.PlaceOrderEntryFirst | core_future/future.py:85-123 | any order comes after the account and symbol reads, passed the margin check, and begins with the MARKET entry for the full quantity |
| FutureClient.PlaceOrderProtectiveLegs | core_future/future.py:112-154 | the protective legs are sent exactly when the entry went through; then both are sent at tick-trimmed prices, whatever happens to the first, and the call returns |
| FutureClient.PlaceOrderNeverCancels | core_future/future.py:80-154 | placing an order cancels nothing |
| FutureClient.CancelRequests | core_future/future.py:162-163 | one cancel per listed order, by its id, in listed order |
| FutureClient.CancelOpenFuturesOrdersRun | core_future/future.py:156-166 | cancelling starts with the open-orders read and never raises |
| FutureClient.CancelOpenFuturesOrdersCancels | core_future/future.py:156-166 | the cancel pass places nothing; its cancels are a prefix of the listing, in order; when no call fails every listed order is cancelled |
| FutureClient.Offset | core_future/future.py:175-177 | the offsetting order is on the position's symbol, non-negative, and its signed quantity cancels the position amount |
| FutureClient.PositionOrders | core_future/future.py:174-182 | one order per open position of the symbol, each for a positive quantity of the given type; none exactly when no position of the symbol is open |
| FutureClient.PositionOrdersFlatten | core_future/future.py:168-186 | filling every offsetting order brings the symbol's net position to zero |
| FutureClient.PositionOrdersRun | core_future/future.py:168-207 | never raises and never cancels; the position read comes first, then a prefix of the offsetting orders; all of them when no call fails; only the read when the symbol is `None` |
| FutureClient.FutureClient.constructor | core_future/future.py:15-19 | the client issues requests through the gateway it is given |
| FutureClient.FutureClient.GetAccountBalance | core_future/future.py:21-29 | the new trace and the result are those of `GetAccountBalanceRun` |
| FutureClient.FutureClient.SetLeverage | core_future/future.py:31-35 | the new trace and the result are those of `SetLeverageRun` |
| FutureClient.FutureClient.GetSymbolInfo | core_future/future.py:37-45 | the new trace and the result are those of `GetSymbolInfoRun` |
| FutureClient.FutureClient.CalculateQuantity | core_future/future.py:59-78 | the new trace and the result are those of `CalculateQuantityRun`, whose contract bounds the returned quantity between the raw quantity less one step and one rounding unit, and the larger of `minQty` and the raw quantity |
| FutureClient.FutureClient.PlaceOrder | core_future/future.py:80-154 | the new trace and the result are those of `PlaceOrderRun` |
| FutureClient.FutureClient.CancelOpenFuturesOrders | core_future/future.py:156-166 | the new trace is that of `CancelOpenFuturesOrdersRun` |
| FutureClient.FutureClient.CancelEach | core_future/future.py:162-163 | the loop issues the cancels until the first failure, as `AttemptEach` |
| FutureClient.FutureClient.OffsetPositions | core_future/future.py:168-207 | the new trace is that of `PositionOrdersRun` |
| FutureClient.FutureClient.OffsetEach | core_future/future.py:174-182 | the loop issues one offsetting order per open position until the first failure |
| FutureClient.FutureClient.CloseOrderInProfit | core_future/future.py:168-186 | closing sends MARKET offsetting orders as `PositionOrdersRun` |
| FutureClient.FutureClient.ChangeStopLoss | core_future/future.py:188-207 | the stop-loss change sends STOP_MARKET offsetting orders at the new stop, as `PositionOrdersRun` |
| SpotClient.GetUsdtBalanceRun | core_spot/spot.py:18-21 | one asset-balance read; a failed call raises; a missing asset entry is a type error; otherwise the free balance |
| SpotClient.AdjustedPrice | core_spot/spot.py:30 | the adjusted price is on the tick grid and within half a tick of the price |
| SpotClient.AdjustedPriceIsNearest | core_spot/spot.py:30 | no tick is nearer to the price than the adjusted one |
| SpotClient.SpotBuy | core_spot/spot.py:34-44 | a LIMIT order type is a limit buy at the adjusted price; a MARKET type is a market buy |
| SpotClient.PlaceSpotOrderRun | core_spot/spot.py:23-51 | the symbol lookup comes first; at most one buy follows, of the symbol, limit exactly when LIMIT was asked |
| SpotClient.PlaceSpotOrderOutcome | core_spot/spot.py:23-51 | a failed lookup raises; a missing symbol is a type error; no PRICE_FILTER is no order (`None`), after the lookup alone; when two calls were made, the second is the buy at the price moved to the nearest tick of a positive tick size; `True` exactly when two calls were made and the second went through |
| SpotClient.PlaceSpotOrderBuys | core_spot/spot.py:26-48 | after a successful lookup, a zero tick raises an arithmetic error with no order; a non-zero tick sends exactly the lookup and one buy at the price moved to the nearest tick, which returns `True` unless the buy itself fails |
| SpotClient.FloorToStep | core_spot/spot.py:65 | the greatest multiple of the step at or below the quantity |
| SpotClient.UpToMinimum | core_spot/spot.py:67-68 | the fewest steps whose value at the price reaches the minimum notional |
| SpotClient.DownToMaximum | core_spot/spot.py:69-70 | the most steps whose value at the price stays within the maximum notional |
| SpotClient.SpotQuantity | core_spot/spot.py:65-70 | fails exactly when the step is zero; otherwise a whole number of steps |
| SpotClient.SpotQuantityReachesMinimum | core_spot/spot.py:67-68 | a floored quantity below the minimum notional becomes the fewest steps that reach it |
| SpotClient.SpotQuantityWithinMaximum | core_spot/spot.py:69-70 | a floored quantity above the maximum notional becomes the most steps within it |
| SpotClient.SpotQuantityKeepsFloor | core_spot/spot.py:65-70 | a floored quantity within both bounds is kept: the greatest whole number of steps at or below the raw quantity |
| SpotClient.InitialQuantity | core_spot/spot.py:56-57 | balance × 5% × leverage / price is non-negative for non-negative inputs |
| SpotClient.CalculateQuantityRun | core_spot/spot.py:53-72 | the balance read, then the symbol lookup exactly when the balance read returned and the price is non-zero; it never places an order |
| SpotClient.CalculateQuantityOutcome | core_spot/spot.py:53-72 | a failed balance read or a zero price ends it early; a returned quantity requires the symbol with both LOT_SIZE and NOTIONAL, and lies on the LOT_SIZE grid |
| SpotClient.CalculateQuantityReturns | core_spot/spot.py:53-72 | it returns exactly when both reads succeed, the balance is there, the price is non-zero and the symbol has a LOT_SIZE of non-zero step and a NOTIONAL filter; it then returns the notional-bounded quantity on the step grid after the balance read and the lookup |
| SpotClient.SizeFromFilters | core_spot/spot.py:59-64 | a missing LOT_SIZE or NOTIONAL is `StopIteration`, and only that; otherwise the result is on the LOT_SIZE grid |
| SpotClient.Swallow | core_spot/spot.py:81-82 | a Binance API exception is swallowed, and every other failure propagates unchanged |
| SpotClient.SpotCancelRequests | core_spot/spot.py:78-79 | one cancel per listed order, by its id, in listed order |
| SpotClient.CancelOpenOrdersRun | core_spot/spot.py:74-82 | cancelling starts with the open-orders read |
| SpotClient.CancelOpenOrdersFollowListing | core_spot/spot.py:77-79 | the cancel pass places nothing, and its cancels are a prefix of the listing, in order |
| SpotClient.CancelOpenOrdersOutcome | core_spot/spot.py:74-82 | only the last call can have failed; the pass raises exactly when it failed with something other than an API exception; with no failure every listed order is cancelled |
| SpotClient.CloseOrderAtProfitRun | core_spot/spot.py:84-95 | one limit sell; placed exactly when it goes through; an API exception is no order; anything else propagates |
| SpotClient.SpotClient.constructor | core_spot/spot.py:12-16 | the client issues requests through the gateway it is given |
| SpotClient.SpotClient.GetUsdtBalance | core_spot/spot.py:18-21 | the new trace and the result are those of `GetUsdtBalanceRun` |
| SpotClient.SpotClient.PlaceSpotOrder | core_spot/spot.py:23-51 | the new trace and the result are those of `PlaceSpotOrderRun`; after a successful lookup with a non-zero tick, the trace grows by the lookup and the one buy at the adjusted price |
| SpotClient.SpotClient.CalculateQuantity | core_spot/spot.py:53-72 | the new trace and the result are those of `CalculateQuantityRun`; it returns exactly when both reads succeed, the balance is there, the price is non-zero and the symbol can be sized, and then returns the sized quantity |
| SpotClient.SpotClient.CancelOpenOrders | core_spot/spot.py:74-82 | the new trace and the result are those of `CancelOpenOrdersRun` |
| SpotClient.SpotClient.CancelEach | core_spot/spot.py:78-79 | the loop issues the cancels until the first failure, as `AttemptEach` |
| SpotClient.SpotClient.CloseOrderAtProfit | core_spot/spot.py:84-95 | the new trace and the result are those of `CloseOrderAtProfitRun` |
| DiscordBot.RouteMessage | demo/discord_bot.py:41-49 | the bot's own messages and messages not starting with `$` are ignored; the rest go to the futures handler exactly when they mention LONG or SHORT, and to the spot handler otherwise |
| DiscordBot.AfterCancelRun | demo/discord_bot.py:71-84 | after the cancels the balance read comes first |
| DiscordBot.AfterCancelPlaced | demo/discord_bot.py:74-84 | when the balance, the sizing and the leverage all return, the trade is those three calls and then the order placement with the sized quantity |
| DiscordBot.AfterCancelOrders | demo/discord_bot.py:74-84 | after the cancels nothing is cancelled, and any order follows the balance read, the sizing and the leverage change for the symbol |
| DiscordBot.HandleFutureMessageRun | demo/discord_bot.py:53-90 | a message that does not parse makes no call and ends in the error reply |
| DiscordBot.CommandsPlaceNothing | demo/discord_bot.py:57-65 | a close or stop-loss command makes only the position read, and never places an order |
| DiscordBot.TradeRun | demo/discord_bot.py:67-84 | a futures trade starts with the open-orders read, and the balance read always follows, since cancelling never raises |
| DiscordBot.TradeCancelsBeforeOrders | demo/discord_bot.py:67-84 | in a futures trade every cancel comes before every order |
| DiscordBot.EntriesOnlyBuy | demo/discord_bot.py:103-106 | the entry loop cancels nothing, and every order it places is a limit buy of the message's symbol |
| DiscordBot.EntriesRun | demo/discord_bot.py:103-106 | the entry loop makes at most four calls per price, and at least one per price when it returned; no price, no call |
| DiscordBot.EntryCalls | demo/discord_bot.py:103-106 | the calls of a loop in which nothing fails: four per price |
| DiscordBot.EntryCallsBlocks | demo/discord_bot.py:103-106 | the i-th block of four is the balance read, the two lookups of the symbol and the limit buy of the sized quantity at the i-th price moved to the nearest tick |
| DiscordBot.EntryBuys | demo/discord_bot.py:104-105 | when none of its four calls fails, the balance is there, the price is non-zero and the symbol is sizable with a non-zero tick, one entry is the three reads and the limit buy, and it returns |
| DiscordBot.EntriesBuy | demo/discord_bot.py:103-106 | when no call fails, the balance is there, the symbol is sizable with a non-zero tick and no price is zero, the loop's calls are exactly those blocks, one limit buy per price, in order, and it returns |
| DiscordBot.EntryRun | demo/discord_bot.py:104-105 | one entry makes one to four calls |
| DiscordBot.EntryOnlyBuys | demo/discord_bot.py:104-105 | one entry cancels nothing, and its only order is a limit buy of the symbol |
| DiscordBot.TargetSellSells | demo/discord_bot.py:108-113 | when both reads succeed, the balance is there, the target is non-zero and the symbol is sizable, the step is the balance read, the lookup and the limit sell of the quantity sized at the target; it raises exactly when the sell fails with something other than an exchange refusal |
| DiscordBot.TargetSellRun | demo/discord_bot.py:108-114 | the take-profit step cancels nothing, and its only order, the last call, is a limit sell of the symbol at the target |
| DiscordBot.HandleSpotMessageRun | demo/discord_bot.py:92-118 | an unparsable message makes no call and ends in the error reply; a message without a symbol does nothing |
| DiscordBot.SpotTradeRun | demo/discord_bot.py:100-114 | a spot trade starts with the open-orders read, and after the cancel pass makes at most four calls per entry plus three |
| DiscordBot.AfterSpotCancelRun | demo/discord_bot.py:100-114 | a cancel pass that raised ends the handler with no further call |
| DiscordBot.BuyThenSellRun | demo/discord_bot.py:103-114 | without a non-zero final target only limit buys of the symbol are placed; with one, a run that returned ends on the limit sell at that target; at most four calls per entry plus three |
| DiscordBot.BuyThenSellPlaces | demo/discord_bot.py:103-113 | when no call fails, the balance is there, the symbol is sizable with a non-zero tick and no entry price is zero, the handler places one limit buy per entry in order, then, exactly when a non-zero target is set, the limit sell of the quantity sized at the target, and returns |
| DiscordBot.AfterSpotCancelCancelsNothing | demo/discord_bot.py:103-114 | after the cancel pass the spot handler cancels nothing |
| DiscordBot.SpotCancelsBeforeOrders | demo/discord_bot.py:100-114 | in a spot trade every cancel comes before every order |
| DiscordBot.MyBot.constructor | demo/discord_bot.py:19-22 | the bot owns a futures and a spot client on separate gateways, both with empty traces |
| DiscordBot.MyBot.OnMessage | demo/discord_bot.py:41-51 | the routed handler's calls go to its own gateway and the other gateway is unchanged; an ignored message changes nothing |
| DiscordBot.MyBot.HandleFutureMessage | demo/discord_bot.py:53-90 | the new futures trace and the result are those of `HandleFutureMessageRun` |
| DiscordBot.MyBot.Trade | demo/discord_bot.py:67-86 | the new futures trace and the result are those of the trade sequence |
| DiscordBot.MyBot.AfterCancel | demo/discord_bot.py:71-84 | the new futures trace and the result are those of `AfterCancelRun` |
| DiscordBot.MyBot.HandleSpotMessage | demo/discord_bot.py:92-118 | the new spot trace and the result are those of `HandleSpotMessageRun` |
| DiscordBot.MyBot.SpotTrade | demo/discord_bot.py:96-114 | the new spot trace and the result are those of the spot sequence |
| DiscordBot.MyBot.AfterSpotCancel | demo/discord_bot.py:103-114 | the buys and the sell run only when the cancel pass returned |
| DiscordBot.MyBot.BuyThenSell | demo/discord_bot.py:103-114 | the entry loop, then the take-profit sell when it is due, as `BuyThenSellRun`; when no call fails on a sizable symbol with a non-zero tick and no entry price is zero, the trace grows by the entry blocks and, exactly when a non-zero target is set, the three calls ending in the limit sell of the quantity sized at the target, and it returns |
| DiscordBot.MyBot.Entries | demo/discord_bot.py:103-106 | the loop over the entry prices, as `EntriesRun`; when no call fails on a sizable symbol with a non-zero tick and no price is zero, the trace grows by one block of reads and one limit buy per price, in order, and the loop returns |
| DiscordBot.MyBot.Entry | demo/discord_bot.py:104-105 | one sizing and one LIMIT placement, as `EntryRun`; when none of its calls fails on a sizable symbol with a non-zero tick and a non-zero price, the trace grows by the three reads and the limit buy, and it returns |
| DiscordBot.MyBot.TargetSell | demo/discord_bot.py:108-114 | the take-profit sizing and sell, as `TargetSellRun`; when both reads succeed on a sizable symbol at a non-zero target with a balance, the trace grows by the balance read, the lookup and the limit sell of the quantity sized at the target, and it raises exactly when the sell fails with something other than an exchange refusal |

## Left out

- Discord I/O is not modelled: replies to the channel, logging, `print`, `process_commands`, `on_ready`, the async event loop and the health-check server. A raised failure in a handler stands for the error reply.
- The Binance SDK is not modelled. Each call is one `Request`, and its response is read from a fixed venue snapshot. Reads therefore never see the effect of the bot's own earlier requests: every `calculate_quantity` in the entry loop reads the same free USDT, although on the exchange each limit buy locks funds, so `DiscordBot.EntryCalls` sizes every price from one balance. Whether a call fails is an oracle parameter. The API keys and `.env` loading are left out.
- Prices and quantities are exact reals, not binary floats. `Decimal(float)`, the float arithmetic in the sizing, and float rounding errors are not modelled.
- SpotClient.CalculateQuantityRun: the final `round(quantity, 8)` is not applied. The returned value is the unrounded whole number of steps.
- SpotClient.PlaceSpotOrderRun: the price is sent as the adjusted real. The model does not produce the string formatted to `int(abs(log10(tick)))` places.
- The `ValueError("Unsupported order type")` branch of `place_spot_order` cannot be reached with the two-valued order type, so it is not modelled.
- Regex classes are ASCII only. `\w`, `\d` and `\s` do not match Unicode letters, digits or spaces, and `.upper()` maps only `a`-`z`. `\s` is space, tab, newline, carriage return, vertical tab and form feed; the separators `\x1c`-`\x1f`, which Python's `\s` also matches, are not spaces here.
- Decimals.Dec.Value: exchange decimals are non-negative, with a coefficient and an exponent. Negative decimals, special values and `quantize` raising on too many digits are not modelled.
- A NOTIONAL filter without `maxNotional` (the `float('inf')` default) is an absent maximum.
- DiscordBot.EntryRun: its own contract is a bound on the number of calls. The buy-only property is in DiscordBot.EntryOnlyBuys, and the buy it sends when nothing fails is in DiscordBot.EntryBuys.
- DiscordBot.AfterCancelRun, FutureClient.PlaceOrderRun and SpotClient.CancelOpenOrdersRun state only their first call in their own contracts. Their other properties are separate lemmas, listed above.
- FutureClient.FutureClient.PlaceOrder: its postcondition is equality with `PlaceOrderRun`; that the MARKET entry is sent is stated by `PlaceOrderEntrySent` about that function, not repeated on the method.

## Findings

| source | as written | input that shows it | evidently intended | confidence | as-written member | corrected member |
|---|---|---|---|---|---|---|
| core_future/future.py:68-72 | the rounding precision is `len(step.as_tuple()[1])`, the number of coefficient digits of the step size | step size and `minQty` `0.001`, balance 1000, entry 50000, leverage 5: raw 0.005 is rounded down to one decimal place (0.0), lifted to `minQty`, and sized 0.001 | precision = the step size's number of fractional digits, so the quantity stays 0.005 | not executed | FutureClient.FuturesQuantityAsWritten, FutureClient.AsWrittenDropsSteps | FutureClient.FuturesQuantity, FutureClient.FuturesQuantityIsTrimmedRaw |
