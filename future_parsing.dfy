/**
 * The futures message classifier: a priority-ordered choice between a
 * close command, a stop-loss change and a full trade signal, returned as
 * the six-slot tuple the dispatcher unpacks.
 */
module FutureParsing {
  import opened Wrappers
  import opened Text

  datatype Side = Buy | Sell

  datatype CommandKind = CloseOrder | ChangeStopLoss | TradeSignal

  /** `(command, symbol, side, entry_price, stop_loss_price, target_price)` */
  datatype FutureSignal = FutureSignal(
    command: CommandKind,
    symbol: Option<string>,
    side: Option<Side>,
    entryPrice: Option<real>,
    stopLossPrice: Option<real>,
    targetPrice: Option<real>)

  /** Both kinds surface as one `ValueError` whose text differs. */
  datatype ParseError = MissingField | MalformedNumeral

  // ---- the seven patterns, each as "matches starting at index j" ----

  /** `(LONG|SHORT)` */
  predicate SideAt(s: string, j: int) {
    HasAt(s, j, "LONG") || HasAt(s, j, "SHORT")
  }

  /** `Entry\s\d\s=\s\$([\d.]+)`; the capture starts at `j + 11`. */
  predicate EntryAt(s: string, j: int) {
    HasAt(s, j, "Entry") && j + 11 < |s|
    && IsSpace(s[j + 5]) && IsDigit(s[j + 6]) && IsSpace(s[j + 7])
    && s[j + 8] == '=' && IsSpace(s[j + 9]) && s[j + 10] == '$'
    && IsNumeralChar(s[j + 11])
  }

  /** `Stoploss:\s4H\sClose\s(Above|Below)\s\$([\d.]+)`; the second capture starts at `j + 26`. */
  predicate StopLossAt(s: string, j: int) {
    HasAt(s, j, "Stoploss:") && j + 26 < |s|
    && IsSpace(s[j + 9]) && HasAt(s, j + 10, "4H") && IsSpace(s[j + 12])
    && HasAt(s, j + 13, "Close") && IsSpace(s[j + 18])
    && (HasAt(s, j + 19, "Above") || HasAt(s, j + 19, "Below"))
    && IsSpace(s[j + 24]) && s[j + 25] == '$' && IsNumeralChar(s[j + 26])
  }

  /** `Target:\s\$([\d.]+)`; the capture starts at `j + 9`. */
  predicate TargetAt(s: string, j: int) {
    HasAt(s, j, "Target:") && j + 9 < |s|
    && IsSpace(s[j + 7]) && s[j + 8] == '$' && IsNumeralChar(s[j + 9])
  }

  /** `Close\sOrder` */
  predicate CloseOrderAt(s: string, j: int) {
    HasAt(s, j, "Close") && j + 11 <= |s| && IsSpace(s[j + 5]) && HasAt(s, j + 6, "Order")
  }

  /** `Change\sStoploss\s=\s\$([\d.]+)`; the capture starts at `j + 19`. */
  predicate ChangeStopLossAt(s: string, j: int) {
    HasAt(s, j, "Change") && j + 19 < |s|
    && IsSpace(s[j + 6]) && HasAt(s, j + 7, "Stoploss") && IsSpace(s[j + 15])
    && s[j + 16] == '=' && IsSpace(s[j + 17]) && s[j + 18] == '$'
    && IsNumeralChar(s[j + 19])
  }

  /** The seven patterns of the classifier. */
  datatype Pattern = Symbol | Direction | Entry | StopLoss | Target | ClosePhrase | ChangePhrase

  predicate MatchAt(p: Pattern, s: string, j: int) {
    match p
    case Symbol => SymbolAt(s, j)
    case Direction => SideAt(s, j)
    case Entry => EntryAt(s, j)
    case StopLoss => StopLossAt(s, j)
    case Target => TargetAt(s, j)
    case ClosePhrase => CloseOrderAt(s, j)
    case ChangePhrase => ChangeStopLossAt(s, j)
  }

  /**
   * `re.search` from index `i`: the leftmost start of a match of `p`, as
   * the regex engine tries start positions from the left.
   */
  function Search(p: Pattern, s: string, i: int): (r: Option<int>)
    ensures r.Some? ==> i <= r.value < |s| && MatchAt(p, s, r.value)
    ensures r.Some? ==> forall j :: i <= j < r.value ==> !MatchAt(p, s, j)
    ensures r.None? ==> forall j :: i <= j ==> !MatchAt(p, s, j)
    decreases |s| - i
  {
    if i >= |s| then None
    else if MatchAt(p, s, i) then Some(i)
    else Search(p, s, i + 1)
  }

  /** `j` is where `re.search` finds `p`: a match, and none further left. */
  predicate Leftmost(p: Pattern, s: string, j: int) {
    0 <= j && MatchAt(p, s, j) && forall k :: 0 <= k < j ==> !MatchAt(p, s, k)
  }

  /** The search from the start finds exactly the leftmost match. */
  lemma SearchFindsLeftmost(p: Pattern, s: string, j: int)
    requires Leftmost(p, s, j)
    ensures Search(p, s, 0) == Some(j)
  {
  }

  /** Patterns that end in a `[\d.]+` capture. */
  predicate HasNumeral(p: Pattern) {
    p == Entry || p == StopLoss || p == Target || p == ChangePhrase
  }

  /** The trading pair named by the symbol marker at `j`: the word upper-cased, with USDT appended. */
  function TickerAt(m: string, j: int): (t: string)
    requires SymbolAt(m, j)
    ensures |t| == WordRun(m, j + 1) + 4 && t[|t| - 4..] == "USDT"
    ensures t[..|t| - 4] == Upper(m[j + 1 .. j + 1 + WordRun(m, j + 1)])
  {
    Upper(WordAt(m, j + 1)) + "USDT"
  }

  /** The numeric capture of a match of `p` at `j` (group 2 for the stop-loss phrase). */
  function Capture(p: Pattern, s: string, j: int): (t: string)
    requires HasNumeral(p) && MatchAt(p, s, j)
    ensures |t| > 0 && AllNumeralChars(t)
  {
    var k := match p
      case Entry => j + 11
      case StopLoss => j + 26
      case Target => j + 9
      case _ => j + 19;
    NumeralAt(s, k)
  }

  /**
   * `re.findall` of the entry pattern from index `i`: every match in text
   * order, each search resuming where the previous match ended.
   */
  function EntryCaptures(s: string, i: nat): (caps: seq<string>)
    requires i <= |s|
    ensures forall n :: 0 <= n < |caps| ==> AllNumeralChars(caps[n])
    ensures caps == [] <==> Search(Entry, s, i).None?
    ensures caps != [] ==> caps[0] == Capture(Entry, s, Search(Entry, s, i).value)
    decreases |s| - i
  {
    match Search(Entry, s, i)
    case None => []
    case Some(j) =>
      var rest := EntryCaptures(s, j + 11 + NumeralRun(s, j + 11));
      [Capture(Entry, s, j)] + rest
  }

  /** The tuple for a close command: only the command slot is filled. */
  const CloseOrderSignal := FutureSignal(CloseOrder, None, None, None, None, None)

  /** `parse_future_message` */
  function ParseFutureMessage(m: string): (r: Result<FutureSignal, ParseError>)
    // a close phrase anywhere wins, whatever else the message holds
    ensures (exists j :: CloseOrderAt(m, j)) ==> r == Ok(CloseOrderSignal)
    ensures r.Ok? && r.value.command == CloseOrder ==> exists j :: CloseOrderAt(m, j)
    // then a stop-loss change, whose price travels in the entry-price slot
    ensures r.Ok? && r.value.command == ChangeStopLoss ==>
              (forall j :: !CloseOrderAt(m, j))
              && r.value.symbol.None? && r.value.side.None? && r.value.entryPrice.Some?
              && r.value.stopLossPrice.None? && r.value.targetPrice.None?
    ensures (forall j :: !CloseOrderAt(m, j)) && (exists j :: ChangeStopLossAt(m, j)) ==>
              r.Err? || r.value.command == ChangeStopLoss
    ensures r.Ok? && r.value.command == ChangeStopLoss ==> exists j :: ChangeStopLossAt(m, j)
    // with neither phrase, the message is read as a trade signal
    ensures (forall j :: !CloseOrderAt(m, j)) && (forall j :: !ChangeStopLossAt(m, j)) ==>
              r == ParseTradeSignal(m)
    // a trade signal only when neither phrase occurs
    ensures r.Ok? && r.value.command == TradeSignal ==>
              (forall j :: !CloseOrderAt(m, j)) && (forall j :: !ChangeStopLossAt(m, j))
    // and then every slot is filled
    ensures r.Ok? && r.value.command == TradeSignal ==>
              r.value.symbol.Some? && r.value.side.Some? && r.value.entryPrice.Some?
              && r.value.stopLossPrice.Some? && r.value.targetPrice.Some?
  {
    assert forall j :: MatchAt(ClosePhrase, m, j) == CloseOrderAt(m, j);
    assert forall j :: MatchAt(ChangePhrase, m, j) == ChangeStopLossAt(m, j);
    if Search(ClosePhrase, m, 0).Some? then Ok(CloseOrderSignal)
    else match Search(ChangePhrase, m, 0)
      case Some(j) =>
        (match ParseNumeral(Capture(ChangePhrase, m, j))
         case None => Err(MalformedNumeral)
         case Some(p) => Ok(FutureSignal(ChangeStopLoss, None, None, Some(p), None, None)))
      case None => ParseTradeSignal(m)
  }

  /** The third branch: every field of a trade signal is required. */
  function ParseTradeSignal(m: string): (r: Result<FutureSignal, ParseError>)
    ensures r.Ok? ==> r.value.command == TradeSignal
    ensures r.Ok? ==> r.value.symbol.Some? && r.value.side.Some? && r.value.entryPrice.Some?
                      && r.value.stopLossPrice.Some? && r.value.targetPrice.Some?
  {
    match (Search(Symbol, m, 0), Search(Direction, m, 0), Search(StopLoss, m, 0), Search(Target, m, 0))
    case (Some(sym), Some(side), Some(sl), Some(tp)) =>
      if EntryCaptures(m, 0) == [] then Err(MissingField) else TradeFields(m, sym, side, sl, tp)
    case _ => Err(MissingField)
  }

  /**
   * The fields of a trade signal once every pattern has matched: the
   * conversions either all succeed or the message is malformed.
   */
  function TradeFields(m: string, sym: int, side: int, sl: int, tp: int): (r: Result<FutureSignal, ParseError>)
    requires SymbolAt(m, sym) && MatchAt(StopLoss, m, sl) && MatchAt(Target, m, tp) && EntryCaptures(m, 0) != []
    ensures r.Ok? <==> ParseAll(EntryCaptures(m, 0)).Some?
                       && ParseNumeral(Capture(StopLoss, m, sl)).Some? && ParseNumeral(Capture(Target, m, tp)).Some?
    ensures r.Err? ==> r.error == MalformedNumeral
    ensures r.Ok? ==> r.value.command == TradeSignal && r.value.symbol == Some(TickerAt(m, sym))
                      && r.value.side == Some(if HasAt(m, side, "LONG") then Buy else Sell)
                      && r.value.entryPrice == ParseNumeral(EntryCaptures(m, 0)[0])
                      && r.value.stopLossPrice == ParseNumeral(Capture(StopLoss, m, sl))
                      && r.value.targetPrice == ParseNumeral(Capture(Target, m, tp))
  {
    var symbol := TickerAt(m, sym);
    var dir := if HasAt(m, side, "LONG") then Buy else Sell;
    match (ParseAll(EntryCaptures(m, 0)), ParseNumeral(Capture(StopLoss, m, sl)), ParseNumeral(Capture(Target, m, tp)))
    case (Some(es), Some(stop), Some(target)) =>
      Ok(FutureSignal(TradeSignal, Some(symbol), Some(dir), Some(es[0]), Some(stop), Some(target)))
    case _ => Err(MalformedNumeral)
  }

  /** A missing field is an error, never a default. */
  lemma ParseTradeSignalMissing(m: string)
    requires (forall j :: !SymbolAt(m, j)) || (forall j :: !SideAt(m, j)) ||
             (forall j :: !EntryAt(m, j)) || (forall j :: !StopLossAt(m, j)) ||
             (forall j :: !TargetAt(m, j))
    ensures ParseTradeSignal(m) == Err(MissingField)
  {
    var sym, side, sl, tp := Search(Symbol, m, 0), Search(Direction, m, 0), Search(StopLoss, m, 0), Search(Target, m, 0);
    var entry := Search(Entry, m, 0);
    if sym.Some? && side.Some? && sl.Some? && tp.Some? && entry.Some? {
      assert false;
    }
  }

  /** One malformed entry numeral, even a later one, fails the whole message. */
  lemma ParseTradeSignalMalformed(m: string, n: int)
    requires 0 <= n < |EntryCaptures(m, 0)| && ParseNumeral(EntryCaptures(m, 0)[n]).None?
    ensures ParseTradeSignal(m).Err?
  {
  }

  /** The symbol of a trade signal is the leftmost `$word`, upper-cased, with USDT appended. */
  lemma TradeSignalSymbol(m: string)
    requires ParseTradeSignal(m).Ok?
    ensures exists j :: SymbolAt(m, j) && (forall k :: 0 <= k < j ==> !SymbolAt(m, k))
                        && ParseTradeSignal(m).value.symbol == Some(TickerAt(m, j))
  {
    var j := Search(Symbol, m, 0).value;
    assert ParseTradeSignal(m).value.symbol == Some(TickerAt(m, j));
    assert forall k :: 0 <= k < j ==> MatchAt(Symbol, m, k) == SymbolAt(m, k);
  }

  /** The leftmost LONG or SHORT decides the side: LONG buys, SHORT sells. */
  lemma TradeSignalSide(m: string)
    requires ParseTradeSignal(m).Ok?
    ensures exists j :: SideAt(m, j) && (forall k :: 0 <= k < j ==> !SideAt(m, k))
                        && ParseTradeSignal(m).value.side == Some(if HasAt(m, j, "LONG") then Buy else Sell)
  {
    var j := Search(Direction, m, 0).value;
    var dir := if HasAt(m, j, "LONG") then Buy else Sell;
    assert ParseTradeSignal(m).value.side == Some(dir);
    assert SideAt(m, j) by { assert MatchAt(Direction, m, j); }
    assert forall k :: 0 <= k < j ==> !SideAt(m, k) by {
      assert forall k :: 0 <= k < j ==> MatchAt(Direction, m, k) == SideAt(m, k);
    }
  }

  /** Of several entries, the first in text order gives the entry price. */
  lemma TradeSignalEntry(m: string)
    requires ParseTradeSignal(m).Ok?
    ensures exists j :: EntryAt(m, j) && (forall k :: 0 <= k < j ==> !EntryAt(m, k))
                        && ParseTradeSignal(m).value.entryPrice == ParseNumeral(Capture(Entry, m, j))
  {
    var j := Search(Entry, m, 0).value;
    var caps := EntryCaptures(m, 0);
    assert caps[0] == Capture(Entry, m, j);
    var es := ParseAll(caps).value;
    assert es[0] == ParseNumeral(caps[0]).value;
    assert ParseTradeSignal(m).value.entryPrice == Some(es[0]);
    assert forall k :: 0 <= k < j ==> MatchAt(Entry, m, k) == EntryAt(m, k);
  }

  /** The stop-loss price is the number of the leftmost stop-loss phrase, Above or Below alike. */
  lemma TradeSignalStopLoss(m: string)
    requires ParseTradeSignal(m).Ok?
    ensures exists j :: StopLossAt(m, j) && (forall k :: 0 <= k < j ==> !StopLossAt(m, k))
                        && ParseTradeSignal(m).value.stopLossPrice == ParseNumeral(Capture(StopLoss, m, j))
  {
    var j := Search(StopLoss, m, 0).value;
    assert ParseTradeSignal(m).value.stopLossPrice == ParseNumeral(Capture(StopLoss, m, j));
    assert forall k :: 0 <= k < j ==> MatchAt(StopLoss, m, k) == StopLossAt(m, k);
  }

  /** The target price is the number of the leftmost target phrase. */
  lemma TradeSignalTarget(m: string)
    requires ParseTradeSignal(m).Ok?
    ensures exists j :: TargetAt(m, j) && (forall k :: 0 <= k < j ==> !TargetAt(m, k))
                        && ParseTradeSignal(m).value.targetPrice == ParseNumeral(Capture(Target, m, j))
  {
    var j := Search(Target, m, 0).value;
    assert ParseTradeSignal(m).value.targetPrice == ParseNumeral(Capture(Target, m, j));
    assert forall k :: 0 <= k < j ==> MatchAt(Target, m, k) == TargetAt(m, k);
  }

  /**
   * The stop-loss change reads the number of the leftmost change phrase:
   * a malformed one fails the message, a well-formed one is returned in the
   * entry-price slot with every other slot empty.
   */
  lemma ChangeStopLossPrice(m: string, j: int)
    requires forall k :: !CloseOrderAt(m, k)
    requires Leftmost(ChangePhrase, m, j)
    ensures ParseNumeral(Capture(ChangePhrase, m, j)).None? ==> ParseFutureMessage(m) == Err(MalformedNumeral)
    ensures ParseNumeral(Capture(ChangePhrase, m, j)).Some? ==>
              ParseFutureMessage(m)
              == Ok(FutureSignal(ChangeStopLoss, None, None, ParseNumeral(Capture(ChangePhrase, m, j)), None, None))
  {
    SearchFindsLeftmost(ChangePhrase, m, j);
  }

  /**
   * With every field present, a trade signal is accepted exactly when the
   * entry, stop-loss and target numerals all convert; it then carries the
   * leftmost symbol, side and prices, and otherwise fails as malformed.
   */
  lemma ParseTradeSignalAccepted(m: string, sym: int, side: int, e: int, sl: int, tp: int)
    requires Leftmost(Symbol, m, sym) && Leftmost(Direction, m, side) && Leftmost(Entry, m, e)
    requires Leftmost(StopLoss, m, sl) && Leftmost(Target, m, tp)
    ensures ParseTradeSignal(m).Ok? <==>
              ParseAll(EntryCaptures(m, 0)).Some?
              && ParseNumeral(Capture(StopLoss, m, sl)).Some? && ParseNumeral(Capture(Target, m, tp)).Some?
    ensures ParseTradeSignal(m).Err? ==> ParseTradeSignal(m).error == MalformedNumeral
    ensures ParseTradeSignal(m).Ok? ==>
              ParseTradeSignal(m).value
              == FutureSignal(TradeSignal, Some(TickerAt(m, sym)),
                              Some(if HasAt(m, side, "LONG") then Buy else Sell),
                              ParseNumeral(Capture(Entry, m, e)),
                              ParseNumeral(Capture(StopLoss, m, sl)), ParseNumeral(Capture(Target, m, tp)))
  {
    SearchFindsLeftmost(Symbol, m, sym);
    SearchFindsLeftmost(Direction, m, side);
    SearchFindsLeftmost(Entry, m, e);
    SearchFindsLeftmost(StopLoss, m, sl);
    SearchFindsLeftmost(Target, m, tp);
    assert EntryCaptures(m, 0)[0] == Capture(Entry, m, e);
  }

  // ---- the patterns on sample phrases ----

  /** `\$(\w+)`: the word after the dollar sign, upper-cased, names the pair. */
  lemma SymbolSample()
    ensures SymbolAt("$btc", 0) && TickerAt("$btc", 0) == "BTCUSDT"
    ensures !SymbolAt("$ btc", 0)
  {
    assert "$btc"[1..4] == "btc";
    assert WordRun("$btc", 1) == 3;
    assert Upper("btc") == "BTC";
  }

  /** `(LONG|SHORT)` */
  lemma SideSample()
    ensures SideAt("SHORT", 0) && SideAt("LONG", 0) && !SideAt("LON", 0)
  {
    assert "SHORT"[0..5] == "SHORT";
    assert "LONG"[0..4] == "LONG";
  }

  /** `Entry\s\d\s=\s\$([\d.]+)`: `\d` takes a single digit, and the capture is the number written. */
  lemma EntrySample()
    ensures EntryAt("Entry 1 = $0.9", 0) && Capture(Entry, "Entry 1 = $0.9", 0) == "0.9"
    ensures !EntryAt("Entry 12 = $5", 0)
  {
    assert "Entry 1 = $0.9"[0..5] == "Entry";
    assert NumeralRun("Entry 1 = $0.9", 11) == 3;
    assert "Entry 1 = $0.9"[11..14] == "0.9";
  }

  /** `Stoploss:\s4H\sClose\s(Above|Below)\s\$([\d.]+)`: the second group is the price. */
  lemma StopLossSample()
    ensures StopLossAt("Stoploss: 4H Close Below $48", 0)
            && Capture(StopLoss, "Stoploss: 4H Close Below $48", 0) == "48"
    ensures !StopLossAt("Stoploss: 1H Close Below $48", 0)
  {
    var s := "Stoploss: 4H Close Below $48";
    assert s[0..9] == "Stoploss:" && s[10..12] == "4H" && s[13..18] == "Close" && s[19..24] == "Below";
    assert NumeralRun(s, 26) == 2;
    assert s[26..28] == "48";
    var t := "Stoploss: 1H Close Below $48";
    assert t[10..12][0] == '1';
  }

  /** `Target:\s\$([\d.]+)` */
  lemma TargetSample()
    ensures TargetAt("Target: $52", 0) && Capture(Target, "Target: $52", 0) == "52"
    ensures !TargetAt("Target: 52", 0)
  {
    assert "Target: $52"[0..7] == "Target:";
    assert NumeralRun("Target: $52", 9) == 2;
    assert "Target: $52"[9..11] == "52";
  }

  /** `Close\sOrder`: the space is required. */
  lemma CloseOrderSample()
    ensures CloseOrderAt("Close Order", 0) && !CloseOrderAt("CloseOrder", 0)
  {
    assert "Close Order"[0..5] == "Close" && "Close Order"[6..11] == "Order";
  }

  /** `Change\sStoploss\s=\s\$([\d.]+)` */
  lemma ChangeStopLossSample()
    ensures ChangeStopLossAt("Change Stoploss = $7", 0) && Capture(ChangePhrase, "Change Stoploss = $7", 0) == "7"
    ensures !ChangeStopLossAt("Change Stoploss $7", 0)
  {
    var s := "Change Stoploss = $7";
    assert s[0..6] == "Change" && s[7..15] == "Stoploss";
    assert NumeralRun(s, 19) == 1;
    assert s[19..20] == "7";
  }
}
