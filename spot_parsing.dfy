/**
 * The lenient spot message parser: every field is optional, and only a
 * malformed numeral makes it fail.
 */
module SpotParsing {
  import opened Wrappers
  import opened Text

  /** The four-key dictionary `parse_spot_message` returns. */
  datatype SpotSignal = SpotSignal(
    symbol: Option<string>,
    entries: seq<real>,
    stopLossPrice: Option<real>,
    finalTargetPrice: Option<real>)

  /** `float()` raising `ValueError` on a capture such as `.` */
  datatype ParseError = MalformedNumeral

  /** `Entry \d+ = \$([\d.]+)`; the digits run to the space, so the capture starts after them. */
  predicate EntryAt(s: string, j: int) {
    HasAt(s, j, "Entry ") && DigitRun(s, j + 6) > 0
    && HasAt(s, j + 6 + DigitRun(s, j + 6), " = $")
    && j + 10 + DigitRun(s, j + 6) < |s| && IsNumeralChar(s[j + 10 + DigitRun(s, j + 6)])
  }

  /** `Below \$([\d.]+)`, the tail of the stop-loss pattern. */
  predicate BelowAt(s: string, k: int) {
    HasAt(s, k, "Below $") && k + 7 < |s| && IsNumeralChar(s[k + 7])
  }

  /**
   * The rightmost `Below $p` in `[lo, hi)`: the greedy `.*` of the stop-loss
   * pattern backtracks from the end of the line to the last place where the
   * rest matches.
   */
  function LastBelow(s: string, lo: int, hi: int): (r: Option<int>)
    requires 0 <= lo && hi <= |s|
    ensures r.Some? ==> lo <= r.value < hi && BelowAt(s, r.value)
    ensures r.Some? ==> forall k :: r.value < k < hi ==> !BelowAt(s, k)
    ensures r.None? ==> forall k :: lo <= k < hi ==> !BelowAt(s, k)
    decreases hi - lo
  {
    if lo >= hi then None
    else if BelowAt(s, hi - 1) then Some(hi - 1)
    else LastBelow(s, lo, hi - 1)
  }

  /** `Stoploss:.*Below \$([\d.]+)`: `.` stops at a newline, so the tail must be on the same line. */
  predicate StopLossAt(s: string, j: int) {
    HasAt(s, j, "Stoploss:") && LastBelow(s, j + 9, LineEnd(s, j + 9)).Some?
  }

  /** `Final Target: \$([\d.]+)`; the capture starts at `j + 15`. */
  predicate FinalTargetAt(s: string, j: int) {
    HasAt(s, j, "Final Target: $") && j + 15 < |s| && IsNumeralChar(s[j + 15])
  }

  datatype Pattern = Symbol | Entry | StopLoss | FinalTarget

  predicate MatchAt(p: Pattern, s: string, j: int) {
    match p
    case Symbol => SymbolAt(s, j)
    case Entry => EntryAt(s, j)
    case StopLoss => StopLossAt(s, j)
    case FinalTarget => FinalTargetAt(s, j)
  }

  /** `re.search` from index `i`: the leftmost start of a match of `p`. */
  function Search(p: Pattern, s: string, i: int): (r: Option<int>)
    ensures r.Some? ==> i <= r.value < |s| && MatchAt(p, s, r.value)
    ensures r.Some? ==> forall j :: i <= j < r.value ==> !MatchAt(p, s, j)
    ensures r.None? ==> forall j :: i <= j ==> !MatchAt(p, s, j)
    decreases |s| - i
  {
    if i >= |s| then None
    else if MatchAt(p, s, i) then Some(i)
    else Search(p, s, i + 1)
  }

  /** `j` is where `re.search` finds `p`: a match, and none further left. */
  predicate Leftmost(p: Pattern, s: string, j: int) {
    0 <= j && MatchAt(p, s, j) && forall k :: 0 <= k < j ==> !MatchAt(p, s, k)
  }

  /** The search from the start finds exactly the leftmost match. */
  lemma SearchFindsLeftmost(p: Pattern, s: string, j: int)
    requires Leftmost(p, s, j)
    ensures Search(p, s, 0) == Some(j)
  {
  }

  /** Where the numeric capture of a match of `p` at `j` starts. */
  function CaptureStart(p: Pattern, s: string, j: int): (k: nat)
    requires p != Symbol && MatchAt(p, s, j)
    ensures k < |s| && IsNumeralChar(s[k])
  {
    match p
    case Entry => j + 10 + DigitRun(s, j + 6)
    case StopLoss => LastBelow(s, j + 9, LineEnd(s, j + 9)).value + 7
    case FinalTarget => j + 15
  }

  /** The numeric capture of a match of `p` at `j`. */
  function Capture(p: Pattern, s: string, j: int): (t: string)
    requires p != Symbol && MatchAt(p, s, j)
    ensures |t| > 0 && AllNumeralChars(t)
  {
    NumeralAt(s, CaptureStart(p, s, j))
  }

  /** `re.findall` of the entry pattern from `i`, in text order. */
  function EntryCaptures(s: string, i: nat): (caps: seq<string>)
    requires i <= |s|
    ensures forall n :: 0 <= n < |caps| ==> AllNumeralChars(caps[n])
    ensures caps == [] <==> Search(Entry, s, i).None?
    ensures caps != [] ==> caps[0] == Capture(Entry, s, Search(Entry, s, i).value)
    decreases |s| - i
  {
    match Search(Entry, s, i)
    case None => []
    case Some(j) =>
      var k := CaptureStart(Entry, s, j);
      [Capture(Entry, s, j)] + EntryCaptures(s, k + NumeralRun(s, k))
  }

  /**
   * A field that may be absent: None when the pattern does not occur, the
   * parsed number when it does, and a failure when that number is malformed.
   */
  function OptionalPrice(p: Pattern, m: string): (r: Result<Option<real>, ParseError>)
    requires p != Symbol
    ensures r.Ok? ==> (r.value.None? <==> forall j :: !MatchAt(p, m, j))
    ensures (forall j :: !MatchAt(p, m, j)) ==> r.Ok?
    ensures r.Ok? && r.value.Some? ==>
              exists j :: Leftmost(p, m, j) && ParseNumeral(Capture(p, m, j)) == r.value
    ensures r.Err? <==> exists j :: Leftmost(p, m, j) && ParseNumeral(Capture(p, m, j)).None?
  {
    match Search(p, m, 0)
    case None => Ok(None)
    case Some(j) =>
      assert Leftmost(p, m, j);
      assert forall i :: Leftmost(p, m, i) ==> i == j;
      (match ParseNumeral(Capture(p, m, j))
       case None => Err(MalformedNumeral)
       case Some(x) => Ok(Some(x)))
  }

  /** `parse_spot_message` */
  function ParseSpotMessage(m: string): (r: Result<SpotSignal, ParseError>)
    // a missing field never fails: only a malformed numeral does
    ensures r.Err? <==>
              OptionalPrice(StopLoss, m).Err? || OptionalPrice(FinalTarget, m).Err?
              || ParseAll(EntryCaptures(m, 0)).None?
    // in particular a message with no numeric phrase at all always parses
    ensures ((forall j :: !StopLossAt(m, j)) && (forall j :: !FinalTargetAt(m, j))
             && (forall j :: !EntryAt(m, j))) ==> r.Ok?
  {
    assert forall j :: MatchAt(StopLoss, m, j) == StopLossAt(m, j);
    assert forall j :: MatchAt(FinalTarget, m, j) == FinalTargetAt(m, j);
    assert forall j :: MatchAt(Entry, m, j) == EntryAt(m, j);
    var symbol := match Search(Symbol, m, 0)
      case None => None
      case Some(j) => Some(WordAt(m, j + 1) + "USDT");
    match (OptionalPrice(StopLoss, m), OptionalPrice(FinalTarget, m), ParseAll(EntryCaptures(m, 0)))
    case (Ok(stop), Ok(target), Some(entries)) => Ok(SpotSignal(symbol, entries, stop, target))
    case _ => Err(MalformedNumeral)
  }

  /** The symbol is the leftmost `$word` with USDT appended, its case left alone. */
  lemma SpotSymbol(m: string)
    requires ParseSpotMessage(m).Ok? && ParseSpotMessage(m).value.symbol.Some?
    ensures exists j :: SymbolAt(m, j) && (forall k :: 0 <= k < j ==> !SymbolAt(m, k))
                        && ParseSpotMessage(m).value.symbol == Some(WordAt(m, j + 1) + "USDT")
  {
    var j := Search(Symbol, m, 0).value;
    assert ParseSpotMessage(m).value.symbol == Some(WordAt(m, j + 1) + "USDT");
    assert forall k :: 0 <= k < j ==> MatchAt(Symbol, m, k) == SymbolAt(m, k);
  }

  /**
   * Each optional field is None exactly when its phrase is absent, and
   * otherwise the number of the leftmost occurrence.
   */
  lemma SpotOptionalFields(m: string)
    requires ParseSpotMessage(m).Ok?
    ensures ParseSpotMessage(m).value.symbol.None? <==> forall j :: !SymbolAt(m, j)
    ensures ParseSpotMessage(m).value.stopLossPrice.None? <==> forall j :: !StopLossAt(m, j)
    ensures ParseSpotMessage(m).value.finalTargetPrice.None? <==> forall j :: !FinalTargetAt(m, j)
    ensures ParseSpotMessage(m).value.stopLossPrice.Some? ==>
              exists j :: Leftmost(StopLoss, m, j)
                          && ParseNumeral(Capture(StopLoss, m, j)) == ParseSpotMessage(m).value.stopLossPrice
    ensures ParseSpotMessage(m).value.finalTargetPrice.Some? ==>
              exists j :: Leftmost(FinalTarget, m, j)
                          && ParseNumeral(Capture(FinalTarget, m, j)) == ParseSpotMessage(m).value.finalTargetPrice
  {
    var r := ParseSpotMessage(m).value;
    assert r.stopLossPrice == OptionalPrice(StopLoss, m).value;
    assert r.finalTargetPrice == OptionalPrice(FinalTarget, m).value;
    assert forall j :: MatchAt(Symbol, m, j) == SymbolAt(m, j);
    assert forall j :: MatchAt(StopLoss, m, j) == StopLossAt(m, j);
    assert forall j :: MatchAt(FinalTarget, m, j) == FinalTargetAt(m, j);
  }

  /** `entries` holds every entry capture as a number, in text order. */
  lemma SpotEntries(m: string)
    requires ParseSpotMessage(m).Ok?
    ensures |ParseSpotMessage(m).value.entries| == |EntryCaptures(m, 0)|
    ensures forall n :: 0 <= n < |EntryCaptures(m, 0)| ==>
              Some(ParseSpotMessage(m).value.entries[n]) == ParseNumeral(EntryCaptures(m, 0)[n])
  {
    assert ParseSpotMessage(m).value.entries == ParseAll(EntryCaptures(m, 0)).value;
  }

  // ---- the patterns on sample phrases ----

  /** `Entry \d+ = \$([\d.]+)`: unlike the futures pattern, an entry number of several digits matches. */
  lemma EntrySample()
    ensures EntryAt("Entry 12 = $5", 0) && Capture(Entry, "Entry 12 = $5", 0) == "5"
    ensures !EntryAt("Entry = $5", 0)
  {
    var s := "Entry 12 = $5";
    assert s[0..6] == "Entry ";
    assert DigitRun(s, 6) == 2;
    assert s[8..12] == " = $";
    assert NumeralRun(s, 12) == 1;
    assert s[12..13] == "5";
    assert DigitRun("Entry = $5", 6) == 0;
  }

  /** `Stoploss:.*Below \$([\d.]+)`: the greedy `.*` takes the last `Below $` on the line, and does not cross a newline. */
  lemma StopLossSample()
    ensures StopLossAt("Stoploss:Below $1Below $2", 0) && Capture(StopLoss, "Stoploss:Below $1Below $2", 0) == "2"
    ensures !StopLossAt("Stoploss:\nBelow $2", 0)
  {
    var s := "Stoploss:Below $1Below $2";
    assert s[0..9] == "Stoploss:";
    LastBelowSample();
    assert NumeralRun(s, 24) == 1;
    assert s[24..25] == "2";
    var t := "Stoploss:\nBelow $2";
    assert LineEnd(t, 9) == 9;
  }

  /** The line on the sample runs to its end, and the last `Below $` on it is at index 17. */
  lemma LastBelowSample()
    ensures LineEnd("Stoploss:Below $1Below $2", 9) == 25
    ensures LastBelow("Stoploss:Below $1Below $2", 9, 25) == Some(17)
  {
    var s := "Stoploss:Below $1Below $2";
    LineEndSample(s);
    assert s[17..24] == "Below $";
    assert LastBelow(s, 9, 18) == Some(17);
    assert forall hi :: 18 < hi <= |s| ==> LastBelow(s, 9, hi) == LastBelow(s, 9, hi - 1);
  }

  /** No newline on the sample after the `Stoploss:` prefix. */
  lemma LineEndSample(s: string)
    requires s == "Stoploss:Below $1Below $2"
    ensures LineEnd(s, 9) == |s|
  {
    assert forall i :: 9 <= i < |s| ==> s[i] != '\n';
    assert forall i :: 9 <= i < |s| ==> LineEnd(s, i) == LineEnd(s, i + 1);
  }

  /** `Final Target: \$([\d.]+)` */
  lemma FinalTargetSample()
    ensures FinalTargetAt("Final Target: $3", 0) && Capture(FinalTarget, "Final Target: $3", 0) == "3"
    ensures !FinalTargetAt("Target: $3", 0)
  {
    var s := "Final Target: $3";
    assert s[0..15] == "Final Target: $";
    assert NumeralRun(s, 15) == 1;
    assert s[15..16] == "3";
  }
}
