/**
 * Character classes and small scanners shared by the two message parsers.
 *
 * Python's `re` module treats `\w`, `\d` and `\s` as Unicode classes; the
 * model restricts them to their ASCII members.
 */
module Text {
  import opened Wrappers

  /** `\d` */
  predicate IsDigit(c: char) { '0' <= c <= '9' }

  /** `\w`: letters, digits and the underscore. */
  predicate IsWordChar(c: char) {
    ('a' <= c <= 'z') || ('A' <= c <= 'Z') || IsDigit(c) || c == '_'
  }

  /** `\s`: space, tab, newline, carriage return, vertical tab, form feed. */
  predicate IsSpace(c: char) {
    c == ' ' || c == '\t' || c == '\n' || c == '\r' || c == '\U{B}' || c == '\U{C}'
  }

  /** The character class `[\d.]` of every numeric capture. */
  predicate IsNumeralChar(c: char) { IsDigit(c) || c == '.' }

  /** Every character of `t` is in `[\d.]`, as in every numeric capture. */
  predicate AllNumeralChars(t: string) {
    forall k :: 0 <= k < |t| ==> IsNumeralChar(t[k])
  }

  /** `s` holds the literal `w` starting at index `i`. */
  predicate HasAt(s: string, i: int, w: string) {
    0 <= i && i + |w| <= |s| && s[i..i + |w|] == w
  }

  /** `w` occurs somewhere in `s` (Python's `w in s`). */
  predicate Contains(s: string, w: string) {
    exists i :: 0 <= i <= |s| && HasAt(s, i, w)
  }

  /** Length of the longest run of word characters starting at `i` (greedy `\w+`). */
  function WordRun(s: string, i: nat): (n: nat)
    requires i <= |s|
    ensures i + n <= |s|
    ensures forall k :: i <= k < i + n ==> IsWordChar(s[k])
    ensures i + n == |s| || !IsWordChar(s[i + n])
    decreases |s| - i
  {
    if i < |s| && IsWordChar(s[i]) then 1 + WordRun(s, i + 1) else 0
  }

  /** Length of the longest run of digits starting at `i` (greedy `\d+`). */
  function DigitRun(s: string, i: nat): (n: nat)
    requires i <= |s|
    ensures i + n <= |s|
    ensures forall k :: i <= k < i + n ==> IsDigit(s[k])
    ensures i + n == |s| || !IsDigit(s[i + n])
    decreases |s| - i
  {
    if i < |s| && IsDigit(s[i]) then 1 + DigitRun(s, i + 1) else 0
  }

  /** Length of the longest run of `[\d.]` starting at `i` (greedy `[\d.]+`). */
  function NumeralRun(s: string, i: nat): (n: nat)
    requires i <= |s|
    ensures i + n <= |s|
    ensures forall k :: i <= k < i + n ==> IsNumeralChar(s[k])
    ensures i + n == |s| || !IsNumeralChar(s[i + n])
    decreases |s| - i
  {
    if i < |s| && IsNumeralChar(s[i]) then 1 + NumeralRun(s, i + 1) else 0
  }

  /** Index of the first newline at or after `i`, or `|s|`: where `.` stops matching. */
  function LineEnd(s: string, i: nat): (e: nat)
    requires i <= |s|
    ensures i <= e <= |s|
    ensures e == |s| || s[e] == '\n'
    ensures forall k :: i <= k < e ==> s[k] != '\n'
    decreases |s| - i
  {
    if i == |s| || s[i] == '\n' then i else LineEnd(s, i + 1)
  }

  /** ASCII `str.upper()`. */
  function Upper(s: string): (u: string)
    ensures |u| == |s|
    ensures forall k :: 0 <= k < |s| ==>
              u[k] == (if 'a' <= s[k] <= 'z' then (s[k] as int - 32) as char else s[k])
  {
    if s == [] then [] else
      [if 'a' <= s[0] <= 'z' then (s[0] as int - 32) as char else s[0]] + Upper(s[1..])
  }

  /** Value of a string of decimal digits (the empty string counts as 0). */
  function DigitsValue(ds: string): (v: nat)
    requires forall k :: 0 <= k < |ds| ==> IsDigit(ds[k])
  {
    if ds == [] then 0
    else
      assert IsDigit(ds[|ds| - 1]);
      DigitsValue(ds[..|ds| - 1]) * 10 + (ds[|ds| - 1] as int - '0' as int)
  }

  /** `n` digits spell a number below 10 to the `n`. */
  lemma {:induction false} DigitsBound(ds: string)
    requires forall k :: 0 <= k < |ds| ==> IsDigit(ds[k])
    ensures DigitsValue(ds) < Pow10(|ds|)
  {
    if ds != [] {
      var init := ds[..|ds| - 1];
      DigitsBound(init);
      assert Pow10(|ds|) == 10 * Pow10(|init|);
      LastDigit(DigitsValue(init), Pow10(|init|), ds[|ds| - 1] as int - '0' as int);
    }
  }

  lemma LastDigit(v: int, p: int, c: int)
    requires v < p && c <= 9
    ensures v * 10 + c < 10 * p
  {
  }

  /** Writing `b` after `a` shifts `a` by the length of `b`. */
  lemma {:induction false} DigitsAppend(a: string, b: string)
    requires forall k :: 0 <= k < |a| ==> IsDigit(a[k])
    requires forall k :: 0 <= k < |b| ==> IsDigit(b[k])
    ensures DigitsValue(a + b) == DigitsValue(a) * Pow10(|b|) + DigitsValue(b)
  {
    if b == [] {
      assert a + b == a;
    } else {
      var b', c := b[..|b| - 1], b[|b| - 1] as int - '0' as int;
      assert (a + b)[..|a + b| - 1] == a + b';
      assert (a + b)[|a + b| - 1] == b[|b| - 1];
      DigitsAppend(a, b');
      var x, p, y := DigitsValue(a), Pow10(|b'|), DigitsValue(b');
      assert DigitsValue(a + b) == (x * p + y) * 10 + c;
      assert Pow10(|b|) == 10 * p;
      assert DigitsValue(b) == y * 10 + c;
      Shift(x, p, y, c);
    }
  }

  lemma Shift(x: int, p: int, y: int, c: int)
    ensures (x * p + y) * 10 + c == x * (10 * p) + (y * 10 + c)
  {
  }

  /** 10 raised to a natural power. */
  function Pow10(k: nat): (p: nat)
    ensures p >= 1
  {
    if k == 0 then 1 else 10 * Pow10(k - 1)
  }

  /** Powers of ten multiply by adding exponents. */
  lemma {:induction false} Pow10Add(a: nat, b: nat)
    ensures Pow10(a + b) == Pow10(a) * Pow10(b)
  {
    if a > 0 {
      Pow10Add(a - 1, b);
      assert Pow10(a + b) == 10 * Pow10(a - 1 + b);
    }
  }

  /** Number of `.` characters in `t`. */
  function DotCount(t: string): (n: nat)
    ensures n <= |t|
  {
    if t == [] then 0 else (if t[0] == '.' then 1 else 0) + DotCount(t[1..])
  }

  /** Index of the first `.` in `t`, if any. */
  function FirstDot(t: string): (r: Option<nat>)
    ensures r.Some? ==> r.value < |t| && t[r.value] == '.'
    ensures r.Some? ==> forall k :: 0 <= k < r.value ==> t[k] != '.'
    ensures r.None? ==> forall k :: 0 <= k < |t| ==> t[k] != '.'
  {
    if t == [] then None
    else if t[0] == '.' then Some(0)
    else match FirstDot(t[1..])
      case None => None
      case Some(d) => Some(d + 1)
  }

  /** The digits of a numeral with its dots removed, in order. */
  function Digits(t: string): (d: string)
    requires AllNumeralChars(t)
    ensures |d| == |t| - DotCount(t)
    ensures forall k :: 0 <= k < |d| ==> IsDigit(d[k])
  {
    if t == [] then [] else (if t[0] == '.' then [] else [t[0]]) + Digits(t[1..])
  }

  /** The number of digits after the first dot; 0 without a dot. */
  function FractionLength(t: string): (n: nat)
    ensures n < |t| || n == 0
  {
    match FirstDot(t)
    case None => 0
    case Some(d) => |t| - d - 1
  }

  /**
   * Python's `float(t)` on a capture of `[\d.]+`: the exact decimal value of
   * `t`, or None where Python raises (no digit at all, or more than one dot).
   * The value scaled by 10 to the number of decimals is the integer the
   * digits spell. Binary floating point rounding is not modelled.
   */
  function ParseNumeral(t: string): (r: Option<real>)
    requires AllNumeralChars(t)
    ensures r.Some? <==> DotCount(t) <= 1 && exists k :: 0 <= k < |t| && IsDigit(t[k])
    ensures r.Some? ==> r.value >= 0.0
    ensures r.Some? ==> r.value == DigitsValue(Digits(t)) as real / Pow10(FractionLength(t)) as real
  {
    match FirstDot(t)
    case None =>
      DotCountNone(t);
      DotFreeDigits(t);
      DigitsOfDigits(t);
      if t == [] then None else Some(DigitsValue(t) as real)
    case Some(d) => DecimalNumeral(t, d)
  }

  /** `float` on a numeral whose first dot is at `d`: digits on either side, and no second dot. */
  function DecimalNumeral(t: string, d: nat): (r: Option<real>)
    requires AllNumeralChars(t) && FirstDot(t) == Some(d)
    ensures r.Some? <==> DotCount(t) <= 1 && exists k :: 0 <= k < |t| && IsDigit(t[k])
    ensures r.Some? ==> r.value >= 0.0
    ensures r.Some? ==> r.value == DigitsValue(Digits(t)) as real / Pow10(FractionLength(t)) as real
  {
    var whole, frac := t[..d], t[d + 1..];
    DotCountSplit(t, d);
    if FirstDot(frac).Some? then
      DotCountSome(frac, FirstDot(frac).value);
      None
    else if |t| == 1 then None
    else
      DotCountNone(frac);
      DotFreeDigits(whole);
      DotFreeDigits(frac);
      assert |whole| == 0 ==> frac[0] == t[1];
      DottedValue(t, d);
      Some(DigitsValue(whole) as real + DigitsValue(frac) as real / Pow10(|frac|) as real)
  }

  /** With one dot at `d`, the whole part shifted past the fraction and the fraction spell the digits. */
  lemma DottedValue(t: string, d: nat)
    requires AllNumeralChars(t) && d < |t| && t[d] == '.'
    requires forall k :: 0 <= k < |t| && k != d ==> IsDigit(t[k])
    requires FirstDot(t) == Some(d)
    ensures DigitsValue(t[..d]) as real + DigitsValue(t[d + 1..]) as real / Pow10(|t[d + 1..]|) as real
            == DigitsValue(Digits(t)) as real / Pow10(FractionLength(t)) as real
  {
    DottedDigits(t, d);
    ScaleBack(DigitsValue(t[..d]), DigitsValue(t[d + 1..]), Pow10(|t[d + 1..]|), DigitsValue(Digits(t)));
  }

  /** The digits around the dot at `d`, read as one integer. */
  lemma DottedDigits(t: string, d: nat)
    requires AllNumeralChars(t) && d < |t| && t[d] == '.'
    requires forall k :: 0 <= k < |t| && k != d ==> IsDigit(t[k])
    ensures DigitsValue(t[..d]) * Pow10(|t[d + 1..]|) + DigitsValue(t[d + 1..]) == DigitsValue(Digits(t))
  {
    var whole, frac := t[..d], t[d + 1..];
    DigitsSplit(t, d);
    DigitsOfDigits(whole);
    DigitsOfDigits(frac);
    DigitsAppend(whole, frac);
  }

  /** `w + f / p` is the integer `w * p + f` divided by `p`. */
  lemma ScaleBack(w: nat, f: nat, p: nat, n: nat)
    requires p >= 1 && n == w * p + f
    ensures w as real + f as real / p as real == n as real / p as real
  {
  }

  lemma DotFreeDigits(t: string)
    requires forall k :: 0 <= k < |t| ==> IsNumeralChar(t[k]) && t[k] != '.'
    ensures forall k :: 0 <= k < |t| ==> IsDigit(t[k])
  {
  }

  /** A numeral without dots is its own digit string. */
  lemma {:induction false} DigitsOfDigits(t: string)
    requires forall k :: 0 <= k < |t| ==> IsDigit(t[k])
    ensures Digits(t) == t
  {
    if t != [] { DigitsOfDigits(t[1..]); }
  }

  /** A string without dots has none to count. */
  lemma {:induction false} DotCountNone(t: string)
    requires forall k :: 0 <= k < |t| ==> t[k] != '.'
    ensures DotCount(t) == 0
  {
    if t != [] { DotCountNone(t[1..]); }
  }

  /** A string with a dot counts at least one. */
  lemma {:induction false} DotCountSome(t: string, d: nat)
    requires d < |t| && t[d] == '.'
    ensures DotCount(t) >= 1
  {
    if d > 0 { DotCountSome(t[1..], d - 1); }
  }

  /** Removing the dots on either side of the dot at `d`. */
  lemma {:induction false} DigitsSplit(t: string, d: nat)
    requires AllNumeralChars(t) && d < |t| && t[d] == '.'
    ensures Digits(t) == Digits(t[..d]) + Digits(t[d + 1..])
  {
    if d > 0 {
      assert t[1..][..d - 1] == t[..d][1..];
      assert t[1..][d..] == t[d + 1..];
      DigitsSplit(t[1..], d - 1);
    } else {
      assert t[..d] == [];
    }
  }

  /** Splitting at the first dot: the dots are that one plus those after it. */
  lemma {:induction false} DotCountSplit(t: string, d: nat)
    requires d < |t| && t[d] == '.'
    requires forall k :: 0 <= k < d ==> t[k] != '.'
    ensures DotCount(t) == 1 + DotCount(t[d + 1..])
  {
    if d > 0 {
      assert t[1..][d..] == t[d + 1..];
      DotCountSplit(t[1..], d - 1);
    }
  }

  /** `float` on a sample capture with a dot: the number written. */
  lemma DecimalExample()
    ensures ParseNumeral("0.9") == Some(0.9)
  {
    assert FirstDot("0.9") == Some(1);
    assert FirstDot("9") == None;
    assert DigitsValue("0") == 0;
    assert DigitsValue("9") == 9;
  }

  /** `float` on a sample capture without a dot: the whole number written. */
  lemma WholeExample()
    ensures ParseNumeral("49000") == Some(49000.0)
  {
    assert FirstDot("49000") == None;
    assert "49000"[..4] == "4900" && "4900"[..3] == "490" && "490"[..2] == "49" && "49"[..1] == "4";
    assert DigitsValue("4") == 4;
    assert DigitsValue("49") == 49;
    assert DigitsValue("490") == 490;
    assert DigitsValue("4900") == 4900;
  }

  /** Where `float` raises: a second dot, or no digit at all. */
  lemma MalformedExamples()
    ensures ParseNumeral("1.2.3") == None
    ensures ParseNumeral(".") == None
  {
    assert FirstDot("1.2.3") == Some(1);
    assert FirstDot("2.3") == Some(1);
  }

  /** `float()` on every capture, in order: None as soon as one fails. */
  function ParseAll(caps: seq<string>): (r: Option<seq<real>>)
    requires forall n :: 0 <= n < |caps| ==> AllNumeralChars(caps[n])
    ensures r.Some? <==> forall n :: 0 <= n < |caps| ==> ParseNumeral(caps[n]).Some?
    ensures r.Some? ==> |r.value| == |caps|
                        && forall n :: 0 <= n < |caps| ==> r.value[n] == ParseNumeral(caps[n]).value
  {
    if caps == [] then Some([])
    else match (ParseNumeral(caps[0]), ParseAll(caps[1..]))
      case (Some(x), Some(xs)) => Some([x] + xs)
      case _ => None
  }

  /** `\$(\w+)` matches at `j`: a dollar sign followed by a word character. */
  predicate SymbolAt(s: string, j: int) {
    0 <= j && j + 1 < |s| && s[j] == '$' && IsWordChar(s[j + 1])
  }

  /** The greedy `\w+` capture starting at `i`. */
  function WordAt(s: string, i: nat): (t: string)
    requires i <= |s|
    ensures forall k :: 0 <= k < |t| ==> IsWordChar(t[k])
  {
    s[i..i + WordRun(s, i)]
  }

  /** The greedy `[\d.]+` capture starting at `i`. */
  function NumeralAt(s: string, i: nat): (t: string)
    requires i <= |s|
    ensures AllNumeralChars(t)
  {
    s[i..i + NumeralRun(s, i)]
  }
}
