/**
 * The slice of JavaScript's number semantics the screens rely on: a number is
 * either NaN or a (real) value, `parseFloat` reads the longest decimal prefix of
 * a string, `Number(s)` (the coercion behind `s > 0` and `s <= 10`) accepts only
 * a string that is a decimal literal as a whole, and `x || 0` turns NaN and 0
 * into 0.
 */
module Js {
  import opened Wrappers

  /** A JavaScript number: NaN or a finite value. */
  datatype JsNum = NaN | Num(v: real)

  /** `x || 0` for a number `x`. */
  function OrZero(x: JsNum): (r: real)
    ensures x.Num? ==> r == x.v
    ensures x.NaN? ==> r == 0.0
  {
    if x.Num? then x.v else 0.0
  }

  /** JavaScript truthiness of a number: neither NaN nor 0. */
  predicate Truthy(x: JsNum) {
    x.Num? && x.v != 0.0
  }

  /** `a > b` on numbers: false whenever either side is NaN. */
  predicate Greater(a: JsNum, b: real) {
    a.Num? && a.v > b
  }

  /** `a / b` on numbers, for a non-zero divisor. */
  function Divide(a: JsNum, b: real): (r: JsNum)
    requires b != 0.0
    ensures r.Num? <==> a.Num?
    ensures a.Num? ==> r.v == a.v / b
  {
    if a.Num? then Num(a.v / b) else NaN
  }

  /** `a + b` on numbers: NaN as soon as either side is. */
  function Add(a: JsNum, b: JsNum): (r: JsNum)
    ensures r.Num? <==> a.Num? && b.Num?
    ensures r.Num? ==> r.v == a.v + b.v
  {
    if a.Num? && b.Num? then Num(a.v + b.v) else NaN
  }

  /** `Math.min(a, b)`: NaN as soon as either side is. */
  function Min(a: JsNum, b: JsNum): (r: JsNum)
    ensures r.Num? <==> a.Num? && b.Num?
    ensures r.Num? ==> r.v <= a.v && r.v <= b.v && (r.v == a.v || r.v == b.v)
  {
    if a.Num? && b.Num? then Num(if a.v <= b.v then a.v else b.v) else NaN
  }

  /** `Math.max(a, b)`: NaN as soon as either side is. */
  function Max(a: JsNum, b: JsNum): (r: JsNum)
    ensures r.Num? <==> a.Num? && b.Num?
    ensures r.Num? ==> r.v >= a.v && r.v >= b.v && (r.v == a.v || r.v == b.v)
  {
    if a.Num? && b.Num? then Num(if a.v >= b.v then a.v else b.v) else NaN
  }

  /** The multiple of 1/scale nearest to `m`, the larger one on a tie. */
  function RoundHalfUp(m: real, scale: real): real
    requires scale > 0.0
  {
    ((m * scale + 0.5).Floor as real) / scale
  }

  /**
   * The value `x.toFixed(digits)` writes: the multiple of 10^-digits nearest
   * to `x`, the one further from zero on a tie, with the sign of `x`.
   */
  function Rounded(x: real, digits: nat): real {
    var scale := Pow10(digits) as real;
    if x < 0.0 then -RoundHalfUp(-x, scale) else RoundHalfUp(x, scale)
  }

  lemma DivideBounds(lo: real, n: real, hi: real, scale: real)
    requires scale > 0.0 && lo <= n <= hi
    ensures lo / scale <= n / scale <= hi / scale
  {
  }

  lemma SplitQuotient(m: real, scale: real, d: real)
    requires scale > 0.0
    ensures (m * scale + d) / scale == m + d / scale
  {
  }

  lemma RoundHalfUpIsNear(m: real, scale: real)
    requires scale > 0.0
    ensures m - 0.5 / scale <= RoundHalfUp(m, scale) <= m + 0.5 / scale
  {
    var y := m * scale + 0.5;
    var n := y.Floor as real;
    assert y - 1.0 < n <= y;
    DivideBounds(m * scale - 0.5, n, m * scale + 0.5, scale);
    SplitQuotient(m, scale, 0.5);
    SplitQuotient(m, scale, -0.5);
    assert -0.5 / scale == -(0.5 / scale);
  }

  /** Rounding moves a value by at most half a unit in the last place written. */
  lemma RoundedIsNear(x: real, digits: nat)
    ensures var r := Rounded(x, digits);
            x - 0.5 / Pow10(digits) as real <= r <= x + 0.5 / Pow10(digits) as real
  {
    var scale := Pow10(digits) as real;
    if x < 0.0 {
      RoundHalfUpIsNear(-x, scale);
    } else {
      RoundHalfUpIsNear(x, scale);
    }
  }

  /** `x.toFixed(digits)` on a value that may be NaN, which stays NaN (written "NaN"). */
  function ToFixed(x: JsNum, digits: nat): (r: JsNum)
    ensures r.Num? <==> x.Num?
  {
    if x.Num? then Num(Rounded(x.v, digits)) else NaN
  }

  lemma RoundHalfUpMonotone(a: real, b: real, scale: real)
    requires scale > 0.0 && a <= b
    ensures RoundHalfUp(a, scale) <= RoundHalfUp(b, scale)
  {
    assert a * scale <= b * scale;
    var ia := (a * scale + 0.5).Floor;
    var ib := (b * scale + 0.5).Floor;
    assert (ia as real) <= a * scale + 0.5 <= b * scale + 0.5 < ib as real + 1.0;
    assert ia <= ib;
    DivideBounds(ia as real, ia as real, ib as real, scale);
  }

  lemma RoundHalfUpNonNegative(m: real, scale: real)
    requires scale > 0.0 && m >= 0.0
    ensures RoundHalfUp(m, scale) >= 0.0
  {
    assert m * scale >= 0.0;
    DivideBounds(0.0, (m * scale + 0.5).Floor as real, (m * scale + 0.5).Floor as real, scale);
  }

  /** Rounding keeps order: a smaller value is never written as a larger one. */
  lemma RoundedMonotone(x: real, y: real, digits: nat)
    requires x <= y
    ensures Rounded(x, digits) <= Rounded(y, digits)
  {
    var scale := Pow10(digits) as real;
    if 0.0 <= x {
      RoundHalfUpMonotone(x, y, scale);
    } else if y < 0.0 {
      RoundHalfUpMonotone(-y, -x, scale);
    } else {
      RoundHalfUpNonNegative(-x, scale);
      RoundHalfUpNonNegative(y, scale);
    }
  }

  // ---------------------------------------------------------------------------
  // Decimal text

  predicate IsDigit(c: char) {
    '0' <= c <= '9'
  }

  /**
   * The white space `parseFloat`, `Number` and `trim` strip: tab, line
   * feed, vertical tab, form feed, carriage return, the line and paragraph
   * separators, the byte order mark and every space separator of Unicode.
   */
  predicate IsSpace(c: char) {
    c == '\t' || c == '\n' || c == '\U{000B}' || c == '\U{000C}' || c == '\r' || c == ' '
    || c == '\U{00A0}' || c == '\U{1680}' || '\U{2000}' <= c <= '\U{200A}'
    || c == '\U{2028}' || c == '\U{2029}' || c == '\U{202F}' || c == '\U{205F}'
    || c == '\U{3000}' || c == '\U{FEFF}'
  }

  predicate AllDigits(s: string) {
    forall i :: 0 <= i < |s| ==> IsDigit(s[i])
  }

  function DigitValue(c: char): (d: nat)
    requires IsDigit(c)
    ensures d < 10
  {
    c as int - '0' as int
  }

  function Pow10(k: nat): (p: nat)
    ensures p >= 1
  {
    if k == 0 then 1 else 10 * Pow10(k - 1)
  }

  /** The value of a string of decimal digits (the empty string is 0). */
  function DigitsValue(s: string): (n: nat)
    requires AllDigits(s)
  {
    if s == [] then 0
    else DigitsValue(s[..|s| - 1]) * 10 + DigitValue(s[|s| - 1])
  }

  /** Length of the run of digits that starts `s`. */
  function LeadingDigits(s: string): (n: nat)
    ensures n <= |s|
    ensures AllDigits(s[..n])
    ensures n < |s| ==> !IsDigit(s[n])
  {
    if s == [] || !IsDigit(s[0]) then 0
    else
      var k := LeadingDigits(s[1..]);
      assert s[..k + 1] == [s[0]] + s[1..][..k];
      k + 1
  }

  /** Length of the run of white space that starts `s`. */
  function LeadingSpaces(s: string): (n: nat)
    ensures n <= |s|
    ensures forall i :: 0 <= i < n ==> IsSpace(s[i])
    ensures n < |s| ==> !IsSpace(s[n])
  {
    if s == [] || !IsSpace(s[0]) then 0 else LeadingSpaces(s[1..]) + 1
  }

  /** Length of the run of white space that ends `s`. */
  function TrailingSpaces(s: string): (n: nat)
    ensures n <= |s|
    ensures forall i :: |s| - n <= i < |s| ==> IsSpace(s[i])
    ensures n < |s| ==> !IsSpace(s[|s| - 1 - n])
  {
    if s == [] || !IsSpace(s[|s| - 1]) then 0 else TrailingSpaces(s[..|s| - 1]) + 1
  }

  /** Length of the optional sign that starts `s`. */
  function SignLength(s: string): (n: nat)
    ensures n <= |s|
  {
    if |s| > 0 && (s[0] == '+' || s[0] == '-') then 1 else 0
  }

  /** 1 when a dot stands at position `i` of `s`, 0 otherwise. */
  function DotLength(s: string, i: nat): (d: nat)
    requires i <= |s|
    ensures d <= 1 && i + d <= |s|
    ensures d == 1 <==> i < |s| && s[i] == '.'
  {
    if i < |s| && s[i] == '.' then 1 else 0
  }

  /** The value of the digits `frac` read after a decimal point. */
  function FractionValue(frac: string): real
    requires AllDigits(frac)
  {
    if frac == [] then 0.0 else (DigitValue(frac[0]) as real + FractionValue(frac[1..])) / 10.0
  }

  /** The value of `whole.frac` for digit strings `whole` and `frac`. */
  function Magnitude(whole: string, frac: string): real
    requires AllDigits(whole) && AllDigits(frac)
  {
    DigitsValue(whole) as real + FractionValue(frac)
  }

  /** The run of digits that starts `s`. */
  function DigitRun(s: string): (r: string)
    ensures AllDigits(r) && |r| <= |s| && r == s[..|r|]
    ensures r == s[..LeadingDigits(s)]
  {
    s[..LeadingDigits(s)]
  }

  /** The parts of a decimal literal found at the start of some text. */
  datatype Literal = Literal(signLen: nat, whole: string, dot: nat, frac: string) {
    function Length(): nat { signLen + |whole| + dot + |frac| }
  }

  /** Splits the start of `s` into sign, digits, dot and fraction digits (each possibly empty). */
  function LiteralAt(s: string): (p: Literal)
    ensures p.Length() <= |s|
    ensures AllDigits(p.whole) && AllDigits(p.frac)
  {
    var signLen := SignLength(s);
    var rest := s[signLen..];
    var whole := DigitRun(rest);
    var dot := DotLength(rest, |whole|);
    var frac := if dot == 1 then DigitRun(rest[|whole| + 1..]) else "";
    Literal(signLen, whole, dot, frac)
  }

  /**
   * Reads a decimal literal `[+-]? digits [. digits]` (at least one digit in
   * all) at the start of `s`: its value and the number of characters it takes.
   */
  function ScanDecimal(s: string): (r: Option<(real, nat)>)
    ensures r.Some? ==> 0 < r.value.1 <= |s|
  {
    var p := LiteralAt(s);
    if |p.whole| + |p.frac| == 0 then None
    else
      var magnitude := Magnitude(p.whole, p.frac);
      Some((if p.signLen == 1 && s[0] == '-' then -magnitude else magnitude, p.Length()))
  }

  /** `parseFloat(s)`: the longest decimal prefix after leading white space, or NaN. */
  function ParseFloat(s: string): JsNum {
    match ScanDecimal(s[LeadingSpaces(s)..])
    case None => NaN
    case Some((v, _)) => Num(v)
  }

  /** `s` without its leading and trailing white space (`String.prototype.trim`). */
  function Trim(s: string): (t: string)
    ensures |t| <= |s|
  {
    var lead := LeadingSpaces(s);
    var rest := s[lead..];
    rest[..|rest| - TrailingSpaces(rest)]
  }

  /** `Number(s)`: 0 for blank text, the value of a whole decimal literal, NaN otherwise. */
  function ToNumber(s: string): JsNum {
    var t := Trim(s);
    if t == "" then Num(0.0)
    else match ScanDecimal(t)
      case Some((v, n)) => if n == |t| then Num(v) else NaN
      case None => NaN
  }

  /** The decimal text of a natural number, as `String(n)` writes it. */
  function NatText(n: nat): (s: string)
    ensures |s| > 0 && AllDigits(s)
    ensures |s| > 1 ==> s[0] != '0'
  {
    var last := ['0' + (n % 10) as char];
    if n < 10 then last else NatText(n / 10) + last
  }

  // ---------------------------------------------------------------------------
  // Facts about the parsers

  lemma {:induction false} DigitsValueOfNatText(n: nat)
    ensures DigitsValue(NatText(n)) == n
  {
    var s := NatText(n);
    if n >= 10 {
      DigitsValueOfNatText(n / 10);
      assert s[..|s| - 1] == NatText(n / 10);
    }
  }

  lemma {:induction false} DigitRunOfDigits(s: string)
    requires AllDigits(s)
    ensures DigitRun(s) == s
  {
    if s != [] {
      DigitRunOfDigits(s[1..]);
    }
  }

  /** Appending text that does not start with a digit leaves the leading digit run alone. */
  lemma {:induction false} DigitRunOfAppend(a: string, w: string)
    requires |w| == 0 || !IsDigit(w[0])
    ensures DigitRun(a + w) == DigitRun(a)
  {
    if a != [] && IsDigit(a[0]) {
      assert (a + w)[1..] == a[1..] + w;
      DigitRunOfAppend(a[1..], w);
    }
  }

  /** A string of digits reads as the number it spells, and is read whole. */
  lemma ScanDigits(s: string)
    requires |s| > 0 && AllDigits(s)
    ensures ScanDecimal(s) == Some((DigitsValue(s) as real, |s|))
  {
    assert SignLength(s) == 0;
    assert s[0..] == s;
    DigitRunOfDigits(s);
    assert DotLength(s, |s|) == 0;
    assert Magnitude(s, "") == DigitsValue(s) as real;
  }

  /** Digits with an optional fractional part, as typed into a number field: `w`, or `w.f`. */
  function DecimalText(w: string, f: string): string {
    if f == "" then w else w + "." + f
  }

  /** `parseFloat` reads digits with an optional fractional part as the number they write. */
  lemma ParseDecimalText(w: string, f: string)
    requires |w| > 0 && AllDigits(w) && AllDigits(f)
    ensures ParseFloat(DecimalText(w, f)) == Num(Magnitude(w, f))
  {
    var s := DecimalText(w, f);
    assert s[0] == w[0];
    assert LeadingSpaces(s) == 0;
    assert s[0..] == s;
    if f == "" {
      ScanDigits(w);
    } else {
      var tail := "." + f;
      assert s == w + tail;
      DigitRunOfAppend(w, tail);
      DigitRunOfDigits(w);
      assert SignLength(s) == 0;
      assert s[|w|] == '.';
      assert s[|w| + 1..] == f;
      DigitRunOfDigits(f);
    }
  }

  /** `parseFloat` skips a leading no-break space. */
  lemma NoBreakSpaceSkipped()
    ensures ParseFloat("\U{00A0}12") == Num(12.0)
  {
    var s := "\U{00A0}12";
    assert LeadingSpaces(s[1..]) == 0;
    assert LeadingSpaces(s) == 1;
    assert s[1..] == DecimalText("12", "");
    ParseDecimalText("12", "");
    assert "12"[..1] == "1" && "1"[..0] == "";
    assert DigitsValue("12") == 12;
  }

  /** `Number` reads text of a no-break space alone as blank, so as 0. */
  lemma NoBreakSpaceIsBlank()
    ensures ToNumber("\U{00A0}") == Num(0.0)
  {
    var b := "\U{00A0}";
    assert LeadingSpaces(b[1..]) == 0;
    assert b[1..] == "";
  }

  /** An instance of `ParseDecimalText`, for illustration: a height typed in metres, "1.75", reads as 1.75 metres. */
  lemma ParseMetres()
    ensures ParseFloat(DecimalText("1", "75")) == Num(1.75)
  {
    ParseDecimalText("1", "75");
    assert "1"[..0] == "";
    assert DigitsValue("1") == 1;
    assert "75"[1..] == "5" && "5"[1..] == "";
    assert FractionValue("5") == 0.5;
    assert FractionValue("75") == 0.75;
    assert Magnitude("1", "75") == 1.75;
  }

  /** Text that starts with a digit is trimmed of nothing at its front. */
  lemma TrimOfDigits(s: string)
    requires |s| > 0 && AllDigits(s)
    ensures LeadingSpaces(s) == 0 && Trim(s) == s
  {
    assert LeadingSpaces(s) == 0;
    assert s[0..] == s;
    assert TrailingSpaces(s) == 0;
    assert s[..|s|] == s;
  }

  /** `parseFloat(String(n)) == n` and `Number(String(n)) == n`. */
  lemma ParseNatText(n: nat)
    ensures ParseFloat(NatText(n)) == Num(n as real)
    ensures ToNumber(NatText(n)) == Num(n as real)
  {
    var s := NatText(n);
    var v := n as real;
    assert ScanDecimal(s) == Some((v, |s|)) by {
      DigitsValueOfNatText(n);
      ScanDigits(s);
    }
    TrimOfDigits(s);
    assert s[LeadingSpaces(s)..] == s;
  }

  predicate NoDigits(s: string) {
    forall i :: 0 <= i < |s| ==> !IsDigit(s[i])
  }

  lemma ScanWithoutDigits(t: string)
    requires NoDigits(t)
    ensures ScanDecimal(t) == None
  {
    var rest := t[SignLength(t)..];
    assert DigitRun(rest) == "";
    if DotLength(rest, 0) == 1 {
      assert DigitRun(rest[1..]) == "";
    }
  }

  /** Neither parser finds a number in text that holds no digit. */
  lemma NoDigitNoNumber(s: string)
    requires NoDigits(s)
    ensures ParseFloat(s) == NaN
    ensures Trim(s) != "" ==> ToNumber(s) == NaN
  {
    var rest := s[LeadingSpaces(s)..];
    assert NoDigits(rest);
    ScanWithoutDigits(rest);
    var t := Trim(s);
    assert t == rest[..|t|];
    assert NoDigits(t);
    ScanWithoutDigits(t);
  }

  /** Trailing white space after a whole decimal literal does not change its parts. */
  lemma LiteralIgnoresSpaceTail(t: string, w: string)
    requires LiteralAt(t).Length() == |t|
    requires forall i :: 0 <= i < |w| ==> IsSpace(w[i])
    ensures LiteralAt(t + w) == LiteralAt(t)
  {
    var s := t + w;
    var p := LiteralAt(t);
    var restT := t[p.signLen..];
    SliceOfAppend(t, w, p.signLen);
    assert SignLength(s) == p.signLen;
    DigitRunOfAppend(restT, w);
    assert DotLength(restT + w, |p.whole|) == p.dot by {
      if |p.whole| == |restT| {
        if |w| > 0 { assert (restT + w)[|p.whole|] == w[0]; }
      } else {
        assert (restT + w)[|p.whole|] == restT[|p.whole|];
      }
    }
    if p.dot == 1 {
      SliceOfAppend(restT, w, |p.whole| + 1);
      DigitRunOfAppend(restT[|p.whole| + 1..], w);
    }
  }

  lemma SliceOfAppend(a: string, w: string, k: nat)
    requires k <= |a|
    ensures (a + w)[k..] == a[k..] + w
  {
  }

  /** Trailing white space after a whole decimal literal does not change what is read. */
  lemma ScanIgnoresSpaceTail(t: string, w: string)
    requires ScanDecimal(t).Some? && ScanDecimal(t).value.1 == |t|
    requires forall i :: 0 <= i < |w| ==> IsSpace(w[i])
    ensures ScanDecimal(t + w) == ScanDecimal(t)
  {
    LiteralIgnoresSpaceTail(t, w);
    assert (t + w)[0] == t[0];
  }

  /** Whenever `Number(s)` finds a value in non-blank text, `parseFloat(s)` finds the same one. */
  lemma NumberAgreesWithParseFloat(s: string)
    requires Trim(s) != "" && ToNumber(s).Num?
    ensures ParseFloat(s) == ToNumber(s)
  {
    var rest := s[LeadingSpaces(s)..];
    var k := |rest| - TrailingSpaces(rest);
    SpaceTail(rest, k);
    ScanIgnoresSpaceTail(rest[..k], rest[k..]);
  }

  /** Text is the part before its trailing white space followed by that white space. */
  lemma SpaceTail(s: string, k: int)
    requires k == |s| - TrailingSpaces(s)
    ensures 0 <= k <= |s| && s == s[..k] + s[k..]
    ensures forall i :: 0 <= i < |s[k..]| ==> IsSpace(s[k..][i])
  {
  }
}
