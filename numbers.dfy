/** Text-to-number and number-to-text helpers of the slab calculator:
    the lenient parser behind every numeric field (`_num_or_none`), the
    rounding used for marks and cut centres (`round_half_up`), and the
    decimal rendering of integers that the report and the marking diagram
    print. */
module Numbers {

  datatype Option<+T> = None | Some(value: T)

  predicate IsDigit(c: char) { '0' <= c <= '9' }

  predicate AllDigits(s: string) { forall i :: 0 <= i < |s| ==> IsDigit(s[i]) }

  /** The whitespace that Python's `str.strip()` removes (`str.isspace`):
      the ASCII spaces and separators and the Unicode space characters. */
  predicate IsSpace(c: char) {
    c == ' ' || '\t' <= c <= '\r' || '\U{001C}' <= c <= '\U{001F}'
    || c == '\U{0085}' || c == '\U{00A0}' || c == '\U{1680}' || '\U{2000}' <= c <= '\U{200A}'
    || c == '\U{2028}' || c == '\U{2029}' || c == '\U{202F}' || c == '\U{205F}' || c == '\U{3000}'
  }

  function DigitValue(c: char): (d: nat)
    requires IsDigit(c)
    ensures d < 10
  {
    (c as int) - ('0' as int)
  }

  function DigitChar(d: nat): (c: char)
    requires d < 10
    ensures IsDigit(c) && DigitValue(c) == d
  {
    ('0' as int + d) as char
  }

  // ---------------------------------------------------------------------
  // Stripping

  /** Number of whitespace characters `s` starts with. */
  function LeadCount(s: string): (n: nat)
    ensures n <= |s|
    ensures forall k :: 0 <= k < n ==> IsSpace(s[k])
    ensures n < |s| ==> !IsSpace(s[n])
  {
    if s != [] && IsSpace(s[0]) then 1 + LeadCount(s[1..]) else 0
  }

  /** Number of whitespace characters `s` ends with. */
  function TrailCount(s: string): (n: nat)
    ensures n <= |s|
    ensures forall k :: |s| - n <= k < |s| ==> IsSpace(s[k])
    ensures n < |s| ==> !IsSpace(s[|s| - n - 1])
  {
    if s != [] && IsSpace(s[|s| - 1]) then 1 + TrailCount(s[..|s| - 1]) else 0
  }

  /** `str.strip()`: the infix of `s` left once its leading and trailing
      whitespace is removed; it neither starts nor ends with whitespace. */
  function Strip(s: string): (r: string)
    ensures |r| <= |s|
    ensures var i := LeadCount(s);
            i + |r| <= |s| && r == s[i..i + |r|]
            && (forall k :: 0 <= k < i ==> IsSpace(s[k]))
            && (forall k :: i + |r| <= k < |s| ==> IsSpace(s[k]))
    ensures r == [] || (!IsSpace(r[0]) && !IsSpace(r[|r| - 1]))
    ensures r == [] ==> forall k :: 0 <= k < |s| ==> IsSpace(s[k])
    ensures (s == [] || (!IsSpace(s[0]) && !IsSpace(s[|s| - 1]))) ==> r == s
  {
    var i := LeadCount(s);
    var m := TrailCount(s[i..]);
    StripBounds(s, i, m);
    s[i..|s| - m]
  }

  /** Whitespace counted at both ends of `s` frames the stripped text:
      `i` characters of leading whitespace, then, in what follows, `m`
      characters of trailing whitespace. */
  lemma StripBounds(s: string, i: nat, m: nat)
    requires i <= |s| && (forall k :: 0 <= k < i ==> IsSpace(s[k])) && (i < |s| ==> !IsSpace(s[i]))
    requires m <= |s| - i && (forall k :: |s| - i - m <= k < |s| - i ==> IsSpace(s[i..][k]))
    requires m < |s| - i ==> !IsSpace(s[i..][|s| - i - m - 1])
    ensures var r := s[i..|s| - m];
            i + |r| <= |s| && r == s[i..i + |r|]
            && (forall k :: i + |r| <= k < |s| ==> IsSpace(s[k]))
            && (r == [] || (!IsSpace(r[0]) && !IsSpace(r[|r| - 1])))
            && (r == [] ==> forall k :: 0 <= k < |s| ==> IsSpace(s[k]))
            && ((s == [] || (!IsSpace(s[0]) && !IsSpace(s[|s| - 1]))) ==> r == s)
  {
    var r := s[i..|s| - m];
    forall k | |s| - m <= k < |s| ensures IsSpace(s[k]) {
      assert s[k] == s[i..][k - i];
    }
    if i < |s| - m {
      assert s[|s| - m - 1] == s[i..][|s| - i - m - 1];
      assert r[0] == s[i] && r[|r| - 1] == s[|s| - m - 1];
    }
    if s != [] && !IsSpace(s[0]) && !IsSpace(s[|s| - 1]) {
      assert i == 0;
      assert s[i..] == s;
      assert r == s;
    }
  }

  /** Stripping recovers the text between any surrounding whitespace, so the
      result does not depend on how the whitespace is split around it. */
  lemma StripSurrounded(a: string, t: string, b: string)
    requires forall k :: 0 <= k < |a| ==> IsSpace(a[k])
    requires forall k :: 0 <= k < |b| ==> IsSpace(b[k])
    requires t == [] || (!IsSpace(t[0]) && !IsSpace(t[|t| - 1]))
    ensures Strip(a + t + b) == t
  {
    var s := a + t + b;
    var r := Strip(s);
    var i := LeadCount(s);
    assert forall k :: 0 <= k < |a| ==> s[k] == a[k];
    assert forall k :: |a| + |t| <= k < |s| ==> s[k] == b[k - |a| - |t|];
    if t == [] {
      assert forall k :: 0 <= k < |s| ==> IsSpace(s[k]);
    } else {
      assert s[|a|] == t[0] && s[|a| + |t| - 1] == t[|t| - 1];
      assert i == |a| && i + |r| == |a| + |t|;
      assert s[|a|..|a| + |t|] == t;
    }
  }

  // ---------------------------------------------------------------------
  // Parsing

  function Pow10(k: nat): (p: nat)
    ensures p >= 1
  {
    if k == 0 then 1 else 10 * Pow10(k - 1)
  }

  /** Value of a string of decimal digits, most significant first. */
  function DigitsValue(s: string): nat
    requires AllDigits(s)
  {
    if s == [] then 0 else 10 * DigitsValue(s[..|s| - 1]) + DigitValue(s[|s| - 1])
  }

  /** Index of the first `c` in `s`, or `|s|` when there is none. */
  function FirstIndexOf(s: string, c: char): (i: nat)
    ensures i <= |s|
    ensures forall k :: 0 <= k < i ==> s[k] != c
    ensures i < |s| ==> s[i] == c
  {
    if s == [] then 0 else if s[0] == c then 0 else 1 + FirstIndexOf(s[1..], c)
  }

  /** An unsigned decimal: digits, optionally one `.` followed by digits,
      with at least one digit in all (`"12"`, `"12."`, `".5"`, `"1.5"`). */
  function ParseUnsigned(s: string): (r: Option<real>)
    ensures r.Some? ==> r.value >= 0.0 && s != []
    ensures r.Some? ==> forall k :: 0 <= k < |s| ==> IsDigit(s[k]) || s[k] == '.'
    ensures AllDigits(s) && s != [] ==> r == Some(DigitsValue(s) as real)
    ensures !AllDigits(s) && '.' !in s ==> r == None
  {
    var i := FirstIndexOf(s, '.');
    var whole := s[..i];
    var frac := if i < |s| then s[i + 1..] else [];
    if !AllDigits(whole) || !AllDigits(frac) || |whole| + |frac| == 0 then None
    else
      assert forall k :: 0 <= k < |s| ==> IsDigit(s[k]) || s[k] == '.' by {
        forall k | 0 <= k < |s| ensures IsDigit(s[k]) || s[k] == '.' {
          if k < i { assert s[k] == whole[k]; }
          else if k > i { assert s[k] == frac[k - i - 1]; }
        }
      }
      assert AllDigits(s) ==> i == |s| && whole == s;
      Some(DecimalOf(whole, frac))
  }

  /** The value of whole digits and fraction digits around a dot. */
  function DecimalOf(whole: string, frac: string): (v: real)
    requires AllDigits(whole) && AllDigits(frac)
    ensures v >= 0.0
  {
    DigitsValue(whole) as real + (DigitsValue(frac) as real) / (Pow10(|frac|) as real)
  }

  /** The part of Python's `float()` grammar that the calculator's input
      fields can produce: an optional sign followed by an unsigned decimal.
      Exponents, `inf`, `nan` and digit-group underscores are not accepted. */
  function ParseFloat(s: string): (r: Option<real>)
    ensures r.Some? ==> s != []
    ensures r.Some? && r.value < 0.0 ==> s[0] == '-'
    ensures s != [] && s[0] != '+' && s[0] != '-' ==> r == ParseUnsigned(s)
  {
    if s != [] && s[0] == '-' then
      match ParseUnsigned(s[1..])
      case Some(v) => Some(-v)
      case None => None
    else if s != [] && s[0] == '+' then ParseUnsigned(s[1..])
    else ParseUnsigned(s)
  }

  /** `_num_or_none`: a missing or blank text is `None`; otherwise the text,
      stripped of surrounding whitespace, is parsed, and a text that does not
      parse is `None` too. */
  function NumOrNone(s: Option<string>): (r: Option<real>)
    ensures s.None? ==> r.None?
    ensures s.Some? && (forall k :: 0 <= k < |s.value| ==> IsSpace(s.value[k])) ==> r.None?
    ensures r.Some? ==> s.Some? && Strip(s.value) != [] && ParseFloat(Strip(s.value)).Some?
    ensures s.Some? && ParseFloat(Strip(s.value)).Some? ==> r == ParseFloat(Strip(s.value))
  {
    var u := if s.Some? then s.value else "";
    var t := Strip(u);
    assert (forall k :: 0 <= k < |u| ==> IsSpace(u[k])) ==> t == [] by {
      if t != [] {
        var i := LeadCount(u);
        assert t[0] == u[i] && !IsSpace(t[0]);
      }
    }
    if t == [] then None else ParseFloat(t)
  }

  /** Number of `.` characters in `s`. */
  function DotCount(s: string): nat
  {
    if s == [] then 0 else (if s[0] == '.' then 1 else 0) + DotCount(s[1..])
  }

  lemma {:induction false} DotCountAppend(a: string, b: string)
    ensures DotCount(a + b) == DotCount(a) + DotCount(b)
  {
    if a != [] {
      assert (a + b)[1..] == a[1..] + b;
      DotCountAppend(a[1..], b);
    } else {
      assert a + b == b;
    }
  }

  lemma {:induction false} DotCountZero(s: string)
    ensures DotCount(s) == 0 <==> '.' !in s
    ensures DotCount(s) <= |s|
  {
    if s != [] {
      DotCountZero(s[1..]);
      assert s == [s[0]] + s[1..];
    }
  }

  /** The value of a decimal text: whole digits, a dot, fraction digits. */
  lemma DecimalValue(whole: string, frac: string)
    requires AllDigits(whole) && AllDigits(frac) && |whole| + |frac| > 0
    ensures ParseFloat(whole + "." + frac) == Some(DecimalOf(whole, frac))
  {
    var s := whole + "." + frac;
    DecimalSplit(whole, frac);
    assert ParseFloat(s) == ParseUnsigned(s);
  }

  lemma DecimalSplit(whole: string, frac: string)
    requires AllDigits(whole)
    ensures var s := whole + "." + frac;
            FirstIndexOf(s, '.') == |whole| && s[..|whole|] == whole && s[|whole| + 1..] == frac
            && s[0] != '+' && s[0] != '-'
  {
    var s := whole + "." + frac;
    assert s[|whole|] == '.';
    assert forall k :: 0 <= k < |whole| ==> s[k] == whole[k];
    assert s[..|whole|] == whole && s[|whole| + 1..] == frac;
  }

  /** When an unsigned decimal parses, split at its first dot. */
  lemma ParseUnsignedSplit(s: string)
    ensures var i := FirstIndexOf(s, '.');
            var frac := if i < |s| then s[i + 1..] else [];
            ParseUnsigned(s).Some? <==> AllDigits(s[..i]) && AllDigits(frac) && |s[..i]| + |frac| > 0
  {
  }

  /** On text made only of digits and dots, which is all a numeric field of
      the calculator accepts, parsing succeeds exactly when there is at most
      one dot and at least one digit. */
  lemma ParseDigitsAndDots(s: string)
    requires forall k :: 0 <= k < |s| ==> IsDigit(s[k]) || s[k] == '.'
    ensures ParseFloat(s).Some? <==> DotCount(s) <= 1 && DotCount(s) < |s|
  {
    var i := FirstIndexOf(s, '.');
    assert ParseFloat(s) == ParseUnsigned(s);
    ParseUnsignedSplit(s);
    DigitsBeforeDot(s, i);
    if i < |s| {
      DotsAfterFirst(s, i);
    } else {
      NoDot(s);
    }
  }

  lemma DigitsBeforeDot(s: string, i: nat)
    requires i <= |s| && forall k :: 0 <= k < |s| ==> IsDigit(s[k]) || s[k] == '.'
    requires forall k :: 0 <= k < i ==> s[k] != '.'
    ensures AllDigits(s[..i])
  {
    forall k | 0 <= k < i ensures IsDigit(s[..i][k]) { assert s[..i][k] == s[k]; }
  }

  lemma NoDot(s: string)
    requires FirstIndexOf(s, '.') == |s|
    ensures s[..FirstIndexOf(s, '.')] == s && DotCount(s) == 0
  {
    DotCountZero(s);
  }

  lemma DotsAfterFirst(s: string, i: nat)
    requires i < |s| && s[i] == '.'
    requires forall k :: 0 <= k < |s| ==> IsDigit(s[k]) || s[k] == '.'
    requires forall k :: 0 <= k < i ==> s[k] != '.'
    ensures DotCount(s) == 1 + DotCount(s[i + 1..])
    ensures AllDigits(s[i + 1..]) <==> DotCount(s[i + 1..]) == 0
  {
    var whole, frac := s[..i], s[i + 1..];
    assert s == whole + [s[i]] + frac;
    DotCountAppend(whole + [s[i]], frac);
    DotCountAppend(whole, [s[i]]);
    assert DotCount([s[i]]) == 1;
    DotCountZero(whole);
    DotCountZero(frac);
    if '.' !in frac {
      forall k | 0 <= k < |frac| ensures IsDigit(frac[k]) { assert frac[k] == s[i + 1 + k]; }
    }
  }

  // ---------------------------------------------------------------------
  // Rounding

  /** `round_half_up`: `int(x + 0.5)`. Python's `int` truncates toward
      zero: for x >= -0.5 this is `floor(x + 0.5)`; below -0.5 it is one
      more than the floor whenever `x + 0.5` is not an integer (-1.0 gives
      0 where the floor gives -1). */
  function RoundHalfUp(x: real): (r: int)
    ensures x >= -0.5 ==> r as real <= x + 0.5 < r as real + 1.0
    ensures x < -0.5 ==> r as real - 1.0 < x + 0.5 <= r as real
  {
    var y := x + 0.5;
    if y >= 0.0 then y.Floor else -((-y).Floor)
  }

  /** Where the rounding is the textbook round-half-up, and where it is not. */
  lemma RoundHalfUpAgreesWithFloor(x: real)
    ensures x >= -0.5 ==> RoundHalfUp(x) == (x + 0.5).Floor
    ensures x < -0.5 && (x + 0.5).Floor as real != x + 0.5 ==> RoundHalfUp(x) == (x + 0.5).Floor + 1
  {
  }

  lemma RoundHalfUpExamples()
    ensures RoundHalfUp(2.5) == 3 && RoundHalfUp(2.4) == 2 && RoundHalfUp(2.0) == 2
    ensures RoundHalfUp(4015.0) == 4015 && RoundHalfUp(4015.49) == 4015
    ensures RoundHalfUp(-1.0) == 0 && (-1.0 + 0.5).Floor == -1
  {
  }

  // ---------------------------------------------------------------------
  // Rendering integers (Python's `str(int)`)

  function NatText(n: nat): (s: string)
    ensures AllDigits(s) && s != []
    ensures n > 0 ==> s[0] != '0'
  {
    if n < 10 then [DigitChar(n)] else NatText(n / 10) + [DigitChar(n % 10)]
  }

  function IntText(i: int): (s: string)
    ensures s != []
    ensures forall k :: 0 <= k < |s| ==> IsDigit(s[k]) || (k == 0 && s[k] == '-')
    ensures (s[0] == '-') <==> i < 0
  {
    if i < 0 then "-" + NatText(-i) else NatText(i)
  }

  lemma {:induction false} NatTextValue(n: nat)
    ensures DigitsValue(NatText(n)) == n
  {
    if n >= 10 {
      var s := NatText(n);
      assert s[..|s| - 1] == NatText(n / 10);
      NatTextValue(n / 10);
    }
  }

  /** Rendering an integer and parsing it back gives the integer. */
  lemma ParseFloatOfIntText(i: int)
    ensures ParseFloat(IntText(i)) == Some(i as real)
  {
    var n := if i < 0 then -i else i;
    NatTextValue(n);
    if i < 0 {
      assert IntText(i)[1..] == NatText(n);
    }
  }

  /** An optionally negative run of decimal digits, as `int()` reads what
      `str(int)` writes. */
  function ParseInt(s: string): (r: Option<int>)
    ensures r.Some? ==> s != [] && (r.value < 0 ==> s[0] == '-')
  {
    if s != [] && s[0] == '-' then
      (if |s| > 1 && AllDigits(s[1..]) then Some(-(DigitsValue(s[1..]) as int)) else None)
    else if s != [] && AllDigits(s) then Some(DigitsValue(s) as int)
    else None
  }

  lemma ParseIntOfIntText(i: int)
    ensures ParseInt(IntText(i)) == Some(i)
  {
    var n := if i < 0 then -i else i;
    NatTextValue(n);
    if i < 0 {
      assert IntText(i)[1..] == NatText(n);
    }
  }

  lemma NumOrNoneIntText(i: int)
    ensures NumOrNone(Some(IntText(i))) == Some(i as real)
  {
    ParseFloatOfIntText(i);
    var s := IntText(i);
    assert !IsSpace(s[0]) && !IsSpace(s[|s| - 1]);
  }
}
