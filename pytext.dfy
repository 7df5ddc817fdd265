/**
 * The pieces of Python's text handling that the sequencer relies on:
 * `str.strip()`, `str.split(sep)`, `str(n)`, `int(text)` and `float(text)`,
 * over ASCII text.
 */
module PyText {
  import opened Wrappers

  /** ASCII characters that Python's `str.isspace` accepts (tab to carriage return, the four separators, space). */
  predicate IsSpace(c: char) {
    (9 <= c as int <= 13) || (28 <= c as int <= 31) || c == ' '
  }

  predicate IsDigit(c: char) {
    '0' <= c <= '9'
  }

  function DigitOf(c: char): (d: nat)
    requires IsDigit(c)
    ensures d < 10
  {
    (c - '0') as nat
  }

  function CharOf(d: nat): (c: char)
    requires d < 10
    ensures IsDigit(c) && DigitOf(c) == d
  {
    ('0' as int + d) as char
  }

  // ---------------------------------------------------------------------------
  // str.strip()

  /** `s` with its leading whitespace removed. */
  function StripLeft(s: string): (r: string)
    ensures |r| <= |s| && r == s[|s| - |r|..]
    ensures |r| > 0 ==> !IsSpace(r[0])
    ensures forall i :: 0 <= i < |s| - |r| ==> IsSpace(s[i])
  {
    if |s| > 0 && IsSpace(s[0]) then StripLeft(s[1..]) else s
  }

  /** `s` with its trailing whitespace removed. */
  function StripRight(s: string): (r: string)
    ensures |r| <= |s| && r == s[..|r|]
    ensures |r| > 0 ==> !IsSpace(r[|r| - 1])
    ensures forall i :: |r| <= i < |s| ==> IsSpace(s[i])
  {
    if |s| > 0 && IsSpace(s[|s| - 1]) then StripRight(s[..|s| - 1]) else s
  }

  /** Python's `s.strip()`: the text between the leading and the trailing whitespace. */
  function Strip(s: string): (r: string)
  {
    StripRight(StripLeft(s))
  }

  /** Where the stripped text starts in `s`. */
  function StripStart(s: string): nat
  {
    |s| - |StripLeft(s)|
  }

  /** `strip` returns a slice of its argument that neither starts nor ends with whitespace, and only whitespace was cut. */
  lemma StripSlice(s: string)
    ensures StripStart(s) + |Strip(s)| <= |s|
    ensures Strip(s) == s[StripStart(s)..StripStart(s) + |Strip(s)|]
    ensures forall i :: 0 <= i < StripStart(s) ==> IsSpace(s[i])
    ensures forall i :: StripStart(s) + |Strip(s)| <= i < |s| ==> IsSpace(s[i])
    ensures |Strip(s)| > 0 ==> !IsSpace(Strip(s)[0]) && !IsSpace(Strip(s)[|Strip(s)| - 1])
  {
    var l := StripLeft(s);
    var k := |s| - |l|;
    assert Strip(s) == s[k..k + |Strip(s)|];
    forall i | k + |Strip(s)| <= i < |s| ensures IsSpace(s[i]) {
      assert s[i] == l[i - k];
    }
  }

  /** Text that neither starts nor ends with whitespace is left as it is. */
  lemma StripTrimmed(s: string)
    requires |s| > 0 ==> !IsSpace(s[0]) && !IsSpace(s[|s| - 1])
    ensures Strip(s) == s
  {
  }

  /** Stripping twice is stripping once. */
  lemma StripIdempotent(s: string)
    ensures Strip(Strip(s)) == Strip(s)
  {
    StripSlice(s);
    StripTrimmed(Strip(s));
  }

  // ---------------------------------------------------------------------------
  // str.split(sep)

  /** Python's `s.split(sep)` for a one-character separator: the pieces between separators, always at least one. */
  function Split(s: string, sep: char): (parts: seq<string>)
    ensures |parts| >= 1
    ensures forall i :: 0 <= i < |parts| ==> sep !in parts[i]
  {
    if |s| == 0 then [""]
    else if s[0] == sep then [""] + Split(s[1..], sep)
    else
      var rest := Split(s[1..], sep);
      [[s[0]] + rest[0]] + rest[1..]
  }

  /** The pieces joined back with the separator. */
  function Join(parts: seq<string>, sep: char): string
  {
    if |parts| == 0 then ""
    else if |parts| == 1 then parts[0]
    else parts[0] + [sep] + Join(parts[1..], sep)
  }

  /** Splitting loses nothing: joining the pieces with the separator gives back the text. */
  lemma {:induction false} SplitJoin(s: string, sep: char)
    ensures Join(Split(s, sep), sep) == s
  {
    if |s| == 0 {
    } else if s[0] == sep {
      SplitJoin(s[1..], sep);
      assert [""] + Split(s[1..], sep) == Split(s, sep);
      assert Split(s, sep)[1..] == Split(s[1..], sep);
      assert s == [sep] + s[1..];
    } else {
      SplitJoin(s[1..], sep);
      var rest := Split(s[1..], sep);
      if |rest| == 1 {
        assert s == [s[0]] + s[1..];
      } else {
        var parts := Split(s, sep);
        assert parts[1..] == rest[1..];
        assert Join(rest, sep) == rest[0] + [sep] + Join(rest[1..], sep);
        assert s == [s[0]] + s[1..];
      }
    }
  }

  /** There is a second piece exactly when the separator occurs. */
  lemma {:induction false} SplitHasSecond(s: string, sep: char)
    ensures |Split(s, sep)| >= 2 <==> sep in s
  {
    if |s| > 0 && s[0] != sep {
      SplitHasSecond(s[1..], sep);
      assert sep in s <==> sep in s[1..];
    }
  }

  /** The first piece is the text before the first separator, and the second begins right after it. */
  lemma {:induction false} SplitFirstPieces(s: string, sep: char, i: nat)
    requires i < |s| && s[i] == sep && sep !in s[..i]
    ensures |Split(s, sep)| >= 2
    ensures Split(s, sep)[0] == s[..i]
    ensures Split(s, sep)[1] == Split(s[i + 1..], sep)[0]
  {
    if i > 0 {
      assert s[0] != sep by { assert s[0] == s[..i][0]; }
      assert s[1..][..i - 1] == s[1..i];
      assert s[1..][..i - 1] == s[..i][1..];
      SplitFirstPieces(s[1..], sep, i - 1);
      assert s[1..][i..] == s[i + 1..];
      assert [s[0]] + s[1..][..i - 1] == s[..i];
    }
  }

  // ---------------------------------------------------------------------------
  // str(n) and int(text)

  /** Python's `str(n)` for a natural number: its decimal digits, no leading zeros. */
  function NatToString(n: nat): (s: string)
    ensures |s| > 0 && forall i :: 0 <= i < |s| ==> IsDigit(s[i])
    ensures n > 0 ==> s[0] != '0'
  {
    if n < 10 then [CharOf(n)] else NatToString(n / 10) + [CharOf(n % 10)]
  }

  /** Python's `str(n)` for any integer. */
  function IntToString(n: int): string
  {
    if n < 0 then "-" + NatToString(-n) else NatToString(n)
  }

  /**
   * The digit body Python's `int` accepts in base 10: digits, with single
   * underscores allowed between two digits (`1_000`); leading zeros are allowed.
   */
  predicate IsDigitGroups(s: string) {
    && |s| > 0
    && IsDigit(s[0]) && IsDigit(s[|s| - 1])
    && (forall i :: 0 <= i < |s| ==> IsDigit(s[i]) || s[i] == '_')
    && (forall i :: 0 <= i < |s| - 1 ==> !(s[i] == '_' && s[i + 1] == '_'))
  }

  /** The number written by the digits of `s`, reading them left to right and skipping underscores. */
  function DigitsValue(s: string): nat
    requires forall i :: 0 <= i < |s| ==> IsDigit(s[i]) || s[i] == '_'
  {
    if |s| == 0 then 0
    else if s[|s| - 1] == '_' then DigitsValue(s[..|s| - 1])
    else DigitsValue(s[..|s| - 1]) * 10 + DigitOf(s[|s| - 1])
  }

  /** Python's `int(text)`: optional surrounding whitespace, an optional sign, then digit groups; anything else raises `ValueError` (None). */
  function ParseInt(text: string): Option<int>
  {
    var t := Strip(text);
    if |t| > 0 && (t[0] == '+' || t[0] == '-') then
      var body := t[1..];
      if IsDigitGroups(body) then
        Some(if t[0] == '-' then -(DigitsValue(body) as int) else DigitsValue(body) as int)
      else None
    else if IsDigitGroups(t) then
      Some(DigitsValue(t))
    else None
  }

  /** The digits of `str(n)` read back as `n`. */
  lemma {:induction false} NatToStringValue(n: nat)
    ensures DigitsValue(NatToString(n)) == n
  {
    var s := NatToString(n);
    if n >= 10 {
      NatToStringValue(n / 10);
      assert s[..|s| - 1] == NatToString(n / 10);
    }
  }

  /** `int(str(n)) == n` for every integer. */
  lemma ParseIntRoundTrip(n: int)
    ensures ParseInt(IntToString(n)) == Some(n)
  {
    var m: nat := if n < 0 then -n else n;
    var d := NatToString(m);
    NatToStringValue(m);
    assert IsDigitGroups(d);
    var s := IntToString(n);
    if n < 0 {
      assert s == "-" + d;
      assert s[1..] == d && s[0] == '-' && s[|s| - 1] == d[|d| - 1];
      StripTrimmed(s);
      assert ParseInt(s) == Some(-(DigitsValue(d) as int));
    } else {
      assert s == d;
      StripTrimmed(s);
      assert IsDigit(s[0]);
    }
  }

  /** Text without a single digit never parses as an integer. */
  lemma ParseIntNeedsDigit(text: string)
    requires forall i :: 0 <= i < |text| ==> !IsDigit(text[i])
    ensures ParseInt(text) == None
  {
  }

  // ---------------------------------------------------------------------------
  // float(text)

  function Pow10(e: nat): (p: real)
    ensures p >= 1.0
  {
    if e == 0 then 1.0 else 10.0 * Pow10(e - 1)
  }

  predicate AllDigits(s: string) {
    forall i :: 0 <= i < |s| ==> IsDigit(s[i])
  }

  /** The position of the first character of `s` that is one of `cs`. */
  function FirstIn(s: string, cs: set<char>): (r: Option<nat>)
    ensures r.Some? ==> r.value < |s| && s[r.value] in cs && forall i :: 0 <= i < r.value ==> s[i] !in cs
    ensures r.None? ==> forall i :: 0 <= i < |s| ==> s[i] !in cs
  {
    if |s| == 0 then None
    else if s[0] in cs then Some(0)
    else match FirstIn(s[1..], cs)
      case Some(i) => Some(i + 1)
      case None => None
  }

  /** The value written `whole.frac`. */
  function PointValue(whole: string, frac: string): real
    requires AllDigits(whole) && AllDigits(frac)
  {
    DigitsValue(whole) as real + DigitsValue(frac) as real / Pow10(|frac|)
  }

  /** A decimal mantissa: digits with at most one point and at least one digit (`12`, `1.5`, `.5`, `5.`). */
  function Mantissa(s: string): (r: Option<real>)
    ensures r.Some? ==> r.value >= 0.0
  {
    match FirstIn(s, {'.'})
    case None =>
      if |s| > 0 && AllDigits(s) then Some(DigitsValue(s) as real) else None
    case Some(p) =>
      var whole, frac := s[..p], s[p + 1..];
      if AllDigits(whole) && AllDigits(frac) && |whole| + |frac| > 0 then
        Some(PointValue(whole, frac))
      else None
  }

  /** `m` times `10^e`, or divided by it when the exponent is negative. */
  function Scaled(m: real, e: nat, negative: bool): (r: real)
    ensures m >= 0.0 ==> r >= 0.0
  {
    if negative then m / Pow10(e) else m * Pow10(e)
  }

  /** An unsigned decimal number, optionally followed by an exponent: `e` or `E`, an optional sign and digits. */
  function UnsignedDecimal(s: string): (r: Option<real>)
    ensures r.Some? ==> r.value >= 0.0
  {
    match FirstIn(s, {'e', 'E'})
    case None => Mantissa(s)
    case Some(e) =>
      var x := s[e + 1..];
      var neg := |x| > 0 && x[0] == '-';
      var digits := if |x| > 0 && (x[0] == '-' || x[0] == '+') then x[1..] else x;
      match Mantissa(s[..e])
      case Some(m) =>
        if |digits| > 0 && AllDigits(digits) then Some(Scaled(m, DigitsValue(digits), neg))
        else None
      case None => None
  }

  /**
   * Python's `float(text)` for decimal notation: optional surrounding whitespace,
   * an optional sign, a mantissa and an optional exponent; the value is exact.
   */
  function ParseFloat(text: string): (r: Option<real>)
  {
    var t := Strip(text);
    if |t| > 0 && (t[0] == '+' || t[0] == '-') then
      match UnsignedDecimal(t[1..])
      case Some(v) => Some(if t[0] == '-' then -v else v)
      case None => None
    else UnsignedDecimal(t)
  }

  /** No character of an all-digit text is outside the digits. */
  lemma {:induction false} FirstInDigits(s: string, cs: set<char>)
    requires AllDigits(s) && forall c :: c in cs ==> !IsDigit(c)
    ensures FirstIn(s, cs) == None
  {
    if |s| > 0 {
      FirstInDigits(s[1..], cs);
    }
  }

  /** A run of digits reads as a decimal number with no point and no exponent. */
  lemma UnsignedDigits(d: string)
    requires |d| > 0 && AllDigits(d)
    ensures UnsignedDecimal(d) == Some(DigitsValue(d) as real)
  {
    FirstInDigits(d, {'e', 'E'});
    FirstInDigits(d, {'.'});
  }

  /** `float(str(n)) == n` for every integer. */
  lemma ParseFloatOfInt(n: int)
    ensures ParseFloat(IntToString(n)) == Some(n as real)
  {
    var s := IntToString(n);
    var d := NatToString(if n < 0 then -n else n);
    NatToStringValue(if n < 0 then -n else n);
    UnsignedDigits(d);
    StripTrimmed(s);
    if n < 0 {
      assert s[1..] == d;
    } else {
      assert s == d && IsDigit(s[0]);
    }
  }

  /** In a text that starts with digits, the first character from a non-digit set is the first one after those digits. */
  lemma {:induction false} FirstInAfterDigits(w: string, rest: string, cs: set<char>)
    requires AllDigits(w) && forall c :: c in cs ==> !IsDigit(c)
    requires |rest| > 0 && rest[0] in cs
    ensures FirstIn(w + rest, cs) == Some(|w|)
  {
    if |w| > 0 {
      assert (w + rest)[1..] == w[1..] + rest;
      FirstInAfterDigits(w[1..], rest, cs);
    }
  }

  /** The mantissa `w.f` has the value `w + f / 10^|f|`. */
  lemma MantissaPoint(w: string, f: string)
    requires AllDigits(w) && AllDigits(f) && |w| + |f| > 0
    ensures Mantissa(w + "." + f) == Some(PointValue(w, f))
  {
    var s := w + "." + f;
    assert s == w + ("." + f);
    FirstInAfterDigits(w, "." + f, {'.'});
    assert FirstIn(s, {'.'}) == Some(|w|);
    assert s[..|w|] == w;
    assert s[|w| + 1..] == f;
    assert AllDigits(s[..|w|]) && AllDigits(s[|w| + 1..]);
  }

  /** `float("w.f")` for digit runs `w` and `f`, not both empty, is `w + f / 10^|f|`. */
  lemma ParseFloatDecimal(w: string, f: string)
    requires AllDigits(w) && AllDigits(f) && |w| + |f| > 0
    ensures ParseFloat(w + "." + f) == Some(PointValue(w, f))
  {
    var s := w + "." + f;
    MantissaPoint(w, f);
    assert FirstIn(s, {'e', 'E'}) == None by {
      assert forall i :: 0 <= i < |s| ==> s[i] !in {'e', 'E'} by {
        forall i | 0 <= i < |s| ensures s[i] !in {'e', 'E'} {
          if i < |w| { assert s[i] == w[i]; } else if i > |w| { assert s[i] == f[i - |w| - 1]; }
        }
      }
    }
    assert UnsignedDecimal(s) == Mantissa(s);
    assert !IsSpace(s[0]) && s[0] != '+' && s[0] != '-' by {
      if |w| > 0 { assert s[0] == w[0]; }
    }
    assert !IsSpace(s[|s| - 1]) by {
      if |f| > 0 { assert s[|s| - 1] == f[|f| - 1]; }
    }
    StripTrimmed(s);
  }

  /** The digits "0" and "5" written with a point between them are one half. */
  lemma PointHalf()
    ensures AllDigits("0") && AllDigits("5") && PointValue("0", "5") == 0.5
  {
    assert DigitsValue("0") == 0 by { assert "0"[..0] == ""; }
    assert DigitsValue("5") == 5 by { assert "5"[..0] == ""; }
    assert Pow10(1) == 10.0;
  }

  /** `float("0.5") == 0.5`. */
  lemma ParseFloatHalf()
    ensures ParseFloat("0.5") == Some(0.5)
  {
    PointHalf();
    assert "0" + "." + "5" == "0.5";
    ParseFloatDecimal("0", "5");
  }

  /** In a text whose first part has no character from `cs`, the first one from `cs` is the one right after that part. */
  lemma {:induction false} FirstInAfter(pre: string, rest: string, cs: set<char>)
    requires forall i :: 0 <= i < |pre| ==> pre[i] !in cs
    requires |rest| > 0 && rest[0] in cs
    ensures FirstIn(pre + rest, cs) == Some(|pre|)
  {
    if |pre| > 0 {
      assert (pre + rest)[1..] == pre[1..] + rest;
      FirstInAfter(pre[1..], rest, cs);
    }
  }

  /** A mantissa is made of digits and points only. */
  lemma MantissaChars(m: string)
    requires Mantissa(m).Some?
    ensures forall i :: 0 <= i < |m| ==> IsDigit(m[i]) || m[i] == '.'
  {
    match FirstIn(m, {'.'})
    case None =>
    case Some(p) =>
      forall i | 0 <= i < |m| ensures IsDigit(m[i]) || m[i] == '.' {
        if i < p { assert m[i] == m[..p][i]; } else if i > p { assert m[i] == m[p + 1..][i - p - 1]; }
      }
  }

  /** How `UnsignedDecimal` cuts `m` `e` `sign` `d`: the part before the `e`, the sign and the digits. */
  lemma SignedExponentPieces(m: string, sign: char, d: string)
    ensures var s := m + ['e', sign] + d; var x := s[|m| + 1..];
      && s == m + (['e', sign] + d) && s[..|m|] == m
      && |x| > 0 && x[0] == sign && x[1..] == d
  {
    var s := m + ['e', sign] + d;
    assert s[|m| + 1..] == [sign] + d;
  }

  /** How `UnsignedDecimal` cuts `m` `e` `d`: the part before the `e` and the digits. */
  lemma BareExponentPieces(m: string, d: string)
    ensures var s := m + "e" + d;
      && s == m + ("e" + d) && s[..|m|] == m && s[|m| + 1..] == d
  {
    var s := m + "e" + d;
    assert s[|m| + 1..] == d;
  }

  /** A mantissa followed by `e-` or `e+` and a run of digits `d` is the mantissa divided or multiplied by `10^d`. */
  lemma SignedExponent(m: string, sign: char, d: string)
    requires Mantissa(m).Some? && |d| > 0 && AllDigits(d) && (sign == '+' || sign == '-')
    ensures UnsignedDecimal(m + ['e', sign] + d)
      == Some(Scaled(Mantissa(m).value, DigitsValue(d), sign == '-'))
  {
    SignedExponentPieces(m, sign, d);
    MantissaChars(m);
    FirstInAfter(m, ['e', sign] + d, {'e', 'E'});
  }

  /** A mantissa followed by `e` and a run of digits `d` is the mantissa multiplied by `10^d`. */
  lemma BareExponent(m: string, d: string)
    requires Mantissa(m).Some? && |d| > 0 && AllDigits(d)
    ensures UnsignedDecimal(m + "e" + d) == Some(Scaled(Mantissa(m).value, DigitsValue(d), false))
  {
    BareExponentPieces(m, d);
    MantissaChars(m);
    FirstInAfter(m, "e" + d, {'e', 'E'});
    assert IsDigit(d[0]);
  }

  /** `float("5e-1") == 0.5`: a negative exponent divides. */
  lemma ParseFloatNegativeExponent()
    ensures ParseFloat("5e-1") == Some(0.5)
  {
    assert UnsignedDecimal("5e-1") == Some(0.5) by {
      assert DigitsValue("5") == 5 && DigitsValue("1") == 1 by { assert "5"[..0] == "" && "1"[..0] == ""; }
      assert Mantissa("5") == Some(5.0) by { FirstInDigits("5", {'.'}); }
      assert Scaled(5.0, 1, true) == 0.5 by { assert Pow10(1) == 10.0; }
      assert "5" + ['e', '-'] + "1" == "5e-1";
      SignedExponent("5", '-', "1");
    }
    assert Strip("5e-1") == "5e-1" by { StripTrimmed("5e-1"); }
    assert "5e-1"[0] == '5';
  }
}
