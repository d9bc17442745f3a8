/** Numbers as the pipeline reads them out of text and writes them as text:
    digit runs found by a regular expression, `float()` of a plain decimal,
    `str()` of an int or a float, and rounding to one decimal place. */
module Numbers {
  import opened Strings

  /** A pandas float: NaN, or a number. */
  datatype Float = NaN | Num(v: real)

  function DigitChar(d: nat): (c: char)
    requires d < 10
    ensures IsDigit(c)
  {
    ('0' as int + d) as char
  }

  function DigitValue(c: char): (d: nat)
    requires IsDigit(c)
    ensures d < 10
  {
    c as int - '0' as int
  }

  predicate AllDigits(s: string) {
    forall i :: 0 <= i < |s| ==> IsDigit(s[i])
  }

  /** The number a run of ASCII digits denotes (leading zeros allowed). */
  function DigitsValue(s: string): nat
    requires AllDigits(s)
    decreases |s|
  {
    if s == [] then 0 else DigitsValue(s[..|s| - 1]) * 10 + DigitValue(s[|s| - 1])
  }

  /** `str(n)` for a natural number. */
  function ShowNat(n: nat): (r: string)
    ensures r != [] && AllDigits(r)
  {
    if n < 10 then [DigitChar(n)] else ShowNat(n / 10) + [DigitChar(n % 10)]
  }

  /** Reading back the digits `str(n)` writes gives `n`. */
  lemma {:induction false} ShowNatRoundTrip(n: nat)
    ensures DigitsValue(ShowNat(n)) == n
  {
    if n >= 10 {
      ShowNatRoundTrip(n / 10);
      var s := ShowNat(n);
      assert s[..|s| - 1] == ShowNat(n / 10);
    }
  }

  /** `str(i)` for an integer. */
  function ShowInt(i: int): (r: string)
    ensures r != [] && (i >= 0 ==> AllDigits(r))
  {
    if i < 0 then "-" + ShowNat(-i) else ShowNat(i)
  }

  function Pow10(k: nat): (p: nat)
    ensures p >= 1
  {
    if k == 0 then 1 else 10 * Pow10(k - 1)
  }

  /** The value of the digits written after a decimal point. */
  function FracValue(s: string): real
    requires AllDigits(s)
  {
    DigitsValue(s) as real / Pow10(|s|) as real
  }

  /** The length of the digit run that starts `s`. */
  function RunLength(s: string): (k: nat)
    ensures k <= |s| && AllDigits(s[..k]) && (k < |s| ==> !IsDigit(s[k]))
    ensures s != [] && IsDigit(s[0]) ==> k > 0
  {
    if s != [] && IsDigit(s[0]) then
      var k := 1 + RunLength(s[1..]);
      assert forall i :: 1 <= i < k ==> s[..k][i] == s[1..][..k - 1][i - 1];
      k
    else
      0
  }

  /** `[float(m) for m in re.findall(r"\d+", s)]`: the numbers written by
      the maximal runs of digits of `s`, left to right. */
  function DigitRuns(s: string): seq<nat>
    decreases |s|
  {
    if s == [] then []
    else if !IsDigit(s[0]) then DigitRuns(s[1..])
    else
      var k := RunLength(s);
      [DigitsValue(s[..k])] + DigitRuns(s[k..])
  }

  /** The length of the match of `\d+\.?\d*` at the start of `s`. */
  function TokenLength(s: string): (m: nat)
    requires s != [] && IsDigit(s[0])
    ensures 0 < m <= |s|
  {
    var k := RunLength(s);
    if k < |s| && s[k] == '.' then k + 1 + RunLength(s[k + 1..]) else k
  }

  /** The number that match denotes. */
  function TokenValue(s: string): real
    requires s != [] && IsDigit(s[0])
  {
    var k := RunLength(s);
    if k < |s| && s[k] == '.' then
      DigitsValue(s[..k]) as real + FracValue(s[k + 1..][..RunLength(s[k + 1..])])
    else
      DigitsValue(s[..k]) as real
  }

  /** `[float(m) for m in re.findall(r"\d+\.?\d*", s)]`: the numbers
      written by digit runs, each optionally followed by a point and more
      digits ("7", "7.", "7.25"). */
  function DecimalRuns(s: string): seq<real>
    decreases |s|
  {
    if s == [] then []
    else if !IsDigit(s[0]) then DecimalRuns(s[1..])
    else [TokenValue(s)] + DecimalRuns(s[TokenLength(s)..])
  }

  /** A run of digits followed by a non-digit has exactly its own length. */
  lemma {:induction false} RunLengthOf(d: string, t: string)
    requires AllDigits(d) && (t == [] || !IsDigit(t[0]))
    ensures RunLength(d + t) == |d|
  {
    if d == [] {
      assert d + t == t;
    } else {
      assert (d + t)[1..] == d[1..] + t;
      RunLengthOf(d[1..], t);
    }
  }

  /** A scan finds a number exactly when the text holds a digit. */
  lemma {:induction false} DigitRunsEmpty(s: string)
    ensures DigitRuns(s) == [] <==> NoDigits(s)
    decreases |s|
  {
    if s != [] && !IsDigit(s[0]) {
      DigitRunsEmpty(s[1..]);
      assert forall i :: 1 <= i < |s| ==> s[i] == s[1..][i - 1];
    }
  }

  /** The same for the decimal scan. */
  lemma {:induction false} DecimalRunsEmpty(s: string)
    ensures DecimalRuns(s) == [] <==> NoDigits(s)
    decreases |s|
  {
    if s != [] && !IsDigit(s[0]) {
      DecimalRunsEmpty(s[1..]);
      assert forall i :: 1 <= i < |s| ==> s[i] == s[1..][i - 1];
    }
  }

  /** Text without digits in front of the rest changes nothing. */
  lemma {:induction false} DigitRunsSkip(p: string, s: string)
    requires NoDigits(p)
    ensures DigitRuns(p + s) == DigitRuns(s)
    decreases |p|
  {
    if p == [] {
      assert p + s == s;
    } else {
      assert (p + s)[1..] == p[1..] + s;
      DigitRunsSkip(p[1..], s);
    }
  }

  lemma {:induction false} DecimalRunsSkip(p: string, s: string)
    requires NoDigits(p)
    ensures DecimalRuns(p + s) == DecimalRuns(s)
    decreases |p|
  {
    if p == [] {
      assert p + s == s;
    } else {
      assert (p + s)[1..] == p[1..] + s;
      DecimalRunsSkip(p[1..], s);
    }
  }

  /** A digit run followed by a non-digit is scanned as one number. */
  lemma {:induction false} DigitRunsNumber(d: string, t: string)
    requires d != [] && AllDigits(d) && (t == [] || !IsDigit(t[0]))
    ensures DigitRuns(d + t) == [DigitsValue(d)] + DigitRuns(t)
  {
    RunLengthOf(d, t);
    assert (d + t)[..|d|] == d;
    assert (d + t)[|d|..] == t;
  }

  /** A digit run followed by neither a digit nor a point is scanned as one
      whole number by the decimal scan. */
  lemma {:induction false} DecimalRunsNumber(d: string, t: string)
    requires d != [] && AllDigits(d) && (t == [] || (!IsDigit(t[0]) && t[0] != '.'))
    ensures DecimalRuns(d + t) == [DigitsValue(d) as real] + DecimalRuns(t)
  {
    RunLengthOf(d, t);
    assert (d + t)[..|d|] == d;
    assert (d + t)[|d|..] == t;
  }

  /** The match of a digit run, a point and a digit run, followed by a
      non-digit. */
  lemma {:induction false} TokenFraction(d: string, f: string, t: string)
    requires d != [] && AllDigits(d) && AllDigits(f) && (t == [] || !IsDigit(t[0]))
    ensures var s := d + ("." + (f + t));
      TokenLength(s) == |d| + 1 + |f| && TokenValue(s) == DigitsValue(d) as real + FracValue(f)
  {
    var s := d + ("." + (f + t));
    RunLengthOf(d, "." + (f + t));
    assert s[..|d|] == d;
    assert s[|d|] == '.';
    assert s[|d| + 1..] == f + t;
    RunLengthOf(f, t);
    assert (f + t)[..|f|] == f;
  }

  /** A digit run, a point and a digit run, followed by a non-digit, are
      scanned as one decimal number. */
  lemma {:induction false} DecimalRunsFraction(d: string, f: string, t: string)
    requires d != [] && AllDigits(d) && AllDigits(f) && (t == [] || !IsDigit(t[0]))
    ensures DecimalRuns(d + "." + f + t) == [DigitsValue(d) as real + FracValue(f)] + DecimalRuns(t)
  {
    var s := d + ("." + (f + t));
    assert d + "." + f + t == s;
    TokenFraction(d, f, t);
    assert s[|d| + 1 + |f|..] == t;
  }

  /** The integer scan of one number written between digit-free text. */
  lemma {:induction false} DigitRunsOne(pre: string, n: nat, post: string)
    requires NoDigits(pre) && NoDigits(post)
    ensures DigitRuns(pre + ShowNat(n) + post) == [n]
  {
    var a := ShowNat(n);
    assert pre + a + post == pre + (a + post);
    DigitRunsSkip(pre, a + post);
    DigitRunsNumber(a, post);
    DigitRunsEmpty(post);
    ShowNatRoundTrip(n);
  }

  /** The integer scan of two numbers with digit-free text around and
      between them. */
  lemma {:induction false} DigitRunsTwo(pre: string, a: nat, mid: string, b: nat, post: string)
    requires NoDigits(pre) && mid != [] && NoDigits(mid) && NoDigits(post)
    ensures DigitRuns(pre + ShowNat(a) + mid + ShowNat(b) + post) == [a, b]
  {
    assert pre + ShowNat(a) + mid + ShowNat(b) + post == pre + (ShowNat(a) + (mid + ShowNat(b) + post));
    DigitRunsOne(mid, b, post);
    DigitRunsSkip(pre, ShowNat(a) + (mid + ShowNat(b) + post));
    DigitRunsNumber(ShowNat(a), mid + ShowNat(b) + post);
    ShowNatRoundTrip(a);
  }

  /** The decimal scan of one whole number written between digit-free text
      that does not continue it with a point. */
  lemma {:induction false} DecimalRunsOne(pre: string, n: nat, post: string)
    requires NoDigits(pre) && NoDigits(post) && (post == [] || post[0] != '.')
    ensures DecimalRuns(pre + ShowNat(n) + post) == [n as real]
  {
    var a := ShowNat(n);
    assert pre + a + post == pre + (a + post);
    DecimalRunsSkip(pre, a + post);
    DecimalRunsNumber(a, post);
    DecimalRunsEmpty(post);
    ShowNatRoundTrip(n);
  }

  /** The decimal scan of two whole numbers. */
  lemma {:induction false} DecimalRunsTwo(pre: string, a: nat, mid: string, b: nat, post: string)
    requires NoDigits(pre) && mid != [] && mid[0] != '.' && NoDigits(mid)
    requires NoDigits(post) && (post == [] || post[0] != '.')
    ensures DecimalRuns(pre + ShowNat(a) + mid + ShowNat(b) + post) == [a as real, b as real]
  {
    assert pre + ShowNat(a) + mid + ShowNat(b) + post == pre + (ShowNat(a) + (mid + ShowNat(b) + post));
    DecimalRunsOne(mid, b, post);
    DecimalRunsThen(pre, ShowNat(a), mid + ShowNat(b) + post);
    ShowNatRoundTrip(a);
  }

  /** Digit-free text, a digit run, and a rest that starts with neither a
      digit nor a point: the run is the first number found. */
  lemma {:induction false} DecimalRunsThen(pre: string, d: string, rest: string)
    requires NoDigits(pre) && d != [] && AllDigits(d)
    requires rest != [] && !IsDigit(rest[0]) && rest[0] != '.'
    ensures DecimalRuns(pre + (d + rest)) == [DigitsValue(d) as real] + DecimalRuns(rest)
  {
    DecimalRunsSkip(pre, d + rest);
    DecimalRunsNumber(d, rest);
  }

  /** `s` and `t` differ at most in characters that are neither digits nor
      points. */
  predicate SameFigures(s: string, t: string) {
    && |s| == |t|
    && forall i :: 0 <= i < |s| ==> (IsDigit(s[i]) || s[i] == '.' || IsDigit(t[i]) || t[i] == '.' ==> s[i] == t[i])
  }

  lemma {:induction false} SameFiguresSuffix(s: string, t: string, k: nat)
    requires SameFigures(s, t) && k <= |s|
    ensures SameFigures(s[k..], t[k..])
  {
    assert forall i :: 0 <= i < |s| - k ==> s[k..][i] == s[k + i] && t[k..][i] == t[k + i];
  }

  lemma {:induction false} RunLengthSame(s: string, t: string)
    requires SameFigures(s, t)
    ensures RunLength(s) == RunLength(t) && s[..RunLength(s)] == t[..RunLength(t)]
    decreases |s|
  {
    if s != [] && IsDigit(s[0]) {
      SameFiguresSuffix(s, t, 1);
      RunLengthSame(s[1..], t[1..]);
      assert s[..RunLength(s)] == [s[0]] + s[1..][..RunLength(s[1..])];
      assert t[..RunLength(t)] == [t[0]] + t[1..][..RunLength(t[1..])];
    }
  }

  /** Rewriting characters other than digits and points (case folding,
      dash replacement) does not change what the integer scan finds. */
  lemma {:induction false} DigitRunsSame(s: string, t: string)
    requires SameFigures(s, t)
    ensures DigitRuns(s) == DigitRuns(t)
    decreases |s|
  {
    if s != [] {
      if !IsDigit(s[0]) {
        SameFiguresSuffix(s, t, 1);
        DigitRunsSame(s[1..], t[1..]);
      } else {
        RunLengthSame(s, t);
        var k := RunLength(s);
        SameFiguresSuffix(s, t, k);
        DigitRunsSame(s[k..], t[k..]);
      }
    }
  }

  lemma {:induction false} TokenSame(s: string, t: string)
    requires SameFigures(s, t) && s != [] && IsDigit(s[0])
    ensures TokenLength(s) == TokenLength(t) && TokenValue(s) == TokenValue(t)
  {
    RunLengthSame(s, t);
    var k := RunLength(s);
    if k < |s| && s[k] == '.' {
      SameFiguresSuffix(s, t, k + 1);
      RunLengthSame(s[k + 1..], t[k + 1..]);
    }
  }

  /** The same for the decimal scan. */
  lemma {:induction false} DecimalRunsSame(s: string, t: string)
    requires SameFigures(s, t)
    ensures DecimalRuns(s) == DecimalRuns(t)
    decreases |s|
  {
    if s != [] {
      if !IsDigit(s[0]) {
        SameFiguresSuffix(s, t, 1);
        DecimalRunsSame(s[1..], t[1..]);
      } else {
        TokenSame(s, t);
        SameFiguresSuffix(s, t, TokenLength(s));
        DecimalRunsSame(s[TokenLength(s)..], t[TokenLength(s)..]);
      }
    }
  }

  /** `float(s)` for digits with an optional point and fraction ("5",
      "5.", ".5", "5.25"); anything else is not a number. */
  function ParseUnsigned(s: string): Float {
    var k := RunLength(s);
    if k == |s| then
      if k == 0 then NaN else Num(DigitsValue(s) as real)
    else if s[k] == '.' && AllDigits(s[k + 1..]) && (k > 0 || k + 1 < |s|) then
      Num(DigitsValue(s[..k]) as real + FracValue(s[k + 1..]))
    else
      NaN
  }

  /** `pd.to_numeric(s, errors="coerce")` for one text value written as a
      plain decimal: surrounding whitespace is ignored and a sign is
      allowed. This model reads every other text as NaN, including the
      exponent and infinity forms that pandas also accepts. */
  function ParseNumber(s: string): Float {
    ParseSigned(Strip(s))
  }

  /** The stripped text: an optional sign, then an unsigned number. */
  function ParseSigned(t: string): Float {
    if t != [] && (t[0] == '-' || t[0] == '+') then
      match ParseUnsigned(t[1..])
      case NaN => NaN
      case Num(v) => Num(if t[0] == '-' then -v else v)
    else
      ParseUnsigned(t)
  }

  /** A nonempty run of digits parses as the number it denotes. */
  lemma {:induction false} ParseDigits(d: string)
    requires d != [] && AllDigits(d)
    ensures ParseUnsigned(d) == Num(DigitsValue(d) as real)
  {
    RunLengthOf(d, []);
    assert d + [] == d;
  }

  /** Parsing the text `str(n)` gives `n` back. */
  lemma {:induction false} ParseShowNat(n: nat)
    ensures ParseNumber(ShowNat(n)) == Num(n as real)
  {
    var d := ShowNat(n);
    ParseDigits(d);
    ShowNatRoundTrip(n);
    StripKeeps(d);
    ParseUnsignedText(d);
  }

  /** A stripped text without a sign is read as an unsigned number. */
  lemma {:induction false} ParseUnsignedText(t: string)
    requires t != [] && IsDigit(t[0])
    ensures ParseSigned(t) == ParseUnsigned(t)
  {
  }

  /** A minus sign in front of a number negates it. */
  lemma {:induction false} ParseNegative(t: string)
    requires t != [] && t[0] == '-' && ParseUnsigned(t[1..]).Num?
    ensures ParseSigned(t) == Num(-ParseUnsigned(t[1..]).v)
  {
  }

  /** `str(i)` of a negative `i` is a minus sign and the digits of `-i`,
      which `strip` keeps. */
  lemma {:induction false} NegativeText(i: int)
    requires i < 0
    ensures ShowInt(i)[0] == '-' && ShowInt(i)[1..] == ShowNat(-i)
    ensures Strip(ShowInt(i)) == ShowInt(i)
  {
    assert ("-" + ShowNat(-i))[1..] == ShowNat(-i);
    assert ("-" + ShowNat(-i))[|ShowNat(-i)|] == ShowNat(-i)[|ShowNat(-i)| - 1];
    StripKeeps("-" + ShowNat(-i));
  }

  /** Parsing the text `str(i)` gives `i` back. */
  lemma {:induction false} ParseShowInt(i: int)
    ensures ParseNumber(ShowInt(i)) == Num(i as real)
  {
    if i < 0 {
      var n: nat := -i;
      var t := ShowInt(i);
      NegativeText(i);
      ParseUnsignedShowNat(n);
      ParseNegative(t);
    } else {
      ParseShowNat(i);
    }
  }

  /** The digits `str(n)` writes, read without a sign, give `n`. */
  lemma {:induction false} ParseUnsignedShowNat(n: nat)
    ensures ParseUnsigned(ShowNat(n)) == Num(n as real)
  {
    ParseDigits(ShowNat(n));
    ShowNatRoundTrip(n);
  }

  /** Up to `k` digits of the decimal expansion of a fraction; stops early
      when the rest is zero, so no trailing zeros are written. */
  function FracDigits(f: real, k: nat): (r: string)
    requires 0.0 <= f < 1.0
    ensures AllDigits(r)
    decreases k
  {
    if k == 0 || f == 0.0 then ""
    else
      var d := (f * 10.0).Floor;
      [DigitChar(d)] + FracDigits(f * 10.0 - d as real, k - 1)
  }

  /** `str(x)` of a float in fixed notation: at least one digit after the
      point, at most seventeen. */
  function RealText(x: real): (t: string)
    ensures '.' in t
  {
    var a := if x < 0.0 then -x else x;
    var n := a.Floor;
    var digits := FracDigits(a - n as real, 17);
    var t := (if x < 0.0 then "-" else "") + ShowNat(n) + "." + (if digits == "" then "0" else digits);
    assert t[|t| - |if digits == "" then "0" else digits| - 1] == '.';
    t
  }

  /** A whole-number float is written with ".0". */
  lemma {:induction false} WholeRealText(n: nat)
    ensures RealText(n as real) == ShowNat(n) + ".0"
  {
  }

  /** pandas' `Series.round(1)` on an exact value (a tie rounds up here,
      where pandas rounds half to even). */
  function Round1(x: real): (r: real)
    ensures x - 0.05 < r <= x + 0.05
  {
    (x * 10.0 + 0.5).Floor as real / 10.0
  }

  /** Rounding to one decimal never reverses an order. */
  lemma {:induction false} Round1Monotone(x: real, y: real)
    requires x <= y
    ensures Round1(x) <= Round1(y)
  {
    var a, b := x * 10.0 + 0.5, y * 10.0 + 0.5;
    assert a <= b;
    assert a.Floor as real <= a && b < b.Floor as real + 1.0;
    assert a.Floor <= b.Floor;
  }

  /** A value that already has one decimal is left as it is. */
  lemma {:induction false} Round1Tenths(t: int)
    ensures Round1(t as real / 10.0) == t as real / 10.0
  {
    var a := t as real / 10.0 * 10.0 + 0.5;
    assert a == t as real + 0.5;
    assert a.Floor == t;
  }
}
