/**
 * The handful of Python `str` operations the record code relies on, restricted to the
 * ASCII range: `strip()`, `ljust()`, `zfill()`, slicing `s[i:j]`, `int(s)`, `str(n)`
 * for a non-negative integer, and the amount conversions `int(float(s) * 100)` /
 * `int(Decimal(s) * 100)` for plain decimal text.
 */
module PyStr {
  import opened Wrappers

  function Min(a: int, b: int): int { if a < b then a else b }
  function Max(a: int, b: int): int { if a < b then b else a }

  /** Python's `str.isspace()` on ASCII: tab, line feed, vertical tab, form feed,
      carriage return, the four information separators (0x1C-0x1F) and the space. */
  predicate IsSpace(c: char) { 9 <= c as int <= 13 || 28 <= c as int <= 32 }

  /** A string with no whitespace at either end: the strings `strip()` returns. */
  predicate IsStripped(s: string) { s == [] || (!IsSpace(s[0]) && !IsSpace(s[|s| - 1])) }

  function Spaces(n: nat): (r: string)
    ensures |r| == n && forall i :: 0 <= i < n ==> r[i] == ' '
  {
    seq(n, _ => ' ')
  }

  function Zeros(n: nat): (r: string)
    ensures |r| == n && forall i :: 0 <= i < n ==> r[i] == '0'
  {
    seq(n, _ => '0')
  }

  /** `s.lstrip()`: what is left is a suffix of `s`, everything cut off is whitespace,
      and the suffix does not itself begin with whitespace. */
  function StripLeft(s: string): (r: string)
    ensures |r| <= |s| && r == s[|s| - |r|..]
    ensures forall i :: 0 <= i < |s| - |r| ==> IsSpace(s[i])
    ensures r == [] || !IsSpace(r[0])
  {
    if s != [] && IsSpace(s[0]) then StripLeft(s[1..]) else s
  }

  /** `s.rstrip()`: what is left is a prefix of `s`, everything cut off is whitespace,
      and the prefix does not itself end with whitespace. */
  function StripRight(s: string): (r: string)
    ensures |r| <= |s| && r == s[..|r|]
    ensures forall i :: |r| <= i < |s| ==> IsSpace(s[i])
    ensures r == [] || !IsSpace(r[|r| - 1])
  {
    if s != [] && IsSpace(s[|s| - 1]) then StripRight(s[..|s| - 1]) else s
  }

  /** `s.strip()`: whitespace is removed from both ends, one character at a time. */
  function Strip(s: string): (r: string)
    ensures IsStripped(r) && |r| <= |s|
    ensures IsStripped(s) ==> r == s
  {
    if s != [] && IsSpace(s[0]) then Strip(s[1..])
    else if s != [] && IsSpace(s[|s| - 1]) then Strip(s[..|s| - 1])
    else s
  }

  /** `strip()` is `rstrip()` after `lstrip()`: what is left is the part of `s` between
      its leading and its trailing whitespace. */
  lemma {:induction false} StripIsBothEnds(s: string)
    ensures Strip(s) == StripRight(StripLeft(s))
    decreases |s|
  {
    if s != [] && IsSpace(s[0]) {
      StripIsBothEnds(s[1..]);
    } else if s != [] && IsSpace(s[|s| - 1]) {
      var t := s[..|s| - 1];
      assert t != [] && t[0] == s[0];
      StripIsBothEnds(t);
    }
  }

  /** Text followed by trailing spaces strips back to the text. */
  lemma {:induction false} StripPadded(t: string, k: nat)
    requires IsStripped(t)
    ensures Strip(t + Spaces(k)) == t
  {
    if k > 0 {
      var x := t + Spaces(k);
      assert x[|x| - 1] == ' ';
      assert x[..|x| - 1] == t + Spaces(k - 1);
      if t == [] {
        assert x[1..] == Spaces(k - 1) == t + Spaces(k - 1);
      } else {
        assert x[0] == t[0];
      }
      StripPadded(t, k - 1);
    } else {
      assert t + Spaces(k) == t;
    }
  }

  /** `line.startswith(prefix)`. */
  predicate StartsWith(line: string, prefix: string)
  {
    |prefix| <= |line| && line[..|prefix|] == prefix
  }

  /** Python's `s[i:j]` for non-negative bounds: out-of-range bounds are clamped. */
  function Slice(s: string, i: nat, j: nat): (r: string)
    ensures i <= j <= |s| ==> r == s[i..j]
    ensures i <= |s| <= j ==> r == s[i..]
    ensures |s| <= i || j <= i ==> r == []
  {
    var hi := Min(j, |s|);
    var lo := Min(i, hi);
    s[lo..hi]
  }

  /** `s.ljust(width)`: `s` followed by spaces up to `width`; a longer `s` is kept whole. */
  function LJust(s: string, width: nat): (r: string)
    ensures |r| == Max(|s|, width)
  {
    if |s| < width then s + Spaces(width - |s|) else s
  }

  /** `ljust` keeps the text in front and fills the rest with spaces. */
  lemma LJustShape(s: string, width: nat)
    ensures LJust(s, width)[..|s|] == s
    ensures forall i :: |s| <= i < |LJust(s, width)| ==> LJust(s, width)[i] == ' '
  {
  }

  /** A sign `zfill` keeps in front of the zeros it adds. */
  predicate IsSign(c: char) { c == '+' || c == '-' }

  /** `s.zfill(width)`: zeros are added up to `width` after a leading sign, or in front of
      the text when it has none; a text of `width` characters or more is kept whole. */
  function ZFill(s: string, width: nat): (r: string)
    ensures |r| == Max(|s|, width)
  {
    if |s| >= width then s
    else if s != [] && IsSign(s[0]) then [s[0]] + Zeros(width - |s|) + s[1..]
    else Zeros(width - |s|) + s
  }

  /** `zfill` keeps an unsigned text at the end behind the zeros it adds, and a signed
      text's sign in front of them, so `"-5".zfill(4)` is `"-005"`. */
  lemma ZFillShape(s: string, width: nat)
    ensures s == [] || !IsSign(s[0]) ==>
      ZFill(s, width) == Zeros(|ZFill(s, width)| - |s|) + s
    ensures s != [] && IsSign(s[0]) ==>
      ZFill(s, width) == [s[0]] + Zeros(|ZFill(s, width)| - |s|) + s[1..]
  {
    if |s| >= width && s != [] {
      assert s == [s[0]] + s[1..];
    }
  }

  predicate IsDigit(c: char) { '0' <= c <= '9' }

  predicate AllDigits(s: string) { forall i :: 0 <= i < |s| ==> IsDigit(s[i]) }

  function DigitValue(c: char): nat
    requires IsDigit(c)
  {
    c as int - '0' as int
  }

  function DigitChar(d: nat): (c: char)
    requires d < 10
    ensures IsDigit(c) && DigitValue(c) == d
  {
    ('0' as int + d) as char
  }

  /** The value of a run of decimal digits, most significant first. */
  function DigitsValue(s: string): nat
    requires AllDigits(s)
  {
    if s == [] then 0 else DigitsValue(s[..|s| - 1]) * 10 + DigitValue(s[|s| - 1])
  }

  /** `n / 10` by repeated subtraction: the number of whole tens in `n`. */
  function Tens(n: nat): (q: nat)
    ensures 10 * q <= n < 10 * q + 10
  {
    if n < 10 then 0 else 1 + Tens(n - 10)
  }

  /** `str(n)` for a non-negative integer: the canonical decimal digits of `n`. */
  function NatToString(n: nat): (r: string)
    ensures r != [] && AllDigits(r) && DigitsValue(r) == n
    ensures r[0] == '0' ==> r == "0"
    decreases n
  {
    if n < 10 then [DigitChar(n)] else
      var q := Tens(n);
      var p := NatToString(q);
      var r := p + [DigitChar(n - 10 * q)];
      assert r[..|r| - 1] == p;
      r
  }

  function Pow10(w: nat): (p: nat)
    ensures p >= 1
  {
    if w == 0 then 1 else 10 * Pow10(w - 1)
  }

  /** A number below 10^w needs at most `w` digits. */
  lemma {:induction false} NatToStringFits(n: nat, w: nat)
    requires 1 <= w && n < Pow10(w)
    ensures |NatToString(n)| <= w
  {
    assert Pow10(1) == 10;
    if n >= 10 {
      NatToStringFits(Tens(n), w - 1);
    }
  }

  /** A run of `w` digits is worth less than 10^w. */
  lemma {:induction false} DigitsValueBound(s: string)
    requires AllDigits(s)
    ensures DigitsValue(s) < Pow10(|s|)
  {
    if s != [] {
      var p := s[..|s| - 1];
      DigitsValueBound(p);
      assert DigitsValue(s) == DigitsValue(p) * 10 + DigitValue(s[|s| - 1]);
      assert DigitsValue(p) * 10 <= (Pow10(|p|) - 1) * 10;
    }
  }

  /** `str(int(s))` of a digit run is no longer than the run. */
  lemma DigitsRoundTripFits(s: string)
    requires s != [] && AllDigits(s)
    ensures |NatToString(DigitsValue(s))| <= |s|
  {
    DigitsValueBound(s);
    NatToStringFits(DigitsValue(s), |s|);
  }

  /** Leading zeros do not change the value of a digit run. */
  lemma {:induction false} DigitsValueZeros(k: nat, s: string)
    requires AllDigits(s)
    ensures AllDigits(Zeros(k) + s) && DigitsValue(Zeros(k) + s) == DigitsValue(s)
    decreases |s| + k
  {
    var z := Zeros(k) + s;
    if s == [] {
      assert z == Zeros(k);
      if k > 0 {
        assert z[..|z| - 1] == Zeros(k - 1) + [];
        DigitsValueZeros(k - 1, []);
      }
    } else {
      assert z[..|z| - 1] == Zeros(k) + s[..|s| - 1];
      DigitsValueZeros(k, s[..|s| - 1]);
    }
  }

  /** Python's `int(s)` on a str: surrounding whitespace is ignored and what remains
      must be a non-empty run of ASCII digits; anything else raises ValueError (None). */
  function PyInt(s: string): Option<nat>
  {
    var t := Strip(s);
    if t != [] && AllDigits(t) then Some(DigitsValue(t)) else None
  }

  /** `int()` of a non-empty digit run is its value. */
  lemma PyIntDigits(z: string)
    requires z != [] && AllDigits(z)
    ensures PyInt(z) == Some(DigitsValue(z))
  {
    assert IsDigit(z[0]) && IsDigit(z[|z| - 1]);
    assert IsStripped(z);
  }

  /** A non-empty run of digits has no surrounding whitespace. */
  lemma DigitsStripped(s: string)
    requires s != [] && AllDigits(s)
    ensures IsStripped(s)
  {
    assert IsDigit(s[0]) && IsDigit(s[|s| - 1]);
  }

  /** A zero-filled `str(n)` is a run of digits with no surrounding whitespace. */
  lemma ZFillNatDigits(n: nat, w: nat)
    ensures ZFill(NatToString(n), w) != [] && AllDigits(ZFill(NatToString(n), w))
    ensures IsStripped(ZFill(NatToString(n), w))
  {
    var s := NatToString(n);
    var z := ZFill(s, w);
    assert z == Zeros(|z| - |s|) + s;
    DigitsValueZeros(|z| - |s|, s);
    DigitsStripped(z);
  }

  /** `int()` reads back a zero-filled `str(n)` of any width. */
  lemma PyIntZFill(n: nat, w: nat)
    ensures PyInt(ZFill(NatToString(n), w)) == Some(n)
  {
    var s := NatToString(n);
    var z := ZFill(s, w);
    assert z == Zeros(|z| - |s|) + s;
    DigitsValueZeros(|z| - |s|, s);
    PyIntDigits(z);
  }

  /** A zero-filled `str(n)` names `n` only: distinct numbers give distinct texts. */
  lemma ZFillNatInjective(m: nat, n: nat, w: nat)
    requires ZFill(NatToString(m), w) == ZFill(NatToString(n), w)
    ensures m == n
  {
    PyIntZFill(m, w);
    PyIntZFill(n, w);
  }

  /** The position of the first `c` in `s`, or `|s|` if there is none. */
  function IndexOf(s: string, c: char): (k: nat)
    ensures k <= |s| && (k < |s| ==> s[k] == c)
    ensures forall i :: 0 <= i < k ==> s[i] != c
  {
    if s == [] then 0 else if s[0] == c then 0 else 1 + IndexOf(s[1..], c)
  }

  /** The cents named by at most two fraction digits (`"5"` is fifty cents). */
  function FractionCents(f: string): nat
    requires AllDigits(f)
  {
    if |f| == 0 then 0
    else if |f| == 1 then 10 * DigitValue(f[0])
    else 10 * DigitValue(f[0]) + DigitValue(f[1])
  }

  /** `int(float(s) * 100)` and `int(Decimal(s) * 100)` for plain decimal text:
      surrounding whitespace is ignored, the rest is digits with at most one '.',
      at least one digit in all, and fraction digits past the second are cut off.
      None where the conversion raises. */
  function DecimalCents(s: string): Option<nat>
  {
    var t := Strip(s);
    var k := IndexOf(t, '.');
    var whole := t[..k];
    var frac := if k < |t| then t[k + 1..] else [];
    if |whole| + |frac| > 0 && AllDigits(whole) && AllDigits(frac) then
      Some(100 * DigitsValue(whole) + FractionCents(frac[..Min(|frac|, 2)]))
    else
      None
  }

  /** A whole number of currency units converts to a hundred cents each. */
  lemma DecimalCentsOfDigits(s: string)
    requires s != [] && AllDigits(s)
    ensures DecimalCents(s) == Some(100 * DigitsValue(s))
  {
    assert IsStripped(s) by { assert IsDigit(s[0]) && IsDigit(s[|s| - 1]); }
    var k := IndexOf(s, '.');
    assert k < |s| ==> IsDigit(s[k]);
    assert s[..k] == s;
  }
}
