/**
 * Character classes, trimming and number <-> text conversions shared by the
 * command builder, the output parser and the runner.
 *
 * Whitespace is the ASCII set that `\s` and `QString::trimmed` agree on, and
 * case folding is ASCII folding; numbers are unbounded.
 */
module Text {

  /** `\s`: space, tab, line feed, vertical tab, form feed, carriage return. */
  predicate IsSpace(c: char) {
    c == ' ' || c == '\t' || c == '\n' || c == '\U{0B}' || c == '\U{0C}' || c == '\r'
  }

  /** `\d` */
  predicate IsDigit(c: char) {
    '0' <= c <= '9'
  }

  predicate AllDigits(s: string) {
    forall i :: 0 <= i < |s| ==> IsDigit(s[i])
  }

  /** `[0-9.]` */
  predicate IsDecimalChar(c: char) {
    IsDigit(c) || c == '.'
  }

  predicate AllDecimalChars(s: string) {
    forall i :: 0 <= i < |s| ==> IsDecimalChar(s[i])
  }

  predicate NoSpace(s: string) {
    forall i :: 0 <= i < |s| ==> !IsSpace(s[i])
  }

  /** Case folding used by the case-insensitive patterns. */
  function Lower(c: char): char {
    if 'A' <= c <= 'Z' then (c as int + 32) as char else c
  }

  function Max(a: int, b: int): int {
    if a < b then b else a
  }

  function Min(a: int, b: int): int {
    if a < b then a else b
  }

  /** C++ integer division, which truncates toward zero. */
  function CDiv(a: int, b: int): (q: int)
    requires b > 0
    ensures a >= 0 ==> q * b <= a < q * b + b
    ensures a < 0 ==> q * b - b < a <= q * b
  {
    if a >= 0 then a / b else -((-a) / b)
  }

  /** C++ `%` on `int`: the remainder takes the sign of the dividend. */
  function CRem(a: int, b: int): (r: int)
    requires b > 0
    ensures a >= 0 ==> 0 <= r < b && r == a % b
  {
    a - CDiv(a, b) * b
  }

  // ---------------------------------------------------------------- trimming

  /** Drops the leading whitespace run. */
  function TrimStart(s: string): (r: string)
    ensures |r| <= |s| && r == s[|s| - |r|..]
    ensures forall i :: 0 <= i < |s| - |r| ==> IsSpace(s[i])
    ensures r == [] || !IsSpace(r[0])
  {
    if s != [] && IsSpace(s[0]) then TrimStart(s[1..]) else s
  }

  /** Drops the trailing whitespace run. */
  function TrimEnd(s: string): (r: string)
    ensures |r| <= |s| && r == s[..|r|]
    ensures forall i :: |r| <= i < |s| ==> IsSpace(s[i])
    ensures r == [] || !IsSpace(r[|r| - 1])
  {
    if s != [] && IsSpace(s[|s| - 1]) then TrimEnd(s[..|s| - 1]) else s
  }

  /** Both trims together cut a slice out of `s` with only blanks around it. */
  lemma TrimSlice(s: string, t: string, r: string)
    requires |t| <= |s| && t == s[|s| - |t|..] && forall k :: 0 <= k < |s| - |t| ==> IsSpace(s[k])
    requires |r| <= |t| && r == t[..|r|] && forall k :: |r| <= k < |t| ==> IsSpace(t[k])
    ensures exists i, j ::
              && 0 <= i <= j <= |s| && r == s[i..j]
              && (forall k :: 0 <= k < i ==> IsSpace(s[k])) && (forall k :: j <= k < |s| ==> IsSpace(s[k]))
  {
    var i := |s| - |t|;
    var j := i + |r|;
    assert r == s[i..j];
    assert forall k :: j <= k < |s| ==> s[k] == t[k - i];
  }

  /** `QString::trimmed`: the text between the leading and the trailing whitespace. */
  function Trim(s: string): (r: string)
    ensures r == [] || (!IsSpace(r[0]) && !IsSpace(r[|r| - 1]))
    ensures r == [] <==> (forall i :: 0 <= i < |s| ==> IsSpace(s[i]))
    ensures NoSpace(s) ==> r == s
    ensures exists i, j ::
              && 0 <= i <= j <= |s| && r == s[i..j]
              && (forall k :: 0 <= k < i ==> IsSpace(s[k])) && (forall k :: j <= k < |s| ==> IsSpace(s[k]))
  {
    var t := TrimStart(s);
    var r := TrimEnd(t);
    TrimSlice(s, t, r);
    r
  }

  // ------------------------------------------------------- decimal integers

  function DigitChar(d: nat): (c: char)
    requires d < 10
    ensures IsDigit(c) && c as int - '0' as int == d
  {
    ('0' as int + d) as char
  }

  /** `QString::number(n)` for n >= 0. */
  function NatToString(n: nat): (r: string)
    ensures |r| > 0 && AllDigits(r)
    ensures r[0] == '0' ==> n == 0 && |r| == 1
  {
    if n < 10 then [DigitChar(n)] else NatToString(n / 10) + [DigitChar(n % 10)]
  }

  /** `QString::toInt` on a run of decimal digits (no overflow). */
  function DigitsValue(s: string): nat
    requires AllDigits(s)
  {
    if s == [] then 0 else DigitsValue(s[..|s| - 1]) * 10 + (s[|s| - 1] as int - '0' as int)
  }

  lemma {:induction false} DigitsValueOfNatToString(n: nat)
    ensures DigitsValue(NatToString(n)) == n
  {
    var r := NatToString(n);
    if n >= 10 {
      DigitsValueOfNatToString(n / 10);
      assert r[..|r| - 1] == NatToString(n / 10);
    }
  }

  /** `QString::toInt` on a captured digit run; a failed conversion gives 0. */
  function ToInt(s: string): nat {
    if AllDigits(s) then DigitsValue(s) else 0
  }

  /** `QString::number(i)`: an optional minus sign and the decimal digits of |i|. */
  function IntToString(i: int): (r: string)
    ensures i >= 0 ==> AllDigits(r) && DigitsValue(r) == i
    ensures i < 0 ==> |r| >= 2 && r[0] == '-' && AllDigits(r[1..]) && DigitsValue(r[1..]) == -i
  {
    if i < 0 then
      DigitsValueOfNatToString(-i);
      var r := "-" + NatToString(-i);
      assert r[1..] == NatToString(-i);
      r
    else
      DigitsValueOfNatToString(i);
      NatToString(i)
  }

  // ------------------------------------------------------- decimal fractions

  function Pow10(n: nat): (p: nat)
    ensures p >= 1
  {
    if n == 0 then 1 else 10 * Pow10(n - 1)
  }

  function FirstIndexOf(s: string, c: char): (k: nat)
    requires c in s
    ensures k < |s| && s[k] == c && c !in s[..k]
  {
    if s[0] == c then 0 else 1 + FirstIndexOf(s[1..], c)
  }

  /**
   * `QString::toDouble` on a run of `[0-9.]`, as an exact number: digits with
   * at most one point (either side may be empty, but not both) denote that
   * decimal; any other run fails to convert and yields 0.
   */
  function DecimalValue(s: string): (v: real)
    requires AllDecimalChars(s)
    ensures v >= 0.0
  {
    if '.' !in s then
      DigitsValue(s) as real
    else
      var k := FirstIndexOf(s, '.');
      var whole, frac := s[..k], s[k + 1..];
      if '.' in frac || (whole == [] && frac == []) then 0.0
      else
        assert forall i :: 0 <= i < |whole| ==> whole[i] != '.';
        PointValue(whole, frac)
  }

  /** `QString::toDouble` on a captured `[0-9.]` run; a failed conversion gives 0. */
  function ToReal(s: string): (v: real)
    ensures v >= 0.0
  {
    if AllDecimalChars(s) then DecimalValue(s) else 0.0
  }

  /** A digit run converts to the same number as a double as it does as an integer. */
  lemma DigitsAsReal(s: string)
    requires AllDigits(s)
    ensures ToReal(s) == ToInt(s) as real
  {
    assert '.' !in s by {
      forall i | 0 <= i < |s| ensures s[i] != '.' {
        assert IsDigit(s[i]);
      }
    }
  }

  /** The value of the decimal `whole.frac`. */
  function PointValue(whole: string, frac: string): (v: real)
    requires AllDigits(whole) && AllDigits(frac)
    ensures v >= 0.0
  {
    DigitsValue(whole) as real + DigitsValue(frac) as real / Pow10(|frac|) as real
  }

  lemma {:induction false} FirstIndexOfAfter(a: string, c: char, b: string)
    requires c !in a
    ensures c in a + [c] + b && FirstIndexOf(a + [c] + b, c) == |a|
  {
    if a != [] {
      assert (a + [c] + b)[1..] == a[1..] + [c] + b;
      FirstIndexOfAfter(a[1..], c, b);
    }
  }

  lemma DecimalValueOfParts(whole: string, frac: string)
    requires AllDigits(whole) && AllDigits(frac) && whole != []
    ensures AllDecimalChars(whole + "." + frac)
    ensures DecimalValue(whole + "." + frac) == PointValue(whole, frac)
  {
    var s := whole + "." + frac;
    assert AllDecimalChars(s) by {
      forall i | 0 <= i < |s| ensures IsDecimalChar(s[i]) {
        if i < |whole| {
          assert s[i] == whole[i];
        } else if i > |whole| {
          assert s[i] == frac[i - |whole| - 1];
        }
      }
    }
    assert '.' !in whole by {
      forall i | 0 <= i < |whole| ensures whole[i] != '.' {
        assert IsDigit(whole[i]);
      }
    }
    assert '.' !in frac by {
      forall i | 0 <= i < |frac| ensures frac[i] != '.' {
        assert IsDigit(frac[i]);
      }
    }
    FirstIndexOfAfter(whole, '.', frac);
    var k := FirstIndexOf(s, '.');
    assert k == |whole|;
    assert s[..k] == whole && s[k + 1..] == frac;
  }

  function Pad3(n: nat): (r: string)
    requires n < 1000
    ensures |r| == 3 && AllDigits(r) && DigitsValue(r) == n
  {
    var a, b, c := DigitChar(n / 100), DigitChar(n / 10 % 10), DigitChar(n % 10);
    var r := [a, b, c];
    assert r[..2] == [a, b] && [a, b][..1] == [a] && [a][..0] == [];
    assert DigitsValue([a]) == n / 100;
    assert DigitsValue([a, b]) == n / 100 * 10 + n / 10 % 10;
    r
  }

  /** `QString::number(m / 1000.0, 'f', 3)`: whole seconds, a point, three decimals. */
  function FixedThousandths(m: nat): (r: string)
    ensures |r| >= 5 && r[|r| - 4] == '.' && AllDigits(r[..|r| - 4]) && AllDigits(r[|r| - 3..])
    ensures r[|r| - 3..] == Pad3(m % 1000)
  {
    var r := NatToString(m / 1000) + "." + Pad3(m % 1000);
    assert r[..|r| - 4] == NatToString(m / 1000);
    r
  }

  /** The fixed-point text reads back as exactly m thousandths. */
  lemma FixedThousandthsValue(m: nat)
    ensures AllDecimalChars(FixedThousandths(m))
    ensures DecimalValue(FixedThousandths(m)) == m as real / 1000.0
  {
    var q, r := m / 1000, m % 1000;
    DecimalValueOfParts(NatToString(q), Pad3(r));
    DigitsValueOfNatToString(q);
    assert Pow10(3) == 1000;
    assert PointValue(NatToString(q), Pad3(r)) == q as real + r as real / 1000.0;
    assert m == 1000 * q + r;
  }
  /** `toDouble` reads a three-decimal rendering back exactly. */
  lemma ToRealOfThousandths(m: nat)
    ensures ToReal(FixedThousandths(m)) == m as real / 1000.0
  {
    FixedThousandthsValue(m);
  }

}
