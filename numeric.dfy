/** Python's numeric conversions that the navigation code relies on, written
    out on exact reals: `round(x)` (half to even), `round(x, n)`, `int(x)`
    (truncation toward zero) and the float `%` (result takes the divisor's
    sign). */
module Numeric {

  function Abs(x: real): real {
    if x < 0.0 then -x else x
  }

  /** `round(x)`: the nearest integer, ties going to the even neighbour. */
  function RoundHalfEven(x: real): (r: int)
    ensures r as real - 0.5 <= x <= r as real + 0.5
    ensures Abs(x - r as real) == 0.5 ==> r % 2 == 0
  {
    var f := x.Floor;
    var frac := x - f as real;
    if frac < 0.5 then f
    else if frac > 0.5 then f + 1
    else if f % 2 == 0 then f
    else f + 1
  }

  /** The two properties above pin the result down completely. */
  lemma RoundHalfEvenUnique(x: real, n: int)
    requires n as real - 0.5 <= x <= n as real + 0.5
    requires Abs(x - n as real) == 0.5 ==> n % 2 == 0
    ensures n == RoundHalfEven(x)
  {
    var r := RoundHalfEven(x);
  }

  /** `round(x, 2)` on the exact value: a whole number of hundredths. */
  function Round2(x: real): (r: real)
    ensures Abs(r - x) <= 0.005
    ensures (r * 100.0).Floor as real == r * 100.0
  {
    var y := x * 100.0;
    var n := RoundHalfEven(y);
    var r := n as real / 100.0;
    assert r * 100.0 == n as real;
    assert r - x == (n as real - y) / 100.0;
    r
  }

  /** `round(x, 1)`: a whole number of tenths. */
  function Round1(x: real): (r: real)
    ensures Abs(r - x) <= 0.05
    ensures (r * 10.0).Floor as real == r * 10.0
  {
    var y := x * 10.0;
    var n := RoundHalfEven(y);
    var r := n as real / 10.0;
    assert r * 10.0 == n as real;
    assert r - x == (n as real - y) / 10.0;
    r
  }

  /** `int(x)` on a float: truncation toward zero. */
  function Trunc(x: real): (r: int)
    ensures 0.0 <= x ==> 0 <= r && r as real <= x < r as real + 1.0
    ensures x < 0.0 ==> r <= 0 && r as real - 1.0 < x <= r as real
  {
    if x >= 0.0 then x.Floor else -((-x).Floor)
  }

  /** Python's float `x % m` for a positive divisor. */
  function FloorMod(x: real, m: real): (r: real)
    requires m > 0.0
    ensures 0.0 <= r < m
    ensures x == r + m * (x / m).Floor as real
  {
    var t := x / m;
    var q := t.Floor as real;
    assert t * m == x;
    assert q <= t < q + 1.0;
    MulMonotone(q, t, m);
    MulMonotone(t, q + 1.0, m);
    assert t * m < (q + 1.0) * m;
    assert x < (q + 1.0) * m;
    assert (q + 1.0) * m == m * q + m;
    assert x - m * q < m;
    assert q * m <= x;
    assert m * q == q * m;
    assert 0.0 <= x - m * q;
    x - m * q
  }

  lemma MulMonotone(a: real, b: real, m: real)
    requires m > 0.0 && a <= b
    ensures a * m <= b * m
    ensures a < b ==> a * m < b * m
  {
  }

  function DigitChar(d: nat): (c: char)
    requires d < 10
    ensures '0' <= c <= '9'
  {
    "0123456789"[d]
  }

  /** `str(n)` for a natural number: its decimal digits, without leading
      zeros. */
  function DecimalText(n: nat): (s: string)
    ensures 1 <= |s|
    ensures forall i :: 0 <= i < |s| ==> '0' <= s[i] <= '9'
    ensures |s| > 1 ==> s[0] != '0'
    decreases n
  {
    if n < 10 then [DigitChar(n)] else DecimalText(n / 10) + [DigitChar(n % 10)]
  }

  /** `str(amount)` of a two-place Decimal, given the amount in cents: the
      whole part, a point and exactly two more digits. */
  function CentsText(cents: nat): (s: string)
    ensures 4 <= |s| && s[|s| - 3] == '.'
  {
    DecimalText(cents / 100) + "." + [DigitChar(cents / 10 % 10), DigitChar(cents % 10)]
  }

  /** The number a run of decimal digits spells, most significant first. */
  function DigitsValue(s: string): nat
    requires forall i :: 0 <= i < |s| ==> '0' <= s[i] <= '9'
  {
    if s == [] then 0
    else DigitsValue(s[..|s| - 1]) * 10 + (s[|s| - 1] as int - '0' as int)
  }

  lemma DigitCharValue(d: nat)
    requires d < 10
    ensures DigitChar(d) as int - '0' as int == d
  {
  }

  /** `str(n)` spells `n`: reading its digits back gives the number. */
  lemma {:induction false} DecimalTextValue(n: nat)
    ensures DigitsValue(DecimalText(n)) == n
    decreases n
  {
    DigitCharValue(n % 10);
    if n >= 10 {
      DecimalTextValue(n / 10);
      var s := DecimalText(n);
      assert s[..|s| - 1] == DecimalText(n / 10);
    }
  }

  /** Distinct numbers have distinct decimal texts. */
  lemma DecimalTextInjective(m: nat, n: nat)
    requires DecimalText(m) == DecimalText(n)
    ensures m == n
  {
    DecimalTextValue(m);
    DecimalTextValue(n);
  }

  lemma TwoDigitsValue(a: nat, b: nat)
    requires a < 10 && b < 10
    ensures DigitsValue([DigitChar(a), DigitChar(b)]) == a * 10 + b
  {
    var s := [DigitChar(a), DigitChar(b)];
    DigitCharValue(a);
    DigitCharValue(b);
    var high := s[..1];
    assert high == [DigitChar(a)] && high[..0] == [];
    assert DigitsValue(high) == DigitsValue([]) * 10 + a;
    assert DigitsValue(s) == DigitsValue(high) * 10 + b;
  }

  lemma CentsDigits(cents: nat)
    ensures (cents / 10 % 10) * 10 + cents % 10 == cents % 100
  {
    var q := cents / 100;
    var r := cents % 100;
    assert cents == q * 100 + r;
    assert cents / 10 == q * 10 + r / 10;
    assert cents / 10 % 10 == r / 10;
    assert cents % 10 == r % 10;
  }

  /** `str` of a two-place amount spells it: the digits before the point are
      the whole units, the two after it the cents, and those parts give back
      the amount. */
  lemma CentsTextValue(cents: nat)
    ensures var s := CentsText(cents);
      && (forall i :: 0 <= i < |s| && i != |s| - 3 ==> '0' <= s[i] <= '9')
      && DigitsValue(s[..|s| - 3]) == cents / 100
      && DigitsValue(s[|s| - 2..]) == cents % 100
      && DigitsValue(s[..|s| - 3]) * 100 + DigitsValue(s[|s| - 2..]) == cents
  {
    var s := CentsText(cents);
    var whole := DecimalText(cents / 100);
    var frac := [DigitChar(cents / 10 % 10), DigitChar(cents % 10)];
    assert s == whole + "." + frac;
    assert s[..|s| - 3] == whole;
    assert s[|s| - 2..] == frac;
    DecimalTextValue(cents / 100);
    TwoDigitsValue(cents / 10 % 10, cents % 10);
    CentsDigits(cents);
  }

  /** Distinct amounts have distinct texts. */
  lemma CentsTextInjective(a: nat, b: nat)
    requires CentsText(a) == CentsText(b)
    ensures a == b
  {
    CentsTextValue(a);
    CentsTextValue(b);
  }
}
