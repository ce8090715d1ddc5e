/**
 * Room codes: `generateRoomCode` of server.js and the six-digit check the
 * lobby applies to a typed code before joining (launch.js).
 */
module RoomCode {

  predicate IsDigit(c: char) {
    '0' <= c <= '9'
  }

  predicate AllDigits(s: string) {
    forall i :: 0 <= i < |s| ==> IsDigit(s[i])
  }

  /** The lobby's check on a typed code: exactly six characters, all decimal digits. */
  predicate IsJoinCode(s: string) {
    |s| == 6 && AllDigits(s)
  }

  function DigitChar(d: nat): (c: char)
    requires d < 10
    ensures IsDigit(c)
  {
    (('0' as int) + d) as char
  }

  function DigitValue(c: char): (d: nat)
    requires IsDigit(c)
    ensures d < 10 && DigitChar(d) == c
  {
    (c as int) - ('0' as int)
  }

  /** `n.toString()` for a non-negative integer `n`: decimal digits, no leading zero. */
  function DecimalString(n: nat): string
  {
    if n < 10 then [DigitChar(n)] else DecimalString(n / 10) + [DigitChar(n % 10)]
  }

  /** The number a string of decimal digits denotes. */
  function ParseDecimal(s: string): nat
    requires AllDigits(s)
  {
    if s == [] then 0 else ParseDecimal(s[..|s| - 1]) * 10 + DigitValue(s[|s| - 1])
  }

  function Pow10(k: nat): (p: nat)
    ensures p >= 1
  {
    if k == 0 then 1 else 10 * Pow10(k - 1)
  }

  lemma SixDigitPowers()
    ensures Pow10(5) == 100000 && Pow10(6) == 1000000
  {
    assert Pow10(1) == 10 && Pow10(2) == 100 && Pow10(3) == 1000 && Pow10(4) == 10000;
  }

  /** A rendered number is a non-empty run of digits that starts with '0' only for 0 itself. */
  lemma {:induction false} DecimalStringShape(n: nat)
    ensures AllDigits(DecimalString(n))
    ensures |DecimalString(n)| >= 1
    ensures (DecimalString(n)[0] == '0') <==> n == 0
  {
    if n >= 10 {
      DecimalStringShape(n / 10);
      assert DecimalString(n)[0] == DecimalString(n / 10)[0];
    }
  }

  /** A number with exactly `k` digits renders as exactly `k` characters. */
  lemma {:induction false} DecimalStringLength(n: nat, k: nat)
    requires k >= 1 && Pow10(k - 1) <= n < Pow10(k)
    ensures |DecimalString(n)| == k
  {
    if k > 1 {
      assert Pow10(k - 1) == 10 * Pow10(k - 2);
      assert Pow10(k) == 10 * Pow10(k - 1);
      assert n >= 10;
      DecimalStringLength(n / 10, k - 1);
    }
  }

  /** Rendering then parsing gives the number back. */
  lemma {:induction false} DecimalRoundTrip(n: nat)
    ensures AllDigits(DecimalString(n))
    ensures ParseDecimal(DecimalString(n)) == n
  {
    DecimalStringShape(n);
    if n >= 10 {
      var s := DecimalString(n);
      DecimalRoundTrip(n / 10);
      assert s[..|s| - 1] == DecimalString(n / 10);
    }
  }

  /** A string of `k` digits denotes a number below 10^k, and at least 10^(k-1) when it does not start with '0'. */
  lemma {:induction false} ParseDecimalBounds(s: string)
    requires AllDigits(s) && |s| >= 1
    ensures ParseDecimal(s) < Pow10(|s|)
    ensures s[0] != '0' ==> Pow10(|s| - 1) <= ParseDecimal(s)
  {
    if |s| > 1 {
      var p := s[..|s| - 1];
      ParseDecimalBounds(p);
      assert p[0] == s[0];
      assert Pow10(|s|) == 10 * Pow10(|p|);
    }
  }

  /** Parsing then rendering gives back any digit string without a leading zero. */
  lemma {:induction false} CanonicalRoundTrip(s: string)
    requires AllDigits(s) && |s| >= 1 && (|s| > 1 ==> s[0] != '0')
    ensures DecimalString(ParseDecimal(s)) == s
  {
    if |s| > 1 {
      var p := s[..|s| - 1];
      ParseDecimalBounds(p);
      CanonicalRoundTrip(p);
      assert p + [s[|s| - 1]] == s;
    }
  }

  /** `Math.floor(100000 + r * 900000)` for a draw `r` of `Math.random()`. */
  function CodeNumber(r: real): (n: int)
    requires 0.0 <= r < 1.0
    ensures 100000 <= n <= 999999
  {
    (100000.0 + r * 900000.0).Floor
  }

  /** `generateRoomCode()`: the decimal rendering of `CodeNumber(r)`. */
  function GenerateRoomCode(r: real): (code: string)
    requires 0.0 <= r < 1.0
    ensures IsJoinCode(code) && code[0] != '0'
    ensures ParseDecimal(code) == CodeNumber(r)
  {
    var n := CodeNumber(r);
    SixDigitPowers();
    DecimalStringShape(n);
    DecimalRoundTrip(n);
    DecimalStringLength(n, 6);
    DecimalString(n)
  }

  /** Every six-digit string without a leading zero is the code of some draw. */
  lemma EveryCodeIsGenerated(s: string)
    requires IsJoinCode(s) && s[0] != '0'
    ensures exists r: real :: 0.0 <= r < 1.0 && GenerateRoomCode(r) == s
  {
    var n := ParseDecimal(s);
    CanonicalRoundTrip(s);
    ParseDecimalBounds(s);
    SixDigitPowers();
    var r: real := (n - 100000) as real / 900000.0;
    assert 100000.0 + r * 900000.0 == n as real;
    assert GenerateRoomCode(r) == s;
  }
}
