/**
 * The two fmt verbs the services print numbers with: `%d` for a non-negative int and
 * `%.2f` for a float64 (here: a real).
 */
module Format {

  predicate IsDigit(c: char) {
    '0' <= c <= '9'
  }

  predicate AllDigits(s: string) {
    forall i :: 0 <= i < |s| ==> IsDigit(s[i])
  }

  function Digit(d: nat): (c: char)
    requires d < 10
    ensures IsDigit(c)
  {
    (('0' as int) + d) as char
  }

  function DigitValue(c: char): (d: nat)
    requires IsDigit(c)
    ensures d < 10
  {
    (c as int) - ('0' as int)
  }

  /** The number a string of decimal digits denotes. */
  function DecimalValue(s: string): nat
    requires AllDigits(s)
  {
    if s == [] then 0 else 10 * DecimalValue(s[..|s| - 1]) + DigitValue(s[|s| - 1])
  }

  /** `%d` of a non-negative number: its decimal digits, without leading zeros. */
  function NatToString(n: nat): (s: string)
    ensures |s| > 0 && AllDigits(s)
    ensures s[0] == '0' ==> n == 0
    ensures |s| == 1 <==> n < 10
  {
    if n < 10 then [Digit(n)] else NatToString(n / 10) + [Digit(n % 10)]
  }

  /** Reading back what `%d` printed gives the number. */
  lemma {:induction false} NatToStringRoundTrip(n: nat)
    ensures DecimalValue(NatToString(n)) == n
  {
    if n >= 10 {
      var s := NatToString(n);
      NatToStringRoundTrip(n / 10);
      assert s[..|s| - 1] == NatToString(n / 10);
    }
  }

  /** Different numbers print differently. */
  lemma NatToStringInjective(m: nat, n: nat)
    ensures NatToString(m) == NatToString(n) ==> m == n
  {
    NatToStringRoundTrip(m);
    NatToStringRoundTrip(n);
  }

  /** Round to the nearest integer, ties to even, as strconv does for an exact halfway value. */
  function RoundHalfEven(v: real): (n: nat)
    requires v >= 0.0
    ensures (n as real) - 0.5 <= v <= (n as real) + 0.5
    ensures v == (n as real) - 0.5 ==> n % 2 == 0
    ensures v == (n as real) + 0.5 ==> n % 2 == 0
  {
    var f := v.Floor;
    var frac := v - f as real;
    if frac > 0.5 || (frac == 0.5 && f % 2 == 1) then f + 1 else f
  }

  /** The magnitude of x in hundredths, as `%.2f` rounds it. */
  function Cents(x: real): nat {
    RoundHalfEven((if x < 0.0 then -x else x) * 100.0)
  }

  /**
   * `%.2f`: a sign when x is negative (Go prints "-0.00" for a small negative x), the
   * integer part, a point and exactly two decimals.
   */
  function Fixed2(x: real): (s: string)
    ensures |s| >= 4 && s[|s| - 3] == '.' && IsDigit(s[|s| - 2]) && IsDigit(s[|s| - 1])
    ensures (s[0] == '-') <==> x < 0.0
    ensures var whole := if x < 0.0 then s[1..|s| - 3] else s[..|s| - 3];
            |whole| > 0 && AllDigits(whole) && (whole[0] == '0' ==> |whole| == 1)
  {
    var c := Cents(x);
    (if x < 0.0 then "-" else "") + NatToString(c / 100) + "." + [Digit((c % 100) / 10), Digit((c % 100) % 10)]
  }

  /** The digits `%.2f` prints, read without sign and point, are x in hundredths, rounded. */
  lemma Fixed2Value(x: real)
    ensures var s := Fixed2(x);
            var whole := if x < 0.0 then s[1..|s| - 3] else s[..|s| - 3];
            AllDigits(whole) && DecimalValue(whole + s[|s| - 2..]) == Cents(x)
  {
    var c := Cents(x);
    Fixed2Parts(x);
    NatToStringRoundTrip(c / 100);
    DecimalValueAppend2(NatToString(c / 100), (c % 100) / 10, (c % 100) % 10);
  }

  /** Where Fixed2 puts the whole hundreds and the two decimals. */
  lemma Fixed2Parts(x: real)
    ensures var s := Fixed2(x); var c := Cents(x);
            && (if x < 0.0 then s[1..|s| - 3] else s[..|s| - 3]) == NatToString(c / 100)
            && s[|s| - 2..] == [Digit((c % 100) / 10), Digit((c % 100) % 10)]
  {
    var c := Cents(x);
    var sign := if x < 0.0 then "-" else "";
    var whole := NatToString(c / 100);
    var s := Fixed2(x);
    assert s == sign + whole + "." + [Digit((c % 100) / 10), Digit((c % 100) % 10)];
    assert s[|sign|..|s| - 3] == whole;
  }

  lemma DecimalValueAppend2(w: string, d1: nat, d0: nat)
    requires AllDigits(w) && d1 < 10 && d0 < 10
    ensures AllDigits(w + [Digit(d1), Digit(d0)])
    ensures DecimalValue(w + [Digit(d1), Digit(d0)]) == 100 * DecimalValue(w) + 10 * d1 + d0
  {
    var t := w + [Digit(d1), Digit(d0)];
    assert t[..|t| - 1] == w + [Digit(d1)];
    assert (w + [Digit(d1)])[..|w|] == w;
  }
}
