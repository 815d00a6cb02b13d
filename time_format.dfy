/** Decimal rendering of integers and the mm:ss clock used by the HUD and by
    the result screen: `minutes.toString().padStart(2, "0")` and the same for
    seconds. */
module TimeFormat {

  function DigitChar(d: nat): (c: char)
    requires d < 10
    ensures '0' <= c <= '9'
  {
    (48 + d) as char
  }

  function DigitValue(c: char): (d: nat)
    requires '0' <= c <= '9'
    ensures d < 10
  {
    c as int - 48
  }

  predicate IsDigits(s: string)
  {
    forall i :: 0 <= i < |s| ==> '0' <= s[i] <= '9'
  }

  /** `n.toString()` for a non-negative integer: no leading zeros. */
  function NatToString(n: nat): (s: string)
    ensures IsDigits(s) && 1 <= |s|
    ensures |s| == 1 <==> n < 10
    ensures n < 100 ==> |s| <= 2
    decreases n
  {
    if n < 10 then [DigitChar(n)] else NatToString(n / 10) + [DigitChar(n % 10)]
  }

  /** `i.toString()` for any integer. */
  function IntToString(i: int): (s: string)
    ensures i >= 0 ==> s == NatToString(i)
    ensures i < 0 ==> s == "-" + NatToString(-i)
  {
    if i < 0 then "-" + NatToString(-i) else NatToString(i)
  }

  /** The value a string of decimal digits denotes (an independent reading of
      `NatToString`, used to state its round trip). */
  function ParseDecimal(s: string): nat
    requires IsDigits(s)
  {
    if s == [] then 0 else 10 * ParseDecimal(s[..|s| - 1]) + DigitValue(s[|s| - 1])
  }

  /** `s.padStart(2, "0")`. */
  function PadStart2(s: string): (r: string)
    ensures |r| == if |s| >= 2 then |s| else 2
    ensures IsDigits(s) ==> IsDigits(r)
    ensures |s| >= 2 ==> r == s
  {
    if |s| >= 2 then s else if |s| == 1 then "0" + s else "00"
  }

  /** The `mm:ss` clock for a whole number of seconds. */
  function FormatClock(t: nat): string
  {
    PadStart2(NatToString(t / 60)) + ":" + PadStart2(NatToString(t % 60))
  }

  lemma {:induction false} ParseNatToString(n: nat)
    ensures ParseDecimal(NatToString(n)) == n
    decreases n
  {
    var s := NatToString(n);
    if n >= 10 {
      assert s[..|s| - 1] == NatToString(n / 10);
      ParseNatToString(n / 10);
    }
  }

  /** A leading zero does not change the value. */
  lemma {:induction false} ParseLeadingZero(s: string)
    requires IsDigits(s)
    ensures IsDigits("0" + s) && ParseDecimal("0" + s) == ParseDecimal(s)
    decreases |s|
  {
    var z := "0" + s;
    assert IsDigits(z) by {
      forall i | 0 <= i < |z| ensures '0' <= z[i] <= '9' {
        if i > 0 { assert z[i] == s[i - 1]; }
      }
    }
    if s != [] {
      var p := s[..|s| - 1];
      assert z[..|z| - 1] == "0" + p;
      assert IsDigits(p) by {
        forall i | 0 <= i < |p| ensures '0' <= p[i] <= '9' { assert p[i] == s[i]; }
      }
      ParseLeadingZero(p);
    }
  }

  lemma ParsePadStart2(s: string)
    requires IsDigits(s) && 1 <= |s|
    ensures ParseDecimal(PadStart2(s)) == ParseDecimal(s)
  {
    if |s| == 1 { ParseLeadingZero(s); }
  }

  /** Reading the clock back gives minutes and seconds with 60 * m + s = t, the
      seconds field is always exactly two digits and below 60. */
  lemma FormatClockRoundTrip(t: nat)
    ensures var c := FormatClock(t); var k := |c| - 3;
      |c| >= 5 && c[k] == ':' &&
      IsDigits(c[..k]) && IsDigits(c[k + 1..]) && |c[k + 1..]| == 2 &&
      ParseDecimal(c[k + 1..]) < 60 &&
      60 * ParseDecimal(c[..k]) + ParseDecimal(c[k + 1..]) == t
  {
    var m := PadStart2(NatToString(t / 60));
    var s := PadStart2(NatToString(t % 60));
    var c := FormatClock(t);
    assert c == m + ":" + s;
    assert |s| == 2;
    var k := |c| - 3;
    assert c[..k] == m;
    assert c[k + 1..] == s;
    ParsePadStart2(NatToString(t / 60));
    ParsePadStart2(NatToString(t % 60));
    ParseNatToString(t / 60);
    ParseNatToString(t % 60);
  }

  /** 125 seconds read "02:05". */
  lemma FormatClockExample()
    ensures FormatClock(125) == "02:05"
  {
    assert NatToString(2) == "2";
    assert NatToString(5) == "5";
  }
}
