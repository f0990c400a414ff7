/** `formatDuration(ms)`: a duration in milliseconds rendered as `m:ss`. */
module DurationFormat {

  predicate IsDigit(c: char) {
    '0' <= c <= '9'
  }

  predicate AllDigits(s: string) {
    forall i | 0 <= i < |s| :: IsDigit(s[i])
  }

  function DigitChar(d: int): (c: char)
    requires 0 <= d < 10
    ensures IsDigit(c) && c as int - '0' as int == d
  {
    (d + '0' as int) as char
  }

  /** The decimal value of a digit string (the inverse of `NatToString`). */
  function ParseNat(s: string): nat
    requires AllDigits(s)
  {
    if s == [] then 0 else ParseNat(s[..|s| - 1]) * 10 + (s[|s| - 1] as int - '0' as int)
  }

  /** `n.toString()` for a non-negative integer: its decimal digits, no leading zero. */
  function NatToString(n: nat): (r: string)
    ensures |r| >= 1 && AllDigits(r)
    ensures n < 10 <==> |r| == 1
    decreases n
  {
    if n < 10 then [DigitChar(n)] else NatToString(n / 10) + [DigitChar(n % 10)]
  }

  /** `i.toString()`: a minus sign in front of the digits of a negative number. */
  function IntToString(i: int): (r: string)
    ensures |r| >= 1
  {
    if i < 0 then "-" + NatToString(-i) else NatToString(i)
  }

  /** `s.padStart(2, '0')`. */
  function PadStart2(s: string): (r: string)
    ensures |r| == if |s| >= 2 then |s| else 2
    ensures |s| >= 2 ==> r == s
    ensures |s| < 2 ==> r[2 - |s|..] == s && forall i | 0 <= i < 2 - |s| :: r[i] == '0'
  {
    if |s| >= 2 then s else seq(2 - |s|, _ => '0') + s
  }

  /** JavaScript's `a % b` for a positive divisor: the remainder takes the sign of `a`
      (Dafny's `%` is Euclidean and never negative). */
  function JsRemainder(a: int, b: int): (r: int)
    requires b > 0
    ensures a >= 0 ==> r == a % b && 0 <= r < b
    ensures a < 0 ==> r == -((-a) % b) && -b < r <= 0
  {
    if a >= 0 then a % b else -((-a) % b)
  }

  /** `formatDuration(ms)`. `Math.floor(x / n)` for a positive `n` is Dafny's `x / n`. */
  function FormatDuration(ms: int): (r: string)
    ensures |r| >= 4
    ensures ':' in r[1..|r| - 2]
  {
    var seconds := ms / 1000;
    var minutes := seconds / 60;
    var remainingSeconds := JsRemainder(seconds, 60);
    var m := IntToString(minutes);
    var p := PadStart2(IntToString(remainingSeconds));
    assert (m + ":" + p)[1..|m| + 1 + |p| - 2][|m| - 1] == ':';
    m + ":" + p
  }

  /** Reading the decimal digits back gives the number. */
  lemma {:induction false} NatToStringRoundTrip(n: nat)
    ensures ParseNat(NatToString(n)) == n
    decreases n
  {
    if n >= 10 {
      var s := NatToString(n);
      NatToStringRoundTrip(n / 10);
      assert s[..|s| - 1] == NatToString(n / 10);
    }
  }

  /** A leading zero does not change the value of a digit string. */
  lemma {:induction false} LeadingZero(s: string)
    requires AllDigits(s)
    ensures AllDigits("0" + s) && ParseNat("0" + s) == ParseNat(s)
    decreases |s|
  {
    if s != [] {
      var t := "0" + s;
      assert t[..|t| - 1] == "0" + s[..|s| - 1];
      LeadingZero(s[..|s| - 1]);
    }
  }

  /** The seconds field: two digits that read back as the value. */
  lemma SecondsField(rem: nat)
    requires rem < 60
    ensures var p := PadStart2(NatToString(rem));
            |p| == 2 && AllDigits(p) && ParseNat(p) == rem
  {
    var d := NatToString(rem);
    NatToStringRoundTrip(rem);
    var p := PadStart2(d);
    if rem < 10 {
      assert p == "0" + d;
      LeadingZero(d);
    } else {
      assert |NatToString(rem / 10)| == 1;
    }
  }

  /** For a non-negative duration the text is `<minutes>:<ss>`: the part before the
      colon is the decimal text of `⌊⌊ms/1000⌋/60⌋` and reads back as that number, the
      two digits after it read back as the remaining seconds, which are below 60. */
  lemma FormatDurationFields(ms: int)
    requires ms >= 0
    ensures var r := FormatDuration(ms);
            var k := |r| - 3;
            k >= 1 && r[k] == ':' && AllDigits(r[..k]) && AllDigits(r[k + 1..]) &&
            r[..k] == NatToString(ms / 1000 / 60) &&
            ParseNat(r[..k]) == ms / 1000 / 60 &&
            ParseNat(r[k + 1..]) == (ms / 1000) % 60 &&
            ParseNat(r[k + 1..]) < 60
  {
    var seconds := ms / 1000;
    var minutes := seconds / 60;
    var rem := seconds % 60;
    assert JsRemainder(seconds, 60) == rem;
    var m := NatToString(minutes);
    var p := PadStart2(NatToString(rem));
    NatToStringRoundTrip(minutes);
    SecondsField(rem);
    assert IntToString(minutes) == m && IntToString(rem) == NatToString(rem);
    assert FormatDuration(ms) == m + ":" + p;
    SplitAtColon(m, p);
  }

  /** `<m>:<pp>` cut three characters from its end gives back both fields. */
  lemma SplitAtColon(m: string, p: string)
    requires |p| == 2
    ensures var r := m + ":" + p;
            var k := |r| - 3;
            k == |m| && r[k] == ':' && r[..k] == m && r[k + 1..] == p
  {
    var r := m + ":" + p;
    assert r[..|m|] == m;
    assert r[|m| + 1..] == p;
  }

  /** Negative durations follow JavaScript's truncating remainder: -1500 ms is "-1:-2". */
  lemma NegativeDuration()
    ensures FormatDuration(-1500) == "-1:-2"
  {
    assert -1500 / 1000 == -2 && -2 / 60 == -1;
    assert JsRemainder(-2, 60) == -2;
    assert IntToString(-1) == "-1" && IntToString(-2) == "-2";
    assert PadStart2("-2") == "-2";
  }
}
