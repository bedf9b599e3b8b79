/**
 * The race clock's `HH:MM:SS` text (`formatTime`, written out identically in
 * PositionsTable.jsx and Timing.jsx). The argument is a number of seconds that may carry a
 * fraction; JavaScript's `Math.floor`, its truncating `%` and `String(n).padStart(2, "0")`
 * are written out over reals and integers.
 */
module TimeFormat {

  import opened RaceData

  function DigitChar(d: nat): (c: char)
    requires d < 10
    ensures '0' <= c <= '9' && (c as int) - ('0' as int) == d
  {
    (('0' as int) + d) as char
  }

  /** `String(n)` for a non-negative integer: its decimal digits, without leading zeros. */
  function NatToString(n: nat): string
    decreases n
  {
    if n < 10 then [DigitChar(n)] else NatToString(n / 10) + [DigitChar(n % 10)]
  }

  /** `String(i)` for any integer: a minus sign before the digits of a negative number. */
  function IntToString(i: int): string
  {
    if i < 0 then "-" + NatToString(-i) else NatToString(i)
  }

  /** `s.padStart(2, "0")`: zeros in front up to length two; a longer text is kept whole. */
  function PadStart2(s: string): string
  {
    if |s| >= 2 then s else seq(2 - |s|, _ => '0') + s
  }

  /** `Math.trunc`: rounding toward zero. */
  function Trunc(x: real): int
  {
    if x >= 0.0 then x.Floor else -((-x).Floor)
  }

  /** JavaScript's `x % m` on numbers: the remainder of the truncating division. */
  function JsRem(x: real, m: real): real
    requires m != 0.0
  {
    x - m * (Trunc(x / m) as real)
  }

  function FormatTime(timeInSeconds: real): string
  {
    var hours := (timeInSeconds / 3600.0).Floor;
    var minutes := (JsRem(timeInSeconds, 3600.0) / 60.0).Floor;
    var seconds := JsRem(timeInSeconds, 60.0).Floor;
    Clock(hours, minutes, seconds)
  }

  /** The template `${hours}:${minutes}:${seconds}` over the three padded fields. */
  function Clock(hours: int, minutes: int, seconds: int): string
  {
    PadStart2(IntToString(hours)) + ":" + PadStart2(IntToString(minutes)) + ":"
      + PadStart2(IntToString(seconds))
  }

  // ---------------------------------------------------------------------------------------
  // Reading the text back

  predicate AllDigits(s: string)
  {
    forall i :: 0 <= i < |s| ==> '0' <= s[i] <= '9'
  }

  /** The value of a string of decimal digits (leading zeros allowed). */
  function DigitsValue(s: string): nat
    requires AllDigits(s)
  {
    if s == [] then 0
    else DigitsValue(s[..|s| - 1]) * 10 + ((s[|s| - 1] as int) - ('0' as int))
  }

  /**
   * Reads `H..H:MM:SS` back into seconds: at least two hour digits, exactly two minute and
   * two second digits, minutes and seconds below 60; anything else is `None`.
   */
  function ParseClock(s: string): Option<nat>
  {
    if |s| < 8 then None
    else
      var hh, mm, ss := s[..|s| - 6], s[|s| - 5..|s| - 3], s[|s| - 2..];
      if s[|s| - 6] == ':' && s[|s| - 3] == ':' && AllDigits(hh) && AllDigits(mm) && AllDigits(ss)
         && DigitsValue(mm) < 60 && DigitsValue(ss) < 60
      then Some(DigitsValue(hh) * 3600 + DigitsValue(mm) * 60 + DigitsValue(ss))
      else None
  }

  // ---------------------------------------------------------------------------------------
  // Lemmas

  lemma {:induction false} NatToStringDigits(n: nat)
    ensures |NatToString(n)| >= 1 && AllDigits(NatToString(n))
    ensures DigitsValue(NatToString(n)) == n
    ensures n < 10 ==> |NatToString(n)| == 1
    ensures 10 <= n < 100 ==> |NatToString(n)| == 2
    decreases n
  {
    if n >= 10 {
      NatToStringDigits(n / 10);
      var s := NatToString(n);
      assert s[..|s| - 1] == NatToString(n / 10);
    }
  }

  lemma ZeroPrefixValue(s: string)
    requires AllDigits(s)
    ensures AllDigits("0" + s) && DigitsValue("0" + s) == DigitsValue(s)
    decreases |s|
  {
    if s != [] {
      var t := "0" + s;
      assert t[..|t| - 1] == "0" + s[..|s| - 1];
      ZeroPrefixValue(s[..|s| - 1]);
    }
  }

  /**
   * A non-negative field padded to two places reads back as itself: a single digit gets one
   * leading zero, two or more digits are kept whole (`padStart` never truncates).
   */
  lemma PaddedField(n: nat)
    ensures var p := PadStart2(IntToString(n));
            |p| >= 2 && AllDigits(p) && DigitsValue(p) == n && (n < 100 ==> |p| == 2)
    ensures n < 10 ==> PadStart2(IntToString(n)) == ['0', DigitChar(n)]
    ensures n >= 10 ==> PadStart2(IntToString(n)) == NatToString(n)
  {
    NatToStringDigits(n);
    var s := NatToString(n);
    if |s| < 2 {
      assert PadStart2(s) == "0" + s;
      ZeroPrefixValue(s);
    }
  }

  /** For a non-negative time, the three fields depend only on its whole seconds. */
  lemma FloorFields(t: real)
    requires t >= 0.0
    ensures var n := t.Floor;
            n >= 0
            && (t / 3600.0).Floor == n / 3600
            && (JsRem(t, 3600.0) / 60.0).Floor == (n % 3600) / 60
            && JsRem(t, 60.0).Floor == n % 60
  {
    var n := t.Floor;
    DivOfFloor(t, 3600);
    DivOfFloor(t, 60);
    var r := JsRem(t, 3600.0);
    assert r == (n % 3600) as real + (t - n as real);
    var a, b := (n % 3600) / 60, (n % 3600) % 60;
    assert (n % 3600) == 60 * a + b;
    assert r / 60.0 == a as real + (b as real + (t - n as real)) / 60.0;
    assert (a as real) <= r / 60.0 < (a + 1) as real;
  }

  /** For t >= 0 and k > 0: floor(t / k) = floor(t) div k, and t % k = floor(t) mod k + frac(t). */
  lemma DivOfFloor(t: real, k: int)
    requires t >= 0.0 && k > 0
    ensures (t / k as real).Floor == t.Floor / k
    ensures JsRem(t, k as real) == (t.Floor % k) as real + (t - t.Floor as real)
  {
    var n := t.Floor;
    var q, r := n / k, n % k;
    var kr, qr, rr := k as real, q as real, r as real;
    assert n == k * q + r;
    assert n as real == kr * qr + rr by { IntProductAsReal(k, q); }
    var f := t - n as real;
    assert 0.0 <= f < 1.0;
    assert r + 1 <= k;
    assert qr * kr <= t < (qr + 1.0) * kr;
    var x := t / kr;
    BoundsByDivision(qr, t, kr);
    assert x.Floor == q;
    assert Trunc(x) == q;
  }

  lemma IntProductAsReal(a: int, b: int)
    ensures (a * b) as real == (a as real) * (b as real)
  {
  }

  /** From q*k <= t < (q+1)*k with k > 0 follows q <= t/k < q+1. */
  lemma BoundsByDivision(q: real, t: real, k: real)
    requires k > 0.0 && q * k <= t < (q + 1.0) * k
    ensures q <= t / k < q + 1.0
  {
    var x := t / k;
    assert x * k == t;
    if x >= q + 1.0 {
      MulMonotone(q + 1.0, x, k);
    }
  }

  lemma MulMonotone(a: real, b: real, k: real)
    requires a <= b && k > 0.0
    ensures a * k <= b * k
  {
  }

  /**
   * For a time t >= 0 the text is `HH:MM:SS` with at least two hour digits and exactly two
   * minute and second digits; it reads back as the whole seconds of t, so minutes and seconds
   * lie in 00..59 and H*3600 + M*60 + S = floor(t).
   */
  lemma FormatTimeRoundTrip(t: real)
    requires t >= 0.0
    ensures ParseClock(FormatTime(t)) == Some(t.Floor)
    ensures t < 360000.0 ==> |FormatTime(t)| == 8
  {
    FloorFields(t);
    var n := t.Floor;
    var h, m, s := n / 3600, (n % 3600) / 60, n % 60;
    ClockRoundTrip(h, m, s);
    SecondsSplit(n);
  }

  /** Whole seconds split into hours, minutes and seconds, and back. */
  lemma SecondsSplit(n: nat)
    ensures n == (n / 3600) * 3600 + ((n % 3600) / 60) * 60 + n % 60
    ensures n < 360000 ==> n / 3600 < 100
  {
  }

  /** Three fields with minutes and seconds below 60 read back as their seconds. */
  lemma ClockRoundTrip(h: nat, m: nat, s: nat)
    requires m < 60 && s < 60
    ensures ParseClock(Clock(h, m, s)) == Some(h * 3600 + m * 60 + s)
    ensures h < 100 ==> |Clock(h, m, s)| == 8
  {
    PaddedField(h);
    PaddedField(m);
    PaddedField(s);
    var ph, pm, ps := PadStart2(IntToString(h)), PadStart2(IntToString(m)), PadStart2(IntToString(s));
    ClockParts(ph, pm, ps);
  }

  /** Where the parser finds the three fields of `a:b:c` when b and c have two characters. */
  lemma ClockParts(a: string, b: string, c: string)
    requires |b| == 2 && |c| == 2
    ensures var t := a + ":" + b + ":" + c;
            && |t| == |a| + 6
            && t[..|t| - 6] == a && t[|t| - 6] == ':' && t[|t| - 5..|t| - 3] == b
            && t[|t| - 3] == ':' && t[|t| - 2..] == c
  {
    var t := a + ":" + b + ":" + c;
    assert t == a + ([':'] + b + [':'] + c);
  }

  /** The test's expectation: time zero shows as "00:00:00". */
  lemma FormatTimeZero()
    ensures FormatTime(0.0) == "00:00:00"
  {
    assert (0.0 / 3600.0).Floor == 0;
    assert JsRem(0.0, 3600.0) == 0.0;
    assert JsRem(0.0, 60.0) == 0.0;
    assert IntToString(0) == "0";
  }
}
