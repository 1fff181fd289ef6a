/**
 * The sample-to-level arithmetic of the grip controller: a raw 12-bit ADC
 * reading is quantized to 0..255, mapped to a servo duty cycle, and from the
 * duty cycle to a grip level 0..5 that the display shows as "ON<level>".
 */
module Grip {

  /** Largest reading of the 12-bit ADC. */
  const AdcMax: int := 4095

  /** `int(raw // 16)`. Python's `//` floors; so does Dafny's `/` when the divisor is positive. */
  function Quantize(raw: int): (q: int)
    ensures q * 16 <= raw < q * 16 + 16
    ensures 0 <= raw <= AdcMax ==> 0 <= q <= 255
  {
    raw / 16
  }

  /** `duty_cycle_calc`: `number / 50 + 3`, true division, modelled on the reals. */
  function DutyCycle(q: int): (d: real)
    ensures 0 <= q ==> 3.0 <= d
    ensures 0 <= q <= 255 ==> 3.0 <= d <= 8.1
  {
    q as real / 50.0 + 3.0
  }

  /** A larger quantized sample asks the servo for a larger duty cycle. */
  lemma DutyCycleMonotone(q1: int, q2: int)
    requires q1 <= q2
    ensures DutyCycle(q1) <= DutyCycle(q2)
  {
  }

  /** Python's `int()` on a float: truncation toward zero. */
  function Trunc(x: real): (n: int)
    ensures 0.0 <= x ==> n as real <= x < n as real + 1.0
    ensures x < 0.0 ==> n as real - 1.0 < x <= n as real
  {
    if x >= 0.0 then x.Floor else -((-x).Floor)
  }

  function Abs(n: int): nat
  {
    if n < 0 then -n else n
  }

  /**
   * The grip level `abs(int(duty_cycle_calc(q)) - 8)`. For a non-negative
   * sample the division by 50 only loses its fraction, so the level is
   * `|q / 50 - 5|` in integer arithmetic.
   */
  function Level(q: int): (level: nat)
    ensures 0 <= q ==> level == Abs(q / 50 - 5)
  {
    var d := DutyCycle(q);
    assert 0 <= q ==> Trunc(d) == q / 50 + 3 by {
      if 0 <= q {
        var k, r := q / 50, q % 50;
        assert q == 50 * k + r && 0 <= r < 50;
        assert d == k as real + 3.0 + r as real / 50.0;
        assert (k + 3) as real <= d < (k + 3) as real + 1.0;
      }
    }
    Abs(Trunc(d) - 8)
  }

  /** For a quantized 12-bit reading the level lies in 0..5 and falls by one every 50 steps. */
  lemma LevelRange(q: int)
    requires 0 <= q <= 255
    ensures Level(q) == 5 - q / 50
    ensures 0 <= Level(q) <= 5
    ensures q < 50 <==> Level(q) == 5
    ensures 250 <= q <==> Level(q) == 0
  {
  }

  /** Turning the potentiometer up never raises the grip level (0 = no grip, 5 = most). */
  lemma LevelAntitone(q1: int, q2: int)
    requires 0 <= q1 <= q2 <= 255
    ensures Level(q2) <= Level(q1)
  {
    LevelRange(q1);
    LevelRange(q2);
  }

  function DigitChar(d: nat): (c: char)
    requires d < 10
    ensures '0' <= c <= '9'
  {
    ('0' as int + d) as char
  }

  predicate IsDigits(s: string)
  {
    forall i :: 0 <= i < |s| ==> '0' <= s[i] <= '9'
  }

  /** `str(n)` for a non-negative integer: its decimal digits, without leading zeros. */
  function DecimalString(n: nat): (s: string)
    ensures |s| >= 1 && IsDigits(s)
    ensures |s| == 1 <==> n < 10
    ensures |s| > 1 ==> s[0] != '0'
    decreases n
  {
    if n < 10 then [DigitChar(n)] else DecimalString(n / 10) + [DigitChar(n % 10)]
  }

  /** The number a string of decimal digits denotes; the inverse of `DecimalString`. */
  function DecimalValue(s: string): nat
    requires IsDigits(s)
  {
    if s == [] then 0
    else DecimalValue(s[..|s| - 1]) * 10 + (s[|s| - 1] as int - '0' as int)
  }

  lemma {:induction false} DecimalRoundTrip(n: nat)
    ensures DecimalValue(DecimalString(n)) == n
    decreases n
  {
    var s := DecimalString(n);
    if n >= 10 {
      DecimalRoundTrip(n / 10);
      assert s[..|s| - 1] == DecimalString(n / 10);
    }
  }

  /** The display text `"ON" + str(level)`; reading the digits back gives the level. */
  function OnText(q: int): (s: string)
    ensures |s| >= 3 && s[..2] == "ON"
    ensures IsDigits(s[2..]) && DecimalValue(s[2..]) == Level(q)
    ensures |s| == 3 <==> Level(q) < 10
    ensures |s| > 3 ==> s[2] != '0'
  {
    var digits := DecimalString(Level(q));
    DecimalRoundTrip(Level(q));
    assert ("ON" + digits)[2..] == digits;
    "ON" + digits
  }

  /** For a 12-bit reading the text is three characters, "ON0" to "ON5", and fits the four-digit display. */
  lemma OnTextTwelveBit(raw: int)
    requires 0 <= raw <= AdcMax
    ensures OnText(Quantize(raw)) == "ON" + [DigitChar(5 - Quantize(raw) / 50)]
    ensures |OnText(Quantize(raw))| == 3
  {
    LevelRange(Quantize(raw));
  }

  /** The level text can never be mistaken for the "OFF" or "DEAD" messages. */
  lemma OnTextDistinct(q: int)
    ensures OnText(q) != "OFF" && OnText(q) != "DEAD"
  {
    var s := OnText(q);
    assert s[1] == 'N';
  }

  /** Sample points of the arithmetic: quantization, levels, and the text of two samples. */
  lemma SampleValues()
    ensures Quantize(0) == 0 && Quantize(15) == 0 && Quantize(16) == 1
    ensures Quantize(31) == 1 && Quantize(4095) == 255
    ensures Level(0) == 5 && Level(100) == 3 && Level(250) == 0
    ensures OnText(1) == "ON5" && OnText(25) == "ON5"
  {
    assert Level(1) == 5 && Level(25) == 5;
    assert DecimalString(5) == "5";
  }
}
