// Encoder counts and radians, with doubles taken as exact reals.

module Counts {
  import opened PxxCan

  const TWO_PI: real := 6.283185307179586
  const COUNTS_PER_REV: real := 7929856.0

  function CountsToRad(counts: int): real {
    counts as real * TWO_PI / COUNTS_PER_REV
  }

  function VelocityToRadS(raw: int): real {
    raw as real * TWO_PI / COUNTS_PER_REV
  }

  /** lround: nearest integer, halves away from zero. */
  function Round(x: real): int {
    if x >= 0.0 then (x + 0.5).Floor else -((0.5 - x).Floor)
  }

  /** The cast of the rounded value to int32 keeps its low 32 bits. */
  function RadToCounts(rad: real): (c: int)
    ensures IsInt32(c)
  {
    ToI32(ToU32(Round(rad * COUNTS_PER_REV / TWO_PI)))
  }

  /** Commands whose counts fit an int32. */
  predicate InRange(rad: real) {
    IsInt32(Round(rad * COUNTS_PER_REV / TWO_PI))
  }

  /** A joint angle or command at the motor shaft. */
  function MotorRad(joint: real, gear: real): real {
    joint * gear
  }

  function Abs(x: real): real {
    if x >= 0.0 then x else -x
  }

  /** Counts and counts per second share one scale: one revolution. */
  lemma OneRevolution(turns: int)
    ensures CountsToRad(turns * 7929856) == turns as real * TWO_PI == VelocityToRadS(turns * 7929856)
  {
    assert (turns * 7929856) as real == turns as real * COUNTS_PER_REV;
  }

  /** Half a turn, as a double writes it, is 3964928 counts. */
  lemma HalfATurn()
    ensures CountsToRad(3964928) == 3.141592653589793 == VelocityToRadS(3964928)
    ensures RadToCounts(3.141592653589793) == 3964928 && RadToCounts(-3.141592653589793) == -3964928
  {
  }

  lemma RoundIsNearest(x: real)
    ensures Abs(Round(x) as real - x) <= 0.5
  {
  }

  /** Halves round away from zero, on either side. */
  lemma RoundHalfAway(n: nat)
    ensures Round(n as real + 0.5) == n + 1 && Round(-(n as real) - 0.5) == -(n + 1)
  {
  }

  lemma NearestIsUnique(x: real, n: int)
    requires Abs(n as real - x) < 0.5
    ensures n == Round(x)
  {
  }

  /** Counts survive the trip through radians, for every int32. */
  lemma CountsRoundTrip(c: int)
    requires IsInt32(c)
    ensures RadToCounts(CountsToRad(c)) == c
  {
    var x := c as real;
    assert x * TWO_PI / COUNTS_PER_REV * COUNTS_PER_REV / TWO_PI == x;
    NearestIsUnique(x, c);
    SignedRoundTrip(c);
  }

  /** A command in range comes back within half a count. */
  lemma WithinHalfACount(rad: real)
    requires InRange(rad)
    ensures Abs(CountsToRad(RadToCounts(rad)) - rad) <= TWO_PI / COUNTS_PER_REV / 2.0
  {
    var x := rad * COUNTS_PER_REV / TWO_PI;
    var n := Round(x);
    SignedRoundTrip(n);
    RoundIsNearest(x);
    assert rad == x * TWO_PI / COUNTS_PER_REV;
    var d := n as real - x;
    assert CountsToRad(n) - rad == d * TWO_PI / COUNTS_PER_REV;
  }

  /** At the joint the error is divided by the size of the gear ratio, whatever its sign. */
  lemma WithinHalfACountAtTheJoint(q: real, gear: real)
    requires gear != 0.0 && InRange(MotorRad(q, gear))
    ensures Abs(CountsToRad(RadToCounts(MotorRad(q, gear))) / gear - q) <= TWO_PI / COUNTS_PER_REV / 2.0 / Abs(gear)
  {
    hide InRange, RadToCounts, CountsToRad;
    WithinHalfACount(MotorRad(q, gear));
    var d := CountsToRad(RadToCounts(MotorRad(q, gear))) - MotorRad(q, gear);
    ScaleError(d, q, gear, TWO_PI / COUNTS_PER_REV / 2.0);
  }

  lemma ScaleError(d: real, q: real, gear: real, bound: real)
    requires gear != 0.0 && Abs(d) <= bound
    ensures Abs((q * gear + d) / gear - q) <= bound / Abs(gear)
  {
    var e := d / gear;
    assert d == e * gear;
    assert q * gear + d == (q + e) * gear;
    QuotientIs(q * gear + d, gear, q + e);
    var b := bound / Abs(gear);
    assert bound == b * Abs(gear);
    if e >= 0.0 { Cancel(e, b, gear, d, bound); } else { Cancel(-e, b, gear, -d, bound); }
  }

  lemma Cancel(e: real, b: real, gear: real, d: real, bound: real)
    requires e >= 0.0 && gear != 0.0 && d == e * gear && Abs(d) <= bound && bound == b * Abs(gear)
    ensures e <= b
  {
    var g := Abs(gear);
    assert Abs(d) == e * g;
    assert (e - b) * g <= 0.0;
    assert e > b ==> (e - b) * g > 0.0;
  }

  lemma QuotientIs(p: real, d: real, r: real)
    requires d != 0.0 && p == r * d
    ensures p / d == r
  {
    var x := p / d;
    assert x * d == p;
    assert (x - r) * d == 0.0;
  }

  /** One count past the top of int32 the cast wraps: the drive is sent the opposite extreme. */
  lemma OverflowWraps()
    ensures !InRange(CountsToRad(0x8000_0000))
    ensures RadToCounts(CountsToRad(0x8000_0000)) == -0x8000_0000
  {
    var x := 0x8000_0000 as real;
    assert x * TWO_PI / COUNTS_PER_REV * COUNTS_PER_REV / TWO_PI == x;
    NearestIsUnique(x, 0x8000_0000);
  }

  /** The value sent is the rounded command exactly when the rounded command fits an int32. */
  lemma InRangeIsExact(rad: real)
    ensures RadToCounts(rad) == Round(rad * COUNTS_PER_REV / TWO_PI) <==> InRange(rad)
  {
    if InRange(rad) { SignedRoundTrip(Round(rad * COUNTS_PER_REV / TWO_PI)); }
  }
}
