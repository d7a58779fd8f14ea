/** The angle -> off-count converter: an angle in degrees is mapped linearly onto a pulse
    width of 700..2300 microseconds, the pulse width linearly onto a tick of the 4096-tick,
    20000-microsecond frame, and the tick is split into the two bytes the PCA9685 takes.
    Arithmetic is exact (reals), as `pins.map` computes it without rounding. */
module AngleConversion {
  import opened Pca9685

  const TWO_POW_31: int := 0x8000_0000
  const TWO_POW_32: int := 0x1_0000_0000

  /** MakeCode's `pins.map`: the point of [toLow, toHigh] that corresponds to `value` in
      [fromLow, fromHigh], extrapolated linearly outside it. */
  function Map(value: real, fromLow: real, fromHigh: real, toLow: real, toHigh: real): (r: real)
    requires fromLow != fromHigh
    ensures value == fromLow ==> r == toLow
    ensures value == fromHigh ==> r == toHigh
  {
    DivideSelf(fromHigh - fromLow, toHigh - toLow);
    (value - fromLow) * (toHigh - toLow) / (fromHigh - fromLow) + toLow
  }

  /** On an increasing source range, `Map` preserves order when the target range is
      increasing too. */
  lemma MapMonotone(x: real, y: real, fromLow: real, fromHigh: real, toLow: real, toHigh: real)
    requires fromLow < fromHigh && toLow <= toHigh && x <= y
    ensures Map(x, fromLow, fromHigh, toLow, toHigh) <= Map(y, fromLow, fromHigh, toLow, toHigh)
  {
    MapUnfold(x, fromLow, fromHigh, toLow, toHigh);
    MapUnfold(y, fromLow, fromHigh, toLow, toHigh);
    QuotientOrder(Map(x, fromLow, fromHigh, toLow, toHigh) - toLow,
                  Map(y, fromLow, fromHigh, toLow, toHigh) - toLow,
                  x - fromLow, y - fromLow, toHigh - toLow, fromHigh - fromLow);
  }

  /** Two values obtained by scaling u <= v with the same non-negative ratio keep their
      order. */
  lemma QuotientOrder(p: real, q: real, u: real, v: real, e: real, d: real)
    requires u <= v && 0.0 <= e && 0.0 < d
    requires p == u * e / d && q == v * e / d
    ensures p <= q
  {
    ScaleMonotone(u, v, e, d);
  }

  /** Scaling by a non-negative ratio keeps the order of two numbers. */
  lemma ScaleMonotone(u: real, v: real, e: real, d: real)
    requires u <= v && 0.0 <= e && 0.0 < d
    ensures u * e / d <= v * e / d
  {
    MultiplyMonotone(u, v, e);
    DivideMonotone(u * e, v * e, d);
  }

  /** Multiplying by a non-negative number keeps the order of two numbers. */
  lemma MultiplyMonotone(u: real, v: real, e: real)
    requires u <= v && 0.0 <= e
    ensures u * e <= v * e
  {
    assert v * e - u * e == (v - u) * e;
  }

  /** The formula `Map` evaluates, for use where the body is not unfolded. */
  lemma MapUnfold(value: real, fromLow: real, fromHigh: real, toLow: real, toHigh: real)
    requires fromLow != fromHigh
    ensures Map(value, fromLow, fromHigh, toLow, toHigh)
            == (value - fromLow) * (toHigh - toLow) / (fromHigh - fromLow) + toLow
  {
  }

  /** A product divided by one of its factors gives the other factor back. */
  lemma DivideSelf(d: real, e: real)
    requires d != 0.0
    ensures d * e / d == e
  {
  }

  /** Dividing by a positive number keeps the order of two numbers. */
  lemma DivideMonotone(a: real, b: real, d: real)
    requires a <= b && 0.0 < d
    ensures a / d <= b / d
  {
    assert b / d - a / d == (b - a) / d;
  }

  /** JavaScript's truncation of a number to an integer: toward zero. */
  function Trunc(x: real): (n: int)
    ensures 0.0 <= x ==> n as real <= x < n as real + 1.0
    ensures x < 0.0 ==> n as real - 1.0 < x <= n as real
  {
    if x >= 0.0 then x.Floor else -((-x).Floor)
  }

  /** ECMAScript's ToInt32 on a finite number: truncate, then wrap into the signed 32-bit
      range. */
  function ToInt32(x: real): (n: int)
    ensures -TWO_POW_31 <= n < TWO_POW_31
    ensures (Trunc(x) - n) % TWO_POW_32 == 0
  {
    var t := Trunc(x);
    var w := (t + TWO_POW_31) % TWO_POW_32 - TWO_POW_31;
    assert t - w == TWO_POW_32 * ((t + TWO_POW_31) / TWO_POW_32);
    w
  }

  /** `v & 0x00ff` on a 32-bit two's-complement integer. */
  function LowByte(v: int): (b: Byte)
    ensures (v - b) % 0x100 == 0
  {
    v % 0x100
  }

  /** `(v & 0xff00) >> 8` on a 32-bit two's-complement integer. */
  function HighByte(v: int): (b: Byte)
    ensures (v - 0x100 * b) % 0x10000 < 0x100
  {
    var m := v % 0x10000;
    var b := m / 0x100;
    assert v - 0x100 * b == 0x10000 * (v / 0x10000) + m % 0x100;
    ModAddMultiple(m % 0x100, v / 0x10000);
    b
  }

  /** The servo pulse width in microseconds for an angle in degrees (the source's
      `servoPulse`): 700 at 0 degrees, 2300 at 180, and in between over the declared range. */
  function PulseWidth(angle: real): (us: real)
    ensures angle == 0.0 ==> us == 700.0
    ensures angle == 180.0 ==> us == 2300.0
    ensures 0.0 <= angle <= 180.0 ==> 700.0 <= us <= 2300.0
  {
    Map(angle, 0.0, SERVO_ANGLE_RANGE, SERVO_PULSE_MIN, SERVO_PULSE_MAX)
  }

  /** The exact tick of the frame at which the output goes low. This is the number the
      source calls `offCount`, before `&` truncates it; the two interpolations collapse to
      one rational expression. */
  function OffTicks(angle: real): (ticks: real)
    ensures ticks == (126000.0 + 1600.0 * angle) * 4096.0 / 3600000.0
  {
    UpdateTimeValue();
    Map(PulseWidth(angle), 0.0, UPDATE_TIME, 0.0, CHIP_COUNTER)
  }

  /** The integer the source's `&` sees before any 32-bit wrap-around: `offCount`
      (here OffTicks) truncated toward zero. */
  function OffCount(angle: real): (n: int)
    ensures 0.0 <= OffTicks(angle) ==> n as real <= OffTicks(angle) < n as real + 1.0
    ensures OffTicks(angle) < 0.0 ==> n as real - 1.0 < OffTicks(angle) <= n as real
  {
    Trunc(OffTicks(angle))
  }

  /** `servoAngleToOffCount`: the low and high byte of the off-count. Whatever the angle,
      the two bytes encode the off-count modulo 2^16; out-of-range angles are not
      clamped. */
  function ServoAngleToOffCount(angle: real): (r: (Byte, Byte))
    ensures r.0 + 0x100 * r.1 == OffCount(angle) % 0x10000
  {
    var v := ToInt32(OffTicks(angle));
    ByteSplitModulo(v);
    CongruentModuloSixteenBits(v, OffCount(angle));
    (LowByte(v), HighByte(v))
  }

  /** Two integers that agree modulo 2^32 agree modulo 2^16. */
  lemma CongruentModuloSixteenBits(v: int, t: int)
    requires (t - v) % TWO_POW_32 == 0
    ensures v % 0x10000 == t % 0x10000
  {
    var k := (t - v) / TWO_POW_32;
    assert t == v + 0x10000 * (0x10000 * k);
    ModAddMultiple(v, 0x10000 * k);
  }

  lemma ModAddMultiple(v: int, k: int)
    ensures (v + 0x10000 * k) % 0x10000 == v % 0x10000
  {
    var q, r := v / 0x10000, v % 0x10000;
    assert v + 0x10000 * k == 0x10000 * (q + k) + r;
  }

  /** The two bytes recombine to the value modulo 2^16. */
  lemma ByteSplitModulo(v: int)
    ensures LowByte(v) + 0x100 * HighByte(v) == v % 0x10000
  {
    var m := v % 0x10000;
    var q := v / 0x10000;
    assert v == 0x10000 * q + m;
    assert v == 0x100 * (0x100 * q + m / 0x100) + m % 0x100;
  }

  /** Splitting a 16-bit count into bytes and joining them again gives the count back. */
  lemma {:induction false} ByteSplitRoundTrip(c: int)
    requires 0 <= c < 0x10000
    ensures LowByte(c) + 0x100 * HighByte(c) == c
  {
    ByteSplitModulo(c);
  }

  /** Joining two bytes and splitting the result gives the two bytes back. */
  lemma ByteJoinRoundTrip(low: Byte, high: Byte)
    ensures LowByte(low + 0x100 * high) == low
    ensures HighByte(low + 0x100 * high) == high
  {
    assert (low + 0x100 * high) % 0x10000 == low + 0x100 * high;
  }

  /** For a whole, non-negative angle the off-count is an integer floor division. */
  lemma OffCountOfWholeAngle(a: nat)
    ensures OffCount(a as real) == (126000 + 1600 * a) * 4096 / 3600000
  {
    var n := (126000 + 1600 * a) * 4096;
    var q, r := n / 3600000, n % 3600000;
    assert n == 3600000 * q + r;
    assert OffTicks(a as real) == n as real / 3600000.0;
    assert OffTicks(a as real) == q as real + r as real / 3600000.0;
  }

  /** The values the driver produces at the ends and the middle of the declared range. */
  lemma OffCountAtLandmarks()
    ensures OffCount(0.0) == 143
    ensures OffCount(90.0) == 307 == 0x133
    ensures OffCount(180.0) == 471
  {
    OffCountOfWholeAngle(0);
    OffCountOfWholeAngle(90);
    OffCountOfWholeAngle(180);
  }

  /** Truncation toward zero never reverses the order of two numbers. */
  lemma TruncMonotone(x: real, y: real)
    requires x <= y
    ensures Trunc(x) <= Trunc(y)
  {
  }

  /** The off-count never decreases as the angle grows. */
  lemma OffCountMonotone(x: real, y: real)
    requires x <= y
    ensures OffCount(x) <= OffCount(y)
  {
    MapMonotone(x, y, 0.0, SERVO_ANGLE_RANGE, SERVO_PULSE_MIN, SERVO_PULSE_MAX);
    UpdateTimeValue();
    MapMonotone(PulseWidth(x), PulseWidth(y), 0.0, UPDATE_TIME, 0.0, CHIP_COUNTER);
    TruncMonotone(OffTicks(x), OffTicks(y));
  }

  /** Over the declared range 0..180 degrees the off-count lies in 143..471. */
  lemma OffCountInRange(angle: real)
    requires 0.0 <= angle <= SERVO_ANGLE_RANGE
    ensures 143 <= OffCount(angle) <= 471
  {
    OffCountAtLandmarks();
    OffCountMonotone(0.0, angle);
    OffCountMonotone(angle, SERVO_ANGLE_RANGE);
  }

  /** Over the declared range the high byte is 0 or 1 and the bytes encode the off-count
      itself, with no wrap-around. */
  lemma ConverterBytesInRange(angle: real)
    requires 0.0 <= angle <= SERVO_ANGLE_RANGE
    ensures ServoAngleToOffCount(angle).1 <= 1
    ensures ServoAngleToOffCount(angle).0 + 0x100 * ServoAngleToOffCount(angle).1 == OffCount(angle)
  {
    OffCountInRange(angle);
    assert OffCount(angle) % 0x10000 == OffCount(angle);
  }

  /** The centre value written at start-up: 90 degrees gives low byte 0x33, high byte 0x01. */
  lemma CentreBytes()
    ensures SERVO_ANGLE_RANGE / 2.0 == 90.0
    ensures ServoAngleToOffCount(SERVO_ANGLE_RANGE / 2.0) == (0x33, 0x01)
  {
    OffCountAtLandmarks();
    ConverterBytesInRange(90.0);
  }

  /** 512 is invertible modulo 1125 (512 * 323 == 1 + 147 * 1125), so 1125 divides 512 * n
      only when it divides n. */
  lemma DividesThroughCoprime(n: int)
    requires (512 * n) % 1125 == 0
    ensures n % 1125 == 0
  {
    var k := (512 * n) / 1125;
    assert 512 * n == 1125 * k;
    assert n == 1125 * (323 * k - 147 * n) by {
      assert 512 * 323 * n == 1125 * 323 * k;
    }
  }

  /** For whole angles in 0..180 the tick count, as a fraction over 1125, never has a zero
      numerator remainder. */
  lemma TickRemainderNonZero(a: int)
    requires 0 <= a <= 180
    ensures 0 < (512 * (315 + 4 * a)) % 1125
  {
    var n := 315 + 4 * a;
    if (512 * n) % 1125 == 0 {
      DividesThroughCoprime(n);
    }
  }

  /** For whole angles in 0..180 the exact tick count is never a whole number: it lies at
      least 1/1125 of a tick above its integer part and below the next integer. Rounding
      error far smaller than that cannot change the truncated off-count. */
  lemma OffTicksAwayFromIntegers(a: int)
    requires 0 <= a <= 180
    ensures OffCount(a as real) as real + 1.0 / 1125.0 <= OffTicks(a as real)
    ensures OffTicks(a as real) <= OffCount(a as real) as real + 1124.0 / 1125.0
  {
    var m := 512 * (315 + 4 * a);
    var q, r := m / 1125, m % 1125;
    TickRemainderNonZero(a);
    assert m == 1125 * q + r;
    assert OffTicks(a as real) == m as real / 1125.0;
    assert OffTicks(a as real) == q as real + r as real / 1125.0;
    assert OffCount(a as real) == q;
  }
}
