/** Register map and timing constants of the Kitronik 16-servo board, whose PWM chip is an
    NXP PCA9685 at I2C address 0x6A. The register numbers are the driver's own; the
    functions LedOffL and LedOffH restate the chip's register summary independently so
    that the driver's table can be checked against it. */
module Pca9685 {

  /** A value that fits in one I2C data byte (the driver writes every value as UInt8LE). */
  type Byte = b: int | 0 <= b < 256

  const ALL_LED_ON_L_REG: Byte := 0xFA
  const ALL_LED_ON_H_REG: Byte := 0xFB
  const ALL_LED_OFF_L_REG: Byte := 0xFC
  const ALL_LED_OFF_H_REG: Byte := 0xFD
  const PRE_SCALE_REG: Byte := 0xFE
  const MODE1_REG: Byte := 0x00

  // Timing: a 50 Hz frame split into 4096 ticks of a 25 MHz oscillator.
  const UPDATE_FREQ: real := 50.0
  const UPDATE_TIME: real := 1000000.0 / UPDATE_FREQ
  const CHIP_CLOCK: real := 25000000.0
  const CHIP_COUNTER: real := 4096.0
  const PRE_SCALE: int := (CHIP_CLOCK / (CHIP_COUNTER * UPDATE_FREQ) - 1.0).Floor

  const SERVO_ANGLE_RANGE: real := 180.0
  const SERVO_PULSE_MIN: real := 700.0
  const SERVO_PULSE_MAX: real := 2300.0

  const SERVO_REG_BASE: int := 0x08
  const SERVO_REG_OFFSET: int := 4

  /** The `Servos` enumeration: entry N-1 is the value of ServoN, the register the driver
      writes an off-count's low byte to. */
  const SERVOS: seq<int> := [
    SERVO_REG_BASE + 0 * SERVO_REG_OFFSET,
    SERVO_REG_BASE + 1 * SERVO_REG_OFFSET,
    SERVO_REG_BASE + 2 * SERVO_REG_OFFSET,
    SERVO_REG_BASE + 3 * SERVO_REG_OFFSET,
    SERVO_REG_BASE + 4 * SERVO_REG_OFFSET,
    SERVO_REG_BASE + 5 * SERVO_REG_OFFSET,
    SERVO_REG_BASE + 6 * SERVO_REG_OFFSET,
    SERVO_REG_BASE + 7 * SERVO_REG_OFFSET,
    SERVO_REG_BASE + 8 * SERVO_REG_OFFSET,
    SERVO_REG_BASE + 9 * SERVO_REG_OFFSET,
    SERVO_REG_BASE + 10 * SERVO_REG_OFFSET,
    SERVO_REG_BASE + 11 * SERVO_REG_OFFSET,
    SERVO_REG_BASE + 12 * SERVO_REG_OFFSET,
    SERVO_REG_BASE + 13 * SERVO_REG_OFFSET,
    SERVO_REG_BASE + 14 * SERVO_REG_OFFSET,
    SERVO_REG_BASE + 15 * SERVO_REG_OFFSET
  ]

  /** A value of the `Servos` enumeration. */
  type Servos = r: int | r in SERVOS witness SERVO_REG_BASE

  // The PCA9685 register summary: channel n (0..15) owns four consecutive registers
  // starting at 0x06, ON low/high then OFF low/high; these are its OFF pair.
  function LedOffL(n: int): int { 0x06 + 4 * n + 2 }
  function LedOffH(n: int): int { 0x06 + 4 * n + 3 }

  /** The oscillator divider as the PCA9685 datasheet computes it: round to nearest, then
      subtract one. */
  function DatasheetPreScale(clock: real, freq: real): (p: int)
    requires freq > 0.0
    ensures p as real - 0.5 <= clock / (4096.0 * freq) - 1.0 < p as real + 0.5
  {
    (clock / (4096.0 * freq) + 0.5).Floor - 1
  }

  /** The driver's prescale is 121 (0x79), fits in a byte, and agrees with the datasheet's
      rounding formula for a 25 MHz clock at 50 Hz. */
  lemma PreScaleValue()
    ensures PRE_SCALE == 121 == 0x79
    ensures PRE_SCALE == DatasheetPreScale(CHIP_CLOCK, UPDATE_FREQ)
    ensures 0 <= PRE_SCALE < 256
  {
    assert CHIP_CLOCK / (CHIP_COUNTER * UPDATE_FREQ) == 122.0703125;
  }

  /** The frame is 20000 microseconds long. */
  lemma UpdateTimeValue()
    ensures UPDATE_TIME == 20000.0
  {
  }

  /** Entry N-1 of the enumeration is 0x08 + 4 * (N-1), which is the channel's LEDn_OFF_L
      register, and the next address is its LEDn_OFF_H. */
  lemma ServoRegisterFormula(n: int)
    requires 0 <= n < 16
    ensures |SERVOS| == 16
    ensures SERVOS[n] == 0x08 + 4 * n == LedOffL(n)
    ensures SERVOS[n] + 1 == LedOffH(n)
  {
  }

  /** A number is a `Servos` value exactly when it is a multiple of four in 0x08..0x44. */
  lemma ServosCharacterised(r: int)
    ensures r in SERVOS <==> 0x08 <= r <= 0x44 && r % 4 == 0
  {
    if 0x08 <= r <= 0x44 && r % 4 == 0 {
      ServoRegisterFormula((r - 0x08) / 4);
    }
    if r in SERVOS {
      var n :| 0 <= n < |SERVOS| && SERVOS[n] == r;
      ServoRegisterFormula(n);
    }
  }

  /** The sixteen four-register blocks [r, r+3] are pairwise disjoint and in ascending
      order. */
  lemma ServoBlocksDisjoint(i: int, j: int)
    requires 0 <= i < j < 16
    ensures SERVOS[i] + 3 < SERVOS[j]
  {
    ServoRegisterFormula(i);
    ServoRegisterFormula(j);
  }

  /** Both registers a servo write touches (r and r+1) are bytes below every global
      register: they are never MODE1, an ALL_LED register or PRE_SCALE. */
  lemma ServoRegistersAreChannelRegisters(s: Servos)
    ensures 0x08 <= s && s + 3 <= 0x47 < ALL_LED_ON_L_REG
    ensures s != MODE1_REG && s + 1 != MODE1_REG
    ensures s + 1 < 256
  {
    ServosCharacterised(s);
  }
}
