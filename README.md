# Kitronik I2C 16-servo driver, modelled in Dafny

The driver commands the hobby servos on the Kitronik 16-servo board. The board's PWM chip is an
NXP PCA9685 at I2C address 0x6A. The driver has three parts, and each one is modelled here:

- **Register map and constants** (`pca9685.dfy`, module `Pca9685`): the chip's registers, the
  50 Hz / 4096-tick / 25 MHz timing constants, the prescale value and the `Servos` enumeration.
  `Servos` is kept as the literal table of its sixteen values, and a subset type admits exactly
  those values. It is checked against the PCA9685 register summary, restated independently as
  `LedOffL` and `LedOffH`: ServoN is the register LEDn_OFF_L of channel n = N-1, and the register
  after it is LEDn_OFF_H.
- **Angle to off-count converter** (`angle_conversion.dfy`, module `AngleConversion`).
  `servoAngleToOffCount` calls `pins.map` twice: angle 0..180 maps to a pulse of
  700..2300 µs, and the pulse maps to a tick of the 4096-tick, 20000 µs frame. The tick
  then goes through JavaScript's ToInt32 and is split as `& 0x00ff` and `(& 0xff00) >> 8`.
  The model uses exact rationals (`real`), as `pins.map` does no rounding. ToInt32 truncates
  toward zero and wraps to 32 bits. On a two's-complement value, the two masks are
  `mod 256` and `(mod 65536) / 256`.
- **Controller** (`servo_driver.dfy`, module `ServoDriver`). The class `Controller` holds
  the `initialised` flag, a log of every `i2cWrite` in order, and a 256-entry array with the
  last value written to each register address. Its methods `I2cWrite`, `Initialise` and
  `ServoWrite` do the writes one at a time. `I2cWrite`'s ensures give the appended write
  directly; `Initialise` and `ServoWrite` are proved to agree with the pure state
  transitions `AfterInitialise` and `AfterServoWrite`. Lemmas about those transitions, and about
  `Run` (a session of calls), state the ordering and the once-only start-up.

Facts about the code that the model keeps:

- Start-up writes PRE_SCALE, the four all-channel registers, then MODE1 = 0x01. There is no
  soft reset (the comment at I2CServo.ts:75 only plans one) and no delay.
- At 180 degrees the off-count is 471 (2300 * 4096 / 20000 = 471.04).
- The comment beside `UPDATE_TIME` says 200000 µs. The value is 1e6 / 50 = 20000
  (`Pca9685.UpdateTimeValue`).

## Model

| member | source | states |
|---|---|---|
| `Pca9685.DatasheetPreScale` | I2CServo.ts:19-23 | the PCA9685 datasheet's divider: the oscillator ratio minus one, rounded to the nearest integer |
| `Pca9685.PreScaleValue` | I2CServo.ts:19-23 | PRE_SCALE = floor(25e6 / (4096 * 50) - 1) is 121 (0x79), fits in a byte and equals the datasheet's rounding formula |
| `Pca9685.UpdateTimeValue` | I2CServo.ts:19-20 | the frame period 1e6 / 50 is 20000 µs |
| `Pca9685.ServoRegisterFormula` | I2CServo.ts:33-54 | ServoN is 0x08 + 4 * (N-1), which is the datasheet's LEDn_OFF_L for channel N-1, and ServoN + 1 is its LEDn_OFF_H |
| `Pca9685.ServosCharacterised` | I2CServo.ts:33-54 | a number is a `Servos` value exactly when it is a multiple of 4 in 0x08..0x44 (both directions) |
| `Pca9685.ServoBlocksDisjoint` | I2CServo.ts:33-54 | the sixteen four-register blocks [r, r+3] are in ascending order and never overlap |
| `Pca9685.ServoRegistersAreChannelRegisters` | I2CServo.ts:8-54 | the registers a servo write uses (r, r+1) are bytes below ALL_LED_ON_L and differ from MODE1 |
| `AngleConversion.Map` | I2CServo.ts:57-64 | `pins.map` sends the source range's endpoints to the target range's endpoints |
| `AngleConversion.MapMonotone` | I2CServo.ts:57-64 | `pins.map` on increasing ranges preserves order |
| `AngleConversion.Trunc` | I2CServo.ts:66 | truncation toward zero: within one unit of the number, on the same side of zero |
| `AngleConversion.ToInt32` | I2CServo.ts:66 | the operand of `&` is a signed 32-bit integer congruent to the truncated number modulo 2^32 |
| `AngleConversion.LowByte` | I2CServo.ts:66 | `& 0x00ff` gives a byte congruent to the value modulo 256 |
| `AngleConversion.HighByte` | I2CServo.ts:66 | `(& 0xff00) >> 8` gives a byte that is bits 8..15 of the value |
| `AngleConversion.ServoAngleToOffCount` | I2CServo.ts:56-67 | for every angle, low + 256 * high is the off-count modulo 2^16; out-of-range angles are not clamped |
| `AngleConversion.ByteSplitModulo` | I2CServo.ts:66 | for any integer, the two bytes recombine to the integer modulo 2^16 |
| `AngleConversion.ByteSplitRoundTrip` | I2CServo.ts:66 | a count in 0..65535, split into bytes and joined again, is unchanged |
| `AngleConversion.ByteJoinRoundTrip` | I2CServo.ts:66 | two bytes, joined and split again, are unchanged |
| `AngleConversion.PulseWidth` | I2CServo.ts:57-63 | the pulse is 700 µs at 0 degrees and 2300 µs at 180, and stays in 700..2300 for angles in between |
| `AngleConversion.OffTicks` | I2CServo.ts:64 | the source's untruncated `offCount`: the two interpolations give (126000 + 1600 * angle) * 4096 / 3600000 ticks |
| `AngleConversion.OffCount` | I2CServo.ts:66 | the integer `&` operates on: `offCount` truncated toward zero, within one unit of it on the same side of zero |
| `AngleConversion.OffCountOfWholeAngle` | I2CServo.ts:56-66 | for a whole non-negative angle a, the off-count is the floor division (126000 + 1600a) * 4096 / 3600000 |
| `AngleConversion.OffCountAtLandmarks` | I2CServo.ts:56-66 | 0 degrees gives 143, 90 degrees gives 307 (0x133), 180 degrees gives 471 |
| `AngleConversion.OffCountMonotone` | I2CServo.ts:56-66 | the off-count never decreases as the angle increases |
| `AngleConversion.OffCountInRange` | I2CServo.ts:56-66 | for angles in 0..180 the off-count lies in 143..471 |
| `AngleConversion.ConverterBytesInRange` | I2CServo.ts:56-66 | for angles in 0..180 the high byte is 0 or 1 and the bytes encode the off-count without wrap-around |
| `AngleConversion.CentreBytes` | I2CServo.ts:85 | the centre value written at start-up (angle 180 / 2) has low byte 0x33 and high byte 0x01 |
| `AngleConversion.TickRemainderNonZero` | I2CServo.ts:57-64 | for whole angles in 0..180 the tick count is never a whole number |
| `AngleConversion.OffTicksAwayFromIntegers` | I2CServo.ts:57-66 | for whole angles in 0..180 the exact tick count is at least 1/1125 tick away from every integer, so small rounding errors cannot change the truncated count |
| `ServoDriver.AfterServoWrite` | I2CServo.ts:106-114 | after `servoWrite` the flag is set, the old log is an unchanged prefix, and 2 writes are added (8 when the driver was not initialised) |
| `ServoDriver.InitSequence` | I2CServo.ts:78-90 | start-up writes exactly (0xFE, 121), (0xFA, 0), (0xFB, 0), (0xFC, 0x33), (0xFD, 0x01), (0x00, 0x01), in that order |
| `ServoDriver.AfterInitialise` | I2CServo.ts:74-94 | `initalise` sets the flag and appends those six writes after the existing log, which it leaves unchanged |
| `ServoDriver.InitSequenceWritesEachGlobalOnce` | I2CServo.ts:78-90 | start-up writes each of MODE1, PRE_SCALE and the all-channel registers once, and no other register |
| `ServoDriver.ServoWrites` | I2CServo.ts:111-113 | a servo write goes to register servo, then servo + 1, and its two bytes encode the off-count modulo 2^16 |
| `ServoDriver.ServoWritesAvoidGlobals` | I2CServo.ts:112-113 | a servo write never writes MODE1, PRE_SCALE or an all-channel register |
| `ServoDriver.FirstServoWrite` | I2CServo.ts:106-114 | on a fresh driver the first call writes the six start-up bytes, then the servo's two bytes, and sets the flag |
| `ServoDriver.LaterServoWrite` | I2CServo.ts:107-113 | once initialised, a call adds exactly its two writes |
| `ServoDriver.RunLog` | I2CServo.ts:31-114 | in any session of calls, the start-up sequence comes at most once, before every servo write, and only if the driver was uninitialised and at least one call is made; once the flag is set it stays set |
| `ServoDriver.FlattenAvoidsGlobals` | I2CServo.ts:106-114 | no servo write in any session touches a global register |
| `ServoDriver.InitialisesOnce` | I2CServo.ts:74-114 | a session from power-on with at least one call writes PRE_SCALE, MODE1 and each all-channel register exactly once; with no calls it writes none of them |
| `ServoDriver.LastWrittenAppend` | I2CServo.ts:69-72 | one write changes the last known value of its own register only |
| `ServoDriver.ServoWriteTouchesOnlyItsRegisters` | I2CServo.ts:111-113 | after a servo write, registers servo and servo + 1 hold its two bytes and every other register keeps its last value |
| `ServoDriver.Controller.constructor` | I2CServo.ts:31 | a new controller is uninitialised, has an empty log and knows no register value |
| `ServoDriver.Controller.I2cWrite` | I2CServo.ts:69-72 | one write is added to the log; that register now holds the value and no other register changes |
| `ServoDriver.Controller.Initialise` | I2CServo.ts:74-94 | the start-up sequence is added to the log and the flag is set |
| `ServoDriver.Controller.ServoWrite` | I2CServo.ts:106-114 | the new state is `AfterServoWrite` of the old one; the servo's two registers hold the new bytes; once initialised, no other register changes |
| `ServoDriver.FreshControllerTrace` | I2CServo.ts:74-114 | Servo1 to 0 degrees, then Servo2 to 90 degrees, on a new controller writes the six start-up bytes, then (0x08, 143), (0x09, 0), (0x0C, 0x33), (0x0D, 0x01) |

## Left out

- The I2C transport `pins.i2cWriteNumber`: the chip address 0x6A, the UInt8LE number format and the repeated-start flag. Each `i2cWrite` is one (register, value) event, and every value written is a byte.
- `pins.map` is defined in the MakeCode runtime, whose source is not in this repository. `AngleConversion.Map` uses its documented formula and requires the source range to be non-empty. The driver only calls it with the constant ranges 0..180 and 0..20000.
- IEEE-754 doubles: angles are exact rationals, so NaN, infinities and rounding are not modelled. For whole angles in 0..180, `AngleConversion.OffTicksAwayFromIntegers` proves the exact tick is at least 1/1125 away from every integer. The double-precision error of the two interpolations is far smaller, roughly 1e-13 ticks, but that bound is argued here and not proved. Together the two facts say rounding cannot change the off-count for those angles.
- ServoDriver.Controller.ServoWrite: accepts only values of the `Servos` enumeration. In TypeScript any other number would be passed to the chip unchecked; the model does not cover those numbers.
- The chip's behaviour: the register array records the last byte written to each address. The model does not cover the all-channel registers driving every channel, when PRE_SCALE is latched, or the timing of the PWM outputs. The driver never reads registers back.
- Concurrency around the `initialised` flag. The target runs a single thread.
- The MakeCode block annotations and the namespace/export glue.
