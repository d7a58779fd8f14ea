/** The board's controller: a module-level "initialised" flag that gates a fixed start-up
    sequence of register writes, and `servoWrite`, which writes one servo's off-count as a
    low byte then a high byte. Each `i2cWrite` (a register address followed by a value,
    both sent to the chip at address 0x6A) is one event in a write log. The pure functions
    below say what each operation appends to the log; the class Controller performs the
    writes step by step and is proved to agree with them. */
module ServoDriver {
  import opened Pca9685
  import opened AngleConversion

  datatype Option<T> = None | Some(value: T)

  /** One `i2cWrite(register, value)`. */
  datatype RegisterWrite = RegisterWrite(register: Byte, value: Byte)

  /** What the driver has done so far: the flag and every write, oldest first. */
  datatype DriverState = DriverState(initialised: bool, log: seq<RegisterWrite>)

  /** One call `servoWrite(servo, angle)`. */
  datatype ServoCall = ServoCall(servo: Servos, angle: real)

  /** The driver before its first call. */
  const FRESH: DriverState := DriverState(false, [])

  /** The writes of `initalise`, in order: prescale, all-channel ON time 0, all-channel OFF
      time at the 90 degree centre, then MODE1 = 0x01 to leave sleep. Byte for byte they
      are (0xFE, 121), (0xFA, 0), (0xFB, 0), (0xFC, 0x33), (0xFD, 0x01), (0x00, 0x01). */
  function InitSequence(): (ws: seq<RegisterWrite>)
    ensures ws == [ RegisterWrite(0xFE, 121), RegisterWrite(0xFA, 0x00),
                    RegisterWrite(0xFB, 0x00), RegisterWrite(0xFC, 0x33),
                    RegisterWrite(0xFD, 0x01), RegisterWrite(0x00, 0x01) ]
  {
    PreScaleValue();
    CentreBytes();
    var (centreLow, centreHigh) := ServoAngleToOffCount(SERVO_ANGLE_RANGE / 2.0);
    [ RegisterWrite(PRE_SCALE_REG, PRE_SCALE),
      RegisterWrite(ALL_LED_ON_L_REG, 0x00),
      RegisterWrite(ALL_LED_ON_H_REG, 0x00),
      RegisterWrite(ALL_LED_OFF_L_REG, centreLow),
      RegisterWrite(ALL_LED_OFF_H_REG, centreHigh),
      RegisterWrite(MODE1_REG, 0x01) ]
  }

  /** The two writes `servoWrite` always ends with: the low byte to the servo's register
      (its LEDn_OFF_L), then the high byte to the register after it (LEDn_OFF_H). The two
      bytes encode the off-count modulo 2^16. */
  function ServoWrites(servo: Servos, angle: real): (ws: seq<RegisterWrite>)
    ensures |ws| == 2
    ensures ws[0].register == servo && ws[1].register == servo + 1
    ensures ws[0].value + 0x100 * ws[1].value == OffCount(angle) % 0x10000
  {
    ServoRegistersAreChannelRegisters(servo);
    var (offLow, offHigh) := ServoAngleToOffCount(angle);
    [RegisterWrite(servo, offLow), RegisterWrite(servo + 1, offHigh)]
  }

  /** `initalise` as a state transition: the flag is set and the six start-up writes are
      appended to the log, after everything already in it. */
  function AfterInitialise(st: DriverState): (r: DriverState)
    ensures r.initialised
    ensures r.log == st.log + [ RegisterWrite(0xFE, 121), RegisterWrite(0xFA, 0x00),
                                RegisterWrite(0xFB, 0x00), RegisterWrite(0xFC, 0x33),
                                RegisterWrite(0xFD, 0x01), RegisterWrite(0x00, 0x01) ]
  {
    DriverState(true, st.log + InitSequence())
  }

  /** `servoWrite(servo, angle)` as a state transition: initialise first if the flag is
      clear, then write the servo's two bytes. Afterwards the flag is set and the old log
      is kept as a prefix. */
  function AfterServoWrite(st: DriverState, servo: Servos, angle: real): (r: DriverState)
    ensures r.initialised
    ensures |r.log| == |st.log| + (if st.initialised then 2 else 8)
    ensures r.log[..|st.log|] == st.log
  {
    var ready := if st.initialised then st else AfterInitialise(st);
    DriverState(ready.initialised, ready.log + ServoWrites(servo, angle))
  }

  /** A sequence of `servoWrite` calls, one after another. */
  function Run(st: DriverState, calls: seq<ServoCall>): DriverState
    decreases |calls|
  {
    if calls == [] then st
    else Run(AfterServoWrite(st, calls[0].servo, calls[0].angle), calls[1..])
  }

  /** The servo writes of a sequence of calls, without any start-up writes. */
  function Flatten(calls: seq<ServoCall>): seq<RegisterWrite>
    decreases |calls|
  {
    if calls == [] then []
    else ServoWrites(calls[0].servo, calls[0].angle) + Flatten(calls[1..])
  }

  /** How many writes in `ws` go to register `reg`. */
  function CountWrites(ws: seq<RegisterWrite>, reg: int): nat
    decreases |ws|
  {
    if ws == [] then 0
    else (if ws[0].register == reg then 1 else 0) + CountWrites(ws[1..], reg)
  }

  /** The value most recently written to register `reg`, if any. */
  function LastWritten(ws: seq<RegisterWrite>, reg: int): Option<Byte>
    decreases |ws|
  {
    if ws == [] then None
    else if ws[|ws| - 1].register == reg then Some(ws[|ws| - 1].value)
    else LastWritten(ws[..|ws| - 1], reg)
  }

  /** The registers a start-up sequence writes to: MODE1, PRE_SCALE and the four
      all-channel registers. */
  predicate IsGlobalRegister(reg: int)
  {
    reg == MODE1_REG || ALL_LED_ON_L_REG <= reg <= PRE_SCALE_REG
  }

  /** The start-up sequence writes each global register exactly once and nothing else. */
  lemma InitSequenceWritesEachGlobalOnce(reg: int)
    ensures CountWrites(InitSequence(), reg) == if IsGlobalRegister(reg) then 1 else 0
  {
    var ws := InitSequence();
    assert ws[1..][1..][1..][1..][1..][1..] == [];
  }

  /** A servo write never touches a global register. */
  lemma ServoWritesAvoidGlobals(servo: Servos, angle: real, reg: int)
    requires IsGlobalRegister(reg)
    ensures CountWrites(ServoWrites(servo, angle), reg) == 0
  {
    ServoRegistersAreChannelRegisters(servo);
    var ws := ServoWrites(servo, angle);
    assert ws[1..][1..] == [];
    assert CountWrites(ws[1..], reg) == 0;
  }

  /** On a fresh driver, the first `servoWrite(servo, angle)` writes the six start-up bytes
      and then the servo's two bytes, and sets the flag. */
  lemma FirstServoWrite(servo: Servos, angle: real)
    ensures AfterServoWrite(FRESH, servo, angle)
            == DriverState(true, [ RegisterWrite(0xFE, 121), RegisterWrite(0xFA, 0x00),
                                   RegisterWrite(0xFB, 0x00), RegisterWrite(0xFC, 0x33),
                                   RegisterWrite(0xFD, 0x01), RegisterWrite(0x00, 0x01) ]
                                 + ServoWrites(servo, angle))
  {
  }

  /** Once initialised, a `servoWrite` appends exactly its two writes. */
  lemma LaterServoWrite(st: DriverState, servo: Servos, angle: real)
    requires st.initialised
    ensures AfterServoWrite(st, servo, angle)
            == DriverState(true, st.log + ServoWrites(servo, angle))
  {
  }

  /** A whole session: the start-up sequence is written at most once, before every servo
      write, and only when the driver was not yet initialised and at least one call is
      made; the flag, once set, stays set. */
  lemma {:induction false} RunLog(st: DriverState, calls: seq<ServoCall>)
    ensures Run(st, calls).initialised == (st.initialised || calls != [])
    ensures Run(st, calls).log
            == st.log + (if st.initialised || calls == [] then [] else InitSequence())
               + Flatten(calls)
    decreases |calls|
  {
    if calls != [] {
      var next := AfterServoWrite(st, calls[0].servo, calls[0].angle);
      RunLog(next, calls[1..]);
      assert next.log == st.log + (if st.initialised then [] else InitSequence())
                         + ServoWrites(calls[0].servo, calls[0].angle);
    }
  }

  lemma {:induction false} CountWritesAppend(a: seq<RegisterWrite>, b: seq<RegisterWrite>, reg: int)
    ensures CountWrites(a + b, reg) == CountWrites(a, reg) + CountWrites(b, reg)
    decreases |a|
  {
    if a != [] {
      assert (a + b)[1..] == a[1..] + b;
      CountWritesAppend(a[1..], b, reg);
    } else {
      assert a + b == b;
    }
  }

  /** No servo write of any session touches a global register. */
  lemma {:induction false} FlattenAvoidsGlobals(calls: seq<ServoCall>, reg: int)
    requires IsGlobalRegister(reg)
    ensures CountWrites(Flatten(calls), reg) == 0
    decreases |calls|
  {
    if calls != [] {
      ServoWritesAvoidGlobals(calls[0].servo, calls[0].angle, reg);
      FlattenAvoidsGlobals(calls[1..], reg);
      CountWritesAppend(ServoWrites(calls[0].servo, calls[0].angle), Flatten(calls[1..]), reg);
    }
  }

  /** Initialisation happens once: however many servos a session from power-on writes,
      PRE_SCALE, MODE1 and each all-channel register are written exactly once (and not at
      all in an empty session). */
  lemma InitialisesOnce(calls: seq<ServoCall>, reg: int)
    requires IsGlobalRegister(reg)
    ensures CountWrites(Run(FRESH, calls).log, reg) == if calls == [] then 0 else 1
  {
    RunLog(FRESH, calls);
    FlattenAvoidsGlobals(calls, reg);
    if calls != [] {
      InitSequenceWritesEachGlobalOnce(reg);
      assert Run(FRESH, calls).log == InitSequence() + Flatten(calls);
      CountWritesAppend(InitSequence(), Flatten(calls), reg);
    }
  }

  /** Appending one write changes what is known of its register only. */
  lemma LastWrittenAppend(ws: seq<RegisterWrite>, w: RegisterWrite, reg: int)
    ensures LastWritten(ws + [w], reg)
            == if w.register == reg then Some(w.value) else LastWritten(ws, reg)
  {
    assert (ws + [w])[..|ws|] == ws;
  }

  /** A servo write changes the last value of registers servo and
      servo + 1 to its two bytes, and of no other register. */
  lemma ServoWriteTouchesOnlyItsRegisters(ws: seq<RegisterWrite>, servo: Servos, angle: real, reg: int)
    ensures LastWritten(ws + ServoWrites(servo, angle), reg)
            == if reg == servo then Some(ServoAngleToOffCount(angle).0)
               else if reg == servo + 1 then Some(ServoAngleToOffCount(angle).1)
               else LastWritten(ws, reg)
  {
    var sw := ServoWrites(servo, angle);
    assert ws + sw == (ws + [sw[0]]) + [sw[1]];
    LastWrittenAppend(ws + [sw[0]], sw[1], reg);
    LastWrittenAppend(ws, sw[0], reg);
  }

  /** The driver object. `registers` holds, for each of the 256 register addresses, the last
      value written to it (the chip's own behaviour, such as the all-channel registers
      fanning out to every channel, is not modelled). */
  class Controller {
    var initialised: bool
    var log: seq<RegisterWrite>
    const registers: array<Option<Byte>>

    ghost predicate Valid()
      reads this, registers
    {
      registers.Length == 256 &&
      forall r | 0 <= r < 256 :: registers[r] == LastWritten(log, r)
    }

    function State(): DriverState
      reads this
    {
      DriverState(initialised, log)
    }

    constructor ()
      ensures Valid() && State() == FRESH && fresh(registers)
    {
      initialised := false;
      log := [];
      registers := new Option<Byte>[256](_ => None);
    }

    /** `i2cWrite`: one register write. */
    method I2cWrite(register: Byte, value: Byte)
      requires Valid()
      modifies this`log, registers
      ensures Valid()
      ensures log == old(log) + [RegisterWrite(register, value)]
      ensures registers[register] == Some(value)
      ensures forall r | 0 <= r < 256 && r != register :: registers[r] == old(registers[r])
    {
      forall r | 0 <= r < 256
        ensures LastWritten(log + [RegisterWrite(register, value)], r)
                == if r == register then Some(value) else LastWritten(log, r)
      {
        LastWrittenAppend(log, RegisterWrite(register, value), r);
      }
      log := log + [RegisterWrite(register, value)];
      registers[register] := Some(value);
    }

    /** `initalise`: the start-up sequence, then set the flag. */
    method Initialise()
      requires Valid()
      modifies this, registers
      ensures Valid()
      ensures State() == AfterInitialise(old(State()))
    {
      PreScaleValue();
      I2cWrite(PRE_SCALE_REG, PRE_SCALE);
      I2cWrite(ALL_LED_ON_L_REG, 0x00);
      I2cWrite(ALL_LED_ON_H_REG, 0x00);
      var (centreLow, centreHigh) := ServoAngleToOffCount(SERVO_ANGLE_RANGE / 2.0);
      I2cWrite(ALL_LED_OFF_L_REG, centreLow);
      I2cWrite(ALL_LED_OFF_H_REG, centreHigh);
      I2cWrite(MODE1_REG, 0x01);
      initialised := true;
    }

    /** `servoWrite`: initialise if needed, then write the low and high byte of the
      off-count. Once initialised, only the servo's two registers change. */
    method ServoWrite(servo: Servos, angle: real)
      requires Valid()
      modifies this, registers
      ensures Valid()
      ensures State() == AfterServoWrite(old(State()), servo, angle)
      ensures registers[servo] == Some(ServoAngleToOffCount(angle).0)
      ensures registers[servo + 1] == Some(ServoAngleToOffCount(angle).1)
      ensures old(initialised) ==>
                forall r | 0 <= r < 256 && r != servo && r != servo + 1 :: registers[r] == old(registers[r])
    {
      if !initialised {
        Initialise();
      }
      ServoRegistersAreChannelRegisters(servo);
      var (offLow, offHigh) := ServoAngleToOffCount(angle);
      I2cWrite(servo, offLow);
      I2cWrite(servo + 1, offHigh);
    }
  }

  /** Two calls on a new controller, Servo1 to 0 degrees then Servo2 to 90 degrees: the
      chip sees the start-up sequence once, then two writes per call. */
  method FreshControllerTrace() returns (trace: seq<RegisterWrite>)
    ensures trace == [ RegisterWrite(0xFE, 121), RegisterWrite(0xFA, 0x00),
                       RegisterWrite(0xFB, 0x00), RegisterWrite(0xFC, 0x33),
                       RegisterWrite(0xFD, 0x01), RegisterWrite(0x00, 0x01),
                       RegisterWrite(0x08, 143), RegisterWrite(0x09, 0x00),
                       RegisterWrite(0x0C, 0x33), RegisterWrite(0x0D, 0x01) ]
  {
    var c := new Controller();
    c.ServoWrite(SERVOS[0], 0.0);
    c.ServoWrite(SERVOS[1], 90.0);
    OffCountAtLandmarks();
    ConverterBytesInRange(0.0);
    CentreBytes();
    trace := c.log;
  }
}
