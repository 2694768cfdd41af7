/**
 * The command/status byte of the serial protocol (communication.h): eight
 * single-bit flags in one byte, with decode (`STATUS_DE_*`), clear (`RESET_*`)
 * and set (`SET_*`) operations. The macros update the caller's byte in place;
 * here each one is a function from the old byte to the new one.
 */
module Communication {

  datatype Flag =
    | Validity
    | DataRequest
    | StartPlatformMotor
    | StopPlatformMotor
    | IncreaseFirstMotorSpeed
    | DecreaseFirstMotorSpeed
    | IncreaseSecondMotorSpeed
    | DecreaseSecondMotorSpeed

  const AllFlags: set<Flag> := {
    Validity, DataRequest, StartPlatformMotor, StopPlatformMotor,
    IncreaseFirstMotorSpeed, DecreaseFirstMotorSpeed,
    IncreaseSecondMotorSpeed, DecreaseSecondMotorSpeed
  }

  /** The bit position of each flag. */
  function Position(f: Flag): (p: bv8)
    ensures p < 8
  {
    match f
    case Validity => 0
    case DataRequest => 1
    case StartPlatformMotor => 2
    case StopPlatformMotor => 3
    case IncreaseFirstMotorSpeed => 4
    case DecreaseFirstMotorSpeed => 5
    case IncreaseSecondMotorSpeed => 6
    case DecreaseSecondMotorSpeed => 7
  }

  /** The eight flags occupy eight distinct positions, validity at 0 and data request at 1. */
  lemma PositionsDistinct(f: Flag, g: Flag)
    ensures Position(f) == Position(g) ==> f == g
    ensures Position(Validity) == 0 && Position(DataRequest) == 1
  {
  }

  function Mask(f: Flag): bv8
  {
    1 << Position(f)
  }

  /** `STATUS_DE_x(b)`: bit x of `b`, shifted down to 0 or 1. */
  function Status(b: bv8, f: Flag): (r: bv8)
    ensures r == 0 || r == 1
    ensures r == 1 <==> (b >> Position(f)) & 1 == 1
  {
    (b & Mask(f)) >> Position(f)
  }

  /** `RESET_x(b)`: `b &= ~(1 << x)`. */
  function Reset(b: bv8, f: Flag): (r: bv8)
    ensures Status(r, f) == 0
    ensures forall g :: g != f ==> Status(r, g) == Status(b, g)
  {
    b & !Mask(f)
  }

  /** `b |= (1 << x)`, the first statement of every `SET_x` macro. */
  function Raise(b: bv8, f: Flag): (r: bv8)
    ensures Status(r, f) == 1
    ensures forall g :: g != f ==> Status(r, g) == Status(b, g)
  {
    b | Mask(f)
  }

  /**
   * `SET_x(b)` as the header writes it. Only the start macro clears a
   * counterpart bit (stop). The stop macro names the function-like macro
   * `RESET_START_PLATFORM_MOTOR_BIT` without `(`, which the preprocessor does
   * not expand, so a use of the stop macro would not compile; no file of the
   * firmware uses it. Here that statement is read as doing nothing, so the
   * start bit is left as it was. `SET_DATA_RQ_BIT` is the one setter that
   * leaves validity alone.
   */
  function SetAsWritten(b: bv8, f: Flag): (r: bv8)
    ensures Status(r, f) == 1
    ensures f != DataRequest ==> Status(r, Validity) == 1
  {
    match f
    case Validity => Raise(b, Validity)
    case DataRequest => Raise(b, DataRequest)
    case StartPlatformMotor =>
      Raise(Reset(Raise(b, StartPlatformMotor), StopPlatformMotor), Validity)
    case StopPlatformMotor => Raise(Raise(b, StopPlatformMotor), Validity)
    case _ => Raise(Raise(b, f), Validity)
  }

  /** Reading the bare macro name as doing nothing, `SET_START` and then `SET_STOP` leave both start and stop set. */
  lemma StopAsWrittenKeepsStart()
    ensures var b := SetAsWritten(SetAsWritten(0x00, StartPlatformMotor), StopPlatformMotor);
            b == 0x0D && Status(b, StartPlatformMotor) == 1 && Status(b, StopPlatformMotor) == 1
  {
  }

  /** The stop setter as written raises stop and validity and keeps every other bit, start included. */
  lemma StopAsWrittenEffect(b: bv8)
    ensures var r := SetAsWritten(b, StopPlatformMotor);
            Status(r, StopPlatformMotor) == 1 && Status(r, Validity) == 1 &&
            forall g :: g != StopPlatformMotor && g != Validity ==> Status(r, g) == Status(b, g)
  {
  }

  /**
   * `SET_x(b)` with the stop macro as evidently intended (clearing start, the
   * mirror image of the start macro). The other macros are as written.
   */
  function Set(b: bv8, f: Flag): (r: bv8)
    ensures Status(r, f) == 1
    ensures f != DataRequest ==> Status(r, Validity) == 1
    ensures f == StopPlatformMotor ==> Status(r, StartPlatformMotor) == 0
    ensures f == StartPlatformMotor ==> Status(r, StopPlatformMotor) == 0
  {
    match f
    case StopPlatformMotor =>
      Raise(Reset(Raise(b, StopPlatformMotor), StartPlatformMotor), Validity)
    case _ => SetAsWritten(b, f)
  }

  /** The counterpart that a setter clears: only start and stop have one. */
  function Counterpart(f: Flag): set<Flag>
  {
    match f
    case StartPlatformMotor => {StopPlatformMotor}
    case StopPlatformMotor => {StartPlatformMotor}
    case _ => {}
  }

  /** The flags a setter raises: its own and, except for data request, validity. */
  function Raised(f: Flag): set<Flag>
  {
    if f == DataRequest then {DataRequest} else {f, Validity}
  }

  /**
   * Effect of `Set` on every flag: the raised flags read 1, the counterpart
   * reads 0, and the other bits keep their value.
   */
  lemma SetEffect(b: bv8, f: Flag)
    ensures forall g :: g in Raised(f) ==> Status(Set(b, f), g) == 1
    ensures forall g :: g in Counterpart(f) ==> Status(Set(b, f), g) == 0
    ensures forall g :: g !in Raised(f) && g !in Counterpart(f) ==>
              Status(Set(b, f), g) == Status(b, g)
  {
    match f
    case Validity =>
    case DataRequest =>
    case StartPlatformMotor =>
    case StopPlatformMotor =>
    case IncreaseFirstMotorSpeed =>
    case DecreaseFirstMotorSpeed =>
    case IncreaseSecondMotorSpeed =>
    case DecreaseSecondMotorSpeed =>
  }

  /** Start and stop exclude each other after either setter, in both orders. */
  lemma StartStopExclusive(b: bv8)
    ensures Status(Set(Set(b, StartPlatformMotor), StopPlatformMotor), StartPlatformMotor) == 0
    ensures Status(Set(Set(b, StartPlatformMotor), StopPlatformMotor), StopPlatformMotor) == 1
    ensures Status(Set(Set(b, StopPlatformMotor), StartPlatformMotor), StopPlatformMotor) == 0
    ensures Status(Set(Set(b, StopPlatformMotor), StartPlatformMotor), StartPlatformMotor) == 1
  {
  }

  /** Every setter is idempotent. */
  lemma SetIdempotent(b: bv8, f: Flag)
    ensures Set(Set(b, f), f) == Set(b, f)
    ensures SetAsWritten(SetAsWritten(b, f), f) == SetAsWritten(b, f)
  {
    match f
    case Validity =>
    case DataRequest =>
    case StartPlatformMotor =>
    case StopPlatformMotor =>
    case IncreaseFirstMotorSpeed =>
    case DecreaseFirstMotorSpeed =>
    case IncreaseSecondMotorSpeed =>
    case DecreaseSecondMotorSpeed =>
  }

  /** The speed setters do not clear the opposite speed bit: increase and decrease can both read 1. */
  lemma SpeedBitsNotExclusive()
    ensures var b := Set(Set(0x00, IncreaseFirstMotorSpeed), DecreaseFirstMotorSpeed);
            Status(b, IncreaseFirstMotorSpeed) == 1 && Status(b, DecreaseFirstMotorSpeed) == 1
    ensures var b := Set(Set(0x00, IncreaseSecondMotorSpeed), DecreaseSecondMotorSpeed);
            Status(b, IncreaseSecondMotorSpeed) == 1 && Status(b, DecreaseSecondMotorSpeed) == 1
  {
  }

  /** The set of flags a byte carries. */
  function Decode(b: bv8): (fs: set<Flag>)
    ensures forall f :: f in fs <==> Status(b, f) == 1
  {
    set f | f in AllFlags && Status(b, f) == 1
  }

  /** A byte is determined by its eight flags. */
  lemma {:induction false} DecodeInjective(a: bv8, b: bv8)
    requires Decode(a) == Decode(b)
    ensures a == b
  {
    assert forall f :: Status(a, f) == Status(b, f) by {
      forall f ensures Status(a, f) == Status(b, f) {
        assert f in Decode(a) <==> f in Decode(b);
      }
    }
    assert Status(a, Validity) == Status(b, Validity);
    assert Status(a, DataRequest) == Status(b, DataRequest);
    assert Status(a, StartPlatformMotor) == Status(b, StartPlatformMotor);
    assert Status(a, StopPlatformMotor) == Status(b, StopPlatformMotor);
    assert Status(a, IncreaseFirstMotorSpeed) == Status(b, IncreaseFirstMotorSpeed);
    assert Status(a, DecreaseFirstMotorSpeed) == Status(b, DecreaseFirstMotorSpeed);
    assert Status(a, IncreaseSecondMotorSpeed) == Status(b, IncreaseSecondMotorSpeed);
    assert Status(a, DecreaseSecondMotorSpeed) == Status(b, DecreaseSecondMotorSpeed);
  }

  /**
   * Round trip through the codec: decoding after a setter yields the flags
   * that were there, minus the cleared counterpart, plus the raised flags.
   */
  lemma {:induction false} DecodeAfterSet(b: bv8, f: Flag)
    ensures Decode(Set(b, f)) == Decode(b) - Counterpart(f) + Raised(f)
  {
    SetEffect(b, f);
  }

  /** `RESET_VALIDITY_BIT` consumes a command: the byte reads as stale, the other flags stay. */
  lemma {:induction false} ConsumeClearsOnlyValidity(b: bv8)
    ensures Decode(Reset(b, Validity)) == Decode(b) - {Validity}
  {
  }
}
