/**
 * The application of the firmware (main.cpp): the interrupt handlers that
 * capture the speed sensors, zero the speed on a timer overflow, advance the
 * regulators' tick counters and count the magazine encoders, and one
 * iteration of the `while(1)` loop that reads a command byte from UART3 and
 * a host byte from UART0, runs the `StartFlag` state machine, drives the
 * motors and sends a telemetry line.
 *
 * The motor classes are not part of this model. Their methods are recorded
 * as `Call`s in the order the loop makes them, and the values the loop reads
 * from them (speeds, setpoints, compare values, throw position) are inputs
 * of the iteration. Each handler and each loop iteration is one atomic step.
 */
module Firmware {
  import Pid
  import Uart

  /** `HOMEPOSITION`: the throw motor position in which the magazines may feed. */
  const HomePosition: int := 6

  /** The timer counts of the speed sensors are 16-bit registers. */
  const TimerModulus: int := 0x1_0000

  /** A speed motor as the interrupt handlers see it. */
  class SpeedMotor {
    /** The input-capture timer register (`TCNT`). */
    var tcnt: int
    /** The last captured timer value. */
    var count: int
    /** Raised on a capture, for the loop to consume. */
    var intFlag: bool
    var rpm: int
    const controller: Pid.Controller

    constructor ()
      ensures tcnt == 0 && count == 0 && !intFlag && rpm == 0
      ensures fresh(controller)
    {
      tcnt, count, intFlag, rpm := 0, 0, false, 0;
      controller := new Pid.Controller();
    }

    /** The sensor edge: snapshot the timer, restart it, flag the capture. */
    method Capture()
      modifies this`count, this`tcnt, this`intFlag
      ensures count == old(tcnt) && tcnt == 0 && intFlag
    {
      count := tcnt;
      tcnt := 0;
      intFlag := true;
    }

    /**
     * The timer register counting `ticks` clock periods; it is hardware, not
     * code of the firmware, and is here only so that a capture can be
     * related to the time between two edges.
     */
    method Elapse(ticks: nat)
      requires 0 <= tcnt < TimerModulus
      modifies this`tcnt
      ensures 0 <= tcnt < TimerModulus
      ensures tcnt == (old(tcnt) + ticks) % TimerModulus
    {
      tcnt := (tcnt + ticks) % TimerModulus;
    }
  }

  /** A magazine motor: its encoder and the flag set when a run starts. */
  class Magazine {
    var encoderCount: int
    var encoderUp: bool
    var virginity: bool

    constructor ()
      ensures encoderCount == 0 && !encoderUp && !virginity
    {
      encoderCount, encoderUp, virginity := 0, false, false;
    }

    /** One encoder edge in the direction `up`. */
    method Count(up: bool)
      modifies this`encoderCount, this`encoderUp
      ensures encoderUp == up
      ensures encoderCount == old(encoderCount) + EncoderStep(up)
    {
      if up {
        encoderUp := true;
        encoderCount := encoderCount + 1;
      } else {
        encoderUp := false;
        encoderCount := encoderCount - 1;
      }
    }
  }

  /** The change of an encoder count on one edge. */
  function EncoderStep(up: bool): (d: int)
    ensures d == 1 || d == -1
    ensures d == 1 <==> up
  {
    if up then 1 else -1
  }

  /**
   * The direction of a front encoder edge, given the level of its B
   * channel: up when B reads low.
   */
  function FrontUp(levelB: bool): bool
  {
    !levelB
  }

  /** The direction of a back encoder edge: up when B reads high. */
  function BackUp(levelB: bool): bool
  {
    levelB
  }

  /** The net count of edges whose B levels are `levels`, counted as the front encoder does. */
  function FrontTravel(levels: seq<bool>): (t: int)
    ensures -|levels| <= t <= |levels|
  {
    if levels == [] then 0 else FrontTravel(levels[..|levels| - 1]) + EncoderStep(FrontUp(levels[|levels| - 1]))
  }

  /** The same for the back encoder. */
  function BackTravel(levels: seq<bool>): (t: int)
    ensures -|levels| <= t <= |levels|
  {
    if levels == [] then 0 else BackTravel(levels[..|levels| - 1]) + EncoderStep(BackUp(levels[|levels| - 1]))
  }

  /** The two encoders count the same B-level sequence in opposite senses. */
  lemma {:induction false} TravelsOpposite(levels: seq<bool>)
    ensures FrontTravel(levels) == -BackTravel(levels)
    decreases |levels|
  {
    if levels != [] {
      TravelsOpposite(levels[..|levels| - 1]);
    }
  }

  /** Edges with B alternating low and high cancel out, on either encoder. */
  lemma {:induction false} AlternatingCancels(n: nat)
    ensures var levels := seq(2 * n, i => i % 2 == 1);
            FrontTravel(levels) == 0 && BackTravel(levels) == 0
  {
    if n > 0 {
      var levels := seq(2 * n, i => i % 2 == 1);
      var shorter := seq(2 * (n - 1), i => i % 2 == 1);
      assert levels[..2 * n - 1][..2 * n - 2] == shorter;
      AlternatingCancels(n - 1);
    }
  }

  /** A byte of the loop's `unsigned char` variables, compared with character constants. */
  function Code(c: char): int
  {
    c as int
  }

  /** The motors the loop commands. */
  datatype Motor = Back | Front | Side | Throw | MagazineFront | MagazineBack

  /** A call into a motor object, with its arguments (a `bool` as 0 or 1). */
  datatype Call =
    | Operate(motor: Motor, args: seq<int>)
    | StopMotor(motor: Motor)
    | MoveD(motor: Motor)
    | SetOcrValue(motor: Motor, value: int)

  /** What `uart0_putc` and `uart0_putint` are asked to send. */
  datatype Out = Char(c: char) | Int(v: int)

  /** The values the loop reads from the motor objects in one iteration. */
  datatype Readings = Readings(
    throwPosition: int,
    backRpm: int, backSetpoint: int, backOcr: int,
    frontRpm: int, frontSetpoint: int, frontOcr: int)

  /** The six telemetry values, in the order they are sent. */
  function Values(r: Readings): (vs: seq<int>)
    ensures |vs| == 6
  {
    [r.backRpm, r.backSetpoint, r.backOcr, r.frontRpm, r.frontSetpoint, r.frontOcr]
  }

  const LineLength: int := 15

  /** The part of the line for one motor: its speed, setpoint and compare value, each after a space. */
  function MotorFields(rpm: int, setpoint: int, ocr: int): (fields: seq<Out>)
    ensures |fields| == 6
  {
    [Char(' '), Int(rpm), Char(' '), Int(setpoint), Char(' '), Int(ocr)]
  }

  /** The telemetry line: the tag, six space-separated integers, then "\n\r". */
  function TelemetryLine(tag: char, r: Readings): (line: seq<Out>)
    ensures |line| == LineLength
  {
    [Char(tag)] + MotorFields(r.backRpm, r.backSetpoint, r.backOcr)
    + MotorFields(r.frontRpm, r.frontSetpoint, r.frontOcr) + [Char('\n'), Char('\r')]
  }

  datatype Option<T> = None | Some(value: T)

  /** What a receiver of the telemetry recovers from one line: the tag and the six values. */
  function ParseLine(line: seq<Out>): Option<(char, seq<int>)>
  {
    if |line| == LineLength && line[0].Char? && line[13] == Char('\n') && line[14] == Char('\r')
       && (forall k :: 0 <= k < 6 ==> line[2 * k + 1] == Char(' ') && line[2 * k + 2].Int?)
    then Some((line[0].c, seq(6, k requires 0 <= k < 6 => line[2 * k + 2].v)))
    else None
  }

  /** The telemetry line can be read back: its tag and values come out as they went in. */
  lemma {:induction false} ParseTelemetryLine(tag: char, r: Readings)
    ensures ParseLine(TelemetryLine(tag, r)) == Some((tag, Values(r)))
  {
    var line := TelemetryLine(tag, r);
    assert line == [Char(tag), Char(' '), Int(r.backRpm), Char(' '), Int(r.backSetpoint), Char(' '), Int(r.backOcr),
                    Char(' '), Int(r.frontRpm), Char(' '), Int(r.frontSetpoint), Char(' '), Int(r.frontOcr),
                    Char('\n'), Char('\r')];
    assert forall k :: 0 <= k < 6 ==> line[2 * k + 1] == Char(' ') && line[2 * k + 2] == Int(Values(r)[k]);
    assert seq(6, k requires 0 <= k < 6 => line[2 * k + 2].v) == Values(r);
  }

  /** A line is recognised only with the tag and separators it is sent with. */
  lemma ParseRejectsShortLine(line: seq<Out>)
    requires |line| != LineLength
    ensures ParseLine(line) == None
  {
  }

  /** The command byte of an iteration: the oldest byte waiting on UART3, or 0 if there is none. */
  function Command(pending: seq<bv8>): (b: int)
    ensures 0 <= b < 256
    ensures b == 0 <==> pending == [] || pending[0] == 0
  {
    if pending == [] then 0 else pending[0] as int
  }

  /** `StartFlag` after the command test: `'g'` starts, `'s'` stops, any other byte keeps it. */
  function Commanded(started: bool, command: int): (r: bool)
    ensures r <==> command == Code('g') || (started && command != Code('s'))
  {
    if command == Code('g') then true
    else if command == Code('s') then false
    else started
  }

  /**
   * The host byte of an iteration: read from UART0 only when running and
   * when `uart0_available` reports a byte (`available` is its report).
   */
  function HostByte(running: bool, available: int, pending: seq<bv8>): (b: int)
    ensures 0 <= b < 256
  {
    if running && available != 0 && pending != [] then pending[0] as int else 0
  }

  /** The calls of the command test (main.cpp:178-203). */
  function CommandCalls(command: int, throwPosition: int): (c: seq<Call>)
    ensures |c| <= 2
    ensures c != [] ==> command == Code('s') || (command == Code('g') && throwPosition == HomePosition)
    ensures forall k | 0 <= k < |c| :: c[k].motor == MagazineFront || c[k].motor == MagazineBack
  {
    if command == Code('g') then
      (if throwPosition == HomePosition then [Operate(MagazineFront, [1]), Operate(MagazineBack, [1])] else [])
    else if command == Code('s') then [StopMotor(MagazineBack), StopMotor(MagazineFront)]
    else []
  }

  /** The calls of the running branch (main.cpp:219-230) and of the stopped branch (262-282). */
  function BranchCalls(running: bool, command: int, host: int, backOcr: int): (c: seq<Call>)
    ensures running ==> |c| == 6
    ensures !running ==> 4 <= |c| <= 6
    ensures StopMotor(Back) in c <==> !running
    ensures Operate(Throw, [if running then command else 0]) in c
  {
    if running then
      [Operate(Back, [host, command]), SetOcrValue(Front, backOcr), Operate(Side, [host, command, 0]),
       Operate(MagazineFront, [0]), Operate(MagazineBack, [0]), Operate(Throw, [command])]
    else
      [StopMotor(Back), StopMotor(Front), StopMotor(Side), Operate(Throw, [0])]
      + (if command == Code('d') then [StopMotor(MagazineBack), StopMotor(MagazineFront)]
         else if command == Code('D') then [MoveD(MagazineBack), MoveD(MagazineFront)]
         else [])
  }

  /** `'s'` stops the platform: every motor is stopped or told to hold, whatever came before. */
  lemma StopCommandStopsEverything(started: bool, throwPosition: int, host: int, backOcr: int)
    ensures !Commanded(started, Code('s'))
    ensures var calls := CommandCalls(Code('s'), throwPosition) + BranchCalls(false, Code('s'), host, backOcr);
            && StopMotor(MagazineBack) in calls && StopMotor(MagazineFront) in calls
            && StopMotor(Back) in calls && StopMotor(Front) in calls && StopMotor(Side) in calls
            && Operate(Throw, [0]) in calls
            && forall m :: Operate(m, [1]) !in calls
  {
    var calls := CommandCalls(Code('s'), throwPosition) + BranchCalls(false, Code('s'), host, backOcr);
    assert calls[0] == StopMotor(MagazineBack) && calls[1] == StopMotor(MagazineFront);
    assert calls[2] == StopMotor(Back) && calls[3] == StopMotor(Front) && calls[4] == StopMotor(Side);
    assert calls[5] == Operate(Throw, [0]);
  }

  /** `'g'` starts the platform: the running branch follows, and the magazines feed only from home. */
  lemma GoCommandRuns(started: bool, throwPosition: int)
    ensures Commanded(started, Code('g'))
    ensures Operate(MagazineFront, [1]) in CommandCalls(Code('g'), throwPosition) <==> throwPosition == HomePosition
  {
    if throwPosition == HomePosition {
      assert CommandCalls(Code('g'), throwPosition)[0] == Operate(MagazineFront, [1]);
    }
  }

  /** The speed motors are driven exactly in the running branch and stopped exactly in the other. */
  lemma BranchesExclusive(running: bool, command: int, host: int, backOcr: int)
    ensures StopMotor(Back) in BranchCalls(running, command, host, backOcr) <==> !running
    ensures Operate(Back, [host, command]) in BranchCalls(running, command, host, backOcr) <==> running
  {
    var calls := BranchCalls(running, command, host, backOcr);
    if running {
      assert calls[0] == Operate(Back, [host, command]);
    } else {
      assert calls[0] == StopMotor(Back);
    }
  }

  /** The loop's globals and the objects the handlers and the loop update. */
  class Board {
    const back: SpeedMotor
    const front: SpeedMotor
    const side: SpeedMotor
    const magazineFront: Magazine
    const magazineBack: Magazine
    const uart0: Uart.Channel
    const uart3: Uart.Channel
    var startFlag: bool
    /** `Rx_Buffer`, the command byte from UART3. */
    var rxBuffer: int
    /** `rx`, the byte from the host on UART0. */
    var rx: int
    /** The motor calls made so far, oldest first. */
    var calls: seq<Call>
    /** What has been handed to UART0 for the host, oldest first. */
    var telemetry: seq<Out>

    ghost predicate Valid()
      reads uart0, uart0.rx, uart0.rx.buf, uart0.tx, uart0.tx.buf,
            uart3, uart3.rx, uart3.rx.buf, uart3.tx, uart3.tx.buf
    {
      && uart0.Valid() && uart3.Valid()
      && uart0 != uart3
      && {uart0.rx, uart0.tx} !! {uart3.rx, uart3.tx}
      && {uart0.rx.buf, uart0.tx.buf} !! {uart3.rx.buf, uart3.tx.buf}
      && back.controller != front.controller
    }

    /** Between iterations both command bytes are 0. */
    predicate Idle()
      reads this
    {
      rxBuffer == 0 && rx == 0
    }

    /** The globals start at 0 and `false` (main.cpp:40-48). */
    constructor (rxMask: int, txMask: int)
      requires Uart.IsSizeMask(rxMask) && Uart.IsSizeMask(txMask)
      ensures Valid() && Idle() && !startFlag
      ensures uart0.rx.contents == [] && uart3.rx.contents == []
      ensures calls == [] && telemetry == []
    {
      back := new SpeedMotor();
      front := new SpeedMotor();
      side := new SpeedMotor();
      magazineFront := new Magazine();
      magazineBack := new Magazine();
      uart0 := new Uart.Channel(rxMask, txMask);
      uart3 := new Uart.Channel(rxMask, txMask);
      startFlag := false;
      rxBuffer, rx := 0, 0;
      calls, telemetry := [], [];
    }

    /** Speed edge of the back motor (main.cpp:329-334). */
    method BackEdgeIsr()
      modifies back`count, back`tcnt, back`intFlag
      ensures back.count == old(back.tcnt) && back.tcnt == 0 && back.intFlag
    {
      back.Capture();
    }

    /** Timer overflow of the back motor: no edge for a whole timer period means standstill. */
    method BackOverflowIsr()
      modifies back`rpm
      ensures back.rpm == 0
    {
      back.rpm := 0;
    }

    /** Speed edge of the side motor (main.cpp:342-347). */
    method SideEdgeIsr()
      modifies side`count, side`tcnt, side`intFlag
      ensures side.count == old(side.tcnt) && side.tcnt == 0 && side.intFlag
    {
      side.Capture();
    }

    /** Timer overflow of the side motor: the handler's one statement is commented out. */
    method SideOverflowIsr()
      ensures side.rpm == old(side.rpm)
    {
    }

    /** Timer overflow of the front motor (main.cpp:357-360). */
    method FrontOverflowIsr()
      modifies front`rpm
      ensures front.rpm == 0
    {
      front.rpm := 0;
    }

    /** Speed edge of the front motor (main.cpp:363-368). */
    method FrontEdgeIsr()
      modifies front`count, front`tcnt, front`intFlag
      ensures front.count == old(front.tcnt) && front.tcnt == 0 && front.intFlag
    {
      front.Capture();
    }

    /** The regulator tick: both controllers' counters advance by one, modulo 256. */
    method PidTickIsr()
      requires back.controller != front.controller
      modifies back.controller`timer, front.controller`timer
      ensures back.controller.timer == old(back.controller.timer) + 1
      ensures front.controller.timer == old(front.controller.timer) + 1
    {
      back.controller.Tick();
      front.controller.Tick();
    }

    /** Front magazine encoder edge, `levelB` the level of its B channel. */
    method FrontEncoderIsr(levelB: bool)
      modifies magazineFront`encoderCount, magazineFront`encoderUp
      ensures magazineFront.encoderUp == FrontUp(levelB)
      ensures magazineFront.encoderCount == old(magazineFront.encoderCount) + EncoderStep(FrontUp(levelB))
    {
      if !levelB {
        magazineFront.Count(true);
      } else {
        magazineFront.Count(false);
      }
    }

    /** A run of front encoder edges, `levels` the B level at each, oldest first. */
    method FrontEncoderEdges(levels: seq<bool>)
      modifies magazineFront`encoderCount, magazineFront`encoderUp
      ensures magazineFront.encoderCount == old(magazineFront.encoderCount) + FrontTravel(levels)
    {
      var i := 0;
      while i < |levels|
        invariant 0 <= i <= |levels|
        invariant magazineFront.encoderCount == old(magazineFront.encoderCount) + FrontTravel(levels[..i])
      {
        assert levels[..i + 1][..i] == levels[..i];
        FrontEncoderIsr(levels[i]);
        i := i + 1;
      }
      assert levels[..i] == levels;
    }

    /** Back magazine encoder edge. */
    method BackEncoderIsr(levelB: bool)
      modifies magazineBack`encoderCount, magazineBack`encoderUp
      ensures magazineBack.encoderUp == BackUp(levelB)
      ensures magazineBack.encoderCount == old(magazineBack.encoderCount) + EncoderStep(BackUp(levelB))
    {
      if levelB {
        magazineBack.Count(true);
      } else {
        magazineBack.Count(false);
      }
    }

    /** A run of back encoder edges, `levels` the B level at each, oldest first. */
    method BackEncoderEdges(levels: seq<bool>)
      modifies magazineBack`encoderCount, magazineBack`encoderUp
      ensures magazineBack.encoderCount == old(magazineBack.encoderCount) + BackTravel(levels)
    {
      var i := 0;
      while i < |levels|
        invariant 0 <= i <= |levels|
        invariant magazineBack.encoderCount == old(magazineBack.encoderCount) + BackTravel(levels[..i])
      {
        assert levels[..i + 1][..i] == levels[..i];
        BackEncoderIsr(levels[i]);
        i := i + 1;
      }
      assert levels[..i] == levels;
    }

    /** `uart0_putc(c)` as far as the host sees it. */
    method Putc(c: char)
      modifies this`telemetry
      ensures telemetry == old(telemetry) + [Char(c)]
    {
      telemetry := telemetry + [Char(c)];
    }

    /** `uart0_putint(v)`: the digits of `v`, recorded as the integer itself. */
    method Putint(v: int)
      modifies this`telemetry
      ensures telemetry == old(telemetry) + [Int(v)]
    {
      telemetry := telemetry + [Int(v)];
    }

    /** The three values of one motor, each after a space. */
    method SendMotorFields(rpm: int, setpoint: int, ocr: int)
      modifies this`telemetry
      ensures telemetry == old(telemetry) + MotorFields(rpm, setpoint, ocr)
    {
      Putc(' ');
      Putint(rpm);
      Putc(' ');
      Putint(setpoint);
      Putc(' ');
      Putint(ocr);
    }

    /** The telemetry statements that end both branches of the loop. */
    method SendTelemetry(tag: char, r: Readings)
      modifies this`telemetry
      ensures telemetry == old(telemetry) + TelemetryLine(tag, r)
    {
      Putc(tag);
      SendMotorFields(r.backRpm, r.backSetpoint, r.backOcr);
      SendMotorFields(r.frontRpm, r.frontSetpoint, r.frontOcr);
      Putc('\n');
      Putc('\r');
    }

    /** `if (uart3_available()) Rx_Buffer = uart3_getc();`, the low byte kept. */
    method ReadCommand()
      requires Valid() && Idle()
      modifies this`rxBuffer, uart3.rx`tail, uart3.rx`contents
      ensures Valid() && rx == 0
      ensures rxBuffer == Command(old(uart3.rx.contents))
      ensures uart3.rx.contents == if old(uart3.rx.contents) == [] then [] else old(uart3.rx.contents)[1..]
    {
      if uart3.AvailableThree() {
        var c := uart3.Getc();
        rxBuffer := c % 256;
      }
    }

    /**
     * The command test (main.cpp:178-203): `'g'` starts, marking the
     * magazines for a fresh run when not already started and letting them
     * feed from the home position; `'s'` stops. The second half of the stop
     * test reads `rx`, which is 0 here.
     */
    method HandleCommand(throwPosition: int)
      requires rx == 0
      modifies this`startFlag, this`calls, magazineFront`virginity, magazineBack`virginity
      ensures startFlag == Commanded(old(startFlag), rxBuffer)
      ensures calls == old(calls) + CommandCalls(rxBuffer, throwPosition)
      ensures magazineFront.virginity == (if rxBuffer == Code('g') && !old(startFlag) then true else old(magazineFront.virginity))
      ensures magazineBack.virginity == (if rxBuffer == Code('g') && !old(startFlag) then true else old(magazineBack.virginity))
    {
      if rxBuffer == Code('g') {
        if !startFlag {
          magazineBack.virginity := true;
          magazineFront.virginity := true;
        }
        startFlag := true;
        if throwPosition == HomePosition {
          calls := calls + [Operate(MagazineFront, [1]), Operate(MagazineBack, [1])];
        }
      } else if rxBuffer == Code('s') || rx == Code('S') {
        startFlag := false;
        calls := calls + [StopMotor(MagazineBack), StopMotor(MagazineFront)];
      }
    }

    /** The host byte of a running iteration; `'.'` stops (main.cpp:210-217). */
    method ReadHost()
      requires Valid() && rx == 0 && startFlag
      modifies this`rx, this`startFlag, uart0.rx`tail, uart0.rx`contents
      ensures Valid()
      ensures rx == HostByte(true, old(uart0.AvailableZero()), old(uart0.rx.contents))
      ensures startFlag == (rx != Code('.'))
      ensures uart0.rx.contents == if old(uart0.AvailableZero()) != 0 then old(uart0.rx.contents)[1..] else old(uart0.rx.contents)
    {
      if uart0.AvailableZero() != 0 {
        var c := uart0.Getc();
        rx := c % 256;
        if rx == Code('.') {
          startFlag := false;
        }
      }
    }

    /** The branch taken while started (main.cpp:207-258). */
    method RunBranch(r: Readings)
      requires Valid() && rx == 0 && startFlag
      modifies this`rx, this`startFlag, this`rxBuffer, this`calls, this`telemetry, uart0.rx`tail, uart0.rx`contents
      ensures Valid() && Idle()
      ensures var host := HostByte(true, old(uart0.AvailableZero()), old(uart0.rx.contents));
              && startFlag == (host != Code('.'))
              && calls == old(calls) + BranchCalls(true, old(rxBuffer), host, r.backOcr)
              && uart0.rx.contents == if old(uart0.AvailableZero()) != 0 then old(uart0.rx.contents)[1..] else old(uart0.rx.contents)
      ensures telemetry == old(telemetry) + TelemetryLine('2', r)
    {
      ReadHost();
      calls := calls + [Operate(Back, [rx, rxBuffer]), SetOcrValue(Front, r.backOcr), Operate(Side, [rx, rxBuffer, 0]),
                        Operate(MagazineFront, [0]), Operate(MagazineBack, [0]), Operate(Throw, [rxBuffer])];
      rxBuffer := 0;
      rx := 0;
      SendTelemetry('2', r);
    }

    /** The branch taken while stopped (main.cpp:259-310). */
    method StopBranch(r: Readings)
      requires Valid() && rx == 0
      modifies this`rx, this`rxBuffer, this`calls, this`telemetry
      ensures Valid() && Idle()
      ensures calls == old(calls) + BranchCalls(false, old(rxBuffer), 0, r.backOcr)
      ensures telemetry == old(telemetry) + TelemetryLine('1', r)
    {
      calls := calls + [StopMotor(Back), StopMotor(Front), StopMotor(Side), Operate(Throw, [0])];
      if rxBuffer == Code('d') {
        calls := calls + [StopMotor(MagazineBack), StopMotor(MagazineFront)];
      } else if rxBuffer == Code('D') {
        calls := calls + [MoveD(MagazineBack), MoveD(MagazineFront)];
      }
      rxBuffer := 0;
      rx := 0;
      SendTelemetry('1', r);
    }

    /** The two branches of the loop and the resets after them (main.cpp:207-313). */
    method Branch(r: Readings)
      requires Valid() && rx == 0
      modifies this`startFlag, this`rxBuffer, this`rx, this`calls, this`telemetry, uart0.rx`tail, uart0.rx`contents
      ensures Valid() && Idle()
      ensures var host := HostByte(old(startFlag), old(uart0.AvailableZero()), old(uart0.rx.contents));
              && startFlag == (old(startFlag) && host != Code('.'))
              && calls == old(calls) + BranchCalls(old(startFlag), old(rxBuffer), host, r.backOcr)
              && telemetry == old(telemetry) + TelemetryLine(if old(startFlag) then '2' else '1', r)
              && uart0.rx.contents == (if old(startFlag) && old(uart0.AvailableZero()) != 0 then old(uart0.rx.contents)[1..]
                                       else old(uart0.rx.contents))
    {
      if startFlag {
        RunBranch(r);
      } else {
        StopBranch(r);
      }
      rxBuffer := 0;
      rx := 0;
    }

    /**
     * One iteration of the main loop (main.cpp:124-315), without the display
     * output. `r` holds what the motor objects report during the iteration.
     */
    method LoopStep(r: Readings)
      requires Valid() && Idle()
      modifies this`startFlag, this`rxBuffer, this`rx, this`calls, this`telemetry
      modifies magazineFront`virginity, magazineBack`virginity
      modifies uart3.rx`tail, uart3.rx`contents, uart0.rx`tail, uart0.rx`contents
      ensures Valid() && Idle()
      ensures var command := Command(old(uart3.rx.contents));
              var running := Commanded(old(startFlag), command);
              var host := HostByte(running, old(uart0.AvailableZero()), old(uart0.rx.contents));
              && startFlag == (running && host != Code('.'))
              && calls == old(calls) + CommandCalls(command, r.throwPosition) + BranchCalls(running, command, host, r.backOcr)
              && telemetry == old(telemetry) + TelemetryLine(if running then '2' else '1', r)
              && magazineFront.virginity == (if command == Code('g') && !old(startFlag) then true else old(magazineFront.virginity))
              && magazineBack.virginity == (if command == Code('g') && !old(startFlag) then true else old(magazineBack.virginity))
              && uart3.rx.contents == (if old(uart3.rx.contents) == [] then [] else old(uart3.rx.contents)[1..])
              && uart0.rx.contents == (if running && old(uart0.AvailableZero()) != 0 then old(uart0.rx.contents)[1..]
                                       else old(uart0.rx.contents))
    {
      ReadCommand();
      HandleCommand(r.throwPosition);
      Branch(r);
    }
  }

  /**
   * The capture measures the time between two edges: after an edge, a
   * second edge `ticks` timer periods later captures `ticks` (modulo the
   * 16-bit register).
   */
  method EdgeToEdge(b: Board, ticks: nat)
    modifies b.back
    ensures b.back.count == ticks % TimerModulus && b.back.tcnt == 0 && b.back.intFlag
  {
    b.BackEdgeIsr();
    b.back.Elapse(ticks);
    b.BackEdgeIsr();
  }

  /**
   * In low-speed mode a regulator holds its output until the tick handler
   * has run five times since the last update; then it updates again.
   */
  method FiveTicksRelease(b: Board, rpm: int) returns (output: int)
    requires b.Valid() && b.back.controller.timer == 0
    modifies b.back.controller, b.front.controller`timer
    ensures b.back.controller.lastRPM == rpm && b.back.controller.timer == 0
    ensures output == b.back.controller.lastOutput
  {
    b.PidTickIsr();
    b.PidTickIsr();
    b.PidTickIsr();
    b.PidTickIsr();
    b.PidTickIsr();
    output := b.back.controller.ComputePid(rpm, true);
  }
}
