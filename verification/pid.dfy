/**
 * The discrete PID speed regulator (PID.h, PID.cpp). One `Controller` per
 * motor axis holds the setpoint, the gains, the three terms, the last measured
 * speed, the held output and the tick counter that a timer interrupt advances.
 *
 * The gains are `float` in the firmware. Here a gain is an exact ratio
 * `num / den`, and a product `gain * x` assigned to an `int` is truncated
 * toward zero, as C converts a floating value to an integer.
 */
module Pid {

  /** Step of `Inc_Setpoint`/`Dcr_Setpoint`. */
  const SetpointStepping: int := 10
  /** Setpoint installed by `Initialise`. */
  const InitialSetpoint: int := 1500
  /** Bounds defined beside the regulator; `Compute_PID` does not use them. */
  const MaxOutput: int := 1400
  const MinOutput: int := -1400
  /** Ticks that must elapse between two updates in low-speed mode. */
  const LowSpeedTimeLimit: int := 5

  datatype Ratio = Ratio(num: int, den: int)
  type Gain = g: Ratio | g.den > 0 witness Ratio(0, 1)

  /** A product with a positive factor is at least that factor away from zero unless it is zero. */
  lemma ProductAwayFromZero(m: int, d: int)
    requires d > 0
    ensures m >= 1 ==> m * d >= d
    ensures m <= -1 ==> m * d <= -d
  {
  }

  /**
   * Conversion of the quotient `a / d` to an integer: truncation toward zero,
   * the integer quotient nearest zero, not the floor of the quotient.
   */
  function TruncDiv(a: int, d: int): (q: int)
    requires d > 0
    ensures a >= 0 ==> 0 <= q * d <= a < q * d + d
    ensures a < 0 ==> q * d - d < a <= q * d <= 0
  {
    if a >= 0 then
      assert a == (a / d) * d + a % d;
      ProductAwayFromZero(a / d, d);
      a / d
    else
      assert -a == ((-a) / d) * d + (-a) % d;
      ProductAwayFromZero((-a) / d, d);
      -((-a) / d)
  }

  /** `(int)(g * x)`. */
  function Mul(g: Gain, x: int): (r: int)
    ensures x == 0 ==> r == 0
  {
    TruncDiv(g.num * x, g.den)
  }

  /** `acc += g * x` on an `int` accumulator: `acc = (int)(acc + g * x)`; a zero error leaves it as it was. */
  function Accumulate(acc: int, g: Gain, x: int): (r: int)
    ensures x == 0 ==> r == acc
  {
    TruncDivOfMultiple(acc, g.den);
    TruncDiv(acc * g.den + g.num * x, g.den)
  }

  /** Truncating an exact multiple gives the multiplier back. */
  lemma {:induction false} TruncDivOfMultiple(k: int, d: int)
    requires d > 0
    ensures TruncDiv(k * d, d) == k
  {
    var q := TruncDiv(k * d, d);
    assert k * d - q * d == (k - q) * d;
    ProductAwayFromZero(k - q, d);
  }

  /** The update threshold of `Compute_PID`: 5 ticks in low-speed mode, else 0. */
  function TimeLimit(lowFlag: bool): (t: int)
    ensures t == 0 || t == LowSpeedTimeLimit
    ensures t == 0 <==> !lowFlag
  {
    if lowFlag then LowSpeedTimeLimit else 0
  }

  /** `limit(value, min, max)`: the reference argument comes back as the result. */
  function Limit(value: int, minValue: int, maxValue: int): (r: int)
    ensures minValue <= maxValue ==> minValue <= r <= maxValue
    ensures minValue <= value <= maxValue ==> r == value
    ensures r == value || r == minValue || r == maxValue
  {
    if value > maxValue then maxValue
    else if value < minValue then minValue
    else value
  }

  lemma LimitIdempotent(value: int, minValue: int, maxValue: int)
    requires minValue <= maxValue
    ensures Limit(Limit(value, minValue, maxValue), minValue, maxValue) == Limit(value, minValue, maxValue)
  {
  }

  class Controller {
    var setpoint: int
    var lastOutput: int
    /** `uint8_t`: advanced by the PID timer interrupt, wraps modulo 256. */
    var timer: bv8
    var kp: Gain
    var ki: Gain
    var kd: Gain
    var pTerm: int
    var iTerm: int
    var dTerm: int
    var lastRPM: int
    var error: int
    var lowSpeed: bool

    /** The controllers live in global motor objects, so every field starts at zero. */
    constructor ()
      ensures setpoint == 0 && lastOutput == 0 && timer == 0
      ensures kp == Ratio(0, 1) && ki == Ratio(0, 1) && kd == Ratio(0, 1)
      ensures pTerm == 0 && iTerm == 0 && dTerm == 0 && lastRPM == 0 && error == 0
      ensures !lowSpeed
    {
      setpoint, lastOutput, timer := 0, 0, 0;
      kp, ki, kd := Ratio(0, 1), Ratio(0, 1), Ratio(0, 1);
      pTerm, iTerm, dTerm, lastRPM, error := 0, 0, 0, 0, 0;
      lowSpeed := false;
    }

    /** `Initialise`: installs the default setpoint and low-speed mode; the terms are not touched. */
    method Initialise()
      modifies this`setpoint, this`lowSpeed
      ensures setpoint == InitialSetpoint && lowSpeed
    {
      setpoint := InitialSetpoint;
      lowSpeed := true;
    }

    function GetSetpoint(): int
      reads this
    {
      setpoint
    }

    function GetKp(): Gain
      reads this
    {
      kp
    }

    function GetKi(): Gain
      reads this
    {
      ki
    }

    function GetKd(): Gain
      reads this
    {
      kd
    }

    function GetPterm(): int
      reads this
    {
      pTerm
    }

    function GetIterm(): int
      reads this
    {
      iTerm
    }

    function GetDterm(): int
      reads this
    {
      dTerm
    }

    method SetSetpoint(val: int)
      modifies this`setpoint
      ensures GetSetpoint() == val
    {
      setpoint := val;
    }

    method SetPid(kP: Gain, kI: Gain, kD: Gain)
      modifies this`kp, this`ki, this`kd
      ensures GetKp() == kP && GetKi() == kI && GetKd() == kD
    {
      kp, ki, kd := kP, kI, kD;
    }

    method IncSetpoint()
      modifies this`setpoint
      ensures setpoint == old(setpoint) + SetpointStepping
    {
      setpoint := setpoint + SetpointStepping;
    }

    method DcrSetpoint()
      modifies this`setpoint
      ensures setpoint == old(setpoint) - SetpointStepping
    {
      setpoint := setpoint - SetpointStepping;
    }

    /** One firing of the PID timer interrupt: `++timer` on a `uint8_t`. */
    method Tick()
      modifies this`timer
      ensures timer == old(timer) + 1
    {
      timer := timer + 1;
    }

    /**
     * `Compute_PID(currentRPM, LowFlag)`. Once `timer` has reached the
     * threshold the terms are recomputed and `timer` is reset; otherwise
     * nothing changes and the held output is returned (zero-order hold).
     */
    method ComputePid(currentRPM: int, lowFlag: bool) returns (output: int)
      modifies this`error, this`pTerm, this`iTerm, this`dTerm, this`lastRPM, this`lastOutput, this`timer
      ensures output == lastOutput
      ensures old(timer) as int >= TimeLimit(lowFlag) ==>
        && error == setpoint - currentRPM
        && pTerm == Mul(kp, error)
        && iTerm == Accumulate(old(iTerm), ki, error)
        && dTerm == Mul(kd, currentRPM - old(lastRPM))
        && lastOutput == pTerm + iTerm - dTerm
        && lastRPM == currentRPM
        && timer == 0
      ensures old(timer) as int < TimeLimit(lowFlag) ==> unchanged(this)
      ensures !lowFlag ==> timer == 0
      ensures old(timer) as int >= TimeLimit(lowFlag) && currentRPM == setpoint == old(lastRPM) ==>
        pTerm == 0 && dTerm == 0 && iTerm == old(iTerm) && output == old(iTerm)
    {
      if timer as int >= TimeLimit(lowFlag) {
        error := setpoint - currentRPM;
        pTerm := Mul(kp, error);
        iTerm := Accumulate(iTerm, ki, error);
        dTerm := Mul(kd, currentRPM - lastRPM);
        output := pTerm + iTerm - dTerm;
        lastRPM := currentRPM;
        lastOutput := output;
        timer := 0;
      }
      output := lastOutput;
    }
  }

  /** An increment of the `uint8_t` counter is an increment modulo 256. */
  lemma TickWraps(t: bv8)
    ensures (t + 1) as int == (t as int + 1) % 256
  {
  }

  /** Two low-speed calls with no tick in between, while below the threshold, return the same held value. */
  method HeldCallsAgree(c: Controller, rpm1: int, rpm2: int) returns (r1: int, r2: int)
    requires c.timer as int < LowSpeedTimeLimit
    modifies c
    ensures r1 == r2 == old(c.lastOutput)
    ensures c.iTerm == old(c.iTerm) && c.lastRPM == old(c.lastRPM)
  {
    r1 := c.ComputePid(rpm1, true);
    r2 := c.ComputePid(rpm2, true);
  }

  /** After an update the counter is 0, so a low-speed call that follows holds the new output. */
  method UpdateThenHold(c: Controller, rpm1: int, rpm2: int) returns (r1: int, r2: int)
    modifies c
    ensures r1 == r2 == c.lastOutput
    ensures c.lastRPM == rpm1
  {
    r1 := c.ComputePid(rpm1, false);
    r2 := c.ComputePid(rpm2, true);
  }

  /** `Inc_Setpoint` followed by `Dcr_Setpoint` restores the setpoint. */
  method IncThenDcrRestores(c: Controller)
    modifies c
    ensures c.setpoint == old(c.setpoint)
  {
    c.IncSetpoint();
    c.DcrSetpoint();
  }

  /** The reference gains kp = 1.07, ki = 0.0135, kd = 23.87. */
  const ReferenceKp: Gain := Ratio(107, 100)
  const ReferenceKi: Gain := Ratio(135, 10000)
  const ReferenceKd: Gain := Ratio(2387, 100)

  /**
   * The products of the reference scenario, all within the 16-bit `int` of the
   * AVR compiler; a negative product truncates toward zero.
   */
  lemma ReferenceProducts()
    ensures Mul(ReferenceKp, 200) == 214 && Mul(ReferenceKp, 100) == 107
    ensures Accumulate(0, ReferenceKi, 200) == 2 && Accumulate(2, ReferenceKi, 100) == 3
    ensures Mul(ReferenceKd, 1300) == 31031 && Mul(ReferenceKd, 100) == 2387
    ensures Mul(ReferenceKd, -50) == -1193
  {
  }

  /** With setpoint 1500, two measurements of 1500 in a row give output 0. */
  method SteadyScenario() returns (steady: int)
    ensures steady == 0
  {
    var c := new Controller();
    c.SetPid(ReferenceKp, ReferenceKi, ReferenceKd);
    c.SetSetpoint(1500);
    var _ := c.ComputePid(1500, false);
    steady := c.ComputePid(1500, false);
  }

  /**
   * With setpoint 1500, a first measurement of 1300 gives 214 + 2 - 31031, far
   * below `MIN_OUTPUT`: `Compute_PID` does not clamp. A measurement of 1400
   * next gives 107 + 3 - 2387. Every intermediate value fits a 16-bit `int`.
   */
  method StepScenario() returns (first: int, second: int)
    ensures first == -30815 && first < MinOutput
    ensures second == -2277
  {
    var c := new Controller();
    c.SetPid(ReferenceKp, ReferenceKi, ReferenceKd);
    c.SetSetpoint(1500);
    ReferenceProducts();
    first := c.ComputePid(1300, false);
    second := c.ComputePid(1400, false);
  }
}
