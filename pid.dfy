/** The integer PID controller of src/pid.rs: one `tick` of the control loop.
    The thread that calls it periodically (`run`) is not modelled. */
module Pid {
  import opened Ints

  /** The value a tick computes from the new error, the new integral and the
      derivative, with Rust's truncating division. */
  function TickOutput(kp: i32, ki: i32, kd: i32, error: int, integral: int, previousError: int, dt: int): (output: int)
    requires dt != 0
    ensures error == previousError ==> output == kp * error + ki * integral
    ensures kd == 0 ==> output == kp * error + ki * integral
  {
    kp * error + ki * integral + kd * TruncDiv(error - previousError, dt)
  }

  /** An `i64` value: the range a debug build checks each `i64` result against. */
  predicate InI64(x: int) {
    -0x8000_0000_0000_0000 <= x < 0x8000_0000_0000_0000
  }

  /** A tick is defined when none of its three `i64` results overflows, which
      would panic in a debug build: the new error, the new integral and the
      difference of the new error and `previous_error`. */
  predicate TickDefined(setpoint: int, integral: int, previousError: int, input: int, dt: int) {
    && InI64(setpoint - input)
    && InI64(integral + (setpoint - input) * dt)
    && InI64((setpoint - input) - previousError)
  }

  /** The overflow a debug build checks at `self.error - self.previous_error`:
      with the largest setpoint, input 0, step 1 and a remembered error of -1,
      the error and the integral fit in an `i64` but their difference does not. */
  lemma DerivativeOverflowExcluded()
    ensures InI64(0x7FFF_FFFF_FFFF_FFFF - 0) && InI64(0 + 0x7FFF_FFFF_FFFF_FFFF * 1)
    ensures !TickDefined(0x7FFF_FFFF_FFFF_FFFF, 0, -1, 0, 1)
  {
  }

  class PidSystem {
    var kp: i32
    var ki: i32
    var kd: i32
    var previousError: i64
    var integral: i64
    var setpoint: i64
    var error: i64
    var running: bool

    constructor (kp: i32, ki: i32, kd: i32, setpoint: i64)
      ensures this.kp == kp && this.ki == ki && this.kd == kd && this.setpoint == setpoint
      ensures previousError == 0 && integral == 0 && error == 0 && !running
    {
      this.kp, this.ki, this.kd := kp, ki, kd;
      this.setpoint := setpoint;
      previousError, integral, error := 0, 0, 0;
      running := false;
    }

    /** `tick`: the error is recomputed from the setpoint, the integral
        accumulates the new error times `dt`, and the derivative compares the
        new error with `previous_error`, which `tick` never updates. */
    method Tick(input: i64, dt: u64) returns (output: int)
      requires dt != 0
      requires TickDefined(setpoint, integral, previousError, input, dt)
      modifies this`error, this`integral
      ensures error == setpoint - input
      ensures integral == old(integral) + error * dt
      ensures output == TickOutput(kp, ki, kd, error, integral, previousError, dt)
    {
      error := setpoint - input;
      integral := integral + error * dt;
      var derivative := TruncDiv(error - previousError, dt);
      output := kp * error + ki * integral + kd * derivative;
    }
  }

  /** At the setpoint, with no error remembered, a tick leaves the integral
      where it was and outputs only its integral term. */
  lemma AtSetpoint(kp: i32, ki: i32, kd: i32, integral: int, dt: int)
    requires dt != 0
    ensures TickOutput(kp, ki, kd, 0, integral + 0 * dt, 0, dt) == ki * integral
  {
  }

  /** Because `previous_error` is never written, two ticks with the same input
      and step compute the same derivative, and the integral grows by
      `error * dt` each time. */
  lemma RepeatedTicks(kp: i32, ki: i32, kd: i32, setpoint: int, input: int, integral: int, previousError: int, dt: int)
    requires dt != 0
    ensures var e := setpoint - input;
      var out1 := TickOutput(kp, ki, kd, e, integral + e * dt, previousError, dt);
      var out2 := TickOutput(kp, ki, kd, e, integral + 2 * e * dt, previousError, dt);
      out2 - out1 == ki * e * dt
  {
    var e := setpoint - input;
    calc {
      TickOutput(kp, ki, kd, e, integral + 2 * e * dt, previousError, dt) - TickOutput(kp, ki, kd, e, integral + e * dt, previousError, dt);
      ki * (integral + 2 * e * dt) - ki * (integral + e * dt);
      { assert ki * (integral + 2 * e * dt) == ki * integral + ki * (2 * e * dt);
        assert ki * (integral + e * dt) == ki * integral + ki * (e * dt); }
      ki * (2 * e * dt) - ki * (e * dt);
      ki * e * dt;
    }
  }
}
