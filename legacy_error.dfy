/** The older, ungated calling convention of src/hal/error.rs: two macros
    that call the native function without consulting the readiness flag, and
    a reduced `HalError`.  Its `FfiError` has the same 24 variants, in the
    same order, as the one in src/error.rs, so the model reuses that type. */
module LegacyError {
  import opened Ints
  import opened Results
  import opened Raw
  import Error

  /** The three-variant `HalError` of the older module. */
  datatype HalError =
    | Hal(ffi: Error.FfiError)
    | NullError(nul: Error.NulError)
    | IndexOutOfRange

  type HalResult<T> = Result<T, HalError>

  /** `HalError::from(code)` of the older module, written out on its own. */
  function FromCode(t: ErrorConstants, code: i32): (e: HalError)
    ensures e.Hal?
  {
    if code >= 0 then
      var k := I32AsU32(code);
      if k == t.sampleRateTooHigh then Hal(Error.SampleRateTooHigh)
      else if k == t.voltageOutOfRange then Hal(Error.VoltageOutOfRange)
      else if k == t.loopTimingError then Hal(Error.LoopTimingError)
      else if k == t.spiWriteNoMosi then Hal(Error.SpiWriteNoMosi)
      else if k == t.spiReadNoMiso then Hal(Error.SpiReadNoMiso)
      else if k == t.spiReadNoData then Hal(Error.SpiReadNoData)
      else if k == t.incompatibleState then Hal(Error.IncompatibleState)
      else Hal(Error.Unknown(U32AsI32(k)))
    else
      if code == t.noAvailableResources then Hal(Error.NoAvailableResources)
      else if code == t.nullParameter then Hal(Error.NullParameter)
      else if code == t.analogTriggerLimitOrderError then Hal(Error.AnalogTriggerLimitOrderError)
      else if code == t.analogTriggerPulseOutputError then Hal(Error.AnalogTriggerPuseOutputError)
      else if code == t.parameterOutOfRange then Hal(Error.ParameterOutOfRange)
      else if code == t.resourceIsAllocated then Hal(Error.ResourceIsAllocated)
      else if code == t.resourceOutOfRange then Hal(Error.ResourceOutOfRange)
      else if code == t.invalidAccumulatorChannel then Hal(Error.InvalidAccumulatorChannel)
      else if code == t.counterNotSupported then Hal(Error.CounterNotSupported)
      else if code == t.pwmScaleError then Hal(Error.PwmScaleError)
      else if code == t.handleError then Hal(Error.HandleError)
      else if code == t.serialPortNotFound then Hal(Error.SerialPortNotFound)
      else if code == t.serialPortOpenError then Hal(Error.SerialPortNotOpen)
      else if code == t.serialPortError then Hal(Error.SerialPortError)
      else if code == t.threadPriorityError then Hal(Error.ThreadPriorityError)
      else if code == t.threadPriorityRangeError then Hal(Error.ThreadPriorityRangeError)
      else Hal(Error.Unknown(code))
  }

  /** Both translations agree on every code: same sign split, same tables,
      same `Unknown` fallback. */
  lemma FromCodeAgrees(t: ErrorConstants, code: i32)
    ensures FromCode(t, code) == Hal(Error.FromCode(t, code).ffi)
  {
    var p, n := t.NonNegativeCodes(), t.NegativeCodes();
    if code >= 0 {
      var i := Error.FirstMatch(p, I32AsU32(code));
      assert p[0] == t.sampleRateTooHigh && p[1] == t.voltageOutOfRange && p[2] == t.loopTimingError;
      assert p[3] == t.spiWriteNoMosi && p[4] == t.spiReadNoMiso && p[5] == t.spiReadNoData;
      assert p[6] == t.incompatibleState;
    } else {
      var i := Error.FirstMatch(n, code);
      assert n[0] == t.noAvailableResources && n[1] == t.nullParameter;
      assert n[2] == t.analogTriggerLimitOrderError && n[3] == t.analogTriggerPulseOutputError;
      assert n[4] == t.parameterOutOfRange && n[5] == t.resourceIsAllocated;
      assert n[6] == t.resourceOutOfRange && n[7] == t.invalidAccumulatorChannel;
      assert n[8] == t.counterNotSupported && n[9] == t.pwmScaleError;
      assert n[10] == t.handleError && n[11] == t.serialPortNotFound;
      assert n[12] == t.serialPortOpenError && n[13] == t.serialPortError;
      assert n[14] == t.threadPriorityError && n[15] == t.threadPriorityRangeError;
    }
  }

  /** Consequently the older translation inherits the properties proved of
      the newer one: it loses no information about the code. */
  lemma FromCodeInjective(t: ErrorConstants, c1: i32, c2: i32)
    requires FromCode(t, c1) == FromCode(t, c2)
    ensures c1 == c2
  {
    FromCodeAgrees(t, c1);
    FromCodeAgrees(t, c2);
    Error.FromCodeInjective(t, c1, c2);
  }

  /** `From<NulError> for HalError`. */
  function FromNulError(err: Error.NulError): (e: HalError)
    ensures e.NullError? && e.nul == err
  {
    NullError(err)
  }

  /** What `hal_status_pointer_call!` returns: the native function maps the
      zeroed status cell to its result and the status it leaves there. */
  function PointerCall<T>(t: ErrorConstants, native: i32 -> (T, i32)): (r: HalResult<T>)
    ensures r.Ok? <==> native(0).1 == 0
    ensures r.Ok? ==> r.value == native(0).0
    ensures r.Err? ==> r.error == FromCode(t, native(0).1)
  {
    if native(0).1 == 0 then Ok(native(0).0) else Err(FromCode(t, native(0).1))
  }

  /** What `hal_status_return_call!` returns for the returned status. */
  function ReturnCall(t: ErrorConstants, status: i32): (r: HalResult<()>)
    ensures r.Ok? <==> status == 0
    ensures r.Err? ==> r.error == FromCode(t, status)
  {
    if status == 0 then Ok(()) else Err(FromCode(t, status))
  }

  /** Where the HAL is ready the older pointer macro and the gated `ptr` arm
      give the same answer: the same value on success and the same kind of
      `FfiError` on failure.  The older macro's errors are always `Hal(_)`. */
  lemma PointerCallMatchesGated<T>(t: ErrorConstants, native: i32 -> (T, i32))
    ensures PointerCall(t, native).Ok? <==> Error.PtrCall(true, t, native).Ok?
    ensures PointerCall(t, native).Ok? ==> PointerCall(t, native).value == Error.PtrCall(true, t, native).value
    ensures PointerCall(t, native).Err? ==>
              PointerCall(t, native).error == Hal(Error.PtrCall(true, t, native).error.ffi)
  {
    FromCodeAgrees(t, native(0).1);
  }

  /** `hal_status_pointer_call!(f(args))`: always calls the native function. */
  method StatusPointerCall<T>(hal: Error.HalLibrary, call: Error.NativeCall, native: i32 -> (T, i32))
    returns (r: HalResult<T>)
    modifies hal`log
    ensures r == PointerCall(hal.codes, native)
    ensures hal.log == old(hal.log) + [call]
  {
    var status: i32 := 0;
    var outcome := hal.Invoke(call, native(status));
    var result := outcome.0;
    status := outcome.1;
    if status == 0 {
      r := Ok(result);
    } else {
      r := Err(FromCode(hal.codes, status));
    }
  }

  /** `hal_status_return_call!(f(args))`; `out` is the memory the call leaves. */
  method StatusReturnCall<S>(hal: Error.HalLibrary, call: Error.NativeCall, native: S -> (S, i32), cell: S)
    returns (r: HalResult<()>, out: S)
    modifies hal`log
    ensures r == ReturnCall(hal.codes, native(cell).1) && out == native(cell).0
    ensures hal.log == old(hal.log) + [call]
  {
    var outcome := hal.Invoke(call, native(cell));
    out := outcome.0;
    var status := outcome.1;
    if status == 0 {
      r := Ok(());
    } else {
      r := Err(FromCode(hal.codes, status));
    }
  }
}
