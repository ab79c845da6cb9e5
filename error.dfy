/** The crate's error taxonomy and the `hal_call!` calling convention
    (src/error.rs). */
module Error {
  import opened Ints
  import opened Results
  import opened Raw
  import Decimal

  /** A failure reported by the HAL through a status code. */
  datatype FfiError =
    | SampleRateTooHigh
    | VoltageOutOfRange
    | LoopTimingError
    | SpiWriteNoMosi
    | SpiReadNoMiso
    | SpiReadNoData
    | IncompatibleState
    | NoAvailableResources
    | NullParameter
    | AnalogTriggerLimitOrderError
    | AnalogTriggerPuseOutputError
    | ParameterOutOfRange
    | ResourceIsAllocated
    | ResourceOutOfRange
    | InvalidAccumulatorChannel
    | CounterNotSupported
    | PwmScaleError
    | HandleError
    | SerialPortNotFound
    | SerialPortNotOpen
    | SerialPortError
    | ThreadPriorityError
    | ThreadPriorityRangeError
    | Unknown(code: i32)

  /** The kinds named by the non-negative table, position by position. */
  const NonNegativeKinds: seq<FfiError> :=
    [SampleRateTooHigh, VoltageOutOfRange, LoopTimingError, SpiWriteNoMosi,
     SpiReadNoMiso, SpiReadNoData, IncompatibleState]

  /** The kinds named by the negative table, position by position. */
  const NegativeKinds: seq<FfiError> :=
    [NoAvailableResources, NullParameter, AnalogTriggerLimitOrderError,
     AnalogTriggerPuseOutputError, ParameterOutOfRange, ResourceIsAllocated,
     ResourceOutOfRange, InvalidAccumulatorChannel, CounterNotSupported,
     PwmScaleError, HandleError, SerialPortNotFound, SerialPortNotOpen,
     SerialPortError, ThreadPriorityError, ThreadPriorityRangeError]

  /** Rust's `std::ffi::NulError`: where the interior nul byte was, and the bytes. */
  datatype NulError = NulError(nulPosition: nat, bytes: seq<u8>)

  /** Every error the crate returns.  `Other` stands for a boxed foreign error,
      of which the model keeps only its `description()`. */
  datatype HalError =
    | Hal(ffi: FfiError)
    | NullError(nul: NulError)
    | ResourceAlreadyInitialized
    | HalNotInitialized
    | BadModuleType
    | BadChannelType
    | WrongIoInterface
    | Other(description: string)

  type HalResult<T> = Result<T, HalError>

  /** The position of the first entry of `table` equal to `x`, or `|table|`
      when there is none: which arm of a `match` on constants is taken, the
      arms being tried in order. */
  function FirstMatch<K(==)>(table: seq<K>, x: K): (i: nat)
    ensures i <= |table|
    ensures i < |table| ==> table[i] == x
    ensures forall j :: 0 <= j < i ==> table[j] != x
    decreases |table|
  {
    if table == [] then 0
    else if table[0] == x then 0
    else 1 + FirstMatch(table[1..], x)
  }

  /** `HalError::from(code)`: branch on the sign, then match the code against
      that sign's table (the non-negative one after reading the code as
      `u32`); an unmatched code is kept as `Unknown`, read back as `i32`. */
  function FromCode(t: ErrorConstants, code: i32): (e: HalError)
    ensures e.Hal?
    ensures code >= 0 ==> e.ffi in NonNegativeKinds || e.ffi == Unknown(code)
    ensures code < 0 ==> e.ffi in NegativeKinds || e.ffi == Unknown(code)
  {
    if code >= 0 then
      var k := I32AsU32(code);
      var i := FirstMatch(t.NonNegativeCodes(), k);
      CastRoundTrip(code, k);
      if i < 7 then Hal(NonNegativeKinds[i]) else Hal(Unknown(U32AsI32(k)))
    else
      var i := FirstMatch(t.NegativeCodes(), code);
      if i < 16 then Hal(NegativeKinds[i]) else Hal(Unknown(code))
  }

  /** Each named constant translates to its own kind, e.g. `HAL_HANDLE_ERROR`
      to `HandleError`: the tables hold distinct codes, so no earlier arm
      catches it. */
  lemma FromCodeNamed(t: ErrorConstants, k: nat)
    requires t.Valid()
    ensures k < 7 ==> FromCode(t, t.NonNegativeCodes()[k]) == Hal(NonNegativeKinds[k])
    ensures k < 16 ==> FromCode(t, t.NegativeCodes()[k]) == Hal(NegativeKinds[k])
  {
    if k < 7 {
      var p := t.NonNegativeCodes();
      CastRoundTrip(p[k], 0);
      assert FirstMatch(p, p[k]) == k;
    }
    if k < 16 {
      var n := t.NegativeCodes();
      assert FirstMatch(n, n[k]) == k;
    }
  }

  /** A code absent from its sign's table becomes `Unknown` of that same code:
      the `as u32` / `as i32` round trip of the non-negative path keeps it. */
  lemma FromCodeUnknown(t: ErrorConstants, code: i32)
    requires code >= 0 ==> code !in t.NonNegativeCodes()
    requires code < 0 ==> code !in t.NegativeCodes()
    ensures FromCode(t, code) == Hal(Unknown(code))
  {
    CastRoundTrip(code, 0);
  }

  /** The status code a kind stands for: the reference the translation is
      checked against. */
  function CodeOf(t: ErrorConstants, f: FfiError): i32 {
    match f
    case SampleRateTooHigh => U32AsI32(t.sampleRateTooHigh)
    case VoltageOutOfRange => U32AsI32(t.voltageOutOfRange)
    case LoopTimingError => U32AsI32(t.loopTimingError)
    case SpiWriteNoMosi => U32AsI32(t.spiWriteNoMosi)
    case SpiReadNoMiso => U32AsI32(t.spiReadNoMiso)
    case SpiReadNoData => U32AsI32(t.spiReadNoData)
    case IncompatibleState => U32AsI32(t.incompatibleState)
    case NoAvailableResources => t.noAvailableResources
    case NullParameter => t.nullParameter
    case AnalogTriggerLimitOrderError => t.analogTriggerLimitOrderError
    case AnalogTriggerPuseOutputError => t.analogTriggerPulseOutputError
    case ParameterOutOfRange => t.parameterOutOfRange
    case ResourceIsAllocated => t.resourceIsAllocated
    case ResourceOutOfRange => t.resourceOutOfRange
    case InvalidAccumulatorChannel => t.invalidAccumulatorChannel
    case CounterNotSupported => t.counterNotSupported
    case PwmScaleError => t.pwmScaleError
    case HandleError => t.handleError
    case SerialPortNotFound => t.serialPortNotFound
    case SerialPortNotOpen => t.serialPortOpenError
    case SerialPortError => t.serialPortError
    case ThreadPriorityError => t.threadPriorityError
    case ThreadPriorityRangeError => t.threadPriorityRangeError
    case Unknown(c) => c
  }

  /** `CodeOf` reads each table position back. */
  lemma CodeOfTables(t: ErrorConstants)
    ensures forall i :: 0 <= i < 7 ==> CodeOf(t, NonNegativeKinds[i]) == U32AsI32(t.NonNegativeCodes()[i])
    ensures forall i :: 0 <= i < 16 ==> CodeOf(t, NegativeKinds[i]) == t.NegativeCodes()[i]
  {
  }

  /** Translation loses nothing: the code can be recovered from its error. */
  lemma FromCodeRecoversCode(t: ErrorConstants, code: i32)
    ensures CodeOf(t, FromCode(t, code).ffi) == code
  {
    CodeOfTables(t);
    CastRoundTrip(code, 0);
  }

  /** Distinct codes give distinct errors. */
  lemma FromCodeInjective(t: ErrorConstants, c1: i32, c2: i32)
    requires FromCode(t, c1) == FromCode(t, c2)
    ensures c1 == c2
  {
    FromCodeRecoversCode(t, c1);
    FromCodeRecoversCode(t, c2);
  }

  /** `From<NulError> for HalError`. */
  function FromNulError(err: NulError): (e: HalError)
    ensures e.NullError? && e.nul == err
  {
    NullError(err)
  }

  /** `From<Box<Error + Send + Sync>> for HalError`. */
  function FromBoxedError(description: string): (e: HalError)
    ensures e.Other? && e.description == description
  {
    Other(description)
  }

  /** The generated `*_MESSAGE` byte arrays `Display` reads its text from;
      their contents are not part of this model. */
  datatype MessageConstant =
    | SAMPLE_RATE_TOO_HIGH_MESSAGE
    | VOLTAGE_OUT_OF_RANGE_MESSAGE
    | LOOP_TIMING_ERROR_MESSAGE
    | SPI_WRITE_NO_MOSI_MESSAGE
    | SPI_READ_NO_MISO_MESSAGE
    | SPI_READ_NO_DATA_MESSAGE
    | INCOMPATIBLE_STATE_MESSAGE
    | NO_AVAILABLE_RESOURCES_MESSAGE
    | NULL_PARAMETER_MESSAGE
    | ANALOG_TRIGGER_LIMIT_ORDER_ERROR_MESSAGE
    | ANALOG_TRIGGER_PULSE_OUTPUT_ERROR_MESSAGE
    | PARAMETER_OUT_OF_RANGE_MESSAGE
    | RESOURCE_IS_ALLOCATED_MESSAGE
    | RESOURCE_OUT_OF_RANGE_MESSAGE
    | HAL_INVALID_ACCUMULATOR_CHANNEL_MESSAGE
    | HAL_COUNTER_NOT_SUPPORTED_MESSAGE
    | HAL_PWM_SCALE_ERROR_MESSAGE
    | HAL_HANDLE_ERROR_MESSAGE
    | HAL_SERIAL_PORT_NOT_FOUND_MESSAGE
    | HAL_SERIAL_PORT_OPEN_ERROR_MESSAGE
    | HAL_SERIAL_PORT_ERROR_MESSAGE

  /** A message as `Display` renders it: literal text, the text of a generated
      array, or the standard library's description of a `NulError`. */
  datatype Message = Text(text: string) | RawMessage(constant: MessageConstant) | NulErrorDescription

  const UNKNOWN_PREFIX: string := "Unknown error: "

  /** `Display for FfiError`. */
  function FfiMessage(e: FfiError): (m: Message)
    ensures e.Unknown? ==> m == Text(UNKNOWN_PREFIX + Decimal.IntToString(e.code))
    ensures e == ThreadPriorityError || e == ThreadPriorityRangeError ==> m == Text("?")
    ensures !e.Unknown? && e != ThreadPriorityError && e != ThreadPriorityRangeError ==> m.RawMessage?
  {
    match e
    case SampleRateTooHigh => RawMessage(SAMPLE_RATE_TOO_HIGH_MESSAGE)
    case VoltageOutOfRange => RawMessage(VOLTAGE_OUT_OF_RANGE_MESSAGE)
    case LoopTimingError => RawMessage(LOOP_TIMING_ERROR_MESSAGE)
    case SpiWriteNoMosi => RawMessage(SPI_WRITE_NO_MOSI_MESSAGE)
    case SpiReadNoMiso => RawMessage(SPI_READ_NO_MISO_MESSAGE)
    case SpiReadNoData => RawMessage(SPI_READ_NO_DATA_MESSAGE)
    case IncompatibleState => RawMessage(INCOMPATIBLE_STATE_MESSAGE)
    case NoAvailableResources => RawMessage(NO_AVAILABLE_RESOURCES_MESSAGE)
    case NullParameter => RawMessage(NULL_PARAMETER_MESSAGE)
    case AnalogTriggerLimitOrderError => RawMessage(ANALOG_TRIGGER_LIMIT_ORDER_ERROR_MESSAGE)
    case AnalogTriggerPuseOutputError => RawMessage(ANALOG_TRIGGER_PULSE_OUTPUT_ERROR_MESSAGE)
    case ParameterOutOfRange => RawMessage(PARAMETER_OUT_OF_RANGE_MESSAGE)
    case ResourceIsAllocated => RawMessage(RESOURCE_IS_ALLOCATED_MESSAGE)
    case ResourceOutOfRange => RawMessage(RESOURCE_OUT_OF_RANGE_MESSAGE)
    case InvalidAccumulatorChannel => RawMessage(HAL_INVALID_ACCUMULATOR_CHANNEL_MESSAGE)
    case CounterNotSupported => RawMessage(HAL_COUNTER_NOT_SUPPORTED_MESSAGE)
    case PwmScaleError => RawMessage(HAL_PWM_SCALE_ERROR_MESSAGE)
    case HandleError => RawMessage(HAL_HANDLE_ERROR_MESSAGE)
    case SerialPortNotFound => RawMessage(HAL_SERIAL_PORT_NOT_FOUND_MESSAGE)
    case SerialPortNotOpen => RawMessage(HAL_SERIAL_PORT_OPEN_ERROR_MESSAGE)
    case SerialPortError => RawMessage(HAL_SERIAL_PORT_ERROR_MESSAGE)
    case ThreadPriorityError => Text("?")
    case ThreadPriorityRangeError => Text("?")
    case Unknown(c) => Text(UNKNOWN_PREFIX + Decimal.IntToString(c))
  }

  /** The message of an `Unknown` error gives back its code, so two unknown
      codes never share a message. */
  lemma {:induction false} UnknownMessageHasCode(c: i32)
    ensures FfiMessage(Unknown(c)).text[..|UNKNOWN_PREFIX|] == UNKNOWN_PREFIX
    ensures Decimal.ParseInt(FfiMessage(Unknown(c)).text[|UNKNOWN_PREFIX|..]) == Some(c as int)
  {
    var m := FfiMessage(Unknown(c)).text;
    assert m[|UNKNOWN_PREFIX|..] == Decimal.IntToString(c);
    Decimal.IntToStringRoundTrip(c);
  }

  /** Each kind with a generated message reads a different generated array. */
  lemma RawMessagesDistinct(e1: FfiError, e2: FfiError)
    requires FfiMessage(e1).RawMessage? && FfiMessage(e1) == FfiMessage(e2)
    ensures e1 == e2
  {
  }

  /** `Error::description` of an `FfiError`. */
  const FFI_DESCRIPTION: string := "FFI returned bad status code"
  /** `Error::description` of a `HalError`. */
  const HAL_DESCRIPTION: string := "Error communicating with the HAL"

  /** `Display for HalError`.  For `Hal(_)` it shows the wrapped error's
      `description()`, not its `Display`, and for `Other` the boxed error's
      description. */
  function HalMessage(e: HalError): (m: Message)
    ensures e.Hal? ==> m == Text(FFI_DESCRIPTION)
    ensures e.NullError? ==> m == NulErrorDescription
    ensures e.Other? ==> m == Text(e.description)
    ensures !e.Hal? && !e.NullError? && !e.Other? ==> m.Text? && m.text != FFI_DESCRIPTION
  {
    match e
    case Hal(_) => Text(FFI_DESCRIPTION)
    case NullError(_) => NulErrorDescription
    case ResourceAlreadyInitialized => Text("Tried to create a resource that was already initialized")
    case HalNotInitialized => Text("HAL was not initialized, but a HAL function was invoked")
    case BadModuleType => Text("Module did not have the right device for type")
    case BadChannelType => Text("Channel did not have the right device for type")
    case WrongIoInterface => Text("Tried to give the incorrect type of handle to a robot IO function")
    case Other(d) => Text(d)
  }

  /** The `Hal(_)` message does not depend on the status code, while the five
      crate-local errors have five different messages. */
  lemma HalMessageProperties(f1: FfiError, f2: FfiError)
    ensures HalMessage(Hal(f1)) == HalMessage(Hal(f2))
    ensures var local := [ResourceAlreadyInitialized, HalNotInitialized, BadModuleType,
                          BadChannelType, WrongIoInterface];
            forall i, j :: 0 <= i < j < 5 ==> HalMessage(local[i]) != HalMessage(local[j])
  {
  }

  /** One native function call: its C name and its integer arguments. */
  datatype NativeCall = NativeCall(name: string, args: seq<int>)

  /** What `hal_call!` does once the native function has returned: status 0
      means success, anything else is translated (src/error.rs:20, 28). */
  function CheckStatus<T>(t: ErrorConstants, value: T, status: i32): (r: HalResult<T>)
    ensures r.Ok? <==> status == 0
    ensures r.Ok? ==> r.value == value
    ensures r.Err? ==> r.error == FromCode(t, status) && r.error.Hal?
  {
    if status == 0 then Ok(value) else Err(FromCode(t, status))
  }

  /** The `ptr` arm: `native` maps the value of the status cell it is handed
      to its return value and the value it leaves in the cell. */
  function PtrCall<T>(ready: bool, t: ErrorConstants, native: i32 -> (T, i32)): (r: HalResult<T>)
    ensures !ready ==> r == Err(HalNotInitialized)
    ensures ready ==> (r.Ok? <==> native(0).1 == 0)
    ensures ready && r.Ok? ==> r.value == native(0).0
    ensures ready && r.Err? ==> r.error == FromCode(t, native(0).1)
  {
    if ready then CheckStatus(t, native(0).0, native(0).1) else Err(HalNotInitialized)
  }

  /** The `ret` arm: `native` maps the memory its pointer arguments reach
      (`cell`) to that memory afterwards and the status it returns. */
  function RetCall<S>(ready: bool, t: ErrorConstants, native: S -> (S, i32), cell: S): (r: (HalResult<()>, S))
    ensures !ready ==> r == (Err(HalNotInitialized), cell)
    ensures ready ==> r.1 == native(cell).0
    ensures ready ==> (r.0.Ok? <==> native(cell).1 == 0)
    ensures ready && r.0.Err? ==> r.0.error == FromCode(t, native(cell).1)
  {
    if ready then (CheckStatus(t, (), native(cell).1), native(cell).0) else (Err(HalNotInitialized), cell)
  }

  /** `hal_call!(ret f(args, &mut cell))?; Ok(cell)`: the memory the call
      filled in, returned only when the call succeeded. */
  function RetFill<S>(ready: bool, t: ErrorConstants, native: S -> (S, i32), cell: S): (r: HalResult<S>)
    ensures !ready ==> r == Err(HalNotInitialized)
    ensures ready ==> (r.Ok? <==> native(cell).1 == 0)
    ensures ready && r.Ok? ==> r.value == native(cell).0
    ensures ready && r.Err? ==> r.error == FromCode(t, native(cell).1)
  {
    var (res, out) := RetCall(ready, t, native, cell);
    if res.Ok? then Ok(out) else Err(res.error)
  }

  /** `HalNotInitialized` comes only from the readiness check, never from a
      status code. */
  lemma NotInitializedOnlyWhenNotReady<T>(ready: bool, t: ErrorConstants, native: i32 -> (T, i32))
    ensures PtrCall(ready, t, native) == Err(HalNotInitialized) <==> !ready
  {
  }

  /** The native library as the crate sees it: the readiness flag that
      `hal_is_initialized()` reads, the generated status constants, and a log
      of the native functions called so far. */
  class HalLibrary {
    const codes: ErrorConstants
    var initialized: bool
    ghost var log: seq<NativeCall>

    constructor (codes: ErrorConstants, initialized: bool)
      ensures this.codes == codes && this.initialized == initialized && log == []
    {
      this.codes := codes;
      this.initialized := initialized;
      log := [];
    }

    /** Calls a native function: records the call and yields what it returns. */
    method Invoke<B>(call: NativeCall, outcome: B) returns (b: B)
      modifies this`log
      ensures b == outcome
      ensures log == old(log) + [call]
    {
      b := outcome;
      log := log + [call];
    }

    /** The body of the `ptr` arm once the readiness check has passed: a zeroed
        status cell, the call, and the inspection of the cell. */
    method CallWithStatusCell<T>(call: NativeCall, native: i32 -> (T, i32)) returns (r: HalResult<T>)
      modifies this`log
      ensures r == CheckStatus(codes, native(0).0, native(0).1)
      ensures log == old(log) + [call]
    {
      var status: i32 := 0;
      var outcome := Invoke(call, native(status));
      var result := outcome.0;
      status := outcome.1;
      if status == 0 {
        r := Ok(result);
      } else {
        r := Err(FromCode(codes, status));
      }
    }

    /** `hal_call!(ptr f(args))`. */
    method CallPtr<T>(call: NativeCall, native: i32 -> (T, i32)) returns (r: HalResult<T>)
      modifies this`log
      ensures r == PtrCall(initialized, codes, native)
      ensures log == old(log) + (if initialized then [call] else [])
    {
      if initialized {
        r := CallWithStatusCell(call, native);
      } else {
        r := Err(HalNotInitialized);
      }
    }

    /** `hal_call!(ret f(args))`; `out` is the memory the call leaves behind. */
    method CallRet<S>(call: NativeCall, native: S -> (S, i32), cell: S) returns (r: HalResult<()>, out: S)
      modifies this`log
      ensures (r, out) == RetCall(initialized, codes, native, cell)
      ensures log == old(log) + (if initialized then [call] else [])
    {
      if initialized {
        var outcome := Invoke(call, native(cell));
        out := outcome.0;
        var status := outcome.1;
        if status == 0 {
          r := Ok(());
        } else {
          r := Err(FromCode(codes, status));
        }
      } else {
        r, out := Err(HalNotInitialized), cell;
      }
    }

    /** `hal_call!(ret f(args, &mut cell))?` followed by `Ok(cell)`. */
    method CallRetFill<S>(call: NativeCall, native: S -> (S, i32), cell: S) returns (r: HalResult<S>)
      modifies this`log
      ensures r == RetFill(initialized, codes, native, cell)
      ensures log == old(log) + (if initialized then [call] else [])
    {
      var status, out := CallRet(call, native, cell);
      if status.Err? {
        return Err(status.error);
      }
      r := Ok(out);
    }
  }
}
