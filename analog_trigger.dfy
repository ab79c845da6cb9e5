/** The analog-trigger calls of src/hal/analog_trigger.rs. */
module AnalogTrigger {
  import opened Ints
  import opened Results
  import opened Raw
  import opened Error
  import opened Handles

  datatype AnalogTriggerType = InWindow | State | RisingPulse | FallingPulse

  /** `AnalogTriggerType::into_raw`. */
  function IntoRaw(t: AnalogTriggerType): RawAnalogTriggerType {
    match t
    case InWindow => HalTriggerInWindow
    case State => HalTriggerState
    case RisingPulse => HalTriggerRisingPulse
    case FallingPulse => HalTriggerFallingPulse
  }

  /** `From<RawAnalogTriggerType> for AnalogTriggerType`. */
  function FromRaw(raw: RawAnalogTriggerType): (t: AnalogTriggerType)
    ensures IntoRaw(t) == raw
  {
    match raw
    case HalTriggerInWindow => InWindow
    case HalTriggerState => State
    case HalTriggerRisingPulse => RisingPulse
    case HalTriggerFallingPulse => FallingPulse
  }

  lemma TriggerTypeRoundTrip(t: AnalogTriggerType, raw: RawAnalogTriggerType)
    ensures FromRaw(IntoRaw(t)) == t
    ensures IntoRaw(FromRaw(raw)) == raw
  {
  }

  /** The two kinds of trigger limits, each a half-open range `start..end`;
      voltages are carried as bit patterns. */
  datatype AnalogTriggerLimits = Raw(start: i32, end: i32) | Voltage(vStart: F64, vEnd: F64)

  /** The native call `set_limits` dispatches to. */
  function LimitsCall(handle: AnalogTriggerHandle, limits: AnalogTriggerLimits): (c: NativeCall)
    ensures limits.Raw? ==> c == NativeCall("HAL_SetAnalogTriggerLimitsRaw", [handle.raw, limits.start, limits.end])
    ensures limits.Voltage? ==> c == NativeCall("HAL_SetAnalogTriggerLimitsVoltage", [handle.raw, limits.vStart, limits.vEnd])
  {
    match limits
    case Raw(a, b) => NativeCall("HAL_SetAnalogTriggerLimitsRaw", [handle.raw, a, b])
    case Voltage(a, b) => NativeCall("HAL_SetAnalogTriggerLimitsVoltage", [handle.raw, a, b])
  }

  /** `set_limits`: raw limits go to the raw-limits function, voltages to the
      voltage one, each through the gated call. */
  method SetLimits(hal: HalLibrary, handle: AnalogTriggerHandle, limits: AnalogTriggerLimits,
                   rawNative: i32 -> ((), i32), voltageNative: i32 -> ((), i32))
    returns (r: HalResult<()>)
    modifies hal`log
    ensures r == PtrCall(hal.initialized, hal.codes, if limits.Raw? then rawNative else voltageNative)
    ensures hal.log == old(hal.log) + (if hal.initialized then [LimitsCall(handle, limits)] else [])
  {
    match limits {
      case Raw(a, b) =>
        r := hal.CallPtr(NativeCall("HAL_SetAnalogTriggerLimitsRaw", [handle.raw, a, b]), rawNative);
      case Voltage(a, b) =>
        r := hal.CallPtr(NativeCall("HAL_SetAnalogTriggerLimitsVoltage", [handle.raw, a, b]), voltageNative);
    }
  }

  /** `in_window`: the native `HAL_Bool` read as `n != 0`. */
  method InWindowQuery(hal: HalLibrary, handle: AnalogTriggerHandle, native: i32 -> (i32, i32))
    returns (r: HalResult<bool>)
    modifies hal`log
    ensures r == PtrCall(hal.initialized, hal.codes, native).Map(FromHalBool)
    ensures hal.log == old(hal.log) + (if hal.initialized then [NativeCall("HAL_GetAnalogTriggerInWindow", [handle.raw])] else [])
  {
    var n :- hal.CallPtr(NativeCall("HAL_GetAnalogTriggerInWindow", [handle.raw]), native);
    r := Ok(FromHalBool(n));
  }

  /** `get_state`. */
  method GetState(hal: HalLibrary, handle: AnalogTriggerHandle, native: i32 -> (i32, i32))
    returns (r: HalResult<bool>)
    modifies hal`log
    ensures r == PtrCall(hal.initialized, hal.codes, native).Map(FromHalBool)
    ensures hal.log == old(hal.log) + (if hal.initialized then [NativeCall("HAL_GetAnalogTriggerTriggerState", [handle.raw])] else [])
  {
    var n :- hal.CallPtr(NativeCall("HAL_GetAnalogTriggerTriggerState", [handle.raw]), native);
    r := Ok(FromHalBool(n));
  }

  /** A boolean query's cases: not ready, success with `n != 0`, or the
      translated status. */
  lemma BoolQueryCases(ready: bool, t: ErrorConstants, native: i32 -> (i32, i32))
    ensures var r := PtrCall(ready, t, native).Map(FromHalBool);
      && (!ready ==> r == Err(HalNotInitialized))
      && (ready && native(0).1 == 0 ==> r == Ok(native(0).0 != 0))
      && (ready && native(0).1 != 0 ==> r == Err(FromCode(t, native(0).1)))
  {
  }

  /** `get_output`: the native function also receives the raw trigger type.
      The log entry records only the handle: the raw trigger types are kept
      by name, without C values, so the type has no number to record. */
  method GetOutput(hal: HalLibrary, handle: AnalogTriggerHandle, triggerType: AnalogTriggerType,
                   native: (RawAnalogTriggerType, i32) -> (i32, i32))
    returns (r: HalResult<bool>)
    modifies hal`log
    ensures !hal.initialized ==> r == Err(HalNotInitialized)
    ensures hal.initialized ==>
      var (n, status) := native(IntoRaw(triggerType), 0);
      r == CheckStatus(hal.codes, n != 0, status)
    ensures hal.log == old(hal.log) + (if hal.initialized then [NativeCall("HAL_GetAnalogTriggerOutput", [handle.raw])] else [])
  {
    var tt := IntoRaw(triggerType);
    var n :- hal.CallPtr(NativeCall("HAL_GetAnalogTriggerOutput", [handle.raw]), s => native(tt, s));
    r := Ok(FromHalBool(n));
  }

  /** `if_activated`: `func` runs once when the output is `Ok(true)` and not at
      all otherwise, errors included; `calls` is how many times it ran. */
  method IfActivated(hal: HalLibrary, handle: AnalogTriggerHandle, triggerType: AnalogTriggerType,
                     native: (RawAnalogTriggerType, i32) -> (i32, i32))
    returns (calls: nat)
    modifies hal`log
    ensures calls <= 1
    ensures calls == 1 <==>
      hal.initialized && native(IntoRaw(triggerType), 0).1 == 0 && native(IntoRaw(triggerType), 0).0 != 0
    ensures hal.log == old(hal.log) + (if hal.initialized then [NativeCall("HAL_GetAnalogTriggerOutput", [handle.raw])] else [])
  {
    var output := GetOutput(hal, handle, triggerType, native);
    if output == Ok(true) {
      calls := 1;
    } else {
      calls := 0;
    }
  }
}
