/** The C types and constants that the crate's build script has bindgen generate
    from the HAL headers into `raw.rs`.  That file is not part of this model:
    only what the headers and the Rust code show about these types is used. */
module Raw {
  import opened Ints

  predicate Distinct<T(==)>(s: seq<T>) {
    forall i, j :: 0 <= i < j < |s| ==> s[i] != s[j]
  }

  /** The 23 status-code constants the build script whitelists.  The 7 matched
      on the non-negative path are generated as `u32`, the 16 matched on the
      negative path as `i32`; their values are unknown here. */
  datatype ErrorConstants = ErrorConstants(
    sampleRateTooHigh: u32,
    voltageOutOfRange: u32,
    loopTimingError: u32,
    spiWriteNoMosi: u32,
    spiReadNoMiso: u32,
    spiReadNoData: u32,
    incompatibleState: u32,
    noAvailableResources: i32,
    nullParameter: i32,
    analogTriggerLimitOrderError: i32,
    analogTriggerPulseOutputError: i32,
    parameterOutOfRange: i32,
    resourceIsAllocated: i32,
    resourceOutOfRange: i32,
    invalidAccumulatorChannel: i32,
    counterNotSupported: i32,
    pwmScaleError: i32,
    handleError: i32,
    serialPortNotFound: i32,
    serialPortOpenError: i32,
    serialPortError: i32,
    threadPriorityError: i32,
    threadPriorityRangeError: i32)
  {
    /** The non-negative table, in the order the source matches it. */
    function NonNegativeCodes(): (s: seq<u32>)
      ensures |s| == 7
    {
      [sampleRateTooHigh, voltageOutOfRange, loopTimingError, spiWriteNoMosi,
       spiReadNoMiso, spiReadNoData, incompatibleState]
    }

    /** The negative table, in the order the source matches it. */
    function NegativeCodes(): (s: seq<i32>)
      ensures |s| == 16
    {
      [noAvailableResources, nullParameter, analogTriggerLimitOrderError,
       analogTriggerPulseOutputError, parameterOutOfRange, resourceIsAllocated,
       resourceOutOfRange, invalidAccumulatorChannel, counterNotSupported,
       pwmScaleError, handleError, serialPortNotFound, serialPortOpenError,
       serialPortError, threadPriorityError, threadPriorityRangeError]
    }

    /** What the model assumes of the constants: the two tables hold
        pairwise-distinct codes, non-negative status codes (so below 2^31)
        in the first and negative ones in the second. */
    predicate Valid() {
      && Distinct(NonNegativeCodes())
      && Distinct(NegativeCodes())
      && (forall k :: 0 <= k < 7 ==> NonNegativeCodes()[k] < 0x8000_0000)
      && (forall k :: 0 <= k < 16 ==> NegativeCodes()[k] < 0)
    }
  }

  /** `enum HAL_EncoderIndexingType` (headers/HAL/Encoder.h). */
  datatype RawIndexingType =
    HalResetWhileHigh | HalResetWhileLow | HalResetOnFallingEdge | HalResetOnRisingEdge
  {
    /** The value C gives the enumerator: its position in the declaration. */
    function Discriminant(): (n: int)
      ensures 0 <= n < 4
    {
      match this
      case HalResetWhileHigh => 0
      case HalResetWhileLow => 1
      case HalResetOnFallingEdge => 2
      case HalResetOnRisingEdge => 3
    }
  }

  /** `enum HAL_EncoderEncodingType` (headers/HAL/Encoder.h). */
  datatype RawEncodingType = HalEncoder1X | HalEncoder2X | HalEncoder4X
  {
    function Discriminant(): (n: int)
      ensures 0 <= n < 3
    {
      match this
      case HalEncoder1X => 0
      case HalEncoder2X => 1
      case HalEncoder4X => 2
    }
  }

  /** `enum HAL_RuntimeType` (headers/HAL/HAL.h). */
  datatype RawRuntimeType = HalAthena | HalMock
  {
    function Discriminant(): (n: int)
      ensures 0 <= n < 2
    {
      match this
      case HalAthena => 0
      case HalMock => 1
    }
  }

  /** `HAL_AnalogTriggerType`; its header is not part of this model, so no
      numbering is given. */
  datatype RawAnalogTriggerType =
    HalTriggerInWindow | HalTriggerState | HalTriggerRisingPulse | HalTriggerFallingPulse

  /** `HAL_Counter_Mode`; its header is not part of this model. */
  datatype RawCounterMode =
    HalCounterTwoPulse | HalCounterSemiperiod | HalCounterPulseLength | HalCounterExternalDirection

  /** `HAL_AccelerometerRange`; its header is not part of this model. */
  datatype RawAccelerometerRange =
    HalAccelerometerRange2G | HalAccelerometerRange4G | HalAccelerometerRange8G

  /** `HAL_AllianceStationID`, as the six variants the crate matches. */
  datatype RawAllianceStationId =
    HalRed1 | HalRed2 | HalRed3 | HalBlue1 | HalBlue2 | HalBlue3

  /** Fixed-size C arrays of `MAX_JOYSTICK_AXES` / `MAX_JOYSTICK_POVS` = 12 entries. */
  type FloatArray12 = s: seq<F32> | |s| == 12 witness seq(12, _ => 0)
  type I16Array12 = s: seq<i16> | |s| == 12 witness seq(12, _ => 0)
  type U8Array12 = s: seq<u8> | |s| == 12 witness seq(12, _ => 0)

  /** `HAL_ControlWord`: six one-bit flags packed in one 32-bit bitfield unit. */
  datatype RawControlWord = RawControlWord(bitfield: bv32)

  /** The results of bindgen's bitfield accessors on a `HAL_ControlWord`
      (`enabled()`, ..., `dsAttached()`); the accessor bodies are generated
      and not part of this model, so the model takes their results. */
  datatype RawControlWordAccessors = RawControlWordAccessors(
    enabled: u32, autonomous: u32, test: u32, eStop: u32, fmsAttached: u32, dsAttached: u32)

  datatype RawJoystickAxes = RawJoystickAxes(count: i16, axes: FloatArray12)
  datatype RawJoystickPovs = RawJoystickPovs(count: i16, povs: I16Array12)
  datatype RawJoystickButtons = RawJoystickButtons(buttons: bv32, count: u8)

  /** `HAL_JoystickDescriptor` without its 256-byte name. */
  datatype RawJoystickDescriptor = RawJoystickDescriptor(
    isXbox: u8, joystickType: u8, axisCount: u8, axisTypes: U8Array12,
    buttonCount: u8, povCount: u8)

  /** The all-zero descriptor `mem::zeroed()` produces. */
  function ZeroedDescriptor(): (d: RawJoystickDescriptor)
    ensures d.isXbox == d.joystickType == d.axisCount == d.buttonCount == d.povCount == 0
    ensures forall i :: 0 <= i < 12 ==> d.axisTypes[i] == 0
  {
    RawJoystickDescriptor(0, 0, 0, seq(12, _ => 0), 0, 0)
  }
}
