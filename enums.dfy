/** The raw-to-typed enum maps of src/hal/enums.rs. */
module Enums {
  import opened Raw

  datatype AnalogTriggerType = InWindow | State | RisingPulse | FallingPulse

  /** `From<RawAnalogTriggerType> for AnalogTriggerType`. */
  function AnalogTriggerTypeFrom(raw: RawAnalogTriggerType): AnalogTriggerType {
    match raw
    case HalTriggerInWindow => InWindow
    case HalTriggerState => State
    case HalTriggerRisingPulse => RisingPulse
    case HalTriggerFallingPulse => FallingPulse
  }

  /** Distinct raw trigger types map to distinct variants. */
  lemma AnalogTriggerTypeFromInjective(a: RawAnalogTriggerType, b: RawAnalogTriggerType)
    ensures AnalogTriggerTypeFrom(a) == AnalogTriggerTypeFrom(b) ==> a == b
  {
  }

  datatype CounterMode = TwoPulse | Semiperiod | PulseLength | ExternalDirection

  /** `From<RawCounterMode> for CounterMode`: the source lists the arms in
      reverse, but each raw mode goes to the mode of the same name. */
  function CounterModeFrom(raw: RawCounterMode): CounterMode {
    match raw
    case HalCounterExternalDirection => ExternalDirection
    case HalCounterPulseLength => PulseLength
    case HalCounterSemiperiod => Semiperiod
    case HalCounterTwoPulse => TwoPulse
  }

  lemma CounterModeByName()
    ensures CounterModeFrom(HalCounterTwoPulse) == TwoPulse
    ensures CounterModeFrom(HalCounterSemiperiod) == Semiperiod
    ensures CounterModeFrom(HalCounterPulseLength) == PulseLength
    ensures CounterModeFrom(HalCounterExternalDirection) == ExternalDirection
  {
  }

  lemma CounterModeFromInjective(a: RawCounterMode, b: RawCounterMode)
    ensures CounterModeFrom(a) == CounterModeFrom(b) ==> a == b
  {
  }

  datatype RuntimeType = Native | Mock

  /** `From<RawRuntimeType> for RuntimeType`. */
  function RuntimeTypeFrom(raw: RawRuntimeType): (t: RuntimeType)
    ensures t == Native <==> raw.Discriminant() == 0
    ensures t == Mock <==> raw.Discriminant() == 1
  {
    match raw
    case HalAthena => Native
    case HalMock => Mock
  }

  datatype AccelerometerRange = AccelerometerRange2G | AccelerometerRange4G | AccelerometerRange8G

  /** `From<RawAccelerometerRange> for AccelerometerRange`. */
  function AccelerometerRangeFrom(raw: RawAccelerometerRange): AccelerometerRange {
    match raw
    case HalAccelerometerRange2G => AccelerometerRange2G
    case HalAccelerometerRange4G => AccelerometerRange4G
    case HalAccelerometerRange8G => AccelerometerRange8G
  }

  lemma AccelerometerRangeFromInjective(a: RawAccelerometerRange, b: RawAccelerometerRange)
    ensures AccelerometerRangeFrom(a) == AccelerometerRangeFrom(b) ==> a == b
  {
  }
}
