/** The encoder enums of src/hal/encoder.rs and their conversions to and from
    the HAL's C enums (headers/HAL/Encoder.h). */
module Encoder {
  import opened Ints
  import opened Results
  import opened Raw
  import opened Error

  datatype IndexingType = ResetWhileHigh | ResetWhileLow | ResetOnFallingEdge | ResetOnRisingEdge

  /** `From<RawIndexingType> for IndexingType`. */
  function IndexingFromRaw(raw: RawIndexingType): (t: IndexingType)
    ensures IndexingToRaw(t) == raw
  {
    match raw
    case HalResetWhileHigh => ResetWhileHigh
    case HalResetWhileLow => ResetWhileLow
    case HalResetOnFallingEdge => ResetOnFallingEdge
    case HalResetOnRisingEdge => ResetOnRisingEdge
  }

  /** `From<IndexingType> for RawIndexingType`. */
  function IndexingToRaw(t: IndexingType): RawIndexingType {
    match t
    case ResetWhileHigh => HalResetWhileHigh
    case ResetWhileLow => HalResetWhileLow
    case ResetOnFallingEdge => HalResetOnFallingEdge
    case ResetOnRisingEdge => HalResetOnRisingEdge
  }

  /** The two conversions are inverse to each other, so each is a bijection. */
  lemma IndexingRoundTrip(t: IndexingType, raw: RawIndexingType)
    ensures IndexingFromRaw(IndexingToRaw(t)) == t
    ensures IndexingToRaw(IndexingFromRaw(raw)) == raw
  {
  }

  /** The raw values follow the C declaration order: 0 to 3. */
  lemma IndexingNumbering()
    ensures IndexingToRaw(ResetWhileHigh).Discriminant() == 0
    ensures IndexingToRaw(ResetWhileLow).Discriminant() == 1
    ensures IndexingToRaw(ResetOnFallingEdge).Discriminant() == 2
    ensures IndexingToRaw(ResetOnRisingEdge).Discriminant() == 3
  {
  }

  datatype EncodingType = Encoder1X | Encoder2X | Encoder4X

  /** `From<RawEncodingType> for EncodingType`. */
  function EncodingFromRaw(raw: RawEncodingType): (t: EncodingType)
    ensures EncodingToRaw(t) == raw
  {
    match raw
    case HalEncoder1X => Encoder1X
    case HalEncoder2X => Encoder2X
    case HalEncoder4X => Encoder4X
  }

  /** `From<EncodingType> for RawEncodingType`. */
  function EncodingToRaw(t: EncodingType): RawEncodingType {
    match t
    case Encoder1X => HalEncoder1X
    case Encoder2X => HalEncoder2X
    case Encoder4X => HalEncoder4X
  }

  lemma EncodingRoundTrip(t: EncodingType, raw: RawEncodingType)
    ensures EncodingFromRaw(EncodingToRaw(t)) == t
    ensures EncodingToRaw(EncodingFromRaw(raw)) == raw
  {
  }

  /** k1X, k2X and k4X are 0, 1 and 2. */
  lemma EncodingNumbering()
    ensures EncodingToRaw(Encoder1X).Discriminant() == 0
    ensures EncodingToRaw(Encoder2X).Discriminant() == 1
    ensures EncodingToRaw(Encoder4X).Discriminant() == 2
  {
  }

  /** `get_encoding_type`: the gated call, then the conversion of a success;
      an error passes through unchanged. */
  method GetEncodingType(hal: HalLibrary, handle: i32, native: i32 -> (RawEncodingType, i32))
    returns (r: HalResult<EncodingType>)
    modifies hal`log
    ensures r == PtrCall(hal.initialized, hal.codes, native).Map(EncodingFromRaw)
    ensures hal.log == old(hal.log) + (if hal.initialized then [NativeCall("HAL_GetEncoderEncodingType", [handle])] else [])
  {
    var raw :- hal.CallPtr(NativeCall("HAL_GetEncoderEncodingType", [handle]), native);
    r := Ok(EncodingFromRaw(raw));
  }

  /** What `get_encoding_type` returns, case by case. */
  lemma GetEncodingTypeCases(ready: bool, t: ErrorConstants, native: i32 -> (RawEncodingType, i32))
    ensures var r := PtrCall(ready, t, native).Map(EncodingFromRaw);
      && (!ready ==> r == Err(HalNotInitialized))
      && (ready && native(0).1 == 0 ==> r == Ok(EncodingFromRaw(native(0).0)))
      && (ready && native(0).1 != 0 ==> r == Err(FromCode(t, native(0).1)))
  {
  }
}
