/** The driver-station layer (src/hal/driverstation.rs): decoding the
    control word, the alliance-station mapping, and the joystick queries
    built on the gated `ret` call.  The records and the conversions this file
    shares with src/hal/structs.rs come from `Structs`. */
module DriverStation {
  import opened Ints
  import opened Results
  import opened Raw
  import opened Error
  import opened Structs

  /** Bit positions of the six flags in the raw control word. */
  const ENABLED_OFFSET: i32 := 0
  const AUTONOMOUS_OFFSET: i32 := 1
  const TEST_OFFSET: i32 := 2
  const STOPPED_OFFSET: i32 := 3
  const FMS_ATTACHED_OFFSET: i32 := 4
  const DS_ATTACHED_OFFSET: i32 := 5

  /** A `u32` shifted left by an `i32` amount in a debug build: `None` stands
      for the overflow panic when the amount is outside 0..32. */
  function CheckedShl(x: bv32, n: i32): (r: Option<bv32>)
    ensures r.Some? <==> 0 <= n < 32
  {
    if 0 <= n < 32 then Some(x << n) else None
  }

  /** The same for a right shift. */
  function CheckedShr(x: bv32, n: i32): (r: Option<bv32>)
    ensures r.Some? <==> 0 <= n < 32
  {
    if 0 <= n < 32 then Some(x >> n) else None
  }

  /** `extract_field(word, offset)`, parsed as Rust parses it:
      `(bitfield & (2 << (offset - 1))) >> offset`.  `None` means the
      expression panics, which it does exactly for offsets outside 1 to 31,
      ENABLED_OFFSET = 0 among them. */
  function ExtractField(word: RawControlWord, offset: i32): (r: Option<u32>)
    ensures r.Some? <==> 1 <= offset < 32
  {
    if offset == -0x8000_0000 then None  // `offset - 1` overflows
    else
    match CheckedShl(2, offset - 1)
    case None => None
    case Some(mask) =>
      match CheckedShr(word.bitfield & mask, offset)
      case None => None
      case Some(v) => Some(v as int)
  }

  /** For offsets 1 to 31 the expression reads bit `offset`, so its value is
      0 or 1. */
  lemma ExtractFieldReadsBit(word: RawControlWord, offset: i32)
    ensures 1 <= offset < 32 ==> ExtractField(word, offset) == Some(if Bit(word.bitfield, offset as nat) then 1 else 0)
  {
    if 1 <= offset < 32 {
      var o: nat := offset as nat;
      var one: bv32 := (1 as bv32) << o;
      ShiftTwo(o);
      var v := (word.bitfield & one) >> o;
      OneBitShift(word.bitfield, o);
      var bit := if Bit(word.bitfield, o) then 1 else 0;
      assert v as int == bit;
      calc {
        ExtractField(word, offset);
        match CheckedShr(word.bitfield & one, offset)
        case None => None
        case Some(v) => Some(v as int);
        Some(v as int);
      }
    }
  }

  lemma ShiftTwo(o: nat)
    requires 1 <= o < 32
    ensures (2 as bv32) << (o - 1) == (1 as bv32) << o
  {
  }

  lemma OneBitShift(w: bv32, o: nat)
    requires o < 32
    ensures (w & ((1 as bv32) << o)) >> o == (if w & ((1 as bv32) << o) != 0 then 1 else 0)
  {
  }

  /** `From<RawControlWord> for ControlWord` as written: `None` stands for the
      panic of any of its six `extract_field` calls. */
  function ControlWordFrom(raw: RawControlWord): (r: Option<ControlWord>)
  {
    match (ExtractField(raw, ENABLED_OFFSET), ExtractField(raw, AUTONOMOUS_OFFSET),
           ExtractField(raw, TEST_OFFSET), ExtractField(raw, STOPPED_OFFSET),
           ExtractField(raw, FMS_ATTACHED_OFFSET), ExtractField(raw, DS_ATTACHED_OFFSET))
    case (Some(e), Some(a), Some(t), Some(s), Some(f), Some(d)) =>
      Some(Structs.ControlWord(e != 0, a != 0, t != 0, s != 0, f != 0, d != 0))
    case _ => None
  }

  /** Because ENABLED_OFFSET is 0, the first call shifts by -1: the as-written
      conversion panics on every control word. */
  lemma ControlWordFromAlwaysPanics(raw: RawControlWord)
    ensures ExtractField(raw, ENABLED_OFFSET) == None
    ensures ControlWordFrom(raw) == None
  {
    ExtractFieldReadsBit(raw, ENABLED_OFFSET);
  }

  /** The evidently intended `extract_field`: bit `offset` of the bitfield. */
  function ExtractFieldFixed(word: RawControlWord, offset: i32): (r: u32)
    requires 0 <= offset < 32
    ensures r <= 1
    ensures r == 1 <==> Bit(word.bitfield, offset as nat)
    ensures 1 <= offset ==> ExtractField(word, offset) == Some(r)
  {
    ExtractFieldReadsBit(word, offset);
    if Bit(word.bitfield, offset as nat) then 1 else 0
  }

  /** The conversion with the intended `extract_field`: each flag is the bit
      at its offset. */
  function ControlWordFromFixed(raw: RawControlWord): (w: ControlWord)
    ensures w.enabled == Bit(raw.bitfield, 0) && w.autonomous == Bit(raw.bitfield, 1)
    ensures w.test == Bit(raw.bitfield, 2) && w.stopped == Bit(raw.bitfield, 3)
    ensures w.fmsAttached == Bit(raw.bitfield, 4) && w.dsAttached == Bit(raw.bitfield, 5)
  {
    Structs.ControlWord(
      ExtractFieldFixed(raw, ENABLED_OFFSET) != 0,
      ExtractFieldFixed(raw, AUTONOMOUS_OFFSET) != 0,
      ExtractFieldFixed(raw, TEST_OFFSET) != 0,
      ExtractFieldFixed(raw, STOPPED_OFFSET) != 0,
      ExtractFieldFixed(raw, FMS_ATTACHED_OFFSET) != 0,
      ExtractFieldFixed(raw, DS_ATTACHED_OFFSET) != 0)
  }

  /** The zeroed word `get_control_word` starts from decodes to `all_off()`,
      and a word with only the enabled bit set decodes to "enabled" alone. */
  lemma ControlWordFromFixedExamples()
    ensures ControlWordFromFixed(RawControlWord(0)) == AllOff()
    ensures ControlWordFromFixed(RawControlWord(1)) == AllOff().(enabled := true)
  {
  }

  /** Where the driver station is on the field. */
  datatype AllianceStation = Red(position: u8) | Blue(position: u8) | Invalid

  /** The alliance-station mapping of `get_alliance_station`. */
  function AllianceFromRaw(id: RawAllianceStationId): (s: AllianceStation)
    ensures !s.Invalid? && 1 <= s.position <= 3
    ensures s.Red? <==> (id == HalRed1 || id == HalRed2 || id == HalRed3)
  {
    match id
    case HalRed1 => Red(1)
    case HalRed2 => Red(2)
    case HalRed3 => Red(3)
    case HalBlue1 => Blue(1)
    case HalBlue2 => Blue(2)
    case HalBlue3 => Blue(3)
  }

  /** The raw identifier a station stands for: the mapping's inverse. */
  function AllianceToRaw(s: AllianceStation): (id: Option<RawAllianceStationId>)
    ensures id.None? <==> s.Invalid? || !(1 <= s.position <= 3)
  {
    match s
    case Red(1) => Some(HalRed1)
    case Red(2) => Some(HalRed2)
    case Red(3) => Some(HalRed3)
    case Blue(1) => Some(HalBlue1)
    case Blue(2) => Some(HalBlue2)
    case Blue(3) => Some(HalBlue3)
    case _ => None
  }

  /** Each raw identifier maps to its own station, and back. */
  lemma {:induction false} AllianceRoundTrip(id: RawAllianceStationId, s: AllianceStation)
    ensures AllianceToRaw(AllianceFromRaw(id)) == Some(id)
    ensures AllianceToRaw(s).Some? ==> AllianceFromRaw(AllianceToRaw(s).value) == s
  {
  }

  /** The zeroed C structs the queries hand to the HAL. */
  function ZeroedAxes(): RawJoystickAxes { RawJoystickAxes(0, seq(12, _ => 0)) }
  function ZeroedPovs(): RawJoystickPovs { RawJoystickPovs(0, seq(12, _ => 0)) }
  function ZeroedButtons(): RawJoystickButtons { RawJoystickButtons(0, 0) }

  /** `get_joystick_descriptor`: fill a zeroed descriptor, then convert it. */
  method GetJoystickDescriptor(hal: HalLibrary, joystickNum: i32, native: RawJoystickDescriptor -> (RawJoystickDescriptor, i32))
    returns (r: HalResult<JoystickDescriptor>)
    modifies hal`log
    ensures r == RetFill(hal.initialized, hal.codes, native, ZeroedDescriptor()).Map(DescriptorFrom)
    ensures hal.log == old(hal.log) + (if hal.initialized then [NativeCall("HAL_GetJoystickDescriptor", [joystickNum])] else [])
  {
    var raw :- hal.CallRetFill(NativeCall("HAL_GetJoystickDescriptor", [joystickNum]), native, ZeroedDescriptor());
    r := Ok(DescriptorFrom(raw));
  }

  /** `get_joystick_is_xbox`. */
  method GetJoystickIsXbox(hal: HalLibrary, joystickNum: i32, native: RawJoystickDescriptor -> (RawJoystickDescriptor, i32))
    returns (r: HalResult<bool>)
    modifies hal`log
    ensures r == RetFill(hal.initialized, hal.codes, native, ZeroedDescriptor()).Map(DescriptorFrom).Map((d: JoystickDescriptor) => d.isXbox)
    ensures hal.log == old(hal.log) + (if hal.initialized then [NativeCall("HAL_GetJoystickDescriptor", [joystickNum])] else [])
  {
    var d :- GetJoystickDescriptor(hal, joystickNum, native);
    r := Ok(d.isXbox);
  }

  /** `get_joystick_type`; `JoystickType::from` on a `JoystickType` is the
      identity. */
  method GetJoystickType(hal: HalLibrary, joystickNum: i32, native: RawJoystickDescriptor -> (RawJoystickDescriptor, i32))
    returns (r: HalResult<JoystickType>)
    modifies hal`log
    ensures r == RetFill(hal.initialized, hal.codes, native, ZeroedDescriptor()).Map(DescriptorFrom).Map((d: JoystickDescriptor) => d.stickType)
    ensures hal.log == old(hal.log) + (if hal.initialized then [NativeCall("HAL_GetJoystickDescriptor", [joystickNum])] else [])
  {
    var d :- GetJoystickDescriptor(hal, joystickNum, native);
    r := Ok(d.stickType);
  }

  /** `get_joystick_axis_type`: a negative axis is refused before the
      descriptor is fetched; otherwise the descriptor is fetched, its error
      returned by `?`, and the axis type read from it.  An axis of 12 or more
      indexes past `axis_types` and panics, but only once the fetch succeeded. */
  method GetJoystickAxisType(hal: HalLibrary, joystickNum: i32, axis: i32,
                             native: RawJoystickDescriptor -> (RawJoystickDescriptor, i32))
    returns (r: Outcome<HalResult<JoystickType>>)
    modifies hal`log
    ensures axis < 0 ==> r == Returns(Err(Hal(ParameterOutOfRange))) && hal.log == old(hal.log)
    ensures axis >= 0 ==>
      var fetched := RetFill(hal.initialized, hal.codes, native, ZeroedDescriptor());
      && (fetched.Err? ==> r == Returns(Err(fetched.error)))
      && (fetched.Ok? && axis < 12 ==> r == Returns(Ok(JoystickType.Unknown(fetched.value.axisTypes[axis]))))
      && (fetched.Ok? && axis >= 12 ==> r == Panics)
      && hal.log == old(hal.log) + (if hal.initialized then [NativeCall("HAL_GetJoystickDescriptor", [joystickNum])] else [])
  {
    if axis >= 0 {
      var d := GetJoystickDescriptor(hal, joystickNum, native);
      if d.Err? {
        r := Returns(Err(d.error));
      } else if axis < 12 {
        r := Returns(Ok(JoystickTypeFrom(U8AsI32(d.value.axisTypes[axis]))));
      } else {
        r := Panics;
      }
    } else {
      r := Returns(Err(Hal(ParameterOutOfRange)));
    }
  }

  /** `get_joystick_axes`. */
  method GetJoystickAxes(hal: HalLibrary, joystickNum: i32, native: RawJoystickAxes -> (RawJoystickAxes, i32))
    returns (r: HalResult<JoystickAxes>)
    modifies hal`log
    ensures r == RetFill(hal.initialized, hal.codes, native, ZeroedAxes()).Map(AxesFrom)
    ensures hal.log == old(hal.log) + (if hal.initialized then [NativeCall("HAL_GetJoystickAxes", [joystickNum])] else [])
  {
    var raw :- hal.CallRetFill(NativeCall("HAL_GetJoystickAxes", [joystickNum]), native, ZeroedAxes());
    r := Ok(AxesFrom(raw));
  }

  /** `get_joystick_povs`. */
  method GetJoystickPovs(hal: HalLibrary, joystickNum: i32, native: RawJoystickPovs -> (RawJoystickPovs, i32))
    returns (r: HalResult<JoystickPovs>)
    modifies hal`log
    ensures r == RetFill(hal.initialized, hal.codes, native, ZeroedPovs()).Map(PovsFrom)
    ensures hal.log == old(hal.log) + (if hal.initialized then [NativeCall("HAL_GetJoystickPOVs", [joystickNum])] else [])
  {
    var raw :- hal.CallRetFill(NativeCall("HAL_GetJoystickPOVs", [joystickNum]), native, ZeroedPovs());
    r := Ok(PovsFrom(raw));
  }

  /** `get_joystick_buttons` as written: the fetched mask goes through
      `JoystickButtons::from`, whose test reads only entry 0. */
  method GetJoystickButtons(hal: HalLibrary, joystickNum: i32, native: RawJoystickButtons -> (RawJoystickButtons, i32))
    returns (r: HalResult<JoystickButtons>)
    modifies hal`log
    ensures var fetched := RetFill(hal.initialized, hal.codes, native, ZeroedButtons());
      && (r.Ok? <==> fetched.Ok?)
      && (r.Err? ==> r.error == fetched.error)
      && (r.Ok? ==> r.value.count == 32 && |r.value.buttonsDown| == 32 &&
                    forall i :: 0 <= i < 32 ==> r.value.buttonsDown[i] == ButtonTestAsWritten(fetched.value.buttons, i))
      && (r.Ok? ==> r.value.buttonsDown[0] == Bit(fetched.value.buttons, 0) &&
                    forall i :: 1 <= i < 32 ==> !r.value.buttonsDown[i])
    ensures hal.log == old(hal.log) + (if hal.initialized then [NativeCall("HAL_GetJoystickButtons", [joystickNum])] else [])
  {
    var raw :- hal.CallRetFill(NativeCall("HAL_GetJoystickButtons", [joystickNum]), native, ZeroedButtons());
    var b := ButtonsFrom(raw);
    r := Ok(b);
  }

  /** `get_joystick_buttons` with the intended button test. */
  method GetJoystickButtonsFixed(hal: HalLibrary, joystickNum: i32, native: RawJoystickButtons -> (RawJoystickButtons, i32))
    returns (r: HalResult<JoystickButtons>)
    modifies hal`log
    ensures var fetched := RetFill(hal.initialized, hal.codes, native, ZeroedButtons());
      && (r.Ok? <==> fetched.Ok?)
      && (r.Err? ==> r.error == fetched.error)
      && (r.Ok? ==> r.value.count == 32 && |r.value.buttonsDown| == 32 &&
                    forall i :: 0 <= i < 32 ==> r.value.buttonsDown[i] == Bit(fetched.value.buttons, i))
    ensures hal.log == old(hal.log) + (if hal.initialized then [NativeCall("HAL_GetJoystickButtons", [joystickNum])] else [])
  {
    var raw :- hal.CallRetFill(NativeCall("HAL_GetJoystickButtons", [joystickNum]), native, ZeroedButtons());
    var b := ButtonsFromFixed(raw);
    r := Ok(b);
  }

  /** `get_control_word` as written: the gated fetch, then
      `ControlWord::from`, which panics on every word.  So the call either
      returns the fetch's error or panics; it never returns a control word. */
  method GetControlWord(hal: HalLibrary, native: RawControlWord -> (RawControlWord, i32))
    returns (r: Outcome<HalResult<ControlWord>>)
    modifies hal`log
    ensures var fetched := RetFill(hal.initialized, hal.codes, native, RawControlWord(0));
      && (fetched.Err? ==> r == Returns(Err(fetched.error)))
      && (fetched.Ok? ==> r == Panics)
    ensures hal.log == old(hal.log) + (if hal.initialized then [NativeCall("HAL_GetControlWord", [])] else [])
  {
    var raw := hal.CallRetFill(NativeCall("HAL_GetControlWord", []), native, RawControlWord(0));
    if raw.Err? {
      r := Returns(Err(raw.error));
    } else {
      match ControlWordFrom(raw.value) {
        case Some(w) => r := Returns(Ok(w));
        case None => r := Panics;
      }
    }
  }

  /** `get_control_word` with the intended decoding. */
  method GetControlWordFixed(hal: HalLibrary, native: RawControlWord -> (RawControlWord, i32))
    returns (r: HalResult<ControlWord>)
    modifies hal`log
    ensures r == RetFill(hal.initialized, hal.codes, native, RawControlWord(0)).Map(ControlWordFromFixed)
    ensures hal.log == old(hal.log) + (if hal.initialized then [NativeCall("HAL_GetControlWord", [])] else [])
  {
    var raw :- hal.CallRetFill(NativeCall("HAL_GetControlWord", []), native, RawControlWord(0));
    r := Ok(ControlWordFromFixed(raw));
  }

  /** `get_alliance_station`: the gated `ptr` call, then the mapping. */
  method GetAllianceStation(hal: HalLibrary, native: i32 -> (RawAllianceStationId, i32))
    returns (r: HalResult<AllianceStation>)
    modifies hal`log
    ensures r == PtrCall(hal.initialized, hal.codes, native).Map(AllianceFromRaw)
    ensures r.Ok? ==> !r.value.Invalid?
    ensures hal.log == old(hal.log) + (if hal.initialized then [NativeCall("HAL_GetAllianceStation", [])] else [])
  {
    var id :- hal.CallPtr(NativeCall("HAL_GetAllianceStation", []), native);
    r := Ok(AllianceFromRaw(id));
  }
}
