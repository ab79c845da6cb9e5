/** The driver-station records of src/hal/structs.rs and their conversions
    from the HAL's C structs.  src/hal/driverstation.rs repeats the same
    records and several of the same conversions; they are defined once, here,
    and the driver-station module uses them. */
module Structs {
  import opened Ints
  import opened Raw

  /** Number of buttons a `HAL_JoystickButtons` bitmask can hold. */
  const BUTTON_SLOTS: nat := 32

  /** What modes the driver station is in. */
  datatype ControlWord = ControlWord(
    enabled: bool, autonomous: bool, test: bool, stopped: bool,
    fmsAttached: bool, dsAttached: bool)

  /** `ControlWord::all_off()`. */
  function AllOff(): (w: ControlWord)
    ensures !w.enabled && !w.autonomous && !w.test && !w.stopped
    ensures !w.fmsAttached && !w.dsAttached
  {
    ControlWord(false, false, false, false, false, false)
  }

  /** `From<HAL_ControlWord> for ControlWord` in this file: each flag is
      "the bindgen accessor is nonzero", and `stopped` comes from `eStop`. */
  function ControlWordFromAccessors(raw: RawControlWordAccessors): (w: ControlWord)
    ensures w.enabled == (raw.enabled != 0) && w.autonomous == (raw.autonomous != 0)
    ensures w.test == (raw.test != 0) && w.stopped == (raw.eStop != 0)
    ensures w.fmsAttached == (raw.fmsAttached != 0) && w.dsAttached == (raw.dsAttached != 0)
  {
    ControlWord(raw.enabled != 0, raw.autonomous != 0, raw.test != 0, raw.eStop != 0,
                raw.fmsAttached != 0, raw.dsAttached != 0)
  }

  function BoolToBit(b: bool): u32 {
    if b then 1 else 0
  }

  /** The one-bit accessor values a control word stands for. */
  function ToAccessors(w: ControlWord): (raw: RawControlWordAccessors)
    ensures raw.enabled <= 1 && raw.autonomous <= 1 && raw.test <= 1
    ensures raw.eStop <= 1 && raw.fmsAttached <= 1 && raw.dsAttached <= 1
  {
    RawControlWordAccessors(BoolToBit(w.enabled), BoolToBit(w.autonomous), BoolToBit(w.test),
                            BoolToBit(w.stopped), BoolToBit(w.fmsAttached), BoolToBit(w.dsAttached))
  }

  /** The accessors read one-bit fields, so on their possible values the
      conversion loses nothing and the all-zero word is `all_off()`. */
  lemma ControlWordAccessorsRoundTrip(raw: RawControlWordAccessors, w: ControlWord)
    ensures ControlWordFromAccessors(ToAccessors(w)) == w
    ensures raw.enabled <= 1 && raw.autonomous <= 1 && raw.test <= 1 &&
            raw.eStop <= 1 && raw.fmsAttached <= 1 && raw.dsAttached <= 1
            ==> ToAccessors(ControlWordFromAccessors(raw)) == raw
    ensures ControlWordFromAccessors(RawControlWordAccessors(0, 0, 0, 0, 0, 0)) == AllOff()
  {
  }

  /** Joystick axis values, as the HAL reports them. */
  datatype JoystickAxes = JoystickAxes(axes: FloatArray12, count: i16)

  /** Joystick POV angles, in degrees. */
  datatype JoystickPovs = JoystickPovs(povs: I16Array12, count: i16)

  /** Which of the 32 buttons are down. */
  datatype JoystickButtons = JoystickButtons(buttonsDown: seq<bool>, count: u16)

  /** The joystick type: the crate only knows it as a number. */
  datatype JoystickType = Unknown(code: i32)

  /** A joystick descriptor; its name is not modelled. */
  datatype JoystickDescriptor = JoystickDescriptor(
    isXbox: bool, stickType: JoystickType, buttonCount: u8, axisCount: u8,
    axisTypes: U8Array12, povCount: u8)

  /** `From<HAL_JoystickAxes> for JoystickAxes`. */
  function AxesFrom(raw: RawJoystickAxes): (a: JoystickAxes)
    ensures a.count == raw.count && a.axes == raw.axes
  {
    JoystickAxes(raw.axes, raw.count)
  }

  /** `From<HAL_JoystickPOVs> for JoystickPovs`. */
  function PovsFrom(raw: RawJoystickPovs): (p: JoystickPovs)
    ensures p.count == raw.count && p.povs == raw.povs
  {
    JoystickPovs(raw.povs, raw.count)
  }

  /** The copies lose nothing: distinct raw records stay distinct. */
  lemma CopiesInjective(r1: RawJoystickAxes, r2: RawJoystickAxes, q1: RawJoystickPovs, q2: RawJoystickPovs)
    ensures AxesFrom(r1) == AxesFrom(r2) ==> r1 == r2
    ensures PovsFrom(q1) == PovsFrom(q2) ==> q1 == q2
  {
  }

  /** `From<i32> for JoystickType`: every number is an unknown type. */
  function JoystickTypeFrom(k: i32): (t: JoystickType)
    ensures t.Unknown? && t.code == k
  {
    Unknown(k)
  }

  /** `From<HAL_JoystickDescriptor> for JoystickDescriptor`, without the name. */
  function DescriptorFrom(raw: RawJoystickDescriptor): (d: JoystickDescriptor)
    ensures d.isXbox <==> raw.isXbox != 0
    ensures d.stickType == Unknown(raw.joystickType)
    ensures d.buttonCount == raw.buttonCount && d.axisCount == raw.axisCount
    ensures d.axisTypes == raw.axisTypes && d.povCount == raw.povCount
  {
    JoystickDescriptor(raw.isXbox != 0, JoystickTypeFrom(U8AsI32(raw.joystickType)),
                       raw.buttonCount, raw.axisCount, raw.axisTypes, raw.povCount)
  }

  /** Bit `i` of a button mask, the reference for what "button i is down"
      means. */
  function Bit(mask: bv32, i: nat): bool
    requires i < 32
  {
    mask & (1 << i) != 0
  }

  /** The test the loop of `From<HAL_JoystickButtons>` performs for entry `i`,
      as Rust parses it: `&` binds tighter than `==`. */
  function ButtonTestAsWritten(mask: bv32, i: nat): bool
    requires i < 32
  {
    mask & (1 << i) == 1
  }

  /** The test comes out true only for entry 0, and there exactly when bit 0
      is set: buttons 1 to 31 always read as released. */
  lemma ButtonTestOnlyEntryZero(mask: bv32, i: nat)
    requires i < 32
    ensures ButtonTestAsWritten(mask, i) <==> i == 0 && Bit(mask, 0)
  {
    if i > 0 {
      assert mask & (1 << i) == 0 || mask & (1 << i) == (1 << i);
    }
  }

  /** A concrete mask on which the as-written conversion disagrees with the
      mask: button 1 is held, yet entry 1 reads false. */
  lemma ButtonTestMissesButtonOne()
    ensures Bit(2, 1) && !ButtonTestAsWritten(2, 1)
  {
  }

  /** `From<HAL_JoystickButtons> for JoystickButtons` as written: 32 rounds,
      each storing the entry's test and incrementing `count`.  Only entry 0
      can come out true. */
  method ButtonsFrom(raw: RawJoystickButtons) returns (b: JoystickButtons)
    ensures b.count == 32 && |b.buttonsDown| == 32
    ensures forall i :: 0 <= i < 32 ==> b.buttonsDown[i] == ButtonTestAsWritten(raw.buttons, i)
    ensures b.buttonsDown[0] == Bit(raw.buttons, 0)
    ensures forall i :: 1 <= i < 32 ==> !b.buttonsDown[i]
  {
    var down := new bool[32](_ => false);
    var count: u16 := 0;
    for i := 0 to 32
      invariant count == i
      invariant forall j :: 0 <= j < i ==> down[j] == ButtonTestAsWritten(raw.buttons, j)
    {
      down[i] := ButtonTestAsWritten(raw.buttons, i);
      count := count + 1;
    }
    b := JoystickButtons(down[..], count);
    forall i | 0 <= i < 32 {
      ButtonTestOnlyEntryZero(raw.buttons, i);
    }
  }

  /** The conversion with the evidently intended test, "bit i is set". */
  method ButtonsFromFixed(raw: RawJoystickButtons) returns (b: JoystickButtons)
    ensures b.count == 32 && |b.buttonsDown| == 32
    ensures forall i :: 0 <= i < 32 ==> b.buttonsDown[i] == Bit(raw.buttons, i)
  {
    var down := new bool[32](_ => false);
    var count: u16 := 0;
    for i := 0 to 32
      invariant count == i
      invariant forall j :: 0 <= j < i ==> down[j] == Bit(raw.buttons, j)
    {
      down[i] := Bit(raw.buttons, i);
      count := count + 1;
    }
    b := JoystickButtons(down[..], count);
  }

  /** One pressed button shows up in its own slot and in no other. */
  lemma SingleButton(k: nat, i: nat)
    requires k < 32 && i < 32
    ensures Bit(1 << k, i) <==> i == k
  {
  }
}
