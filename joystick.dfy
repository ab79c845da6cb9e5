/** The joystick API of src/hal/joystick.rs: `#[repr(C)]` copies of the HAL's
    joystick structs, their accessors, and the `Joystick` queries. */
module Joystick {
  import opened Ints
  import opened Results
  import opened Raw
  import opened Error

  /** The crate's `Axes`, `Povs`, `Buttons` and `Descriptor` are declared
      `#[repr(C)]` copies of the HAL structs, so they are the HAL structs
      here.  `Descriptor` declares `_pov_count` before `_button_count`, the
      reverse of `RawJoystickDescriptor`'s field order; neither field is read
      by any accessor, so the swap changes nothing the model computes. */
  type Axes = RawJoystickAxes
  type Povs = RawJoystickPovs
  type Buttons = RawJoystickButtons
  type Descriptor = RawJoystickDescriptor

  const MAX_JOYSTICK_AXES: nat := 12
  const MAX_JOYSTICK_POVS: nat := 12

  /** `Default::default()` of the derived impls: every field zero. */
  function DefaultAxes(): (a: Axes)
    ensures a.count == 0 && forall i :: 0 <= i < MAX_JOYSTICK_AXES ==> a.axes[i] == 0
  {
    RawJoystickAxes(0, seq(12, _ => 0))
  }

  function DefaultPovs(): (p: Povs)
    ensures p.count == 0 && forall i :: 0 <= i < MAX_JOYSTICK_POVS ==> p.povs[i] == 0
  {
    RawJoystickPovs(0, seq(12, _ => 0))
  }

  function DefaultButtons(): (b: Buttons)
    ensures b.buttons == 0 && b.count == 0
  {
    RawJoystickButtons(0, 0)
  }

  /** `Descriptor::is_xbox`. */
  function IsXbox(d: Descriptor): (b: bool)
    ensures b <==> d.isXbox != 0
  {
    d.isXbox != 0
  }

  /** `Descriptor::get_type`: the raw type byte. */
  function GetType(d: Descriptor): (t: u8)
    ensures t == d.joystickType
  {
    d.joystickType
  }

  /** `Axes::get` as written: the index is cast to `i16` before it is compared
      with the count, and is then used uncast to index the 12-entry array. */
  function AxesGet(a: Axes, idx: usize): (r: Outcome<Option<F32>>)
    ensures r == Returns(None) <==> UsizeAsI16(idx) >= a.count
    ensures r.Panics? <==> UsizeAsI16(idx) < a.count && idx >= MAX_JOYSTICK_AXES
    ensures r.Returns? && r.value.Some? ==> idx < MAX_JOYSTICK_AXES && r.value.value == a.axes[idx]
  {
    if UsizeAsI16(idx) >= a.count then Returns(None)
    else if idx < MAX_JOYSTICK_AXES then Returns(Some(a.axes[idx]))
    else Panics
  }

  /** Index 65536 truncates to 0, which passes the count check of a
      one-axis reading, and then indexes past the array. */
  lemma AxesGetTruncationPanics()
    ensures AxesGet(RawJoystickAxes(1, seq(12, _ => 0)), 0x1_0000).Panics?
  {
    assert UsizeAsI16(0x1_0000) == 0;
  }

  /** The evidently intended `Axes::get`: an axis is present when its index is
      below both the count and the array's length. */
  function AxesGetFixed(a: Axes, idx: usize): (r: Option<F32>)
    ensures r.Some? <==> idx < a.count && idx < MAX_JOYSTICK_AXES
    ensures r.Some? ==> r.value == a.axes[idx]
  {
    if idx < a.count && idx < MAX_JOYSTICK_AXES then Some(a.axes[idx]) else None
  }

  /** For indices that survive the cast unchanged and counts the array can
      hold, the written and the intended lookups agree and never panic. */
  lemma AxesGetFixedAgrees(a: Axes, idx: usize)
    requires idx < 0x8000 && a.count <= MAX_JOYSTICK_AXES as int
    ensures AxesGet(a, idx) == Returns(AxesGetFixed(a, idx))
  {
  }

  /** A joystick, known by its driver-station port number. */
  datatype Joystick = Joystick(number: i32)

  /** `Joystick::get_axes`: the gated `ret` call fills a default `Axes`. */
  method GetAxes(hal: HalLibrary, js: Joystick, native: Axes -> (Axes, i32)) returns (r: HalResult<Axes>)
    modifies hal`log
    ensures r == RetFill(hal.initialized, hal.codes, native, DefaultAxes())
    ensures hal.log == old(hal.log) + (if hal.initialized then [NativeCall("HAL_GetJoystickAxes", [js.number])] else [])
  {
    r := hal.CallRetFill(NativeCall("HAL_GetJoystickAxes", [js.number]), native, DefaultAxes());
  }

  /** `Joystick::get_povs`. */
  method GetPovs(hal: HalLibrary, js: Joystick, native: Povs -> (Povs, i32)) returns (r: HalResult<Povs>)
    modifies hal`log
    ensures r == RetFill(hal.initialized, hal.codes, native, DefaultPovs())
    ensures hal.log == old(hal.log) + (if hal.initialized then [NativeCall("HAL_GetJoystickPOVs", [js.number])] else [])
  {
    r := hal.CallRetFill(NativeCall("HAL_GetJoystickPOVs", [js.number]), native, DefaultPovs());
  }

  /** `Joystick::get_buttons`. */
  method GetButtons(hal: HalLibrary, js: Joystick, native: Buttons -> (Buttons, i32)) returns (r: HalResult<Buttons>)
    modifies hal`log
    ensures r == RetFill(hal.initialized, hal.codes, native, DefaultButtons())
    ensures hal.log == old(hal.log) + (if hal.initialized then [NativeCall("HAL_GetJoystickButtons", [js.number])] else [])
  {
    r := hal.CallRetFill(NativeCall("HAL_GetJoystickButtons", [js.number]), native, DefaultButtons());
  }

  /** `Joystick::get_descriptor`: the descriptor starts uninitialized, so its
      initial contents are a parameter. */
  method GetDescriptor(hal: HalLibrary, js: Joystick, uninitialized: Descriptor,
                       native: Descriptor -> (Descriptor, i32))
    returns (r: HalResult<Descriptor>)
    modifies hal`log
    ensures r == RetFill(hal.initialized, hal.codes, native, uninitialized)
    ensures hal.log == old(hal.log) + (if hal.initialized then [NativeCall("HAL_GetJoystickDescriptor", [js.number])] else [])
  {
    r := hal.CallRetFill(NativeCall("HAL_GetJoystickDescriptor", [js.number]), native, uninitialized);
  }
}
