/** Relay set-up and queries (src/hal/relay.rs). */
module Relay {
  import opened Ints
  import opened Results
  import opened Raw
  import opened Error
  import opened Handles

  /** `check_channel`: an ungated native call, read as `n != 0`. */
  method CheckChannel(hal: HalLibrary, channel: i32, native: i32 -> i32) returns (ok: bool)
    modifies hal`log
    ensures ok == FromHalBool(native(channel))
    ensures hal.log == old(hal.log) + [NativeCall("HAL_CheckRelayChannel", [channel])]
  {
    var n := hal.Invoke(NativeCall("HAL_CheckRelayChannel", [channel]), native(channel));
    ok := FromHalBool(n);
  }

  /** What `initialize` returns: a bad channel is refused before the
      readiness gate is consulted; a good one gets the gated call. */
  function InitializeResult(ready: bool, t: ErrorConstants, channelOk: bool,
                            native: i32 -> (RelayHandle, i32)): (r: HalResult<RelayHandle>)
    ensures !channelOk ==> r == Err(BadChannelType)
    ensures channelOk ==> r == PtrCall(ready, t, native)
  {
    if channelOk then PtrCall(ready, t, native) else Err(BadChannelType)
  }

  /** Whatever the readiness flag, a failed channel check gives
      `BadChannelType`, and `BadChannelType` comes from nothing else. */
  lemma BadChannelBeforeGate(ready: bool, t: ErrorConstants, channelOk: bool, native: i32 -> (RelayHandle, i32))
    ensures InitializeResult(ready, t, channelOk, native) == Err(BadChannelType) <==> !channelOk
  {
    if channelOk {
      assert PtrCall(ready, t, native) != Err(BadChannelType);
    }
  }

  /** `initialize`.  The source passes the `PortHandle` itself to
      `check_channel`, which takes an `i32`; the model passes its raw value. */
  method Initialize(hal: HalLibrary, handle: PortHandle, fwd: bool, checkNative: i32 -> i32,
                    native: i32 -> (RelayHandle, i32))
    returns (r: HalResult<RelayHandle>)
    modifies hal`log
    ensures r == InitializeResult(hal.initialized, hal.codes, FromHalBool(checkNative(handle.raw)), native)
    ensures hal.log == old(hal.log) + [NativeCall("HAL_CheckRelayChannel", [handle.raw])]
      + (if FromHalBool(checkNative(handle.raw)) && hal.initialized
         then [NativeCall("HAL_InitializeRelayPort", [handle.raw, ToHalBool(fwd)])] else [])
  {
    var ok := CheckChannel(hal, handle.raw, checkNative);
    if ok {
      r := hal.CallPtr(NativeCall("HAL_InitializeRelayPort", [handle.raw, ToHalBool(fwd)]), native);
    } else {
      r := Err(BadChannelType);
    }
  }

  /** `get_active`. */
  method GetActive(hal: HalLibrary, handle: RelayHandle, native: i32 -> (i32, i32))
    returns (r: HalResult<bool>)
    modifies hal`log
    ensures r == PtrCall(hal.initialized, hal.codes, native).Map(FromHalBool)
    ensures hal.log == old(hal.log) + (if hal.initialized then [NativeCall("HAL_GetRelay", [handle.raw])] else [])
  {
    var n :- hal.CallPtr(NativeCall("HAL_GetRelay", [handle.raw]), native);
    r := Ok(FromHalBool(n));
  }
}
