/** The serial-port calls of src/hal/serial.rs that take a `RobotIoPort`
    (`read`, `write`, `flush`) or a `SerialPort` (`clear`, `close`).  The
    conversion `port.into()` to the HAL's port enum comes from a macro that is
    not part of this model, so it is the parameter `toRaw`. */
module Serial {
  import opened Ints
  import opened Results
  import opened Raw
  import opened Error
  import opened SerialPorts
  import opened HalIo

  /** A `hal_call!(ptr ...)` whose first argument is `port.as_serial()?.into()`.
      The argument is evaluated inside the readiness branch, after the gate,
      so the gate's error comes first and a projection error returns before
      the native function is called. */
  function GuardedPtrCall<T>(ready: bool, t: ErrorConstants, port: RobotIoPort,
                             native: i32 -> (T, i32)): (r: HalResult<T>)
    ensures !ready ==> r == Err(HalNotInitialized)
    ensures ready && !port.Serial? ==> r == Err(WrongIoInterface)
    ensures ready && port.Serial? ==> r == PtrCall(true, t, native)
  {
    if !ready then Err(HalNotInitialized)
    else match port.AsSerial()
      case Err(e) => Err(e)
      case Ok(_) => CheckStatus(t, native(0).0, native(0).1)
  }

  /** Which native call a guarded call makes, if any. */
  function GuardedCallLog(ready: bool, port: RobotIoPort, name: string, toRaw: SerialPort -> int, rest: seq<int>): (l: seq<NativeCall>)
    ensures |l| <= 1
    ensures |l| == 1 <==> ready && port.Serial?
  {
    if ready && port.Serial? then [NativeCall(name, [toRaw(port.serial)] + rest)] else []
  }

  method GuardedCall<T>(hal: HalLibrary, port: RobotIoPort, name: string, toRaw: SerialPort -> int, rest: seq<int>,
                        native: i32 -> (T, i32))
    returns (r: HalResult<T>)
    modifies hal`log
    ensures r == GuardedPtrCall(hal.initialized, hal.codes, port, native)
    ensures hal.log == old(hal.log) + GuardedCallLog(hal.initialized, port, name, toRaw, rest)
  {
    if !hal.initialized {
      r := Err(HalNotInitialized);
      return;
    }
    var p :- port.AsSerial();
    r := hal.CallWithStatusCell(NativeCall(name, [toRaw(p)] + rest), native);
  }

  /** `read`: the bytes the HAL puts in the buffer are not modelled; on
      success the result is the byte count the native function returns. */
  method Read(hal: HalLibrary, port: RobotIoPort, count: i32, toRaw: SerialPort -> int, native: i32 -> (i32, i32))
    returns (r: HalResult<i32>)
    modifies hal`log
    ensures r == GuardedPtrCall(hal.initialized, hal.codes, port, native)
    ensures hal.log == old(hal.log) + GuardedCallLog(hal.initialized, port, "HAL_ReadSerial", toRaw, [count])
  {
    r := GuardedCall(hal, port, "HAL_ReadSerial", toRaw, [count], native);
  }

  /** `write`. */
  method Write(hal: HalLibrary, port: RobotIoPort, count: i32, toRaw: SerialPort -> int, native: i32 -> (i32, i32))
    returns (r: HalResult<i32>)
    modifies hal`log
    ensures r == GuardedPtrCall(hal.initialized, hal.codes, port, native)
    ensures hal.log == old(hal.log) + GuardedCallLog(hal.initialized, port, "HAL_WriteSerial", toRaw, [count])
  {
    r := GuardedCall(hal, port, "HAL_WriteSerial", toRaw, [count], native);
  }

  /** `flush`. */
  method Flush(hal: HalLibrary, port: RobotIoPort, toRaw: SerialPort -> int, native: i32 -> ((), i32))
    returns (r: HalResult<()>)
    modifies hal`log
    ensures r == GuardedPtrCall(hal.initialized, hal.codes, port, native)
    ensures hal.log == old(hal.log) + GuardedCallLog(hal.initialized, port, "HAL_FlushSerial", toRaw, [])
  {
    r := GuardedCall(hal, port, "HAL_FlushSerial", toRaw, [], native);
  }

  /** `clear`: a plain gated call on a `SerialPort`. */
  method Clear(hal: HalLibrary, port: SerialPort, toRaw: SerialPort -> int, native: i32 -> ((), i32))
    returns (r: HalResult<()>)
    modifies hal`log
    ensures r == PtrCall(hal.initialized, hal.codes, native)
    ensures r != Err(WrongIoInterface)
    ensures hal.log == old(hal.log) + (if hal.initialized then [NativeCall("HAL_ClearSerial", [toRaw(port)])] else [])
  {
    r := hal.CallPtr(NativeCall("HAL_ClearSerial", [toRaw(port)]), native);
  }

  /** `close`. */
  method Close(hal: HalLibrary, port: SerialPort, toRaw: SerialPort -> int, native: i32 -> ((), i32))
    returns (r: HalResult<()>)
    modifies hal`log
    ensures r == PtrCall(hal.initialized, hal.codes, native)
    ensures r != Err(WrongIoInterface)
    ensures hal.log == old(hal.log) + (if hal.initialized then [NativeCall("HAL_CloseSerial", [toRaw(port)])] else [])
  {
    r := hal.CallPtr(NativeCall("HAL_CloseSerial", [toRaw(port)]), native);
  }

  /** A status-code translation never produces `WrongIoInterface`; so a gated
      call without a projection never reports it. */
  lemma PtrCallNeverWrongInterface<T>(ready: bool, t: ErrorConstants, native: i32 -> (T, i32))
    ensures PtrCall(ready, t, native) != Err(WrongIoInterface)
  {
  }

  /** The guarded call's error cases, named by the order in which the source
      checks them: the gate first, then the projection, then the status. */
  lemma {:induction false} GuardOrder<T>(ready: bool, t: ErrorConstants, port: RobotIoPort, native: i32 -> (T, i32))
    ensures GuardedPtrCall(ready, t, port, native) == Err(WrongIoInterface) <==> ready && !port.Serial?
    ensures GuardedPtrCall(ready, t, port, native) == Err(HalNotInitialized) <==> !ready
    ensures ready && port.Serial? && native(0).1 == 0 ==> GuardedPtrCall(ready, t, port, native) == Ok(native(0).0)
  {
    if ready && port.Serial? {
      PtrCallNeverWrongInterface(true, t, native);
      NotInitializedOnlyWhenNotReady(true, t, native);
    }
  }

  /** `read` as a function the I/O helpers can take: the gated, guarded call,
      leaving the buffer as it was. */
  function ReadFunc(ready: bool, t: ErrorConstants, native: i32 -> (i32, i32)): ReadFn {
    (port: RobotIoPort, buffer: seq<u8>, count: i32) => (GuardedPtrCall(ready, t, port, native), buffer)
  }

  /** `io_read(serial::read, port, ...)` on a port that is not a serial port
      reports the wrong interface once the HAL is initialised. */
  lemma IoReadWithSerial(t: ErrorConstants, native: i32 -> (i32, i32), port: RobotIoPort, buffer: seq<u8>, count: i32)
    ensures !port.Serial? ==> IoRead(ReadFunc(true, t, native), port, buffer, count) == (Err(WrongIoInterface), buffer)
    ensures IoRead(ReadFunc(false, t, native), port, buffer, count) == (Err(HalNotInitialized), buffer)
  {
  }
}
