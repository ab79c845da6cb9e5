# wpilib-hal in Dafny

A model of the decision logic in the Rust crate `wpilib-hal`, the binding to the
FRC RoboRIO's native hardware abstraction library (the HAL). The crate is
mostly foreign-function glue. What this project models is the layer of choices
the Rust code makes around each native call, plus the pure conversions between
native encodings and typed Rust values. That layer covers:

- **The status-code protocol.** `hal_call!` checks readiness first, then hands
  the native function a zeroed status cell and returns `Ok` only for status 0.
  Otherwise it translates the code with `HalError::from`, which branches on the
  sign, matches one of two constant tables and falls back to `Unknown(code)`.
  `Display` renders the errors. An older, ungated copy of the protocol lives in
  `src/hal/error.rs`.
- **Typed handles.** There is one newtype over `i32` per hardware domain, with
  `new`, `get_handle` and `transmute_handle`.
- **Driver-station records.** This covers control-word bit extraction, the
  32-round joystick-button loop, the axis and POV copies, `Axes::get`, the
  descriptor accessors and the alliance-station mapping.
- **Enum and port numbering.** This covers SPI, I2C, the encoder, the analog
  trigger and the maps in `src/hal/enums.rs`.
- **Local guards around native calls.** These are the `RobotIoPort`
  projections and where they sit inside the gated call in `serial.rs`, the
  relay channel check, and the negative-axis check.
- **PID arithmetic.** This is one `tick` of the integer PID controller.

The native library is an abstract collaborator, the class `Error.HalLibrary`. It has:

- a readiness flag `initialized`, which stands for `hal_is_initialized()`;
- the generated status constants `codes`;
- a ghost `log` of the native functions called so far.

Every native function is an arrow-typed parameter. It maps the status cell, or
the memory its pointer arguments reach, to its return value and to what it
leaves behind. Each method that makes native calls states its result with a
specification function, such as `Error.PtrCall` or `Error.RetFill`. Each such
method also states exactly which calls it appends to `log`. "No native call was
made" is therefore `hal.log == old(hal.log)`.

The 23 status constants are generated from the HAL headers into `raw.rs` at
build time, and their values are not known here. They are a parameter of type
`Raw.ErrorConstants`. Where the proofs need facts about them, they assume only
`Valid()`: every code in each table is distinct, the 7 matched on the
non-negative path are below 2^31, and the 16 matched on the negative path are
negative.

Machine integers are subset types of `int` (`Ints`). Each Rust `as` cast the
code performs is written out. So is Rust's truncating division. A debug-build
panic (shift overflow, out-of-bounds index) is an explicit outcome (`None`,
`Outcome.Panics`) or a precondition, as noted below.

The model follows the code as written, including where it does less than the
crate's own documentation suggests:

- **Messages.** For `Hal(_)`, `Display for HalError` shows the fixed
  description "FFI returned bad status code". `Display for FfiError` reads
  arrays generated at build time. Neither asks the native library at call time.
- **Local errors.** The crate reports `BadChannelType`, `BadModuleType`,
  `WrongIoInterface` and `ResourceAlreadyInitialized` without any status code
  behind them.
- **The relay channel check is itself a native call.** It runs before the
  readiness gate.
- **No `Drop` and no notifier.** The shown code has no `Drop`-based freeing.
  The notifier is commented out.

## Model

| member | source | states |
|---|---|---|
| Error.FirstMatch | src/error.rs:169-201 | the index of the first table entry equal to the code, or the table length when there is none; no earlier entry matches |
| Error.FromCode | src/error.rs:163-204 | translation is total and always yields `Hal(_)`; a non-negative code gives a kind from the non-negative table or `Unknown(code)`, and a negative code gives a kind from the negative table or `Unknown(code)` |
| Error.FromCodeNamed | src/error.rs:169-198 | with distinct constants, the k-th constant of each table translates to the k-th kind, e.g. `HAL_HANDLE_ERROR` to `HandleError` |
| Error.FromCodeUnknown | src/error.rs:179-200 | a code missing from its sign's table becomes `Unknown` of that same code, through the `as u32` / `as i32` round trip |
| Error.CodeOfTables | src/error.rs:169-198 | the reference map from kinds to codes reads back each table position |
| Error.FromCodeRecoversCode | src/error.rs:163-204 | the code can be recovered from its translation, for any constants whatever |
| Error.FromCodeInjective | src/error.rs:163-204 | distinct codes translate to distinct errors |
| Error.FromNulError | src/error.rs:206-210 | a `NulError` is wrapped unchanged as `NullError` |
| Error.FromBoxedError | src/error.rs:212-216 | a boxed error becomes `Other`, keeping its description |
| Error.FfiMessage | src/error.rs:75-108 | `Unknown(c)` renders as "Unknown error: " followed by c in decimal; both thread-priority errors render as "?"; every other kind reads its generated message array |
| Error.UnknownMessageHasCode | src/error.rs:103 | the code can be parsed back out of an `Unknown` message |
| Decimal.IntToStringRoundTrip | src/error.rs:103 | the decimal rendering of an integer parses back to it |
| Decimal.IntToStringInjective | src/error.rs:103 | distinct integers render differently |
| Error.RawMessagesDistinct | src/error.rs:75-98 | two kinds that read generated arrays never read the same one |
| Error.HalMessage | src/error.rs:140-155 | `Hal(_)` shows the FFI description, `NullError` shows the `NulError` description and `Other` shows its own description; the local errors have fixed texts that differ from the FFI one |
| Error.HalMessageProperties | src/error.rs:143-149 | the `Hal(_)` message does not depend on the code; the five local errors have five different messages, `HalNotInitialized` among them |
| Error.CheckStatus | src/error.rs:20 | status 0 gives `Ok(value)`; any other status gives `Err(HalError::from(status))` |
| Error.PtrCall | src/error.rs:16-24 | not ready gives `HalNotInitialized`; when ready, the cell starts at 0 and the result is `Ok(value)` exactly when the status written is 0, and otherwise the translated status with the value dropped |
| Error.RetCall | src/error.rs:25-32 | not ready gives `HalNotInitialized` and leaves memory untouched; when ready, the returned status is checked the same way |
| Error.RetFill | src/error.rs:25-32 | the `ret` arm followed by `?` and `Ok(cell)`: the filled memory, returned only when the status is 0 |
| Error.NotInitializedOnlyWhenNotReady | src/error.rs:17-23 | `HalNotInitialized` arises exactly when the gate is closed, never from a status code |
| Error.HalLibrary.constructor | src/error.rs:17 | a native library with the given constants and readiness, and no calls yet |
| Error.HalLibrary.Invoke | src/error.rs:19 | one native call: its outcome is returned, and it is appended to the log |
| Error.HalLibrary.CallWithStatusCell | src/error.rs:18-20 | a zeroed cell, one logged call, and the status check |
| Error.HalLibrary.CallPtr | src/error.rs:16-24 | the result equals `PtrCall`; the call is logged only when the gate is open, so none is made when it is closed |
| Error.HalLibrary.CallRet | src/error.rs:25-32 | the result and memory equal `RetCall`; logged only when the gate is open |
| Error.HalLibrary.CallRetFill | src/error.rs:25-32 | the result equals `RetFill`; logged only when the gate is open |
| LegacyError.FromCode | src/hal/error.rs:61-102 | the older translation always yields `Hal(_)` |
| LegacyError.FromCodeAgrees | src/hal/error.rs:61-102 | for every code, it gives the same kind as `src/error.rs`, sign split and `Unknown` fallback included |
| LegacyError.FromCodeInjective | src/hal/error.rs:61-102 | distinct codes give distinct errors |
| LegacyError.FromNulError | src/hal/error.rs:104-106 | a `NulError` is always wrapped as `NullError` |
| LegacyError.PointerCall | src/hal/error.rs:9-15 | `Ok(result)` exactly when the status is 0, and otherwise the translated status; no readiness check |
| LegacyError.ReturnCall | src/hal/error.rs:17-22 | `Ok(())` exactly when the returned status is 0, and otherwise the translated status |
| LegacyError.PointerCallMatchesGated | src/hal/error.rs:9-15 | the ungated call agrees with the gated one once the gate is open |
| LegacyError.StatusPointerCall | src/hal/error.rs:9-15 | the native function is called, and logged, whatever the readiness flag |
| LegacyError.StatusReturnCall | src/hal/error.rs:17-22 | the same for the `ret` form, with the memory it leaves |
| Handles.TransmuteHandle | src/hal/handle.rs:8-10 | the target handle carries the source's raw integer |
| Handles.TransmuteRoundTrip | src/hal/handle.rs:8-10 | transmuting A to B and back returns the original handle |
| Handles.EqualIffSameRaw | src/hal/handle.rs:16-20 | two handles of one kind are equal exactly when their raw integers are |
| Handles.AnalogInputImpl | src/hal/handle.rs:19-20 | `get_handle(new(n)) == n` for every n, and `new(get_handle(h)) == h` |
| Handles.GyroImpl | src/hal/handle.rs:19-20 | the same laws for `GyroHandle` |
| Handles.PortImpl | src/hal/handle.rs:19-20 | the same laws for `PortHandle` |
| Handles.AnalogOutputImpl | src/hal/handle.rs:19-20 | the same laws for `AnalogOutputHandle` |
| Handles.AnalogTriggerImpl | src/hal/handle.rs:19-20 | the same laws for `AnalogTriggerHandle` |
| Handles.CompressorImpl | src/hal/handle.rs:19-20 | the same laws for `CompressorHandle` |
| Handles.CounterImpl | src/hal/handle.rs:19-20 | the same laws for `CounterHandle` |
| Handles.DigitalImpl | src/hal/handle.rs:19-20 | the same laws for `DigitalHandle` |
| Handles.DigitalPwmImpl | src/hal/handle.rs:19-20 | the same laws for `DigitalPwmHandle` |
| Handles.RelayImpl | src/hal/handle.rs:19-20 | the same laws for `RelayHandle` |
| Handles.SolenoidImpl | src/hal/handle.rs:19-20 | the same laws for `SolenoidHandle` |
| Handles.InterruptImpl | src/hal/handle.rs:19-20 | the same laws for `InterruptHandle` |
| Handles.NotifierImpl | src/hal/handle.rs:19-20 | the same laws for `NotifierHandle` |
| Handles.SpiImpl | src/hal/handle.rs:26-41 | the same laws for `SpiHandle`, the fourteenth kind |
| Structs.AllOff | src/hal/structs.rs:202-215 | all six flags are false |
| Structs.ControlWordFromAccessors | src/hal/structs.rs:217-229 | each flag is "its accessor is nonzero", with `stopped` taken from `eStop` |
| Structs.ControlWordAccessorsRoundTrip | src/hal/structs.rs:217-229 | on one-bit accessor values, the conversion is inverted by its reference encoding; the all-zero word gives `all_off()` |
| Structs.AxesFrom | src/hal/structs.rs:154-161 | the count and the axis array are copied unchanged |
| Structs.PovsFrom | src/hal/structs.rs:171-178 | the count and the POV array are copied unchanged |
| Structs.CopiesInjective | src/hal/driverstation.rs:104-135 | the axis and POV copies lose nothing |
| Structs.JoystickTypeFrom | src/hal/structs.rs:231-238 | every number k becomes `Unknown(k)` |
| Structs.DescriptorFrom | src/hal/structs.rs:257-270 | `is_xbox` is "byte nonzero", the type byte is widened into `Unknown`, and the counts and axis types are copied |
| Structs.ButtonTestOnlyEntryZero | src/hal/structs.rs:249 | the test as Rust parses it is true exactly for entry 0 when bit 0 is set |
| Structs.ButtonTestMissesButtonOne | src/hal/driverstation.rs:163 | mask 2: button 1 is down, yet entry 1 reads false |
| Structs.ButtonsFrom | src/hal/structs.rs:240-255 | after the loop, `count` is 32 and entry i is the as-written test on bit i; so entry 0 is bit 0 and entries 1 to 31 are false |
| Structs.ButtonsFromFixed | src/hal/driverstation.rs:154-169 | with the intended test, `count` is 32 and entry i is bit i of the mask |
| Structs.SingleButton | src/hal/driverstation.rs:161-165 | a mask with one button held shows it in its own slot only |
| DriverStation.CheckedShl | src/hal/driverstation.rs:67 | a left shift by an `i32` is defined exactly for amounts 0 to 31 |
| DriverStation.CheckedShr | src/hal/driverstation.rs:67 | likewise for the right shift |
| DriverStation.ExtractField | src/hal/driverstation.rs:66-68 | `extract_field` as Rust parses it is defined exactly for offsets 1 to 31; every other offset, `ENABLED_OFFSET` = 0 included, overflows a shift |
| DriverStation.ExtractFieldReadsBit | src/hal/driverstation.rs:59-68 | for offsets 1 to 31, `extract_field` returns bit `offset`, so 0 or 1 |
| DriverStation.ControlWordFromAlwaysPanics | src/hal/driverstation.rs:70-82 | `ControlWord::from` (the model's `ControlWordFrom`, six `extract_field(..) != 0` tests) panics on every control word, at the `ENABLED_OFFSET` call |
| DriverStation.ExtractFieldFixed | src/hal/driverstation.rs:66-68 | the intended extraction is bit `offset`, and agrees with the as-written one for offsets 1 to 31 |
| DriverStation.ControlWordFromFixed | src/hal/driverstation.rs:70-82 | each flag is the bit at its offset: enabled 0, autonomous 1, test 2, stopped 3, FMS 4, DS 5 |
| DriverStation.ControlWordFromFixedExamples | src/hal/driverstation.rs:44-57 | the zeroed word decodes to `all_off()`, and word 1 decodes to enabled alone |
| DriverStation.AllianceFromRaw | src/hal/driverstation.rs:390-397 | never `Invalid`, position 1 to 3, and red exactly for the three red identifiers |
| DriverStation.AllianceToRaw | src/hal/driverstation.rs:207-214 | `None` exactly for `Invalid` or a position outside 1 to 3 |
| DriverStation.AllianceRoundTrip | src/hal/driverstation.rs:390-397 | the mapping and its inverse undo each other, so each station is reached by exactly one identifier |
| DriverStation.GetJoystickDescriptor | src/hal/driverstation.rs:253-258 | a zeroed descriptor is filled by the `ret` call and converted on success |
| DriverStation.GetJoystickIsXbox | src/hal/driverstation.rs:287-289 | the descriptor's `is_xbox`, or its error |
| DriverStation.GetJoystickType | src/hal/driverstation.rs:292-294 | the descriptor's stick type, or its error |
| DriverStation.GetJoystickAxisType | src/hal/driverstation.rs:303-310 | a negative axis gives `Hal(ParameterOutOfRange)` and fetches nothing; otherwise the descriptor is fetched and its error returned for any axis; on a successful fetch, axes 0 to 11 give `Unknown(axis_types[axis])` and larger axes panic on the index |
| DriverStation.GetJoystickAxes | src/hal/driverstation.rs:263-268 | zeroed axes filled by the `ret` call and copied on success |
| DriverStation.GetJoystickPovs | src/hal/driverstation.rs:271-276 | zeroed POVs filled by the `ret` call and copied on success |
| DriverStation.GetJoystickButtons | src/hal/driverstation.rs:279-284 | on success, 32 entries, entry i being the as-written test on bit i, so entry 0 is bit 0 and entries 1 to 31 are false; otherwise the fetch's error |
| DriverStation.GetJoystickButtonsFixed | src/hal/driverstation.rs:279-284 | the same fetch with the intended test: entry i is bit i of the fetched mask |
| DriverStation.GetControlWord | src/hal/driverstation.rs:337-342 | the zeroed word filled by the `ret` call; a failed fetch returns its error, and a successful one panics in `ControlWord::from`, so no control word is ever returned |
| DriverStation.GetControlWordFixed | src/hal/driverstation.rs:337-342 | the same fetch with the intended decoding, each flag the bit at its offset |
| DriverStation.GetAllianceStation | src/hal/driverstation.rs:385-398 | the `ptr` call, then the mapping; a success is never `Invalid` |
| Joystick.DefaultAxes | src/hal/joystick.rs:61-66 | zero count and all axes zero |
| Joystick.DefaultPovs | src/hal/joystick.rs:22-27 | zero count and all POVs zero |
| Joystick.DefaultButtons | src/hal/joystick.rs:29-34 | zero mask and zero count |
| Joystick.IsXbox | src/hal/joystick.rs:54 | true exactly when the raw byte is nonzero |
| Joystick.GetType | src/hal/joystick.rs:57 | the raw `stick_type` byte |
| Joystick.AxesGet | src/hal/joystick.rs:70-74 | `None` exactly when `idx as i16 >= count`; a panic exactly when the check passes but idx is 12 or more; otherwise `axes[idx]` |
| Joystick.AxesGetTruncationPanics | src/hal/joystick.rs:71-72 | index 65536 on a one-axis reading passes the check and panics |
| Joystick.AxesGetFixed | src/hal/joystick.rs:70-74 | a value exactly when idx is below both the count and 12 |
| Joystick.AxesGetFixedAgrees | src/hal/joystick.rs:70-74 | for indices below 2^15 and counts of at most 12, both lookups agree and never panic |
| Joystick.GetAxes | src/hal/joystick.rs:86-90 | default axes filled by the `ret` call, returned only for status 0 |
| Joystick.GetPovs | src/hal/joystick.rs:92-96 | default POVs filled by the `ret` call, returned only for status 0 |
| Joystick.GetButtons | src/hal/joystick.rs:98-102 | default buttons filled by the `ret` call, returned only for status 0 |
| Joystick.GetDescriptor | src/hal/joystick.rs:104-110 | an uninitialized descriptor filled by the `ret` call |
| Spi.SpiPort.GetPort | src/hal/spi.rs:19-30 | named ports give 0 to 4; `Unknown(k)` gives k |
| Spi.FromI32 | src/hal/spi.rs:32-43 | `Unknown` exactly for numbers outside 0 to 4 |
| Spi.NumberRoundTrip | src/hal/spi.rs:19-43 | `SpiPort::from(i).get_port() == i` for every i |
| Spi.PortRoundTrip | src/hal/spi.rs:19-43 | named ports round-trip; `Unknown(k)` does too for k outside 0 to 4, and otherwise normalises to the named port |
| Spi.NamedPortsDistinct | src/hal/spi.rs:21-26 | CS0 to CS3 and MXP are numbered 0 to 4, in order |
| I2c.I2cPort.GetPort | src/hal/i2c.rs:15-22 | on-board is 0 and MXP is 1, so the result is 0 or 1 |
| I2c.GetPortInjective | src/hal/i2c.rs:15-22 | different ports have different numbers |
| HalIo.RobotIoPort.AsSerial | src/hal/halio.rs:22-28 | `Ok(port)` exactly for `Serial(port)`, and otherwise `WrongIoInterface` |
| HalIo.RobotIoPort.AsSpi | src/hal/halio.rs:30-36 | `Ok(port)` exactly for `Spi(port)`, and otherwise `WrongIoInterface` |
| HalIo.RobotIoPort.AsI2c | src/hal/halio.rs:38-44 | `Ok((port, addr))` exactly for `I2c`, and otherwise `WrongIoInterface` |
| HalIo.ExactlyOneProjection | src/hal/halio.rs:21-45 | exactly one projection succeeds, and it recovers the port |
| HalIo.IoRead | src/hal/halio.rs:47-50 | exactly `func` applied to the port, buffer and count |
| HalIo.IoWrite | src/hal/halio.rs:52-55 | exactly `func` applied to the port, buffer and count |
| HalIo.IoClear | src/hal/halio.rs:57-60 | exactly `func` applied to the port |
| Serial.GuardedPtrCall | src/hal/serial.rs:90-100 | not ready gives `HalNotInitialized` for any port; ready with a non-serial port gives `WrongIoInterface`; ready with a serial port gives the plain gated call |
| Serial.GuardedCallLog | src/hal/serial.rs:90-100 | the native call is made exactly when the gate is open and the port is serial |
| Serial.GuardedCall | src/hal/serial.rs:90-100 | the gate, then the projection, then the call, with the log as above |
| Serial.Read | src/hal/serial.rs:90-92 | the guarded call to `HAL_ReadSerial`; on status 0, the native byte count |
| Serial.Write | src/hal/serial.rs:94-96 | the guarded call to `HAL_WriteSerial`; on status 0, the native byte count |
| Serial.Flush | src/hal/serial.rs:98-100 | the guarded call to `HAL_FlushSerial` |
| Serial.Clear | src/hal/serial.rs:102-104 | the plain gated call, never `WrongIoInterface` |
| Serial.Close | src/hal/serial.rs:106-108 | the plain gated call, never `WrongIoInterface` |
| Serial.PtrCallNeverWrongInterface | src/error.rs:16-24 | a gated call without a projection never reports `WrongIoInterface` |
| Serial.GuardOrder | src/hal/serial.rs:90-100 | `WrongIoInterface` exactly when the gate is open and the port is not serial; `HalNotInitialized` exactly when the gate is closed; success gives the native value |
| Serial.IoReadWithSerial | src/hal/halio.rs:47-50 | `io_read` with serial `read` reports the wrong interface for a non-serial port, and readiness first |
| Encoder.IndexingFromRaw | src/hal/encoder.rs:17-26 | `From<RawIndexingType>` loses nothing: converting back gives the raw value |
| Encoder.IndexingRoundTrip | src/hal/encoder.rs:17-37 | the two indexing-type conversions are inverse, so they form a bijection on 4 values |
| Encoder.IndexingNumbering | headers/HAL/Encoder.h:15-20 | ResetWhileHigh to ResetOnRisingEdge are raw values 0 to 3 |
| Encoder.EncodingFromRaw | src/hal/encoder.rs:46-54 | `From<RawEncodingType>` loses nothing: converting back gives the raw value |
| Encoder.EncodingRoundTrip | src/hal/encoder.rs:46-64 | the two encoding-type conversions are inverse on 3 values |
| Encoder.EncodingNumbering | headers/HAL/Encoder.h:21-25 | k1X, k2X and k4X are raw values 0, 1 and 2 |
| Encoder.GetEncodingType | src/hal/encoder.rs:153-155 | the gated call, with `Ok(raw)` converted and an error passed through |
| Encoder.GetEncodingTypeCases | src/hal/encoder.rs:153-155 | the three outcomes: not ready, converted value, translated status |
| AnalogTrigger.FromRaw | src/hal/analog_trigger.rs:32-41 | `From<RawAnalogTriggerType>` loses nothing: `into_raw` gives the raw value back |
| AnalogTrigger.TriggerTypeRoundTrip | src/hal/analog_trigger.rs:21-41 | `into_raw` and `From` are inverse on the four trigger types |
| AnalogTrigger.LimitsCall | src/hal/analog_trigger.rs:66-76 | raw limits select the raw-limits function with (start, end) in that order; voltages select the voltage function |
| AnalogTrigger.SetLimits | src/hal/analog_trigger.rs:66-76 | exactly the selected call is made, gated, with its status checked |
| AnalogTrigger.InWindowQuery | src/hal/analog_trigger.rs:94-96 | the gated call, read as `n != 0` |
| AnalogTrigger.GetState | src/hal/analog_trigger.rs:98-100 | the gated call, read as `n != 0` |
| AnalogTrigger.BoolQueryCases | src/hal/analog_trigger.rs:94-100 | such a query gives `Ok(n != 0)` on status 0, and otherwise the gate's or the status's error |
| AnalogTrigger.GetOutput | src/hal/analog_trigger.rs:102-104 | the gated call given the raw trigger type, read as `n != 0` |
| AnalogTrigger.IfActivated | src/hal/analog_trigger.rs:106-111 | `func` runs once when the output is `Ok(true)`, and otherwise not at all, errors included |
| Enums.AnalogTriggerTypeFromInjective | src/hal/enums.rs:13-22 | each raw trigger type maps to its own variant |
| Enums.CounterModeByName | src/hal/enums.rs:29-38 | each raw counter mode maps to the mode of the same name, though the arms are listed in reverse |
| Enums.CounterModeFromInjective | src/hal/enums.rs:29-38 | the counter-mode map is injective |
| Enums.RuntimeTypeFrom | src/hal/enums.rs:45-52 | `HAL_Athena`, numbered 0, maps to `Native`; `HAL_Mock`, numbered 1, maps to `Mock` |
| Enums.AccelerometerRangeFromInjective | src/hal/enums.rs:61-69 | 2G, 4G and 8G map to their own ranges |
| Relay.CheckChannel | src/hal/relay.rs:18-20 | an ungated, logged native call, read as "result nonzero" |
| Relay.InitializeResult | src/hal/relay.rs:6-12 | a failed check gives `BadChannelType`; a passed one gives exactly the gated initialize call |
| Relay.BadChannelBeforeGate | src/hal/relay.rs:7-10 | `BadChannelType` exactly when the check fails, whether or not the HAL is initialised |
| Relay.Initialize | src/hal/relay.rs:6-12 | the check is always made; the initialize call is made only when the check passes and the gate is open |
| Relay.GetActive | src/hal/relay.rs:26-28 | the gated call, read as `n != 0` |
| Ints.I32AsU32 | src/error.rs:170 | `code as u32` keeps the 32 bits: the result is congruent to the code modulo 2^32 |
| Ints.U32AsI32 | src/error.rs:179 | `as i32` on a `u32` keeps the 32 bits, read as two's complement |
| Ints.U8AsI32 | src/hal/driverstation.rs:306 | widening a `u8` to `i32` keeps the value |
| Ints.CastRoundTrip | src/error.rs:170-179 | `as u32` then `as i32` gives back the code, and a non-negative code is unchanged by `as u32` |
| Ints.UsizeAsI16 | src/hal/joystick.rs:71 | `idx as i16` keeps the low 16 bits, read as two's complement |
| Ints.TruncDivRemainder | src/pid.rs:39 | Rust's `/` leaves a remainder smaller than the divisor, with the dividend's sign |
| Ints.TruncDivDiffersFromEuclidean | src/pid.rs:39 | truncation and Euclidean division differ on -1 / 2 |
| Pid.PidSystem.constructor | src/pid.rs:1-12 | a controller with the struct's fields, the given gains and setpoint; src/pid.rs defines no constructor, so starting `previous_error`, `integral` and `error` at 0 (and `running` false) is this model's choice |
| Pid.TickOutput | src/pid.rs:39-40 | Kp·error + Ki·integral + Kd·derivative; the derivative term vanishes when the error equals `previous_error` or Kd is 0 |
| Pid.DerivativeOverflowExcluded | src/pid.rs:39 | a tick whose error and integral fit in `i64` but whose `error - previous_error` does not is outside `TickDefined`, as a debug build panics there |
| Pid.PidSystem.Tick | src/pid.rs:36-41 | error := setpoint - input; integral := old integral + error * dt, using the new error; output is Kp·error + Ki·integral + Kd·((error - previous_error) / dt), truncating; only error and integral change |
| Pid.AtSetpoint | src/pid.rs:37-40 | at the setpoint with no remembered error, the output is the integral term alone |
| Pid.RepeatedTicks | src/pid.rs:38-40 | since `previous_error` is never written, a second identical tick changes the output by exactly Ki·error·dt |
| Results.Result.Map | src/hal/encoder.rs:154 | `Result::map` transforms a success and passes an error through unchanged |

## Left out

- Native functions are parameters. Their buffers, timing and side effects on hardware are not modelled. `hal_is_initialized()` is the `initialized` field, whose implementation is not part of this model.
- The values of the 23 generated status constants are parameters, as are the texts of the generated message arrays. The standard library's `NulError` description is opaque.
- Descriptor names and their UTF-8 decoding are not modelled. Floats (axis values, voltages) are carried as bit patterns and never computed on.
- DriverStation.ExtractField: `None` stands for the debug-build overflow panic. The masking that a release build would apply to the shift amount is not modelled.
- DriverStation.GetControlWordFixed and DriverStation.GetJoystickButtonsFixed are the corrected counterparts of the as-written queries; see Findings.
- Joystick.GetDescriptor: the contents of `mem::uninitialized()` are a parameter.
- Serial.Read, Serial.Write, Serial.Flush, Serial.Clear, Serial.Close: `port.into()` comes from `impl_convert!`, whose body is not shown, so it is the parameter `toRaw`. The bytes read or written are not modelled.
- HalIo.IoRead: the `&mut [u8]` buffer is a value that `func` returns updated.
- Relay.Initialize: the source passes the `PortHandle` itself to `check_channel`, which takes an `i32`, and so does not type-check. The model passes its raw value.
- Pid.PidSystem.Tick: four parts of `src/pid.rs:36-41` do not compile. The model reads them as follows.
  - `error` and `integral` in the output expression are unbound there. They are read as the fields just written.
  - The output is returned as an unbounded integer, although `tick` returns `()`.
  - `error * dt` mixes `i64` and `u64`. It is taken as the mathematical product.
  - `(error - previous_error) / dt` divides an `i64` by a `u64`. It is read as Rust's signed division, rounding toward zero (`Ints.TruncDiv`).
- Pid.PidSystem.Tick requires `dt != 0` and that three `i64` results fit in an `i64`: the new error `setpoint - input`, the new integral `integral + error * dt`, and the difference `error - previous_error`. A debug build panics otherwise. The product `error * dt` and the output are not range-checked, as they are read as mathematical values (below).
- `PidSystem::run` is not modelled: it spawns a thread and sleeps on wall-clock time. The `dt: Duration` field and the input and output closures are not modelled either.
- Handles: `src/hal/structs.rs` has compile errors, and one datatype per kind serves both files. The errors are:
  - it implements `Handle` twice for `AnalogOutputHandle`;
  - it has no `SpiHandle`;
  - its `transmute_handle` bound `H: Self` does not compile.
- The older `HalError::IndexOutOfRange` is never produced by the modelled code.
- Enums: the raw analog-trigger, counter-mode and accelerometer enums are kept only by name, because their headers are not part of this model. `HAL_RuntimeType` is numbered by `headers/HAL/HAL.h:43`.
- `Display` for the thread-priority errors is modelled, but `arr_to_str!` is not: its arrays are opaque.
- These are not modelled:
  - the `lazy_static` port vectors, which are never written;
  - the single-call peripheral wrappers (SPI/I2C initialize, the serial setters, encoder initialize);
  - `send_error`;
  - match time;
  - interrupts, CAN, the notifier and `src/hal/wrapper.rs`.

## Findings

| source | as written | input that shows it | evidently intended | confidence | as-written member | corrected member |
|---|---|---|---|---|---|---|
| src/hal/driverstation.rs:59-82 | `ENABLED_OFFSET` is 0, so `extract_field` computes `2 << (0 - 1)`, a shift by -1 | any control word, e.g. bitfield 0 | each flag is the bit at its offset | high (not executed) | DriverStation.ControlWordFromAlwaysPanics | DriverStation.ControlWordFromFixed |
| src/hal/driverstation.rs:163, src/hal/structs.rs:249 | `buttons & (1 << i) == 1` parses as `(buttons & (1 << i)) == 1`, true only for i = 0 | mask 2 (button 1 held): entry 1 reads false | entry i is "bit i is set" | high (not executed) | Structs.ButtonTestMissesButtonOne | Structs.ButtonsFromFixed |
| src/hal/joystick.rs:70-74 | the index is truncated to `i16` for the count check, but used whole to index the array | count 1, idx 65536: 65536 as i16 is 0 < 1, then `axes[65536]` panics | present exactly when idx is below the count and 12 | medium (not executed) | Joystick.AxesGetTruncationPanics | Joystick.AxesGetFixed |
