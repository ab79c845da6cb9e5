/** src/hal/halio.rs: one type for the three kinds of I/O port, its
    projections, and the higher-order read/write/clear helpers. */
module HalIo {
  import opened Ints
  import opened Results
  import opened Error
  import opened SerialPorts
  import opened Spi

  /** A port on one of the RoboRIO's I/O interfaces; `I2c` holds (port, address). */
  datatype RobotIoPort = Serial(serial: SerialPort) | Spi(spi: SpiPort) | I2c(port: i32, address: i32)
  {
    /** `as_serial`. */
    function AsSerial(): (r: HalResult<SerialPort>)
      ensures r.Ok? <==> Serial?
      ensures r.Ok? ==> r.value == serial
      ensures r.Err? ==> r.error == WrongIoInterface
    {
      if Serial? then Ok(serial) else Err(WrongIoInterface)
    }

    /** `as_spi`. */
    function AsSpi(): (r: HalResult<SpiPort>)
      ensures r.Ok? <==> Spi?
      ensures r.Ok? ==> r.value == spi
      ensures r.Err? ==> r.error == WrongIoInterface
    {
      if Spi? then Ok(spi) else Err(WrongIoInterface)
    }

    /** `as_i2c`: the pair in constructor order. */
    function AsI2c(): (r: HalResult<(i32, i32)>)
      ensures r.Ok? <==> I2c?
      ensures r.Ok? ==> r.value == (port, address)
      ensures r.Err? ==> r.error == WrongIoInterface
    {
      if I2c? then Ok((port, address)) else Err(WrongIoInterface)
    }
  }

  /** Exactly one of the three projections succeeds, and the successful one
      recovers the port it came from. */
  lemma ExactlyOneProjection(p: RobotIoPort)
    ensures (if p.AsSerial().Ok? then 1 else 0) + (if p.AsSpi().Ok? then 1 else 0)
            + (if p.AsI2c().Ok? then 1 else 0) == 1
    ensures p.AsSerial().Ok? ==> p == Serial(p.AsSerial().value)
    ensures p.AsSpi().Ok? ==> p == Spi(p.AsSpi().value)
    ensures p.AsI2c().Ok? ==> p == I2c(p.AsI2c().value.0, p.AsI2c().value.1)
  {
  }

  /** A read function: given the port, the buffer and the count, it yields
      a result and the buffer as it leaves it. */
  type ReadFn = (RobotIoPort, seq<u8>, i32) -> (HalResult<i32>, seq<u8>)
  type WriteFn = (RobotIoPort, seq<u8>, i32) -> HalResult<i32>
  type ClearFn = RobotIoPort -> HalResult<()>

  /** `io_read`: hands everything to `func`, the buffer included. */
  function IoRead(func: ReadFn, port: RobotIoPort, buffer: seq<u8>, count: i32): (r: (HalResult<i32>, seq<u8>))
    ensures r == func(port, buffer, count)
  {
    func(port, buffer, count)
  }

  /** `io_write`. */
  function IoWrite(func: WriteFn, port: RobotIoPort, buffer: seq<u8>, count: i32): (r: HalResult<i32>)
    ensures r == func(port, buffer, count)
  {
    func(port, buffer, count)
  }

  /** `io_clear`. */
  function IoClear(func: ClearFn, port: RobotIoPort): (r: HalResult<()>)
    ensures r == func(port)
  {
    func(port)
  }
}
