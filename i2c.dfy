/** I2C port numbering (src/hal/i2c.rs). */
module I2c {
  import opened Ints

  /** Which port an I2C device is on. */
  datatype I2cPort = OnBoard | MXP
  {
    /** `I2cPort::get_port`: on-board is 0, MXP is 1. */
    function GetPort(): (n: i32)
      ensures n == 0 <==> OnBoard?
      ensures n == 1 <==> MXP?
    {
      match this
      case OnBoard => 0
      case MXP => 1
    }
  }

  /** Different ports have different numbers. */
  lemma GetPortInjective(p: I2cPort, q: I2cPort)
    ensures p.GetPort() == q.GetPort() <==> p == q
  {
  }
}
