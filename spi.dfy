/** SPI port numbering (src/hal/spi.rs). */
module Spi {
  import opened Ints

  /** Which port an SPI device is on; `Unknown` carries any other number. */
  datatype SpiPort = CS0 | CS1 | CS2 | CS3 | MXP | Unknown(k: i32)
  {
    /** `SpiPort::get_port`. */
    function GetPort(): (n: i32)
      ensures !Unknown? ==> 0 <= n <= 4
      ensures Unknown? ==> n == k
    {
      match this
      case CS0 => 0
      case CS1 => 1
      case CS2 => 2
      case CS3 => 3
      case MXP => 4
      case Unknown(k) => k
    }
  }

  /** `From<i32> for SpiPort`. */
  function FromI32(i: i32): (p: SpiPort)
    ensures p.Unknown? <==> !(0 <= i <= 4)
  {
    match i
    case 0 => CS0
    case 1 => CS1
    case 2 => CS2
    case 3 => CS3
    case 4 => MXP
    case _ => Unknown(i)
  }

  /** Every port number survives the conversion to a port and back. */
  lemma NumberRoundTrip(i: i32)
    ensures FromI32(i).GetPort() == i
  {
  }

  /** A named port survives the conversion to a number and back; `Unknown(k)`
      does exactly when `k` is not one of the named numbers, and otherwise
      becomes the port with that number. */
  lemma PortRoundTrip(p: SpiPort)
    ensures !p.Unknown? ==> FromI32(p.GetPort()) == p
    ensures p.Unknown? && !(0 <= p.k <= 4) ==> FromI32(p.GetPort()) == p
    ensures p.Unknown? && 0 <= p.k <= 4 ==> FromI32(p.GetPort()) == [CS0, CS1, CS2, CS3, MXP][p.k]
  {
  }

  /** The named ports have the distinct numbers 0 to 4, in declaration order. */
  lemma NamedPortsDistinct()
    ensures forall i :: 0 <= i < 5 ==> [CS0, CS1, CS2, CS3, MXP][i].GetPort() == i
  {
    var named := [CS0, CS1, CS2, CS3, MXP];
    assert named[0].GetPort() == 0 && named[1].GetPort() == 1 && named[2].GetPort() == 2;
    assert named[3].GetPort() == 3 && named[4].GetPort() == 4;
  }
}
