/** The input channel selector: a two-bit field of the configuration register. */
module ChannelField {

  datatype Channel = Channel1 | Channel2 | Channel3 | Channel4
  {
    /** The channel's two-bit register code; `OfMask` inverts it. */
    function Mask(): (m: nat)
      ensures m < 4
    {
      match this
      case Channel1 => 0  // 0b00
      case Channel2 => 1  // 0b01
      case Channel3 => 2  // 0b10
      case Channel4 => 3  // 0b11
    }
  }

  const DefaultChannel: Channel := Channel1

  /** The channel whose code is `m`; every two-bit value names one. */
  function ChannelOfMask(m: nat): (c: Channel)
    requires m < 4
    ensures c.Mask() == m
  {
    if m == 0 then Channel1 else if m == 1 then Channel2 else if m == 2 then Channel3 else Channel4
  }

  /** Distinct channels have distinct codes, so the field identifies the channel. */
  lemma MaskInjective(a: Channel, b: Channel)
    ensures a.Mask() == b.Mask() ==> a == b
  {
    if a.Mask() == b.Mask() {
      assert a == ChannelOfMask(a.Mask());
    }
  }
}
