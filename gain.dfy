/** The programmable gain amplifier setting: a two-bit field of the configuration register. */
module GainField {
  import opened Bits

  datatype Gain = X1 | X2 | X4 | X8
  {
    /** The amplification factor, which the sample decoder divides out. */
    function Multiplier(): (g: int)
      ensures g == Pow2(Mask()) && g > 0
    {
      match this
      case X1 => 1
      case X2 => 2
      case X4 => 4
      case X8 => 8
    }

    /** The gain's two-bit register code; `GainOfMask` inverts it. */
    function Mask(): (m: nat)
      ensures m < 4
    {
      match this
      case X1 => 0  // 0b00
      case X2 => 1  // 0b01
      case X4 => 2  // 0b10
      case X8 => 3  // 0b11
    }
  }

  const DefaultGain: Gain := X1

  /** The gain whose code is `m`; every two-bit value names one. */
  function GainOfMask(m: nat): (g: Gain)
    requires m < 4
    ensures g.Mask() == m
  {
    if m == 0 then X1 else if m == 1 then X2 else if m == 2 then X4 else X8
  }

  /** Distinct gains have distinct codes. */
  lemma MaskInjective(a: Gain, b: Gain)
    ensures a.Mask() == b.Mask() ==> a == b
  {
    if a.Mask() == b.Mask() {
      assert a == GainOfMask(a.Mask());
    }
  }
}
