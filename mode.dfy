/** The device's conversion mode: a one-bit field of the configuration register. */
module ModeField {

  datatype Mode = Continuous | OneShot
  {
    /** The mode bit: 1 for continuous conversion, 0 for a single conversion. */
    function Mask(): (m: nat)
      ensures m <= 1
      ensures (m == 1) == (this == Continuous)
    {
      match this
      case Continuous => 1
      case OneShot => 0
    }
  }

  const DefaultMode: Mode := Continuous
}
