/**
 * The conversion resolution: a two-bit field of the configuration register,
 * and the per-resolution tables the decoder and the timing use.
 */
module ResolutionField {
  import opened Bits

  datatype Resolution = TwelveBits | FourteenBits | SixteenBits | EighteenBits
  {
    /** Number of data bytes in a sample: the fewest whole bytes that hold `Bits()`. */
    function Bytes(): (n: nat)
      ensures 8 * n >= Bits() && 8 * (n - 1) < Bits()
    {
      match this
      case TwelveBits | FourteenBits | SixteenBits => 2
      case EighteenBits => 3
    }

    /** Number of bits in a sample: two more per step of the register code. */
    function Bits(): (b: nat)
      ensures b == 12 + 2 * Mask()
    {
      match this
      case TwelveBits => 12
      case FourteenBits => 14
      case SixteenBits => 16
      case EighteenBits => 18
    }

    /** The resolution's two-bit register code; `ResolutionOfMask` inverts it. */
    function Mask(): (m: nat)
      ensures m < 4
      ensures (m == 3) == (this == EighteenBits)
    {
      match this
      case TwelveBits => 0  // 0b00
      case FourteenBits => 1  // 0b01
      case SixteenBits => 2  // 0b10
      case EighteenBits => 3  // 0b11
    }

    /** The sign bit of a sample: the top bit of a `Bits()`-wide code. */
    function SignBit(): (s: U32)
    {
      match this
      case TwelveBits => 0x800
      case FourteenBits => 0x2000
      case SixteenBits => 0x8000
      case EighteenBits => 0x20000
    }

    /** The 32-bit mask of every bit above the sample, OR-ed in to sign-extend it. */
    function SignExtend(): (e: U32)
    {
      match this
      case TwelveBits => 0xFFFFF000
      case FourteenBits => 0xFFFFC000
      case SixteenBits => 0xFFFF0000
      case EighteenBits => 0xFFFC0000
    }

    /** The smallest two's-complement code of the resolution. */
    function Min(): (m: I32)
      ensures m == -(SignBit() as int)
    {
      match this
      case TwelveBits => -2048
      case FourteenBits => -8192
      case SixteenBits => -32768
      case EighteenBits => -131072
    }

    /** The largest two's-complement code of the resolution. */
    function Max(): (m: I32)
      ensures m == SignBit() as int - 1
    {
      match this
      case TwelveBits => 2047
      case FourteenBits => 8191
      case SixteenBits => 32767
      case EighteenBits => 131071
    }

    /** Samples per second times four (240, 60, 15 and 3.75 samples per second). */
    function SamplesPerSecondX4(): nat
    {
      match this
      case TwelveBits => 960
      case FourteenBits => 240
      case SixteenBits => 60
      case EighteenBits => 15
    }

    /**
     * Nominal conversion time in microseconds: the sampling period rounded up to
     * a whole microsecond.
     */
    function ConversionTimeUs(): (us: U32)
      ensures (us - 1) * SamplesPerSecondX4() < 4_000_000 <= us * SamplesPerSecondX4()
    {
      match this
      case TwelveBits => 4167
      case FourteenBits => 16667
      case SixteenBits => 66667
      case EighteenBits => 266667
    }
  }

  const DefaultResolution: Resolution := TwelveBits

  /** The resolution whose code is `m`; every two-bit value names one. */
  function ResolutionOfMask(m: nat): (r: Resolution)
    requires m < 4
    ensures r.Mask() == m
  {
    if m == 0 then TwelveBits else if m == 1 then FourteenBits else if m == 2 then SixteenBits else EighteenBits
  }

  /**
   * The sign bit is bit `Bits() - 1`, and the sign-extension mask is exactly the
   * bits from `Bits()` to 31, so it does not overlap the sign bit.
   */
  lemma SignTables(r: Resolution)
    ensures r.SignBit() == Pow2(r.Bits() - 1)
    ensures r.SignExtend() == HighMask(32, r.Bits())
    ensures And(r.SignExtend(), r.SignBit()) == 0
  {
    Pow2Table();
    assert r.SignExtend() == HighMask(32, r.Bits()) && r.SignBit() == Pow2(r.Bits() - 1);
    AndBit(HighMask(32, r.Bits()), r.Bits() - 1);
    HighMaskBitClear(32, r.Bits());
  }

  /**
   * The powers of two the scaling uses: a full code range of `2^Bits()` is
   * twice the sign bit, `2^(18 - Bits())` pads every resolution to 18 bits,
   * the sign bit is `2^11` (the 12-bit one) times `2^(Bits() - 12)`, and the
   * padding and that factor together make `2^6`.
   */
  lemma Powers(r: Resolution)
    ensures Pow2(r.Bits()) == 2 * r.SignBit()
    ensures Pow2(18 - r.Bits()) * Pow2(r.Bits()) == 0x4_0000
    ensures Pow2(r.Bits() - 12) * 0x800 == r.SignBit()
    ensures Pow2(18 - r.Bits()) * Pow2(r.Bits() - 12) == 64
  {
    Pow2Table();
  }

  /** Distinct resolutions have distinct codes. */
  lemma MaskInjective(a: Resolution, b: Resolution)
    ensures a.Mask() == b.Mask() ==> a == b
  {
    if a.Mask() == b.Mask() {
      assert a == ResolutionOfMask(a.Mask());
    }
  }

  /** A finer resolution takes strictly longer to convert. */
  lemma ConversionTimeIncreasesWithBits(a: Resolution, b: Resolution)
    ensures a.Bits() < b.Bits() ==> a.ConversionTimeUs() < b.ConversionTimeUs()
  {
  }
}
