/** The caller-facing configuration and the conversion time it implies. */
module Config {
  import opened Bits
  import opened ChannelField
  import opened GainField
  import opened ResolutionField

  /** Either an absolute conversion time, or an offset to the resolution's nominal time (both in µs). */
  datatype ConversionTime = Absolute(us: U32) | Offset(offset: I32)

  const DefaultConversionTime: ConversionTime := Offset(0)

  /** `u32::saturating_add_signed`: the signed sum, clamped to the `u32` range. */
  function SaturatingAddSigned(a: U32, b: I32): (r: U32)
    ensures a + b < 0 ==> r == 0
    ensures 0 <= a + b <= U32_MAX ==> r == a + b
    ensures a + b > U32_MAX ==> r == U32_MAX
  {
    if a + b < 0 then 0 else if a + b > U32_MAX then U32_MAX else a + b
  }

  /** `Configuration::new` is the datatype constructor. */
  datatype Configuration = Configuration(channel: Channel, resolution: Resolution, gain: Gain, conversionTime: ConversionTime)
  {
    function WithChannel(c: Channel): (r: Configuration)
      ensures r.channel == c
      ensures r.resolution == resolution && r.gain == gain && r.conversionTime == conversionTime
    {
      this.(channel := c)
    }

    function WithResolution(res: Resolution): (r: Configuration)
      ensures r.resolution == res
      ensures r.channel == channel && r.gain == gain && r.conversionTime == conversionTime
    {
      this.(resolution := res)
    }

    function WithGain(g: Gain): (r: Configuration)
      ensures r.gain == g
      ensures r.channel == channel && r.resolution == resolution && r.conversionTime == conversionTime
    {
      this.(gain := g)
    }

    function WithConversionTime(t: ConversionTime): (r: Configuration)
      ensures r.conversionTime == t
      ensures r.channel == channel && r.resolution == resolution && r.gain == gain
    {
      this.(conversionTime := t)
    }

    /**
     * The delay, in µs, the driver waits for a conversion under this configuration.
     * An absolute time is used as given, whatever the resolution; an offset moves
     * the nominal time and stops at zero. It never reaches the top of the `u32`
     * range, because the largest nominal time plus the largest `i32` offset stays
     * below it.
     */
    function ConversionTimeUs(): (us: U32)
      ensures conversionTime.Absolute? ==> us == conversionTime.us
      ensures conversionTime.Offset? ==>
        var sum := resolution.ConversionTimeUs() + conversionTime.offset;
        us == if sum < 0 then 0 else sum
    {
      match conversionTime
      case Absolute(value) => value
      case Offset(value) => SaturatingAddSigned(resolution.ConversionTimeUs(), value)
    }
  }

  const DefaultConfiguration: Configuration :=
    Configuration(Channel1, TwelveBits, X1, Offset(0))

  /** A larger offset never gives a shorter delay. */
  lemma ConversionTimeMonotone(c: Configuration, o1: I32, o2: I32)
    requires o1 <= o2
    ensures c.WithConversionTime(Offset(o1)).ConversionTimeUs() <= c.WithConversionTime(Offset(o2)).ConversionTimeUs()
  {
  }

  /** The delays the driver's own tests expect at 12-bit resolution. */
  lemma ConversionTimeExamples()
    ensures DefaultConfiguration.ConversionTimeUs() == 4167
    ensures DefaultConfiguration.WithConversionTime(Absolute(42)).ConversionTimeUs() == 42
    ensures DefaultConfiguration.WithConversionTime(Offset(1337)).ConversionTimeUs() == 5504
    ensures DefaultConfiguration.WithConversionTime(Offset(-2167)).ConversionTimeUs() == 2000
    ensures DefaultConfiguration.WithConversionTime(Offset(-5000)).ConversionTimeUs() == 0
  {
  }
}
