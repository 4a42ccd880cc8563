/**
 * The device's configuration register and its one-byte wire format. From the
 * most significant bit down: not-ready (1 bit), channel (2), mode (1),
 * resolution (2), gain (2).
 */
module CfgRegister {
  import opened Bits
  import opened ChannelField
  import opened GainField
  import opened ModeField
  import opened ResolutionField
  import opened Config

  /** `ready` is true when the register reports a fresh sample; on the wire bit 7 holds its negation. */
  datatype Cfg = Cfg(ready: bool, channel: Channel, mode: Mode, resolution: Resolution, gain: Gain)

  const DefaultCfg: Cfg := Cfg(true, DefaultChannel, DefaultMode, DefaultResolution, DefaultGain)

  /** Takes channel, gain and resolution from a configuration; `ready` and `mode` stay. */
  function SetValuesFromConfiguration(cfg: Cfg, other: Configuration): (r: Cfg)
    ensures r.channel == other.channel && r.gain == other.gain && r.resolution == other.resolution
    ensures r.ready == cfg.ready && r.mode == cfg.mode
  {
    cfg.(channel := other.channel, gain := other.gain, resolution := other.resolution)
  }

  /** The register byte: the sum of the shifted field codes. */
  function Encode(cfg: Cfg): Byte
  {
    (if cfg.ready then 0 else 1) * 128 + cfg.channel.Mask() * 32 + cfg.mode.Mask() * 16 +
    cfg.resolution.Mask() * 4 + cfg.gain.Mask()
  }

  /** Each field of the register sits at its own bit positions of `Encode(cfg)`. */
  lemma EncodeFields(cfg: Cfg)
    ensures Encode(cfg) / 128 == (if cfg.ready then 0 else 1)
    ensures (Encode(cfg) / 32) % 4 == cfg.channel.Mask()
    ensures (Encode(cfg) / 16) % 2 == cfg.mode.Mask()
    ensures (Encode(cfg) / 4) % 4 == cfg.resolution.Mask()
    ensures Encode(cfg) % 4 == cfg.gain.Mask()
  {
    var n, c, m, r, g := (if cfg.ready then 0 else 1), cfg.channel.Mask(), cfg.mode.Mask(),
      cfg.resolution.Mask(), cfg.gain.Mask();
    var b := Encode(cfg);
    DigitOf(b, 0, n, 2, 128, c * 32 + m * 16 + r * 4 + g);
    DigitOf(b, n, c, 4, 32, m * 16 + r * 4 + g);
    DigitOf(b, n * 4 + c, m, 2, 16, r * 4 + g);
    DigitOf(b, n * 8 + c * 2 + m, r, 4, 4, g);
    DivModUnique(b, 4, n * 32 + c * 8 + m * 4 + r, g);
  }

  /** `Cfg::as_byte`: builds the byte in a local by alternately OR-ing in a field and shifting left. */
  method AsByte(cfg: Cfg) returns (result: Byte)
    ensures result == Encode(cfg)
  {
    Pow2Table();
    var n, c, m, r, g := (if cfg.ready then 0 else 1), cfg.channel.Mask(), cfg.mode.Mask(),
      cfg.resolution.Mask(), cfg.gain.Mask();
    result := 0;
    result := Or(result, n);
    ShlThenOr(result, 2, c, 8);
    result := Shl(result, 2, 8);
    result := Or(result, c);
    ShlThenOr(result, 1, m, 8);
    result := Shl(result, 1, 8);
    result := Or(result, m);
    ShlThenOr(result, 2, r, 8);
    result := Shl(result, 2, 8);
    result := Or(result, r);
    ShlThenOr(result, 2, g, 8);
    result := Shl(result, 2, 8);
    result := Or(result, g);
  }

  /**
   * `Cfg::from(u8)`: extracts each field by shifting and masking. Every masked
   * two-bit value names a field value, so no byte reaches an unreachable arm.
   * The register is ready exactly when bit 7 is clear.
   */
  function FromByte(value: Byte): (cfg: Cfg)
    ensures cfg.ready == (value < 128)
  {
    Pow2Table();
    ShrDiv(value, 7);
    var ready := Shr(value, 7) == 0;
    var channel := ChannelOfMask(And(Shr(value, 5), 3));
    var mode := if And(Shr(value, 4), 1) == 1 then Continuous else OneShot;
    var resolution := ResolutionOfMask(And(Shr(value, 2), 3));
    var gain := GainOfMask(And(value, 3));
    Cfg(ready, channel, mode, resolution, gain)
  }

  /** What `FromByte` reads from each bit position, in plain arithmetic. */
  lemma FromByteFields(b: Byte)
    ensures FromByte(b).channel.Mask() == (b / 32) % 4
    ensures FromByte(b).mode.Mask() == (b / 16) % 2
    ensures FromByte(b).resolution.Mask() == (b / 4) % 4
    ensures FromByte(b).gain.Mask() == b % 4
  {
    Pow2Table();
    ShrDiv(b, 5);
    ShrDiv(b, 4);
    ShrDiv(b, 2);
    AndThree(Shr(b, 5));
    AndThree(Shr(b, 2));
    AndThree(b);
    AndOne(Shr(b, 4));
  }

  /** Decoding an encoded register gives it back, `ready` included. */
  lemma DecodeEncode(cfg: Cfg)
    ensures FromByte(Encode(cfg)) == cfg
  {
    var c := FromByte(Encode(cfg));
    EncodeFields(cfg);
    FromByteFields(Encode(cfg));
    ChannelField.MaskInjective(c.channel, cfg.channel);
    GainField.MaskInjective(c.gain, cfg.gain);
    ResolutionField.MaskInjective(c.resolution, cfg.resolution);
  }

  /** Encoding a decoded byte gives it back: the codec is a bijection on all 256 bytes. */
  lemma EncodeDecode(b: Byte)
    ensures Encode(FromByte(b)) == b
  {
    var e := Encode(FromByte(b));
    EncodeFields(FromByte(b));
    FromByteFields(b);
    FieldSplit(b);
    FieldSplit(e);
    assert e / 128 == b / 128 && (e / 32) % 4 == (b / 32) % 4 && (e / 16) % 2 == (b / 16) % 2;
    assert (e / 4) % 4 == (b / 4) % 4 && e % 4 == b % 4;
  }

  /** A byte is the sum of its five register fields at their place values. */
  lemma FieldSplit(b: Byte)
    ensures b == (b / 128) * 128 + ((b / 32) % 4) * 32 + ((b / 16) % 2) * 16 + ((b / 4) % 4) * 4 + b % 4
  {
    var q1, g := b / 4, b % 4;
    var q2, r := q1 / 4, q1 % 4;
    var q3, m := q2 / 2, q2 % 2;
    var n, c := q3 / 4, q3 % 4;
    assert b == 128 * n + 32 * c + 16 * m + 4 * r + g;
    DivModUnique(b, 16, q2, 4 * r + g);
    DivModUnique(b, 32, q3, 16 * m + 4 * r + g);
    DivModUnique(b, 128, n, 32 * c + 16 * m + 4 * r + g);
  }

  /** The default register (ready, channel 1, continuous, 12 bits, gain 1) is `0b0001_0000`. */
  lemma DefaultCfgEncoding()
    ensures Encode(DefaultCfg) == 0x10
  {
  }
}
