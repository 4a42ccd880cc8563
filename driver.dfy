/**
 * The sample decoder: turns the four bytes read from the device into millivolts
 * or an error. `Conversion` is the reference reading in plain arithmetic;
 * `Convert` follows the driver's bit manipulations step by step and is proved
 * to agree with it.
 */
module Driver {
  import opened Bits
  import opened ResolutionField
  import opened GainField
  import opened ChannelField
  import opened ModeField
  import opened CfgRegister
  import opened Hal
  import opened Errors

  type I64 = x: int | -0x8000_0000_0000_0000 <= x < 0x8000_0000_0000_0000

  /** Reference voltage in nanovolts. */
  const REFERENCE_VOLTAGE: I64 := 2_048_000_000
  const REFERENCE_VOLTAGE_X2: I64 := REFERENCE_VOLTAGE * 2

  /**
   * The byte that echoes the configuration register: with 18-bit samples the
   * device sends three data bytes, so the register arrives in the fourth byte,
   * which the driver recognises by its resolution bits `0b11`.
   */
  function ConfigByte(buffer: Buffer): (b: Byte)
    ensures (buffer[3] / 4) % 4 == 3 ==> b == buffer[3]
    ensures (buffer[3] / 4) % 4 != 3 ==> b == buffer[2]
  {
    AndMask12(buffer[3]);
    if And(buffer[3], 12) == 12 then buffer[3] else buffer[2]
  }

  /** `x & 0b1100` keeps bits 3-2 of `x` in place. */
  lemma AndMask12(x: nat)
    ensures And(x, 12) == 4 * ((x / 4) % 4)
  {
    if x != 0 && x / 2 != 0 {
      assert And(x, 12) == 2 * And(x / 2, 6);
      assert And(x / 2, 6) == 2 * And(x / 4, 3) by {
        DivModHalf(x, 2);
      }
      AndThree(x / 4);
    } else if x != 0 {
      assert x / 4 == 0;
    }
  }

  /** The unsigned big-endian number spelled by the bytes `s`. */
  function BigEndian(s: seq<Byte>): (v: nat)
    ensures v < Pow2(8 * |s|)
  {
    if |s| == 0 then 0
    else
      var init := BigEndian(s[..|s| - 1]);
      Pow2NextByte(|s| - 1);
      init * 256 + s[|s| - 1]
  }

  /** `x as i32` for a `u32`: the signed number with the same 32 bits. */
  function AsI32(x: U32): (v: I32)
    ensures (x - v) % 0x1_0000_0000 == 0
  {
    if x < 0x8000_0000 then x else x - 0x1_0000_0000
  }

  /** Rust's signed integer division, which truncates toward zero. */
  function TruncDiv(a: int, b: int): (q: int)
    requires b > 0
    ensures a >= 0 ==> 0 <= a - b * q < b
    ensures a < 0 ==> -b < a - b * q <= 0
  {
    if a >= 0 then a / b else -((-a) / b)
  }

  /**
   * The output code of a sample with `bits` significant bits in `raw`: bit
   * `bits - 1` is the sign, and when it is set everything from that bit up is
   * replaced by ones before the 32 bits are read as signed.
   */
  function Code(raw: nat, res: Resolution): int
  {
    if Bit(raw, res.Bits() - 1) == 1 then raw % Pow2(res.Bits()) - Pow2(res.Bits()) else raw
  }

  /**
   * The reference reading of a read buffer: `NotReady` when the echoed register
   * says so; otherwise the code joined from the first `Bytes()` bytes, accepted
   * strictly between the resolution's `Min()` and `Max()`, and scaled to
   * `code * 4_096_000_000 / 2^bits` nanovolts over `1_000_000 * gain`.
   */
  function Conversion(buffer: Buffer): Result<real>
  {
    var cfg := FromByte(ConfigByte(buffer));
    if !cfg.ready then Err(NotReady)
    else
      var res := cfg.resolution;
      Scaled(Code(BigEndian(buffer[..res.Bytes()]), res), res, cfg.gain)
  }

  /** A reading is `NotReady` exactly when bit 7 of the echoed register is set. */
  lemma ConversionNotReady(buffer: Buffer)
    ensures (Conversion(buffer) == Err(NotReady)) == (ConfigByte(buffer) >= 128)
  {
  }

  /**
   * Range check and scaling of an output code: codes strictly between `Min()`
   * and `Max()` become `code * 4_096_000_000 / 2^bits` nanovolts over
   * `1_000_000 * gain`, which is one millivolt per step at 12 bits, a quarter
   * at 14, and so on, divided by the gain.
   */
  function Scaled(code: int, res: Resolution, gain: Gain): (r: Result<real>)
    ensures r.Ok? == (res.Min() < code < res.Max())
    ensures r.Err? ==> r.error == IllegalValue(code, res.Min(), res.Max())
  {
    if res.Min() < code < res.Max() then
      Ok((code * 15625 * Pow2(18 - res.Bits())) as real / (1_000_000 * gain.Multiplier()) as real)
    else
      Err(IllegalValue(code, res.Min(), res.Max()))
  }

  /** An accepted code reads as `code` steps of `2^(bits - 12) * gain` to the millivolt. */
  lemma ScaledValue(code: int, res: Resolution, gain: Gain)
    requires res.Min() < code < res.Max()
    ensures Scaled(code, res, gain).value == code as real / (Pow2(res.Bits() - 12) * gain.Multiplier()) as real
  {
    var n, d := code * 15625 * Pow2(18 - res.Bits()), 1_000_000 * gain.Multiplier();
    Powers(res);
    CrossProducts(code, Pow2(18 - res.Bits()), Pow2(res.Bits() - 12), gain.Multiplier());
    RealQuotients(n, d, code, Pow2(res.Bits() - 12) * gain.Multiplier());
  }

  /** With `a * b == 64`, `code * 15625 * a` over `1_000_000 * g` and `code` over `b * g` have equal cross products. */
  lemma CrossProducts(code: int, a: int, b: int, g: int)
    requires a * b == 64
    ensures (code * 15625 * a) * (b * g) == code * (1_000_000 * g)
  {
    calc {
      (code * 15625 * a) * (b * g);
      (code * 15625) * (a * b) * g;
      (code * 15625) * 64 * g;
    }
  }

  /** Two quotients are equal when the cross products are. */
  lemma RealQuotients(a: int, b: int, c: int, d: int)
    requires b > 0 && d > 0 && a * d == c * b
    ensures a as real / b as real == c as real / d as real
  {
    assert (a * d) as real == a as real * d as real;
    assert (c * b) as real == c as real * b as real;
  }

  /**
   * `MCP3424::convert`: selects the register byte, rejects a stale sample,
   * shifts the data bytes into a `u32`, sign-extends, range-checks and scales.
   */
  method Convert(buffer: Buffer) returns (r: Result<real>)
    ensures r == Conversion(buffer)
  {
    var cfg := FromByte(ConfigByte(buffer));
    if !cfg.ready {
      return Err(NotReady);
    }
    var res := cfg.resolution;
    var value: U32 := 0;
    for i := 0 to res.Bytes()
      invariant value == BigEndian(buffer[..i])
    {
      assert buffer[..i + 1][..i] == buffer[..i];
      AppendByte(value, i, buffer[i]);
      value := Shl(value, 8, 32);
      value := Or(value, buffer[i]);
    }
    SignExtension(value, res);
    if And(value, res.SignBit()) != 0 {
      value := Or(value, res.SignExtend());
    }
    var code := AsI32(value);
    var min, max := res.Min(), res.Max();
    if code > min && code < max {
      ScaledByTruncDiv(code, res, cfg.gain);
      var scaled: I64 := TruncDiv(code * REFERENCE_VOLTAGE_X2, Pow2(res.Bits()));
      r := Ok(scaled as real / (1_000_000 * cfg.gain.Multiplier()) as real);
    } else {
      r := Err(IllegalValue(code, min, max));
    }
  }

  /**
   * In range, the driver's integer steps give `Scaled`: the `i64` product,
   * its truncating division by `2^bits`, and the quotient over `1_000_000 * gain`.
   */
  lemma ScaledByTruncDiv(code: int, res: Resolution, gain: Gain)
    requires res.Min() < code < res.Max()
    ensures -0x8000_0000_0000_0000 <= code * REFERENCE_VOLTAGE_X2 < 0x8000_0000_0000_0000
    ensures -REFERENCE_VOLTAGE < TruncDiv(code * REFERENCE_VOLTAGE_X2, Pow2(res.Bits())) < REFERENCE_VOLTAGE
    ensures Scaled(code, res, gain) ==
      Ok(TruncDiv(code * REFERENCE_VOLTAGE_X2, Pow2(res.Bits())) as real / (1_000_000 * gain.Multiplier()) as real)
  {
    ScalingIsExact(code, res);
  }

  /** One step of the join: `value << 8 | byte` in a `u32` appends the byte while fewer than three are in. */
  lemma AppendByte(value: nat, i: nat, byte: Byte)
    requires i < 3 && value < Pow2(8 * i)
    ensures value * 256 + byte < 0x100_0000
    ensures Shl(value, 8, 32) == value * 256
    ensures Or(Shl(value, 8, 32), byte) == value * 256 + byte
  {
    Pow2Table();
    Pow2Monotone(8 * i, 16);
    ShlThenOr(value, 8, byte, 32);
  }

  /**
   * Testing the sign bit and OR-ing in `SignExtend()` before reading the `u32`
   * as signed yields `Code`, for any raw value of at most three bytes.
   */
  lemma SignExtension(value: nat, res: Resolution)
    requires value < Pow2(8 * res.Bytes())
    ensures value < 0x1_0000_0000
    ensures And(value, res.SignBit()) != 0 ==>
      Or(value, res.SignExtend()) < 0x1_0000_0000 && AsI32(Or(value, res.SignExtend())) == Code(value, res)
    ensures And(value, res.SignBit()) == 0 ==> AsI32(value) == Code(value, res)
  {
    SampleBelow24Bits(value, res);
    SignExtendMask(res);
    SignBitTest(value, res);
    if And(value, res.SignBit()) != 0 {
      OrSignExtend(value, res);
    }
  }

  /** A sample of at most three bytes is below `2^24`. */
  lemma SampleBelow24Bits(value: nat, res: Resolution)
    requires value < Pow2(8 * res.Bytes())
    ensures value < 0x100_0000
  {
    Pow2Table();
    Pow2Monotone(8 * res.Bytes(), 24);
  }

  /** `SignExtend()` is `2^32 - 2^bits`, with `2^bits` at most `2^18`. */
  lemma SignExtendMask(res: Resolution)
    ensures res.SignExtend() == 0x1_0000_0000 - Pow2(res.Bits())
    ensures Pow2(res.Bits()) <= 0x4_0000
  {
    SignTables(res);
    Pow2Table();
    Pow2Monotone(res.Bits(), 18);
  }

  /** `value & SignBit()` tests bit `bits - 1`. */
  lemma SignBitTest(value: nat, res: Resolution)
    ensures (And(value, res.SignBit()) != 0) == (Bit(value, res.Bits() - 1) == 1)
  {
    SignTables(res);
    AndBit(value, res.Bits() - 1);
  }

  /** `value | SignExtend()` sets every bit from `bits` up and keeps the `bits` low ones. */
  lemma OrSignExtend(value: nat, res: Resolution)
    requires value < 0x100_0000
    ensures Or(value, res.SignExtend()) == res.SignExtend() + value % Pow2(res.Bits())
  {
    SignTables(res);
    Pow2Table();
    OrHighMask(value, 32, res.Bits());
  }

  /**
   * For every accepted code the product with `REFERENCE_VOLTAGE_X2` fits in an
   * `i64`, and dividing it by `2^bits` is exact because `4_096_000_000` is
   * `2^18 * 15625`. The quotient, in nanovolts, stays strictly inside the
   * reference voltage.
   */
  lemma ScalingIsExact(code: int, res: Resolution)
    requires res.Min() < code < res.Max()
    ensures -0x8000_0000_0000_0000 <= code * REFERENCE_VOLTAGE_X2 < 0x8000_0000_0000_0000
    ensures TruncDiv(code * REFERENCE_VOLTAGE_X2, Pow2(res.Bits())) == code * 15625 * Pow2(18 - res.Bits())
    ensures -REFERENCE_VOLTAGE < code * 15625 * Pow2(18 - res.Bits()) < REFERENCE_VOLTAGE
  {
    var p, q := Pow2(res.Bits()), Pow2(18 - res.Bits());
    Powers(res);
    var n := code * 15625 * q;
    assert code * REFERENCE_VOLTAGE_X2 == n * p by {
      assert code * REFERENCE_VOLTAGE_X2 == code * 15625 * (q * p);
    }
    assert -0x2_0000 < code * q < 0x2_0000 by {
      MulStrict(-(res.SignBit() as int), code, q);
      MulStrict(code, res.SignBit(), q);
      assert res.SignBit() * q * 2 == 0x4_0000;
    }
    ExactTruncDiv(n, p);
  }

  /** Dividing a multiple of `p` by `p` truncates nothing, whatever the sign. */
  lemma ExactTruncDiv(n: int, p: int)
    requires p > 0
    ensures TruncDiv(n * p, p) == n
  {
    if n >= 0 {
      assert n * p >= 0;
      DivModUnique(n * p, p, n, 0);
    } else {
      MulStrict(n, 0, p);
      DivModUnique(-(n * p), p, -n, 0);
    }
  }

  lemma MulStrict(a: int, b: int, c: int)
    requires a < b && c > 0
    ensures a * c < b * c
  {
    assert b * c - a * c == (b - a) * c;
    MulAtLeast(c, b - a);
  }

  /**
   * When no bit above the sample width is set, the code is the `bits`-wide
   * two's-complement reading of the raw bits, and it lies in `[Min(), Max()]`.
   */
  lemma CodeIsTwosComplement(raw: nat, res: Resolution)
    requires raw < Pow2(res.Bits())
    ensures Code(raw, res) == if raw >= Pow2(res.Bits() - 1) then raw - Pow2(res.Bits()) else raw
    ensures res.Min() <= Code(raw, res) <= res.Max()
  {
    SignTables(res);
    var b := res.Bits();
    assert Pow2(b) == 2 * Pow2(b - 1);
    BitBelow(raw, b - 1);
    DivModUnique(raw, Pow2(b), 0, raw);
  }

  /**
   * Every accepted code, scaled and multiplied back by the gain, lies strictly
   * inside the converter's full scale of plus or minus 2048 mV.
   */
  lemma ScaledWithinFullScale(code: int, res: Resolution, gain: Gain)
    requires Scaled(code, res, gain).Ok?
    ensures -2048.0 < Scaled(code, res, gain).value * gain.Multiplier() as real < 2048.0
  {
    Powers(res);
    ScaledValue(code, res, gain);
    QuotientBound(code, Pow2(res.Bits() - 12), gain.Multiplier());
  }

  /** `c / (p * g) * g` lies strictly within plus or minus 2048 when `c` lies within `2048 * p`. */
  lemma QuotientBound(c: int, p: int, g: int)
    requires p > 0 && g > 0 && -2048 * p < c < 2048 * p
    ensures -2048.0 < c as real / (p * g) as real * g as real < 2048.0
  {
    var pr, gr := p as real, g as real;
    var q := c as real / (p * g) as real;
    assert (p * g) as real == pr * gr;
    assert q * (pr * gr) == c as real;
    var y := q * gr;
    assert y * pr == c as real;
    assert -2048.0 * pr < c as real < 2048.0 * pr;
    if y >= 2048.0 {
      RealMulMonotone(2048.0, y, pr);
    } else if y <= -2048.0 {
      RealMulMonotone(y, -2048.0, pr);
    }
    assert -2048.0 < y < 2048.0;
    assert y == c as real / (p * g) as real * g as real;
  }

  lemma RealMulMonotone(a: real, b: real, k: real)
    requires a <= b && k > 0.0
    ensures a * k <= b * k
  {
  }

  /** The same bound for every reading `Conversion` accepts. */
  lemma ConversionWithinFullScale(buffer: Buffer)
    requires Conversion(buffer).Ok?
    ensures var gain := FromByte(ConfigByte(buffer)).gain.Multiplier() as real;
      -2048.0 < Conversion(buffer).value * gain < 2048.0
  {
    var cfg := FromByte(ConfigByte(buffer));
    var res := cfg.resolution;
    var code := Code(BigEndian(buffer[..res.Bytes()]), res);
    assert Conversion(buffer) == Scaled(code, res, cfg.gain);
    ScaledWithinFullScale(code, res, cfg.gain);
  }

  /** A register byte with bit 7 set means no new sample, whatever the data bytes hold. */
  lemma ConversionNotReadyExample()
    ensures Conversion([0, 0, 0x80, 0]) == Err(NotReady)
  {
  }

  /** Reading a code's two's-complement bytes back with `Code` gives the code. */
  lemma CodeOfTwosComplement(code: int, res: Resolution)
    requires res.Min() <= code <= res.Max()
    ensures Code(TwosComplement(code, res), res) == code
  {
    var tc, b := TwosComplement(code, res), res.Bits();
    SignTables(res);
    if code >= 0 {
      BitBelow(tc, b - 1);
    } else {
      var q := NegativeSplit(code, res);
      OddMultipleBits(tc, b - 1, q, code + res.SignBit());
      assert b - 1 + 1 == b;
    }
  }

  /**
   * A negative code's two's complement is an odd multiple of the sign bit plus
   * `code + SignBit()`: every bit from the sign bit up is set.
   */
  function NegativeSplit(code: int, res: Resolution): (q: nat)
    requires res.Min() <= code < 0
    ensures TwosComplement(code, res) == res.SignBit() * (2 * q + 1) + (code + res.SignBit())
  {
    Pow2Table();
    match res
    case TwelveBits => 15
    case FourteenBits => 3
    case SixteenBits => 0
    case EighteenBits => 63
  }

  /**
   * The four bytes the device sends for output code `code` under register `cfg`:
   * the code in two's complement, big-endian over `Bytes()` bytes, then the
   * register byte, then (after a two-byte sample) one more byte `filler`.
   */
  function DeviceBuffer(code: int, cfg: Cfg, filler: Byte): (buffer: Buffer)
    requires cfg.resolution.Min() <= code <= cfg.resolution.Max()
    ensures buffer[..cfg.resolution.Bytes()] == BigEndianBytes(TwosComplement(code, cfg.resolution), cfg.resolution.Bytes())
    ensures buffer[cfg.resolution.Bytes()] == Encode(cfg)
    ensures cfg.resolution != EighteenBits ==> buffer[3] == filler
  {
    var n := cfg.resolution.Bytes();
    var data := BigEndianBytes(TwosComplement(code, cfg.resolution), n);
    var buffer := data + [Encode(cfg)] + (if n == 2 then [filler] else []);
    assert buffer[..n] == data;
    buffer
  }

  /** The `n` low bytes of `v`, most significant first. */
  function BigEndianBytes(v: nat, n: nat): (s: seq<Byte>)
    ensures |s| == n
  {
    if n == 0 then [] else BigEndianBytes(v / 0x100, n - 1) + [v % 0x100]
  }

  /** `BigEndian` reads back any value that fits in the bytes `BigEndianBytes` writes. */
  lemma {:induction false} BigEndianBytesRoundTrip(v: nat, n: nat)
    requires v < Pow2(8 * n)
    ensures BigEndian(BigEndianBytes(v, n)) == v
  {
    if n > 0 {
      var s, hi := BigEndianBytes(v, n), v / 0x100;
      assert s[..n - 1] == BigEndianBytes(hi, n - 1);
      assert hi < Pow2(8 * (n - 1)) by {
        Pow2NextByte(n - 1);
        assert 8 * (n - 1) + 8 == 8 * n;
      }
      BigEndianBytesRoundTrip(hi, n - 1);
      assert BigEndian(s) == hi * 256 + v % 0x100;
    }
  }

  /** `code` as an unsigned two's-complement value over the sample's `Bytes()` bytes. */
  function TwosComplement(code: int, res: Resolution): (tc: nat)
    requires res.Min() <= code <= res.Max()
    ensures tc < Pow2(8 * res.Bytes())
    ensures (tc - code) % Pow2(8 * res.Bytes()) == 0
  {
    Pow2Table();
    if code >= 0 then code else code + Pow2(8 * res.Bytes())
  }

  /**
   * Decoding what the device sends gives back its output code: `Conversion`
   * of `DeviceBuffer(code, cfg, filler)` is the range check and scaling of
   * `code` itself, for every code in `[Min(), Max()]` and every ready register.
   */
  lemma ConversionRoundTrip(code: int, cfg: Cfg, filler: Byte)
    requires cfg.ready
    requires cfg.resolution.Min() <= code <= cfg.resolution.Max()
    requires cfg.resolution != EighteenBits ==> (filler / 4) % 4 != 3
    ensures Conversion(DeviceBuffer(code, cfg, filler)) == Scaled(code, cfg.resolution, cfg.gain)
  {
    var res := cfg.resolution;
    var buffer := DeviceBuffer(code, cfg, filler);
    assert FromByte(ConfigByte(buffer)) == cfg by {
      EncodeFields(cfg);
      assert ConfigByte(buffer) == Encode(cfg);
      DecodeEncode(cfg);
    }
    BigEndianBytesRoundTrip(TwosComplement(code, res), res.Bytes());
    CodeOfTwosComplement(code, res);
  }

  /**
   * A ready register echoed after the data bytes `[0, code]`, at any resolution
   * with two data bytes, reads as the range check and scaling of `code`.
   */
  lemma SmallCodeReply(code: Byte, cfg: Cfg)
    requires cfg.ready && cfg.resolution != EighteenBits
    ensures Conversion([0, code, Encode(cfg), 0]) == Scaled(code, cfg.resolution, cfg.gain)
  {
    SmallCodeBuffer(code, cfg);
    ConversionRoundTrip(code, cfg, 0);
  }

  /** How the device lays out a code below 256 when the sample has two data bytes. */
  lemma SmallCodeBuffer(code: Byte, cfg: Cfg)
    requires cfg.resolution != EighteenBits
    ensures cfg.resolution.Min() <= code <= cfg.resolution.Max()
    ensures DeviceBuffer(code, cfg, 0) == [0, code, Encode(cfg), 0]
  {
    assert cfg.resolution.Bytes() == 2 && cfg.resolution.Max() >= 2047;
    assert TwosComplement(code, cfg.resolution) == code;
    assert BigEndianBytes(code, 2) == [0, code];
  }

  /**
   * At 12 bits and gain 1 one step is one millivolt: a ready register echoed
   * after the data bytes `[0, code]` reads as `code` millivolts.
   */
  lemma TwelveBitReply(code: Byte, cfg: Cfg)
    requires cfg.ready && cfg.resolution == TwelveBits && cfg.gain == X1
    ensures Conversion([0, code, Encode(cfg), 0]) == Ok(code as real)
  {
    SmallCodeReply(code, cfg);
    TwelveBitScale(code);
  }

  /** At 12 bits and gain 1 a code below 256 is that many millivolts. */
  lemma TwelveBitScale(code: Byte)
    ensures Scaled(code, TwelveBits, X1) == Ok(code as real)
  {
    ScaledValue(code, TwelveBits, X1);
    assert Pow2(TwelveBits.Bits() - 12) * X1.Multiplier() == 1;
  }

  /** At 16 bits one step is a sixteenth of a millivolt: code 2 at gain 1 is 0.125 mV. */
  lemma SixteenBitScaleExample()
    ensures Scaled(2, SixteenBits, X1) == Ok(0.125)
  {
    ScaledValue(2, SixteenBits, X1);
    assert Pow2(SixteenBits.Bits() - 12) * X1.Multiplier() == 16 by {
      Pow2Table();
    }
  }

  /**
   * Both ends of a resolution's code range are refused: the device reports
   * `Min()` and `Max()` when the input is out of range, so those codes come
   * back as `IllegalValue`, carrying the code and the bounds.
   */
  lemma FullScaleRejected(cfg: Cfg, filler: Byte)
    requires cfg.ready
    requires cfg.resolution != EighteenBits ==> (filler / 4) % 4 != 3
    ensures var res := cfg.resolution;
      Conversion(DeviceBuffer(res.Max(), cfg, filler)) == Err(IllegalValue(res.Max(), res.Min(), res.Max()))
    ensures var res := cfg.resolution;
      Conversion(DeviceBuffer(res.Min(), cfg, filler)) == Err(IllegalValue(res.Min(), res.Min(), res.Max()))
  {
    ConversionRoundTrip(cfg.resolution.Max(), cfg, filler);
    ConversionRoundTrip(cfg.resolution.Min(), cfg, filler);
  }

  /** At 12 bits the bytes `[255, 255]` are code -1, which reads as -1 mV. */
  lemma NegativeStepExample(buffer: Buffer)
    requires buffer == [255, 255, 0, 0]
    ensures Conversion(buffer) == Ok(-1.0)
  {
    var cfg := Cfg(true, Channel1, OneShot, TwelveBits, X1);
    assert Conversion(buffer) == Scaled(-1, TwelveBits, X1) by {
      assert Encode(cfg) == 0;
      MinusOneReply(buffer, cfg);
    }
    assert Scaled(-1, TwelveBits, X1) == Ok(-1.0) by {
      ScaledValue(-1, TwelveBits, X1);
      assert Pow2(TwelveBits.Bits() - 12) * X1.Multiplier() == 1;
    }
  }

  /** How the device lays out code -1 when the sample has two data bytes: all ones. */
  lemma MinusOneBuffer(cfg: Cfg)
    requires cfg.resolution != EighteenBits
    ensures DeviceBuffer(-1, cfg, 0) == [255, 255, Encode(cfg), 0]
  {
    Pow2Table();
    assert cfg.resolution.Bytes() == 2;
    assert TwosComplement(-1, cfg.resolution) == 0xFFFF;
    assert BigEndianBytes(0xFFFF, 2) == [255, 255];
  }

  /** How the device lays out code -1 as an 18-bit sample: three bytes of ones. */
  lemma MinusOneBuffer18(cfg: Cfg)
    requires cfg.resolution == EighteenBits
    ensures DeviceBuffer(-1, cfg, 0) == [255, 255, 255, Encode(cfg)]
  {
    Pow2Table();
    assert TwosComplement(-1, cfg.resolution) == 0xFF_FFFF;
    assert BigEndianBytes(0xFF_FFFF, 3) == [255, 255, 255];
  }

  /**
   * With 18-bit samples the register echo is the fourth byte: `[0, 0, 1, 0b1100]`
   * is code 1, a sixty-fourth of a millivolt.
   */
  lemma EighteenBitExample(buffer: Buffer)
    requires buffer == [0, 0, 1, 0x0C]
    ensures Conversion(buffer) == Ok(0.015625)
  {
    var cfg := Cfg(true, Channel1, OneShot, EighteenBits, X1);
    assert Conversion(buffer) == Scaled(1, EighteenBits, X1) by {
      EighteenBitBuffer(cfg);
      ConversionRoundTrip(1, cfg, 0);
    }
    EighteenBitScale();
  }

  /** At 18 bits one step is a sixty-fourth of a millivolt. */
  lemma EighteenBitScale()
    ensures Scaled(1, EighteenBits, X1) == Ok(0.015625)
  {
    ScaledValue(1, EighteenBits, X1);
    assert Pow2(EighteenBits.Bits() - 12) * X1.Multiplier() == 64 by {
      Pow2Table();
    }
  }

  /** How the device lays out code 1 as an 18-bit sample. */
  lemma EighteenBitBuffer(cfg: Cfg)
    requires cfg == Cfg(true, Channel1, OneShot, EighteenBits, X1)
    ensures DeviceBuffer(1, cfg, 0) == [0, 0, 1, 0x0C]
  {
    assert Encode(cfg) == 0x0C;
    assert TwosComplement(1, EighteenBits) == 1;
    assert BigEndianBytes(1, 3) == [0, 0, 1];
  }

  /**
   * At 12 bits the bytes `[7, 255]` are code 2047, the largest code, and the
   * reading is refused with that code and the bounds -2048 and 2047.
   */
  lemma TopCodeRejectedExample(buffer: Buffer)
    requires buffer == [7, 255, 0, 0]
    ensures Conversion(buffer) == Err(IllegalValue(2047, -2048, 2047))
  {
    var cfg := Cfg(true, Channel1, OneShot, TwelveBits, X1);
    assert DeviceBuffer(2047, cfg, 0) == buffer by {
      assert Encode(cfg) == 0;
      assert BigEndianBytes(2047, 2) == [7, 255];
    }
    FullScaleRejected(cfg, 0);
  }

  /**
   * One step, up and down, at every resolution with gain 1, and at 12 bits
   * with every gain: 1, 1/4, 1/16 and 1/64 mV, then 1/2, 1/4 and 1/8 mV.
   */
  lemma StepTable()
    ensures Scaled(1, TwelveBits, X1) == Ok(1.0) && Scaled(-1, TwelveBits, X1) == Ok(-1.0)
    ensures Scaled(1, FourteenBits, X1) == Ok(0.25) && Scaled(-1, FourteenBits, X1) == Ok(-0.25)
    ensures Scaled(1, SixteenBits, X1) == Ok(0.0625) && Scaled(-1, SixteenBits, X1) == Ok(-0.0625)
    ensures Scaled(1, EighteenBits, X1) == Ok(0.015625) && Scaled(-1, EighteenBits, X1) == Ok(-0.015625)
    ensures Scaled(1, TwelveBits, X2) == Ok(0.5) && Scaled(1, TwelveBits, X4) == Ok(0.25)
    ensures Scaled(1, TwelveBits, X8) == Ok(0.125)
  {
  }

  /**
   * A ready register echo and a sample whose bytes carry nothing above its
   * width: the reading is the range check and scaling of the sample's plain
   * two's-complement value. Unlike `DeviceBuffer`, the bytes need not be
   * sign-extended.
   */
  lemma UnextendedReply(buffer: Buffer, cfg: Cfg, raw: nat)
    requires cfg.ready && ConfigByte(buffer) == Encode(cfg)
    requires raw == BigEndian(buffer[..cfg.resolution.Bytes()]) && raw < Pow2(cfg.resolution.Bits())
    ensures var res := cfg.resolution;
      var code := if raw >= Pow2(res.Bits() - 1) then raw - Pow2(res.Bits()) else raw;
      Conversion(buffer) == Scaled(code, res, cfg.gain)
  {
    DecodeEncode(cfg);
    CodeIsTwosComplement(raw, cfg.resolution);
  }

  /** Two data bytes, big-endian. */
  lemma BigEndianTwo(buffer: Buffer)
    ensures BigEndian(buffer[..2]) == buffer[0] as int * 256 + buffer[1] as int
  {
    assert buffer[..2][..1] == buffer[..1];
  }

  /** Three data bytes, big-endian. */
  lemma BigEndianThree(buffer: Buffer)
    ensures BigEndian(buffer[..3]) == buffer[0] as int * 0x1_0000 + buffer[1] as int * 256 + buffer[2] as int
  {
    assert buffer[..3][..2] == buffer[..2];
    BigEndianTwo(buffer);
  }

  /**
   * The register bytes a ready register echoes at gain 1 and channel 1, in
   * one-shot mode: the resolution code in bits 3-2 and nothing else.
   */
  lemma ReadyEchoes()
    ensures Encode(Cfg(true, Channel1, OneShot, TwelveBits, X1)) == 0
    ensures Encode(Cfg(true, Channel1, OneShot, FourteenBits, X1)) == 4
    ensures Encode(Cfg(true, Channel1, OneShot, SixteenBits, X1)) == 8
    ensures Encode(Cfg(true, Channel1, OneShot, EighteenBits, X1)) == 12
    ensures Encode(Cfg(true, Channel1, OneShot, TwelveBits, X2)) == 1
    ensures Encode(Cfg(true, Channel1, OneShot, TwelveBits, X4)) == 2
    ensures Encode(Cfg(true, Channel1, OneShot, TwelveBits, X8)) == 3
  {
  }

  /**
   * The unextended bytes of the sign bit alone, and of every bit below it, are
   * the ends of the code range, and both are refused with the bounds.
   */
  lemma RejectedEnds(low: Buffer, high: Buffer, cfg: Cfg)
    requires cfg.ready && ConfigByte(low) == Encode(cfg) && ConfigByte(high) == Encode(cfg)
    requires BigEndian(low[..cfg.resolution.Bytes()]) == cfg.resolution.SignBit()
    requires BigEndian(high[..cfg.resolution.Bytes()]) == cfg.resolution.SignBit() - 1
    ensures var res := cfg.resolution;
      Conversion(low) == Err(IllegalValue(res.Min(), res.Min(), res.Max()))
    ensures var res := cfg.resolution;
      Conversion(high) == Err(IllegalValue(res.Max(), res.Min(), res.Max()))
  {
    SignTables(cfg.resolution);
    Powers(cfg.resolution);
    UnextendedReply(low, cfg, cfg.resolution.SignBit());
    UnextendedReply(high, cfg, cfg.resolution.SignBit() - 1);
  }

  /**
   * The decoder's rejection table: the bytes of each resolution's smallest and
   * largest code, written without sign extension, are refused with that code
   * and the resolution's bounds.
   */
  lemma RejectionTable(b0: Buffer, b1: Buffer, b2: Buffer, b3: Buffer, b4: Buffer, b5: Buffer, b6: Buffer, b7: Buffer)
    requires b0 == [8, 0, 0, 0] && b1 == [7, 255, 0, 0]
    requires b2 == [32, 0, 4, 0] && b3 == [31, 255, 4, 0]
    requires b4 == [128, 0, 8, 0] && b5 == [127, 255, 8, 0]
    requires b6 == [2, 0, 0, 12] && b7 == [1, 255, 255, 12]
    ensures Conversion(b0) == Err(IllegalValue(-2048, -2048, 2047))
    ensures Conversion(b1) == Err(IllegalValue(2047, -2048, 2047))
    ensures Conversion(b2) == Err(IllegalValue(-8192, -8192, 8191))
    ensures Conversion(b3) == Err(IllegalValue(8191, -8192, 8191))
    ensures Conversion(b4) == Err(IllegalValue(-32768, -32768, 32767))
    ensures Conversion(b5) == Err(IllegalValue(32767, -32768, 32767))
    ensures Conversion(b6) == Err(IllegalValue(-131072, -131072, 131071))
    ensures Conversion(b7) == Err(IllegalValue(131071, -131072, 131071))
  {
    ReadyEchoes();
    assert Conversion(b0) == Err(IllegalValue(-2048, -2048, 2047)) && Conversion(b1) == Err(IllegalValue(2047, -2048, 2047)) by {
      BigEndianTwo(b0);
      BigEndianTwo(b1);
      RejectedEnds(b0, b1, Cfg(true, Channel1, OneShot, TwelveBits, X1));
    }
    assert Conversion(b2) == Err(IllegalValue(-8192, -8192, 8191)) && Conversion(b3) == Err(IllegalValue(8191, -8192, 8191)) by {
      BigEndianTwo(b2);
      BigEndianTwo(b3);
      RejectedEnds(b2, b3, Cfg(true, Channel1, OneShot, FourteenBits, X1));
    }
    assert Conversion(b4) == Err(IllegalValue(-32768, -32768, 32767)) && Conversion(b5) == Err(IllegalValue(32767, -32768, 32767)) by {
      BigEndianTwo(b4);
      BigEndianTwo(b5);
      RejectedEnds(b4, b5, Cfg(true, Channel1, OneShot, SixteenBits, X1));
    }
    assert Conversion(b6) == Err(IllegalValue(-131072, -131072, 131071)) && Conversion(b7) == Err(IllegalValue(131071, -131072, 131071)) by {
      BigEndianThree(b6);
      BigEndianThree(b7);
      RejectedEnds(b6, b7, Cfg(true, Channel1, OneShot, EighteenBits, X1));
    }
  }

  /** All-ones data bytes under a ready register are code -1 at every resolution. */
  lemma MinusOneReply(buffer: Buffer, cfg: Cfg)
    requires cfg.ready
    requires cfg.resolution != EighteenBits ==> buffer == [255, 255, Encode(cfg), 0]
    requires cfg.resolution == EighteenBits ==> buffer == [255, 255, 255, Encode(cfg)]
    ensures Conversion(buffer) == Scaled(-1, cfg.resolution, cfg.gain)
  {
    if cfg.resolution == EighteenBits {
      MinusOneBuffer18(cfg);
    } else {
      MinusOneBuffer(cfg);
    }
    ConversionRoundTrip(-1, cfg, 0);
  }

  /**
   * The decoder's conversion table: one step up and down at each resolution
   * and gain, and zero, read from the bytes the device sends.
   */
  lemma ConversionTable(c0: Buffer, c1: Buffer, c2: Buffer, c3: Buffer, c4: Buffer, c5: Buffer,
                        c6: Buffer, c7: Buffer, c8: Buffer, c9: Buffer, c10: Buffer, c11: Buffer)
    requires c0 == [0, 0, 0, 0] && c1 == [0, 1, 0, 0] && c2 == [255, 255, 0, 0]
    requires c3 == [0, 1, 4, 0] && c4 == [255, 255, 4, 0]
    requires c5 == [0, 1, 8, 0] && c6 == [255, 255, 8, 0]
    requires c7 == [0, 0, 1, 12] && c8 == [255, 255, 255, 12]
    requires c9 == [0, 1, 1, 0] && c10 == [0, 1, 2, 0] && c11 == [0, 1, 3, 0]
    ensures Conversion(c0) == Ok(0.0) && Conversion(c1) == Ok(1.0) && Conversion(c2) == Ok(-1.0)
    ensures Conversion(c3) == Ok(0.25) && Conversion(c4) == Ok(-0.25)
    ensures Conversion(c5) == Ok(0.0625) && Conversion(c6) == Ok(-0.0625)
    ensures Conversion(c7) == Ok(0.015625) && Conversion(c8) == Ok(-0.015625)
    ensures Conversion(c9) == Ok(0.5) && Conversion(c10) == Ok(0.25) && Conversion(c11) == Ok(0.125)
  {
    ReadyEchoes();
    StepTable();
    var twelve := Cfg(true, Channel1, OneShot, TwelveBits, X1);
    assert Conversion(c0) == Ok(0.0) by {
      SmallCodeReply(0, twelve);
      TwelveBitScale(0);
    }
    assert Conversion(c1) == Ok(1.0) by {
      TwelveBitReply(1, twelve);
    }
    NegativeStepExample(c2);
    assert Conversion(c3) == Ok(0.25) by {
      SmallCodeReply(1, twelve.(resolution := FourteenBits));
    }
    assert Conversion(c4) == Ok(-0.25) by {
      MinusOneReply(c4, twelve.(resolution := FourteenBits));
    }
    assert Conversion(c5) == Ok(0.0625) by {
      SmallCodeReply(1, twelve.(resolution := SixteenBits));
    }
    assert Conversion(c6) == Ok(-0.0625) by {
      MinusOneReply(c6, twelve.(resolution := SixteenBits));
    }
    EighteenBitExample(c7);
    assert Conversion(c8) == Ok(-0.015625) by {
      MinusOneReply(c8, twelve.(resolution := EighteenBits));
    }
    assert Conversion(c9) == Ok(0.5) by {
      SmallCodeReply(1, twelve.(gain := X2));
    }
    assert Conversion(c10) == Ok(0.25) by {
      SmallCodeReply(1, twelve.(gain := X4));
    }
    assert Conversion(c11) == Ok(0.125) by {
      SmallCodeReply(1, twelve.(gain := X8));
    }
  }
}
