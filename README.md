# MCP3422/3/4 analog-to-digital converter driver, modelled in Dafny

The model covers the core of `mcp3424`, an async Rust driver for Microchip's MCP3422/3/4 delta-sigma ADCs:

- **The configuration register.** The register has five fields: a ready flag, the channel, the conversion mode, the resolution and the PGA gain. It is packed into one byte on the wire. The model includes the per-field two-bit codes and their tables (sign bits, code ranges, conversion times), and the caller-facing `Configuration` with its builders and its saturating conversion-time rule.
- **The sample decoder (`MCP3424::convert`).** It turns the four bytes read back from the device into millivolts, or into `NotReady` / `IllegalValue`.
- **The three measurement protocols:**
  - one-shot: write the register, wait, read;
  - continuous: write once, then only read;
  - multi-shot: a sequence of one-shot rounds that stops at the first error.

  Each protocol also has its endless measurement stream.

The bus and the timer are one object, `Hal.Bus`:
- It keeps a ghost log of every write, delay and read.
- It takes the outcome of each write and of each read from a scripted reply queue, the way a mock bus replays expected transactions.
- An exhausted queue answers like a device that does not acknowledge.

Each protocol is also given as a function of the pending replies (`Protocol.Shot`, `ContinuousDriver.MeasureStep`, `MultiShotDriver.RoundsFrom`). This function returns the result, the events and the replies left over. Each driver method is proved to follow its protocol function call by call.

Register bytes and machine words are naturals bounded to their width (`Bits.Byte`, `Bits.U32`, `Bits.I32`). The Rust bit operators `&`, `|`, `<<` and `>>` are defined once, bit by bit, in module `Bits`. The codec and the decoder use those operators as the source does. Lemmas turn each pattern the driver uses into plain arithmetic. `Cfg::as_byte` (`CfgRegister.AsByte`) and `convert` (`Driver.Convert`) follow the source's in-place updates. They are proved equal to arithmetic reference definitions, `CfgRegister.Encode` and `Driver.Conversion`. All further properties are proved about those definitions.

The decoder picks the register echo from byte 3 whenever that byte's resolution bits are `0b11`, at every resolution. So byte 3 is not ignored for 12- to 16-bit samples. The model follows this code: `Driver.ConfigByte` makes the same choice, and `Driver.ConversionRoundTrip` therefore asks that the spare byte of a two-byte sample not carry `0b11` there. A 12- to 16-bit device repeats the register byte in that position, so this holds on real hardware.

The register round trip `FromByte(Encode(cfg)) == cfg` holds for every register, `ready` included. The code encodes the ready flag as bit 7 and decodes it from bit 7 again.

## Model

| member | source | states |
|---|---|---|
| ChannelField.Channel.Mask | src/cfg/channel.rs:25-32 | every channel's register code fits in two bits |
| ChannelField.ChannelOfMask | src/cfg/mod.rs:54-62 | every two-bit value names the channel with that code, so the `unreachable!()` arm of the channel decoder cannot be reached |
| ChannelField.MaskInjective | src/cfg/channel.rs:25-32 | distinct channels have distinct codes |
| GainField.Gain.Multiplier | src/cfg/gain.rs:25-32 | the amplification factor is two to the power of the gain's code, and positive |
| GainField.Gain.Mask | src/cfg/gain.rs:34-41 | every gain's register code fits in two bits |
| GainField.GainOfMask | src/cfg/mod.rs:80-88 | every two-bit value names the gain with that code; the `unreachable!()` arm cannot be reached |
| GainField.MaskInjective | src/cfg/gain.rs:34-41 | distinct gains have distinct codes |
| ModeField.Mode.Mask | src/cfg/mode.rs:11-16 | the mode bit is 1 exactly for continuous conversion |
| ResolutionField.Resolution.Bytes | src/cfg/resolution.rs:30-37 | a sample occupies the fewest whole bytes that hold its bits |
| ResolutionField.Resolution.Bits | src/cfg/resolution.rs:40-47 | each step of the resolution code adds two bits to the 12-bit base |
| ResolutionField.Resolution.Mask | src/cfg/resolution.rs:49-56 | codes fit in two bits, and `0b11` is the code of 18-bit resolution only |
| ResolutionField.Resolution.Min | src/cfg/resolution.rs:77-84 | the smallest code is minus the sign bit |
| ResolutionField.Resolution.Max | src/cfg/resolution.rs:87-94 | the largest code is the sign bit minus one |
| ResolutionField.Resolution.ConversionTimeUs | src/cfg/resolution.rs:97-104 | the nominal delay is the sampling period of 240, 60, 15 or 3.75 samples per second, rounded up to a whole microsecond |
| ResolutionField.ResolutionOfMask | src/cfg/mod.rs:71-79 | every two-bit value names the resolution with that code; the `unreachable!()` arm cannot be reached |
| ResolutionField.SignTables | src/cfg/resolution.rs:58-74 | the sign bit is bit `bits - 1`; the sign-extension mask is exactly bits `bits` to 31 of a `u32`, so it is disjoint from the sign bit |
| ResolutionField.Powers | src/cfg/resolution.rs:40-65 | `2^bits` is twice the sign bit, `2^(18 - bits) * 2^bits` is `2^18`, and the sign bit is the 12-bit sign bit times `2^(bits - 12)` |
| ResolutionField.MaskInjective | src/cfg/resolution.rs:49-56 | distinct resolutions have distinct codes |
| ResolutionField.ConversionTimeIncreasesWithBits | src/cfg/resolution.rs:97-104 | a finer resolution has a strictly longer nominal conversion time |
| Config.SaturatingAddSigned | src/config.rs:53 | `u32::saturating_add_signed`: the signed sum when it fits, 0 below the range, `u32::MAX` above it |
| Config.Configuration.WithChannel | src/config.rs:30-33 | sets the channel and leaves every other field as it was |
| Config.Configuration.WithResolution | src/config.rs:35-38 | sets the resolution and leaves every other field as it was |
| Config.Configuration.WithGain | src/config.rs:40-43 | sets the gain and leaves every other field as it was |
| Config.Configuration.WithConversionTime | src/config.rs:45-48 | sets the conversion time and leaves every other field as it was |
| Config.Configuration.ConversionTimeUs | src/config.rs:50-55 | an absolute time is used as given whatever the resolution; an offset is added to the nominal time and clamped at 0 (the top of the `u32` range cannot be reached) |
| Config.ConversionTimeMonotone | src/config.rs:50-55 | a larger offset never gives a shorter delay |
| Config.ConversionTimeExamples | src/config.rs:101-141 | at 12 bits the delay is 4167 µs; absolute 42 gives 42; offsets +1337, -2167 and -5000 give 5504, 2000 and 0 |
| CfgRegister.SetValuesFromConfiguration | src/cfg/mod.rs:27-31 | copies channel, gain and resolution from the configuration; `ready` and the mode stay |
| CfgRegister.EncodeFields | src/cfg/mod.rs:33-45 | the register byte has not-ready in bit 7, the channel in bits 6-5, the mode in bit 4, the resolution in bits 3-2 and the gain in bits 1-0 |
| CfgRegister.AsByte | src/cfg/mod.rs:33-45 | the byte built by alternately OR-ing in a field and shifting left is the packed register, with no bit shifted out of the `u8` |
| CfgRegister.FromByte | src/cfg/mod.rs:48-53 | a decoded register is ready exactly when bit 7 of the byte is clear |
| CfgRegister.FromByteFields | src/cfg/mod.rs:54-97 | decoding reads the channel from bits 6-5, the mode from bit 4, the resolution from bits 3-2 and the gain from bits 1-0 |
| CfgRegister.DecodeEncode | src/cfg/mod.rs:33-97 | decoding the byte of any register gives the register back, `ready` included |
| CfgRegister.EncodeDecode | src/cfg/mod.rs:33-97 | encoding the register decoded from any of the 256 bytes gives the byte back |
| CfgRegister.DefaultCfgEncoding | src/cfg/mod.rs:99-109 | the default register (ready, channel 1, continuous, 12 bits, gain 1) is `0b0001_0000` |
| Hal.Bus.Write | src/driver.rs:48-50 | a write is logged, and its outcome is the next scripted write reply, which it consumes |
| Hal.Bus.Read | src/driver.rs:44-46 | a read is logged and consumes the next scripted read reply; the buffer receives the bytes on success and is untouched on failure |
| Hal.Bus.DelayUs | src/mode/oneshot.rs:116 | a delay is logged and consumes no reply |
| Driver.ConfigByte | src/driver.rs:54-59 | the register echo is byte 3 exactly when its resolution bits are `0b11`, and byte 2 otherwise |
| Driver.BigEndian | src/driver.rs:65-70 | the bytes joined most significant first fit in eight bits per byte |
| Driver.AsI32 | src/driver.rs:74 | `as i32` keeps the 32 bits: the signed result agrees with the `u32` modulo 2^32 |
| Driver.TruncDiv | src/driver.rs:81 | signed division truncates toward zero: the remainder takes the sign of the dividend |
| Driver.AppendByte | src/driver.rs:65-70 | shifting the accumulated sample left by 8 and OR-ing in the next byte appends the byte, and nothing overflows the `u32` for up to three bytes |
| Driver.SignExtension | src/driver.rs:71-74 | testing the sign bit and OR-ing in the extension mask, then reading the `u32` as `i32`, gives the sample's signed code |
| Driver.CodeIsTwosComplement | src/driver.rs:65-74 | the code of a `bits`-wide sample is its two's-complement reading, and it lies in `[min, max]` |
| Driver.CodeOfTwosComplement | src/driver.rs:65-74 | reading back any code's two's-complement bits gives the code |
| Driver.ConversionNotReady | src/driver.rs:54-63 | a reading is `NotReady` exactly when bit 7 of the register echo is set, whatever the data bytes |
| Driver.Scaled | src/driver.rs:77-85 | a code is accepted exactly when it lies strictly between `min` and `max`; a refused code comes back as `IllegalValue` with the code and both bounds |
| Driver.ScaledValue | src/driver.rs:81 | an accepted code reads as the code divided by `2^(bits - 12)` times the gain, in millivolts |
| Driver.ScalingIsExact | src/driver.rs:31-32 | for every accepted code the product with `REFERENCE_VOLTAGE_X2` fits in an `i64`, the division by `2^bits` truncates nothing, and the quotient stays within the reference voltage |
| Driver.ScaledByTruncDiv | src/driver.rs:77-85 | the driver's `i64` product, its truncating division and the final quotient give exactly the reference scaling |
| Driver.Convert | src/driver.rs:52-86 | the byte-by-byte decoder (register choice, ready test, shift-in loop, sign extension, range check, scaling) equals the reference reading |
| Driver.ScaledWithinFullScale | src/driver.rs:77-85 | every accepted code, multiplied back by the gain, lies strictly within ±2048 mV |
| Driver.ConversionWithinFullScale | src/driver.rs:52-86 | every accepted reading, multiplied back by the gain, lies strictly within ±2048 mV |
| Driver.ConversionNotReadyExample | src/driver.rs:149-157 | the reply `[0, 0, 0b1000_0000, 0]` is `NotReady` |
| Driver.DeviceBuffer | src/driver.rs:52-70 | the reply a device sends for a code: the code's two's-complement bytes most significant first, then the register byte |
| Driver.BigEndianBytesRoundTrip | src/driver.rs:65-70 | joining the bytes written for a value that fits gives the value back |
| Driver.ConversionRoundTrip | src/driver.rs:52-86 | decoding the reply the device sends for any code in `[min, max]` under any ready register gives the range check and scaling of that very code, with the register's resolution and gain |
| Driver.FullScaleRejected | src/driver.rs:77-85 | the replies carrying `max` or `min` are refused as `IllegalValue` with that code and both bounds, at every resolution |
| Driver.SmallCodeReply | src/driver.rs:107-128 | a reply `[0, code, register, 0]` with a ready register and a two-byte sample reads as the range check and scaling of `code` |
| Driver.SmallCodeBuffer | src/driver.rs:107-128 | a code below 256 is laid out as `[0, code]` followed by the register byte |
| Driver.TwelveBitReply | src/driver.rs:109 | at 12 bits and gain 1, the reply `[0, code, register, 0]` is `code` millivolts |
| Driver.TwelveBitScale | src/driver.rs:109 | at 12 bits and gain 1 a code below 256 is that many millivolts |
| Driver.SixteenBitScaleExample | src/mode/multishot.rs:238 | at 16 bits and gain 1, code 2 is 0.125 mV |
| Driver.NegativeStepExample | src/driver.rs:110 | the 12-bit reply `[255, 255, 0, 0]` is code -1, i.e. -1 mV |
| Driver.MinusOneBuffer | src/driver.rs:110-114 | at 12, 14 and 16 bits the device lays out code -1 as `[255, 255]`, then the register byte |
| Driver.MinusOneBuffer18 | src/driver.rs:116 | at 18 bits the device lays out code -1 as `[255, 255, 255]`, then the register byte |
| Driver.MinusOneReply | src/driver.rs:110-116 | all-ones data bytes under a ready register read as code -1 at every resolution |
| Driver.EighteenBitExample | src/driver.rs:115 | the 18-bit reply `[0, 0, 1, 0b0000_1100]` takes its register from byte 3 and is 0.015625 mV |
| Driver.EighteenBitBuffer | src/driver.rs:115 | code 1 at 18 bits is laid out as `[0, 0, 1]` followed by the register byte |
| Driver.EighteenBitScale | src/driver.rs:115 | at 18 bits and gain 1, one step is 1/64 mV |
| Driver.TopCodeRejectedExample | src/driver.rs:132 | the 12-bit reply `[7, 255, 0, 0]` is code 2047 and is refused as `IllegalValue(2047, -2048, 2047)` |
| Driver.StepTable | src/driver.rs:107-128 | one step up and down is 1, 1/4, 1/16 and 1/64 mV at 12, 14, 16 and 18 bits, and 1/2, 1/4 and 1/8 mV at gains 2, 4 and 8 |
| Driver.ConversionTable | src/driver.rs:107-128 | each of the twelve test buffers, read as bytes from the device, converts to the listed millivolts |
| Driver.UnextendedReply | src/driver.rs:54-84 | under a ready register, sample bytes with nothing set above the sample width read as their plain two's-complement value, range-checked and scaled |
| Driver.RejectedEnds | src/driver.rs:66-85 | the bytes of the sign bit alone are refused as `Min()` and those of all lower bits as `Max()`, at every resolution |
| Driver.RejectionTable | src/driver.rs:130-147 | each of the eight test buffers, none of them sign-extended, is refused as `IllegalValue` with the listed code and its resolution's bounds |
| Protocol.Program | src/mode/continuous.rs:73-74 | a register write logs one write of the register byte and consumes one write reply; a refused write is a bus error |
| Protocol.TriggerThenWait | src/mode/continuous.rs:133-135 | triggering is the register write followed, only when it was acknowledged, by the wait: same result and replies consumed, one more event |
| Protocol.Acquire | src/mode/continuous.rs:123-125 | a read logs one 4-byte read and consumes one read reply; a failed read is a bus error, otherwise the result is the decoder's, errors included |
| Protocol.Shot | src/mode/oneshot.rs:112-121 | a single conversion: when the write is refused, only the write happens and the result is that bus error; otherwise write, delay, read, and the result is the read's bus error or the decoded bytes |
| Protocol.RunShot | src/mode/oneshot.rs:112-121 | the method performs exactly `Shot` on the bus: same result, same events appended to the log, same replies consumed; the buffer holds the received bytes |
| OneShotDriver.OneShotCfg | src/mode/oneshot.rs:135-140 | the one-shot register takes channel, gain and resolution from the configuration, clears `ready` and selects one-shot mode |
| OneShotDriver.NewOneShotMode | src/mode/oneshot.rs:50-55 | a new one-shot state holds the one-shot register built on the default register, so not ready and one-shot, and the configuration's conversion time |
| OneShotDriver.OneShotCfgByte | src/mode/oneshot.rs:135-140 | every one-shot register byte has bit 7 (start a conversion) set and bit 4 clear, and it does not depend on the base register |
| OneShotDriver.DefaultOneShotByte | src/mode/oneshot.rs:157-177 | the default configuration is written as `0b1000_0000` |
| OneShotDriver.OneShotAdc.constructor | src/driver.rs:34-42 | the driver holds the bus, the address and the mode state it is given |
| OneShotDriver.OneShotAdc.Configure | src/mode/oneshot.rs:69-72 | replaces the register and the delay with those of the configuration, with no bus traffic |
| OneShotDriver.OneShotAdc.Measure | src/mode/oneshot.rs:76-79 | one single conversion (`Shot`) with the stored register and delay; the mode state is unchanged |
| OneShotDriver.OneShotAdc.DoMeasure | src/mode/oneshot.rs:112-121 | one single conversion into the caller's buffer: the result, log and replies of `Shot` |
| OneShotDriver.OneShotAdc.MeasureStream | src/mode/oneshot.rs:124-132 | creating the stream always succeeds and touches nothing on the bus |
| OneShotDriver.OneShotStream.constructor | src/mode/oneshot.rs:126-128 | the stream owns a fresh 4-byte buffer |
| OneShotDriver.OneShotStream.Next | src/mode/oneshot.rs:128-131 | every pull is one single conversion and yields `Some` of its result, errors included |
| OneShotDriver.SingleConversionExample | src/mode/oneshot.rs:168-192 | with the default configuration at 0x68: write `0b1000_0000`, wait 4167 µs, read; the reply `[0, 1, 0, 0]` is 1 mV |
| OneShotDriver.NotReadyExample | src/mode/oneshot.rs:194-214 | a reply whose register echo is not ready fails with `NotReady` |
| ContinuousDriver.ContinuousCfg | src/mode/continuous.rs:146-150 | the continuous register takes channel, gain and resolution from the configuration, keeps `ready` and selects continuous mode |
| ContinuousDriver.NewContinuousMode | src/mode/continuous.rs:51-57 | a new continuous state is not yet initialized, holds the continuous register built on the default register and the configuration's conversion time |
| ContinuousDriver.ContinuousCfgByte | src/mode/continuous.rs:146-150 | built on the default register, the byte has bit 7 clear and bit 4 set; the base register's mode does not matter |
| ContinuousDriver.DefaultContinuousByte | src/mode/continuous.rs:167-176 | the default configuration is written as `0b0001_0000` |
| ContinuousDriver.MeasureTraffic | src/mode/continuous.rs:113-126 | once initialized, a measurement is one read and leaves the write replies alone; before that it starts with the register write; initialization is never lost; a measurement that leaves the mode uninitialized has failed |
| ContinuousDriver.ContinuousAdc.constructor | src/driver.rs:34-42 | the driver holds the bus, the address and the mode state it is given |
| ContinuousDriver.ContinuousAdc.Configure | src/mode/continuous.rs:70-75 | stores the new register and delay even when the write then fails, leaves `initialized` alone, and writes the register byte once |
| ContinuousDriver.ContinuousAdc.Measure | src/mode/continuous.rs:78-80 | one `MeasureStep`, and the mode becomes initialized once a register write was acknowledged |
| ContinuousDriver.ContinuousAdc.DoMeasure | src/mode/continuous.rs:113-126 | before initialization: write, wait, mark initialized, read; afterwards: read only; a refused write leaves the mode uninitialized, a failed read after a good write does not |
| ContinuousDriver.ContinuousAdc.MeasureStream | src/mode/continuous.rs:129-143 | writes the register and waits once; a refused write is returned as the error; `initialized` is not touched |
| ContinuousDriver.ContinuousStream.constructor | src/mode/continuous.rs:131-137 | the stream owns a fresh 4-byte buffer |
| ContinuousDriver.ContinuousStream.Next | src/mode/continuous.rs:137-142 | every pull is one read and decode (`Acquire`) and yields `Some` of its result, errors included |
| ContinuousDriver.ContinuousReply | src/mode/continuous.rs:181-191 | the reply `[0, code, 0b0001_0000, 0]` is `code` millivolts |
| ContinuousDriver.ThreeMeasurements | src/mode/continuous.rs:113-126 | from a fresh mode, three measurements make one write, one wait and three reads, each decoding its own reply |
| ContinuousDriver.ThreeReadsExample | src/mode/continuous.rs:178-212 | the default configuration at 0x68 writes `0b0001_0000` once and three reads give 1, 2 and 3 mV |
| MultiShotDriver.CfgsAndDelays | src/mode/multishot.rs:161-169 | round `i` gets the one-shot register and the conversion time of configuration `i`, for each of the first `n` configurations |
| MultiShotDriver.NewMultiShotMode | src/mode/multishot.rs:69-75 | one round per configuration |
| MultiShotDriver.PlannedBytes | src/mode/multishot.rs:161-169 | every register byte a multi-shot mode writes has bit 7 set and bit 4 clear |
| MultiShotDriver.ChannelBytesExample | src/mode/multishot.rs:30-42 | the default configuration on channels 3 and 4 is written as `0b1100_0000` and `0b1110_0000` |
| MultiShotDriver.GoodShot | src/mode/multishot.rs:139-143 | a round succeeds exactly when its write is acknowledged and its reply decodes; it then writes, waits, reads and takes one reply of each kind |
| MultiShotDriver.RoundsConsTrace | src/mode/multishot.rs:139-144 | after a good round, its three events come before those of the later rounds |
| MultiShotDriver.RoundsConsResult | src/mode/multishot.rs:139-146 | after a good round, the rounds succeed when the later ones do, with its value in front, and fail with the later rounds' error otherwise |
| MultiShotDriver.RoundsStop | src/mode/multishot.rs:140-143 | a failing round ends the rounds with its own error and events, and nothing follows it |
| MultiShotDriver.RoundsOk | src/mode/multishot.rs:135-147 | the rounds succeed exactly when every remaining round is good |
| MultiShotDriver.RoundsBad | src/mode/multishot.rs:135-147 | when some remaining round is not good, the rounds fail |
| MultiShotDriver.RoundsValues | src/mode/multishot.rs:135-147 | when every round is good, the result holds one value per round, each the decoding of that round's reply, in order |
| MultiShotDriver.RoundsPrefix | src/mode/multishot.rs:139-144 | good rounds contribute three events each in front of the rest, and consume one reply of each kind each |
| MultiShotDriver.RoundsPrefixError | src/mode/multishot.rs:139-144 | after good rounds, the first error of the later rounds is the error of the whole sequence |
| MultiShotDriver.RoundsTrace | src/mode/multishot.rs:139-144 | when every round is good, the log is write, delay, read per round in order, and every round consumed its two replies |
| MultiShotDriver.RoundsFail | src/mode/multishot.rs:139-146 | when round `k` is the first to fail, the result is its error and the log is the good rounds followed by round `k`'s own events; later rounds never touch the bus |
| MultiShotDriver.AllGoodReplies | src/mode/multishot.rs:139-143 | `m` good rounds need `m` acknowledged writes and `m` received replies, and consume exactly those |
| MultiShotDriver.DecodesUnique | src/mode/multishot.rs:143 | the values decoded from a sequence of replies are determined by the replies |
| MultiShotDriver.DecodesIndex | src/mode/multishot.rs:143 | value `i` is the decoding of reply `i`, for every round |
| MultiShotDriver.RoundGood | src/mode/multishot.rs:139-143 | one more good round extends the good prefix, the log and the decoded values by that round |
| MultiShotDriver.RoundsComplete | src/mode/multishot.rs:135-147 | when every round is good, the rounds yield exactly the decoded values, the full schedule of events and the replies left after all rounds |
| MultiShotDriver.TwoRoundsExample | src/mode/multishot.rs:197-243 | channel 2 then 16-bit resolution at 0x68: writes `0b1010_0000` and `0b1000_1000` with delays 4167 and 66667 µs, reads two replies and gives `[1.0, 0.125]` |
| MultiShotDriver.SecondNotReadyExample | src/mode/multishot.rs:245-277 | when the second reply is not ready, the sequence fails with `NotReady` after both rounds' bus events |
| MultiShotDriver.MultiShotAdc.constructor | src/driver.rs:34-42 | the driver holds the bus, the address and the mode state, and fixes the round count |
| MultiShotDriver.MultiShotAdc.Configure | src/mode/multishot.rs:89-93 | replaces every round from the first `n` configurations, with no bus traffic |
| MultiShotDriver.MultiShotAdc.Measure | src/mode/multishot.rs:97-100 | all rounds (`RoundsFrom`) into a fresh buffer; the rounds are unchanged |
| MultiShotDriver.MultiShotAdc.DoMeasure | src/mode/multishot.rs:135-147 | the loop over the rounds performs exactly `RoundsFrom`: the values of all rounds, or the first round's error with nothing after it on the bus |
| MultiShotDriver.MultiShotAdc.MeasureStream | src/mode/multishot.rs:150-157 | creating the stream always succeeds and touches nothing on the bus |
| MultiShotDriver.MultiShotStream.constructor | src/mode/multishot.rs:152-154 | the stream owns a fresh 4-byte buffer |
| MultiShotDriver.MultiShotStream.Next | src/mode/multishot.rs:154-157 | every pull runs all rounds once and yields `Some` of the outcome, errors included |

## Left out

- The I2C bus and the delay provider (`embedded_hal_async` `I2c` and `DelayNs`, and the driver's `read`/`write` wrappers at src/driver.rs:44-50) are foreign async I/O. `Hal.Bus` replaces them: it has a ghost event log and scripted replies. A bus fault is one of the five kinds of `embedded_hal` `ErrorKind`.
- `async`/`await`, futures and `futures::stream::unfold`: every await point is a plain call. A stream is an object whose `Next` runs one measurement and always yields `Some`. Cancellation part-way through a measurement is not modelled.
- Driver.Convert: the `as f32` division in `convert` (src/driver.rs:81) is modelled as the exact rational quotient of the same two integers, so `f32` rounding is not modelled. The `uom` feature's `ElectricPotential` wrapping is left out.
- The `Display` and `defmt::Format` implementations of the error type (src/error.rs:15-41) only format text; `From<BusError>` is the `Errors.BusError` constructor.
- `PhantomData`, the trait bounds, the `Mode` marker trait (src/mode/mod.rs), the re-exports in src/lib.rs and the documentation module src/doc.rs have no behaviour.
- The unused `cfg` function carried in the stream state at src/mode/continuous.rs:137 has no effect, so the stream holds only the driver and its buffer.
- `into_inner` (src/driver.rs:88-90) only hands the bus and the timer back.
- The example firmware at examples/stm32g4/src/main.rs is not part of this model.
- The MCP3422/3 treat channels 3 and 4 as channels 1 and 2. That is device behaviour the code does not enforce.
- MultiShotDriver.CfgsAndDelays: a configuration slice shorter than `N` panics in the source with an index out of bounds. Here that is a precondition, so the panic is not modelled.
- MultiShotDriver.MultiShotAdc.DoMeasure: the result array is a fresh Dafny array copied into a sequence, where the source returns `[f32; N]` by value. The const generic `N` becomes the field `n`, fixed when the driver is built.
