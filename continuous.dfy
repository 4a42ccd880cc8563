/**
 * Continuous mode: the register is written once, after which the device keeps
 * converting and every measurement only reads its latest sample.
 */
module ContinuousDriver {
  import opened Bits
  import opened ChannelField
  import opened GainField
  import opened ModeField
  import opened ResolutionField
  import opened Config
  import opened CfgRegister
  import opened Hal
  import opened Errors
  import opened Driver
  import opened Protocol

  /**
   * `continuous::cfg`: the register for a configuration. Channel, gain and
   * resolution come from the configuration, the mode is continuous and `ready`
   * keeps the value of `base`.
   */
  function ContinuousCfg(configuration: Configuration, base: Cfg): (cfg: Cfg)
    ensures cfg.channel == configuration.channel && cfg.gain == configuration.gain
    ensures cfg.resolution == configuration.resolution
    ensures cfg.ready == base.ready && cfg.mode == Continuous
  {
    var cfg := SetValuesFromConfiguration(base, configuration);
    cfg.(mode := Continuous)
  }

  /**
   * Built on the default register, the continuous byte has bit 7 clear (no
   * conversion is started by hand) and bit 4 (continuous) set; it does not
   * depend on the mode of `base`.
   */
  lemma ContinuousCfgByte(configuration: Configuration, base: Cfg)
    ensures Encode(ContinuousCfg(configuration, DefaultCfg)) < 0x80
    ensures (Encode(ContinuousCfg(configuration, DefaultCfg)) / 16) % 2 == 1
    ensures ContinuousCfg(configuration, base) == ContinuousCfg(configuration, base.(mode := OneShot))
  {
  }

  /** The default configuration is written as `0b0001_0000`. */
  lemma DefaultContinuousByte()
    ensures Encode(ContinuousCfg(DefaultConfiguration, DefaultCfg)) == 0x10
  {
  }

  /** The state the driver keeps in continuous mode; `initialized` records that the register was written. */
  datatype ContinuousMode = ContinuousMode(cfg: Cfg, delay: U32, initialized: bool)

  /** `ContinuousMode::new`: nothing has been written yet. */
  function NewContinuousMode(configuration: Configuration): (m: ContinuousMode)
    ensures !m.initialized
    ensures m.cfg == ContinuousCfg(configuration, DefaultCfg) && m.cfg.mode == Continuous
    ensures m.delay == configuration.ConversionTimeUs()
  {
    ContinuousMode(ContinuousCfg(configuration, DefaultCfg), configuration.ConversionTimeUs(), false)
  }

  /**
   * One measurement: before the first successful register write, write the
   * register, wait and read; afterwards, only read.
   */
  function MeasureStep(address: Address, mode: ContinuousMode, p: Pending): Step<real>
  {
    if mode.initialized then Acquire(address, p) else Shot(address, mode.cfg, mode.delay, p)
  }

  /** The mode after a measurement: initialized once a register write has been acknowledged. */
  function AfterMeasure(mode: ContinuousMode, p: Pending): ContinuousMode
  {
    mode.(initialized := mode.initialized || NextWrite(p.writeReplies).Pass?)
  }

  /**
   * Once initialized, a measurement touches the bus with exactly one read and
   * leaves the write replies alone; before that, it starts with the register write.
   */
  lemma MeasureTraffic(address: Address, mode: ContinuousMode, p: Pending)
    ensures mode.initialized ==>
      MeasureStep(address, mode, p).events == [Read(address, 4)] &&
      MeasureStep(address, mode, p).rest.writeReplies == p.writeReplies
    ensures !mode.initialized ==> MeasureStep(address, mode, p).events[0] == WriteCfg(address, mode.cfg)
    ensures AfterMeasure(mode, p).initialized ==> AfterMeasure(AfterMeasure(mode, p), MeasureStep(address, mode, p).rest).initialized
    ensures !AfterMeasure(mode, p).initialized ==> MeasureStep(address, mode, p).result.Err?
  {
  }

  /** `MCP3424<.., ContinuousMode>`: the bus, the device address and the mode state. */
  class ContinuousAdc {
    const bus: Bus
    const address: Address
    var mode: ContinuousMode

    constructor (bus: Bus, address: Address, mode: ContinuousMode)
      ensures this.bus == bus && this.address == address && this.mode == mode
    {
      this.bus := bus;
      this.address := address;
      this.mode := mode;
    }

    /**
     * Replaces the register and the delay and writes the register at once. The
     * new state is kept even when the write fails; `initialized` is not touched.
     */
    method Configure(configuration: Configuration) returns (r: Result<()>)
      modifies this, bus
      ensures mode == old(mode).(cfg := ContinuousCfg(configuration, DefaultCfg), delay := configuration.ConversionTimeUs())
      ensures var s := Program(address, mode.cfg, old(bus.Replies()));
        r == s.result && bus.trace == old(bus.trace) + s.events && bus.Replies() == s.rest
    {
      mode := mode.(cfg := ContinuousCfg(configuration, DefaultCfg), delay := configuration.ConversionTimeUs());
      var b := AsByte(mode.cfg);
      var written := bus.Write(address, [b]);
      if written.Fail? {
        return Err(BusError(written.fault));
      }
      r := Ok(());
    }

    /** One measurement: see `MeasureStep`. */
    method Measure() returns (r: Result<real>)
      modifies this, bus
      ensures mode == AfterMeasure(old(mode), old(bus.Replies()))
      ensures var s := MeasureStep(address, old(mode), old(bus.Replies()));
        r == s.result && bus.trace == old(bus.trace) + s.events && bus.Replies() == s.rest
    {
      r := DoMeasure();
    }

    /**
     * Writes the register and waits unless it was already written, then reads
     * four bytes into a local buffer and decodes them.
     */
    method DoMeasure() returns (r: Result<real>)
      modifies this, bus
      ensures mode == AfterMeasure(old(mode), old(bus.Replies()))
      ensures var s := MeasureStep(address, old(mode), old(bus.Replies()));
        r == s.result && bus.trace == old(bus.trace) + s.events && bus.Replies() == s.rest
    {
      ghost var before := bus.trace;
      ghost var trigger: seq<Event> := [];
      var buffer := new Byte[4](_ => 0);
      if !mode.initialized {
        var b := AsByte(mode.cfg);
        var written := bus.Write(address, [b]);
        if written.Fail? {
          return Err(BusError(written.fault));
        }
        bus.DelayUs(mode.delay);
        mode := mode.(initialized := true);
        trigger := [WriteCfg(address, mode.cfg), Delay(mode.delay)];
      }
      assert bus.trace == before + trigger;
      var read := bus.Read(address, buffer);
      assert bus.trace == before + (trigger + [Read(address, 4)]);
      if read.Fail? {
        return Err(BusError(read.fault));
      }
      r := Convert(buffer[..]);
    }

    /**
     * Writes the register and waits the conversion time, then hands out a stream
     * of reads. `initialized` is left as it was.
     */
    method MeasureStream() returns (r: Result<ContinuousStream>)
      modifies bus
      ensures var t := Trigger(address, mode.cfg, mode.delay, old(bus.Replies()));
        bus.trace == old(bus.trace) + t.events && bus.Replies() == t.rest &&
        (t.result.Err? ==> r == Err(t.result.error)) &&
        (t.result.Ok? ==> r.Ok? && fresh(r.value) && r.value.adc == this && r.value.buffer.Length == 4)
    {
      var b := AsByte(mode.cfg);
      var written := bus.Write(address, [b]);
      if written.Fail? {
        return Err(BusError(written.fault));
      }
      bus.DelayUs(mode.delay);
      var stream := new ContinuousStream(this);
      r := Ok(stream);
    }
  }

  /** The endless stream of the device's latest samples; it owns the read buffer between pulls. */
  class ContinuousStream {
    const adc: ContinuousAdc
    const buffer: array<Byte>

    constructor (adc: ContinuousAdc)
      ensures this.adc == adc && fresh(buffer) && buffer.Length == 4
    {
      this.adc := adc;
      buffer := new Byte[4](_ => 0);
    }

    /** Every pull reads and decodes one sample, yielding errors too: the stream never ends. */
    method Next() returns (item: Option<Result<real>>)
      requires buffer.Length == 4
      modifies adc.bus, buffer
      ensures var s := Acquire(adc.address, old(adc.bus.Replies()));
        item == Some(s.result) && adc.bus.trace == old(adc.bus.trace) + s.events && adc.bus.Replies() == s.rest
    {
      var read := adc.bus.Read(adc.address, buffer);
      if read.Fail? {
        return Some(Err(BusError(read.fault)));
      }
      var r := Convert(buffer[..]);
      item := Some(r);
    }
  }

  /** A continuous-mode reply: code `code` at 12 bits and gain 1, register echo `0b0001_0000`. */
  lemma ContinuousReply(code: Byte)
    ensures Conversion([0, code, 0x10, 0]) == Ok(code as real)
  {
    var returned := ContinuousCfg(DefaultConfiguration, DefaultCfg);
    assert Encode(returned) == 0x10;
    TwelveBitReply(code, returned);
  }

  /**
   * From a fresh mode, with the register write acknowledged and three samples
   * waiting: one write, one wait and three reads, each measurement decoding its
   * own reply, and every scripted reply used.
   */
  lemma ThreeMeasurements(address: Address, configuration: Configuration, b1: Buffer, b2: Buffer, b3: Buffer)
    ensures var m0 := NewContinuousMode(configuration);
      var p0 := Pending([Pass], [Received(b1), Received(b2), Received(b3)]);
      var s1 := MeasureStep(address, m0, p0);
      var m1 := AfterMeasure(m0, p0);
      var s2 := MeasureStep(address, m1, s1.rest);
      var m2 := AfterMeasure(m1, s1.rest);
      var s3 := MeasureStep(address, m2, s2.rest);
      s1.result == Conversion(b1) && s2.result == Conversion(b2) && s3.result == Conversion(b3) &&
      s1.events + s2.events + s3.events ==
        [WriteCfg(address, m0.cfg), Delay(m0.delay), Read(address, 4), Read(address, 4), Read(address, 4)] &&
      s3.rest == Pending([], [])
  {
    var m0 := NewContinuousMode(configuration);
    var p0 := Pending([Pass], [Received(b1), Received(b2), Received(b3)]);
    var s1 := MeasureStep(address, m0, p0);
    assert s1.rest == Pending([], [Received(b2), Received(b3)]);
    var s2 := MeasureStep(address, AfterMeasure(m0, p0), s1.rest);
    assert s2.rest == Pending([], [Received(b3)]);
  }

  /**
   * The driver's own continuous scenario at address 0x68 with the default
   * configuration: one register write of `0b0001_0000` and one wait, then three
   * measurements that only read, giving 1, 2 and 3 mV.
   */
  lemma ThreeReadsExample()
    ensures var m0 := NewContinuousMode(DefaultConfiguration);
      var p0 := Pending([Pass], [Received([0, 1, 0x10, 0]), Received([0, 2, 0x10, 0]), Received([0, 3, 0x10, 0])]);
      var s1 := MeasureStep(0x68, m0, p0);
      var m1 := AfterMeasure(m0, p0);
      var s2 := MeasureStep(0x68, m1, s1.rest);
      var m2 := AfterMeasure(m1, s1.rest);
      var s3 := MeasureStep(0x68, m2, s2.rest);
      s1.result == Ok(1.0) && s2.result == Ok(2.0) && s3.result == Ok(3.0) &&
      s1.events + s2.events + s3.events ==
        [Write(0x68, [0x10]), Delay(4167), Read(0x68, 4), Read(0x68, 4), Read(0x68, 4)]
  {
    ThreeMeasurements(0x68, DefaultConfiguration, [0, 1, 0x10, 0], [0, 2, 0x10, 0], [0, 3, 0x10, 0]);
    DefaultContinuousByte();
    ContinuousReply(1);
    ContinuousReply(2);
    ContinuousReply(3);
  }
}
