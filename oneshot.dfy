/**
 * One-shot mode: every measurement programs the register (which starts a
 * single conversion), waits the conversion time and reads the result back.
 */
module OneShotDriver {
  import opened Bits
  import opened ChannelField
  import opened GainField
  import opened ModeField
  import opened ResolutionField
  import opened Config
  import opened CfgRegister
  import opened Hal
  import opened Errors
  import opened Driver
  import opened Protocol

  /**
   * `oneshot::cfg`: the register for a configuration. Channel, gain and
   * resolution come from the configuration; `ready` is cleared, which on the
   * wire sets bit 7 and starts a conversion; the mode is one-shot.
   */
  function OneShotCfg(configuration: Configuration, base: Cfg): (cfg: Cfg)
    ensures cfg.channel == configuration.channel && cfg.gain == configuration.gain
    ensures cfg.resolution == configuration.resolution
    ensures !cfg.ready && cfg.mode == OneShot
  {
    var cfg := SetValuesFromConfiguration(base, configuration);
    cfg.(ready := false, mode := OneShot)
  }

  /**
   * Every one-shot register byte has bit 7 (start a conversion) set and bit 4
   * (continuous) clear, and the register overwrites every field of `base`.
   */
  lemma OneShotCfgByte(configuration: Configuration, base: Cfg, other: Cfg)
    ensures Encode(OneShotCfg(configuration, base)) >= 0x80
    ensures (Encode(OneShotCfg(configuration, base)) / 16) % 2 == 0
    ensures OneShotCfg(configuration, base) == OneShotCfg(configuration, other)
  {
  }

  /** The default configuration is written as `0b1000_0000`. */
  lemma DefaultOneShotByte()
    ensures Encode(OneShotCfg(DefaultConfiguration, DefaultCfg)) == 0x80
  {
  }

  /** The state the driver keeps in one-shot mode. */
  datatype OneShotMode = OneShotMode(cfg: Cfg, delay: U32)

  /** `OneShotMode::new`: the one-shot register and the configuration's conversion time. */
  function NewOneShotMode(configuration: Configuration): (m: OneShotMode)
    ensures m.cfg == OneShotCfg(configuration, DefaultCfg)
    ensures !m.cfg.ready && m.cfg.mode == OneShot
    ensures m.delay == configuration.ConversionTimeUs()
  {
    OneShotMode(OneShotCfg(configuration, DefaultCfg), configuration.ConversionTimeUs())
  }

  /** `MCP3424<.., OneShotMode>`: the bus, the device address and the mode state. */
  class OneShotAdc {
    const bus: Bus
    const address: Address
    var mode: OneShotMode

    constructor (bus: Bus, address: Address, mode: OneShotMode)
      ensures this.bus == bus && this.address == address && this.mode == mode
    {
      this.bus := bus;
      this.address := address;
      this.mode := mode;
    }

    /** Replaces the register and the delay; the device sees it at the next measurement. */
    method Configure(configuration: Configuration)
      modifies this
      ensures mode == NewOneShotMode(configuration)
      ensures bus.trace == old(bus.trace) && bus.Replies() == old(bus.Replies())
    {
      mode := OneShotMode(OneShotCfg(configuration, DefaultCfg), configuration.ConversionTimeUs());
    }

    /** One conversion into a fresh buffer. */
    method Measure() returns (r: Result<real>)
      modifies bus
      ensures mode == old(mode)
      ensures var s := Shot(address, mode.cfg, mode.delay, old(bus.Replies()));
        r == s.result && bus.trace == old(bus.trace) + s.events && bus.Replies() == s.rest
    {
      var buffer := new Byte[4](_ => 0);
      r := DoMeasure(buffer);
    }

    /**
     * Writes the register byte, waits, reads four bytes into `buffer` and decodes
     * them; the first failed transfer ends it with a bus error.
     */
    method DoMeasure(buffer: array<Byte>) returns (r: Result<real>)
      requires buffer.Length == 4
      modifies bus, buffer
      ensures var s := Shot(address, mode.cfg, mode.delay, old(bus.Replies()));
        r == s.result && bus.trace == old(bus.trace) + s.events && bus.Replies() == s.rest
      ensures var p := old(bus.Replies());
        if NextWrite(p.writeReplies).Pass? && NextRead(p.readReplies).Received?
        then buffer[..] == NextRead(p.readReplies).bytes
        else buffer[..] == old(buffer[..])
    {
      r := RunShot(bus, address, mode.cfg, mode.delay, buffer);
    }

    /** A stream whose every pull is one `DoMeasure`; it is created without bus traffic. */
    method MeasureStream() returns (r: Result<OneShotStream>)
      ensures r.Ok? && fresh(r.value) && r.value.adc == this && r.value.buffer.Length == 4
    {
      var stream := new OneShotStream(this);
      r := Ok(stream);
    }
  }

  /** The endless stream of one-shot measurements; it owns the read buffer between pulls. */
  class OneShotStream {
    const adc: OneShotAdc
    const buffer: array<Byte>

    constructor (adc: OneShotAdc)
      ensures this.adc == adc && fresh(buffer) && buffer.Length == 4
    {
      this.adc := adc;
      buffer := new Byte[4](_ => 0);
    }

    /** Every pull runs one measurement and yields its result, an error included: the stream never ends. */
    method Next() returns (item: Option<Result<real>>)
      requires buffer.Length == 4
      modifies adc.bus, buffer
      ensures var s := Shot(adc.address, adc.mode.cfg, adc.mode.delay, old(adc.bus.Replies()));
        item == Some(s.result) && adc.bus.trace == old(adc.bus.trace) + s.events && adc.bus.Replies() == s.rest
    {
      var r := adc.DoMeasure(buffer);
      item := Some(r);
    }
  }

  /**
   * The driver's own single-conversion scenario at address 0x68 with the default
   * configuration: the byte `0b1000_0000` is written, the driver waits 4167 µs,
   * and the reply `[0, 1, 0, 0]` (code 1, ready, 12 bits, gain 1) reads as 1 mV.
   */
  lemma SingleConversionExample()
    ensures var mode := NewOneShotMode(DefaultConfiguration);
      var s := Shot(0x68, mode.cfg, mode.delay, Pending([Pass], [Received([0, 1, 0, 0])]));
      s.result == Ok(1.0) && s.events == [Write(0x68, [0x80]), Delay(4167), Read(0x68, 4)]
  {
    var mode := NewOneShotMode(DefaultConfiguration);
    assert Encode(mode.cfg) == 0x80 && mode.delay == 4167 by {
      DefaultOneShotByte();
    }
    assert Conversion([0, 1, 0, 0]) == Ok(1.0) by {
      var returned := mode.cfg.(ready := true);
      assert Encode(returned) == 0;
      TwelveBitReply(1, returned);
    }
  }

  /** With the register echo not ready, the measurement fails with `NotReady`. */
  lemma NotReadyExample()
    ensures var mode := NewOneShotMode(DefaultConfiguration);
      Shot(0x68, mode.cfg, mode.delay, Pending([Pass], [Received([0, 0, 0x80, 0])])).result == Err(NotReady)
  {
    ConversionNotReadyExample();
  }
}
