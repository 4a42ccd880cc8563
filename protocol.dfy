/**
 * The bus transactions the measurement modes are built from, as functions of
 * the replies the bus still has to give: triggering a conversion (write the
 * register byte, then wait the conversion time) and acquiring a sample (read
 * four bytes, then decode them). Each yields a `Step`: the outcome, the events
 * it caused and the replies left over. The mode classes are proved to follow
 * these functions call by call.
 */
module Protocol {
  import opened Bits
  import opened CfgRegister
  import opened Hal
  import opened Errors
  import opened Driver

  /** The outcome of a piece of the protocol, what it did on the bus, and the replies left. */
  datatype Step<T> = Step(result: Result<T>, events: seq<Event>, rest: Pending)

  /** The write that programs the register `cfg` into the device at `address`. */
  function WriteCfg(address: Address, cfg: Cfg): Event
  {
    Write(address, [Encode(cfg)])
  }

  /** Write the register byte and nothing else; a failed write is reported as a bus error. */
  function Program(address: Address, cfg: Cfg, p: Pending): (s: Step<()>)
    ensures s.events == [WriteCfg(address, cfg)]
    ensures s.rest == Pending(Rest(p.writeReplies), p.readReplies)
    ensures s.result.Ok? == NextWrite(p.writeReplies).Pass?
    ensures s.result.Err? ==> s.result.error == BusError(NextWrite(p.writeReplies).fault)
  {
    var rest := Pending(Rest(p.writeReplies), p.readReplies);
    match NextWrite(p.writeReplies)
    case Fail(f) => Step(Err(BusError(f)), [WriteCfg(address, cfg)], rest)
    case Pass => Step(Ok(()), [WriteCfg(address, cfg)], rest)
  }

  /**
   * Write the register byte and, when the device acknowledges, wait `delay`
   * microseconds; a failed write is reported as a bus error and nothing follows it.
   */
  function Trigger(address: Address, cfg: Cfg, delay: U32, p: Pending): Step<()>
  {
    var rest := Pending(Rest(p.writeReplies), p.readReplies);
    match NextWrite(p.writeReplies)
    case Fail(f) => Step(Err(BusError(f)), [WriteCfg(address, cfg)], rest)
    case Pass => Step(Ok(()), [WriteCfg(address, cfg), Delay(delay)], rest)
  }

  /**
   * Triggering is programming the register followed, when the device acknowledged
   * the write, by the wait: same outcome, same replies consumed, one more event.
   */
  lemma TriggerThenWait(address: Address, cfg: Cfg, delay: U32, p: Pending)
    ensures var t := Trigger(address, cfg, delay, p);
      var w := Program(address, cfg, p);
      t.result == w.result && t.rest == w.rest
    ensures var t := Trigger(address, cfg, delay, p);
      var w := Program(address, cfg, p);
      t.events == if w.result.Ok? then w.events + [Delay(delay)] else w.events
  {
  }

  /**
   * Read four bytes and decode them: a failed read is a bus error, otherwise the
   * result is whatever the decoder makes of the bytes, `NotReady` and
   * `IllegalValue` included.
   */
  function Acquire(address: Address, p: Pending): (s: Step<real>)
    ensures s.events == [Read(address, 4)]
    ensures s.rest == Pending(p.writeReplies, Rest(p.readReplies))
    ensures NextRead(p.readReplies).ReadFailed? ==> s.result == Err(BusError(NextRead(p.readReplies).fault))
    ensures NextRead(p.readReplies).Received? ==> s.result == Conversion(NextRead(p.readReplies).bytes)
  {
    var rest := Pending(p.writeReplies, Rest(p.readReplies));
    match NextRead(p.readReplies)
    case ReadFailed(f) => Step(Err(BusError(f)), [Read(address, 4)], rest)
    case Received(bytes) => Step(Conversion(bytes), [Read(address, 4)], rest)
  }

  /** `t` followed by `a`, unless `t` failed. */
  function Then<T>(t: Step<()>, a: Step<T>): Step<T>
  {
    if t.result.Err? then Step(Err(t.result.error), t.events, t.rest)
    else Step(a.result, t.events + a.events, a.rest)
  }

  /**
   * One single conversion: trigger, then acquire. The trace is the write alone
   * when the write fails, and write, delay, read otherwise; the result is the bus
   * error of whichever transfer failed, or the decoded bytes.
   */
  function Shot(address: Address, cfg: Cfg, delay: U32, p: Pending): (s: Step<real>)
    ensures NextWrite(p.writeReplies).Fail? ==>
      s.result == Err(BusError(NextWrite(p.writeReplies).fault)) &&
      s.events == [WriteCfg(address, cfg)] &&
      s.rest == Pending(Rest(p.writeReplies), p.readReplies)
    ensures NextWrite(p.writeReplies).Pass? ==>
      s.events == [WriteCfg(address, cfg), Delay(delay), Read(address, 4)] &&
      s.rest == Pending(Rest(p.writeReplies), Rest(p.readReplies)) &&
      match NextRead(p.readReplies)
      case ReadFailed(f) => s.result == Err(BusError(f))
      case Received(bytes) => s.result == Conversion(bytes)
  {
    var t := Trigger(address, cfg, delay, p);
    Then(t, Acquire(address, t.rest))
  }

  /**
   * One single conversion on `bus`: writes the register byte, waits, reads four
   * bytes into `buffer` and decodes them; the first failed transfer ends it with
   * a bus error. The buffer holds the received bytes when the read happened.
   */
  method RunShot(bus: Bus, address: Address, cfg: Cfg, delay: U32, buffer: array<Byte>) returns (r: Result<real>)
    requires buffer.Length == 4
    modifies bus, buffer
    ensures var s := Shot(address, cfg, delay, old(bus.Replies()));
      r == s.result && bus.trace == old(bus.trace) + s.events && bus.Replies() == s.rest
    ensures var p := old(bus.Replies());
      if NextWrite(p.writeReplies).Pass? && NextRead(p.readReplies).Received?
      then buffer[..] == NextRead(p.readReplies).bytes
      else buffer[..] == old(buffer[..])
  {
    var b := AsByte(cfg);
    var written := bus.Write(address, [b]);
    if written.Fail? {
      return Err(BusError(written.fault));
    }
    bus.DelayUs(delay);
    var read := bus.Read(address, buffer);
    if read.Fail? {
      return Err(BusError(read.fault));
    }
    r := Convert(buffer[..]);
  }
}
