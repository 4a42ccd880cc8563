/**
 * Multi-shot mode: a software sequence of one-shot conversions, one per
 * configuration, run in order; the first failure ends the sequence and no
 * partial result is returned.
 */
module MultiShotDriver {
  import opened Bits
  import opened ChannelField
  import opened GainField
  import opened ModeField
  import opened ResolutionField
  import opened Config
  import opened CfgRegister
  import opened Hal
  import opened Errors
  import opened Driver
  import opened Protocol
  import opened OneShotDriver

  /** The state the driver keeps in multi-shot mode: one register and one delay per round. */
  datatype MultiShotMode = MultiShotMode(cfgs: seq<Cfg>, delays: seq<U32>)

  /**
   * `mode` holds `n` rounds, round `i` being the one-shot register and the
   * conversion time of `configurations[i]`.
   */
  ghost predicate Planned(mode: MultiShotMode, configurations: seq<Configuration>, n: nat)
  {
    |mode.cfgs| == n && |mode.delays| == n && n <= |configurations| &&
    forall i :: 0 <= i < n ==>
      mode.cfgs[i] == OneShotCfg(configurations[i], DefaultCfg) &&
      mode.delays[i] == configurations[i].ConversionTimeUs()
  }

  /**
   * `cfgs_and_delays`: fills a register array and a delay array from the first
   * `n` configurations; a shorter slice is out of bounds in the source.
   */
  method CfgsAndDelays(configurations: seq<Configuration>, n: nat) returns (cfgs: seq<Cfg>, delays: seq<U32>)
    requires |configurations| >= n
    ensures Planned(MultiShotMode(cfgs, delays), configurations, n)
  {
    var c := new Cfg[n](_ => DefaultCfg);
    var d := new U32[n](_ => 0);
    for i := 0 to n
      invariant forall j :: 0 <= j < i ==>
        c[j] == OneShotCfg(configurations[j], DefaultCfg) && d[j] == configurations[j].ConversionTimeUs()
    {
      OneShotCfgByte(configurations[i], c[i], DefaultCfg);
      c[i] := OneShotCfg(configurations[i], c[i]);
      d[i] := configurations[i].ConversionTimeUs();
    }
    cfgs, delays := c[..], d[..];
  }

  /** `MultiShotMode::new`: one round per configuration. */
  method NewMultiShotMode(configurations: seq<Configuration>) returns (mode: MultiShotMode)
    ensures Planned(mode, configurations, |configurations|)
  {
    var cfgs, delays := CfgsAndDelays(configurations, |configurations|);
    mode := MultiShotMode(cfgs, delays);
  }

  /** Every register a multi-shot mode writes starts a one-shot conversion: bit 7 set, bit 4 clear. */
  lemma PlannedBytes(mode: MultiShotMode, configurations: seq<Configuration>, n: nat)
    requires Planned(mode, configurations, n)
    ensures forall i :: 0 <= i < n ==> Encode(mode.cfgs[i]) >= 0x80 && (Encode(mode.cfgs[i]) / 16) % 2 == 0
  {
    forall i | 0 <= i < n
      ensures Encode(mode.cfgs[i]) >= 0x80 && (Encode(mode.cfgs[i]) / 16) % 2 == 0
    {
      OneShotCfgByte(configurations[i], DefaultCfg, DefaultCfg);
    }
  }

  /** The default configuration on channels 3 and 4 is written as `0b1100_0000` and `0b1110_0000`. */
  lemma ChannelBytesExample()
    ensures Encode(OneShotCfg(DefaultConfiguration.WithChannel(Channel3), DefaultCfg)) == 0xC0
    ensures Encode(OneShotCfg(DefaultConfiguration.WithChannel(Channel4), DefaultCfg)) == 0xE0
  {
  }

  /** The three events of one successful round. */
  function RoundEvents(address: Address, cfg: Cfg, delay: U32): seq<Event>
  {
    [WriteCfg(address, cfg), Delay(delay), Read(address, 4)]
  }

  /** The events of rounds `i` to `i + j - 1`, all successful, in order. */
  function Schedule(address: Address, cfgs: seq<Cfg>, delays: seq<U32>, i: nat, j: nat): (evs: seq<Event>)
    requires |cfgs| == |delays| && i + j <= |cfgs|
    ensures |evs| == 3 * j
    decreases j
  {
    if j == 0 then [] else RoundEvents(address, cfgs[i], delays[i]) + Schedule(address, cfgs, delays, i + 1, j - 1)
  }

  /** `s` and then, if it succeeded, `t`, with `s`'s value put in front of `t`'s. */
  function Combine(s: Step<real>, t: Step<seq<real>>): Step<seq<real>>
  {
    if s.result.Err? then Step(Err(s.result.error), s.events, s.rest)
    else Step(if t.result.Ok? then Ok([s.result.value] + t.result.value) else t.result, s.events + t.events, t.rest)
  }

  /** Rounds `i` onwards: one-shot conversion after one-shot conversion, stopping at the first error. */
  function RoundsFrom(address: Address, cfgs: seq<Cfg>, delays: seq<U32>, i: nat, p: Pending): Step<seq<real>>
    requires |cfgs| == |delays| && i <= |cfgs|
    decreases |cfgs| - i
  {
    if i == |cfgs| then Step(Ok([]), [], p)
    else
      var s := Shot(address, cfgs[i], delays[i], p);
      Combine(s, RoundsFrom(address, cfgs, delays, i + 1, s.rest))
  }

  /** The replies left once a round has taken its write reply and its read reply. */
  function Consume(p: Pending): Pending
  {
    Pending(Rest(p.writeReplies), Rest(p.readReplies))
  }

  /** The replies left after `k` rounds that each took a write reply and a read reply. */
  function Advance(p: Pending, k: nat): Pending
    decreases k
  {
    if k == 0 then p else Advance(Consume(p), k - 1)
  }

  /**
   * The next round succeeds on the replies `p`: its write is acknowledged and its
   * read returns bytes that decode.
   */
  ghost predicate Good(p: Pending)
  {
    NextWrite(p.writeReplies).Pass? && NextRead(p.readReplies).Received? &&
    Conversion(NextRead(p.readReplies).bytes).Ok?
  }

  /** The next `m` rounds all succeed on the replies `p`. */
  ghost predicate AllGood(p: Pending, m: nat)
    decreases m
  {
    m == 0 || (Good(p) && AllGood(Consume(p), m - 1))
  }

  /** Each of `values` is what the matching reply decodes to. */
  ghost predicate Decodes(values: seq<real>, replies: seq<ReadReply>)
  {
    values == [] ||
    (NextRead(replies).Received? && Ok(values[0]) == Conversion(NextRead(replies).bytes) &&
     Decodes(values[1..], Rest(replies)))
  }

  /** A round succeeds exactly when its one-shot conversion does; then it writes, waits, reads and consumes one reply of each kind. */
  lemma GoodShot(address: Address, cfg: Cfg, delay: U32, p: Pending)
    ensures Good(p) == Shot(address, cfg, delay, p).result.Ok?
    ensures Good(p) ==>
      Shot(address, cfg, delay, p).result == Conversion(NextRead(p.readReplies).bytes) &&
      Shot(address, cfg, delay, p).events == RoundEvents(address, cfg, delay) &&
      Shot(address, cfg, delay, p).rest == Consume(p)
  {
  }

  /** The rounds from `i` when the next one succeeds: its three events go in front of the later rounds' events. */
  lemma RoundsConsTrace(address: Address, cfgs: seq<Cfg>, delays: seq<U32>, i: nat, p: Pending)
    requires |cfgs| == |delays| && i < |cfgs| && Good(p)
    ensures RoundsFrom(address, cfgs, delays, i, p).events ==
      RoundEvents(address, cfgs[i], delays[i]) + RoundsFrom(address, cfgs, delays, i + 1, Consume(p)).events
    ensures RoundsFrom(address, cfgs, delays, i, p).rest == RoundsFrom(address, cfgs, delays, i + 1, Consume(p)).rest
  {
    GoodShot(address, cfgs[i], delays[i], p);
  }

  /**
   * The rounds from `i` when the next one succeeds: they succeed when the later
   * rounds do, with the round's value in front of theirs, and fail with their error otherwise.
   */
  lemma RoundsConsResult(address: Address, cfgs: seq<Cfg>, delays: seq<U32>, i: nat, p: Pending)
    requires |cfgs| == |delays| && i < |cfgs| && Good(p)
    ensures RoundsFrom(address, cfgs, delays, i, p).result.Ok? == RoundsFrom(address, cfgs, delays, i + 1, Consume(p)).result.Ok?
    ensures RoundsFrom(address, cfgs, delays, i + 1, Consume(p)).result.Ok? ==>
      RoundsFrom(address, cfgs, delays, i, p).result.value ==
      [Conversion(NextRead(p.readReplies).bytes).value] + RoundsFrom(address, cfgs, delays, i + 1, Consume(p)).result.value
    ensures RoundsFrom(address, cfgs, delays, i + 1, Consume(p)).result.Err? ==>
      RoundsFrom(address, cfgs, delays, i, p).result == RoundsFrom(address, cfgs, delays, i + 1, Consume(p)).result
  {
    GoodShot(address, cfgs[i], delays[i], p);
  }

  /** The rounds from `i` when the next one fails: its error, its events, and nothing after it. */
  lemma RoundsStop(address: Address, cfgs: seq<Cfg>, delays: seq<U32>, i: nat, p: Pending)
    requires |cfgs| == |delays| && i < |cfgs| && Shot(address, cfgs[i], delays[i], p).result.Err?
    ensures RoundsFrom(address, cfgs, delays, i, p).result == Err(Shot(address, cfgs[i], delays[i], p).result.error)
    ensures RoundsFrom(address, cfgs, delays, i, p).events == Shot(address, cfgs[i], delays[i], p).events
    ensures RoundsFrom(address, cfgs, delays, i, p).rest == Shot(address, cfgs[i], delays[i], p).rest
  {
  }

  /** The rounds from `i` succeed exactly when every remaining round is good. */
  lemma RoundsOk(address: Address, cfgs: seq<Cfg>, delays: seq<U32>, i: nat, p: Pending)
    requires |cfgs| == |delays| && i <= |cfgs|
    ensures RoundsFrom(address, cfgs, delays, i, p).result.Ok? == AllGood(p, |cfgs| - i)
  {
    if AllGood(p, |cfgs| - i) {
      RoundsValues(address, cfgs, delays, i, p);
    } else {
      RoundsBad(address, cfgs, delays, i, p);
    }
  }

  /** When some remaining round is not good, the rounds from `i` fail. */
  lemma {:induction false} RoundsBad(address: Address, cfgs: seq<Cfg>, delays: seq<U32>, i: nat, p: Pending)
    requires |cfgs| == |delays| && i <= |cfgs| && !AllGood(p, |cfgs| - i)
    ensures RoundsFrom(address, cfgs, delays, i, p).result.Err?
    decreases |cfgs| - i
  {
    var q := Consume(p);
    assert !Good(p) || !AllGood(q, |cfgs| - (i + 1));
    if Good(p) {
      RoundsBad(address, cfgs, delays, i + 1, q);
      RoundsConsResult(address, cfgs, delays, i, p);
    } else {
      GoodShot(address, cfgs[i], delays[i], p);
      RoundsStop(address, cfgs, delays, i, p);
    }
  }

  /**
   * When every remaining round is good, the result holds one value per round,
   * each being what that round's reply decodes to, in order.
   */
  lemma {:induction false} RoundsValues(address: Address, cfgs: seq<Cfg>, delays: seq<U32>, i: nat, p: Pending)
    requires |cfgs| == |delays| && i <= |cfgs| && AllGood(p, |cfgs| - i)
    ensures RoundsFrom(address, cfgs, delays, i, p).result.Ok?
    ensures |RoundsFrom(address, cfgs, delays, i, p).result.value| == |cfgs| - i
    ensures Decodes(RoundsFrom(address, cfgs, delays, i, p).result.value, p.readReplies)
    decreases |cfgs| - i
  {
    if i < |cfgs| {
      var q := Consume(p);
      assert Good(p) && AllGood(q, |cfgs| - (i + 1));
      var t := RoundsFrom(address, cfgs, delays, i + 1, q).result;
      RoundsValues(address, cfgs, delays, i + 1, q);
      RoundsConsResult(address, cfgs, delays, i, p);
      var values := RoundsFrom(address, cfgs, delays, i, p).result.value;
      assert values[0] == Conversion(NextRead(p.readReplies).bytes).value && values[1..] == t.value;
      assert Rest(p.readReplies) == q.readReplies;
    }
  }

  /** Concatenation regroups freely. */
  lemma ConcatAssoc<T>(a: seq<T>, b: seq<T>, c: seq<T>)
    ensures a + (b + c) == a + b + c
  {
  }

  /**
   * After the good rounds `i` to `k - 1`, the rounds from `i` are those rounds'
   * three events each followed by the rounds from `k`, on the replies the good
   * rounds left.
   */
  lemma {:induction false} RoundsPrefix(address: Address, cfgs: seq<Cfg>, delays: seq<U32>, i: nat, p: Pending, k: nat)
    requires |cfgs| == |delays| && i <= k <= |cfgs| && AllGood(p, k - i)
    ensures RoundsFrom(address, cfgs, delays, i, p).events ==
      Schedule(address, cfgs, delays, i, k - i) + RoundsFrom(address, cfgs, delays, k, Advance(p, k - i)).events
    ensures RoundsFrom(address, cfgs, delays, i, p).rest == RoundsFrom(address, cfgs, delays, k, Advance(p, k - i)).rest
    decreases k - i
  {
    if i < k {
      var tail := RoundsFrom(address, cfgs, delays, k, Advance(p, k - i));
      assert AllGood(Consume(p), k - (i + 1));
      assert Advance(Consume(p), k - (i + 1)) == Advance(p, k - i);
      RoundsConsTrace(address, cfgs, delays, i, p);
      RoundsPrefix(address, cfgs, delays, i + 1, Consume(p), k);
      ConcatAssoc(RoundEvents(address, cfgs[i], delays[i]), Schedule(address, cfgs, delays, i + 1, k - (i + 1)), tail.events);
    }
  }

  /** After the good rounds `i` to `k - 1`, an error in the rounds from `k` is the error of the rounds from `i`. */
  lemma {:induction false} RoundsPrefixError(address: Address, cfgs: seq<Cfg>, delays: seq<U32>, i: nat, p: Pending, k: nat)
    requires |cfgs| == |delays| && i <= k <= |cfgs| && AllGood(p, k - i)
    requires RoundsFrom(address, cfgs, delays, k, Advance(p, k - i)).result.Err?
    ensures RoundsFrom(address, cfgs, delays, i, p).result == RoundsFrom(address, cfgs, delays, k, Advance(p, k - i)).result
    decreases k - i
  {
    if i < k {
      assert AllGood(Consume(p), k - (i + 1));
      assert Advance(Consume(p), k - (i + 1)) == Advance(p, k - i);
      RoundsPrefixError(address, cfgs, delays, i + 1, Consume(p), k);
      RoundsConsResult(address, cfgs, delays, i, p);
    }
  }

  /**
   * When every remaining round is good, the trace is the schedule of every round
   * and each round consumed one write and one read reply.
   */
  lemma RoundsTrace(address: Address, cfgs: seq<Cfg>, delays: seq<U32>, i: nat, p: Pending)
    requires |cfgs| == |delays| && i <= |cfgs| && AllGood(p, |cfgs| - i)
    ensures RoundsFrom(address, cfgs, delays, i, p).events == Schedule(address, cfgs, delays, i, |cfgs| - i)
    ensures RoundsFrom(address, cfgs, delays, i, p).rest == Advance(p, |cfgs| - i)
  {
    RoundsPrefix(address, cfgs, delays, i, p, |cfgs|);
    assert Schedule(address, cfgs, delays, i, |cfgs| - i) + [] == Schedule(address, cfgs, delays, i, |cfgs| - i);
  }

  /**
   * When the first `k` rounds are good and round `k` fails, the result is that
   * round's error and the trace is the schedule of the good rounds followed by
   * the failing round's own events: nothing happens on the bus after it.
   */
  lemma RoundsFail(address: Address, cfgs: seq<Cfg>, delays: seq<U32>, p: Pending, k: nat)
    requires |cfgs| == |delays| && k < |cfgs|
    requires AllGood(p, k) && Shot(address, cfgs[k], delays[k], Advance(p, k)).result.Err?
    ensures RoundsFrom(address, cfgs, delays, 0, p).result == Err(Shot(address, cfgs[k], delays[k], Advance(p, k)).result.error)
    ensures RoundsFrom(address, cfgs, delays, 0, p).events ==
      Schedule(address, cfgs, delays, 0, k) + Shot(address, cfgs[k], delays[k], Advance(p, k)).events
    ensures RoundsFrom(address, cfgs, delays, 0, p).rest == Shot(address, cfgs[k], delays[k], Advance(p, k)).rest
  {
    RoundsStop(address, cfgs, delays, k, Advance(p, k));
    RoundsPrefix(address, cfgs, delays, 0, p, k);
    RoundsPrefixError(address, cfgs, delays, 0, p, k);
  }
  /** `RoundsFail` with the run's events appended to an earlier trace. */
  lemma FailedRun(address: Address, cfgs: seq<Cfg>, delays: seq<U32>, p: Pending, k: nat, t0: seq<Event>, trace: seq<Event>)
    requires |cfgs| == |delays| && k < |cfgs|
    requires AllGood(p, k) && Shot(address, cfgs[k], delays[k], Advance(p, k)).result.Err?
    requires trace == t0 + Schedule(address, cfgs, delays, 0, k) + Shot(address, cfgs[k], delays[k], Advance(p, k)).events
    ensures var s := RoundsFrom(address, cfgs, delays, 0, p);
      s.result == Err(Shot(address, cfgs[k], delays[k], Advance(p, k)).result.error) &&
      trace == t0 + s.events && s.rest == Shot(address, cfgs[k], delays[k], Advance(p, k)).rest
  {
    RoundsFail(address, cfgs, delays, p, k);
    ConcatAssoc(t0, Schedule(address, cfgs, delays, 0, k), Shot(address, cfgs[k], delays[k], Advance(p, k)).events);
  }


  /** One more good round after `m` good ones makes `m + 1`. */
  lemma {:induction false} AllGoodSnoc(p: Pending, m: nat)
    requires AllGood(p, m) && Good(Advance(p, m))
    ensures AllGood(p, m + 1)
    decreases m
  {
    if m > 0 {
      AllGoodSnoc(Consume(p), m - 1);
    }
  }

  /** Advancing one more round consumes the next write reply and read reply. */
  lemma {:induction false} AdvanceSnoc(p: Pending, m: nat)
    ensures Advance(p, m + 1) == Consume(Advance(p, m))
    decreases m
  {
    if m > 0 {
      AdvanceSnoc(Consume(p), m - 1);
    }
  }

  /** The schedule of one more round ends with that round's three events. */
  lemma {:induction false} ScheduleSnoc(address: Address, cfgs: seq<Cfg>, delays: seq<U32>, i: nat, j: nat)
    requires |cfgs| == |delays| && i + j < |cfgs|
    ensures Schedule(address, cfgs, delays, i, j + 1) ==
      Schedule(address, cfgs, delays, i, j) + RoundEvents(address, cfgs[i + j], delays[i + j])
    decreases j
  {
    if j > 0 {
      ScheduleSnoc(address, cfgs, delays, i + 1, j - 1);
      assert RoundEvents(address, cfgs[i], delays[i]) +
        (Schedule(address, cfgs, delays, i + 1, j - 1) + RoundEvents(address, cfgs[i + j], delays[i + j])) ==
        RoundEvents(address, cfgs[i], delays[i]) + Schedule(address, cfgs, delays, i + 1, j - 1) +
        RoundEvents(address, cfgs[i + j], delays[i + j]);
    }
  }

  /** `m` good rounds consume the first `m` write replies and read replies: they exist, and the writes were acknowledged. */
  lemma {:induction false} AllGoodReplies(p: Pending, m: nat)
    requires AllGood(p, m)
    ensures m <= |p.writeReplies| && m <= |p.readReplies|
    ensures Advance(p, m) == Pending(p.writeReplies[m..], p.readReplies[m..])
    ensures forall k :: 0 <= k < m ==> p.writeReplies[k] == Pass && p.readReplies[k].Received?
    decreases m
  {
    if m == 0 {
      assert p.writeReplies[0..] == p.writeReplies && p.readReplies[0..] == p.readReplies;
    } else {
      var q := Consume(p);
      AllGoodReplies(q, m - 1);
      assert q.writeReplies == p.writeReplies[1..] && q.readReplies == p.readReplies[1..];
      assert p.writeReplies[1..][m - 1..] == p.writeReplies[m..];
      assert p.readReplies[1..][m - 1..] == p.readReplies[m..];
      forall k | 0 < k < m
        ensures p.writeReplies[k] == Pass && p.readReplies[k].Received?
      {
        assert q.writeReplies[k - 1] == p.writeReplies[k] && q.readReplies[k - 1] == p.readReplies[k];
      }
    }
  }

  /** A value decoded from the reply after those already decoded extends the decoding. */
  lemma {:induction false} DecodesSnoc(values: seq<real>, value: real, replies: seq<ReadReply>)
    requires |values| < |replies| && Decodes(values, replies)
    requires replies[|values|].Received? && Ok(value) == Conversion(replies[|values|].bytes)
    ensures Decodes(values + [value], replies)
    decreases |values|
  {
    if values == [] {
      assert ([] + [value])[1..] == [];
    } else {
      DecodesSnoc(values[1..], value, replies[1..]);
      assert (values + [value])[1..] == values[1..] + [value];
    }
  }

  /** The decoding of a sequence of replies is unique. */
  lemma {:induction false} DecodesUnique(a: seq<real>, b: seq<real>, replies: seq<ReadReply>)
    requires |a| == |b| && Decodes(a, replies) && Decodes(b, replies)
    ensures a == b
    decreases |a|
  {
    if a != [] {
      DecodesUnique(a[1..], b[1..], Rest(replies));
      assert a == [a[0]] + a[1..] && b == [b[0]] + b[1..];
    }
  }

  /** `values` decodes `replies` exactly when each value is the decoding of the reply at its index. */
  lemma {:induction false} DecodesIndex(values: seq<real>, replies: seq<ReadReply>)
    requires |values| <= |replies|
    ensures Decodes(values, replies) <==>
      forall k :: 0 <= k < |values| ==> replies[k].Received? && Ok(values[k]) == Conversion(replies[k].bytes)
    decreases |values|
  {
    if values != [] {
      DecodesIndex(values[1..], replies[1..]);
      assert Rest(replies) == replies[1..];
      if forall k :: 0 <= k < |values| ==> replies[k].Received? && Ok(values[k]) == Conversion(replies[k].bytes) {
        forall k | 0 <= k < |values| - 1
          ensures replies[1..][k].Received? && Ok(values[1..][k]) == Conversion(replies[1..][k].bytes)
        {
          assert replies[1..][k] == replies[k + 1] && values[1..][k] == values[k + 1];
        }
      }
      if Decodes(values, replies) {
        forall k | 0 < k < |values|
          ensures replies[k].Received? && Ok(values[k]) == Conversion(replies[k].bytes)
        {
          assert replies[1..][k - 1] == replies[k] && values[1..][k - 1] == values[k];
        }
      }
    }
  }

  /**
   * One more good round: after `i` good rounds that decoded to `values`, a round
   * whose one-shot conversion yields `value` makes `i + 1` good rounds, consumes
   * its replies, appends its events to the schedule and its value to the values.
   */
  lemma RoundGood(address: Address, cfgs: seq<Cfg>, delays: seq<U32>, p0: Pending, values: seq<real>, value: real)
    requires |cfgs| == |delays| && |values| < |cfgs|
    requires AllGood(p0, |values|) && Decodes(values, p0.readReplies)
    requires Shot(address, cfgs[|values|], delays[|values|], Advance(p0, |values|)).result == Ok(value)
    ensures AllGood(p0, |values| + 1)
    ensures Advance(p0, |values| + 1) == Shot(address, cfgs[|values|], delays[|values|], Advance(p0, |values|)).rest
    ensures Schedule(address, cfgs, delays, 0, |values| + 1) ==
      Schedule(address, cfgs, delays, 0, |values|) + Shot(address, cfgs[|values|], delays[|values|], Advance(p0, |values|)).events
    ensures Decodes(values + [value], p0.readReplies)
  {
    var i := |values|;
    var p := Advance(p0, i);
    GoodShot(address, cfgs[i], delays[i], p);
    AllGoodSnoc(p0, i);
    AdvanceSnoc(p0, i);
    ScheduleSnoc(address, cfgs, delays, 0, i);
    AllGoodReplies(p0, i);
    assert p.readReplies == p0.readReplies[i..] && i < |p0.readReplies|;
    DecodesSnoc(values, value, p0.readReplies);
  }
  /** `RoundGood` with the run's events appended to an earlier trace. */
  lemma GoodRun(address: Address, cfgs: seq<Cfg>, delays: seq<U32>, p0: Pending, values: seq<real>, value: real, t0: seq<Event>, trace: seq<Event>)
    requires |cfgs| == |delays| && |values| < |cfgs|
    requires AllGood(p0, |values|) && Decodes(values, p0.readReplies)
    requires Shot(address, cfgs[|values|], delays[|values|], Advance(p0, |values|)).result == Ok(value)
    requires trace == t0 + Schedule(address, cfgs, delays, 0, |values|) + Shot(address, cfgs[|values|], delays[|values|], Advance(p0, |values|)).events
    ensures AllGood(p0, |values| + 1) && Decodes(values + [value], p0.readReplies)
    ensures Advance(p0, |values| + 1) == Shot(address, cfgs[|values|], delays[|values|], Advance(p0, |values|)).rest
    ensures trace == t0 + Schedule(address, cfgs, delays, 0, |values| + 1)
  {
    RoundGood(address, cfgs, delays, p0, values, value);
    ConcatAssoc(t0, Schedule(address, cfgs, delays, 0, |values|), Shot(address, cfgs[|values|], delays[|values|], Advance(p0, |values|)).events);
  }


  /**
   * All rounds good: the whole measurement is the decoded values, the schedule
   * of every round, and the replies after the last round.
   */
  lemma RoundsComplete(address: Address, cfgs: seq<Cfg>, delays: seq<U32>, p0: Pending, values: seq<real>)
    requires |cfgs| == |delays| && |values| == |cfgs|
    requires AllGood(p0, |cfgs|) && Decodes(values, p0.readReplies)
    ensures RoundsFrom(address, cfgs, delays, 0, p0) == Step(Ok(values), Schedule(address, cfgs, delays, 0, |cfgs|), Advance(p0, |cfgs|))
  {
    RoundsValues(address, cfgs, delays, 0, p0);
    RoundsTrace(address, cfgs, delays, 0, p0);
    DecodesUnique(values, RoundsFrom(address, cfgs, delays, 0, p0).result.value, p0.readReplies);
  }

  /** The schedule of two rounds, event by event. */
  lemma ScheduleTwo(address: Address, cfgs: seq<Cfg>, delays: seq<U32>)
    requires |cfgs| == |delays| == 2
    ensures Schedule(address, cfgs, delays, 0, 2) ==
      [WriteCfg(address, cfgs[0]), Delay(delays[0]), Read(address, 4), WriteCfg(address, cfgs[1]), Delay(delays[1]), Read(address, 4)]
  {
    assert Schedule(address, cfgs, delays, 2, 0) == [];
  }

  /** Two acknowledged writes and two replies that decode: both rounds are good and every reply is used. */
  lemma TwoGoodReplies(b1: Buffer, b2: Buffer, v1: real, v2: real)
    requires Conversion(b1) == Ok(v1) && Conversion(b2) == Ok(v2)
    ensures var p := Pending([Pass, Pass], [Received(b1), Received(b2)]);
      AllGood(p, 2) && Decodes([v1, v2], p.readReplies) && Advance(p, 2) == Pending([], [])
  {
    var p := Pending([Pass, Pass], [Received(b1), Received(b2)]);
    assert Consume(p) == Pending([Pass], [Received(b2)]);
    assert Consume(Consume(p)) == Pending([], []);
    assert [v1, v2][1..] == [v2] && [v2][1..] == [];
  }

  /**
   * The driver's own two-round scenario at address 0x68: channel 2 at 12 bits,
   * then channel 1 at 16 bits. Both registers are written, waited for and read
   * in order, and the replies `[0, 1, ..]` and `[0, 2, ..]` read as 1 mV and 0.125 mV.
   */
  lemma TwoRoundsExample(mode: MultiShotMode, reply1: Buffer, reply2: Buffer)
    requires Planned(mode, [DefaultConfiguration.WithChannel(Channel2), DefaultConfiguration.WithResolution(SixteenBits)], 2)
    requires reply1 == [0, 1, 0x20, 0] && reply2 == [0, 2, 0x08, 0]
    ensures var s := RoundsFrom(0x68, mode.cfgs, mode.delays, 0, Pending([Pass, Pass], [Received(reply1), Received(reply2)]));
      s.result == Ok([1.0, 0.125]) &&
      s.events == [Write(0x68, [0xA0]), Delay(4167), Read(0x68, 4), Write(0x68, [0x88]), Delay(66667), Read(0x68, 4)] &&
      s.rest == Pending([], [])
  {
    var first, second := mode.cfgs[0], mode.cfgs[1];
    assert WriteCfg(0x68, first) == Write(0x68, [0xA0]) && WriteCfg(0x68, second) == Write(0x68, [0x88]);
    assert mode.delays == [4167, 66667];
    assert Conversion(reply1) == Ok(1.0) by {
      assert Encode(first.(ready := true)) == 0x20;
      TwelveBitReply(1, first.(ready := true));
    }
    assert Conversion(reply2) == Ok(0.125) by {
      assert Encode(second.(ready := true)) == 0x08;
      SmallCodeReply(2, second.(ready := true));
      SixteenBitScaleExample();
    }
    TwoGoodReplies(reply1, reply2, 1.0, 0.125);
    RoundsComplete(0x68, mode.cfgs, mode.delays, Pending([Pass, Pass], [Received(reply1), Received(reply2)]), [1.0, 0.125]);
    ScheduleTwo(0x68, mode.cfgs, mode.delays);
  }

  /**
   * The driver's own failing scenario: two rounds on the default configuration
   * where the second reply echoes a register that is not ready. Both rounds run
   * on the bus and the measurement fails with `NotReady`, the first value lost.
   */
  lemma SecondNotReadyExample(mode: MultiShotMode, reply1: Buffer, reply2: Buffer)
    requires Planned(mode, [DefaultConfiguration, DefaultConfiguration], 2)
    requires reply1 == [0, 1, 0x00, 0] && reply2 == [0, 2, 0x80, 0]
    ensures var s := RoundsFrom(0x68, mode.cfgs, mode.delays, 0, Pending([Pass, Pass], [Received(reply1), Received(reply2)]));
      s.result == Err(NotReady) &&
      s.events == [Write(0x68, [0x80]), Delay(4167), Read(0x68, 4), Write(0x68, [0x80]), Delay(4167), Read(0x68, 4)]
  {
    var p0 := Pending([Pass, Pass], [Received(reply1), Received(reply2)]);
    assert WriteCfg(0x68, mode.cfgs[0]) == Write(0x68, [0x80]) && WriteCfg(0x68, mode.cfgs[1]) == Write(0x68, [0x80]) by {
      DefaultOneShotByte();
    }
    assert mode.delays == [4167, 4167];
    assert Conversion(reply1).Ok? by {
      assert Encode(mode.cfgs[0].(ready := true)) == 0;
      TwelveBitReply(1, mode.cfgs[0].(ready := true));
    }
    var p1 := Pending([Pass], [Received(reply2)]);
    assert AllGood(p0, 1) && Advance(p0, 1) == p1 by {
      assert Consume(p0) == p1;
    }
    assert Shot(0x68, mode.cfgs[1], mode.delays[1], p1).result == Err(NotReady) by {
      ConversionNotReady(reply2);
      assert ConfigByte(reply2) == 0x80;
    }
    RoundsFail(0x68, mode.cfgs, mode.delays, p0, 1);
    assert Schedule(0x68, mode.cfgs, mode.delays, 0, 1) == RoundEvents(0x68, mode.cfgs[0], mode.delays[0]) by {
      assert Schedule(0x68, mode.cfgs, mode.delays, 1, 0) == [];
    }
  }

  /** `MCP3424<.., MultiShotMode<N>>`: the bus, the device address, the round count and the mode state. */
  class MultiShotAdc {
    const bus: Bus
    const address: Address
    const n: nat
    var mode: MultiShotMode

    /** Both arrays hold `n` entries, as `[Cfg; N]` and `[u32; N]` do. */
    predicate Valid()
      reads this
    {
      |mode.cfgs| == n && |mode.delays| == n
    }

    constructor (bus: Bus, address: Address, mode: MultiShotMode)
      requires |mode.cfgs| == |mode.delays|
      ensures this.bus == bus && this.address == address && this.mode == mode && n == |mode.cfgs|
      ensures Valid()
    {
      this.bus := bus;
      this.address := address;
      this.mode := mode;
      n := |mode.cfgs|;
    }

    /** Replaces every round from the first `n` configurations; the device sees them at the next measurement. */
    method Configure(configurations: seq<Configuration>)
      requires Valid() && |configurations| >= n
      modifies this
      ensures Valid() && Planned(mode, configurations, n)
      ensures bus.trace == old(bus.trace) && bus.Replies() == old(bus.Replies())
    {
      var cfgs, delays := CfgsAndDelays(configurations, n);
      mode := MultiShotMode(cfgs, delays);
    }

    /** All rounds into a fresh buffer. */
    method Measure() returns (r: Result<seq<real>>)
      requires Valid()
      modifies bus
      ensures mode == old(mode)
      ensures var s := RoundsFrom(address, mode.cfgs, mode.delays, 0, old(bus.Replies()));
        r == s.result && bus.trace == old(bus.trace) + s.events && bus.Replies() == s.rest
    {
      var buffer := new Byte[4](_ => 0);
      r := DoMeasure(buffer);
    }

    /**
     * Runs round after round, each writing its register, waiting its delay,
     * reading into `buffer` and decoding; the first error is returned at once.
     */
    method DoMeasure(buffer: array<Byte>) returns (r: Result<seq<real>>)
      requires Valid() && buffer.Length == 4
      modifies bus, buffer
      ensures var s := RoundsFrom(address, mode.cfgs, mode.delays, 0, old(bus.Replies()));
        r == s.result && bus.trace == old(bus.trace) + s.events && bus.Replies() == s.rest
    {
      ghost var p0, t0 := bus.Replies(), bus.trace;
      var cfgs, delays := mode.cfgs, mode.delays;
      var values := new real[n](_ => 0.0);
      ghost var done: seq<real> := [];
      for i := 0 to n
        invariant AllGood(p0, i) && bus.Replies() == Advance(p0, i)
        invariant bus.trace == t0 + Schedule(address, cfgs, delays, 0, i)
        invariant |done| == i && values[..i] == done && Decodes(done, p0.readReplies)
      {
        var value := RunShot(bus, address, cfgs[i], delays[i], buffer);
        if value.Err? {
          FailedRun(address, cfgs, delays, p0, i, t0, bus.trace);
          return Err(value.error);
        }
        GoodRun(address, cfgs, delays, p0, done, value.value, t0, bus.trace);
        values[i] := value.value;
        done := done + [value.value];
      }
      assert values[..] == done;
      RoundsComplete(address, cfgs, delays, p0, done);
      r := Ok(values[..]);
    }

    /** A stream whose every pull is one `DoMeasure`; it is created without bus traffic. */
    method MeasureStream() returns (r: Result<MultiShotStream>)
      ensures r.Ok? && fresh(r.value) && r.value.adc == this && r.value.buffer.Length == 4
    {
      var stream := new MultiShotStream(this);
      r := Ok(stream);
    }
  }

  /** The endless stream of multi-shot measurements; it owns the read buffer between pulls. */
  class MultiShotStream {
    const adc: MultiShotAdc
    const buffer: array<Byte>

    constructor (adc: MultiShotAdc)
      ensures this.adc == adc && fresh(buffer) && buffer.Length == 4
    {
      this.adc := adc;
      buffer := new Byte[4](_ => 0);
    }

    /** Every pull runs all rounds once and yields the outcome, an error included: the stream never ends. */
    method Next() returns (item: Option<Result<seq<real>>>)
      requires adc.Valid() && buffer.Length == 4
      modifies adc.bus, buffer
      ensures var s := RoundsFrom(adc.address, adc.mode.cfgs, adc.mode.delays, 0, old(adc.bus.Replies()));
        item == Some(s.result) && adc.bus.trace == old(adc.bus.trace) + s.events && adc.bus.Replies() == s.rest
    {
      var r := adc.DoMeasure(buffer);
      item := Some(r);
    }
  }
}
