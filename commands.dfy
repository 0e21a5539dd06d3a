/** The command-stream encoder `Commands` of `network_tester/commands.py`.
    Its fields are the "last emitted" value of every parameter and the
    append-only list of command words; each setter updates them in place as
    the source does, and is proved to perform the transition of the same name
    in `Session`, where the cross-call properties are proved. */
module CommandStream {
  import opened Status
  import opened Bits
  import opened Opcodes
  import opened Conversions
  import Wire
  import S = Session

  class Commands {
    var commands: seq<int>
    var exited: bool
    var seeded: bool
    var currentTimestep: Option<real>
    var currentRecordInterval: Option<real>
    var numSources: Option<nat>
    var numSinks: Option<nat>
    var currentlyRecorded: nat
    var probability: seq<real>
    var sourceKey: seq<int>
    var payload: seq<bool>
    var sinkKey: seq<int>
    var consume: bool
    var currentBurstPeriod: real
    var currentBurstDuty: real
    var currentBurstPhase: real

    /** The fields as one session state. */
    function Snapshot(): S.State
      reads this
    {
      S.State(commands, exited, seeded, currentTimestep, currentRecordInterval,
              numSources, numSinks, currentlyRecorded, probability, sourceKey,
              payload, sinkKey, consume, currentBurstPeriod, currentBurstDuty,
              currentBurstPhase)
    }

    ghost predicate Valid()
      reads this
    {
      S.Valid(Snapshot())
    }

    constructor()
      ensures Valid() && Snapshot() == S.Init()
    {
      commands := [];
      exited := false;
      seeded := false;
      currentTimestep := None;
      currentRecordInterval := Some(0.0);
      numSources := None;
      numSinks := None;
      currentlyRecorded := 0;
      probability := [];
      sourceKey := [];
      payload := [];
      sinkKey := [];
      consume := true;
      currentBurstPeriod := 0.0;
      currentBurstDuty := 0.0;
      currentBurstPhase := 0.0;
    }

    /** `size`: the byte length of the packed stream, length prefix included;
        only a closed session has one. */
    function Size(): (r: Result<nat>)
      reads this
      ensures r.Ok? <==> exited
      ensures r.Err? ==> r.error == NotExited
      ensures r.Ok? ==> r.value == 4 * (|commands| + 1) && r.value % 4 == 0
      ensures r.Ok? && Wire.Pack(commands).Ok? ==> r.value == |Wire.Pack(commands).value|
    {
      if !exited then Err(NotExited) else Ok((|commands| + 1) * 4)
    }

    /** `pack()` with the default little-endian format: the length prefix
        `4 * len(commands)` followed by the commands, one 32-bit word each. */
    function Pack(): (r: Result<seq<Wire.Byte>>)
      reads this
      ensures !exited ==> r == Err(NotExited)
      ensures r.Ok? <==> exited && Wire.IsWord(4 * |commands|) && Wire.AllWords(commands)
      ensures r.Ok? ==> Size() == Ok(|r.value|)
      ensures r.Ok? ==> Wire.DecodeWords(r.value) == [4 * |commands|] + commands
      ensures r.Err? && exited ==> r.error == WordOutOfRange
    {
      if !exited then Err(NotExited) else Wire.Pack(commands)
    }

    method Exit() returns (outcome: Outcome)
      requires Valid()
      modifies this
      ensures Valid() && S.Exit(old(Snapshot())) == S.Step(Snapshot(), outcome)
    {
      if exited {
        return Failed(SessionClosed);
      }
      commands := commands + [EXIT];
      exited := true;
      return Done;
    }

    method Sleep(duration: real) returns (outcome: Outcome)
      requires Valid()
      modifies this
      ensures Valid() && S.Sleep(old(Snapshot()), duration) == S.Step(Snapshot(), outcome)
    {
      if exited {
        return Failed(SessionClosed);
      }
      commands := commands + [SLEEP, Micros(duration)];
      return Done;
    }

    method Barrier() returns (outcome: Outcome)
      requires Valid()
      modifies this
      ensures Valid() && S.Barrier(old(Snapshot())) == S.Step(Snapshot(), outcome)
    {
      if exited {
        return Failed(SessionClosed);
      }
      commands := commands + [BARRIER];
      return Done;
    }

    /** `seed(seed)`; `drawn` is the value `random.getrandbits(32)` would return. */
    method Seed(seed: Option<int>, drawn: nat) returns (outcome: Outcome)
      requires Valid() && drawn < 0x1_0000_0000
      modifies this
      ensures Valid() && S.Seed(old(Snapshot()), seed, drawn) == S.Step(Snapshot(), outcome)
    {
      if exited {
        return Failed(SessionClosed);
      }
      var value := seed;
      if seed.None? {
        if !seeded {
          value := Some(drawn);
          seeded := true;
        }
      } else {
        seeded := false;
      }
      if value.Some? {
        commands := commands + [SEED, value.value];
      }
      return Done;
    }

    /** `timestep(timestep)`: on a change, send it and re-derive the record
        interval and the burst by poisoning their stored values and calling
        their setters again. */
    method Timestep(timestep: real) returns (outcome: Outcome)
      requires Valid()
      modifies this
      ensures Valid() && S.Timestep(old(Snapshot()), timestep) == S.Step(Snapshot(), outcome)
    {
      if exited {
        return Failed(SessionClosed);
      }
      if currentTimestep == Some(timestep) {
        return Done;
      }
      currentTimestep := Some(timestep);
      commands := commands + [TIMESTEP, Nanos(timestep)];
      outcome := RederiveRecordInterval();
      if outcome.Failed? {
        return;
      }
      outcome := RederiveBurst();
    }

    /** Poisons the stored record interval with `None` and sets it again. */
    method RederiveRecordInterval() returns (outcome: Outcome)
      requires Valid() && !exited
      modifies this
      ensures Valid() && S.RederiveRecordInterval(old(Snapshot())) == S.Step(Snapshot(), outcome)
    {
      var recordInterval := currentRecordInterval;
      if recordInterval.Some? && recordInterval.value != 0.0 {
        currentRecordInterval := None;
        outcome := RecordInterval(recordInterval.value);
        return;
      }
      return Done;
    }

    /** Poisons the stored burst period with `-1` and sets the burst again. */
    method RederiveBurst() returns (outcome: Outcome)
      requires Valid() && !exited
      modifies this
      ensures Valid() && S.RederiveBurst(old(Snapshot())) == S.Step(Snapshot(), outcome)
    {
      var burstPeriod := currentBurstPeriod;
      if burstPeriod != 0.0 {
        currentBurstPeriod := S.Sentinel;
        outcome := Burst(burstPeriod, currentBurstDuty, Some(currentBurstPhase), 0.0);
        return;
      }
      return Done;
    }

    method Run(duration: real) returns (outcome: Outcome)
      requires Valid()
      modifies this
      ensures Valid() && S.Run(old(Snapshot()), duration) == S.Step(Snapshot(), outcome)
    {
      if exited {
        return Failed(SessionClosed);
      }
      var ticks := S.Ticks(duration, currentTimestep);
      if ticks.Err? {
        return Failed(ticks.error);
      }
      commands := commands + [RUN, ticks.value];
      return Done;
    }

    method Num(numSources: nat, numSinks: nat) returns (outcome: Outcome)
      requires Valid()
      modifies this
      ensures Valid() && S.Num(old(Snapshot()), numSources, numSinks) == S.Step(Snapshot(), outcome)
    {
      if exited {
        return Failed(SessionClosed);
      }
      if this.numSources.Some? || this.numSinks.Some? {
        return Failed(AlreadyConfigured);
      }
      var counts := CountsWord(numSources, numSinks);
      SizeSources(numSources);
      SizeSinks(numSinks);
      commands := commands + [NUM, counts];
      return Done;
    }

    /** The part of `num` that sizes the per-source lists with their defaults. */
    method SizeSources(numSources: nat)
      modifies this
      ensures Snapshot() == old(Snapshot()).(numSources := Some(numSources),
        probability := S.Filled(numSources, 0.0), sourceKey := S.Filled(numSources, 0),
        payload := S.Filled(numSources, false))
    {
      this.numSources := Some(numSources);
      probability := S.Filled(numSources, 0.0);
      sourceKey := S.Filled(numSources, 0);
      payload := S.Filled(numSources, false);
    }

    /** The part of `num` that sizes the per-sink list with its default. */
    method SizeSinks(numSinks: nat)
      modifies this
      ensures Snapshot() == old(Snapshot()).(numSinks := Some(numSinks), sinkKey := S.Filled(numSinks, 0))
    {
      this.numSinks := Some(numSinks);
      sinkKey := S.Filled(numSinks, 0);
    }

    /** `record(*counters)`: the OR of the counters' bits, sent on a change. */
    method Record(counters: seq<nat>) returns (outcome: Outcome)
      requires Valid()
      modifies this
      ensures Valid() && S.Record(old(Snapshot()), OrAll(counters)) == S.Step(Snapshot(), outcome)
    {
      if exited {
        return Failed(SessionClosed);
      }
      var recorded := 0;
      var i := 0;
      while i < |counters|
        invariant 0 <= i <= |counters|
        invariant recorded == OrAll(counters[..i])
      {
        assert counters[..i + 1][..i] == counters[..i];
        recorded := Or(recorded, counters[i]);
        i := i + 1;
      }
      assert counters[..i] == counters;
      if recorded != currentlyRecorded {
        currentlyRecorded := recorded;
        commands := commands + [RECORD, recorded];
      }
      return Done;
    }

    method RecordInterval(interval: real) returns (outcome: Outcome)
      requires Valid()
      modifies this
      ensures Valid() && S.RecordInterval(old(Snapshot()), interval) == S.Step(Snapshot(), outcome)
    {
      if exited {
        return Failed(SessionClosed);
      }
      if currentRecordInterval != Some(interval) {
        currentRecordInterval := Some(interval);
        var ticks := S.Ticks(interval, currentTimestep);
        if ticks.Err? {
          return Failed(ticks.error);
        }
        commands := commands + [RECORD_INTERVAL, ticks.value];
      }
      return Done;
    }

    method Probability(sourceNum: int, probability: real) returns (outcome: Outcome)
      requires Valid()
      modifies this
      ensures Valid() && S.Probability(old(Snapshot()), sourceNum, probability) == S.Step(Snapshot(), outcome)
    {
      if exited {
        return Failed(SessionClosed);
      }
      var slot := S.Channel(sourceNum, numSources);
      if slot.Err? {
        return Failed(slot.error);
      }
      var k := slot.value;
      if this.probability[k] != probability {
        this.probability := this.probability[k := probability];
        commands := commands + [ChannelWord(PROBABILITY, sourceNum), EncodeProbabilityAsWritten(probability)];
      }
      return Done;
    }

    /** `burst(period, duty, phase)`; `drawn` is the value `random.random()`
        would return when no phase is given. The three parts of the source's
        body are the three methods below. */
    method Burst(period: real, duty: real, phase: Option<real>, drawn: real) returns (outcome: Outcome)
      requires Valid() && 0.0 <= drawn < 1.0
      modifies this
      ensures Valid() && S.Burst(old(Snapshot()), period, duty, phase, drawn) == S.Step(Snapshot(), outcome)
    {
      if exited {
        return Failed(SessionClosed);
      }
      outcome := BurstPeriodPart(period);
      if outcome.Failed? || period == 0.0 {
        return;
      }
      outcome := BurstDutyPart(period, duty);
      if outcome.Failed? {
        return;
      }
      outcome := BurstPhasePart(period, phase, drawn);
    }

    /** A changed period is stored and sent, and poisons the stored duty and phase. */
    method BurstPeriodPart(period: real) returns (outcome: Outcome)
      requires Valid() && !exited
      modifies this
      ensures Valid() && S.BurstPeriod(old(Snapshot()), period) == S.Step(Snapshot(), outcome)
    {
      if currentBurstPeriod != period {
        currentBurstPeriod := period;
        currentBurstDuty := S.Sentinel;
        currentBurstPhase := S.Sentinel;
        var ticks := S.Ticks(period, currentTimestep);
        if ticks.Err? {
          return Failed(ticks.error);
        }
        commands := commands + [BURST_PERIOD, ticks.value];
      }
      return Done;
    }

    /** A changed duty is stored and sent, in ticks of `period * duty`. */
    method BurstDutyPart(period: real, duty: real) returns (outcome: Outcome)
      requires Valid() && !exited
      modifies this
      ensures Valid() && S.BurstDuty(old(Snapshot()), period, duty) == S.Step(Snapshot(), outcome)
    {
      if currentBurstDuty != duty {
        currentBurstDuty := duty;
        var ticks := S.Ticks(S.PartOf(period, duty), currentTimestep);
        if ticks.Err? {
          return Failed(ticks.error);
        }
        commands := commands + [BURST_DUTY, ticks.value];
      }
      return Done;
    }

    /** A changed or random phase is sent, in ticks of `period * phase`; a
        random one stores the sentinel. */
    method BurstPhasePart(period: real, phase: Option<real>, drawn: real) returns (outcome: Outcome)
      requires Valid() && !exited
      modifies this
      ensures Valid() && S.BurstPhase(old(Snapshot()), period, phase, drawn) == S.Step(Snapshot(), outcome)
    {
      if phase != Some(currentBurstPhase) {
        var value;
        if phase.None? {
          value := drawn;
          currentBurstPhase := S.Sentinel;
        } else {
          value := phase.value;
          currentBurstPhase := phase.value;
        }
        var ticks := S.Ticks(S.PartOf(period, value), currentTimestep);
        if ticks.Err? {
          return Failed(ticks.error);
        }
        commands := commands + [BURST_PHASE, ticks.value];
      }
      return Done;
    }

    method SourceKey(sourceNum: int, key: int) returns (outcome: Outcome)
      requires Valid()
      modifies this
      ensures Valid() && S.SourceKey(old(Snapshot()), sourceNum, key) == S.Step(Snapshot(), outcome)
    {
      if exited {
        return Failed(SessionClosed);
      }
      var slot := S.Channel(sourceNum, numSources);
      if slot.Err? {
        return Failed(slot.error);
      }
      var k := slot.value;
      var masked := MaskKey(key);
      if sourceKey[k] != masked {
        sourceKey := sourceKey[k := masked];
        commands := commands + [ChannelWord(SOURCE_KEY, sourceNum), masked];
      }
      return Done;
    }

    method Payload(sourceNum: int, payload: bool) returns (outcome: Outcome)
      requires Valid()
      modifies this
      ensures Valid() && S.Payload(old(Snapshot()), sourceNum, payload) == S.Step(Snapshot(), outcome)
    {
      if exited {
        return Failed(SessionClosed);
      }
      var slot := S.Channel(sourceNum, numSources);
      if slot.Err? {
        return Failed(slot.error);
      }
      var k := slot.value;
      if this.payload[k] != payload {
        this.payload := this.payload[k := payload];
        commands := commands + [ChannelWord(if payload then PAYLOAD else NO_PAYLOAD, sourceNum)];
      }
      return Done;
    }

    method Consume(consume: bool) returns (outcome: Outcome)
      requires Valid()
      modifies this
      ensures Valid() && S.Consume(old(Snapshot()), consume) == S.Step(Snapshot(), outcome)
    {
      if exited {
        return Failed(SessionClosed);
      }
      if this.consume != consume {
        this.consume := consume;
        commands := commands + [if consume then CONSUME else NO_CONSUME];
      }
      return Done;
    }

    method SinkKey(sinkNum: int, key: int) returns (outcome: Outcome)
      requires Valid()
      modifies this
      ensures Valid() && S.SinkKey(old(Snapshot()), sinkNum, key) == S.Step(Snapshot(), outcome)
    {
      if exited {
        return Failed(SessionClosed);
      }
      var slot := S.Channel(sinkNum, numSinks);
      if slot.Err? {
        return Failed(slot.error);
      }
      var k := slot.value;
      var masked := MaskKey(key);
      if sinkKey[k] != masked {
        sinkKey := sinkKey[k := masked];
        commands := commands + [ChannelWord(SINK_KEY, sinkNum), masked];
      }
      return Done;
    }
  }
}
