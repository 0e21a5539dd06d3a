/** The network tester application model `Application` of
    `network_tester/application.py`: the same encoder as `Commands`, without
    `size` and `pack`, whose `record` takes counter names and checks them
    against the `RecordBits` enumeration. */
module NetworkApplication {
  import opened Status
  import opened Bits
  import opened Opcodes
  import opened Conversions
  import S = Session

  /** A member of `RecordBits`: a counter name and the bit it sets in the
      `RECORD` mask (the member's value is `1 << position`). */
  datatype RecordBit = RecordBit(name: string, position: nat)

  /** The members of `RecordBits`, in declaration order. */
  const RecordBits: seq<RecordBit> := [
    RecordBit("local_multicast", 0),
    RecordBit("external_multicast", 1),
    RecordBit("local_p2p", 2),
    RecordBit("external_p2p", 3),
    RecordBit("local_nearest_neighbour", 4),
    RecordBit("external_nearest_neighbour", 5),
    RecordBit("local_fixed_route", 6),
    RecordBit("external_fixed_route", 7),
    RecordBit("dropped_multicast", 8),
    RecordBit("dropped_p2p", 9),
    RecordBit("dropped_nearest_neighbour", 10),
    RecordBit("dropped_fixed_route", 11),
    RecordBit("counter12", 12),
    RecordBit("counter13", 13),
    RecordBit("counter14", 14),
    RecordBit("counter15", 15),
    RecordBit("sent", 16),
    RecordBit("blocked", 17),
    RecordBit("received", 24)
  ]

  function Names(bits: seq<RecordBit>): set<string>
  {
    set i | 0 <= i < |bits| :: bits[i].name
  }

  /** `counters.pop(name, False)` taken as a truth value. */
  predicate Enabled(counters: map<string, bool>, name: string)
  {
    name in counters && counters[name]
  }

  /** The OR of the values of the enabled members among `bits`, accumulated in
      order as the loop in `record` does. */
  function MaskOf(counters: map<string, bool>, bits: seq<RecordBit>): nat
  {
    if bits == [] then 0
    else
      var front := MaskOf(counters, bits[..|bits| - 1]);
      var last := bits[|bits| - 1];
      if Enabled(counters, last.name) then Or(front, Pow2(last.position)) else front
  }

  /** `record(**counters)` as a transition: names outside `RecordBits` raise
      and change nothing; otherwise the mask of the enabled members is recorded. */
  function RecordByName(s: S.State, counters: map<string, bool>): (r: S.Step)
    requires S.Valid(s)
    ensures S.Extends(s, r)
    ensures r.outcome.Failed? ==> r.state == s
    ensures !s.exited ==> (r.outcome == Failed(UnknownCounter) <==> !(counters.Keys <= Names(RecordBits)))
  {
    if s.exited then S.Closed(s)
    else if !(counters.Keys <= Names(RecordBits)) then S.Step(s, Failed(UnknownCounter))
    else S.Record(s, MaskOf(counters, RecordBits))
  }

  /** The diff rule of `record(**counters)`: the mask is sent exactly when the
      names are all members and their mask differs from the one recorded. */
  lemma RecordByNameSendsOnChange(s: S.State, counters: map<string, bool>)
    requires S.Valid(s)
    ensures RecordByName(s, counters).state.commands == s.commands <==>
      s.exited || !(counters.Keys <= Names(RecordBits)) || s.recorded == MaskOf(counters, RecordBits)
  {
  }

  /** The loop in `record` meets each name for the first time. */
  lemma NextName(i: nat)
    requires i < |RecordBits|
    ensures RecordBits[i].name !in Names(RecordBits[..i])
    ensures Names(RecordBits[..i + 1]) == Names(RecordBits[..i]) + {RecordBits[i].name}
  {
    RecordBitsDistinct();
    var front, next := RecordBits[..i], RecordBits[..i + 1];
    forall j | 0 <= j < i
      ensures front[j].name != RecordBits[i].name
    {
      assert front[j] == RecordBits[j];
    }
    forall n | n in Names(next)
      ensures n in Names(front) + {RecordBits[i].name}
    {
      var j :| 0 <= j < i + 1 && next[j].name == n;
      if j < i {
        assert front[j] == next[j];
      }
    }
    forall n | n in Names(front)
      ensures n in Names(next)
    {
      var j :| 0 <= j < i && front[j].name == n;
      assert next[j] == front[j];
    }
    assert next[i] == RecordBits[i];
  }

  /** One turn of the loop in `record`: popping the next member's name reads
      the caller's value for it and leaves the names not yet met. */
  lemma PopStep(counters: map<string, bool>, remaining: map<string, bool>, i: nat)
    requires i < |RecordBits| && remaining == counters - Names(RecordBits[..i])
    ensures
      var name := RecordBits[i].name;
      && remaining - {name} == counters - Names(RecordBits[..i + 1])
      && ((name in remaining && remaining[name]) <==> Enabled(counters, name))
  {
    NextName(i);
  }

  /** One more member extends the mask by its bit when it is enabled. */
  lemma MaskOfStep(counters: map<string, bool>, bits: seq<RecordBit>, i: nat)
    requires i < |bits|
    ensures MaskOf(counters, bits[..i + 1]) ==
      if Enabled(counters, bits[i].name) then Or(MaskOf(counters, bits[..i]), Pow2(bits[i].position))
      else MaskOf(counters, bits[..i])
  {
    assert bits[..i + 1][..i] == bits[..i];
  }

  /** What is left after popping every member's name is the set of unknown names. */
  lemma LeftoverNames(counters: map<string, bool>, remaining: map<string, bool>)
    requires remaining == counters - Names(RecordBits)
    ensures |remaining| == 0 <==> counters.Keys <= Names(RecordBits)
  {
    if |remaining| == 0 {
      assert remaining.Keys == {};
      assert counters.Keys - Names(RecordBits) == remaining.Keys;
      forall k | k in counters.Keys
        ensures k in Names(RecordBits)
      {
        assert k !in counters.Keys - Names(RecordBits);
      }
    } else {
      var k :| k in remaining;
      assert k in counters && k !in Names(RecordBits);
    }
  }

  /** The loop of `record(**counters)`: pops every member's name from the
      keyword arguments, ORs in the bits of those passed as true, and reports
      whether any name is left over (the assertion that fails). */
  method NamedMask(counters: map<string, bool>) returns (recorded: nat, unknown: bool)
    ensures recorded == MaskOf(counters, RecordBits)
    ensures unknown <==> !(counters.Keys <= Names(RecordBits))
  {
    var remaining := counters;
    recorded := 0;
    var i := 0;
    while i < |RecordBits|
      invariant 0 <= i <= |RecordBits|
      invariant recorded == MaskOf(counters, RecordBits[..i])
      invariant remaining == counters - Names(RecordBits[..i])
    {
      var bit := RecordBits[i];
      PopStep(counters, remaining, i);
      MaskOfStep(counters, RecordBits, i);
      var enabled := bit.name in remaining && remaining[bit.name];
      remaining := remaining - {bit.name};
      if enabled {
        recorded := Or(recorded, Pow2(bit.position));
      }
      i := i + 1;
    }
    assert RecordBits[..i] == RecordBits;
    LeftoverNames(counters, remaining);
    unknown := |remaining| != 0;
  }

  /** A bit of the mask is set exactly when some enabled member among `bits`
      sits at that position. */
  lemma {:induction false} MaskOfTestBit(counters: map<string, bool>, bits: seq<RecordBit>, k: nat)
    ensures TestBit(MaskOf(counters, bits), k) <==>
      exists j :: 0 <= j < |bits| && bits[j].position == k && Enabled(counters, bits[j].name)
    decreases |bits|
  {
    if bits == [] {
      ZeroHasNoBits(k);
    } else {
      var front, last := bits[..|bits| - 1], bits[|bits| - 1];
      MaskOfTestBit(counters, front, k);
      if Enabled(counters, last.name) {
        OrTestBit(MaskOf(counters, front), Pow2(last.position), k);
        Pow2TestBit(last.position, k);
      }
      if exists j :: 0 <= j < |front| && front[j].position == k && Enabled(counters, front[j].name) {
        var j :| 0 <= j < |front| && front[j].position == k && Enabled(counters, front[j].name);
        assert bits[j] == front[j];
      }
      if exists j :: 0 <= j < |bits| && bits[j].position == k && Enabled(counters, bits[j].name) {
        var j :| 0 <= j < |bits| && bits[j].position == k && Enabled(counters, bits[j].name);
        if j < |front| {
          assert front[j] == bits[j];
        }
      }
    }
  }

  /** The bit of each `RecordBits` member is set in the mask exactly when that
      member's name was passed as true. */
  lemma RecordMaskBit(counters: map<string, bool>, j: nat)
    requires j < |RecordBits|
    ensures TestBit(MaskOf(counters, RecordBits), RecordBits[j].position) <==> Enabled(counters, RecordBits[j].name)
  {
    RecordBitsDistinct();
    MaskOfTestBit(counters, RecordBits, RecordBits[j].position);
  }

  /** The mask determines exactly which members were enabled: two calls give
      the same mask if and only if they enable the same members. */
  lemma RecordMaskDecomposes(c1: map<string, bool>, c2: map<string, bool>)
    ensures MaskOf(c1, RecordBits) == MaskOf(c2, RecordBits) <==>
      forall j :: 0 <= j < |RecordBits| ==> (Enabled(c1, RecordBits[j].name) <==> Enabled(c2, RecordBits[j].name))
  {
    if MaskOf(c1, RecordBits) == MaskOf(c2, RecordBits) {
      forall j | 0 <= j < |RecordBits|
        ensures Enabled(c1, RecordBits[j].name) <==> Enabled(c2, RecordBits[j].name)
      {
        RecordMaskBit(c1, j);
        RecordMaskBit(c2, j);
      }
    }
    if forall j :: 0 <= j < |RecordBits| ==> (Enabled(c1, RecordBits[j].name) <==> Enabled(c2, RecordBits[j].name)) {
      forall k: nat
        ensures TestBit(MaskOf(c1, RecordBits), k) == TestBit(MaskOf(c2, RecordBits), k)
      {
        MaskOfTestBit(c1, RecordBits, k);
        MaskOfTestBit(c2, RecordBits, k);
      }
      SameBitsSameValue(MaskOf(c1, RecordBits), MaskOf(c2, RecordBits));
    }
  }

  /** The mask only uses the member positions, all below 25, so it always fits
      the 32-bit operand word. */
  lemma {:induction false} MaskOfBelow(counters: map<string, bool>, bits: seq<RecordBit>, n: nat)
    requires forall j :: 0 <= j < |bits| ==> bits[j].position < n
    ensures MaskOf(counters, bits) < Pow2(n)
    decreases |bits|
  {
    if bits != [] {
      var front, last := bits[..|bits| - 1], bits[|bits| - 1];
      assert forall j :: 0 <= j < |front| ==> front[j] == bits[j];
      MaskOfBelow(counters, front, n);
      if Enabled(counters, last.name) {
        Pow2Monotone(last.position + 1, n);
        OrBelow(MaskOf(counters, front), Pow2(last.position), n);
      }
    }
  }

  lemma RecordMaskFitsWord(counters: map<string, bool>)
    ensures MaskOf(counters, RecordBits) < Pow2(25)
  {
    MaskOfBelow(counters, RecordBits, 25);
  }

  /** The members have distinct names and distinct bit positions. */
  lemma RecordBitsDistinct()
    ensures forall i, j :: 0 <= i < j < |RecordBits| ==>
      RecordBits[i].name != RecordBits[j].name && RecordBits[i].position != RecordBits[j].position
  {
    RecordBitPositions();
    RecordBitNames();
  }

  /** Members 0 to 17 sit at their own index; `received` sits at bit 24. */
  lemma RecordBitPositions()
    ensures forall i :: 0 <= i < 18 ==> RecordBits[i].position == i
    ensures RecordBits[18].position == 24
  {
  }

  lemma RecordBitNames()
    ensures forall i, j :: 0 <= i < j < |RecordBits| ==> RecordBits[i].name != RecordBits[j].name
  {
  }

  class Application {
    var commands: seq<int>
    var exited: bool
    var seeded: bool
    var currentTimestep: Option<real>
    var currentRecordInterval: Option<real>
    var numSources: Option<nat>
    var numSinks: Option<nat>
    var currentlyRecorded: nat
    var probability: seq<real>
    var sourceKey: seq<int>
    var payload: seq<bool>
    var sinkKey: seq<int>
    var consume: bool
    var currentBurstPeriod: real
    var currentBurstDuty: real
    var currentBurstPhase: real

    /** The fields as one session state. */
    function Snapshot(): S.State
      reads this
    {
      S.State(commands, exited, seeded, currentTimestep, currentRecordInterval,
              numSources, numSinks, currentlyRecorded, probability, sourceKey,
              payload, sinkKey, consume, currentBurstPeriod, currentBurstDuty,
              currentBurstPhase)
    }

    ghost predicate Valid()
      reads this
    {
      S.Valid(Snapshot())
    }

    constructor()
      ensures Valid() && Snapshot() == S.Init()
    {
      commands := [];
      exited := false;
      seeded := false;
      currentTimestep := None;
      currentRecordInterval := Some(0.0);
      numSources := None;
      numSinks := None;
      currentlyRecorded := 0;
      probability := [];
      sourceKey := [];
      payload := [];
      sinkKey := [];
      consume := true;
      currentBurstPeriod := 0.0;
      currentBurstDuty := 0.0;
      currentBurstPhase := 0.0;
    }

    method Exit() returns (outcome: Outcome)
      requires Valid()
      modifies this
      ensures Valid() && S.Exit(old(Snapshot())) == S.Step(Snapshot(), outcome)
    {
      if exited {
        return Failed(SessionClosed);
      }
      commands := commands + [EXIT];
      exited := true;
      return Done;
    }

    method Sleep(duration: real) returns (outcome: Outcome)
      requires Valid()
      modifies this
      ensures Valid() && S.Sleep(old(Snapshot()), duration) == S.Step(Snapshot(), outcome)
    {
      if exited {
        return Failed(SessionClosed);
      }
      commands := commands + [SLEEP, Micros(duration)];
      return Done;
    }

    method Barrier() returns (outcome: Outcome)
      requires Valid()
      modifies this
      ensures Valid() && S.Barrier(old(Snapshot())) == S.Step(Snapshot(), outcome)
    {
      if exited {
        return Failed(SessionClosed);
      }
      commands := commands + [BARRIER];
      return Done;
    }

    /** `seed(seed)`; `drawn` is the value `random.getrandbits(32)` would return. */
    method Seed(seed: Option<int>, drawn: nat) returns (outcome: Outcome)
      requires Valid() && drawn < 0x1_0000_0000
      modifies this
      ensures Valid() && S.Seed(old(Snapshot()), seed, drawn) == S.Step(Snapshot(), outcome)
    {
      if exited {
        return Failed(SessionClosed);
      }
      var value := seed;
      if seed.None? {
        if !seeded {
          value := Some(drawn);
          seeded := true;
        }
      } else {
        seeded := false;
      }
      if value.Some? {
        commands := commands + [SEED, value.value];
      }
      return Done;
    }

    /** `timestep(timestep)`: on a change, send it and re-derive the record
        interval and the burst by poisoning their stored values and calling
        their setters again. */
    method Timestep(timestep: real) returns (outcome: Outcome)
      requires Valid()
      modifies this
      ensures Valid() && S.Timestep(old(Snapshot()), timestep) == S.Step(Snapshot(), outcome)
    {
      if exited {
        return Failed(SessionClosed);
      }
      if currentTimestep == Some(timestep) {
        return Done;
      }
      currentTimestep := Some(timestep);
      commands := commands + [TIMESTEP, Nanos(timestep)];
      outcome := RederiveRecordInterval();
      if outcome.Failed? {
        return;
      }
      outcome := RederiveBurst();
    }

    /** Poisons the stored record interval with `None` and sets it again. */
    method RederiveRecordInterval() returns (outcome: Outcome)
      requires Valid() && !exited
      modifies this
      ensures Valid() && S.RederiveRecordInterval(old(Snapshot())) == S.Step(Snapshot(), outcome)
    {
      var recordInterval := currentRecordInterval;
      if recordInterval.Some? && recordInterval.value != 0.0 {
        currentRecordInterval := None;
        outcome := RecordInterval(recordInterval.value);
        return;
      }
      return Done;
    }

    /** Poisons the stored burst period with `-1` and sets the burst again. */
    method RederiveBurst() returns (outcome: Outcome)
      requires Valid() && !exited
      modifies this
      ensures Valid() && S.RederiveBurst(old(Snapshot())) == S.Step(Snapshot(), outcome)
    {
      var burstPeriod := currentBurstPeriod;
      if burstPeriod != 0.0 {
        currentBurstPeriod := S.Sentinel;
        outcome := Burst(burstPeriod, currentBurstDuty, Some(currentBurstPhase), 0.0);
        return;
      }
      return Done;
    }

    method Run(duration: real) returns (outcome: Outcome)
      requires Valid()
      modifies this
      ensures Valid() && S.Run(old(Snapshot()), duration) == S.Step(Snapshot(), outcome)
    {
      if exited {
        return Failed(SessionClosed);
      }
      var ticks := S.Ticks(duration, currentTimestep);
      if ticks.Err? {
        return Failed(ticks.error);
      }
      commands := commands + [RUN, ticks.value];
      return Done;
    }

    method Num(numSources: nat, numSinks: nat) returns (outcome: Outcome)
      requires Valid()
      modifies this
      ensures Valid() && S.Num(old(Snapshot()), numSources, numSinks) == S.Step(Snapshot(), outcome)
    {
      if exited {
        return Failed(SessionClosed);
      }
      if this.numSources.Some? || this.numSinks.Some? {
        return Failed(AlreadyConfigured);
      }
      var counts := CountsWord(numSources, numSinks);
      SizeSources(numSources);
      SizeSinks(numSinks);
      commands := commands + [NUM, counts];
      return Done;
    }

    /** The part of `num` that sizes the per-source lists with their defaults. */
    method SizeSources(numSources: nat)
      modifies this
      ensures Snapshot() == old(Snapshot()).(numSources := Some(numSources),
        probability := S.Filled(numSources, 0.0), sourceKey := S.Filled(numSources, 0),
        payload := S.Filled(numSources, false))
    {
      this.numSources := Some(numSources);
      probability := S.Filled(numSources, 0.0);
      sourceKey := S.Filled(numSources, 0);
      payload := S.Filled(numSources, false);
    }

    /** The part of `num` that sizes the per-sink list with its default. */
    method SizeSinks(numSinks: nat)
      modifies this
      ensures Snapshot() == old(Snapshot()).(numSinks := Some(numSinks), sinkKey := S.Filled(numSinks, 0))
    {
      this.numSinks := Some(numSinks);
      sinkKey := S.Filled(numSinks, 0);
    }

    /** `record(**counters)`: every `RecordBits` member whose name is passed
        with a true value contributes its bit; a name that is not a member
        raises. The mask is sent on a change. */
    method Record(counters: map<string, bool>) returns (outcome: Outcome)
      requires Valid()
      modifies this
      ensures Valid() && RecordByName(old(Snapshot()), counters) == S.Step(Snapshot(), outcome)
    {
      if exited {
        return Failed(SessionClosed);
      }
      var recorded, unknown := NamedMask(counters);
      if unknown {
        return Failed(UnknownCounter);
      }
      if recorded != currentlyRecorded {
        currentlyRecorded := recorded;
        commands := commands + [RECORD, recorded];
      }
      return Done;
    }

    method RecordInterval(interval: real) returns (outcome: Outcome)
      requires Valid()
      modifies this
      ensures Valid() && S.RecordInterval(old(Snapshot()), interval) == S.Step(Snapshot(), outcome)
    {
      if exited {
        return Failed(SessionClosed);
      }
      if currentRecordInterval != Some(interval) {
        currentRecordInterval := Some(interval);
        var ticks := S.Ticks(interval, currentTimestep);
        if ticks.Err? {
          return Failed(ticks.error);
        }
        commands := commands + [RECORD_INTERVAL, ticks.value];
      }
      return Done;
    }

    method Probability(sourceNum: int, probability: real) returns (outcome: Outcome)
      requires Valid()
      modifies this
      ensures Valid() && S.Probability(old(Snapshot()), sourceNum, probability) == S.Step(Snapshot(), outcome)
    {
      if exited {
        return Failed(SessionClosed);
      }
      var slot := S.Channel(sourceNum, numSources);
      if slot.Err? {
        return Failed(slot.error);
      }
      var k := slot.value;
      if this.probability[k] != probability {
        this.probability := this.probability[k := probability];
        commands := commands + [ChannelWord(PROBABILITY, sourceNum), EncodeProbabilityAsWritten(probability)];
      }
      return Done;
    }

    /** `burst(period, duty, phase)`; `drawn` is the value `random.random()`
        would return when no phase is given. The three parts of the source's
        body are the three methods below. */
    method Burst(period: real, duty: real, phase: Option<real>, drawn: real) returns (outcome: Outcome)
      requires Valid() && 0.0 <= drawn < 1.0
      modifies this
      ensures Valid() && S.Burst(old(Snapshot()), period, duty, phase, drawn) == S.Step(Snapshot(), outcome)
    {
      if exited {
        return Failed(SessionClosed);
      }
      outcome := BurstPeriodPart(period);
      if outcome.Failed? || period == 0.0 {
        return;
      }
      outcome := BurstDutyPart(period, duty);
      if outcome.Failed? {
        return;
      }
      outcome := BurstPhasePart(period, phase, drawn);
    }

    /** A changed period is stored and sent, and poisons the stored duty and phase. */
    method BurstPeriodPart(period: real) returns (outcome: Outcome)
      requires Valid() && !exited
      modifies this
      ensures Valid() && S.BurstPeriod(old(Snapshot()), period) == S.Step(Snapshot(), outcome)
    {
      if currentBurstPeriod != period {
        currentBurstPeriod := period;
        currentBurstDuty := S.Sentinel;
        currentBurstPhase := S.Sentinel;
        var ticks := S.Ticks(period, currentTimestep);
        if ticks.Err? {
          return Failed(ticks.error);
        }
        commands := commands + [BURST_PERIOD, ticks.value];
      }
      return Done;
    }

    /** A changed duty is stored and sent, in ticks of `period * duty`. */
    method BurstDutyPart(period: real, duty: real) returns (outcome: Outcome)
      requires Valid() && !exited
      modifies this
      ensures Valid() && S.BurstDuty(old(Snapshot()), period, duty) == S.Step(Snapshot(), outcome)
    {
      if currentBurstDuty != duty {
        currentBurstDuty := duty;
        var ticks := S.Ticks(S.PartOf(period, duty), currentTimestep);
        if ticks.Err? {
          return Failed(ticks.error);
        }
        commands := commands + [BURST_DUTY, ticks.value];
      }
      return Done;
    }

    /** A changed or random phase is sent, in ticks of `period * phase`; a
        random one stores the sentinel. */
    method BurstPhasePart(period: real, phase: Option<real>, drawn: real) returns (outcome: Outcome)
      requires Valid() && !exited
      modifies this
      ensures Valid() && S.BurstPhase(old(Snapshot()), period, phase, drawn) == S.Step(Snapshot(), outcome)
    {
      if phase != Some(currentBurstPhase) {
        var value;
        if phase.None? {
          value := drawn;
          currentBurstPhase := S.Sentinel;
        } else {
          value := phase.value;
          currentBurstPhase := phase.value;
        }
        var ticks := S.Ticks(S.PartOf(period, value), currentTimestep);
        if ticks.Err? {
          return Failed(ticks.error);
        }
        commands := commands + [BURST_PHASE, ticks.value];
      }
      return Done;
    }

    method SourceKey(sourceNum: int, key: int) returns (outcome: Outcome)
      requires Valid()
      modifies this
      ensures Valid() && S.SourceKey(old(Snapshot()), sourceNum, key) == S.Step(Snapshot(), outcome)
    {
      if exited {
        return Failed(SessionClosed);
      }
      var slot := S.Channel(sourceNum, numSources);
      if slot.Err? {
        return Failed(slot.error);
      }
      var k := slot.value;
      var masked := MaskKey(key);
      if sourceKey[k] != masked {
        sourceKey := sourceKey[k := masked];
        commands := commands + [ChannelWord(SOURCE_KEY, sourceNum), masked];
      }
      return Done;
    }

    method Payload(sourceNum: int, payload: bool) returns (outcome: Outcome)
      requires Valid()
      modifies this
      ensures Valid() && S.Payload(old(Snapshot()), sourceNum, payload) == S.Step(Snapshot(), outcome)
    {
      if exited {
        return Failed(SessionClosed);
      }
      var slot := S.Channel(sourceNum, numSources);
      if slot.Err? {
        return Failed(slot.error);
      }
      var k := slot.value;
      if this.payload[k] != payload {
        this.payload := this.payload[k := payload];
        commands := commands + [ChannelWord(if payload then PAYLOAD else NO_PAYLOAD, sourceNum)];
      }
      return Done;
    }

    method Consume(consume: bool) returns (outcome: Outcome)
      requires Valid()
      modifies this
      ensures Valid() && S.Consume(old(Snapshot()), consume) == S.Step(Snapshot(), outcome)
    {
      if exited {
        return Failed(SessionClosed);
      }
      if this.consume != consume {
        this.consume := consume;
        commands := commands + [if consume then CONSUME else NO_CONSUME];
      }
      return Done;
    }

    method SinkKey(sinkNum: int, key: int) returns (outcome: Outcome)
      requires Valid()
      modifies this
      ensures Valid() && S.SinkKey(old(Snapshot()), sinkNum, key) == S.Step(Snapshot(), outcome)
    {
      if exited {
        return Failed(SessionClosed);
      }
      var slot := S.Channel(sinkNum, numSinks);
      if slot.Err? {
        return Failed(slot.error);
      }
      var k := slot.value;
      var masked := MaskKey(key);
      if sinkKey[k] != masked {
        sinkKey := sinkKey[k := masked];
        commands := commands + [ChannelWord(SINK_KEY, sinkNum), masked];
      }
      return Done;
    }
  }
}
