/** Properties of the encoder that hold across all of its setters, and the
    timestep and burst rules, stated over the session transitions. */
module SessionProperties {
  import opened Status
  import opened Opcodes
  import opened Conversions
  import S = Session

  /** One call on the encoder, with the random value it would draw where the
      source calls `random.getrandbits(32)` or `random.random()`. */
  datatype Call =
    | Exit
    | Sleep(duration: real)
    | Barrier
    | Seed(seed: Option<int>, drawnSeed: nat)
    | Timestep(timestep: real)
    | Run(duration: real)
    | Num(numSources: nat, numSinks: nat)
    | Record(mask: nat)
    | RecordInterval(interval: real)
    | Probability(sourceNum: int, probability: real)
    | Burst(period: real, duty: real, phase: Option<real>, drawnPhase: real)
    | SourceKey(sourceNum: int, key: int)
    | Payload(sourceNum: int, payload: bool)
    | Consume(consume: bool)
    | SinkKey(sinkNum: int, key: int)

  /** The random values lie in the ranges their generators produce. */
  predicate WellFormed(c: Call)
  {
    match c
    case Seed(_, drawn) => drawn < 0x1_0000_0000
    case Burst(_, _, _, drawn) => 0.0 <= drawn < 1.0
    case _ => true
  }

  /** The setters whose effect is diffed against the stored value. */
  predicate Diffed(c: Call)
  {
    || c.Timestep? || c.Record? || c.RecordInterval? || c.Probability?
    || (c.Burst? && c.phase.Some?) || c.SourceKey? || c.Payload? || c.Consume?
    || c.SinkKey? || (c.Seed? && c.seed.None?)
  }

  /** Performs one call. Every call keeps the invariant and only appends to
      the command list, and a closed session refuses every call unchanged. */
  function Apply(s: S.State, c: Call): (r: S.Step)
    requires S.Valid(s) && WellFormed(c)
    ensures S.Extends(s, r)
    ensures s.exited ==> r == S.Step(s, Failed(SessionClosed))
  {
    match c
    case Exit => S.Exit(s)
    case Sleep(d) => S.Sleep(s, d)
    case Barrier => S.Barrier(s)
    case Seed(seed, drawn) => S.Seed(s, seed, drawn)
    case Timestep(t) => S.Timestep(s, t)
    case Run(d) => S.Run(s, d)
    case Num(ns, nk) => S.Num(s, ns, nk)
    case Record(mask) => S.Record(s, mask)
    case RecordInterval(i) => S.RecordInterval(s, i)
    case Probability(i, p) => S.Probability(s, i, p)
    case Burst(p, d, ph, drawn) => S.Burst(s, p, d, ph, drawn)
    case SourceKey(i, k) => S.SourceKey(s, i, k)
    case Payload(i, b) => S.Payload(s, i, b)
    case Consume(b) => S.Consume(s, b)
    case SinkKey(i, k) => S.SinkKey(s, i, k)
  }

  /** A script of calls, stopped by the first one that raises. */
  function ApplyAll(s: S.State, calls: seq<Call>): (r: S.Step)
    requires S.Valid(s) && forall i :: 0 <= i < |calls| ==> WellFormed(calls[i])
    ensures S.Extends(s, r)
    ensures r.outcome.Done? && s.exited ==> calls == []
    decreases |calls|
  {
    if calls == [] then S.Step(s, Done)
    else
      var r := Apply(s, calls[0]);
      if r.outcome.Failed? then r else ApplyAll(r.state, calls[1..])
  }

  /** After `exit`, the list ends with `EXIT` and every further call, a second
      `exit` included, raises and changes nothing. */
  lemma ExitIsTerminal(s: S.State, c: Call)
    requires S.Valid(s) && !s.exited && WellFormed(c)
    ensures S.Exit(s).outcome == Done
    ensures S.Exit(s).state.commands == s.commands + [EXIT]
    ensures Apply(S.Exit(s).state, c) == S.Step(S.Exit(s).state, Failed(SessionClosed))
  {
  }

  /** A script run on a closed session raises at its first call and changes nothing. */
  lemma {:induction false} ClosedSessionIsFrozen(s: S.State, calls: seq<Call>)
    requires S.Valid(s) && s.exited && calls != []
    requires forall i :: 0 <= i < |calls| ==> WellFormed(calls[i])
    ensures ApplyAll(s, calls) == S.Step(s, Failed(SessionClosed))
  {
    assert Apply(s, calls[0]) == S.Step(s, Failed(SessionClosed));
  }

  /** A call that raises appends nothing, except a `timestep` whose
      re-derivation divides by a zero timestep (see TimestepFailure). */
  lemma FailedCallAppendsNothing(s: S.State, c: Call)
    requires S.Valid(s) && WellFormed(c) && !c.Timestep?
    requires Apply(s, c).outcome.Failed?
    ensures Apply(s, c).state.commands == s.commands
  {
    if c.Burst? && !s.exited {
      BurstFailureAppendsNothing(s, c.period, c.duty, c.phase, c.drawnPhase);
    }
  }

  /** `burst` raises only for a missing or zero timestep, and then before any
      of its words is appended. */
  lemma BurstFailureAppendsNothing(s: S.State, period: real, duty: real, phase: Option<real>, drawn: real)
    requires S.Valid(s) && !s.exited && 0.0 <= drawn < 1.0
    requires S.Burst(s, period, duty, phase, drawn).outcome.Failed?
    ensures S.Burst(s, period, duty, phase, drawn).state.commands == s.commands
    ensures s.timestep.None? ==> S.Burst(s, period, duty, phase, drawn).outcome.error == NoTimestep
    ensures s.timestep.Some? ==>
      s.timestep == Some(0.0) && S.Burst(s, period, duty, phase, drawn).outcome.error == ZeroTimestep
  {
    var r1 := S.BurstPeriod(s, period);
    if r1.outcome.Done? && period != 0.0 {
      var r2 := S.BurstDuty(r1.state, period, duty);
      if r2.outcome.Done? {
        var r3 := S.BurstPhase(r2.state, period, phase, drawn);
        assert r2.state.commands == s.commands by {
          assert r1.state.commands == s.commands;
        }
        assert r3.state.commands == s.commands;
      }
    }
  }

  /** `timestep` raises only on a closed session or a zero timestep that must
      re-derive something; the `TIMESTEP` command is then already appended. */
  lemma TimestepFailure(s: S.State, timestep: real)
    requires S.Valid(s) && !s.exited
    requires S.Timestep(s, timestep).outcome.Failed?
    ensures timestep == 0.0 && S.Timestep(s, timestep).outcome == Failed(ZeroTimestep)
    ensures S.Timestep(s, timestep).state.commands == s.commands + [TIMESTEP, 0]
  {
    var s1 := S.Append(s.(timestep := Some(timestep)), [TIMESTEP, Nanos(timestep)]);
    var r1 := S.RederiveRecordInterval(s1);
    if r1.outcome.Failed? {
      assert s1.recordInterval.Some? && s1.recordInterval.value != 0.0;
    } else {
      var b := r1.state;
      assert b.burstPeriod != 0.0;
      BurstFailureAppendsNothing(b.(burstPeriod := S.Sentinel), b.burstPeriod, b.burstDuty, Some(b.burstPhase), 0.0);
    }
  }

  /** Only the divisions by a missing or zero timestep raise after storing a
      value; every other failure (the source's assertions, a bad channel)
      leaves the whole state as it was. */
  lemma AssertionFailureChangesNothing(s: S.State, c: Call)
    requires S.Valid(s) && WellFormed(c)
    requires Apply(s, c).outcome.Failed?
    requires Apply(s, c).outcome.error != NoTimestep && Apply(s, c).outcome.error != ZeroTimestep
    ensures Apply(s, c).state == s
  {
    if c.Timestep? && !s.exited {
      TimestepFailure(s, c.timestep);
    }
  }

  /** Repeating a diffed setter with the same arguments appends nothing. */
  lemma RepeatIsNoOp(s: S.State, c: Call)
    requires S.Valid(s) && WellFormed(c) && Diffed(c)
    requires Apply(s, c).outcome == Done
    ensures Apply(Apply(s, c).state, c) == S.Step(Apply(s, c).state, Done)
  {
    match c
    case Burst(p, d, ph, drawn) =>
      BurstStoresArguments(s, p, d, ph, drawn);
    case Probability(_, _) =>
      RepeatChannelIsNoOp(s, c);
    case SourceKey(_, _) =>
      RepeatChannelIsNoOp(s, c);
    case Payload(_, _) =>
      RepeatChannelIsNoOp(s, c);
    case SinkKey(_, _) =>
      RepeatChannelIsNoOp(s, c);
    case Timestep(t) =>
      assert Apply(s, c).state.timestep == Some(t);
    case _ =>
  }

  /** The per-channel setters store the value they were given in its slot. */
  lemma RepeatChannelIsNoOp(s: S.State, c: Call)
    requires S.Valid(s) && (c.Probability? || c.SourceKey? || c.Payload? || c.SinkKey?)
    requires Apply(s, c).outcome == Done
    ensures Apply(Apply(s, c).state, c) == S.Step(Apply(s, c).state, Done)
  {
    match c
    case Probability(_, _) =>
    case SourceKey(_, _) =>
    case Payload(_, _) =>
    case SinkKey(_, _) =>
  }

  /** After a successful `burst` the stored period is the one given and, unless
      the period is zero, so are the duty and the (non-random) phase. */
  lemma BurstStoresArguments(s: S.State, period: real, duty: real, phase: Option<real>, drawn: real)
    requires S.Valid(s) && 0.0 <= drawn < 1.0
    requires S.Burst(s, period, duty, phase, drawn).outcome == Done
    ensures S.Burst(s, period, duty, phase, drawn).state.burstPeriod == period
    ensures period != 0.0 ==> S.Burst(s, period, duty, phase, drawn).state.burstDuty == duty
    ensures period != 0.0 && phase.Some? ==> S.Burst(s, period, duty, phase, drawn).state.burstPhase == phase.value
    ensures period != 0.0 && phase.None? ==> S.Burst(s, period, duty, phase, drawn).state.burstPhase == S.Sentinel
  {
  }

  /** A changed timestep is sent in nanoseconds and followed by the record
      interval and the burst triple re-expressed in ticks of the new timestep,
      though their seconds values are unchanged. The duty and the phase are
      not sent when they hold the `-1` sentinel: a phase that was last drawn at
      random is therefore not sent again. */
  lemma TimestepRederives(s: S.State, timestep: real)
    requires S.Valid(s) && !s.exited && s.timestep != Some(timestep) && timestep != 0.0
    requires s.recordInterval.Some?
    ensures S.Timestep(s, timestep).outcome == Done
    ensures
      var interval := s.recordInterval.value;
      S.Timestep(s, timestep).state.commands ==
        s.commands + [TIMESTEP, Nanos(timestep)]
        + (if interval != 0.0 then IntervalWords(interval, timestep) else [])
        + BurstWords(s.burstPeriod, s.burstDuty, s.burstPhase, timestep)
    ensures
      var t := S.Timestep(s, timestep).state;
      && t.recordInterval == s.recordInterval && t.burstPeriod == s.burstPeriod
      && t.burstDuty == s.burstDuty && t.burstPhase == s.burstPhase
  {
    var interval := s.recordInterval.value;
    var s1 := S.Append(s.(timestep := Some(timestep)), [TIMESTEP, Nanos(timestep)]);
    var words1 := if interval != 0.0 then IntervalWords(interval, timestep) else [];
    RederiveRecordIntervalEffect(s1, timestep, interval);
    var st := S.Append(s1, words1);
    RederiveBurstEffect(st, timestep);
    var wordsB := BurstWords(s.burstPeriod, s.burstDuty, s.burstPhase, timestep);
    assert S.Timestep(s, timestep) == S.Step(S.Append(st, wordsB), Done);
  }

  /** The words `record_interval` sends: the interval in ticks. */
  function IntervalWords(interval: real, timestep: real): seq<int>
    requires timestep != 0.0
  {
    [RECORD_INTERVAL, Round(interval / timestep)]
  }

  /** The words each part of `burst` sends, in ticks of the timestep. */
  function PeriodWords(period: real, timestep: real): seq<int>
    requires timestep != 0.0
  {
    [BURST_PERIOD, Round(period / timestep)]
  }

  function DutyWords(period: real, duty: real, timestep: real): seq<int>
    requires timestep != 0.0
  {
    [BURST_DUTY, Round(S.PartOf(period, duty) / timestep)]
  }

  function PhaseWords(period: real, phase: real, timestep: real): seq<int>
    requires timestep != 0.0
  {
    [BURST_PHASE, Round(S.PartOf(period, phase) / timestep)]
  }

  /** The burst words a timestep change re-sends: nothing for a zero (or
      sentinel) period, and no duty or phase that holds the sentinel. */
  function BurstWords(period: real, duty: real, phase: real, timestep: real): seq<int>
    requires timestep != 0.0
  {
    if period != 0.0 && period != S.Sentinel then
      PeriodWords(period, timestep)
      + (if duty != S.Sentinel then DutyWords(period, duty, timestep) else [])
      + (if phase != S.Sentinel then PhaseWords(period, phase, timestep) else [])
    else []
  }

  lemma RederiveRecordIntervalEffect(s: S.State, timestep: real, interval: real)
    requires S.Valid(s) && !s.exited && s.timestep == Some(timestep) && timestep != 0.0
    requires s.recordInterval == Some(interval)
    ensures S.RederiveRecordInterval(s) == S.Step(S.Append(s,
      if interval != 0.0 then IntervalWords(interval, timestep) else []), Done)
  {
    if interval == 0.0 {
      assert S.Append(s, []) == s;
    }
  }

  lemma RederiveBurstEffect(s: S.State, timestep: real)
    requires S.Valid(s) && !s.exited && s.timestep == Some(timestep) && timestep != 0.0
    ensures S.RederiveBurst(s) == S.Step(S.Append(s, BurstWords(s.burstPeriod, s.burstDuty, s.burstPhase, timestep)), Done)
  {
    var p := s.burstPeriod;
    if p == 0.0 {
      assert S.Append(s, []) == s;
    } else if p == S.Sentinel {
      RederiveSentinelBurst(s, timestep);
    } else {
      RederiveActiveBurst(s, timestep);
    }
  }

  /** A period holding the sentinel equals the poisoned value, so nothing is sent. */
  lemma RederiveSentinelBurst(s: S.State, timestep: real)
    requires S.Valid(s) && !s.exited && s.timestep == Some(timestep) && timestep != 0.0
    requires s.burstPeriod == S.Sentinel
    ensures S.RederiveBurst(s) == S.Step(s, Done)
  {
    var p, d, ph := s.burstPeriod, s.burstDuty, s.burstPhase;
    var b := s.(burstPeriod := S.Sentinel);
    assert b == s;
    BurstPeriodEffect(b, p, timestep);
    BurstDutyEffect(b, p, d, timestep);
    BurstPhaseEffect(b, p, ph, 0.0, timestep);
    assert S.Append(s, []) == s;
  }

  lemma RederiveActiveBurst(s: S.State, timestep: real)
    requires S.Valid(s) && !s.exited && s.timestep == Some(timestep) && timestep != 0.0
    requires s.burstPeriod != 0.0 && s.burstPeriod != S.Sentinel
    ensures S.RederiveBurst(s) == S.Step(S.Append(s, BurstWords(s.burstPeriod, s.burstDuty, s.burstPhase, timestep)), Done)
  {
    var p, d, ph := s.burstPeriod, s.burstDuty, s.burstPhase;
    var b := s.(burstPeriod := S.Sentinel);
    BurstPeriodEffect(b, p, timestep);
    var bp := S.BurstPeriod(b, p).state;
    BurstDutyEffect(bp, p, d, timestep);
    var bd := S.BurstDuty(bp, p, d).state;
    BurstPhaseEffect(bd, p, ph, 0.0, timestep);
    assert S.RederiveBurst(s) == S.BurstPhase(bd, p, Some(ph), 0.0);
    var wd := if d != S.Sentinel then DutyWords(p, d, timestep) else [];
    var wph := if ph != S.Sentinel then PhaseWords(p, ph, timestep) else [];
    assert bd.commands == s.commands + PeriodWords(p, timestep) + wd;
    assert S.RederiveBurst(s).state == S.Append(s, PeriodWords(p, timestep) + wd + wph);
  }

  /** The period part of `burst`: a changed period is sent and poisons the
      stored duty and phase. */
  lemma BurstPeriodEffect(s: S.State, period: real, timestep: real)
    requires S.Valid(s) && !s.exited && s.timestep == Some(timestep) && timestep != 0.0
    ensures S.BurstPeriod(s, period) == if s.burstPeriod == period then S.Step(s, Done) else
      S.Step(S.Append(s.(burstPeriod := period, burstDuty := S.Sentinel, burstPhase := S.Sentinel),
                      PeriodWords(period, timestep)), Done)
  {
  }

  /** The duty part of `burst`: a changed duty is sent in ticks of `period * duty`. */
  lemma BurstDutyEffect(s: S.State, period: real, duty: real, timestep: real)
    requires S.Valid(s) && !s.exited && s.timestep == Some(timestep) && timestep != 0.0
    ensures S.BurstDuty(s, period, duty) == S.Step(S.Append(s.(burstDuty := duty),
      if s.burstDuty != duty then DutyWords(period, duty, timestep) else []), Done)
  {
    if s.burstDuty == duty {
      assert S.Append(s, []) == s;
    }
  }

  /** The phase part of `burst` with a phase given: a changed phase is sent in
      ticks of `period * phase`. */
  lemma BurstPhaseEffect(s: S.State, period: real, phase: real, drawn: real, timestep: real)
    requires S.Valid(s) && !s.exited && s.timestep == Some(timestep) && timestep != 0.0
    ensures S.BurstPhase(s, period, Some(phase), drawn) == S.Step(S.Append(s.(burstPhase := phase),
      if phase != s.burstPhase then PhaseWords(period, phase, timestep) else []), Done)
  {
    if phase == s.burstPhase {
      assert S.Append(s, []) == s;
    }
  }

  /** The phase part of `burst` with no phase given: the drawn phase is always
      sent, and the sentinel is stored so that the next comparison fails. */
  lemma RandomPhaseEffect(s: S.State, period: real, drawn: real, timestep: real)
    requires S.Valid(s) && !s.exited && s.timestep == Some(timestep) && timestep != 0.0
    ensures S.BurstPhase(s, period, None, drawn) == S.Step(S.Append(s.(burstPhase := S.Sentinel),
      PhaseWords(period, drawn, timestep)), Done)
  {
  }

  /** A changed, non-zero period sends the period, the duty and the phase, in
      that order, each in ticks of the current timestep. */
  lemma BurstPeriodChangeSendsAll(s: S.State, period: real, duty: real, phase: Option<real>, drawn: real)
    requires S.Valid(s) && !s.exited && 0.0 <= drawn < 1.0
    requires s.timestep.Some? && s.timestep.value != 0.0
    requires s.burstPeriod != period && period != 0.0
    requires duty != S.Sentinel && phase != Some(S.Sentinel)
    ensures
      var t, ph := s.timestep.value, if phase.Some? then phase.value else drawn;
      S.Burst(s, period, duty, phase, drawn) == S.Step(S.Append(
          s.(burstPeriod := period, burstDuty := duty,
             burstPhase := if phase.Some? then phase.value else S.Sentinel),
          PeriodWords(period, t) + DutyWords(period, duty, t) + PhaseWords(period, ph, t)), Done)
  {
    var t := s.timestep.value;
    BurstPeriodEffect(s, period, t);
    var bp := S.BurstPeriod(s, period).state;
    BurstDutyEffect(bp, period, duty, t);
    var bd := S.BurstDuty(bp, period, duty).state;
    assert bd.commands == s.commands + PeriodWords(period, t) + DutyWords(period, duty, t);
    if phase.Some? {
      BurstPhaseEffect(bd, period, phase.value, drawn, t);
    } else {
      RandomPhaseEffect(bd, period, drawn, t);
    }
  }

  /** With the period unchanged, `burst` sends only the duty and the phase
      that changed, in that order. */
  lemma SamePeriodSendsChanges(s: S.State, period: real, duty: real, phase: real, drawn: real)
    requires S.Valid(s) && !s.exited && 0.0 <= drawn < 1.0
    requires s.timestep.Some? && s.timestep.value != 0.0
    requires s.burstPeriod == period && period != 0.0
    ensures
      var t := s.timestep.value;
      S.Burst(s, period, duty, Some(phase), drawn) == S.Step(S.Append(
          s.(burstDuty := duty, burstPhase := phase),
          (if s.burstDuty != duty then DutyWords(period, duty, t) else [])
          + (if s.burstPhase != phase then PhaseWords(period, phase, t) else [])), Done)
  {
    var t := s.timestep.value;
    BurstPeriodEffect(s, period, t);
    BurstDutyEffect(s, period, duty, t);
    var bd := S.BurstDuty(s, period, duty).state;
    BurstPhaseEffect(bd, period, phase, drawn, t);
  }

  /** A zero period disables bursting: only the period itself is sent (and
      only when it changes); duty and phase are not looked at. */
  lemma ZeroPeriodSendsOnlyPeriod(s: S.State, duty: real, phase: Option<real>, drawn: real)
    requires S.Valid(s) && !s.exited && 0.0 <= drawn < 1.0
    ensures s.burstPeriod == 0.0 ==> S.Burst(s, 0.0, duty, phase, drawn) == S.Step(s, Done)
    ensures s.burstPeriod != 0.0 && s.timestep.Some? && s.timestep.value != 0.0 ==>
      S.Burst(s, 0.0, duty, phase, drawn) == S.Step(S.Append(
          s.(burstPeriod := 0.0, burstDuty := S.Sentinel, burstPhase := S.Sentinel),
          [BURST_PERIOD, 0]), Done)
  {
    if s.timestep.Some? && s.timestep.value != 0.0 {
      assert 0.0 / s.timestep.value == 0 as real;
      RoundOfInteger(0);
    }
  }

  /** A random phase is sent on every call and leaves the sentinel stored. */
  lemma RandomPhaseAlwaysSent(s: S.State, period: real, duty: real, drawn: real)
    requires S.Valid(s) && !s.exited && 0.0 <= drawn < 1.0
    requires s.timestep.Some? && s.timestep.value != 0.0 && period != 0.0
    ensures
      var r := S.Burst(s, period, duty, None, drawn);
      && r.outcome == Done
      && |r.state.commands| >= |s.commands| + 2
      && r.state.commands[|r.state.commands| - 2..] == PhaseWords(period, drawn, s.timestep.value)
      && r.state.burstPhase == S.Sentinel
  {
    var t := s.timestep.value;
    BurstPeriodEffect(s, period, t);
    var bp := S.BurstPeriod(s, period).state;
    BurstDutyEffect(bp, period, duty, t);
    var bd := S.BurstDuty(bp, period, duty).state;
    RandomPhaseEffect(bd, period, drawn, t);
    var c := bd.commands + PhaseWords(period, drawn, t);
    assert c[|c| - 2..] == PhaseWords(period, drawn, t);
  }

  /** Seeding: an unseeded or explicitly seeded generator gets a random seed on
      `seed()`, a second `seed()` sends nothing, and an explicit seed is always
      sent and ends the random streak. */
  lemma SeedPolicy(s: S.State, value: int, drawn: nat, drawnAgain: nat)
    requires S.Valid(s) && !s.exited && drawn < 0x1_0000_0000 && drawnAgain < 0x1_0000_0000
    ensures !s.seeded ==> S.Seed(s, None, drawn).state.commands == s.commands + [SEED, drawn]
    ensures
      var t := S.Seed(s, None, drawn).state;
      S.Seed(t, None, drawnAgain) == S.Step(t, Done)
    ensures S.Seed(s, Some(value), drawn).state.commands == s.commands + [SEED, value]
    ensures !S.Seed(s, Some(value), drawn).state.seeded
  {
  }

  /** Keys that differ only in their low byte are the same key: after one is
      set, setting the other sends nothing. */
  lemma KeysIgnoreLowByte(s: S.State, index: int, key: int, other: int)
    requires S.Valid(s) && key / 256 == other / 256
    ensures S.SourceKey(s, index, key).outcome == Done ==>
      var t := S.SourceKey(s, index, key).state;
      S.SourceKey(t, index, other) == S.Step(t, Done)
    ensures S.SinkKey(s, index, key).outcome == Done ==>
      var t := S.SinkKey(s, index, key).state;
      S.SinkKey(t, index, other) == S.Step(t, Done)
  {
    MaskKeyEqual(key, other);
    SourceKeyIgnoresLowByte(s, index, key, other);
    SinkKeyIgnoresLowByte(s, index, key, other);
  }

  lemma SourceKeyIgnoresLowByte(s: S.State, index: int, key: int, other: int)
    requires S.Valid(s) && MaskKey(key) == MaskKey(other)
    ensures S.SourceKey(s, index, key).outcome == Done ==>
      var t := S.SourceKey(s, index, key).state;
      S.SourceKey(t, index, other) == S.Step(t, Done)
  {
  }

  lemma SinkKeyIgnoresLowByte(s: S.State, index: int, key: int, other: int)
    requires S.Valid(s) && MaskKey(key) == MaskKey(other)
    ensures S.SinkKey(s, index, key).outcome == Done ==>
      var t := S.SinkKey(s, index, key).state;
      S.SinkKey(t, index, other) == S.Step(t, Done)
  {
  }

  /** The diff rule of `record`: the mask is sent exactly when it differs
      from the one last recorded. */
  lemma RecordSendsOnChange(s: S.State, mask: nat)
    requires S.Valid(s)
    ensures S.Record(s, mask).state.commands == s.commands <==> s.exited || s.recorded == mask
  {
  }

  /** The diff rule of `record_interval`: the interval is sent exactly when it
      differs from the stored one and the timestep lets it be converted. */
  lemma RecordIntervalSendsOnChange(s: S.State, interval: real)
    requires S.Valid(s)
    ensures S.RecordInterval(s, interval).state.commands == s.commands <==>
      s.exited || s.recordInterval == Some(interval) || S.Ticks(interval, s.timestep).Err?
  {
  }

  /** The diff rule of `probability`: a value is sent exactly when the channel
      exists and its stored probability differs, the default `0.0` included. */
  lemma ProbabilitySendsOnChange(s: S.State, sourceNum: int, probability: real)
    requires S.Valid(s)
    ensures
      var c := S.Channel(sourceNum, s.numSources);
      S.Probability(s, sourceNum, probability).state.commands == s.commands <==>
        s.exited || c.Err? || s.probability[c.value] == probability
  {
  }

  /** The diff rule of `source_key`: a key is sent exactly when the channel
      exists and its stored key differs from the masked new one. */
  lemma SourceKeySendsOnChange(s: S.State, sourceNum: int, key: int)
    requires S.Valid(s)
    ensures
      var c := S.Channel(sourceNum, s.numSources);
      S.SourceKey(s, sourceNum, key).state.commands == s.commands <==>
        s.exited || c.Err? || s.sourceKey[c.value] == MaskKey(key)
  {
  }

  /** The diff rule of `sink_key`, as for source keys. */
  lemma SinkKeySendsOnChange(s: S.State, sinkNum: int, key: int)
    requires S.Valid(s)
    ensures
      var c := S.Channel(sinkNum, s.numSinks);
      S.SinkKey(s, sinkNum, key).state.commands == s.commands <==>
        s.exited || c.Err? || s.sinkKey[c.value] == MaskKey(key)
  {
  }

  /** The diff rule of `payload`: a flag is sent exactly when the channel
      exists and its stored flag differs. */
  lemma PayloadSendsOnChange(s: S.State, sourceNum: int, payload: bool)
    requires S.Valid(s)
    ensures
      var c := S.Channel(sourceNum, s.numSources);
      S.Payload(s, sourceNum, payload).state.commands == s.commands <==>
        s.exited || c.Err? || s.payload[c.value] == payload
  {
  }

  /** The diff rule of `consume`: the mode is sent exactly when it differs. */
  lemma ConsumeSendsOnChange(s: S.State, consume: bool)
    requires S.Valid(s)
    ensures S.Consume(s, consume).state.commands == s.commands <==> s.exited || s.consume == consume
  {
  }

  /** `num` sizes every per-channel list with its default, sends the counts in
      one word, and cannot be repeated. */
  lemma NumOnce(s: S.State, numSources: nat, numSinks: nat, again: nat, againSinks: nat)
    requires S.Valid(s) && !s.exited && s.numSources.None?
    ensures
      var t := S.Num(s, numSources, numSinks).state;
      && S.Num(s, numSources, numSinks).outcome == Done
      && t.commands == s.commands + [NUM, CountsWord(numSources, numSinks)]
      && t.probability == S.Filled(numSources, 0.0) && t.sourceKey == S.Filled(numSources, 0)
      && t.payload == S.Filled(numSources, false) && t.sinkKey == S.Filled(numSinks, 0)
      && S.Num(t, again, againSinks) == S.Step(t, Failed(AlreadyConfigured))
  {
  }

  /** A per-channel setter accepts exactly the indices below the count, down to
      minus the count (Python's negative indexing); the command word carries
      the index given, not the list position. */
  lemma ChannelGuard(s: S.State, sourceNum: int, key: int)
    requires S.Valid(s) && !s.exited && s.numSources.Some?
    ensures S.SourceKey(s, sourceNum, key).outcome == Done <==>
      -(s.numSources.value as int) <= sourceNum < s.numSources.value
    ensures S.SourceKey(s, sourceNum, key).state.commands != s.commands ==>
      var w := S.SourceKey(s, sourceNum, key).state.commands;
      && |w| == |s.commands| + 2
      && w[|w| - 2] % 256 == SOURCE_KEY && w[|w| - 2] / 256 == sourceNum
      && w[|w| - 1] == MaskKey(key) && w[|w| - 1] % 256 == 0
  {
  }
}
