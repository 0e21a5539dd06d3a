/** Call sequences from the repository's test suite (`tests/test_commands.py`)
    run on the `Commands` class, with the word lists the tests expect. Seconds
    are exact reals here, so `1e-9` is exactly one nanosecond. */
module CommandScenarios {
  import opened Status
  import opened Bits
  import opened Opcodes
  import opened Conversions
  import Wire
  import S = Session
  import opened CommandStream
  import opened SessionProperties

  /** `exit` adds `EXIT`; a second `exit` raises. */
  method ExitedOnlyOnce() returns (words: seq<int>, second: Outcome)
    ensures words == [EXIT] && second == Failed(SessionClosed)
  {
    var a := new Commands();
    var first := a.Exit();
    words := a.commands;
    second := a.Exit();
  }

  method SleepAndBarrier() returns (slept: seq<int>, waited: seq<int>)
    ensures slept == [SLEEP, 1] && waited == [BARRIER]
  {
    var a := new Commands();
    var o := a.Sleep(0.000001);
    slept := a.commands;
    var b := new Commands();
    o := b.Barrier();
    waited := b.commands;
  }

  /** A random seed is sent once; an explicit seed is always sent; after it,
      `seed()` draws again. */
  method Seeding(drawn: nat, drawnAgain: nat) returns (words: seq<int>)
    requires drawn < 0x1_0000_0000 && drawnAgain < 0x1_0000_0000
    ensures words == [SEED, drawn, SEED, 123, SEED, 123, SEED, drawnAgain]
  {
    var a := new Commands();
    var o := a.Seed(None, drawn);
    o := a.Seed(None, drawnAgain);
    o := a.Seed(Some(123), drawnAgain);
    o := a.Seed(Some(123), drawnAgain);
    o := a.Seed(None, drawnAgain);
    o := a.Seed(None, drawn);
    words := a.commands;
  }

  /** A timestep is sent in nanoseconds, and only when it changes. */
  method TimestepChanges() returns (words: seq<int>)
    ensures words == [TIMESTEP, 1, TIMESTEP, 1000]
  {
    var a := new Commands();
    var o := a.Timestep(1e-9);
    assert a.commands == [TIMESTEP, 1] && a.currentTimestep == Some(1e-9);
    o := a.Timestep(1e-9);
    o := a.Timestep(1e-6);
    words := a.commands;
  }

  /** `run` is sent in ticks of the timestep. */
  method RunInTicks() returns (words: seq<int>)
    ensures words == [TIMESTEP, 1, RUN, 1000]
  {
    var a := new Commands();
    var o := a.Timestep(1e-9);
    assert a.commands == [TIMESTEP, 1] && a.currentTimestep == Some(1e-9);
    RoundOfInteger(1000);
    o := a.Run(1e-6);
    words := a.commands;
  }

  /** `num` packs both counts into one word and cannot be repeated. */
  method NumOnce() returns (words: seq<int>, again: Outcome)
    ensures words == [NUM, 0xBBAA] && again == Failed(AlreadyConfigured)
  {
    var a := new Commands();
    var o := a.Num(0xAA, 0xBB);
    words := a.commands;
    again := a.Num(1, 1);
  }

  method RecordCounters() returns (words: seq<int>)
    ensures words == [RECORD, 0x10001]
  {
    var a := new Commands();
    var o := a.Record([]);
    assert [1, 0x10000][..1] == [1] && [1][..0] == [];
    assert OrAll([1, 0x10000]) == Or(Or(0, 1), 0x10000);
    Pow2Sixteen();
    OrDisjointIsAdd(1, 1, 16);
    o := a.Record([1, 0x10000]);
    o := a.Record([1, 0x10000]);
    words := a.commands;
  }

  /** The interval is sent in ticks, and only when it changes. */
  method RecordIntervalInTicks() returns (words: seq<int>)
    ensures words == [TIMESTEP, 1, RECORD_INTERVAL, 1000, RECORD_INTERVAL, 1000000]
  {
    var a := new Commands();
    var o := a.Timestep(1e-9);
    o := a.RecordInterval(0.0);
    assert a.commands == [TIMESTEP, 1] && a.currentRecordInterval == Some(0.0);
    RoundOfInteger(1000);
    o := a.RecordInterval(1e-6);
    assert a.commands == [TIMESTEP, 1, RECORD_INTERVAL, 1000];
    RoundOfInteger(1000000);
    o := a.RecordInterval(1e-3);
    o := a.RecordInterval(1e-3);
    words := a.commands;
  }

  /** A timestep change sends the interval again in ticks of the new timestep. */
  method RecordIntervalFollowsTimestep() returns (words: seq<int>)
    ensures words == [TIMESTEP, 1, RECORD_INTERVAL, 1000000, TIMESTEP, 1000, RECORD_INTERVAL, 1000]
  {
    var a := new Commands();
    var o := a.Timestep(1e-9);
    RoundOfInteger(1000000);
    o := a.RecordInterval(1e-3);
    assert a.commands == [TIMESTEP, 1, RECORD_INTERVAL, 1000000];
    assert a.currentRecordInterval == Some(1e-3) && a.currentTimestep == Some(1e-9);
    RoundOfInteger(1000);
    TimestepRederives(a.Snapshot(), 1e-6);
    o := a.Timestep(1e-6);
    words := a.commands;
  }

  /** Probabilities are sent as 32-bit fixed point, and only when they change. */
  method ProbabilityOnChange() returns (words: seq<int>)
    ensures words == [NUM, 2, PROBABILITY, 0x8000_0000, PROBABILITY + 0x100, 0x4000_0000]
  {
    var a := new Commands();
    var o := a.Num(2, 0);
    o := a.Probability(0, 0.0);
    o := a.Probability(1, 0.0);
    assert a.commands == [NUM, 2] && a.probability == [0.0, 0.0];
    EncodeProbabilityPoints();
    o := a.Probability(0, 0.5);
    o := a.Probability(1, 0.25);
    assert a.probability == [0.5, 0.25];
    o := a.Probability(0, 0.5);
    o := a.Probability(1, 0.25);
    words := a.commands;
  }

  /** The extremes 0 and 1 are sent as 0 and 0xFFFFFFFF. */
  method ProbabilityExtremes() returns (words: seq<int>)
    ensures words == [NUM, 2, PROBABILITY, 0x8000_0000, PROBABILITY, 0, PROBABILITY + 0x100, 0xFFFF_FFFF]
  {
    var a := new Commands();
    var o := a.Num(2, 0);
    EncodeProbabilityPoints();
    o := a.Probability(0, 0.5);
    assert a.commands == [NUM, 2, PROBABILITY, 0x8000_0000] && a.probability == [0.5, 0.0];
    o := a.Probability(0, 0.0);
    o := a.Probability(1, 1.0);
    words := a.commands;
  }

  /** Keys keep only their top 24 bits; a change in the low byte sends nothing. */
  method SourceKeys() returns (words: seq<int>)
    ensures words == [NUM, 2, SOURCE_KEY, 0x00BEEF00, SOURCE_KEY + 0x100, 0x00DEAD00]
  {
    var a := new Commands();
    var o := a.Num(2, 0);
    o := a.SourceKey(0, 0);
    o := a.SourceKey(1, 0);
    assert a.commands == [NUM, 2];
    o := a.SourceKey(0, 0x00BEEFAA);
    o := a.SourceKey(1, 0x00DEADBB);
    assert a.sourceKey == [0x00BEEF00, 0x00DEAD00];
    assert a.commands == [NUM, 2, SOURCE_KEY, 0x00BEEF00, SOURCE_KEY + 0x100, 0x00DEAD00];
    o := a.SourceKey(0, 0x00BEEFCC);
    o := a.SourceKey(1, 0x00DEADDD);
    words := a.commands;
  }

  /** Sink keys follow the same rule, sent with the sink number. */
  method SinkKeys() returns (words: seq<int>)
    ensures words == [NUM, 0x200, SINK_KEY, 0x00BEEF00, SINK_KEY + 0x100, 0x00DEAD00]
  {
    var a := new Commands();
    var o := a.Num(0, 2);
    o := a.SinkKey(0, 0);
    o := a.SinkKey(1, 0);
    assert a.commands == [NUM, 0x200];
    o := a.SinkKey(0, 0x00BEEFAA);
    o := a.SinkKey(1, 0x00DEADBB);
    assert a.sinkKey == [0x00BEEF00, 0x00DEAD00];
    assert a.commands == [NUM, 0x200, SINK_KEY, 0x00BEEF00, SINK_KEY + 0x100, 0x00DEAD00];
    o := a.SinkKey(0, 0x00BEEFCC);
    o := a.SinkKey(1, 0x00DEADDD);
    words := a.commands;
  }

  /** A payload flag is sent on a change, as `PAYLOAD` or `NO_PAYLOAD` with the source number. */
  method PayloadOnChange() returns (words: seq<int>)
    ensures words == [NUM, 2, PAYLOAD, PAYLOAD + 0x100]
  {
    var a := new Commands();
    var o := a.Num(2, 0);
    o := a.Payload(0, false);
    o := a.Payload(1, false);
    assert a.commands == [NUM, 2] && a.payload == [false, false];
    o := a.Payload(0, true);
    o := a.Payload(1, true);
    assert a.payload == [true, true];
    o := a.Payload(0, true);
    o := a.Payload(1, true);
    words := a.commands;
  }

  method PayloadChangedBack() returns (words: seq<int>)
    ensures words == [NUM, 2, PAYLOAD, PAYLOAD + 0x100, NO_PAYLOAD, NO_PAYLOAD + 0x100]
  {
    var a := new Commands();
    var o := a.Num(2, 0);
    o := a.Payload(0, true);
    o := a.Payload(1, true);
    assert a.commands == [NUM, 2, PAYLOAD, PAYLOAD + 0x100] && a.payload == [true, true];
    o := a.Payload(0, false);
    o := a.Payload(1, false);
    words := a.commands;
  }

  method Consuming() returns (words: seq<int>)
    ensures words == [NO_CONSUME, CONSUME]
  {
    var a := new Commands();
    var o := a.Consume(true);
    o := a.Consume(false);
    o := a.Consume(false);
    o := a.Consume(true);
    words := a.commands;
  }

  /** A zero period leaves bursting off: nothing is sent while it stays zero. */
  method BurstStaysDisabled() returns (words: seq<int>)
    ensures words == [TIMESTEP, 1]
  {
    var a := new Commands();
    var o := a.Timestep(1e-9);
    o := a.Burst(0.0, 0.0, Some(0.0), 0.0);
    o := a.Burst(0.0, 123.0, None, 0.5);
    words := a.commands;
  }

  /* The remaining steps of the burst test, one call each, from any session
     holding the values the earlier steps of the test leave behind. */

  /** A new period sends the period, the duty and the phase, each in ticks. */
  lemma BurstPeriodChanges(s: S.State)
    requires S.Valid(s) && !s.exited && s.timestep == Some(1e-9)
    ensures s.burstPeriod != 1e-6 ==>
      S.Burst(s, 1e-6, 0.1, Some(0.1), 0.0) == S.Step(S.Append(
        s.(burstPeriod := 1e-6, burstDuty := 0.1, burstPhase := 0.1),
        [BURST_PERIOD, 1000, BURST_DUTY, 100, BURST_PHASE, 100]), Done)
    ensures s.burstPeriod != 2e-6 ==>
      S.Burst(s, 2e-6, 0.1, Some(0.1), 0.0) == S.Step(S.Append(
        s.(burstPeriod := 2e-6, burstDuty := 0.1, burstPhase := 0.1),
        [BURST_PERIOD, 2000, BURST_DUTY, 200, BURST_PHASE, 200]), Done)
  {
    RoundOfInteger(1000);
    RoundOfInteger(100);
    RoundOfInteger(2000);
    RoundOfInteger(200);
    if s.burstPeriod != 1e-6 {
      BurstPeriodChangeSendsAll(s, 1e-6, 0.1, Some(0.1), 0.0);
    }
    if s.burstPeriod != 2e-6 {
      BurstPeriodChangeSendsAll(s, 2e-6, 0.1, Some(0.1), 0.0);
    }
  }

  /** With the period unchanged, only the duty or phase that changed is sent. */
  lemma BurstPartsChange(s: S.State)
    requires S.Valid(s) && !s.exited && s.timestep == Some(1e-9)
    requires s.burstPeriod == 2e-6 && s.burstDuty == 0.1 && s.burstPhase == 0.1
    ensures S.Burst(s, 2e-6, 0.1, Some(0.1), 0.0) == S.Step(s, Done)
    ensures S.Burst(s, 2e-6, 0.1, Some(0.5), 0.0)
      == S.Step(S.Append(s.(burstPhase := 0.5), [BURST_PHASE, 1000]), Done)
    ensures S.Burst(s.(burstPhase := 0.5), 2e-6, 0.2, Some(0.5), 0.0)
      == S.Step(S.Append(s.(burstDuty := 0.2, burstPhase := 0.5), [BURST_DUTY, 400]), Done)
  {
    RoundOfInteger(1000);
    RoundOfInteger(400);
    SamePeriodSendsChanges(s, 2e-6, 0.1, 0.1, 0.0);
    assert S.Append(s, []) == s;
    SamePeriodSendsChanges(s, 2e-6, 0.1, 0.5, 0.0);
    SamePeriodSendsChanges(s.(burstPhase := 0.5), 2e-6, 0.2, 0.5, 0.0);
  }

  /** A timestep change sends the whole burst triple again in the new ticks. */
  lemma BurstFollowsTimestep(s: S.State)
    requires S.Valid(s) && !s.exited && s.timestep == Some(1e-9) && s.recordInterval == Some(0.0)
    requires s.burstPeriod == 2e-6 && s.burstDuty == 0.2 && s.burstPhase == 0.5
    ensures S.Timestep(s, 2e-9).outcome == Done
    ensures S.Timestep(s, 2e-9).state.commands
      == s.commands + [TIMESTEP, 2, BURST_PERIOD, 1000, BURST_DUTY, 200, BURST_PHASE, 500]
  {
    RoundOfInteger(1000);
    RoundOfInteger(200);
    RoundOfInteger(500);
    TimestepRederives(s, 2e-9);
    assert Nanos(2e-9) == 2 by {
      assert 2e-9 * 1e9 == 2.0;
    }
  }

  /** Without a phase, a drawn phase is sent on every call, even with the
      period and the duty unchanged. */
  lemma RandomPhaseResent(s: S.State, drawn: real, drawnAgain: real)
    requires S.Valid(s) && !s.exited && s.timestep == Some(1e-9)
    requires s.burstPeriod == 2e-6 && s.burstDuty == 0.2
    requires 0.0 <= drawn < 1.0 && 0.0 <= drawnAgain < 1.0
    ensures
      var r1 := S.Burst(s, 2e-6, 0.2, None, drawn).state;
      && r1.commands == s.commands + PhaseWords(2e-6, drawn, 1e-9)
      && S.Burst(r1, 2e-6, 0.2, None, drawnAgain).state.commands
         == r1.commands + PhaseWords(2e-6, drawnAgain, 1e-9)
  {
    UnchangedRandomBurst(s, drawn);
    var r1 := S.Burst(s, 2e-6, 0.2, None, drawn).state;
    UnchangedRandomBurst(r1, drawnAgain);
  }

  lemma UnchangedRandomBurst(s: S.State, drawn: real)
    requires S.Valid(s) && !s.exited && s.timestep == Some(1e-9)
    requires s.burstPeriod == 2e-6 && s.burstDuty == 0.2 && 0.0 <= drawn < 1.0
    ensures S.Burst(s, 2e-6, 0.2, None, drawn)
      == S.Step(S.Append(s.(burstPhase := S.Sentinel), PhaseWords(2e-6, drawn, 1e-9)), Done)
  {
    BurstPeriodEffect(s, 2e-6, 1e-9);
    BurstDutyEffect(s, 2e-6, 0.2, 1e-9);
    assert S.Append(s, []) == s;
    RandomPhaseEffect(s, 2e-6, drawn, 1e-9);
  }

  /** A probability just below one is sent as `2**32`, one past the largest
      word, so the closed stream cannot be packed. */
  method ProbabilityOverflowBreaksPack() returns (words: seq<int>, packed: Result<seq<Wire.Byte>>)
    ensures words == [NUM, 1, PROBABILITY, 0x1_0000_0000, EXIT]
    ensures packed == Err(WordOutOfRange)
  {
    var a := new Commands();
    var o := a.Num(1, 0);
    ProbabilityJustBelowOneOverflows();
    o := a.Probability(0, 1.0 - 1.0 / 8589934592.0);
    o := a.Exit();
    words := a.commands;
    assert !Wire.IsWord(words[3]);
    packed := a.Pack();
  }

  /** `size` counts the length prefix; `pack` writes it, then each word, little-endian. */
  method SizeAndPack() returns (size: Result<nat>, packed: Result<seq<Wire.Byte>>)
    ensures size == Ok(16)
    ensures packed == Ok([12, 0, 0, 0, 6, 0, 0, 0, 0, 0, 0, 0, 0, 0, 0, 0])
  {
    var a := new Commands();
    var o := a.Num(0, 0);
    o := a.Exit();
    assert a.commands == [NUM, 0, EXIT];
    size := a.Size();
    packed := a.Pack();
    assert a.commands == [6, 0, 0];
    Wire.PackSmallWords(6, 0, 0);
  }

  lemma Pow2Sixteen()
    ensures Pow2(16) == 0x10000
  {
    assert Pow2(2) == 4;
    assert Pow2(4) == 16;
    assert Pow2(6) == 64;
    assert Pow2(8) == 256;
    assert Pow2(10) == 1024;
    assert Pow2(12) == 4096;
    assert Pow2(14) == 16384;
  }
}
