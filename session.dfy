/** The encoder's session state and one transition function per setter. Both
    encoder classes keep exactly this state in their fields; each of their
    methods is proved to perform the transition given here. A transition
    returns the new state and whether the call returned or raised; where the
    source raises after it has already stored a value (division by a missing
    or zero timestep), the stored value is kept, as in the source. */
module Session {
  import opened Status
  import opened Bits
  import opened Opcodes
  import opened Conversions

  /** The "last emitted" value of every parameter and the command list. */
  datatype State = State(
    commands: seq<int>,
    exited: bool,
    seeded: bool,               // the seed was last set randomly
    timestep: Option<real>,     // seconds; None until first set
    recordInterval: Option<real>,  // seconds; None only while being re-derived
    numSources: Option<nat>,
    numSinks: Option<nat>,
    recorded: nat,              // the record mask
    probability: seq<real>,     // per source
    sourceKey: seq<int>,        // per source, low byte clear
    payload: seq<bool>,         // per source
    sinkKey: seq<int>,          // per sink, low byte clear
    consume: bool,
    burstPeriod: real,          // seconds
    burstDuty: real,            // fraction of the period
    burstPhase: real)           // fraction of the period

  datatype Step = Step(state: State, outcome: Outcome)

  /** The `-1` stored to force the next comparison to fail. */
  const Sentinel: real := -1.0

  function Count(n: Option<nat>): nat
  {
    if n.Some? then n.value else 0
  }

  /** The object invariant: both counts are set together by `num`, the
      per-channel lists have their counts' lengths, stored keys are masked,
      and a closed session's list ends with `EXIT`. */
  ghost predicate Valid(s: State)
  {
    && s.numSources.Some? == s.numSinks.Some?
    && |s.probability| == Count(s.numSources)
    && |s.sourceKey| == Count(s.numSources)
    && |s.payload| == Count(s.numSources)
    && |s.sinkKey| == Count(s.numSinks)
    && (forall k :: 0 <= k < |s.sourceKey| ==> s.sourceKey[k] % 256 == 0)
    && (forall k :: 0 <= k < |s.sinkKey| ==> s.sinkKey[k] % 256 == 0)
    && (s.exited ==> |s.commands| > 0 && s.commands[|s.commands| - 1] == EXIT)
  }

  /** A step that keeps the invariant and only appends to the command list. */
  ghost predicate Extends(s: State, r: Step)
  {
    Valid(r.state) && s.commands <= r.state.commands
  }

  /** The state `__init__` sets up. */
  function Init(): (s: State)
    ensures Valid(s) && s.commands == [] && !s.exited && !s.seeded
    ensures s.timestep == None && s.numSources == None && s.consume
  {
    State([], false, false, None, Some(0.0), None, None, 0, [], [], [], [], true, 0.0, 0.0, 0.0)
  }

  function Closed(s: State): Step
  {
    Step(s, Failed(SessionClosed))
  }

  function Append(s: State, words: seq<int>): State
  {
    s.(commands := s.commands + words)
  }

  /** `int(round(seconds / timestep))`, or the error Python raises dividing by
      an unset (None) or zero timestep. */
  function Ticks(seconds: real, timestep: Option<real>): (r: Result<int>)
    ensures r.Ok? <==> timestep.Some? && timestep.value != 0.0
    ensures r.Ok? ==> NearestEven(seconds / timestep.value, r.value)
    ensures timestep.None? ==> r == Err(NoTimestep)
    ensures timestep == Some(0.0) ==> r == Err(ZeroTimestep)
  {
    match timestep
    case None => Err(NoTimestep)
    case Some(t) => if t == 0.0 then Err(ZeroTimestep) else Ok(Round(seconds / t))
  }

  /** Python list indexing guarded by `assert index < count`: the position of
      `index` in a list of `count` elements, negative indices counting from the end. */
  function Channel(index: int, count: Option<nat>): (r: Result<nat>)
    ensures r.Ok? <==> count.Some? && -(count.value as int) <= index < count.value
    ensures r.Ok? ==> r.value < count.value
    ensures r.Ok? && index >= 0 ==> r.value == index
    ensures count.None? ==> r == Err(NoChannels)
  {
    match count
    case None => Err(NoChannels)
    case Some(n) => if index < n && -(n as int) <= index then Ok(if index >= 0 then index else n + index) else Err(OutOfRange)
  }

  /** `exit()`. */
  function Exit(s: State): (r: Step)
    requires Valid(s)
    ensures Extends(s, r)
    ensures r.state.exited
  {
    if s.exited then Closed(s)
    else Step(Append(s, [EXIT]).(exited := true), Done)
  }

  /** `sleep(duration)`: always emitted, in whole microseconds. */
  function Sleep(s: State, duration: real): (r: Step)
    requires Valid(s)
    ensures Extends(s, r)
  {
    if s.exited then Closed(s)
    else Step(Append(s, [SLEEP, Micros(duration)]), Done)
  }

  /** `barrier()`: always emitted. */
  function Barrier(s: State): (r: Step)
    requires Valid(s)
    ensures Extends(s, r)
  {
    if s.exited then Closed(s)
    else Step(Append(s, [BARRIER]), Done)
  }

  /** `seed(seed)`. With no seed, a fresh random 32-bit value (`drawn`) is sent
      unless the last seed was already random; an explicit seed is always sent. */
  function Seed(s: State, seed: Option<int>, drawn: nat): (r: Step)
    requires Valid(s) && drawn < 0x1_0000_0000
    ensures Extends(s, r)
    ensures r.outcome.Done? ==> r.state.seeded == seed.None?
  {
    if s.exited then Closed(s)
    else match seed
      case None =>
        if s.seeded then Step(s, Done)
        else Step(Append(s, [SEED, drawn]).(seeded := true), Done)
      case Some(v) => Step(Append(s, [SEED, v]).(seeded := false), Done)
  }

  /** `timestep(timestep)`: on a change, emit it in nanoseconds, then re-derive
      the record interval and the burst triple, which are expressed in ticks. */
  function Timestep(s: State, timestep: real): (r: Step)
    requires Valid(s)
    ensures Extends(s, r)
    ensures !s.exited ==> r.state.timestep == Some(timestep)
  {
    if s.exited then Closed(s)
    else if s.timestep == Some(timestep) then Step(s, Done)
    else
      var s1 := Append(s.(timestep := Some(timestep)), [TIMESTEP, Nanos(timestep)]);
      var r1 := RederiveRecordInterval(s1);
      if r1.outcome.Failed? then r1 else RederiveBurst(r1.state)
  }

  /** Poison the stored interval with None and set it again, if it is not zero. */
  function RederiveRecordInterval(s: State): (r: Step)
    requires Valid(s) && !s.exited
    ensures Extends(s, r) && r.state.timestep == s.timestep && !r.state.exited
    ensures r.state.burstPeriod == s.burstPeriod
  {
    match s.recordInterval
    case Some(interval) =>
      if interval != 0.0 then RecordInterval(s.(recordInterval := None), interval)
      else Step(s, Done)
    case None => Step(s, Done)
  }

  /** Poison the stored period with `-1` and set the burst again, if it is not zero. */
  function RederiveBurst(s: State): (r: Step)
    requires Valid(s) && !s.exited
    ensures Extends(s, r) && r.state.timestep == s.timestep
  {
    if s.burstPeriod != 0.0 then
      Burst(s.(burstPeriod := Sentinel), s.burstPeriod, s.burstDuty, Some(s.burstPhase), 0.0)
    else Step(s, Done)
  }

  /** `run(duration)`: always emitted, in ticks of the current timestep. */
  function Run(s: State, duration: real): (r: Step)
    requires Valid(s)
    ensures Extends(s, r)
    ensures r.outcome.Failed? ==> r.state == s
  {
    if s.exited then Closed(s)
    else match Ticks(duration, s.timestep)
      case Err(e) => Step(s, Failed(e))
      case Ok(t) => Step(Append(s, [RUN, t]), Done)
  }

  /** `[value] * count`. */
  function Filled<T>(count: nat, value: T): (r: seq<T>)
    ensures |r| == count && forall k :: 0 <= k < count ==> r[k] == value
  {
    seq(count, _ => value)
  }

  /** `num(num_sources, num_sinks)`: allowed once; sizes the per-channel lists. */
  function Num(s: State, numSources: nat, numSinks: nat): (r: Step)
    requires Valid(s)
    ensures Extends(s, r)
    ensures r.outcome.Done? ==> Count(r.state.numSources) == numSources && Count(r.state.numSinks) == numSinks
  {
    if s.exited then Closed(s)
    else if s.numSources.Some? || s.numSinks.Some? then Step(s, Failed(AlreadyConfigured))
    else
      var s1 := s.(numSources := Some(numSources), numSinks := Some(numSinks),
                   probability := Filled(numSources, 0.0),
                   sourceKey := Filled(numSources, 0),
                   payload := Filled(numSources, false),
                   sinkKey := Filled(numSinks, 0));
      Step(Append(s1, [NUM, CountsWord(numSources, numSinks)]), Done)
  }

  /** The tail of `record`: send the mask only when it differs from the current one. */
  function Record(s: State, mask: nat): (r: Step)
    requires Valid(s)
    ensures Extends(s, r)
    ensures !s.exited ==> r.state.recorded == mask
  {
    if s.exited then Closed(s)
    else if mask == s.recorded then Step(s, Done)
    else Step(Append(s.(recorded := mask), [RECORD, mask]), Done)
  }

  /** `record_interval(interval)`: on a change, store it, then emit it in ticks. */
  function RecordInterval(s: State, interval: real): (r: Step)
    requires Valid(s)
    ensures Extends(s, r)
    ensures !s.exited ==> r.state.recordInterval == Some(interval)
    ensures r.state.timestep == s.timestep && r.state.exited == s.exited
    ensures r.state.burstPeriod == s.burstPeriod
  {
    if s.exited then Closed(s)
    else if s.recordInterval == Some(interval) then Step(s, Done)
    else
      var s1 := s.(recordInterval := Some(interval));
      match Ticks(interval, s.timestep)
      case Err(e) => Step(s1, Failed(e))
      case Ok(t) => Step(Append(s1, [RECORD_INTERVAL, t]), Done)
  }

  /** `probability(source_num, probability)`: on a change, emit the fixed-point value. */
  function Probability(s: State, sourceNum: int, probability: real): (r: Step)
    requires Valid(s)
    ensures Extends(s, r)
    ensures r.outcome.Failed? ==> r.state == s
  {
    if s.exited then Closed(s)
    else match Channel(sourceNum, s.numSources)
      case Err(e) => Step(s, Failed(e))
      case Ok(k) =>
        if s.probability[k] == probability then Step(s, Done)
        else Step(Append(s.(probability := s.probability[k := probability]),
                         [ChannelWord(PROBABILITY, sourceNum), EncodeProbabilityAsWritten(probability)]), Done)
  }

  /** `burst(period, duty, phase)`. A changed period forces duty and phase to be
      sent again; a zero period disables the rest; a missing phase is drawn at
      random (`drawn`) and always sent. */
  function Burst(s: State, period: real, duty: real, phase: Option<real>, drawn: real): (r: Step)
    requires Valid(s) && 0.0 <= drawn < 1.0
    ensures Extends(s, r) && r.state.timestep == s.timestep
    ensures !s.exited ==> r.state.burstPeriod == period
  {
    if s.exited then Closed(s)
    else
      var r1 := BurstPeriod(s, period);
      if r1.outcome.Failed? || period == 0.0 then r1
      else
        var r2 := BurstDuty(r1.state, period, duty);
        if r2.outcome.Failed? then r2
        else BurstPhase(r2.state, period, phase, drawn)
  }

  /** The length in seconds of a fraction (duty or phase) of the period. */
  function PartOf(period: real, fraction: real): real
  {
    period * fraction
  }

  function BurstPeriod(s: State, period: real): (r: Step)
    requires Valid(s) && !s.exited
    ensures Extends(s, r) && r.state.timestep == s.timestep && r.state.exited == s.exited
    ensures r.state.burstPeriod == period
  {
    if s.burstPeriod == period then Step(s, Done)
    else
      var s1 := s.(burstPeriod := period, burstDuty := Sentinel, burstPhase := Sentinel);
      match Ticks(period, s.timestep)
      case Err(e) => Step(s1, Failed(e))
      case Ok(t) => Step(Append(s1, [BURST_PERIOD, t]), Done)
  }

  function BurstDuty(s: State, period: real, duty: real): (r: Step)
    requires Valid(s) && !s.exited
    ensures Extends(s, r) && r.state.timestep == s.timestep && r.state.exited == s.exited
    ensures r.state.burstPeriod == s.burstPeriod && r.state.burstDuty == duty
  {
    if s.burstDuty == duty then Step(s, Done)
    else
      var s1 := s.(burstDuty := duty);
      match Ticks(PartOf(period, duty), s.timestep)
      case Err(e) => Step(s1, Failed(e))
      case Ok(t) => Step(Append(s1, [BURST_DUTY, t]), Done)
  }

  function BurstPhase(s: State, period: real, phase: Option<real>, drawn: real): (r: Step)
    requires Valid(s) && !s.exited
    ensures Extends(s, r) && r.state.timestep == s.timestep && r.state.exited == s.exited
    ensures r.state.burstPeriod == s.burstPeriod && r.state.burstDuty == s.burstDuty
  {
    match phase
    case Some(value) =>
      if value == s.burstPhase then Step(s, Done)
      else
        var s1 := s.(burstPhase := value);
        (match Ticks(PartOf(period, value), s.timestep)
         case Err(e) => Step(s1, Failed(e))
         case Ok(t) => Step(Append(s1, [BURST_PHASE, t]), Done))
    case None =>
      var s1 := s.(burstPhase := Sentinel);
      match Ticks(PartOf(period, drawn), s.timestep)
      case Err(e) => Step(s1, Failed(e))
      case Ok(t) => Step(Append(s1, [BURST_PHASE, t]), Done)
  }

  /** `source_key(source_num, key)`: only the top 24 bits count. */
  function SourceKey(s: State, sourceNum: int, key: int): (r: Step)
    requires Valid(s)
    ensures Extends(s, r)
    ensures r.outcome.Failed? ==> r.state == s
  {
    if s.exited then Closed(s)
    else match Channel(sourceNum, s.numSources)
      case Err(e) => Step(s, Failed(e))
      case Ok(k) =>
        var masked := MaskKey(key);
        if s.sourceKey[k] == masked then Step(s, Done)
        else Step(Append(s.(sourceKey := s.sourceKey[k := masked]),
                         [ChannelWord(SOURCE_KEY, sourceNum), masked]), Done)
  }

  /** `payload(source_num, payload)`: a single operand-less word on a change. */
  function Payload(s: State, sourceNum: int, payload: bool): (r: Step)
    requires Valid(s)
    ensures Extends(s, r)
    ensures r.outcome.Failed? ==> r.state == s
  {
    if s.exited then Closed(s)
    else match Channel(sourceNum, s.numSources)
      case Err(e) => Step(s, Failed(e))
      case Ok(k) =>
        if s.payload[k] == payload then Step(s, Done)
        else Step(Append(s.(payload := s.payload[k := payload]),
                         [ChannelWord(if payload then PAYLOAD else NO_PAYLOAD, sourceNum)]), Done)
  }

  /** `consume(consume)`: a single operand-less word on a change. */
  function Consume(s: State, consume: bool): (r: Step)
    requires Valid(s)
    ensures Extends(s, r)
    ensures !s.exited ==> r.state.consume == consume
  {
    if s.exited then Closed(s)
    else if s.consume == consume then Step(s, Done)
    else Step(Append(s.(consume := consume), [if consume then CONSUME else NO_CONSUME]), Done)
  }

  /** `sink_key(sink_num, key)`: only the top 24 bits count. */
  function SinkKey(s: State, sinkNum: int, key: int): (r: Step)
    requires Valid(s)
    ensures Extends(s, r)
    ensures r.outcome.Failed? ==> r.state == s
  {
    if s.exited then Closed(s)
    else match Channel(sinkNum, s.numSinks)
      case Err(e) => Step(s, Failed(e))
      case Ok(k) =>
        var masked := MaskKey(key);
        if s.sinkKey[k] == masked then Step(s, Done)
        else Step(Append(s.(sinkKey := s.sinkKey[k := masked]),
                         [ChannelWord(SINK_KEY, sinkNum), masked]), Done)
  }
}
