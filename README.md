# Network tester command encoder

This project models the command-stream encoder of the network tester. The
encoder is a stateful object. Each setter (`exit`, `sleep`, `barrier`,
`seed`, `timestep`, `run`, `num`, `record`, `record_interval`,
`probability`, `burst`, `source_key`, `payload`, `consume`, `sink_key`)
turns a physical quantity into integer command words, using seconds, ticks
of the timestep, fixed-point probabilities and masked keys. `sleep`,
`barrier`, `run`, `exit` and a `seed` given explicitly append their words on
every call. The other setters append only when the new value differs from the
stored one. A timestep change sends the record interval and the burst
settings again in ticks of the new timestep. It skips a burst duty or phase
that holds the `-1` sentinel, which includes a phase that was drawn at
random.
When the session is closed with `exit`, `size` and `pack` give the
length-prefixed little-endian byte stream.

There are two encoder classes in the source. `Commands`
(`network_tester/commands.py`) has `size` and `pack`, and its `record` takes
counter bit values. `Application` (`network_tester/application.py`) has no
`size` or `pack`, and its `record` takes counter names. It checks those
names against the `RecordBits` enumeration.

Layout:

- `status.dfy`: `Option`, `Result`, and the outcome of a call. A call either
  returns or raises one of the named errors.
- `bits.dfy`: Python's `|` on non-negative integers, powers of two and
  single-bit facts.
- `opcodes.dfy`: the `NT_CMD` identifiers and the packed per-channel and
  `NUM` words.
- `conversions.dfy`: `int(x)`, `round(x)` with ties to even, microseconds,
  nanoseconds, key masking and the probability fixed point.
- `wire.dfy`: `struct.pack` with `<I` words, and its decoding.
- `session.dfy`: the encoder state as a value, with one transition per
  setter. It returns the new state and whether the call returned or raised.
- `properties.dfy`: properties that relate several calls. These cover
  closing, failures, repeated calls, timestep re-derivation, the burst rules,
  seeding, keys and channel indices.
- `commands.dfy`: class `Commands`. Its fields are updated in place by
  methods proved to perform the transitions of `session.dfy`.
- `application.dfy`: class `Application`, `RecordBits`, and the name loop
  of its `record`.
- `scenarios.dfy`: call sequences from `tests/test_commands.py`, with the
  command words they must produce.

A Python `assert` that fails, or an index outside a list, becomes a
`Failed(error)` outcome with the state left as it was. A division by a
missing (`None`) or zero timestep also raises. That division happens after
the new value was stored, so the stored value is kept, exactly as in the
source.

Some facts about the code that the model follows:

- `size` counts the 4-byte length prefix.
- The probability word is not clamped: a probability from `1 - 2**-33` up to
  (but not including) one is sent as `2**32`, and `pack` then fails (see
  Findings).
- `RecordBits` has 19 members, and `received` sits at bit 24.
- Neither the counts given to `num` nor a channel index is limited to
  8 bits.
- A negative channel index is accepted and counts from the end of the list,
  as Python list indexing does.

## Model

| member | source | states |
|---|---|---|
| Opcodes.ChannelWord | network_tester/commands.py:258 | a per-channel word keeps the opcode in its low byte and the channel number above it, negative numbers included (the same word is built at lines 322, 333 and 354) |
| Opcodes.ChannelWordIsOr | network_tester/commands.py:346-354 | for a non-negative channel the word is exactly `op \| (index << 8)` |
| Opcodes.CountsWord | network_tester/commands.py:207 | the `NUM` operand keeps the source count in its low byte and the sink count above it when there are fewer than 256 sources; it is never below the source count |
| Opcodes.CountsWordBounds | network_tester/commands.py:207 | the OR of the two counts is their sum when the source count fits in a byte |
| Bits.OrTestBit | network_tester/commands.py:219-220 | a bit of `a \| b` is set exactly when it is set in `a` or in `b` |
| Bits.Pow2TestBit | network_tester/application.py:36-58 | a `RecordBits` value `1 << k` has bit `k` set and no other |
| Bits.SameBitsSameValue | network_tester/application.py:219-222 | two masks with the same bits are the same mask |
| Bits.OrDisjointIsAdd | network_tester/commands.py:207 | OR-ing a value below `1 << k` into a multiple of `1 << k` is addition |
| Bits.OrBelow | network_tester/application.py:219-222 | the OR of two values below `1 << n` stays below `1 << n` |
| Bits.OrAllTestBit | network_tester/commands.py:218-220 | a bit of the OR of the counters is set exactly when some counter has it set |
| Conversions.Truncate | network_tester/commands.py:120 | `int(x)` is the integer next to `x` on the side of zero |
| Conversions.Round | network_tester/commands.py:184 | `round(x)` gives a nearest integer, and the even one on a tie |
| Conversions.RoundIsUnique | network_tester/commands.py:184 | the nearest-even integer is unique, so `Round` is the only function meeting the rounding rule |
| Conversions.RoundMonotone | network_tester/commands.py:184 | rounding keeps the order of two values |
| Conversions.RoundOfInteger | network_tester/commands.py:242 | an integral number of ticks rounds to itself |
| Conversions.Micros | network_tester/commands.py:120 | `sleep` sends the whole microseconds of a non-negative duration |
| Conversions.Nanos | network_tester/commands.py:163 | `timestep` sends the whole nanoseconds of a non-negative timestep |
| Conversions.MaskKey | network_tester/commands.py:319 | `key & ~0xFF` clears the low byte and is the largest such value not above the key |
| Conversions.MaskKeyEqual | network_tester/commands.py:319 | two keys mask to the same value exactly when they agree above the low byte |
| Conversions.ProbabilityJustBelowOneOverflows | network_tester/commands.py:254-257 | the encoding as written turns `1 - 2**-33` into `2**32`, one past the largest 32-bit word |
| Conversions.EncodeProbability | network_tester/commands.py:253-257 | every probability in `[0, 1]` becomes a word in `[0, 0xFFFFFFFF]`; `1.0` becomes `0xFFFFFFFF`; otherwise the value agrees with the source's formula wherever that fits |
| Conversions.EncodeProbabilityMonotone | network_tester/commands.py:253-257 | a larger probability never gets a smaller word |
| Conversions.ProbabilityOverflowRange | network_tester/commands.py:254-257 | for a probability in `[0, 1]`, the word as written is at most `2**32`; it is above `0xFFFFFFFF` exactly when the probability is in `[1 - 2**-33, 1)` |
| Conversions.EncodeProbabilityPoints | network_tester/commands.py:253-257 | 0, 0.25, 0.5 and 1 become 0, 0x40000000, 0x80000000 and 0xFFFFFFFF, both as written and clamped |
| Wire.WordBytes | network_tester/commands.py:104-106 | a word is four little-endian bytes that add back up to it |
| Wire.WordBytesValue | network_tester/commands.py:104-106 | the four byte fields of a 32-bit word recompose it |
| Wire.DecodeEncodeWords | network_tester/commands.py:104-106 | reading the packed words back gives the words |
| Wire.Pack | network_tester/commands.py:101-106 | packing succeeds exactly when the prefix and every word fit 32 bits (else `struct.error`); the result is four bytes per word and decodes to the prefix `4 * n` followed by the words |
| Wire.PackSmallWords | network_tester/commands.py:101-106 | three words below 256 pack to the prefix 12, then one low byte and three zero bytes per word |
| Wire.EncodeFront | network_tester/commands.py:104-106 | encoding a list is the first word's bytes followed by the encoding of the rest |
| Wire.SmallWordBytes | network_tester/commands.py:104-106 | a word below 256 is one byte followed by three zero bytes |
| Session.Init | network_tester/commands.py:46-89 | the initial state is valid, with an empty list, no timestep, no channels and consumption on |
| Session.Ticks | network_tester/commands.py:184 | a duration in ticks is the nearest-even integer to `seconds / timestep`; a missing timestep raises `NoTimestep` and a zero timestep raises `ZeroTimestep` |
| Session.Channel | network_tester/commands.py:247-250 | an index is accepted exactly when it lies in `[-n, n)` of a configured count `n`; it selects a slot below `n`, the same slot for a non-negative index; before `num` every index raises |
| Session.Exit | network_tester/commands.py:109-113 | `exit` keeps the invariant, only appends, and leaves the session closed |
| Session.Sleep | network_tester/commands.py:116-121 | `sleep` keeps the invariant and only appends |
| Session.Barrier | network_tester/commands.py:124-127 | `barrier` keeps the invariant and only appends |
| Session.Seed | network_tester/commands.py:130-150 | `seed` keeps the invariant, only appends, and marks the seed random exactly when none was given |
| Session.Timestep | network_tester/commands.py:152-177 | `timestep` keeps the invariant, only appends, and stores the new timestep |
| Session.RederiveRecordInterval | network_tester/commands.py:166-170 | re-deriving the interval keeps the invariant, the timestep and the burst period, and only appends |
| Session.RederiveBurst | network_tester/commands.py:172-177 | re-deriving the burst keeps the invariant and the timestep, and only appends |
| Session.Run | network_tester/commands.py:179-185 | `run` keeps the invariant and only appends; when it raises, nothing changes |
| Session.Filled | network_tester/commands.py:202-205 | `[value] * count` has `count` elements, each equal to `value` |
| Session.Num | network_tester/commands.py:187-207 | `num` keeps the invariant, only appends, and on success leaves the counts given |
| Session.Record | network_tester/commands.py:222-225 | the mask is stored and only appends |
| Session.RecordInterval | network_tester/commands.py:228-243 | `record_interval` keeps the invariant, only appends, stores the interval, and leaves the timestep, the burst period and the closed flag alone |
| Session.Probability | network_tester/commands.py:245-259 | `probability` keeps the invariant and only appends; when it raises, nothing changes; the word sent is the unclamped encoding as written |
| Session.Burst | network_tester/commands.py:261-311 | `burst` keeps the invariant and the timestep, only appends, and stores the period given |
| Session.BurstPeriod | network_tester/commands.py:277-286 | the period part stores the period and only appends |
| Session.BurstDuty | network_tester/commands.py:293-298 | the duty part stores the duty, keeps the period, and only appends |
| Session.BurstPhase | network_tester/commands.py:300-311 | the phase part keeps the period and the duty, and only appends |
| Session.SourceKey | network_tester/commands.py:313-322 | `source_key` keeps the invariant (stored keys have a clear low byte) and only appends; when it raises, nothing changes |
| Session.Payload | network_tester/commands.py:324-333 | `payload` keeps the invariant and only appends; when it raises, nothing changes |
| Session.Consume | network_tester/commands.py:335-343 | `consume` keeps the invariant, only appends, and stores the flag |
| Session.SinkKey | network_tester/commands.py:345-354 | `sink_key` keeps the invariant and only appends; when it raises, nothing changes |
| SessionProperties.Apply | network_tester/commands.py:109-354 | every setter keeps the invariant and only appends; on a closed session every setter raises and changes nothing |
| SessionProperties.ApplyAll | network_tester/commands.py:109-354 | a script of calls only appends; a closed session completes only the empty script |
| SessionProperties.ExitIsTerminal | network_tester/commands.py:109-113 | `exit` appends `EXIT`, after which every call, `exit` included, raises and changes nothing |
| SessionProperties.ClosedSessionIsFrozen | network_tester/commands.py:109-113 | any script on a closed session raises at once and changes nothing |
| SessionProperties.FailedCallAppendsNothing | network_tester/commands.py:109-354 | a call other than `timestep` that raises appends no word |
| SessionProperties.BurstFailureAppendsNothing | network_tester/commands.py:261-311 | `burst` raises only for a missing timestep (`NoTimestep`) or a zero one (`ZeroTimestep`), and then appends nothing |
| SessionProperties.TimestepFailure | network_tester/commands.py:152-177 | `timestep` on an open session raises only for a zero timestep, after it has appended `TIMESTEP 0` |
| SessionProperties.AssertionFailureChangesNothing | network_tester/commands.py:109-354 | a failure other than a division by a missing or zero timestep leaves the whole state unchanged |
| SessionProperties.RepeatIsNoOp | network_tester/commands.py:152-354 | repeating a diffed setter (timestep, record, record_interval, probability, burst with a phase, keys, payload, consume, a random seed) with the same arguments appends nothing |
| SessionProperties.RepeatChannelIsNoOp | network_tester/commands.py:245-354 | a per-channel setter repeated with the same arguments appends nothing |
| SessionProperties.BurstStoresArguments | network_tester/commands.py:277-308 | after `burst` the period is stored; with a non-zero period the duty is stored, and the phase or the `-1` sentinel for a random phase |
| SessionProperties.TimestepRederives | network_tester/commands.py:152-177 | a new non-zero timestep sends its nanoseconds, then the non-zero interval and the burst triple in ticks of the new timestep (no duty or phase that holds the sentinel), and keeps their values in seconds |
| SessionProperties.RederiveRecordIntervalEffect | network_tester/commands.py:166-170 | re-deriving sends `RECORD_INTERVAL` in new ticks for a non-zero interval and nothing otherwise |
| SessionProperties.RederiveBurstEffect | network_tester/commands.py:172-177 | re-deriving the burst sends exactly the words of the burst triple for the stored values |
| SessionProperties.RederiveSentinelBurst | network_tester/commands.py:172-177 | a period that holds `-1` is equal to the poisoned value, so nothing is sent |
| SessionProperties.RederiveActiveBurst | network_tester/commands.py:172-177 | an active period is sent again with every duty and phase that is not the sentinel |
| SessionProperties.BurstPeriodEffect | network_tester/commands.py:277-286 | a changed period is sent in ticks and poisons the duty and the phase |
| SessionProperties.BurstDutyEffect | network_tester/commands.py:293-298 | a changed duty is sent in ticks of `period * duty` |
| SessionProperties.BurstPhaseEffect | network_tester/commands.py:300-311 | a changed explicit phase is sent in ticks of `period * phase` |
| SessionProperties.RandomPhaseEffect | network_tester/commands.py:303-311 | a missing phase is drawn and always sent, and the sentinel is stored |
| SessionProperties.BurstPeriodChangeSendsAll | network_tester/commands.py:261-311 | a new non-zero period sends period, duty and phase, in that order |
| SessionProperties.SamePeriodSendsChanges | network_tester/commands.py:288-311 | with the period unchanged, only a changed duty and a changed phase are sent, in that order |
| SessionProperties.ZeroPeriodSendsOnlyPeriod | network_tester/commands.py:288-291 | a zero period sends only `BURST_PERIOD 0`, and only when the period changes |
| SessionProperties.RandomPhaseAlwaysSent | network_tester/commands.py:303-311 | every call with no phase ends with a drawn `BURST_PHASE` and leaves the sentinel stored |
| SessionProperties.SeedPolicy | network_tester/commands.py:130-150 | the first `seed()` sends a drawn seed, a second sends nothing, and an explicit seed is always sent and ends the random streak |
| SessionProperties.KeysIgnoreLowByte | network_tester/commands.py:313-354 | after a key is set, a key that differs only in its low byte sends nothing, for sources and for sinks |
| SessionProperties.SourceKeyIgnoresLowByte | network_tester/commands.py:313-322 | a source key with the same masked value as the one just set sends nothing |
| SessionProperties.SinkKeyIgnoresLowByte | network_tester/commands.py:345-354 | a sink key with the same masked value as the one just set sends nothing |
| SessionProperties.RecordSendsOnChange | network_tester/commands.py:222-225 | on an open session, `record` sends nothing exactly when the mask equals the one recorded |
| SessionProperties.RecordIntervalSendsOnChange | network_tester/commands.py:228-243 | on an open session, `record_interval` sends nothing exactly when the interval equals the stored one or the timestep is missing or zero |
| SessionProperties.ProbabilitySendsOnChange | network_tester/commands.py:245-259 | on an open session, `probability` sends nothing exactly when the channel is invalid or its stored probability equals the new one (the default `0.0` included) |
| SessionProperties.SourceKeySendsOnChange | network_tester/commands.py:313-322 | on an open session, `source_key` sends nothing exactly when the channel is invalid or its stored key equals the masked new key |
| SessionProperties.SinkKeySendsOnChange | network_tester/commands.py:345-354 | on an open session, `sink_key` sends nothing exactly when the channel is invalid or its stored key equals the masked new key |
| SessionProperties.PayloadSendsOnChange | network_tester/commands.py:324-333 | on an open session, `payload` sends nothing exactly when the channel is invalid or its stored flag equals the new one |
| SessionProperties.ConsumeSendsOnChange | network_tester/commands.py:335-343 | on an open session, `consume` sends nothing exactly when the mode equals the stored one |
| SessionProperties.NumOnce | network_tester/commands.py:187-207 | `num` sends the counts word, sizes every per-channel list with its default, and a second `num` raises |
| SessionProperties.ChannelGuard | network_tester/commands.py:313-322 | `source_key` succeeds exactly for indices in `[-n, n)`; a sent word carries the opcode and the given index, followed by the masked key |
| CommandStream.Commands.constructor | network_tester/commands.py:46-89 | a new encoder holds the initial state |
| CommandStream.Commands.Size | network_tester/commands.py:92-98 | `size` exists only after `exit` and is four bytes per command plus the prefix, the length of the packed stream |
| CommandStream.Commands.Pack | network_tester/commands.py:101-106 | `pack` exists only after `exit`; it succeeds exactly when the prefix and every word fit 32 bits; its length is `size`, and it decodes to the prefix followed by the commands |
| CommandStream.Commands.Exit | network_tester/commands.py:109-113 | updates the fields as `Session.Exit` says |
| CommandStream.Commands.Sleep | network_tester/commands.py:116-121 | updates the fields as `Session.Sleep` says |
| CommandStream.Commands.Barrier | network_tester/commands.py:124-127 | updates the fields as `Session.Barrier` says |
| CommandStream.Commands.Seed | network_tester/commands.py:130-150 | updates the fields as `Session.Seed` says |
| CommandStream.Commands.Timestep | network_tester/commands.py:152-177 | updates the fields as `Session.Timestep` says |
| CommandStream.Commands.RederiveRecordInterval | network_tester/commands.py:166-170 | updates the fields as `Session.RederiveRecordInterval` says |
| CommandStream.Commands.RederiveBurst | network_tester/commands.py:172-177 | updates the fields as `Session.RederiveBurst` says |
| CommandStream.Commands.Run | network_tester/commands.py:179-185 | updates the fields as `Session.Run` says |
| CommandStream.Commands.Num | network_tester/commands.py:187-207 | updates the fields as `Session.Num` says |
| CommandStream.Commands.Record | network_tester/commands.py:210-225 | ORs the counters in a loop and updates the fields as `Session.Record` says for that mask |
| CommandStream.Commands.RecordInterval | network_tester/commands.py:228-243 | updates the fields as `Session.RecordInterval` says |
| CommandStream.Commands.Probability | network_tester/commands.py:245-259 | updates the fields as `Session.Probability` says |
| CommandStream.Commands.Burst | network_tester/commands.py:261-311 | updates the fields as `Session.Burst` says |
| CommandStream.Commands.SourceKey | network_tester/commands.py:313-322 | updates the fields as `Session.SourceKey` says |
| CommandStream.Commands.Payload | network_tester/commands.py:324-333 | updates the fields as `Session.Payload` says |
| CommandStream.Commands.Consume | network_tester/commands.py:335-343 | updates the fields as `Session.Consume` says |
| CommandStream.Commands.SinkKey | network_tester/commands.py:345-354 | updates the fields as `Session.SinkKey` says |
| NetworkApplication.RecordByName | network_tester/application.py:210-227 | `record(**counters)` raises `UnknownCounter` exactly when a name is not a `RecordBits` member, and then changes nothing; otherwise it records the mask of the enabled members |
| NetworkApplication.RecordByNameSendsOnChange | network_tester/application.py:210-227 | on an open session, `record(**counters)` sends nothing exactly when a name is unknown or the mask of the enabled members equals the one recorded |
| NetworkApplication.NextName | network_tester/application.py:36-58 | the loop meets every member's name for the first time |
| NetworkApplication.PopStep | network_tester/application.py:220-222 | popping a member's name reads the caller's value for it and leaves only the names not yet met |
| NetworkApplication.MaskOfStep | network_tester/application.py:220-222 | one more member adds its bit exactly when it is enabled |
| NetworkApplication.LeftoverNames | network_tester/application.py:223 | the names left after the loop are empty exactly when every name is a member |
| NetworkApplication.NamedMask | network_tester/application.py:219-223 | the loop computes the mask of the enabled members and reports exactly whether an unknown name was passed |
| NetworkApplication.MaskOfTestBit | network_tester/application.py:219-222 | a mask bit is set exactly when an enabled member sits at that position |
| NetworkApplication.RecordMaskBit | network_tester/application.py:219-222 | each member's bit is set exactly when that member is enabled |
| NetworkApplication.RecordMaskDecomposes | network_tester/application.py:219-222 | two calls give the same mask exactly when they enable the same members |
| NetworkApplication.MaskOfBelow | network_tester/application.py:219-222 | a mask built from positions below `n` is below `1 << n` |
| NetworkApplication.RecordMaskFitsWord | network_tester/application.py:36-58 | every mask is below `1 << 25`, so it fits the operand word |
| NetworkApplication.RecordBitsDistinct | network_tester/application.py:36-58 | the members have distinct names and distinct bits |
| NetworkApplication.RecordBitPositions | network_tester/application.py:36-58 | members 0 to 17 sit at their own bit; `received` sits at bit 24 |
| NetworkApplication.RecordBitNames | network_tester/application.py:36-58 | the member names are pairwise distinct |
| NetworkApplication.Application.constructor | network_tester/application.py:64-106 | a new application holds the initial state |
| NetworkApplication.Application.Exit | network_tester/application.py:109-113 | updates the fields as `Session.Exit` says |
| NetworkApplication.Application.Sleep | network_tester/application.py:116-121 | updates the fields as `Session.Sleep` says |
| NetworkApplication.Application.Barrier | network_tester/application.py:124-127 | updates the fields as `Session.Barrier` says |
| NetworkApplication.Application.Seed | network_tester/application.py:130-150 | updates the fields as `Session.Seed` says |
| NetworkApplication.Application.Timestep | network_tester/application.py:152-177 | updates the fields as `Session.Timestep` says |
| NetworkApplication.Application.Run | network_tester/application.py:179-185 | updates the fields as `Session.Run` says |
| NetworkApplication.Application.Num | network_tester/application.py:187-207 | updates the fields as `Session.Num` says |
| NetworkApplication.Application.Record | network_tester/application.py:210-227 | updates the fields as `RecordByName` says |
| NetworkApplication.Application.RecordInterval | network_tester/application.py:230-245 | updates the fields as `Session.RecordInterval` says |
| NetworkApplication.Application.Probability | network_tester/application.py:247-261 | updates the fields as `Session.Probability` says |
| NetworkApplication.Application.Burst | network_tester/application.py:263-313 | updates the fields as `Session.Burst` says |
| NetworkApplication.Application.SourceKey | network_tester/application.py:315-324 | updates the fields as `Session.SourceKey` says |
| NetworkApplication.Application.Payload | network_tester/application.py:326-335 | updates the fields as `Session.Payload` says |
| NetworkApplication.Application.Consume | network_tester/application.py:337-345 | updates the fields as `Session.Consume` says |
| NetworkApplication.Application.SinkKey | network_tester/application.py:347-356 | updates the fields as `Session.SinkKey` says |
| CommandScenarios.ExitedOnlyOnce | tests/test_commands.py:12-20 | `exit` adds `EXIT` once; a second `exit` raises |
| CommandScenarios.SleepAndBarrier | tests/test_commands.py:23-34 | `sleep` sends microseconds and `barrier` a bare word, each on every call |
| CommandScenarios.Seeding | tests/test_commands.py:37-70 | a random seed is sent once, an explicit seed every time, and `seed()` after it draws again |
| CommandScenarios.TimestepChanges | tests/test_commands.py:73-86 | a timestep is sent in nanoseconds, only when it changes |
| CommandScenarios.RunInTicks | tests/test_commands.py:89-94 | `run` is sent in ticks of the timestep |
| CommandScenarios.NumOnce | tests/test_commands.py:97-105 | `num` packs both counts into one word and cannot be repeated |
| CommandScenarios.RecordCounters | tests/test_commands.py:108-123 | the mask is the OR of the counters, sent only on a change |
| CommandScenarios.RecordIntervalInTicks | tests/test_commands.py:126-149 | the interval is sent in ticks, only when it changes |
| CommandScenarios.RecordIntervalFollowsTimestep | tests/test_commands.py:126-154 | a new timestep sends the interval again in the new ticks |
| CommandScenarios.ProbabilityOnChange | tests/test_commands.py:157-182 | probabilities are sent in 32-bit fixed point per source, only on a change |
| CommandScenarios.ProbabilityExtremes | tests/test_commands.py:184-190 | 0 and 1 are sent as 0 and 0xFFFFFFFF |
| CommandScenarios.SourceKeys | tests/test_commands.py:250-276 | source keys are sent masked, and a change in the low byte sends nothing |
| CommandScenarios.SinkKeys | tests/test_commands.py:336-362 | sink keys are sent masked with the sink number, and a change in the low byte sends nothing |
| CommandScenarios.PayloadOnChange | tests/test_commands.py:279-302 | a payload flag is sent as `PAYLOAD` with the source number, only on a change |
| CommandScenarios.PayloadChangedBack | tests/test_commands.py:279-310 | turning the flag off sends `NO_PAYLOAD` with the source number |
| CommandScenarios.Consuming | tests/test_commands.py:313-333 | `consume` sends `NO_CONSUME` or `CONSUME` only on a change |
| CommandScenarios.BurstStaysDisabled | tests/test_commands.py:198-204 | a zero period sends nothing while it stays zero |
| CommandScenarios.BurstPeriodChanges | tests/test_commands.py:206-218 | a new period sends period, duty and phase in ticks |
| CommandScenarios.BurstPartsChange | tests/test_commands.py:220-231 | with the period unchanged only a changed duty or phase is sent |
| CommandScenarios.BurstFollowsTimestep | tests/test_commands.py:233-238 | a new timestep sends the whole burst triple again in the new ticks |
| CommandScenarios.RandomPhaseResent | tests/test_commands.py:240-247 | a random phase is drawn and sent on every call |
| CommandScenarios.UnchangedRandomBurst | tests/test_commands.py:240-247 | repeating a random-phase burst sends only the new phase |
| CommandScenarios.SizeAndPack | tests/test_commands.py:365-385 | a session with `num(0, 0)` and `exit` has size 16 and packs to the prefix 12, then `NUM 0` and `EXIT` |
| CommandScenarios.ProbabilityOverflowBreaksPack | network_tester/commands.py:245-259 | after `num(1, 0)`, `probability(0, 1 - 2**-33)` and `exit`, the list holds `2**32`, and `pack` fails with `WordOutOfRange` |

## Left out

- Floating point: seconds, probabilities and fractions are exact reals. The
  rounding of `seconds * 1e9`, `interval / timestep` and `p * 2**32` in IEEE
  doubles is not modelled. A value that Python computes as a hair below an
  integer is exact here.
- Python 2's `round` (half away from zero) is not modelled; `Round` is
  Python 3's half-to-even rule.
- `Commands.pack(format)`: only the default little-endian format `<` is
  modelled. Other byte orders and an invalid format string are left out.
- The counters passed to `Commands.record(*counters)` are modelled as
  non-negative integers (the members of the `Counters` enumeration). A
  negative value or a value of another type is left out. The `Counters`
  module itself is not part of this model.
- The counts given to `num` are natural numbers. A negative count, which
  Python turns into empty lists and a negative OR, is left out.
- `random.getrandbits(32)` and `random.random()` are parameters (`drawn`).
  Each lies in the range its generator produces.
- Before `num`, the per-channel lists are `None` in the source. They are
  empty sequences here, and every index raises `NoChannels`. An index of
  the wrong type is left out.
- Values of the wrong type, such as a string duration or a `None` timestep
  given to `timestep`, are left out. A missing timestep is modelled only as
  the initial `None`.
- A method with a name ending in `Part`, `SizeSources`, `SizeSinks`,
  `RederiveRecordInterval` and `RederiveBurst` carry out one step of a
  setter in a method of its own. The source does these steps inline.
  Calling them keeps the same order of field updates.
- `Conversions.EncodeProbability`, the clamped encoding, is proved on its
  own. No setter uses it, because the encoder follows the code as written
  (see Findings).

## Findings

| source | as written | input that shows it | evidently intended | confidence | as-written member | corrected member |
|---|---|---|---|---|---|---|
| network_tester/commands.py:253-257 (also network_tester/application.py:255-259) | any probability other than exactly 1.0 is rounded from `p * 2**32` with no upper clamp | `p = 1 - 2**-33` gives `2**32`, which does not fit the unsigned 32-bit operand, so `pack` fails | every probability in `[0, 1]` maps into `[0, 0xFFFFFFFF]` | not executed | CommandScenarios.ProbabilityOverflowBreaksPack | Conversions.EncodeProbability |
