/** The network tester's command identifiers (`NT_CMD`) and the layout of a
    per-channel command word: opcode in the low byte, channel number above it. */
module Opcodes {
  import opened Bits

  const EXIT: nat := 0x00
  const SLEEP: nat := 0x01
  const BARRIER: nat := 0x02
  const SEED: nat := 0x03
  const TIMESTEP: nat := 0x04
  const RUN: nat := 0x05
  const NUM: nat := 0x06

  const RECORD: nat := 0x10
  const RECORD_INTERVAL: nat := 0x11

  const PROBABILITY: nat := 0x20
  const BURST_PERIOD: nat := 0x21
  const BURST_DUTY: nat := 0x22
  const BURST_PHASE: nat := 0x23
  const SOURCE_KEY: nat := 0x24
  const PAYLOAD: nat := 0x25
  const NO_PAYLOAD: nat := 0x26

  const CONSUME: nat := 0x30
  const NO_CONSUME: nat := 0x31
  const SINK_KEY: nat := 0x32

  /** `op | (index << 8)` with Python's unbounded integers. For `0 <= op < 256`
      the low byte of `index << 8` is zero, so the OR is an addition, for a
      negative `index` too; the word gives back both the opcode and the index. */
  function ChannelWord(op: nat, index: int): (w: int)
    requires op < 256
    ensures w % 256 == op && w / 256 == index
    ensures index >= 0 ==> w >= 0
  {
    op + index * 256
  }

  /** For a non-negative index the channel word is literally the bitwise OR. */
  lemma ChannelWordIsOr(op: nat, index: nat)
    requires op < 256
    ensures ChannelWord(op, index) == Or(op, index * 256)
  {
    assert Pow2(8) == 256;
    OrDisjointIsAdd(op, index, 8);
  }

  /** The `NUM` operand `num_sources | (num_sinks << 8)`. There is no bound on
      either count, so the two fields overlap once `num_sources >= 256`. */
  function CountsWord(numSources: nat, numSinks: nat): (w: nat)
    ensures numSources < 256 ==> w % 256 == numSources && w / 256 == numSinks
    ensures numSources <= w
  {
    CountsWordBounds(numSources, numSinks);
    Or(numSources, numSinks * 256)
  }

  lemma CountsWordBounds(numSources: nat, numSinks: nat)
    ensures numSources < 256 ==> Or(numSources, numSinks * 256) == numSources + 256 * numSinks
    ensures numSources <= Or(numSources, numSinks * 256)
  {
    OrAtLeastLeft(numSources, numSinks * 256);
    if numSources < 256 {
      assert Pow2(8) == 256;
      OrDisjointIsAdd(numSources, numSinks, 8);
    }
  }

  lemma {:induction false} OrAtLeastLeft(a: nat, b: nat)
    ensures a <= Or(a, b)
    decreases a + b
  {
    if a != 0 && b != 0 {
      OrAtLeastLeft(a / 2, b / 2);
    }
  }
}
