/** Unit conversions performed by the encoder: Python's `int(x)` (truncation
    toward zero), `round(x)` (nearest integer, ties to even), key masking and
    the fixed-point probability encoding. Seconds are exact reals here. */
module Conversions {

  /** `int(x)` for a float `x`: truncation toward zero. */
  function Truncate(x: real): (r: int)
    ensures 0.0 <= x ==> r as real <= x < r as real + 1.0
    ensures x < 0.0 ==> r as real - 1.0 < x <= r as real
  {
    if x >= 0.0 then x.Floor else -((-x).Floor)
  }

  /** `r` is a nearest integer to `x`, and the even one on a tie. */
  ghost predicate NearestEven(x: real, r: int)
  {
    && x - 0.5 <= r as real <= x + 0.5
    && ((r as real == x - 0.5 || r as real == x + 0.5) ==> r % 2 == 0)
  }

  /** `round(x)` (Python 3): round half to even. */
  function Round(x: real): (r: int)
    ensures NearestEven(x, r)
  {
    var f := x.Floor;
    var d := x - f as real;
    if d < 0.5 then f
    else if d > 0.5 then f + 1
    else if f % 2 == 0 then f
    else f + 1
  }

  /** The rounding specification has exactly one solution. */
  lemma RoundIsUnique(x: real, r: int)
    requires NearestEven(x, r)
    ensures r == Round(x)
  {
  }

  /** Rounding never reverses the order of two values. */
  lemma RoundMonotone(x: real, y: real)
    requires x <= y
    ensures Round(x) <= Round(y)
  {
  }

  /** Rounding an integral value gives it back. */
  lemma RoundOfInteger(n: int)
    ensures Round(n as real) == n
  {
    RoundIsUnique(n as real, n);
  }

  /** Whole microseconds in `seconds`: `int(seconds * 1e6)`. */
  function Micros(seconds: real): (r: int)
    ensures 0.0 <= seconds ==> 0 <= r && r as real <= seconds * 1e6 < r as real + 1.0
  {
    Truncate(seconds * 1e6)
  }

  /** Whole nanoseconds in `seconds`: `int(seconds * 1e9)`. */
  function Nanos(seconds: real): (r: int)
    ensures 0.0 <= seconds ==> 0 <= r && r as real <= seconds * 1e9 < r as real + 1.0
  {
    Truncate(seconds * 1e9)
  }

  /** `key & ~0xFF` on Python's two's-complement integers: the low 8 bits cleared. */
  function MaskKey(key: int): (r: int)
    ensures r % 256 == 0 && r <= key < r + 256
  {
    key - key % 256
  }

  /** Two keys mask to the same value exactly when they agree above the low byte. */
  lemma MaskKeyEqual(a: int, b: int)
    ensures MaskKey(a) == MaskKey(b) <==> a / 256 == b / 256
  {
    assert MaskKey(a) == 256 * (a / 256);
    assert MaskKey(b) == 256 * (b / 256);
  }

  const MaxWord: int := 0xFFFF_FFFF

  /** The probability operand exactly as the source computes it:
      `0xFFFFFFFF` for `1.0`, otherwise `int(round(p * (1 << 32)))`. */
  function EncodeProbabilityAsWritten(p: real): int
  {
    if p == 1.0 then MaxWord else Round(p * 4294967296.0)
  }

  /** A probability just below one, `1 - 2**-33`, is encoded as `2**32`, which
      does not fit the 32-bit operand word (`pack` then fails). */
  lemma ProbabilityJustBelowOneOverflows()
    ensures EncodeProbabilityAsWritten(1.0 - 1.0 / 8589934592.0) == MaxWord + 1
  {
    var p := 1.0 - 1.0 / 8589934592.0;
    assert p * 4294967296.0 == 4294967295.5;
    RoundIsUnique(4294967295.5, 4294967296);
  }

  /** The probability operand with the 32-bit clamp the encoder evidently
      intends: every probability in `[0, 1]` becomes a word in `[0, 0xFFFFFFFF]`. */
  function EncodeProbability(p: real): (r: int)
    ensures 0.0 <= p <= 1.0 ==> 0 <= r <= MaxWord
    ensures p == 1.0 ==> r == MaxWord
    ensures r == EncodeProbabilityAsWritten(p) || (EncodeProbabilityAsWritten(p) > MaxWord && r == MaxWord)
  {
    var w := EncodeProbabilityAsWritten(p);
    if w > MaxWord then MaxWord else w
  }

  /** The clamped encoding preserves the order of probabilities. */
  lemma EncodeProbabilityMonotone(p: real, q: real)
    requires 0.0 <= p <= q <= 1.0
    ensures EncodeProbability(p) <= EncodeProbability(q)
  {
    if q != 1.0 {
      RoundMonotone(p * 4294967296.0, q * 4294967296.0);
    }
  }

  /** The as-written encoding leaves the 32-bit range exactly for the
      probabilities from `1 - 2**-33` up to, but not including, one, and then
      only by one: `p * 2**32` rounds up to `2**32` from `2**32 - 0.5` on, the
      tie going to the even `2**32`. */
  lemma ProbabilityOverflowRange(p: real)
    requires 0.0 <= p <= 1.0
    ensures 0 <= EncodeProbabilityAsWritten(p) <= MaxWord + 1
    ensures EncodeProbabilityAsWritten(p) > MaxWord <==> 1.0 - 1.0 / 8589934592.0 <= p < 1.0
  {
    if p != 1.0 {
      var x := p * 4294967296.0;
      var r := Round(x);
      assert x - 0.5 <= r as real <= x + 0.5;
      if x < 4294967295.5 {
        assert r as real < 4294967296.0;
      } else if x > 4294967295.5 {
        assert r as real > 4294967295.0;
      } else {
        assert r == MaxWord || r == MaxWord + 1;
        assert MaxWord % 2 == 1;
      }
      assert 1.0 - 1.0 / 8589934592.0 <= p <==> x >= 4294967295.5;
    }
  }

  /** The fixed points of the encoding, as written and clamped alike: none, a
      quarter, half and all of the 32-bit range. */
  lemma EncodeProbabilityPoints()
    ensures EncodeProbabilityAsWritten(0.0) == EncodeProbability(0.0) == 0
    ensures EncodeProbabilityAsWritten(0.25) == EncodeProbability(0.25) == 0x4000_0000
    ensures EncodeProbabilityAsWritten(0.5) == EncodeProbability(0.5) == 0x8000_0000
    ensures EncodeProbabilityAsWritten(1.0) == EncodeProbability(1.0) == MaxWord
  {
    RoundOfInteger(0);
    RoundOfInteger(0x4000_0000);
    RoundOfInteger(0x8000_0000);
  }
}
