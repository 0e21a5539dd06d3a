/** The packed command stream: `struct.pack("<{n+1}I", 4 * n, *words)`, a
    little-endian unsigned 32-bit length prefix giving the byte length of the
    words that follow, then each word little-endian in four bytes. */
module Wire {
  import opened Status

  type Byte = b: int | 0 <= b < 256

  const WordLimit: int := 0x1_0000_0000

  /** The format character `I` only accepts unsigned 32-bit values. */
  predicate IsWord(w: int)
  {
    0 <= w < WordLimit
  }

  predicate AllWords(ws: seq<int>)
  {
    forall i :: 0 <= i < |ws| ==> IsWord(ws[i])
  }

  /** The value of four little-endian bytes. */
  function WordValue(b0: Byte, b1: Byte, b2: Byte, b3: Byte): int
  {
    b0 + 256 * b1 + 65536 * b2 + 16777216 * b3
  }

  /** One word as four little-endian bytes. */
  function WordBytes(w: int): (bs: seq<Byte>)
    requires IsWord(w)
    ensures |bs| == 4 && WordValue(bs[0], bs[1], bs[2], bs[3]) == w
  {
    WordBytesValue(w);
    [w % 256, (w / 256) % 256, (w / 65536) % 256, w / 16777216]
  }

  /** The four bytes of a word add back up to the word. */
  lemma WordBytesValue(w: int)
    requires IsWord(w)
    ensures w / 16777216 < 256
    ensures w % 256 + 256 * ((w / 256) % 256) + 65536 * ((w / 65536) % 256) + 16777216 * (w / 16777216) == w
  {
    var q1 := w / 256;
    var q2 := q1 / 256;
    var q3 := q2 / 256;
    assert w == w % 256 + 256 * q1;
    assert q1 == q1 % 256 + 256 * q2;
    assert q2 == q2 % 256 + 256 * q3;
    assert w / 65536 == q2;
    assert w / 16777216 == q3;
  }

  function EncodeWords(ws: seq<int>): (bs: seq<Byte>)
    requires AllWords(ws)
    ensures |bs| == 4 * |ws|
  {
    if ws == [] then [] else WordBytes(ws[0]) + EncodeWords(ws[1..])
  }

  /** Reads a byte string back as little-endian 32-bit words. */
  function DecodeWords(bs: seq<Byte>): (ws: seq<int>)
    requires |bs| % 4 == 0
    decreases |bs|
  {
    if bs == [] then [] else [WordValue(bs[0], bs[1], bs[2], bs[3])] + DecodeWords(bs[4..])
  }

  /** Decoding the encoded words gives the words back. */
  lemma {:induction false} DecodeEncodeWords(ws: seq<int>)
    requires AllWords(ws)
    ensures DecodeWords(EncodeWords(ws)) == ws
    decreases |ws|
  {
    if ws != [] {
      var bs := EncodeWords(ws);
      var head := WordBytes(ws[0]);
      assert bs == head + EncodeWords(ws[1..]);
      assert bs[..4] == head;
      assert bs[4..] == EncodeWords(ws[1..]);
      DecodeEncodeWords(ws[1..]);
    }
  }

  /** The whole packed stream, or the `struct.error` raised for a word that is
      negative or does not fit 32 bits. */
  function Pack(ws: seq<int>): (r: Result<seq<Byte>>)
    ensures r.Ok? <==> IsWord(4 * |ws|) && AllWords(ws)
    ensures r.Err? ==> r.error == WordOutOfRange
    ensures r.Ok? ==> |r.value| == 4 * (|ws| + 1)
    ensures r.Ok? ==> DecodeWords(r.value) == [4 * |ws|] + ws
  {
    if IsWord(4 * |ws|) && AllWords(ws) then
      var all := [4 * |ws|] + ws;
      assert AllWords(all);
      assert EncodeWords(all) == WordBytes(4 * |ws|) + EncodeWords(ws) by {
        assert all[1..] == ws;
      }
      DecodeEncodeWords(all);
      Ok(WordBytes(4 * |ws|) + EncodeWords(ws))
    else
      Err(WordOutOfRange)
  }

  /** Three words below 256 pack to the prefix 12 and then one low byte and
      three zero bytes per word. */
  lemma PackSmallWords(a: int, b: int, c: int)
    requires 0 <= a < 256 && 0 <= b < 256 && 0 <= c < 256
    ensures Pack([a, b, c]) == Ok([12, 0, 0, 0, a, 0, 0, 0, b, 0, 0, 0, c, 0, 0, 0])
  {
    EncodeFront(c, []);
    EncodeFront(b, [c]);
    EncodeFront(a, [b, c]);
    SmallWordBytes(a);
    SmallWordBytes(b);
    SmallWordBytes(c);
    SmallWordBytes(12);
    assert EncodeWords([c]) == [c, 0, 0, 0];
    assert EncodeWords([b, c]) == [b, 0, 0, 0] + [c, 0, 0, 0];
    assert [a] + [b, c] == [a, b, c] && [b] + [c] == [b, c] && [c] + [] == [c];
    assert EncodeWords([a, b, c]) == [a, 0, 0, 0] + [b, 0, 0, 0] + [c, 0, 0, 0];
    assert AllWords([a, b, c]);
    assert Pack([a, b, c]) == Ok(WordBytes(12) + EncodeWords([a, b, c]));
    assert [12, 0, 0, 0] + ([a, 0, 0, 0] + [b, 0, 0, 0] + [c, 0, 0, 0])
        == [12, 0, 0, 0, a, 0, 0, 0, b, 0, 0, 0, c, 0, 0, 0];
  }

  lemma EncodeFront(w: int, ws: seq<int>)
    requires IsWord(w) && AllWords(ws)
    ensures AllWords([w] + ws)
    ensures EncodeWords([w] + ws) == WordBytes(w) + EncodeWords(ws)
  {
    assert ([w] + ws)[1..] == ws;
  }

  /** A word below 256 is its own low byte followed by three zero bytes. */
  lemma SmallWordBytes(w: int)
    requires 0 <= w < 256
    ensures WordBytes(w) == [w, 0, 0, 0]
  {
    assert w % 256 == w && w / 256 == 0 && w / 65536 == 0 && w / 16777216 == 0;
  }
}
