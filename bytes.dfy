/** Host-side value types shared by the renderer: bytes, 32-bit unsigned
    words (`unsigned int`, `GLuint`), `glm::uvec2`, and the little-endian
    byte layout in which arrays of words are handed to the driver. */
module HostTypes {

  newtype byte = x: int | 0 <= x < 0x100
  newtype uint32 = x: int | 0 <= x < 0x1_0000_0000

  /** glm::uvec2 */
  datatype UVec2 = UVec2(x: uint32, y: uint32)

  /** The four bytes (sizeof(unsigned int)) of a word, least significant first. */
  function WordBytes(w: uint32): (b: seq<byte>)
    ensures |b| == 4
  {
    var n := w as int;
    [(n % 0x100) as byte, (n / 0x100 % 0x100) as byte,
     (n / 0x1_0000 % 0x100) as byte, (n / 0x100_0000) as byte]
  }

  /** The word whose little-endian bytes are the first four of `b`. */
  function WordAt(b: seq<byte>): uint32
    requires |b| >= 4
  {
    (b[0] as int + 0x100 * b[1] as int + 0x1_0000 * b[2] as int + 0x100_0000 * b[3] as int) as uint32
  }

  lemma WordRoundTrip(w: uint32)
    ensures WordAt(WordBytes(w)) == w
  {
    var n := w as int;
    var q1, q2, q3 := n / 0x100, n / 0x1_0000, n / 0x100_0000;
    assert q2 == q1 / 0x100;
    assert q3 == q2 / 0x100;
    assert n == n % 0x100 + 0x100 * q1;
    assert q1 == q1 % 0x100 + 0x100 * q2;
    assert q2 == q2 % 0x100 + 0x100 * q3;
  }

  /** The bytes of a C array of words, as `memcpy` and `glBufferData` see
      it: byte k is byte k % 4 of word k / 4. */
  function Words(ws: seq<uint32>): (b: seq<byte>)
    ensures |b| == 4 * |ws|
  {
    seq(4 * |ws|, k requires 0 <= k < 4 * |ws| => WordBytes(ws[k / 4])[k % 4])
  }

  /** Reads words back from a byte store; a trailing partial word is ignored. */
  function ReadWords(b: seq<byte>): seq<uint32>
    decreases |b|
  {
    if |b| < 4 then [] else [WordAt(b)] + ReadWords(b[4..])
  }

  /** The bytes of a non-empty word array are those of its first word
      followed by those of the rest. */
  lemma WordsCons(ws: seq<uint32>)
    requires ws != []
    ensures Words(ws) == WordBytes(ws[0]) + Words(ws[1..])
  {
    var b, head, tail := Words(ws), WordBytes(ws[0]), Words(ws[1..]);
    forall k | 0 <= k < |b|
      ensures b[k] == (head + tail)[k]
    {
      if k >= 4 {
        assert (k - 4) / 4 == k / 4 - 1 && (k - 4) % 4 == k % 4;
        assert ws[1..][(k - 4) / 4] == ws[k / 4];
      }
    }
  }

  /** Uploading a word array and reading the store back yields the array. */
  lemma {:induction false} WordsRoundTrip(ws: seq<uint32>)
    ensures ReadWords(Words(ws)) == ws
  {
    if ws != [] {
      var head, tail := WordBytes(ws[0]), Words(ws[1..]);
      WordsCons(ws);
      assert (head + tail)[..4] == head;
      assert (head + tail)[4..] == tail;
      WordRoundTrip(ws[0]);
      WordsRoundTrip(ws[1..]);
    }
  }

  /** The flat word layout of an array of uvec2: x then y for each element. */
  function PairWords(ps: seq<UVec2>): (ws: seq<uint32>)
    ensures |ws| == 2 * |ps|
  {
    seq(2 * |ps|, k requires 0 <= k < 2 * |ps| => if k % 2 == 0 then ps[k / 2].x else ps[k / 2].y)
  }

  /** Reassembles uvec2 values from a flat word sequence. */
  function ReadPairs(ws: seq<uint32>): seq<UVec2>
    decreases |ws|
  {
    if |ws| < 2 then [] else [UVec2(ws[0], ws[1])] + ReadPairs(ws[2..])
  }

  lemma PairWordsCons(ps: seq<UVec2>)
    requires ps != []
    ensures PairWords(ps) == [ps[0].x, ps[0].y] + PairWords(ps[1..])
  {
    var ws, rest := PairWords(ps), PairWords(ps[1..]);
    forall k | 0 <= k < |ws|
      ensures ws[k] == ([ps[0].x, ps[0].y] + rest)[k]
    {
      if k >= 2 {
        assert (k - 2) / 2 == k / 2 - 1 && (k - 2) % 2 == k % 2;
        assert ps[1..][(k - 2) / 2] == ps[k / 2];
      }
    }
  }

  lemma {:induction false} PairWordsRoundTrip(ps: seq<UVec2>)
    ensures ReadPairs(PairWords(ps)) == ps
  {
    if ps != [] {
      var rest := PairWords(ps[1..]);
      PairWordsCons(ps);
      assert ([ps[0].x, ps[0].y] + rest)[2..] == rest;
      PairWordsRoundTrip(ps[1..]);
    }
  }
}
