/** The format of a batch of chunks on the wire: each chunk after its size, four bytes
    in the machine's (little-endian) order. */
module Framing {
  import opened Data
  import opened Sequences
  import opened Options

  const SIZE_BYTES: nat := 4
  const RECIPE_HEAD_BYTES: nat := 16

  /** `sizeof(Chunk_t)`: a size and the array of data. */
  const CHUNK_STRUCT: nat := SIZE_BYTES + MAX_CHUNK_SIZE

  function Power256(k: nat): (r: nat)
    ensures r > 0
  {
    if k == 0 then 1 else 256 * Power256(k - 1)
  }

  /** The `k` low bytes of `n`, least significant first. */
  function Encode(n: nat, k: nat): (s: seq<Byte>)
    ensures |s| == k
  {
    if k == 0 then [] else [n % 256] + Encode(n / 256, k - 1)
  }

  /** The number in `s[at..at + k]`. */
  function Decode(s: seq<Byte>, at: nat, k: nat): nat
    requires at + k <= |s|
    decreases k
  {
    if k == 0 then 0 else s[at] + 256 * Decode(s, at + 1, k - 1)
  }

  function Framed(c: seq<Byte>): seq<Byte> { Encode(|c|, SIZE_BYTES) + c }

  function Frame(chunks: seq<seq<Byte>>): seq<Byte> {
    if chunks == [] then [] else Framed(chunks[0]) + Frame(chunks[1..])
  }

  /** The receiver's loop: `n` chunks from position `at` on. */
  function Unframe(s: seq<Byte>, at: nat, n: nat): Option<seq<seq<Byte>>>
    decreases n
  {
    if n == 0 then Some([])
    else if at + SIZE_BYTES > |s| then None
    else
      var from, size := at + SIZE_BYTES, Decode(s, at, SIZE_BYTES);
      if from + size > |s| then None
      else
        var rest := Unframe(s, from + size, n - 1);
        if rest.None? then None else Some([s[from..from + size]] + rest.value)
  }

  // ---- round trips -------------------------------------------------------

  lemma {:induction false} DecodeEncode(s: seq<Byte>, at: nat, n: nat, k: nat)
    requires Holds(s, at, Encode(n, k)) && n < Power256(k)
    ensures Decode(s, at, k) == n
    decreases k
  {
    if k > 0 {
      var t := Encode(n / 256, k - 1);
      assert Encode(n, k) == [n % 256] + t;
      assert Encode(n, k)[0] == n % 256;
      forall i | 0 <= i < |t| ensures s[at + 1 + i] == t[i] { assert Encode(n, k)[i + 1] == t[i]; }
      DecodeEncode(s, at + 1, n / 256, k - 1);
    }
  }

  predicate Fits(chunks: seq<seq<Byte>>) {
    forall i :: 0 <= i < |chunks| ==> |chunks[i]| <= MAX_CHUNK_SIZE
  }

  lemma FramedHolds(s: seq<Byte>, at: nat, c: seq<Byte>)
    requires Holds(s, at, Framed(c)) && |c| <= MAX_CHUNK_SIZE
    ensures Decode(s, at, SIZE_BYTES) == |c|
    ensures s[at + SIZE_BYTES..at + SIZE_BYTES + |c|] == c
  {
    var e := Encode(|c|, SIZE_BYTES);
    forall i | 0 <= i < |e| ensures s[at + i] == e[i] { assert Framed(c)[i] == e[i]; }
    assert Power256(4) == 0x1_0000_0000;
    DecodeEncode(s, at, |c|, SIZE_BYTES);
    forall i | 0 <= i < |c| ensures s[at + SIZE_BYTES + i] == c[i] { assert Framed(c)[SIZE_BYTES + i] == c[i]; }
  }

  lemma UnframeOne(s: seq<Byte>, at: nat, c: seq<Byte>, rest: seq<seq<Byte>>)
    requires Holds(s, at, Framed(c)) && |c| <= MAX_CHUNK_SIZE
    requires Unframe(s, at + |Framed(c)|, |rest|) == Some(rest)
    ensures Unframe(s, at, |rest| + 1) == Some([c] + rest)
  {
    FramedHolds(s, at, c);
  }

  lemma {:induction false} UnframeFrom(s: seq<Byte>, at: nat, chunks: seq<seq<Byte>>)
    requires Holds(s, at, Frame(chunks)) && Fits(chunks)
    ensures Unframe(s, at, |chunks|) == Some(chunks)
    decreases |chunks|
  {
    if chunks != [] {
      var c, rest := chunks[0], chunks[1..];
      HoldsPart(s, at, Framed(c), Frame(rest));
      UnframeFrom(s, at + |Framed(c)|, rest);
      UnframeOne(s, at, c, rest);
      assert chunks == [c] + rest;
    }
  }

  /** Unframing what was framed gives the chunks back. */
  lemma UnframeFrame(chunks: seq<seq<Byte>>)
    requires Fits(chunks)
    ensures Unframe(Frame(chunks), 0, |chunks|) == Some(chunks)
  {
    UnframeFrom(Frame(chunks), 0, chunks);
  }

  lemma {:induction false} FrameAppend(chunks: seq<seq<Byte>>, c: seq<Byte>)
    ensures Frame(chunks + [c]) == Frame(chunks) + Framed(c)
    decreases |chunks|
  {
    if chunks == [] {
      assert ([] + [c])[1..] == [];
    } else {
      FrameAppend(chunks[1..], c);
      assert (chunks + [c])[1..] == chunks[1..] + [c];
    }
  }

  lemma {:induction false} FrameLength(chunks: seq<seq<Byte>>)
    requires Fits(chunks)
    ensures |Frame(chunks)| <= |chunks| * CHUNK_STRUCT
  {
    if chunks != [] { FrameLength(chunks[1..]); }
  }

  /** `FileRecipeHead_t`: the file size and the number of chunks, eight bytes each. */
  function FrameRecipe(totalChunkNum: nat, fileSize: nat): (s: seq<Byte>)
    ensures |s| == RECIPE_HEAD_BYTES
  {
    Encode(fileSize, 8) + Encode(totalChunkNum, 8)
  }

  lemma RecipeRoundTrip(totalChunkNum: nat, fileSize: nat)
    requires totalChunkNum < Power256(8) && fileSize < Power256(8)
    ensures var s := FrameRecipe(totalChunkNum, fileSize);
            Decode(s, 0, 8) == fileSize && Decode(s, 8, 8) == totalChunkNum
  {
    var s := FrameRecipe(totalChunkNum, fileSize);
    HoldsPart(s, 0, Encode(fileSize, 8), Encode(totalChunkNum, 8));
    DecodeEncode(s, 0, fileSize, 8);
    DecodeEncode(s, 8, totalChunkNum, 8);
  }
}
