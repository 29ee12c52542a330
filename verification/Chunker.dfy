/** Content-defined chunking (`FastCDC` and `CutPoint` in chunker.cc): the file is read
    through a buffer that is refilled from the last cut, and cut where the low bits of a
    rolling fingerprint are zero. */
module Chunker {
  import opened Data
  import opened Circular

  const WORD32: nat := 0x1_0000_0000

  /** `CompareLimit` and `DivCeil` of define.h. */
  function CompareLimit(input: nat, lower: nat, upper: nat): nat {
    if input <= lower then lower else if input >= upper then upper else input
  }

  function DivCeil(a: nat, b: nat): nat
    requires b > 0
  {
    if a % b == 0 then a / b else a / b + 1
  }

  function CalNormalSize(min: nat, av: nat, max: nat): (r: nat)
    ensures r <= max && r <= av
    ensures r > min <==> av > min + min + DivCeil(min, 2) && max > min
  {
    var off := min + DivCeil(min, 2);
    var diff := av - (if off > av then av else off);
    if diff > max then max else diff
  }

  /** `GenerateFastCDCMask`. */
  function Mask(bits: nat): nat { Pow2(CompareLimit(bits, 1, 31)) - 1 }

  datatype Params = Params(min: nat, max: nat, normal: nat, maskS: nat, maskL: nat, gear: seq<nat>)

  predicate ParamsOk(p: Params) {
    p.min < p.max <= MAX_CHUNK_SIZE && p.normal <= p.max && |p.gear| == 256
  }

  /** The masks of `ChunkerInit`; `bits` is the rounded logarithm of the average chunk size. */
  predicate MasksOf(p: Params, bits: nat) { bits > 0 && p.maskS == Mask(bits + 1) && p.maskL == Mask(bits - 1) }

  /** `ChunkerInit` checks the order of the sizes. If chunks also fit `Chunk_t`, the average is
      at least two and the buffer has at least one MB, all that `FastCDC` needs is given. */
  lemma SettingsSuffice(min: nat, av: nat, max: nat, bits: nat, gear: seq<nat>, readSize: nat)
    requires min < av < max && |gear| == 256
    requires max <= MAX_CHUNK_SIZE && bits > 0 && 1 <= readSize < 4096
    ensures var p := Params(min, max, CalNormalSize(min, av, max), Mask(bits + 1), Mask(bits - 1), gear);
            ParamsOk(p) && MasksOf(p, bits)
    ensures max <= readSize * 1024 * 1024 < WORD32
  {
  }

  function Least(a: nat, b: nat): nat { if a <= b then a else b }

  // ---- the pure chunker --------------------------------------------------

  /** The fingerprint after one more byte. */
  function Roll(p: Params, fp: nat, b: Byte): nat
    requires ParamsOk(p)
  {
    (fp / 2 + p.gear[b]) % WORD32
  }

  /** Whether the fingerprint after byte `i` allows a cut: the mask is larger before the
      normal size than after it. */
  predicate Cuts(p: Params, fp: nat, i: nat)
    requires ParamsOk(p)
  {
    And(fp, if i < p.normal then p.maskS else p.maskL) == 0
  }

  /** The first cut in `s[lo..hi]` from byte `i` of it on, given the fingerprint of the
      bytes before. */
  function FirstCut(p: Params, s: seq<Byte>, lo: nat, hi: nat, i: nat, fp: nat): (r: nat)
    requires ParamsOk(p) && lo <= hi <= |s| && i <= Least(p.max, hi - lo)
    ensures i <= r <= Least(p.max, hi - lo)
    ensures i < Least(p.max, hi - lo) ==> i < r
    decreases hi - lo - i
  {
    if i == Least(p.max, hi - lo) then i
    else var fp' := Roll(p, fp, s[lo + i]); if Cuts(p, fp', i) then i + 1 else FirstCut(p, s, lo, hi, i + 1, fp')
  }

  /** The size of the chunk at the start of `s[lo..hi]`. */
  function Cut(p: Params, s: seq<Byte>, lo: nat, hi: nat): (r: nat)
    requires ParamsOk(p) && lo <= hi <= |s|
    ensures r <= hi - lo && r <= p.max && (lo < hi ==> r > 0)
    ensures hi - lo > p.min ==> r > p.min
    ensures hi - lo <= p.min ==> r == hi - lo
  {
    FirstCut(p, s, lo, hi, Least(hi - lo, p.min), 0)
  }

  /** The chunks of a file from position `lo` on. */
  function ChunksFrom(p: Params, s: seq<Byte>, lo: nat): seq<seq<Byte>>
    requires ParamsOk(p) && lo <= |s|
    decreases |s| - lo
  {
    if lo == |s| then [] else
      var c := Cut(p, s, lo, |s|);
      [s[lo..lo + c]] + ChunksFrom(p, s, lo + c)
  }

  function Chunks(p: Params, s: seq<Byte>): seq<seq<Byte>>
    requires ParamsOk(p)
  {
    ChunksFrom(p, s, 0)
  }

  // ---- what the pure chunker promises ------------------------------------

  /** The fingerprint of `s[lo..hi]`. */
  function Fingerprint(p: Params, s: seq<Byte>, lo: nat, hi: nat): nat
    requires ParamsOk(p) && lo <= hi <= |s|
    decreases hi
  {
    if lo == hi then 0 else Roll(p, Fingerprint(p, s, lo, hi - 1), s[hi - 1])
  }

  /** In a chunk that starts at `lo`, a cut is allowed after byte `i`. */
  predicate Boundary(p: Params, s: seq<Byte>, lo: nat, i: nat)
    requires ParamsOk(p) && p.min <= i < |s| - lo
  {
    Cuts(p, Fingerprint(p, s, lo + p.min, lo + i + 1), i)
  }

  /** One step of the search for the first boundary. */
  lemma FirstCutStep(p: Params, s: seq<Byte>, lo: nat, i: nat)
    requires ParamsOk(p) && lo <= |s| && p.min <= i < Least(p.max, |s| - lo)
    ensures FirstCut(p, s, lo, |s|, i, Fingerprint(p, s, lo + p.min, lo + i))
         == if Boundary(p, s, lo, i) then i + 1
             else FirstCut(p, s, lo, |s|, i + 1, Fingerprint(p, s, lo + p.min, lo + (i + 1)))
  {
    assert Fingerprint(p, s, lo + p.min, lo + i + 1) == Roll(p, Fingerprint(p, s, lo + p.min, lo + i), s[lo + i]);
  }

  lemma {:induction false} FirstCutIsFirst(p: Params, s: seq<Byte>, lo: nat, i: nat, r: nat)
    requires ParamsOk(p) && lo <= |s| && p.min <= i <= Least(p.max, |s| - lo)
    requires r == FirstCut(p, s, lo, |s|, i, Fingerprint(p, s, lo + p.min, lo + i))
    ensures forall k :: i <= k < r - 1 ==> !Boundary(p, s, lo, k)
    ensures r == Least(p.max, |s| - lo) || Boundary(p, s, lo, r - 1)
    decreases |s| - lo - i
  {
    if i < Least(p.max, |s| - lo) {
      FirstCutStep(p, s, lo, i);
      if !Boundary(p, s, lo, i) { FirstCutIsFirst(p, s, lo, i + 1, r); }
    }
  }

  /** A chunk ends at the first boundary after the minimum size, at the maximum size, or
      with the file. */
  lemma CutIsFirstBoundary(p: Params, s: seq<Byte>, lo: nat)
    requires ParamsOk(p) && lo + p.min < |s|
    ensures forall k :: p.min <= k < Cut(p, s, lo, |s|) - 1 ==> !Boundary(p, s, lo, k)
    ensures Cut(p, s, lo, |s|) == Least(p.max, |s| - lo) || Boundary(p, s, lo, Cut(p, s, lo, |s|) - 1)
  {
    FirstCutIsFirst(p, s, lo, p.min, Cut(p, s, lo, |s|));
  }

  /** `b[lo..hi]` shows the file `s` from position `at` on. */
  predicate Shows(b: seq<Byte>, lo: nat, hi: nat, s: seq<Byte>, at: nat) {
    && lo <= hi <= |b| && at + (hi - lo) <= |s|
    && forall k {:trigger b[k]} :: lo <= k < hi ==> b[k] == s[at + (k - lo)]
  }

  lemma ShownSlice(b: seq<Byte>, hi: nat, s: seq<Byte>, at: nat, x: nat, y: nat)
    requires Shows(b, 0, hi, s, at) && x <= y <= hi
    ensures b[x..y] == s[at + x..at + y]
  {
    forall i | 0 <= i < y - x ensures b[x..y][i] == s[at + x..at + y][i] { assert b[x..y][i] == b[x + i]; }
  }

  lemma EmitCut(p: Params, s: seq<Byte>, chunks: seq<seq<Byte>>, k: nat, queued: seq<Item>, output: seq<Item>,
      off: nat, cp: nat)
    requires ParamsOk(p) && ChunksOf(p, s, chunks) && k <= |chunks| && off == Offset(chunks, k) < |s|
    requires output == queued + ChunkItems(chunks[..k]) && cp == Cut(p, s, off, |s|)
    ensures k < |chunks| && off + cp == Offset(chunks, k + 1)
    ensures output + [Chunk(s[off..off + cp])] == queued + ChunkItems(chunks[..k + 1])
  {
    EmitNext(p, s, chunks, k, queued, output);
  }

  /** The cut in the buffer is the next cut of the content. */
  lemma EmitLocal(p: Params, b: seq<Byte>, lo: nat, hi: nat, s: seq<Byte>, start: nat,
                  chunks: seq<seq<Byte>>, k: nat, queued: seq<Item>, output: seq<Item>, cp: nat)
    requires ParamsOk(p) && lo < hi && Shows(b, 0, hi, s, start) && cp == Cut(p, b, lo, hi)
    requires start + hi == |s| || hi - lo >= p.max
    requires ChunksOf(p, s, chunks) && k <= |chunks| && start + lo == Offset(chunks, k)
    requires output == queued + ChunkItems(chunks[..k])
    ensures 0 < cp <= hi - lo && k < |chunks| && start + lo + cp == Offset(chunks, k + 1)
    ensures output + [Chunk(b[lo..lo + cp])] == queued + ChunkItems(chunks[..k + 1])
  {
    var off := start + lo;
    assert cp == Cut(p, s, off, |s|) && 0 < cp <= hi - lo by { CutIsLocal(p, b, lo, hi, s, off); }
    assert b[lo..lo + cp] == s[off..off + cp] by { ShownSlice(b, hi, s, start, lo, lo + cp); }
    EmitCut(p, s, chunks, k, queued, output, off, cp);
  }

  lemma {:induction false} FirstCutLocal(p: Params, b: seq<Byte>, lo: nat, hi: nat, s: seq<Byte>, at: nat, i: nat,
      fp: nat)
    requires ParamsOk(p) && Shows(b, lo, hi, s, at) && (at + (hi - lo) == |s| || hi - lo >= p.max)
    requires i <= Least(p.max, hi - lo)
    ensures FirstCut(p, b, lo, hi, i, fp) == FirstCut(p, s, at, |s|, i, fp)
    decreases hi - lo - i
  {
    if i < Least(p.max, hi - lo) {
      var fp' := Roll(p, fp, b[lo + i]);
      if !Cuts(p, fp', i) { FirstCutLocal(p, b, lo, hi, s, at, i + 1, fp'); }
    }
  }

  /** A cut depends on the next `max` bytes only: a buffer that shows as much, or all
      that is left, is cut like the file. */
  lemma CutIsLocal(p: Params, b: seq<Byte>, lo: nat, hi: nat, s: seq<Byte>, at: nat)
    requires ParamsOk(p) && Shows(b, lo, hi, s, at) && (at + (hi - lo) == |s| || hi - lo >= p.max)
    ensures Cut(p, b, lo, hi) == Cut(p, s, at, |s|)
  {
    FirstCutLocal(p, b, lo, hi, s, at, Least(hi - lo, p.min), 0);
  }

  /** Nothing is lost: the chunks concatenate to the file. */
  lemma ChunksConcat(p: Params, s: seq<Byte>)
    requires ParamsOk(p)
    ensures Concat(Chunks(p, s)) == s
  {
    ConcatFrom(p, s, 0);
    assert s[0..] == s;
  }

  lemma {:induction false} ConcatFrom(p: Params, s: seq<Byte>, lo: nat)
    requires ParamsOk(p) && lo <= |s|
    ensures Concat(ChunksFrom(p, s, lo)) == s[lo..]
    decreases |s| - lo
  {
    if lo < |s| {
      var c := Cut(p, s, lo, |s|);
      var rest := ChunksFrom(p, s, lo + c);
      assert Concat(rest) == s[lo + c..] by { ConcatFrom(p, s, lo + c); }
      Unfold(p, s, lo);
      ConcatFirst(s[lo..lo + c], rest);
      assert s[lo..] == s[lo..lo + c] + s[lo + c..];
    }
  }

  lemma ConcatFirst(chunk: seq<Byte>, rest: seq<seq<Byte>>)
    ensures Concat([chunk] + rest) == chunk + Concat(rest)
  {
    assert ([chunk] + rest)[1..] == rest;
  }

  /** The length of the first `k` chunks together. */
  function Offset(chunks: seq<seq<Byte>>, k: nat): (r: nat)
    requires k <= |chunks|
  {
    if k == 0 then 0 else Offset(chunks, k - 1) + |chunks[k - 1]|
  }

  /** Chunk `k` of those that start at `lo` begins where the ones before it end, and
      ends where `Cut` says; there is one unless the file is at its end. */
  predicate ChunkAt(p: Params, s: seq<Byte>, lo: nat, chunks: seq<seq<Byte>>, k: nat)
    requires ParamsOk(p) && k <= |chunks|
  {
    var off := lo + Offset(chunks, k);
    && off <= |s| && (off < |s| <==> k < |chunks|)
    && (off < |s| ==> chunks[k] == s[off..off + Cut(p, s, off, |s|)])
  }

  lemma {:induction false} OffsetTail(c: seq<Byte>, rest: seq<seq<Byte>>, k: nat)
    requires k <= |rest|
    ensures Offset([c] + rest, k + 1) == |c| + Offset(rest, k)
  {
    if k > 0 { OffsetTail(c, rest, k - 1); }
  }

  lemma FirstChunk(p: Params, s: seq<Byte>, lo: nat)
    requires ParamsOk(p) && lo <= |s|
    ensures ChunkAt(p, s, lo, ChunksFrom(p, s, lo), 0)
  {
  }

  lemma Unfold(p: Params, s: seq<Byte>, lo: nat)
    requires ParamsOk(p) && lo < |s|
    ensures var c := Cut(p, s, lo, |s|);
            ChunksFrom(p, s, lo) == [s[lo..lo + c]] + ChunksFrom(p, s, lo + c)
  {
  }

  lemma LaterChunk(p: Params, s: seq<Byte>, lo: nat, c: nat, rest: seq<seq<Byte>>, k: nat)
    requires ParamsOk(p) && lo + c <= |s| && 0 < k <= |rest| + 1 && ChunkAt(p, s, lo + c, rest, k - 1)
    ensures ChunkAt(p, s, lo, [s[lo..lo + c]] + rest, k)
  {
    var chunks := [s[lo..lo + c]] + rest;
    assert lo + Offset(chunks, k) == lo + c + Offset(rest, k - 1) by { OffsetTail(s[lo..lo + c], rest, k - 1); }
    assert k < |chunks| ==> chunks[k] == rest[k - 1];
  }

  /** The chunks behind the first one. */
  lemma Behind(p: Params, s: seq<Byte>, lo: nat, k: nat) returns (next: nat, rest: seq<seq<Byte>>)
    requires ParamsOk(p) && lo <= |s| && 0 < k <= |ChunksFrom(p, s, lo)|
    ensures lo < |s| && next == lo + Cut(p, s, lo, |s|) && k - 1 <= |rest|
    ensures rest == ChunksFrom(p, s, next) && ChunksFrom(p, s, lo) == [s[lo..next]] + rest
  {
    assert lo < |s|;
    next := lo + Cut(p, s, lo, |s|);
    rest := ChunksFrom(p, s, next);
    Unfold(p, s, lo);
  }

  lemma {:induction false} EachChunk(p: Params, s: seq<Byte>, lo: nat, chunks: seq<seq<Byte>>, k: nat)
    requires ParamsOk(p) && lo <= |s| && chunks == ChunksFrom(p, s, lo) && k <= |chunks|
    ensures ChunkAt(p, s, lo, chunks, k)
    decreases k
  {
    if k == 0 {
      FirstChunk(p, s, lo);
    } else {
      var next, rest := Behind(p, s, lo, k);
      EachChunk(p, s, next, rest, k - 1);
      LaterChunk(p, s, lo, next - lo, rest, k);
    }
  }

  ghost predicate ChunksOf(p: Params, s: seq<Byte>, chunks: seq<seq<Byte>>)
    requires ParamsOk(p)
  {
    forall k :: 0 <= k <= |chunks| ==> ChunkAt(p, s, 0, chunks, k)
  }

  lemma ChunksAreChunks(p: Params, s: seq<Byte>)
    requires ParamsOk(p)
    ensures ChunksOf(p, s, Chunks(p, s))
  {
    forall k | 0 <= k <= |Chunks(p, s)| ensures ChunkAt(p, s, 0, Chunks(p, s), k) {
      EachChunk(p, s, 0, Chunks(p, s), k);
    }
  }

  /** Every chunk has at most `max` bytes, and all but the last more than `min`. */
  lemma ChunkSizes(p: Params, s: seq<Byte>, k: nat)
    requires ParamsOk(p) && k < |Chunks(p, s)|
    ensures 0 < |Chunks(p, s)[k]| <= p.max
    ensures k < |Chunks(p, s)| - 1 ==> p.min < |Chunks(p, s)[k]|
  {
    SizeAt(p, s, Chunks(p, s), k) by { ChunksAreChunks(p, s); }
  }

  lemma SizeAt(p: Params, s: seq<Byte>, chunks: seq<seq<Byte>>, k: nat)
    requires ParamsOk(p) && k < |chunks| && ChunksOf(p, s, chunks)
    ensures 0 < |chunks[k]| <= p.max
    ensures k < |chunks| - 1 ==> p.min < |chunks[k]|
  {
    assert ChunkAt(p, s, 0, chunks, k) && ChunkAt(p, s, 0, chunks, k + 1);
  }

  /** The mask before the normal size is the harder one: it cuts only where the other
      would. */
  lemma HarderBeforeNormal(p: Params, bits: nat, fp: nat, i: nat, j: nat)
    requires ParamsOk(p) && MasksOf(p, bits) && i < p.normal <= j && Cuts(p, fp, i)
    ensures Cuts(p, fp, j)
  {
    var a, b := CompareLimit(bits - 1, 1, 31), CompareLimit(bits + 1, 1, 31);
    MaskIsRemainder(fp, a);
    MaskIsRemainder(fp, b);
    MultipleDivides(fp, a, b);
  }

  lemma MultipleDivides(x: nat, a: nat, b: nat)
    requires a <= b && x % Pow2(b) == 0
    ensures x % Pow2(a) == 0
  {
    Pow2Divides(a, b);
    var q := x / Pow2(b);
    assert x == Pow2(b) * q;
    Regroup(Pow2(a), Pow2(b - a), q);
    RemainderIs(x, Pow2(a), Pow2(b - a) * q, 0);
  }

  lemma Regroup(x: nat, y: nat, z: nat)
    ensures (x * y) * z == x * (y * z)
  {
  }

  // ---- the buffered chunker ----------------------------------------------

  /** The next chunk to emit after `k` of them. */
  lemma NextChunk(p: Params, s: seq<Byte>, chunks: seq<seq<Byte>>, k: nat)
    requires ParamsOk(p) && ChunksOf(p, s, chunks) && k <= |chunks| && Offset(chunks, k) < |s|
    ensures var off := Offset(chunks, k); var c := Cut(p, s, off, |s|);
            k < |chunks| && chunks[k] == s[off..off + c] && Offset(chunks, k + 1) == off + c
  {
    assert ChunkAt(p, s, 0, chunks, k);
  }

  lemma AllEmitted(p: Params, s: seq<Byte>, k: nat)
    requires ParamsOk(p) && k <= |Chunks(p, s)| && Offset(Chunks(p, s), k) == |s|
    ensures k == |Chunks(p, s)| == |Chunks(p, s)[..k]| && |Concat(Chunks(p, s))| == |s|
    ensures Chunks(p, s)[..k] == Chunks(p, s)
  {
    assert ChunkAt(p, s, 0, Chunks(p, s), k) by { EachChunk(p, s, 0, Chunks(p, s), k); }
    ChunksConcat(p, s);
  }

  lemma ItemsAppend(chunks: seq<seq<Byte>>, k: nat)
    requires k < |chunks|
    ensures ChunkItems(chunks[..k + 1]) == ChunkItems(chunks[..k]) + [Chunk(chunks[k])]
  {
  }

  /** Emitting the next chunk. */
  lemma EmitNext(p: Params, s: seq<Byte>, chunks: seq<seq<Byte>>, k: nat, queued: seq<Item>, output: seq<Item>)
    requires ParamsOk(p) && ChunksOf(p, s, chunks) && k <= |chunks| && Offset(chunks, k) < |s|
    requires output == queued + ChunkItems(chunks[..k])
    ensures var off := Offset(chunks, k); var c := Cut(p, s, off, |s|);
            && k < |chunks| && Offset(chunks, k + 1) == off + c
            && output + [Chunk(s[off..off + c])] == queued + ChunkItems(chunks[..k + 1])
  {
    NextChunk(p, s, chunks, k);
    ItemsAppend(chunks, k);
  }

  /** `Chunker` with its input file, of which `content` is what `read` would deliver. */
  class FastChunker {
    const p: Params
    const readSize: nat
    const content: seq<Byte>
    const buffer: array<Byte>   // waitingForChunkingBuffer_
    var position: nat           // of the input file
    var eof: bool
    var pos: nat
    var output: seq<Item>
    var done: bool

    ghost predicate Valid() reads this {
      && ParamsOk(p) && buffer.Length == readSize < WORD32 && position <= |content|
    }

    /** The file is opened at its start; the buffer has at most 2^32 - 1 bytes, so that
        the casts to 32 bits are exact. */
    constructor (p: Params, readSize: nat, content: seq<Byte>)
      requires ParamsOk(p) && readSize < WORD32
      ensures Valid() && fresh(buffer) && this.p == p && this.readSize == readSize && this.content == content
      ensures position == 0 && output == [] && !done
    {
      this.p := p;
      this.readSize := readSize;
      this.content := content;
      buffer := new Byte[readSize](_ => 0);
      position, eof, pos, output, done := 0, false, 0, [], false;
    }

    /** `read` and `gcount`: the end of the file is noticed only when it cuts the read
        short. */
    method Read() returns (len: nat)
      requires Valid()
      modifies this`position, this`eof, buffer
      ensures Valid() && len == Least(readSize, |content| - old(position))
      ensures position == old(position) + len && (eof <==> len < readSize)
      ensures Shows(buffer[..], 0, len, content, old(position))
    {
      len := Least(readSize, |content| - position);
      var i := 0;
      while i < readSize
        modifies buffer
        invariant i <= readSize && forall k :: 0 <= k < i ==> buffer[k] == if k < len then content[position + k] else 0
      {
        buffer[i] := if i < len then content[position + i] else 0;
        i := i + 1;
      }
      position := position + len;
      eof := len < readSize;
    }

    /** The size of the chunk at `offset` of a buffer with `len` bytes from there on. */
    method CutPoint(offset: nat, len: nat) returns (cp: nat)
      requires Valid() && offset + len <= buffer.Length
      ensures cp == Cut(p, buffer[..], offset, offset + len)
    {
      ghost var s := buffer[..];
      var fp := 0;
      var i := Least(len, p.min);
      var n := Least(p.normal, len);
      while i < n
        invariant i <= Least(p.max, len)
                  && FirstCut(p, s, offset, offset + len, i, fp) == Cut(p, s, offset, offset + len)
      {
        fp := Roll(p, fp, buffer[offset + i]);
        if And(fp, p.maskS) == 0 { return i + 1; }
        i := i + 1;
      }
      n := Least(p.max, len);
      while i < n
        invariant i <= n && Least(p.normal, len) <= i
        invariant FirstCut(p, s, offset, offset + len, i, fp) == Cut(p, s, offset, offset + len)
      {
        fp := Roll(p, fp, buffer[offset + i]);
        if And(fp, p.maskL) == 0 { return i + 1; }
        i := i + 1;
      }
      return i;
    }

    /** The next chunk, number `k`, of a buffer that shows the file from `start` on. */
    method CutOnce(start: nat, len: nat, localOffset: nat, ghost chunks: seq<seq<Byte>>, ghost k: nat,
        ghost queued: seq<Item>)
      returns (cp: nat)
      requires Valid() && localOffset < len <= readSize && Shows(buffer[..], 0, len, content, start)
      requires start + len == |content| || len - localOffset >= p.max
      requires ChunksOf(p, content, chunks) && k <= |chunks| && start + localOffset == Offset(chunks, k)
      requires output == queued + ChunkItems(chunks[..k])
      modifies this`output
      ensures 0 < cp <= len - localOffset && k < |chunks| && start + localOffset + cp == Offset(chunks, k + 1)
      ensures output == queued + ChunkItems(chunks[..k + 1])
    {
      cp := CutPoint(localOffset, len - localOffset);
      EmitLocal(p, buffer[..], localOffset, len, content, start, chunks, k, queued, output, cp);
      var chunk := buffer[..][localOffset..localOffset + cp];
      output := output + [Chunk(chunk)];
    }

    /** The inner loop of `FastCDC`: cuts the buffer, which shows the file from `start`
        on, until less than a whole chunk may be left. `k` chunks have been emitted. */
    method CutBuffer(start: nat, len: nat, end: bool, ghost chunks: seq<seq<Byte>>, k: nat, ghost queued: seq<Item>)
      returns (localOffset: nat, count: nat)
      requires Valid() && len <= readSize && Shows(buffer[..], 0, len, content, start)
      requires end ==> start + len == |content|
      requires ChunksOf(p, content, chunks) && k <= |chunks| && start == Offset(chunks, k)
      requires output == queued + ChunkItems(chunks[..k])
      modifies this`output
      ensures localOffset <= len && k + count <= |chunks| && start + localOffset == Offset(chunks, k + count)
      ensures output == queued + ChunkItems(chunks[..k + count])
      ensures if end then localOffset == len else len - localOffset < p.max
      ensures localOffset > 0 <==> len >= p.max || (end && len > 0)
    {
      localOffset, count := 0, 0;
      while len - localOffset >= p.max || (end && localOffset < len)
        modifies this`output
        invariant localOffset <= len && k + count <= |chunks| && start + localOffset == Offset(chunks, k + count)
        invariant output == queued + ChunkItems(chunks[..k + count])
        invariant localOffset > 0 ==> len >= p.max || (end && len > 0)
        decreases len - localOffset
      {
        var cp := CutOnce(start, len, localOffset, chunks, k + count, queued);
        localOffset := localOffset + cp;
        count := count + 1;
      }
    }

    /** `FastCDC` emits what the pure chunker says, and the recipe totals. It ends if the
        buffer holds a whole chunk, or the whole file at once. */
    method FastCDC()
      requires Valid() && position == 0 && !done && (readSize >= p.max || |content| < readSize)
      modifies this`position, this`eof, this`pos, this`output, this`done, buffer
      ensures Valid() && done
      ensures output == old(output) + FileItems(Chunks(p, content))
    {
      var fileSize: nat, chunkIDCnt: nat, totalOffset: nat := 0, 0, 0;
      var end := false;
      ghost var chunks := Chunks(p, content);
      ChunksAreChunks(p, content);
      while !end
        invariant Valid() && !done && position == fileSize == totalOffset <= |content|
        invariant chunkIDCnt <= |chunks| && totalOffset == Offset(chunks, chunkIDCnt)
        invariant output == old(output) + ChunkItems(chunks[..chunkIDCnt])
        invariant end ==> totalOffset == |content|
        decreases |content| - totalOffset, if end then 0 else 1
      {
        var len := Read();
        end := eof;
        if len == 0 { break; }
        var localOffset, count := CutBuffer(totalOffset, len, end, chunks, chunkIDCnt, old(output));
        pos := pos + localOffset;
        totalOffset := totalOffset + localOffset;
        fileSize := fileSize + localOffset;
        chunkIDCnt := chunkIDCnt + count;
        position := totalOffset;
      }
      AllEmitted(p, content, chunkIDCnt);
      output := output + [RecipeEnd(chunkIDCnt, fileSize)];
      done := true;
    }
  }
}
