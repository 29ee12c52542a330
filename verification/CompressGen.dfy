/** The generator of compressible data (`LZGenerateData` in compressGen.cc): literals
    alternate with copies from the start of a buffer of random bytes, in lengths that are
    drawn 512 at a time and used up from the longest down.

    The random numbers are a stream of reals in [0, 1); raising one to a power keeps it
    there. */
module CompressGen {
  import opened Data

  const MIN_LEN: nat := 3
  const MAX_LEN: nat := 160
  const NUM_LEN: nat := MAX_LEN - MIN_LEN + 1
  const LEN_PER_CHUNK: nat := 512

  predicate Unit(r: real) { 0.0 <= r < 1.0 }

  /** The stream of `RandDouble`, and the two powers. */
  datatype Source = Source(draws: nat -> real, lenPow: real -> real, litPow: real -> real)

  ghost predicate SourceOk(s: Source) {
    && (forall k :: Unit(s.draws(k)))
    && (forall r :: Unit(r) ==> Unit(s.lenPow(r)))
    && (forall r :: Unit(r) ==> Unit(s.litPow(r)))
  }

  /** The integer part of `n * r`. */
  function Scale(n: nat, r: real): (k: nat)
    requires n > 0 && Unit(r)
    ensures k < n
  {
    ScaleBound(n as real, r);
    (n as real * r).Floor
  }

  lemma ScaleBound(n: real, r: real)
    requires n > 0.0 && Unit(r)
    ensures 0.0 <= n * r < n
  {
    assert n * (1.0 - r) > 0.0;
    assert n * r == n - n * (1.0 - r);
  }

  /** The byte made of draw `k`. */
  function LiteralAt(s: Source, k: nat): Byte
    requires SourceOk(s)
  {
    assert Unit(s.litPow(s.draws(k)));
    Scale(256, s.litPow(s.draws(k)))
  }

  /** The length class made of draw `k`. */
  function LengthAt(s: Source, k: nat): (l: nat)
    requires SourceOk(s)
    ensures l < NUM_LEN
  {
    assert Unit(s.lenPow(s.draws(k)));
    Scale(NUM_LEN, s.lenPow(s.draws(k)))
  }

  function Sum(a: seq<nat>): nat { if a == [] then 0 else Sum(a[..|a| - 1]) + a[|a| - 1] }

  lemma {:induction false} SumUpdate(a: seq<nat>, i: nat, v: nat)
    requires i < |a|
    ensures Sum(a[i := v]) == Sum(a) - a[i] + v
    decreases |a|
  {
    var n := |a| - 1;
    if i < n {
      SumUpdate(a[..n], i, v);
      assert a[i := v][..n] == a[..n][i := v];
    } else {
      assert a[i := v][..n] == a[..n];
    }
  }

  lemma {:induction false} SumZero(a: seq<nat>)
    requires forall i :: 0 <= i < |a| ==> a[i] == 0
    ensures Sum(a) == 0
    decreases |a|
  {
    if a != [] { SumZero(a[..|a| - 1]); }
  }

  /** No length above `r` is left. */
  predicate ZeroAbove(lenFreq: seq<nat>, r: int) {
    forall k :: r < k < |lenFreq| && 0 <= k ==> lenFreq[k] == 0
  }

  lemma NoneLeft(lenFreq: seq<nat>)
    requires lenFreq != [] && lenFreq[0] == 0 && ZeroAbove(lenFreq, 0)
    ensures ZeroAbove(lenFreq, -1) && Sum(lenFreq) == 0
  {
    SumZero(lenFreq);
  }

  /** What has been written: runs of literals, and copies of the first bytes of the buffer;
      `drawn` is the number of the draw that made the first of these bytes. */
  datatype Segment = Literals(bytes: seq<Byte>, drawn: nat) | Copy(bytes: seq<Byte>, drawn: nat)

  function Flatten(segments: seq<Segment>): seq<Byte> {
    if segments == [] then [] else Flatten(segments[..|segments| - 1]) + segments[|segments| - 1].bytes
  }

  /** The bytes are the literals made of consecutive draws. */
  ghost predicate Drawn(s: Source, bytes: seq<Byte>, drawn: nat)
    requires SourceOk(s)
  {
    forall k :: 0 <= k < |bytes| ==> bytes[k] == LiteralAt(s, drawn + k)
  }

  /** All bytes are drawn, copies at one of the draws `fills` at which the buffer of `MAX_LEN`
      bytes was filled, and two copies have a literal between them. */
  ghost predicate WellMade(s: Source, segments: seq<Segment>, fills: seq<nat>)
    requires SourceOk(s)
  {
    && (forall i :: 0 <= i < |segments| ==> Drawn(s, segments[i].bytes, segments[i].drawn))
    && (forall i :: 0 <= i < |segments| && segments[i].Copy?
          ==> |segments[i].bytes| <= MAX_LEN && segments[i].drawn in fills)
    && (forall i :: 0 < i < |segments| && segments[i].Copy?
          ==> segments[i - 1].Literals? && segments[i - 1].bytes != [])
  }

  lemma DrawnPrefix(s: Source, bytes: seq<Byte>, drawn: nat, len: nat)
    requires SourceOk(s) && Drawn(s, bytes, drawn) && len <= |bytes|
    ensures Drawn(s, bytes[..len], drawn)
  {
  }

  lemma SegmentAppend(s: Source, segments: seq<Segment>, fills: seq<nat>, x: Segment)
    requires SourceOk(s) && WellMade(s, segments, fills) && Drawn(s, x.bytes, x.drawn)
    requires x.Copy? ==> |x.bytes| <= MAX_LEN && x.drawn in fills
    requires x.Copy? ==> segments == [] || (segments[|segments| - 1].Literals? && segments[|segments| - 1].bytes != [])
    ensures WellMade(s, segments + [x], fills)
  {
    forall i | 0 <= i <= |segments| ensures Drawn(s, (segments + [x])[i].bytes, (segments + [x])[i].drawn) {
      if i < |segments| { assert Drawn(s, segments[i].bytes, segments[i].drawn); }
    }
  }

  lemma MoreFills(s: Source, segments: seq<Segment>, fills: seq<nat>, fills': seq<nat>)
    requires SourceOk(s) && WellMade(s, segments, fills) && fills <= fills'
    ensures WellMade(s, segments, fills')
  {
  }

  lemma FlattenAppend(segments: seq<Segment>, x: Segment)
    ensures Flatten(segments + [x]) == Flatten(segments) + x.bytes
  {
    assert (segments + [x])[..|segments|] == segments;
  }

  class Generator {
    const source: Source
    var next: nat            // how many numbers have been drawn
    ghost var fills: seq<nat>  // the draws that made the first byte of the buffer, in this run

    constructor (source: Source)
      ensures this.source == source && next == 0 && fills == []
    {
      this.source := source;
      next, fills := 0, [];
    }

    method GenerateLiterals(ptr: array<Byte>, at: nat, size: nat)
      requires SourceOk(source) && at + size <= ptr.Length
      modifies this`next, ptr
      ensures next == old(next) + size
      ensures forall k :: 0 <= k < ptr.Length && !(at <= k < at + size) ==> ptr[k] == old(ptr[k])
      ensures forall k :: at <= k < at + size ==> ptr[k] == LiteralAt(source, old(next) + (k - at))
    {
      var i := 0;
      while i < size
        modifies this`next, ptr
        invariant i <= size && next == old(next) + i
        invariant forall k :: 0 <= k < ptr.Length && !(at <= k < at + i) ==> ptr[k] == old(ptr[k])
        invariant forall k :: at <= k < at + i ==> ptr[k] == LiteralAt(source, old(next) + (k - at))
      {
        ptr[at + i] := LiteralAt(source, next);
        next := next + 1;
        i := i + 1;
      }
    }

    /** The exit for a length past the end is never taken. */
    method GenerateLengths(lenFreq: array<nat>, num: nat)
      requires SourceOk(source) && lenFreq.Length == NUM_LEN
      modifies this`next, lenFreq
      ensures next == old(next) + num && Sum(lenFreq[..]) == num
    {
      var i := 0;
      while i < NUM_LEN
        modifies lenFreq
        invariant i <= NUM_LEN && forall k :: 0 <= k < i ==> lenFreq[k] == 0
      {
        lenFreq[i] := 0;
        i := i + 1;
      }
      SumZero(lenFreq[..]);
      i := 0;
      while i < num
        modifies this`next, lenFreq
        invariant i <= num && next == old(next) + i && Sum(lenFreq[..]) == i
      {
        var len := LengthAt(source, next);
        SumUpdate(lenFreq[..], len, lenFreq[len] + 1);
        assert lenFreq[..][len := lenFreq[len] + 1][len] == lenFreq[len] + 1;
        ghost var was := lenFreq[..];
        lenFreq[len] := lenFreq[len] + 1;
        assert lenFreq[..] == was[len := was[len] + 1];
        next := next + 1;
        i := i + 1;
      }
    }

    /** The buffer holds the literals of the last fill. */
    ghost predicate Filled(buffer: array<Byte>)
      requires SourceOk(source)
      reads this, buffer
    {
      fills != [] && Drawn(source, buffer[..], fills[|fills| - 1])
    }

    /** Between two lengths: nothing has been filled yet, or what is left of the last lengths
        is not above `curLen`. */
    ghost predicate Ready(buffer: array<Byte>, lenFreq: array<nat>, curLen: nat)
      requires SourceOk(source)
      reads this, buffer, lenFreq
    {
      && buffer.Length == MAX_LEN && lenFreq.Length == NUM_LEN && curLen < NUM_LEN
      && if fills == [] then curLen == 0 && lenFreq[0] == 0 else Filled(buffer) && ZeroAbove(lenFreq[..], curLen)
    }

    /** New literals for the buffer, and new lengths. */
    method Refill(buffer: array<Byte>, lenFreq: array<nat>)
      requires SourceOk(source) && lenFreq.Length == NUM_LEN && buffer.Length == MAX_LEN
      modifies this`next, this`fills, buffer, lenFreq
      ensures fills == old(fills) + [old(next)] && Filled(buffer) && Sum(lenFreq[..]) == LEN_PER_CHUNK
    {
      fills := fills + [next];
      GenerateLiterals(buffer, 0, MAX_LEN);
      GenerateLengths(lenFreq, LEN_PER_CHUNK);
    }

    /** Finds the next length that is left, and refills only when none is. */
    method NextLength(buffer: array<Byte>, lenFreq: array<nat>, curLen: nat) returns (r: nat)
      requires SourceOk(source) && Ready(buffer, lenFreq, curLen)
      modifies this`next, this`fills, buffer, lenFreq
      ensures r < NUM_LEN && lenFreq[r] > 0 && ZeroAbove(lenFreq[..], r)
      ensures Filled(buffer)
      ensures fills == old(fills) ==> lenFreq[..] == old(lenFreq[..]) && buffer[..] == old(buffer[..])
      ensures fills != old(fills) ==> fills == old(fills) + [old(next)] && Sum(lenFreq[..]) == LEN_PER_CHUNK
      ensures fills != old(fills) && old(fills) != [] ==> ZeroAbove(old(lenFreq[..]), -1)
    {
      r := curLen;
      while lenFreq[r] == 0
        modifies this`next, this`fills, buffer, lenFreq
        invariant r < NUM_LEN
        invariant if fills == [] then r == 0 else Filled(buffer) && ZeroAbove(lenFreq[..], r)
        invariant if fills == old(fills) then next == old(next) && r <= curLen && lenFreq[..] == old(lenFreq[..])
                  && buffer[..] == old(buffer[..])
                  else fills == old(fills) + [old(next)] && Sum(lenFreq[..]) == LEN_PER_CHUNK
                       && (old(fills) == [] || ZeroAbove(old(lenFreq[..]), -1))
        decreases fills == old(fills), r
      {
        if r == 0 {
          if fills != [] { NoneLeft(lenFreq[..]); }
          Refill(buffer, lenFreq);
          r := NUM_LEN;
        }
        r := r - 1;
      }
    }

    /** Finds the next length and uses it up. */
    method TakeLength(buffer: array<Byte>, lenFreq: array<nat>, curLen: nat) returns (r: nat)
      requires SourceOk(source) && Ready(buffer, lenFreq, curLen)
      modifies this`next, this`fills, buffer, lenFreq
      ensures Ready(buffer, lenFreq, r) && fills != [] && old(fills) <= fills
    {
      r := NextLength(buffer, lenFreq, curLen);
      ghost var left := lenFreq[..];
      lenFreq[r] := lenFreq[r] - 1;
      assert lenFreq[..] == left[r := left[r] - 1];
    }

    /** Copies the first `len` bytes of the buffer. */
    method Copy(ptr: array<Byte>, at: nat, buffer: array<Byte>, len: nat)
      requires at + len <= ptr.Length && len <= buffer.Length && ptr != buffer
      modifies ptr
      ensures ptr[at..at + len] == buffer[..len]
      ensures forall k :: 0 <= k < ptr.Length && !(at <= k < at + len) ==> ptr[k] == old(ptr[k])
    {
      var i := 0;
      while i < len
        modifies ptr
        invariant i <= len && forall k :: 0 <= k < i ==> ptr[at + k] == buffer[k]
        invariant forall k :: 0 <= k < ptr.Length && !(at <= k < at + i) ==> ptr[k] == old(ptr[k])
      {
        ptr[at + i] := buffer[i];
        i := i + 1;
      }
    }

    /** Writes `len` literals at `i`. */
    method AddLiterals(ptr: array<Byte>, i: nat, len: nat, ghost segments: seq<Segment>)
        returns (ghost segments': seq<Segment>)
      requires SourceOk(source) && 0 < len && i + len <= ptr.Length
      requires WellMade(source, segments, fills) && Flatten(segments) == ptr[..i]
      modifies this`next, ptr
      ensures WellMade(source, segments', fills) && Flatten(segments') == ptr[..i + len]
      ensures segments' != [] && segments'[|segments'| - 1].Literals? && segments'[|segments'| - 1].bytes != []
      ensures forall k :: i + len <= k < ptr.Length ==> ptr[k] == old(ptr[k])
    {
      GenerateLiterals(ptr, i, len);
      ghost var bytes, drawn := ptr[i..i + len], old(next);
      forall k | 0 <= k < |bytes| ensures bytes[k] == LiteralAt(source, drawn + k) { assert bytes[k] == ptr[i + k]; }
      ghost var x := Literals(bytes, drawn);
      SegmentAppend(source, segments, fills, x);
      FlattenAppend(segments, x);
      segments' := segments + [x];
      assert ptr[..i + len] == ptr[..i] + ptr[i..i + len];
    }

    /** Copies `len` bytes of the buffer to `i`, after a literal or at the start. */
    method AddCopy(ptr: array<Byte>, i: nat, buffer: array<Byte>, len: nat, ghost segments: seq<Segment>)
      returns (ghost segments': seq<Segment>)
      requires SourceOk(source) && i + len <= ptr.Length && len <= MAX_LEN == buffer.Length && ptr != buffer
      requires Filled(buffer)
      requires WellMade(source, segments, fills) && Flatten(segments) == ptr[..i]
      requires segments == [] || (segments[|segments| - 1].Literals? && segments[|segments| - 1].bytes != [])
      modifies ptr
      ensures WellMade(source, segments', fills) && Flatten(segments') == ptr[..i + len]
      ensures segments' != [] && segments'[|segments'| - 1].Copy?
      ensures forall k :: i + len <= k < ptr.Length ==> ptr[k] == old(ptr[k])
    {
      Copy(ptr, i, buffer, len);
      var x := Segment.Copy(ptr[i..i + len], fills[|fills| - 1]);
      DrawnPrefix(source, buffer[..], fills[|fills| - 1], len);
      assert x.bytes == buffer[..][..len];
      SegmentAppend(source, segments, fills, x);
      FlattenAppend(segments, x);
      segments' := segments + [x];
      assert ptr[..i + len] == ptr[..i] + ptr[i..i + len];
    }

    /** The state of the segments that `last_was_match` records. */
    ghost predicate LastIs(segments: seq<Segment>, lastWasMatch: bool) {
      if lastWasMatch then segments != [] && segments[|segments| - 1].Copy?
      else segments == [] || (segments[|segments| - 1].Literals? && segments[|segments| - 1].bytes != [])
    }

    /** The body of the loop of `LZGenerateData` for a length that has been found. */
    method Emit(ptr: array<Byte>, size: nat, i0: nat, found: nat, buffer: array<Byte>, ratio: real, lastWasMatch0: bool,
                ghost segments0: seq<Segment>) returns (i: nat, lastWasMatch: bool, ghost segments: seq<Segment>)
      requires SourceOk(source) && i0 < size <= ptr.Length && 0 < found <= MAX_LEN == buffer.Length && ptr != buffer
               && ratio > 0.0
      requires Filled(buffer)
      requires WellMade(source, segments0, fills) && Flatten(segments0) == ptr[..i0] && LastIs(segments0, lastWasMatch0)
      modifies this`next, ptr
      ensures i0 < i <= size && WellMade(source, segments, fills) && Flatten(segments) == ptr[..i]
              && LastIs(segments, lastWasMatch)
      ensures forall k :: size <= k < ptr.Length ==> ptr[k] == old(ptr[k])
    {
      i, segments := i0, segments0;
      var len := found;
      if len > size - i { len := size - i; }
      var draw := source.draws(next);
      next := next + 1;
      if draw < 1.0 / ratio {
        segments := AddLiterals(ptr, i, len, segments);
        lastWasMatch := false;
      } else {
        if lastWasMatch0 {
          segments := AddLiterals(ptr, i, 1, segments);
          i := i + 1;
          if len > size - i { len := size - i; }
        }
        segments := AddCopy(ptr, i, buffer, len, segments);
        lastWasMatch := true;
      }
      i := i + len;
    }

    ghost predicate Written(ptr: array<Byte>, i: nat, segments: seq<Segment>, lastWasMatch: bool)
      requires SourceOk(source)
      reads this, ptr
    {
      i <= ptr.Length && WellMade(source, segments, fills) && Flatten(segments) == ptr[..i]
          && LastIs(segments, lastWasMatch)
    }

    /** One round of the loop of `LZGenerateData`. */
    method Round(ptr: array<Byte>, size: nat, i0: nat, buffer: array<Byte>, lenFreq: array<nat>, curLen0: nat,
        ratio: real,
                 lastWasMatch0: bool, ghost segments0: seq<Segment>)
      returns (i: nat, curLen: nat, lastWasMatch: bool, ghost segments: seq<Segment>)
      requires SourceOk(source) && i0 < size <= ptr.Length && ptr != buffer && ratio > 0.0
      requires ptr as object != lenFreq as object && buffer as object != lenFreq as object
      requires Ready(buffer, lenFreq, curLen0) && Written(ptr, i0, segments0, lastWasMatch0)
      modifies this`next, this`fills, ptr, lenFreq, buffer
      ensures i0 < i <= size && fills != [] && Ready(buffer, lenFreq, curLen) && Written(ptr, i, segments, lastWasMatch)
      ensures forall k :: size <= k < ptr.Length ==> ptr[k] == old(ptr[k])
    {
      ghost var before := fills;
      curLen := TakeLength(buffer, lenFreq, curLen0);
      MoreFills(source, segments0, before, fills);
      i, lastWasMatch, segments := Emit(ptr, size, i0, MIN_LEN + curLen, buffer, ratio, lastWasMatch0, segments0);
    }

    /** `LZGenerateData` ends for every stream of random numbers, however often the generator
        has been used, and writes exactly `size` bytes, made of literals and of copies from the
        buffer as this call has filled it; nothing beyond them is touched. */
    method LZGenerateData(ptr: array<Byte>, size: nat, ratio: real) returns (ghost segments: seq<Segment>)
      requires SourceOk(source) && size <= ptr.Length && ratio > 0.0
      modifies this`next, this`fills, ptr
      ensures WellMade(source, segments, fills) && Flatten(segments) == ptr[..size]
      ensures forall k :: size <= k < ptr.Length ==> ptr[k] == old(ptr[k])
      ensures size > 0 <==> fills != []
    {
      var lenFreq := new nat[NUM_LEN](_ => 0);
      var buffer := new Byte[MAX_LEN](_ => 0);
      var curLen: nat, i: nat, lastWasMatch := 0, 0, false;
      segments, fills := [], [];
      while i < size
        modifies this`next, this`fills, ptr, lenFreq, buffer
        invariant i <= size && (i > 0 <==> fills != []) && Ready(buffer, lenFreq, curLen)
        invariant Written(ptr, i, segments, lastWasMatch)
        invariant forall k :: size <= k < ptr.Length ==> ptr[k] == old(ptr[k])
      {
        i, curLen, lastWasMatch, segments :=
          Round(ptr, size, i, buffer, lenFreq, curLen, ratio + 0.15, lastWasMatch, segments);
      }
    }
  }
}
