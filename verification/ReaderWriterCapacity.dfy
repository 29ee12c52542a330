/** How many elements a `ReaderWriterQueue` holds before `try_enqueue` refuses one, and
    the constructor that decides it (readerwriterqueue.h). */
module ReaderWriterCapacity {
  import opened ReaderWriterQueue
  import opened Circular
  import opened Words

  // ---- the number of blocks is enough ------------------------------------

  /** Any single block has room for `n` elements. */
  ghost predicate EachBlockHolds(s: State, n: nat) {
    s.largest > n && forall b :: 0 <= b < |s.blocks| ==> s.blocks[b].size > n
  }

  /** All blocks but one together have room for `n` elements. */
  ghost predicate BlocksHold(s: State, n: nat) {
    && s.largest >= MAX_BLOCK_SIZE && |s.blocks| >= 2 && (|s.blocks| - 1) * (MAX_BLOCK_SIZE - 1) >= n
    && forall b :: 0 <= b < |s.blocks| ==> s.blocks[b].size >= MAX_BLOCK_SIZE
  }

  ghost predicate Roomy(s: State, n: nat) { EachBlockHolds(s, n) || BlocksHold(s, n) }

  /** No step resizes a block; a new block is at least as large as the largest. */
  lemma StepKeepsBlocks(s: State, s': State)
    requires Step(s, s')
    ensures |s.blocks| <= |s'.blocks| && s.largest <= s'.largest
    ensures forall b :: 0 <= b < |s.blocks| ==> s'.blocks[b].size == s.blocks[b].size
    ensures forall b :: |s.blocks| <= b < |s'.blocks| ==> s'.blocks[b].size >= s.largest
  {
    if Consumes(s, s') {
      ConsumeKeepsSizes(s);
    } else {
      var v, alloc :| s' == Produce(s, v, alloc);
      ProduceKeepsSizes(s, v, alloc);
    }
  }

  lemma ConsumeKeepsSizes(s: State)
    requires InRange(s)
    ensures Consume(s).largest == s.largest && |Consume(s).blocks| == |s.blocks|
    ensures forall b :: 0 <= b < |s.blocks| ==> Consume(s).blocks[b].size == s.blocks[b].size
  {
  }

  lemma ProduceKeepsSizes(s: State, v: Value, alloc: bool)
    requires InRange(s)
    ensures var s' := Produce(s, v, alloc);
            && |s.blocks| <= |s'.blocks| && s.largest <= s'.largest
            && (forall b :: 0 <= b < |s.blocks| ==> s'.blocks[b].size == s.blocks[b].size)
            && (forall b :: |s.blocks| <= b < |s'.blocks| ==> s'.blocks[b].size >= s.largest)
  {
  }

  lemma RoomyKeeps(s: State, s': State, n: nat)
    requires |s.blocks| <= |s'.blocks| && s.largest <= s'.largest
    requires forall b :: 0 <= b < |s.blocks| ==> s'.blocks[b].size == s.blocks[b].size
    requires forall b :: |s.blocks| <= b < |s'.blocks| ==> s'.blocks[b].size >= s.largest
    ensures EachBlockHolds(s, n) ==> EachBlockHolds(s', n)
    ensures BlocksHold(s, n) ==> BlocksHold(s', n)
  {
    if BlocksHold(s, n) {
      assert (|s'.blocks| - 1) * (MAX_BLOCK_SIZE - 1) >= (|s.blocks| - 1) * (MAX_BLOCK_SIZE - 1);
    }
  }

  lemma OneStepRoomy(run: seq<State>, i: nat, n: nat)
    requires IsRun(run) && 0 < i < |run|
    ensures EachBlockHolds(run[i - 1], n) ==> EachBlockHolds(run[i], n)
    ensures BlocksHold(run[i - 1], n) ==> BlocksHold(run[i], n)
  {
    RunStep(run, i);
    StepKeepsBlocks(run[i - 1], run[i]);
    RoomyKeeps(run[i - 1], run[i], n);
  }

  lemma {:induction false} StaysRoomy(run: seq<State>, i: nat, n: nat)
    requires IsRun(run) && i < |run|
    ensures EachBlockHolds(run[0], n) ==> EachBlockHolds(run[i], n)
    ensures BlocksHold(run[0], n) ==> BlocksHold(run[i], n)
  {
    if i > 0 {
      StaysRoomy(run, i - 1, n);
      OneStepRoomy(run, i, n);
    }
  }

  // ---- a refused try_enqueue ---------------------------------------------

  /** The call that is about to be refused saw its block full. */
  lemma TailSeenFull(s: State, g: Ghost, v: Value, alloc: bool)
    requires Inv(s, g) && InRange(s) && s.producer.LoadFront? && Produce(s, v, alloc).producer.LoadFrontBlock?
    ensures |s.enqueued| - |s.dequeued| >= s.blocks[s.tailBlock].size - 1
  {
    var g' := LoadFrontInv(s, g, v, alloc);
    var s' := Produce(s, v, alloc);
    TailBlockWaits(s', g');
  }

  lemma TailBlockWaits(s: State, g: Ghost)
    requires Inv(s, g)
    ensures |s.enqueued| - |s.dequeued| >= Length(g.c[s.tailBlock])
  {
    TailEnds(s, g);
    assert g.c[g.ring[0]].first == StartOf(s, g, 0);
    assert g.c[g.ring[g.k]].first == StartOf(s, g, g.k);
    StartsGrow(s, g, 0, g.k);
  }

  /** All blocks after the front block are full. */
  lemma {:induction false} FullBlocks(s: State, g: Ghost, i: nat)
    requires Inv(s, g) && TailWasFull(s.producer) && 0 < i <= g.k + 1
    requires forall b :: 0 <= b < |s.blocks| ==> s.blocks[b].size >= MAX_BLOCK_SIZE
    ensures StartOf(s, g, i) - |s.dequeued| >= (i - 1) * (MAX_BLOCK_SIZE - 1)
  {
    var b := g.ring[i - 1];
    assert BlockOk(s.blocks[b], g.c[b], Seen(s));
    assert g.c[b].first == StartOf(s, g, i - 1);
    if i > 1 {
      FullBlocks(s, g, i - 1);
      assert Length(g.c[b]) == s.blocks[b].size - 1 by { assert g.ring[g.k] == s.tailBlock; }
    }
  }

  lemma AllBlocksFull(s: State, g: Ghost)
    requires Inv(s, g) && s.producer.LoadFrontBlock? && s.blocks[s.tailBlock].next == s.frontBlock
    requires forall b :: 0 <= b < |s.blocks| ==> s.blocks[b].size >= MAX_BLOCK_SIZE
    ensures |s.enqueued| - |s.dequeued| >= (|s.blocks| - 1) * (MAX_BLOCK_SIZE - 1)
  {
    NextBlock(s, g);
    FullBlocks(s, g, g.k + 1);
    assert StartOf(s, g, g.k + 1) == |s.enqueued|;
  }

  /** The tail block is full, and the call is about to find that out. */
  ghost predicate AboutToSeeFull(s: State) {
    && s.producer.LoadFront? && s.tailBlock < |s.blocks|
    && |s.enqueued| - |s.dequeued| >= s.blocks[s.tailBlock].size - 1
  }

  lemma BackToLoadFront(run: seq<State>, i: nat)
    requires IsRun(run) && run[0].largest > 1 && 0 < i < |run| && run[i].producer.LoadFrontBlock?
    ensures run[i - 1].producer == run[i].producer || AboutToSeeFull(run[i - 1])
  {
    var g := RunInv(run, i - 1);
    InvInRange(run[i - 1], g);
    RunStep(run, i);
    LoadFrontBlockFrom(run[i - 1], g, run[i]);
  }

  /** A call that has reached `LoadFrontBlock` came there from a full tail block. */
  lemma LoadFrontBlockFrom(s: State, g: Ghost, s': State)
    requires Inv(s, g) && InRange(s) && Step(s, s') && s'.producer.LoadFrontBlock?
    ensures s.producer == s'.producer || AboutToSeeFull(s)
  {
    if Consumes(s, s') {
      ConsumesKeeps(s, s');
    } else {
      var v, alloc :| s' == Produce(s, v, alloc);
      if s.producer.LoadFront? { TailSeenFull(s, g, v, alloc); }
    }
  }

  lemma ConsumesKeeps(s: State, s': State)
    requires Consumes(s, s')
    ensures s'.producer == s.producer
  {
  }

  lemma {:induction false} FullMoment(run: seq<State>, i: nat) returns (m: nat)
    requires IsRun(run) && run[0].largest > 1 && i < |run| && run[i].producer.LoadFrontBlock?
    ensures m <= i && AboutToSeeFull(run[m])
    ensures forall j :: m < j <= i ==> run[j].producer == run[i].producer
  {
    NotAtStart(run, i);
    BackToLoadFront(run, i);
    if AboutToSeeFull(run[i - 1]) { m := i - 1; } else { m := FullMoment(run, i - 1); }
  }

  /** A queue with room for `n` elements refuses one only if it held at least `n` at
      some moment of the call. */
  lemma RefusedOnlyWhenFull(run: seq<State>, i: nat, n: nat) returns (m: nat)
    requires IsRun(run) && run[0].largest > 1 && Roomy(run[0], n) && i < |run|
    requires run[i].producer.LoadFrontBlock? && InRange(run[i])
    requires run[i].blocks[run[i].tailBlock].next == run[i].frontBlock
    ensures m <= i && |run[m].enqueued| - |run[m].dequeued| >= n
    ensures forall j :: m < j <= i ==> run[j].producer == run[i].producer
  {
    if EachBlockHolds(run[0], n) {
      m := FullMoment(run, i);
      StaysRoomy(run, m, n);
    } else {
      m := i;
      StaysRoomy(run, i, n);
      var g := RunInv(run, i);
      AllBlocksFull(run[i], g);
    }
  }

  // ---- ceilToPow2 --------------------------------------------------------

  predicate Bit(x: nat, i: nat) {
    if i == 0 then x % 2 == 1 else Bit(x / 2, i - 1)
  }

  /** Bitwise or. */
  function Or(a: nat, b: nat): nat {
    if a == 0 && b == 0 then 0 else 2 * Or(a / 2, b / 2) + (if a % 2 == 1 || b % 2 == 1 then 1 else 0)
  }

  function ShiftRight(x: nat, t: nat): nat {
    if t == 0 then x else ShiftRight(x / 2, t - 1)
  }

  lemma OrHalves(a: nat, b: nat)
    ensures Or(a, b) / 2 == Or(a / 2, b / 2)
    ensures Or(a, b) % 2 == 1 <==> a % 2 == 1 || b % 2 == 1
  {
    var q, r := Or(a / 2, b / 2), if a % 2 == 1 || b % 2 == 1 then 1 else 0;
    assert Or(a, b) == 2 * q + r;
  }

  lemma {:induction false} OrBit(a: nat, b: nat, i: nat)
    ensures Bit(Or(a, b), i) <==> Bit(a, i) || Bit(b, i)
  {
    OrHalves(a, b);
    if i > 0 { OrBit(a / 2, b / 2, i - 1); }
  }

  lemma {:induction false} OrBelow(a: nat, b: nat, n: nat)
    requires a < Pow2(n) && b < Pow2(n)
    ensures Or(a, b) < Pow2(n)
  {
    if n > 0 { OrBelow(a / 2, b / 2, n - 1); }
  }

  lemma {:induction false} ShiftBit(x: nat, t: nat, i: nat)
    ensures Bit(ShiftRight(x, t), i) <==> Bit(x, i + t)
    ensures ShiftRight(x, t) <= x
  {
    if t > 0 { ShiftBit(x / 2, t - 1, i); }
  }

  lemma {:induction false} AllOnes(x: nat, n: nat)
    requires x < Pow2(n) && forall i :: 0 <= i < n ==> Bit(x, i)
    ensures x == Pow2(n) - 1
  {
    if n > 0 {
      assert Bit(x, 0);
      forall i | 0 <= i < n - 1 ensures Bit(x / 2, i) { assert Bit(x, i + 1); }
      AllOnes(x / 2, n - 1);
    }
  }

  lemma {:induction false} TopBit(x: nat) returns (k: nat)
    requires x > 0
    ensures Pow2(k) <= x < Pow2(k + 1) && Bit(x, k)
  {
    if x == 1 { k := 0; } else { k := TopBit(x / 2); k := k + 1; }
  }

  /** `x` has its top bit at `k`, and the `t` bits from there down are all set. */
  ghost predicate TopOnes(x: nat, k: nat, t: nat) {
    x < Pow2(k + 1) && forall i: nat :: k < i + t && i <= k ==> Bit(x, i)
  }

  /** Or-ing with the number shifted by `t` doubles the run of set bits at the top. */
  lemma Smear(x: nat, k: nat, t: nat)
    requires TopOnes(x, k, t)
    ensures TopOnes(Or(x, ShiftRight(x, t)), k, 2 * t)
  {
    ShiftBit(x, t, 0);
    OrBelow(x, ShiftRight(x, t), k + 1);
    forall i: nat | k < i + 2 * t && i <= k ensures Bit(Or(x, ShiftRight(x, t)), i) {
      OrBit(x, ShiftRight(x, t), i);
      ShiftBit(x, t, i);
    }
  }

  lemma SmearZero(t: nat)
    ensures Or(0, ShiftRight(0, t)) == 0
  {
    ShiftBit(0, t, 0);
  }

  /** `r` is the least power of two that is not below `x`. */
  ghost predicate IsCeiling(r: nat, x: nat) {
    exists k: nat :: r == Pow2(k) && x <= Pow2(k) && (k > 0 ==> Pow2(k - 1) < x)
  }

  /** What `ceilToPow2` makes of a word: zero, and numbers past the last power of two, give
      zero. */
  ghost predicate RoundedUp(r: nat, x: nat) { if 0 < x <= HALF then IsCeiling(r, x) else r == 0 }

  lemma WordPowers()
    ensures Pow2(63) == HALF && Pow2(64) == WORD
  {
    assert Pow2(8) == 0x100;
    Pow2Divides(8, 16);
    Pow2Divides(16, 32);
    Pow2Divides(32, 64);
  }

  /** The result, from the position `k` of the top bit of `x0 - 1`. */
  lemma Ceiling(x0: nat, k: nat, r: nat)
    requires x0 < WORD && Pow2(k) <= Wrap(x0 - 1) < Pow2(k + 1) && r == Wrap(Pow2(k + 1))
    ensures RoundedUp(r, x0)
  {
    WordPowers();
    if k > 63 { Pow2Monotone(64, k); }
    if k < 63 { Pow2Monotone(k + 1, 63); }
    if 0 < x0 <= HALF { assert Pow2(k + 1 - 1) < x0; }
  }

  /** The run of set bits at the top of `x0 - 1`, whose top bit is `k`, after it has been
      smeared to a length of `t`; for `x0 == 1` there is none. */
  ghost predicate Smeared(x: nat, x0: nat, k: nat, t: nat) {
    if x0 == 1 then x == 0 else TopOnes(x, k, t) && Pow2(k) <= Wrap(x0 - 1) < Pow2(k + 1)
  }

  lemma SmearStart(x0: nat) returns (k: nat)
    requires x0 < WORD
    ensures Smeared(Wrap(x0 - 1), x0, k, 1)
  {
    k := 0;
    if x0 != 1 { k := TopBit(Wrap(x0 - 1)); }
  }

  lemma SmearStep(x: nat, x0: nat, k: nat, t: nat)
    requires Smeared(x, x0, k, t)
    ensures Smeared(Or(x, ShiftRight(x, t)), x0, k, 2 * t)
  {
    if x0 == 1 { SmearZero(t); } else { Smear(x, k, t); }
  }

  /** Below a top bit of at most 63 all bits are set. */
  lemma SmearEnd(x: nat, x0: nat, k: nat)
    requires x0 < WORD && Smeared(x, x0, k, 64)
    ensures RoundedUp(Wrap(x + 1), x0)
  {
    if x0 == 1 {
      assert Pow2(0) == Wrap(x + 1);
    } else {
      TopBelowWord(x0, k);
      AllOnes(x, k + 1);
      Ceiling(x0, k, Wrap(x + 1));
    }
  }

  lemma TopBelowWord(x0: nat, k: nat)
    requires Pow2(k) <= Wrap(x0 - 1)
    ensures k <= 63
  {
    WordPowers();
    if k > 63 { Pow2Monotone(64, k); }
  }

  /** `ceilToPow2` on 64-bit words. */
  method CeilToPow2(x0: nat) returns (r: nat)
    requires x0 < WORD
    ensures RoundedUp(r, x0)
  {
    var x := Wrap(x0 - 1);
    ghost var k := SmearStart(x0);
    SmearStep(x, x0, k, 1);
    x := Or(x, ShiftRight(x, 1));
    SmearStep(x, x0, k, 2);
    x := Or(x, ShiftRight(x, 2));
    SmearStep(x, x0, k, 4);
    x := Or(x, ShiftRight(x, 4));
    var i := 1;
    while i < 8
      invariant i in {1, 2, 4, 8} && Smeared(x, x0, k, 8 * i)
    {
      SmearStep(x, x0, k, 8 * i);
      x := Or(x, ShiftRight(x, 8 * i));
      i := i * 2;
    }
    SmearEnd(x, x0, k);
    r := Wrap(x + 1);
  }

  // ---- the constructor ---------------------------------------------------

  function EmptyBlock(size: nat, next: nat): Block { Block(size, 0, 0, 0, 0, next, seq(size, _ => 0)) }

  /** A closed ring of empty blocks. */
  function RingOf(count: nat, size: nat): (blocks: seq<Block>)
    ensures |blocks| == count
  {
    seq(count, b requires 0 <= b < count => EmptyBlock(size, NextOf(b, count)))
  }

  function NextOf(b: nat, count: nat): nat { if b + 1 < count then b + 1 else 0 }

  lemma RingAt(count: nat, size: nat, b: nat)
    requires b < count
    ensures RingOf(count, size)[b] == EmptyBlock(size, NextOf(b, count))
  {
  }

  lemma Relinked(size: nat, i: nat)
    ensures EmptyBlock(size, 0).(next := i) == EmptyBlock(size, i)
  {
  }

  lemma RingGrows(i: nat, size: nat)
    ensures RingOf(i + 1, size)
         == (if i > 0 then RingOf(i, size)[i - 1 := RingOf(i, size)[i - 1].(next := i)] else []) + [EmptyBlock(size, 0)]
  {
    var before := if i > 0 then RingOf(i, size)[i - 1 := RingOf(i, size)[i - 1].(next := i)] else [];
    var after := before + [EmptyBlock(size, 0)];
    forall b: nat | b <= i ensures RingOf(i + 1, size)[b] == after[b] {
      RingAt(i + 1, size, b);
      if b < i {
        RingAt(i, size, b);
        Relinked(size, i);
      }
    }
  }

  /** The blocks for `size` elements, where `size + 1` was rounded up to `largest`. */
  function Built(size: nat, largest: nat): State {
    if largest > MAX_BLOCK_SIZE * 2 then
      var count := (size + MAX_BLOCK_SIZE * 2 - 3) / (MAX_BLOCK_SIZE - 1);
      State(RingOf(count, MAX_BLOCK_SIZE), 0, 0, MAX_BLOCK_SIZE, PIdle, CIdle, [], [])
    else State([EmptyBlock(largest, 0)], 0, 0, largest, PIdle, CIdle, [], [])
  }

  /** A new queue for `size` elements. */
  ghost predicate Constructed(s: State, size: nat) {
    exists largest: nat :: RoundedUp(largest, Wrap(size + 1)) && s == Built(size, largest)
  }

  /** The constructor; `size` is any word. */
  method Construct(size: nat) returns (s: State)
    requires size < WORD
    ensures Constructed(s, size)
  {
    var largest := CeilToPow2(Wrap(size + 1));
    ghost var rounded: nat := largest;
    var blocks: seq<Block>;
    if largest > MAX_BLOCK_SIZE * 2 {
      var count := (size + MAX_BLOCK_SIZE * 2 - 3) / (MAX_BLOCK_SIZE - 1);
      largest := MAX_BLOCK_SIZE;
      blocks := [];
      var i := 0;
      while i != count
        invariant i <= count && blocks == RingOf(i, largest)
      {
        RingGrows(i, largest);
        if i > 0 { blocks := blocks[i - 1 := blocks[i - 1].(next := i)]; }
        blocks := blocks + [EmptyBlock(largest, 0)];
        i := i + 1;
      }
    } else {
      blocks := [EmptyBlock(largest, 0)];
    }
    s := State(blocks, 0, 0, largest, PIdle, CIdle, [], []);
    assert s == Built(size, rounded);
  }

  /** A new queue has room for the elements it was constructed for; for none, its blocks
      have one slot. */
  lemma ConstructedRoomy(s: State, size: nat)
    requires Constructed(s, size) && size < HALF
    ensures Init(s) && Roomy(s, size)
    ensures if size > 0 then s.largest > 1 else s == State([EmptyBlock(1, 0)], 0, 0, 1, PIdle, CIdle, [], [])
  {
    var largest: nat :| RoundedUp(largest, Wrap(size + 1)) && s == Built(size, largest);
    BuiltRoomy(size, largest);
  }

  lemma BuiltRoomy(size: nat, largest: nat)
    requires size < HALF && IsCeiling(largest, size + 1)
    ensures Init(Built(size, largest)) && Roomy(Built(size, largest), size)
    ensures var s := Built(size, largest);
            if size > 0 then s.largest > 1 else s == State([EmptyBlock(1, 0)], 0, 0, 1, PIdle, CIdle, [], [])
  {
    var k: nat :| largest == Pow2(k) && size + 1 <= Pow2(k) && (k > 0 ==> Pow2(k - 1) < size + 1);
    if largest > MAX_BLOCK_SIZE * 2 {
      ManyRoomy(size, largest);
    } else if size == 0 {
      assert k == 0;
    }
  }

  lemma ManyRoomy(size: nat, largest: nat)
    requires IsCeiling(largest, size + 1) && largest > MAX_BLOCK_SIZE * 2
    ensures Init(Built(size, largest)) && BlocksHold(Built(size, largest), size)
    ensures size > 0 && Built(size, largest).largest == MAX_BLOCK_SIZE
  {
    var count := (size + MAX_BLOCK_SIZE * 2 - 3) / (MAX_BLOCK_SIZE - 1);
    EnoughBlocks(size, count, largest);
    var blocks := RingOf(count, MAX_BLOCK_SIZE);
    forall b: nat | b < count
      ensures blocks[b] == Block(MAX_BLOCK_SIZE, 0, 0, 0, 0, NextOf(b, count), blocks[b].data)
              && |blocks[b].data| == MAX_BLOCK_SIZE
    {
      RingAt(count, MAX_BLOCK_SIZE, b);
    }
  }

  lemma EnoughBlocks(size: nat, count: nat, largest: nat)
    requires count == (size + MAX_BLOCK_SIZE * 2 - 3) / (MAX_BLOCK_SIZE - 1)
    requires IsCeiling(largest, size + 1) && largest > MAX_BLOCK_SIZE * 2
    ensures count >= 2 && (count - 1) * (MAX_BLOCK_SIZE - 1) >= size
  {
    assert size >= MAX_BLOCK_SIZE by {
      var k: nat :| largest == Pow2(k) && (k > 0 ==> Pow2(k - 1) < size + 1);
      assert Pow2(k) == 2 * Pow2(k - 1);
    }
  }

  // ---- which sizes are safe ------------------------------------------------

  /** `i & sizeMask` in a block that was made for `size` slots. */
  function Masked(i: nat, size: nat): nat { And(i, Wrap(size - 1)) }

  /** For a power of two the mask takes the remainder; for no slots it takes nothing away. */
  lemma MaskedIs(i: nat, k: nat)
    requires k < 64
    ensures Masked(i, Pow2(k)) == i % Pow2(k)
    ensures Masked(i, 0) == i % WORD
  {
    WordPowers();
    Pow2Monotone(k, 63);
    MaskIsRemainder(i, k);
    MaskIsRemainder(i, 64);
  }

  /** If the first `enqueue` finds room, the slot it writes is one of the block. */
  ghost predicate FirstWriteInside(s: State) {
    && s.tailBlock < |s.blocks|
    && var x := s.blocks[s.tailBlock]; Masked(x.tail + 1, x.size) != x.localFront ==> x.tail < |x.data|
  }

  /** All accesses are in range, the assertions hold, and what has been taken is the first
      part of what was enqueued. */
  ghost predicate Sound(s: State) {
    && InRange(s) && s.dequeued <= s.enqueued
    && (s.consumer.LoadNextTail? ==> s.blocks[s.consumer.nb].front != s.blocks[s.consumer.nb].tail)
    && (s.producer.LoadNextFront? ==> var y := s.blocks[s.blocks[s.tailBlock].next]; y.front == y.tail)
  }

  ghost predicate AllSound(run: seq<State>) { forall i :: 0 <= i < |run| ==> Sound(run[i]) }

  ghost predicate Safe(s: State) {
    FirstWriteInside(s) && forall run :: IsRun(run) && run[0] == s ==> AllSound(run)
  }

  lemma RunSound(run: seq<State>)
    requires IsRun(run) && run[0].largest > 1
    ensures AllSound(run)
  {
    forall i | 0 <= i < |run| ensures Sound(run[i]) {
      FifoOrder(run, i);
      AssertionsHold(run, i);
    }
  }

  /** From 2^63 elements on the rounded size is zero: the queue has one block without
      slots, and the first `enqueue` writes behind it. */
  lemma HugeSizeFails(s: State, size: nat)
    requires HALF <= size < WORD && Constructed(s, size)
    ensures !FirstWriteInside(s)
  {
    MaskedIs(1, 0);
  }

  /** A new queue is safe in all runs exactly when it is for at least one and fewer than
      2^63 elements. */
  lemma SafeExactly(s: State, size: nat)
    requires size < WORD && Constructed(s, size)
    ensures Safe(s) <==> 0 < size < HALF
  {
    if size >= HALF {
      HugeSizeFails(s, size);
    } else if size == 0 {
      var run := ZeroSizeFails(s);
      assert !Sound(run[|run| - 1]);
    } else {
      ConstructedRoomy(s, size);
      forall run | IsRun(run) && run[0] == s ensures AllSound(run) { RunSound(run); }
    }
  }

  // ---- a queue for no elements -------------------------------------------

  function Last(run: seq<State>): State
    requires run != []
  {
    run[|run| - 1]
  }

  lemma DoProduce(run: seq<State>, v: Value, alloc: bool) returns (run': seq<State>)
    requires IsRun(run) && InRange(Last(run))
    ensures IsRun(run') && run'[0] == run[0] && Last(run') == Produce(Last(run), v, alloc)
  {
    run' := run + [Produce(Last(run), v, alloc)];
    AppendRun(run, Produce(Last(run), v, alloc));
  }

  lemma DoConsume(run: seq<State>) returns (run': seq<State>)
    requires IsRun(run) && InRange(Last(run))
    ensures IsRun(run') && run'[0] == run[0] && Last(run') == Consume(Last(run))
  {
    run' := run + [Consume(Last(run))];
    AppendRun(run, Consume(Last(run)));
  }

  lemma AppendRun(run: seq<State>, s: State)
    requires IsRun(run) && Step(Last(run), s)
    ensures IsRun(run + [s])
  {
    var run' := run + [s];
    forall i | 0 <= i < |run'| - 1 ensures StepAt(run', i) {
      if i < |run| - 1 { assert StepAt(run, i); }
    }
  }

  function Two(b0: Block, b1: Block, front: nat, tail: nat, enqueued: seq<Value>, dequeued: seq<Value>): State {
    State([b0, b1], front, tail, 2, PIdle, CIdle, enqueued, dequeued)
  }

  lemma OneSlot()
    ensures EmptyBlock(1, 0) == Block(1, 0, 0, 0, 0, 0, [0])
    ensures NewBlock(2, 0, 1) == Block(2, 0, 1, 1, 0, 0, [1, 1])
  {
  }

  /** The constructor's result for size 0, and `enqueue(1)`: a second block. */
  lemma EnqueueFirst(s0: State) returns (run: seq<State>)
    requires s0 == State([EmptyBlock(1, 0)], 0, 0, 1, PIdle, CIdle, [], [])
    ensures IsRun(run) && run[0] == s0
    ensures Last(run) == Two(Block(1, 0, 0, 0, 0, 1, [0]), Block(2, 0, 1, 1, 0, 0, [1, 1]), 0, 1, [1], [])
  {
    OneSlot();
    assert s0 == State([Block(1, 0, 0, 0, 0, 0, [0])], 0, 0, 1, PIdle, CIdle, [], []);
    run := [s0];
    run := DoProduce(run, 1, true);
    run := DoProduce(run, 1, true);
    assert Last(run) == s0.(producer := LoadFrontBlock(1, true));
    run := DoProduce(run, 1, true);
    assert Last(run) == s0.(producer := LinkNew(1));
    run := LinkFirst(run, s0);
  }

  lemma LinkFirst(run0: seq<State>, s0: State) returns (run: seq<State>)
    requires s0 == State([Block(1, 0, 0, 0, 0, 0, [0])], 0, 0, 1, PIdle, CIdle, [], [])
    requires IsRun(run0) && Last(run0) == s0.(producer := LinkNew(1))
    ensures IsRun(run) && run[0] == run0[0]
    ensures Last(run) == Two(Block(1, 0, 0, 0, 0, 1, [0]), Block(2, 0, 1, 1, 0, 0, [1, 1]), 0, 1, [1], [])
  {
    OneSlot();
    run := DoProduce(run0, 1, true);
    assert Last(run).blocks == [Block(1, 0, 0, 0, 0, 1, [0]), Block(2, 0, 1, 1, 0, 0, [1, 1])];
    run := DoProduce(run, 1, true);
  }

  lemma AdvanceToFirst(run0: seq<State>) returns (run: seq<State>)
    requires IsRun(run0)
    requires Last(run0) == Two(Block(1, 0, 0, 0, 0, 1, [0]), Block(2, 0, 1, 1, 0, 0, [1, 1]), 0, 1, [1], [])
    ensures IsRun(run) && run[0] == run0[0] && Last(run) == Last(run0).(frontBlock := 1, consumer := Read)
  {
    run := DequeueFirstHalf(run0);
    run := DoConsume(run);
    assert Last(run).blocks == Last(run0).blocks;
    run := DoConsume(run);
  }

  lemma DequeueFirst(run0: seq<State>) returns (run: seq<State>)
    requires IsRun(run0)
    requires Last(run0) == Two(Block(1, 0, 0, 0, 0, 1, [0]), Block(2, 0, 1, 1, 0, 0, [1, 1]), 0, 1, [1], [])
    ensures IsRun(run) && run[0] == run0[0]
    ensures Last(run) == Two(Block(1, 0, 0, 0, 0, 1, [0]), Block(2, 1, 1, 1, 0, 0, [1, 1]), 1, 1, [1], [1])
  {
    run := AdvanceToFirst(run0);
    run := DoConsume(run);
    run := DoConsume(run);
    assert Last(run).blocks == [Block(1, 0, 0, 0, 0, 1, [0]), Block(2, 1, 1, 1, 0, 0, [1, 1])];
  }

  lemma DequeueFirstHalf(run0: seq<State>) returns (run: seq<State>)
    requires IsRun(run0)
    requires Last(run0) == Two(Block(1, 0, 0, 0, 0, 1, [0]), Block(2, 0, 1, 1, 0, 0, [1, 1]), 0, 1, [1], [])
    ensures IsRun(run) && run[0] == run0[0]
    ensures Last(run) == Last(run0).(consumer := LoadNextTail(1))
  {
    run := LookTwice(run0, 1);
    run := DoConsume(run);
  }

  /** The consumer finds the front block empty, and the tail block elsewhere. */
  lemma LookTwice(run0: seq<State>, tail: nat) returns (run: seq<State>)
    requires IsRun(run0) && InRange(Last(run0)) && Last(run0).consumer == CIdle
    requires var s := Last(run0); var x := s.blocks[s.frontBlock];
             x.front == x.localTail == x.tail && s.tailBlock == tail != s.frontBlock
    ensures IsRun(run) && run[0] == run0[0] && Last(run) == Last(run0).(consumer := LoadNext)
  {
    var s := Last(run0);
    run := DoConsume(run0);
    assert Last(run) == s.(consumer := LoadTail);
    run := DoConsume(run);
    assert Last(run).blocks == s.blocks && Last(run) == s.(consumer := LoadTailBlock);
    run := DoConsume(run);
    assert Last(run) == s.(consumer := ReloadTail);
    run := DoConsume(run);
    assert Last(run).blocks == s.blocks;
  }

  lemma FindRoom(run0: seq<State>) returns (run: seq<State>)
    requires IsRun(run0)
    requires Last(run0) == Two(Block(1, 0, 0, 0, 0, 1, [0]), Block(2, 1, 1, 1, 0, 0, [1, 1]), 1, 1, [1], [1])
    ensures IsRun(run) && run[0] == run0[0]
    ensures Last(run) == Last(run0).(blocks := Last(run).blocks, producer := Write(2))
    ensures Last(run).blocks == [Block(1, 0, 0, 0, 0, 1, [0]), Block(2, 1, 1, 1, 1, 0, [1, 1])]
  {
    run := DoProduce(run0, 2, true);
    assert Last(run) == Last(run0).(producer := LoadFront(2, true));
    run := DoProduce(run, 2, true);
  }

  lemma EnqueueSecond(run0: seq<State>) returns (run: seq<State>)
    requires IsRun(run0)
    requires Last(run0) == Two(Block(1, 0, 0, 0, 0, 1, [0]), Block(2, 1, 1, 1, 0, 0, [1, 1]), 1, 1, [1], [1])
    ensures IsRun(run) && run[0] == run0[0]
    ensures Last(run) == Two(Block(1, 0, 0, 0, 0, 1, [0]), Block(2, 1, 1, 0, 1, 0, [1, 2]), 1, 1, [1, 2], [1])
  {
    run := FindRoom(run0);
    run := DoProduce(run, 2, true);
    assert [1, 1][1 := 2] == [1, 2];
    assert Last(run).blocks == [Block(1, 0, 0, 0, 0, 1, [0]), Block(2, 1, 1, 1, 1, 0, [1, 2])];
    run := DoProduce(run, 2, true);
    assert Last(run).blocks == [Block(1, 0, 0, 0, 0, 1, [0]), Block(2, 1, 1, 0, 1, 0, [1, 2])];
  }

  lemma FindNext(run0: seq<State>) returns (run: seq<State>)
    requires IsRun(run0)
    requires Last(run0) == Two(Block(1, 0, 0, 0, 0, 1, [0]), Block(2, 1, 1, 0, 1, 0, [1, 2]), 1, 1, [1, 2], [1])
    ensures IsRun(run) && run[0] == run0[0] && Last(run) == Last(run0).(producer := LoadNextFront(3))
  {
    run := DoProduce(run0, 3, true);
    assert Last(run) == Last(run0).(producer := LoadFront(3, true));
    run := DoProduce(run, 3, true);
    assert Last(run).blocks == Last(run0).blocks;
    assert Last(run) == Last(run0).(producer := LoadFrontBlock(3, true));
    run := DoProduce(run, 3, true);
  }

  /** The third element goes to the block of one slot, whose tail stays where it was. */
  lemma EnqueueThird(run0: seq<State>) returns (run: seq<State>)
    requires IsRun(run0)
    requires Last(run0) == Two(Block(1, 0, 0, 0, 0, 1, [0]), Block(2, 1, 1, 0, 1, 0, [1, 2]), 1, 1, [1, 2], [1])
    ensures IsRun(run) && run[0] == run0[0]
    ensures Last(run) == Two(Block(1, 0, 0, 0, 0, 1, [3]), Block(2, 1, 1, 0, 1, 0, [1, 2]), 1, 0, [1, 2, 3], [1])
  {
    run := FindNext(run0);
    run := DoProduce(run, 3, true);
    assert Last(run).blocks == Last(run0).blocks;
    assert Last(run) == Last(run0).(producer := WriteNext(3));
    run := EnqueueThirdHalf(run0, run);
  }

  lemma EnqueueThirdHalf(run0: seq<State>, run1: seq<State>) returns (run: seq<State>)
    requires IsRun(run1) && run0 != [] && Last(run1) == Last(run0).(producer := WriteNext(3))
    requires Last(run0) == Two(Block(1, 0, 0, 0, 0, 1, [0]), Block(2, 1, 1, 0, 1, 0, [1, 2]), 1, 1, [1, 2], [1])
    ensures IsRun(run) && run[0] == run1[0]
    ensures Last(run) == Two(Block(1, 0, 0, 0, 0, 1, [3]), Block(2, 1, 1, 0, 1, 0, [1, 2]), 1, 0, [1, 2, 3], [1])
  {
    run := DoProduce(run1, 3, true);
    assert [0][0 := 3] == [3];
    assert Last(run).blocks == [Block(1, 0, 0, 0, 0, 1, [3]), Block(2, 1, 1, 0, 1, 0, [1, 2])];
    run := DoProduce(run, 3, true);
    assert Last(run).blocks == [Block(1, 0, 0, 0, 0, 1, [3]), Block(2, 1, 1, 0, 1, 0, [1, 2])];
    run := DoProduce(run, 3, true);
    assert Last(run).enqueued == [1, 2, 3];
  }

  lemma DequeueSecond(run0: seq<State>) returns (run: seq<State>)
    requires IsRun(run0)
    requires Last(run0) == Two(Block(1, 0, 0, 0, 0, 1, [3]), Block(2, 1, 1, 0, 1, 0, [1, 2]), 1, 0, [1, 2, 3], [1])
    ensures IsRun(run) && run[0] == run0[0]
    ensures Last(run) == Two(Block(1, 0, 0, 0, 0, 1, [3]), Block(2, 0, 0, 0, 1, 0, [1, 2]), 1, 0, [1, 2, 3], [1, 2])
  {
    run := DoConsume(run0);
    run := DoConsume(run);
    run := DoConsume(run);
    run := DoConsume(run);
  }

  lemma AdvanceToEmpty(run0: seq<State>) returns (run: seq<State>)
    requires IsRun(run0)
    requires Last(run0) == Two(Block(1, 0, 0, 0, 0, 1, [3]), Block(2, 0, 0, 0, 1, 0, [1, 2]), 1, 0, [1, 2, 3], [1, 2])
    ensures IsRun(run) && run[0] == run0[0]
    ensures Last(run) == Last(run0).(consumer := LoadNextTail(0))
  {
    run := LookTwice(run0, 0);
    run := DoConsume(run);
  }

  /** A queue constructed for no elements has a block of one slot, in which an element
      cannot be seen: after three calls of `enqueue` and two of `try_dequeue` the third
      `try_dequeue` fails its assertion. */
  lemma ZeroSizeFails(s0: State) returns (run: seq<State>)
    requires Constructed(s0, 0)
    ensures IsRun(run) && run[0] == s0
    ensures var s := Last(run); InRange(s) && s.consumer.LoadNextTail? && |s.dequeued| < |s.enqueued|
    ensures var s := Last(run); s.blocks[s.consumer.nb].front == s.blocks[s.consumer.nb].tail
  {
    ConstructedRoomy(s0, 0);
    run := EnqueueFirst(s0);
    run := DequeueFirst(run);
    run := EnqueueSecond(run);
    run := EnqueueThird(run);
    run := DequeueSecond(run);
    run := AdvanceToEmpty(run);
  }
}
