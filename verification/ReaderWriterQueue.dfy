/** The lock-free queue for one producer and one consumer (`ReaderWriterQueue` in
    readerwriterqueue.h): a ring of ring buffers with cached copies of the other
    thread's index.

    One step of the model is one access of a variable that the other thread also
    accesses; reads of variables that only the reading thread writes are done
    together with the step before them. */
module ReaderWriterQueue {
  import opened Circular
  import opened Counting

  type Value = int

  const MAX_BLOCK_SIZE: nat := 512

  /** `front` and `localTail` belong to the consumer, `tail`, `localFront` and `next`
      to the producer. */
  datatype Block = Block(size: nat, front: nat, localTail: nat, tail: nat, localFront: nat, next: nat, data: seq<Value>)

  /** The next step of `inner_enqueue`; `alloc` is the allocation mode. */
  datatype ProducerPc =
    | PIdle
    | LoadFront(v: Value, alloc: bool)       // the tail block looks full: load its front
    | Write(v: Value)                        // construct the element in the tail block
    | StoreTail(v: Value)
    | LoadFrontBlock(v: Value, alloc: bool)  // the tail block is full: is the next one free?
    | LoadNextFront(v: Value)                // use the next block: load its front
    | WriteNext(v: Value)
    | StoreNextTail(v: Value)
    | LinkNew(v: Value)                      // link a new block that holds the element
    | StoreTailBlock(v: Value, nb: nat)

  /** The next step of `try_dequeue`. */
  datatype ConsumerPc =
    | CIdle
    | LoadTail            // the front block looks empty: load its tail
    | LoadTailBlock       // the front block is empty: is it the tail block?
    | ReloadTail          // no: look at it again
    | LoadNext            // still empty: load its next
    | LoadNextTail(nb: nat)
    | StoreFrontBlock(nb: nat)
    | Read
    | StoreFront(v: Value)

  /** `enqueued` and `dequeued` are the histories of the two ends. */
  datatype State = State(
    blocks: seq<Block>, frontBlock: nat, tailBlock: nat, largest: nat,
    producer: ProducerPc, consumer: ConsumerPc,
    enqueued: seq<Value>, dequeued: seq<Value>)

  ghost predicate InRange(s: State) {
    && s.frontBlock < |s.blocks| && s.tailBlock < |s.blocks|
    && (forall b :: 0 <= b < |s.blocks| ==>
          var x := s.blocks[b];
          0 < x.size == |x.data| && x.next < |s.blocks| && x.front < x.size && x.tail < x.size)
    && (s.producer.StoreTailBlock? ==> s.producer.nb < |s.blocks|)
    && (s.consumer.LoadNextTail? ==> s.consumer.nb < |s.blocks|)
    && (s.consumer.StoreFrontBlock? ==> s.consumer.nb < |s.blocks|)
  }

  function Put(s: State, b: nat, x: Block): State
    requires b < |s.blocks|
  {
    s.(blocks := s.blocks[b := x])
  }

  function NewBlockSize(largest: nat): nat {
    if largest >= MAX_BLOCK_SIZE then largest else largest * 2
  }

  function NewBlock(size: nat, next: nat, v: Value): Block {
    Block(size, 0, 1, 1, 0, next, seq(size, _ => v))
  }

  /** One step of `inner_enqueue`; `PIdle` starts a call with `v` and `alloc`. */
  ghost function Produce(s: State, v0: Value, alloc0: bool): State
    requires InRange(s)
  {
    var tb := s.tailBlock;
    var x := s.blocks[tb];
    var after := (x.tail + 1) % x.size;
    match s.producer
    case PIdle => s.(producer := if after != x.localFront then Write(v0) else LoadFront(v0, alloc0))
    case LoadFront(v, alloc) =>
      Put(s, tb, x.(localFront := x.front)).(producer := if after != x.front then Write(v)
          else LoadFrontBlock(v, alloc))
    case Write(v) => Put(s, tb, x.(data := x.data[x.tail := v])).(producer := StoreTail(v))
    case StoreTail(v) => Put(s, tb, x.(tail := after)).(producer := PIdle, enqueued := s.enqueued + [v])
    case LoadFrontBlock(v, alloc) =>
      s.(producer := if x.next != s.frontBlock then LoadNextFront(v) else if alloc then LinkNew(v) else PIdle)
    case LoadNextFront(v) =>
      var y := s.blocks[x.next];
      Put(s, x.next, y.(localFront := y.front)).(producer := WriteNext(v))
    case WriteNext(v) =>
      var y := s.blocks[x.next];
      Put(s, x.next, y.(data := y.data[y.tail := v])).(producer := StoreNextTail(v))
    case StoreNextTail(v) =>
      var y := s.blocks[x.next];
      Put(s, x.next, y.(tail := (y.tail + 1) % y.size)).(producer := StoreTailBlock(v, x.next))
    case LinkNew(v) =>
      var size := NewBlockSize(s.largest);
      s.(blocks := s.blocks[tb := x.(next := |s.blocks|)] + [NewBlock(size, x.next, v)],
         largest := size, producer := StoreTailBlock(v, |s.blocks|))
    case StoreTailBlock(v, nb) => s.(tailBlock := nb, producer := PIdle, enqueued := s.enqueued + [v])
  }

  /** One step of `try_dequeue`; `CIdle` starts a call. */
  ghost function Consume(s: State): State
    requires InRange(s)
  {
    var fb := s.frontBlock;
    var x := s.blocks[fb];
    match s.consumer
    case CIdle => s.(consumer := if x.front != x.localTail then Read else LoadTail)
    case LoadTail => Put(s, fb, x.(localTail := x.tail)).(consumer := if x.front != x.tail then Read else LoadTailBlock)
    case LoadTailBlock => s.(consumer := if fb != s.tailBlock then ReloadTail else CIdle)
    case ReloadTail => Put(s, fb, x.(localTail := x.tail)).(consumer := if x.front != x.tail then Read else LoadNext)
    case LoadNext => s.(consumer := LoadNextTail(x.next))
    case LoadNextTail(nb) =>
      var y := s.blocks[nb];
      Put(s, nb, y.(localTail := y.tail)).(consumer := StoreFrontBlock(nb))
    case StoreFrontBlock(nb) => s.(frontBlock := nb, consumer := Read)
    case Read => s.(consumer := StoreFront(x.data[x.front]))
    case StoreFront(v) => Put(s, fb, x.(front := (x.front + 1) % x.size)).(consumer := CIdle,
        dequeued := s.dequeued + [v])
  }

  ghost predicate Produces(s: State, s': State) {
    InRange(s) && exists v, alloc :: s' == Produce(s, v, alloc)
  }

  ghost predicate Consumes(s: State, s': State) {
    InRange(s) && s' == Consume(s)
  }

  ghost predicate Step(s: State, s': State) { Produces(s, s') || Consumes(s, s') }

  /** What the constructor leaves: a closed ring of empty blocks of one size. */
  ghost predicate Init(s: State) {
    && s.blocks != [] && s.frontBlock == s.tailBlock == 0 && s.largest > 0
    && (forall b :: 0 <= b < |s.blocks| ==>
          s.blocks[b] == Block(s.largest, 0, 0, 0, 0, if b + 1 < |s.blocks| then b + 1 else 0, s.blocks[b].data)
          && |s.blocks[b].data| == s.largest)
    && s.producer == PIdle && s.consumer == CIdle
    && s.enqueued == [] && s.dequeued == []
  }

  // ---- ghost bookkeeping -------------------------------------------------

  /** Unbounded counterparts of a block's indices, and the position in the enqueued
      history of the block's first live element. */
  datatype Counters = Counters(front: nat, localTail: nat, tail: nat, localFront: nat, first: nat)

  /** The blocks in ring order from the front block; the tail block is `ring[k]`. */
  datatype Ghost = Ghost(ring: seq<nat>, k: nat, c: seq<Counters>)

  /** What has been enqueued, counting an element whose block is not yet published. */
  function Seen(s: State): seq<Value> {
    if s.producer.StoreTailBlock? then s.enqueued + [s.producer.v] else s.enqueued
  }

  ghost predicate Live(x: Block, c: Counters, seen: seq<Value>, e: nat)
    requires 0 < x.size == |x.data| && c.front <= e < c.tail && c.first + (c.tail - c.front) <= |seen|
  {
    x.data[e % x.size] == seen[c.first + (e - c.front)]
  }

  ghost predicate BlockOk(x: Block, c: Counters, seen: seq<Value>) {
    && 1 < x.size == |x.data|
    && c.localFront <= c.front <= c.localTail <= c.tail < c.localFront + x.size
    && x.front == c.front % x.size && x.tail == c.tail % x.size
    && x.localTail == c.localTail % x.size && x.localFront == c.localFront % x.size
    && c.first + (c.tail - c.front) <= |seen|
    && forall e :: c.front <= e < c.tail ==> Live(x, c, seen, e)
  }

  function Length(c: Counters): int { c.tail - c.front }

  function After(ring: seq<nat>, i: nat): nat
    requires i < |ring|
  {
    if i + 1 < |ring| then ring[i + 1] else ring[0]
  }

  ghost predicate RingOk(s: State, g: Ghost) {
    && |g.ring| == |s.blocks| == |g.c| && g.k < |g.ring|
    && (forall i :: 0 <= i < |g.ring| ==> g.ring[i] < |s.blocks|)
    && (forall i, j :: 0 <= i < j < |g.ring| ==> g.ring[i] != g.ring[j])
    && g.ring[0] == s.frontBlock && g.ring[g.k] == s.tailBlock
    && (forall i {:trigger After(g.ring, i)} :: 0 <= i < |g.ring| ==> s.blocks[g.ring[i]].next == After(g.ring, i))
  }

  ghost predicate InBounds(g: Ghost) {
    |g.ring| == |g.c| && g.k < |g.ring| && forall j :: 0 <= j < |g.ring| ==> g.ring[j] < |g.c|
  }

  /** Where block `i` of the ring starts in the enqueued history. */
  function StartOf(s: State, g: Ghost, i: nat): int
    requires i <= |g.ring| == |g.c| && forall j :: 0 <= j < |g.ring| ==> g.ring[j] < |g.c|
  {
    if i == 0 then |s.dequeued| else g.c[g.ring[i - 1]].first + Length(g.c[g.ring[i - 1]])
  }

  /** The live elements of the blocks up to the tail block are the undelivered part
      of the history, in order; every block between front and tail holds something,
      and every block beyond the tail is empty. */
  ghost predicate ChainOk(s: State, g: Ghost)
    requires InBounds(g)
  {
    && (forall i {:trigger StartOf(s, g, i)} :: 0 <= i <= g.k ==> g.c[g.ring[i]].first == StartOf(s, g, i))
    && StartOf(s, g, g.k + 1) == |s.enqueued|
    && (forall i :: 0 < i <= g.k ==> Length(g.c[g.ring[i]]) > 0)
    && (forall i :: g.k < i < |g.ring| && !(s.producer.StoreTailBlock? && i == g.k + 1) ==> Length(g.c[g.ring[i]]) == 0)
  }

  ghost predicate ProducerOk(s: State, g: Ghost)
    requires RingOk(s, g) && s.blocks[s.tailBlock].size > 0
    requires g.k + 1 < |g.ring| ==> s.blocks[g.ring[g.k + 1]].size > 0
  {
    var c := g.c[s.tailBlock];
    match s.producer
    case PIdle => true
    case LoadFront(_, _) => true
    case Write(_) => c.tail + 1 < c.localFront + s.blocks[s.tailBlock].size
    case StoreTail(v) =>
      && c.tail + 1 < c.localFront + s.blocks[s.tailBlock].size
      && c.tail % s.blocks[s.tailBlock].size < |s.blocks[s.tailBlock].data|
      && s.blocks[s.tailBlock].data[c.tail % s.blocks[s.tailBlock].size] == v
    case LoadFrontBlock(_, _) => true
    case LoadNextFront(_) => g.k + 1 < |g.ring|
    case WriteNext(_) => g.k + 1 < |g.ring| && g.c[g.ring[g.k + 1]].localFront == g.c[g.ring[g.k + 1]].front
    case StoreNextTail(v) =>
      && g.k + 1 < |g.ring|
      && var x, d := s.blocks[g.ring[g.k + 1]], g.c[g.ring[g.k + 1]];
         d.localFront == d.front && d.tail % x.size < |x.data| && x.data[d.tail % x.size] == v
    case LinkNew(_) => true
    case StoreTailBlock(_, nb) =>
      && g.k + 1 < |g.ring| && nb == g.ring[g.k + 1]
      && Length(g.c[nb]) == 1 && g.c[nb].first == |s.enqueued|
  }

  ghost predicate ConsumerOk(s: State, g: Ghost)
    requires RingOk(s, g)
  {
    var c := g.c[s.frontBlock];
    match s.consumer
    case CIdle => true
    case LoadTail => true
    case LoadTailBlock => true
    case ReloadTail => g.k > 0
    case LoadNext => g.k > 0 && Length(c) == 0
    case LoadNextTail(nb) => g.k > 0 && Length(c) == 0 && nb == g.ring[1]
    case StoreFrontBlock(nb) => g.k > 0 && Length(c) == 0 && nb == g.ring[1] && g.c[nb].front < g.c[nb].localTail
    case Read => c.front < c.localTail
    case StoreFront(v) => c.front < c.localTail && c.first < |s.enqueued| && v == s.enqueued[c.first]
  }

  /** The call has found the tail block full. */
  predicate TailWasFull(pc: ProducerPc) {
    pc.LoadFrontBlock? || pc.LoadNextFront? || pc.WriteNext? || pc.StoreNextTail? || pc.LinkNew? || pc.StoreTailBlock?
  }

  /** The producer leaves a block only when it is full, and the consumer takes from
      the front block only. */
  ghost predicate FullOk(s: State, g: Ghost)
    requires RingOk(s, g)
  {
    && (forall i :: 0 < i < g.k ==> Length(g.c[g.ring[i]]) == s.blocks[g.ring[i]].size - 1)
    && (TailWasFull(s.producer) && g.k > 0 ==> Length(g.c[s.tailBlock]) == s.blocks[s.tailBlock].size - 1)
  }

  ghost predicate BlocksOk(s: State, g: Ghost)
    requires |s.blocks| == |g.c|
  {
    forall b :: 0 <= b < |s.blocks| ==> BlockOk(s.blocks[b], g.c[b], Seen(s))
  }

  ghost predicate Inv(s: State, g: Ghost) {
    && s.largest > 1
    && RingOk(s, g)
    && BlocksOk(s, g) && ChainOk(s, g) && FullOk(s, g)
    && ProducerOk(s, g) && ConsumerOk(s, g)
    && |s.dequeued| <= |s.enqueued| && s.dequeued == s.enqueued[..|s.dequeued|]
  }

  // ---- arithmetic of the masked indices ----------------------------------

  lemma SameIndex(x: nat, y: nat, size: nat)
    requires size > 0 && x <= y < x + size
    ensures x % size == y % size <==> x == y
  {
    if x < y { SlotDistinct(x, y, 0, size); }
  }

  lemma NextIndex(x: nat, size: nat)
    requires size > 0
    ensures (x % size + 1) % size == (x + 1) % size
  {
    AddMod(x, 1, size);
  }

  /** The test for room: the incremented tail meets the cached front exactly when
      the counters are a whole block apart. */
  lemma FullTest(tail: nat, front: nat, size: nat)
    requires size > 0 && front <= tail < front + size
    ensures (tail % size + 1) % size == front % size <==> tail + 1 == front + size
  {
    NextIndex(tail, size);
    if tail + 1 == front + size {
      ModOfMultiple(front, size, 1);
    } else {
      SameIndex(front, tail + 1, size);
    }
  }

  // ---- the ring holds every block ----------------------------------------

  lemma InvInRange(s: State, g: Ghost)
    requires Inv(s, g)
    ensures InRange(s)
  {
    forall b | 0 <= b < |s.blocks|
      ensures var x := s.blocks[b]; 0 < x.size == |x.data| && x.next < |s.blocks| && x.front < x.size && x.tail < x.size
    {
      assert BlockOk(s.blocks[b], g.c[b], Seen(s));
      InRingOrder(s, g, b);
    }
  }

  lemma InRingOrder(s: State, g: Ghost, b: nat)
    requires RingOk(s, g) && b < |s.blocks|
    ensures b in g.ring && s.blocks[b].next < |s.blocks|
  {
    EveryNumberOccurs(g.ring, b);
    var i :| 0 <= i < |g.ring| && g.ring[i] == b;
    assert s.blocks[g.ring[i]].next == After(g.ring, i);
  }

  // ---- preservation: one block changes -----------------------------------

  lemma BlockKeeps(x: Block, c: Counters, seen: seq<Value>, seen': seq<Value>)
    requires BlockOk(x, c, seen) && seen <= seen'
    ensures BlockOk(x, c, seen')
  {
    forall e | c.front <= e < c.tail ensures Live(x, c, seen', e) { assert Live(x, c, seen, e); }
  }

  /** Ring and blocks after a step that changes block `b`, but not its `next`. */
  lemma OneBlock(s: State, g: Ghost, s': State, b: nat, x: Block, c: Counters)
    requires RingOk(s, g) && BlocksOk(s, g) && b < |s.blocks|
    requires s'.blocks == s.blocks[b := x] && x.next == s.blocks[b].next
    requires s'.frontBlock == s.frontBlock && s'.tailBlock == s.tailBlock
    requires Seen(s) <= Seen(s') && BlockOk(x, c, Seen(s'))
    ensures var g' := g.(c := g.c[b := c]); RingOk(s', g') && BlocksOk(s', g')
  {
    var g' := g.(c := g.c[b := c]);
    forall i {:trigger After(g'.ring, i)} | 0 <= i < |g'.ring| ensures s'.blocks[g'.ring[i]].next == After(g'.ring, i) {
      assert s.blocks[g.ring[i]].next == After(g.ring, i);
    }
    forall d | 0 <= d < |s'.blocks| ensures BlockOk(s'.blocks[d], g'.c[d], Seen(s')) {
      assert BlockOk(s.blocks[d], g.c[d], Seen(s));
      if d != b { BlockKeeps(s.blocks[d], g.c[d], Seen(s), Seen(s')); }
    }
  }

  /** The chain after a step that moves no element. */
  lemma ChainKeeps(s: State, g: Ghost, s': State, b: nat, c: Counters)
    requires RingOk(s, g) && ChainOk(s, g) && b < |s.blocks|
    requires c.first == g.c[b].first && Length(c) == Length(g.c[b])
    requires |s'.enqueued| == |s.enqueued| && |s'.dequeued| == |s.dequeued|
    requires s'.producer.StoreTailBlock? <==> s.producer.StoreTailBlock?
    ensures ChainOk(s', g.(c := g.c[b := c]))
  {
    var g' := g.(c := g.c[b := c]);
    assert forall d :: 0 <= d < |g.c| ==> g'.c[d].first == g.c[d].first && Length(g'.c[d]) == Length(g.c[d]);
    forall i {:trigger StartOf(s', g', i)} | 0 <= i <= g'.k ensures g'.c[g'.ring[i]].first == StartOf(s', g', i) {
      assert g.c[g.ring[i]].first == StartOf(s, g, i);
    }
  }

  lemma FullKeeps(s: State, g: Ghost, s': State, b: nat, c: Counters)
    requires RingOk(s, g) && FullOk(s, g) && b < |s.blocks|
    requires b == g.ring[0] || Length(c) == Length(g.c[b])
    requires |s'.blocks| == |s.blocks| && forall d :: 0 <= d < |s.blocks| ==> s'.blocks[d].size == s.blocks[d].size
    requires RingOk(s', g.(c := g.c[b := c])) && s'.tailBlock == s.tailBlock
    requires TailWasFull(s'.producer) && g.k > 0 ==> TailWasFull(s.producer)
                                                     || Length(g.c[s.tailBlock]) == s.blocks[s.tailBlock].size - 1
    ensures FullOk(s', g.(c := g.c[b := c]))
  {
    var g' := g.(c := g.c[b := c]);
    forall i | 0 < i < g'.k ensures Length(g'.c[g'.ring[i]]) == s'.blocks[g'.ring[i]].size - 1 {
      assert g.ring[i] != g.ring[0];
    }
  }

  // ---- preservation: the consumer ----------------------------------------

  /** The producer's claim depends on the tail block and the one after it only, and
      only on what the consumer does not write there. */
  lemma ProducerKeeps(s: State, g: Ghost, s': State, b: nat, x: Block, c: Counters)
    requires RingOk(s, g) && (forall d :: 0 <= d < |s.blocks| ==> s.blocks[d].size > 0)
    requires ProducerOk(s, g) && b < |s.blocks|
    requires RingOk(s', g.(c := g.c[b := c])) && s'.producer == s.producer && s'.tailBlock == s.tailBlock
    requires s'.blocks == s.blocks[b := x] && |s'.enqueued| == |s.enqueued|
    requires x.size == s.blocks[b].size > 0 && x.data == s.blocks[b].data
    requires var d := g.c[b];
             c.tail == d.tail && c.localFront == d.localFront
             && (b == g.ring[0] || (c.front == d.front && c.first == d.first))
    ensures ProducerOk(s', g.(c := g.c[b := c]))
  {
    var g' := g.(c := g.c[b := c]);
    assert s'.blocks[s.tailBlock].size == s.blocks[s.tailBlock].size
        && s'.blocks[s.tailBlock].data == s.blocks[s.tailBlock].data;
    assert g'.c[s.tailBlock].tail == g.c[s.tailBlock].tail
        && g'.c[s.tailBlock].localFront == g.c[s.tailBlock].localFront;
    if g.k + 1 < |g.ring| {
      var n := g.ring[g.k + 1];
      assert n != g.ring[0];
      assert s'.blocks[n].size == s.blocks[n].size && s'.blocks[n].data == s.blocks[n].data;
      assert g'.c[n].tail == g.c[n].tail && g'.c[n].localFront == g.c[n].localFront && g'.c[n].front == g.c[n].front
          && g'.c[n].first == g.c[n].first;
    }
  }

  lemma SizesPositive(s: State, g: Ghost)
    requires |s.blocks| == |g.c| && BlocksOk(s, g)
    ensures forall b :: 0 <= b < |s.blocks| ==> s.blocks[b].size > 1
  {
    forall b | 0 <= b < |s.blocks| ensures s.blocks[b].size > 1 { assert BlockOk(s.blocks[b], g.c[b], Seen(s)); }
  }

  lemma ConsumerMoves(s: State, g: Ghost, pc: ConsumerPc)
    requires Inv(s, g) && ConsumerOk(s.(consumer := pc), g)
    ensures Inv(s.(consumer := pc), g)
  {
    var s' := s.(consumer := pc);
    var b := s.frontBlock;
    assert BlockOk(s.blocks[b], g.c[b], Seen(s));
    assert g.(c := g.c[b := g.c[b]]) == g;
    SizesPositive(s, g);
    OneBlock(s, g, s', b, s.blocks[b], g.c[b]);
    ChainKeeps(s, g, s', b, g.c[b]);
    FullKeeps(s, g, s', b, g.c[b]);
    ProducerKeeps(s, g, s', b, s.blocks[b], g.c[b]);
  }

  lemma CopyTailBlock(x: Block, c: Counters, seen: seq<Value>)
    requires BlockOk(x, c, seen)
    ensures BlockOk(x.(localTail := x.tail), c.(localTail := c.tail), seen)
  {
    var x', c' := x.(localTail := x.tail), c.(localTail := c.tail);
    forall e | c'.front <= e < c'.tail ensures Live(x', c', seen, e) { assert Live(x, c, seen, e); }
  }

  /** The consumer copies the tail of block `b`. */
  lemma CopyTail(s: State, g: Ghost, b: nat, pc: ConsumerPc) returns (g': Ghost)
    requires Inv(s, g) && b < |s.blocks|
    requires pc == LoadTailBlock || (pc == Read && b == s.frontBlock && Length(g.c[b]) > 0)
             || (g.k > 0 && Length(g.c[s.frontBlock]) == 0
                   && (pc == LoadNext || (b == g.ring[1] && pc == StoreFrontBlock(b))))
    ensures g' == g.(c := g.c[b := g.c[b].(localTail := g.c[b].tail)])
    ensures Inv(Put(s, b, s.blocks[b].(localTail := s.blocks[b].tail)).(consumer := pc), g')
  {
    var x, c := s.blocks[b], g.c[b];
    var x', c' := x.(localTail := x.tail), c.(localTail := c.tail);
    var s' := Put(s, b, x').(consumer := pc);
    g' := g.(c := g.c[b := c']);
    CopyTailBlock(x, c, Seen(s));
    SizesPositive(s, g);
    OneBlock(s, g, s', b, x', c');
    ChainKeeps(s, g, s', b, c');
    FullKeeps(s, g, s', b, c');
    ProducerKeeps(s, g, s', b, x', c');
    assert ConsumerOk(s', g');
  }

  lemma LoadTailInv(s: State, g: Ghost) returns (g': Ghost)
    requires Inv(s, g) && InRange(s) && (s.consumer == LoadTail || s.consumer == ReloadTail)
    ensures Inv(Consume(s), g') && g'.ring == g.ring && g'.k == g.k
    ensures !Consume(s).consumer.Read? ==> Length(g'.c[s.frontBlock]) == 0
  {
    var fb := s.frontBlock;
    var x, c := s.blocks[fb], g.c[fb];
    assert BlockOk(x, c, Seen(s));
    SameIndex(c.front, c.tail, x.size);
    var pc := if x.front != x.tail then Read else if s.consumer == LoadTail then LoadTailBlock else LoadNext;
    g' := CopyTail(s, g, fb, pc);
  }

  lemma LoadNextTailInv(s: State, g: Ghost) returns (g': Ghost)
    requires Inv(s, g) && InRange(s) && s.consumer.LoadNextTail?
    ensures Inv(Consume(s), g')
  {
    g' := CopyTail(s, g, s.consumer.nb, StoreFrontBlock(s.consumer.nb));
  }

  /** Pure moves of the consumer. */
  lemma ConsumerLocalInv(s: State, g: Ghost)
    requires Inv(s, g) && InRange(s)
    requires s.consumer == CIdle || s.consumer == LoadTailBlock || s.consumer == LoadNext || s.consumer == Read
    ensures Inv(Consume(s), g)
  {
    var fb := s.frontBlock;
    var x, c := s.blocks[fb], g.c[fb];
    assert BlockOk(x, c, Seen(s));
    assert c.first == StartOf(s, g, 0);
    SameIndex(c.front, c.localTail, x.size);
    if s.consumer == Read {
      assert Live(x, c, Seen(s), c.front);
      FirstIsEnqueued(s, g);
    }
    if s.consumer == LoadNext { assert x.next == After(g.ring, 0); }
    ConsumerMoves(s, g, Consume(s).consumer);
  }

  /** Positions do not decrease along the chain. */
  lemma {:induction false} StartsGrow(s: State, g: Ghost, i: nat, j: nat)
    requires RingOk(s, g) && BlocksOk(s, g) && ChainOk(s, g) && i <= j <= g.k + 1
    ensures StartOf(s, g, i) <= StartOf(s, g, j)
    decreases j
  {
    if i < j {
      assert BlockOk(s.blocks[g.ring[j - 1]], g.c[g.ring[j - 1]], Seen(s));
      assert g.c[g.ring[j - 1]].first == StartOf(s, g, j - 1);
      StartsGrow(s, g, i, j - 1);
    }
  }

  /** A live element of the front block is in the enqueued history. */
  lemma FirstIsEnqueued(s: State, g: Ghost)
    requires RingOk(s, g) && BlocksOk(s, g) && ChainOk(s, g) && Length(g.c[s.frontBlock]) > 0
    ensures |s.dequeued| == g.c[s.frontBlock].first < |s.enqueued|
  {
    assert g.c[g.ring[0]].first == StartOf(s, g, 0);
    assert StartOf(s, g, 1) == g.c[g.ring[0]].first + Length(g.c[g.ring[0]]);
    StartsGrow(s, g, 1, g.k + 1);
  }

  lemma PopBlock(x: Block, c: Counters, seen: seq<Value>, after: nat)
    requires BlockOk(x, c, seen) && c.front < c.localTail && after == (x.front + 1) % x.size
    ensures BlockOk(x.(front := after), c.(front := c.front + 1, first := c.first + 1), seen)
  {
    var x', c' := x.(front := after), c.(front := c.front + 1, first := c.first + 1);
    NextIndex(c.front, x.size);
    forall e | c'.front <= e < c'.tail ensures Live(x', c', seen, e) { assert Live(x, c, seen, e); }
  }

  /** Delivering one element moves the start of the undelivered history by one. */
  lemma PopChain(s: State, g: Ghost, s': State, b: nat, c: Counters)
    requires RingOk(s, g) && ChainOk(s, g) && b == s.frontBlock
    requires c.first == g.c[b].first + 1 && Length(c) == Length(g.c[b]) - 1
    requires s'.enqueued == s.enqueued && |s'.dequeued| == |s.dequeued| + 1 && s'.producer == s.producer
    ensures ChainOk(s', g.(c := g.c[b := c]))
  {
    var g' := g.(c := g.c[b := c]);
    forall i | 0 < i < |g.ring| ensures g'.c[g.ring[i]] == g.c[g.ring[i]] { assert g.ring[i] != g.ring[0]; }
    forall i {:trigger StartOf(s', g', i)} | 0 <= i <= g'.k + 1
      ensures StartOf(s', g', i) == StartOf(s, g, i) + (if i == 0 then 1 else 0)
    {
    }
    forall i {:trigger StartOf(s', g', i)} | 0 <= i <= g'.k ensures g'.c[g'.ring[i]].first == StartOf(s', g', i) {
      assert g.c[g.ring[i]].first == StartOf(s, g, i);
    }
  }

  lemma PrefixGrows(xs: seq<Value>, n: nat, v: Value)
    requires n < |xs| && xs[n] == v
    ensures xs[..n] + [v] == xs[..n + 1]
  {
  }

  lemma PopInv(s: State, g: Ghost, x: Block, c: Counters, v: Value)
    requires Inv(s, g) && s.consumer == StoreFront(v)
    requires var b := s.frontBlock;
             && x == s.blocks[b].(front := x.front)
                   && c == g.c[b].(front := g.c[b].front + 1, first := g.c[b].first + 1)
             && BlockOk(x, c, Seen(s)) && |s.dequeued| + 1 <= |s.enqueued| && s.enqueued[|s.dequeued|] == v
    ensures Inv(Put(s, s.frontBlock, x).(consumer := CIdle, dequeued := s.dequeued + [v]),
            g.(c := g.c[s.frontBlock := c]))
  {
    var b := s.frontBlock;
    var s' := Put(s, b, x).(consumer := CIdle, dequeued := s.dequeued + [v]);
    SizesPositive(s, g);
    OneBlock(s, g, s', b, x, c);
    PopChain(s, g, s', b, c);
    FullKeeps(s, g, s', b, c);
    ProducerKeeps(s, g, s', b, x, c);
    PrefixGrows(s.enqueued, |s.dequeued|, v);
  }

  lemma StoreFrontKeeps(s: State, g: Ghost, after: nat) returns (g': Ghost)
    requires Inv(s, g) && s.consumer.StoreFront? && s.blocks[s.frontBlock].size > 0
    requires after == (s.blocks[s.frontBlock].front + 1) % s.blocks[s.frontBlock].size
    ensures var b := s.frontBlock;
            Inv(Put(s, b, s.blocks[b].(front := after)).(consumer := CIdle, dequeued := s.dequeued + [s.consumer.v]),
                g')
  {
    var b := s.frontBlock;
    var x, c := s.blocks[b], g.c[b];
    var x', c' := x.(front := after), c.(front := c.front + 1, first := c.first + 1);
    assert c.first == |s.dequeued| by { assert g.c[g.ring[0]].first == StartOf(s, g, 0); }
    assert BlockOk(x', c', Seen(s)) by {
      assert BlockOk(x, c, Seen(s));
      PopBlock(x, c, Seen(s), after);
    }
    g' := g.(c := g.c[b := c']);
    PopInv(s, g, x', c', s.consumer.v);
  }

  lemma StoreFrontInv(s: State, g: Ghost) returns (g': Ghost)
    requires Inv(s, g) && InRange(s) && s.consumer.StoreFront?
    ensures Inv(Consume(s), g')
  {
    var b := s.frontBlock;
    var after := (s.blocks[b].front + 1) % s.blocks[b].size;
    assert Consume(s) == Put(s, b, s.blocks[b].(front := after)).(consumer := CIdle,
        dequeued := s.dequeued + [s.consumer.v]);
    g' := StoreFrontKeeps(s, g, after);
  }

  // ---- preservation: the front block advances ----------------------------

  function Rotated(ring: seq<nat>): (r: seq<nat>)
    requires ring != []
    ensures |r| == |ring|
    ensures forall i {:trigger r[i]} :: 0 <= i < |r| ==> r[i] == After(ring, i)
  {
    ring[1..] + [ring[0]]
  }

  lemma RotateDistinct(ring: seq<nat>, i: nat, j: nat)
    requires forall i, j :: 0 <= i < j < |ring| ==> ring[i] != ring[j]
    requires i < j < |ring|
    ensures Rotated(ring)[i] != Rotated(ring)[j]
  {
    if j + 1 < |ring| { assert ring[i + 1] != ring[j + 1]; } else { assert ring[0] != ring[i + 1]; }
  }

  lemma RotateNext(s: State, g: Ghost, i: nat)
    requires RingOk(s, g) && i < |g.ring|
    ensures Rotated(g.ring)[i] < |s.blocks| && s.blocks[Rotated(g.ring)[i]].next == After(Rotated(g.ring), i)
  {
    var j := if i + 1 < |g.ring| then i + 1 else 0;
    assert s.blocks[g.ring[j]].next == After(g.ring, j);
  }

  lemma RotateRing(s: State, g: Ghost, s': State)
    requires RingOk(s, g) && g.k > 0
    requires s'.blocks == s.blocks && s'.tailBlock == s.tailBlock && s'.frontBlock == g.ring[1]
    ensures RingOk(s', g.(ring := Rotated(g.ring), k := g.k - 1))
  {
    var r := Rotated(g.ring);
    forall i: nat, j: nat | i < j < |r| ensures r[i] != r[j] { RotateDistinct(g.ring, i, j); }
    forall i {:trigger After(r, i)} | 0 <= i < |r| ensures r[i] < |s'.blocks| && s'.blocks[r[i]].next == After(r, i) {
      RotateNext(s, g, i);
    }
  }

  lemma RotateStart(s: State, g: Ghost, s': State, i: nat)
    requires InBounds(g) && ChainOk(s, g) && i <= g.k && g.k > 0 && Length(g.c[g.ring[0]]) == 0
    requires s'.dequeued == s.dequeued
    ensures StartOf(s', g.(ring := Rotated(g.ring), k := g.k - 1), i) == StartOf(s, g, i + 1)
  {
    assert g.c[g.ring[0]].first == StartOf(s, g, 0);
  }

  lemma RotateLengths(s: State, g: Ghost, i: nat)
    requires InBounds(g) && ChainOk(s, g) && g.k > 0 && Length(g.c[g.ring[0]]) == 0
    requires 0 < i < |g.ring|
    ensures i < g.k ==> Length(g.c[Rotated(g.ring)[i]]) > 0
    ensures i > g.k - 1 && !(s.producer.StoreTailBlock? && i == g.k) ==> Length(g.c[Rotated(g.ring)[i]]) == 0
  {
    if i + 1 < |g.ring| { assert Rotated(g.ring)[i] == g.ring[i + 1]; } else { assert Rotated(g.ring)[i] == g.ring[0]; }
  }

  lemma RotateFirst(s: State, g: Ghost, s': State, i: nat)
    requires InBounds(g) && ChainOk(s, g) && i < g.k && Length(g.c[g.ring[0]]) == 0
    requires s'.dequeued == s.dequeued
    ensures var g' := g.(ring := Rotated(g.ring), k := g.k - 1); g'.c[g'.ring[i]].first == StartOf(s', g', i)
  {
    RotateStart(s, g, s', i);
    assert g.c[g.ring[i + 1]].first == StartOf(s, g, i + 1);
  }

  lemma RotateChain(s: State, g: Ghost, s': State)
    requires InBounds(g) && ChainOk(s, g) && g.k > 0 && Length(g.c[g.ring[0]]) == 0
    requires s'.enqueued == s.enqueued && s'.dequeued == s.dequeued && s'.producer == s.producer
    ensures ChainOk(s', g.(ring := Rotated(g.ring), k := g.k - 1))
  {
    var g' := g.(ring := Rotated(g.ring), k := g.k - 1);
    forall i: nat {:trigger StartOf(s', g', i)} | i <= g'.k ensures g'.c[g'.ring[i]].first == StartOf(s', g', i) {
      RotateFirst(s, g, s', i);
    }
    assert StartOf(s', g', g'.k + 1) == |s'.enqueued| by { RotateStart(s, g, s', g.k); }
    forall i: nat {:trigger g'.ring[i]} | 0 < i < |g'.ring|
      ensures i <= g'.k ==> Length(g'.c[g'.ring[i]]) > 0
      ensures i > g'.k && !(s'.producer.StoreTailBlock? && i == g'.k + 1) ==> Length(g'.c[g'.ring[i]]) == 0
    {
      RotateLengths(s, g, i);
    }
  }

  lemma RotateFull(s: State, g: Ghost, s': State)
    requires RingOk(s, g) && FullOk(s, g) && g.k > 0 && s'.blocks == s.blocks && s'.tailBlock == s.tailBlock
    requires RingOk(s', g.(ring := Rotated(g.ring), k := g.k - 1)) && s'.producer == s.producer
    ensures FullOk(s', g.(ring := Rotated(g.ring), k := g.k - 1))
  {
    var g' := g.(ring := Rotated(g.ring), k := g.k - 1);
    forall i | 0 < i < g'.k ensures Length(g'.c[g'.ring[i]]) == s'.blocks[g'.ring[i]].size - 1 {
      assert g'.ring[i] == g.ring[i + 1];
    }
  }

  lemma RotateProducer(s: State, g: Ghost, s': State)
    requires RingOk(s, g) && g.k > 0 && (forall b :: 0 <= b < |s.blocks| ==> s.blocks[b].size > 0) && ProducerOk(s, g)
    requires s'.blocks == s.blocks && s'.tailBlock == s.tailBlock
    requires s'.enqueued == s.enqueued && s'.producer == s.producer
    requires RingOk(s', g.(ring := Rotated(g.ring), k := g.k - 1))
    ensures ProducerOk(s', g.(ring := Rotated(g.ring), k := g.k - 1))
  {
    if g.k + 1 < |g.ring| { assert Rotated(g.ring)[g.k] == g.ring[g.k + 1]; }
  }

  lemma StoreFrontBlockInv(s: State, g: Ghost) returns (g': Ghost)
    requires Inv(s, g) && InRange(s) && s.consumer.StoreFrontBlock?
    ensures Inv(Consume(s), g')
  {
    var s' := s.(frontBlock := g.ring[1], consumer := Read);
    g' := g.(ring := Rotated(g.ring), k := g.k - 1);
    RotateRing(s, g, s');
    RotateChain(s, g, s');
    RotateFull(s, g, s');
    SizesPositive(s, g);
    RotateProducer(s, g, s');
  }

  lemma ConsumeInv(s: State, g: Ghost) returns (g': Ghost)
    requires Inv(s, g) && InRange(s)
    ensures Inv(Consume(s), g')
  {
    match s.consumer
    case LoadTail => g' := LoadTailInv(s, g);
    case ReloadTail => g' := LoadTailInv(s, g);
    case LoadNextTail(_) => g' := LoadNextTailInv(s, g);
    case StoreFront(_) => g' := StoreFrontInv(s, g);
    case StoreFrontBlock(_) => g' := StoreFrontBlockInv(s, g);
    case _ => ConsumerLocalInv(s, g); g' := g;
  }

  // ---- preservation: the producer ----------------------------------------

  /** The consumer's claim does not depend on what the producer writes. */
  lemma ConsumerKeeps(s: State, g: Ghost, s': State, b: nat, c: Counters)
    requires RingOk(s, g) && ConsumerOk(s, g) && b < |s.blocks|
    requires RingOk(s', g.(c := g.c[b := c])) && s'.consumer == s.consumer && s.enqueued <= s'.enqueued
    requires s'.frontBlock == s.frontBlock
    requires c.front == g.c[b].front && c.localTail == g.c[b].localTail
    requires b == g.ring[0] ==> c.first == g.c[b].first && (Length(c) == Length(g.c[b]) || g.k == 0)
    ensures ConsumerOk(s', g.(c := g.c[b := c]))
  {
    if g.k > 0 { assert g.ring[0] != g.ring[1]; }
  }

  lemma ProducerMoves(s: State, g: Ghost, pc: ProducerPc)
    requires Inv(s, g) && !s.producer.StoreTailBlock? && !pc.StoreTailBlock?
    requires TailWasFull(pc) ==> TailWasFull(s.producer)
    requires s.blocks[s.tailBlock].size > 0 && (g.k + 1 < |g.ring| ==> s.blocks[g.ring[g.k + 1]].size > 0)
    requires ProducerOk(s.(producer := pc), g)
    ensures Inv(s.(producer := pc), g)
  {
    var s' := s.(producer := pc);
    var b := s.tailBlock;
    assert BlockOk(s.blocks[b], g.c[b], Seen(s));
    assert g.(c := g.c[b := g.c[b]]) == g;
    OneBlock(s, g, s', b, s.blocks[b], g.c[b]);
    ChainKeeps(s, g, s', b, g.c[b]);
    FullKeeps(s, g, s', b, g.c[b]);
    ConsumerKeeps(s, g, s', b, g.c[b]);
  }

  lemma SizesForProducer(s: State, g: Ghost)
    requires RingOk(s, g) && BlocksOk(s, g)
    ensures s.blocks[s.tailBlock].size > 0 && (g.k + 1 < |g.ring| ==> s.blocks[g.ring[g.k + 1]].size > 0)
  {
    SizesPositive(s, g);
  }

  /** The call starts; `after` is the next index of the tail. */
  lemma StartCall(s: State, g: Ghost, v: Value, alloc: bool, after: nat)
    requires Inv(s, g) && s.producer.PIdle? && s.blocks[s.tailBlock].size > 0
    requires after == (s.blocks[s.tailBlock].tail + 1) % s.blocks[s.tailBlock].size
    ensures Inv(s.(producer := if after != s.blocks[s.tailBlock].localFront then Write(v) else LoadFront(v, alloc)), g)
  {
    var x, c := s.blocks[s.tailBlock], g.c[s.tailBlock];
    assert after != x.localFront ==> c.tail + 1 < c.localFront + x.size by {
      assert BlockOk(x, c, Seen(s));
      FullTest(c.tail, c.localFront, x.size);
    }
    SizesForProducer(s, g);
    ProducerMoves(s, g, if after != x.localFront then Write(v) else LoadFront(v, alloc));
  }

  /** Pure moves of the producer. */
  lemma ProducerLocalInv(s: State, g: Ghost, v: Value, alloc: bool)
    requires Inv(s, g) && InRange(s) && (s.producer.PIdle? || s.producer.LoadFrontBlock?)
    ensures Inv(Produce(s, v, alloc), g)
  {
    var x := s.blocks[s.tailBlock];
    if s.producer.PIdle? {
      StartCall(s, g, v, alloc, (x.tail + 1) % x.size);
    } else {
      TailIsFull(s, g, s.producer.v, s.producer.alloc);
    }
  }

  /** The tail block is full: the call goes to the next block, to a new one, or ends. */
  lemma TailIsFull(s: State, g: Ghost, v: Value, alloc: bool)
    requires Inv(s, g) && s.producer == LoadFrontBlock(v, alloc)
    ensures Inv(s.(producer := if s.blocks[s.tailBlock].next != s.frontBlock then LoadNextFront(v)
                               else if alloc then LinkNew(v) else PIdle), g)
  {
    NextBlock(s, g);
    SizesForProducer(s, g);
    ProducerMoves(s, g, if s.blocks[s.tailBlock].next != s.frontBlock then LoadNextFront(v)
                        else if alloc then LinkNew(v) else PIdle);
  }

  lemma CopyFrontBlock(x: Block, c: Counters, seen: seq<Value>)
    requires BlockOk(x, c, seen)
    ensures BlockOk(x.(localFront := x.front), c.(localFront := c.front), seen)
  {
    var x', c' := x.(localFront := x.front), c.(localFront := c.front);
    forall e | c'.front <= e < c'.tail ensures Live(x', c', seen, e) { assert Live(x, c, seen, e); }
  }

  /** The producer changes block `b` and moves no element. */
  lemma ProducerTouches(s: State, g: Ghost, b: nat, x: Block, c: Counters, pc: ProducerPc)
    requires Inv(s, g) && b < |s.blocks| && !s.producer.StoreTailBlock? && !pc.StoreTailBlock?
    requires BlockOk(x, c, Seen(s)) && x.next == s.blocks[b].next && x.size == s.blocks[b].size
    requires c == g.c[b].(localFront := c.localFront)
    requires TailWasFull(pc) && g.k > 0 ==> TailWasFull(s.producer)
                                            || Length(g.c[s.tailBlock]) == s.blocks[s.tailBlock].size - 1
    ensures var s', g' := Put(s, b, x).(producer := pc), g.(c := g.c[b := c]);
            && RingOk(s', g') && BlocksOk(s', g') && ChainOk(s', g') && FullOk(s', g') && ConsumerOk(s', g')
            && (forall d :: 0 <= d < |s.blocks| ==> s'.blocks[d].size > 1)
  {
    var s' := Put(s, b, x).(producer := pc);
    OneBlock(s, g, s', b, x, c);
    SizesPositive(s', g.(c := g.c[b := c]));
    ChainKeeps(s, g, s', b, c);
    FullKeeps(s, g, s', b, c);
    ConsumerKeeps(s, g, s', b, c);
  }

  /** The producer copies the front of the tail block; `after` is the next index of its tail. */
  lemma LoadFrontKeeps(s: State, g: Ghost, v: Value, alloc: bool, after: nat) returns (g': Ghost)
    requires Inv(s, g) && s.producer == LoadFront(v, alloc) && s.blocks[s.tailBlock].size > 0
    requires after == (s.blocks[s.tailBlock].tail + 1) % s.blocks[s.tailBlock].size
    ensures var b := s.tailBlock; var x := s.blocks[b];
            && Inv(Put(s, b, x.(localFront := x.front)).(producer := if after != x.front then Write(v)
                                                                     else LoadFrontBlock(v, alloc)), g')
            && (after == x.front ==> Length(g'.c[b]) == x.size - 1)
  {
    var b := s.tailBlock;
    var x, c := s.blocks[b], g.c[b];
    var c' := c.(localFront := c.front);
    assert BlockOk(x.(localFront := x.front), c', Seen(s))
        && (after == x.front <==> c.tail + 1 == c.front + x.size) by {
      assert BlockOk(x, c, Seen(s));
      CopyFrontBlock(x, c, Seen(s));
      FullTest(c.tail, c.front, x.size);
    }
    assert BlockOk(x, c, Seen(s));
    ProducerTouches(s, g, b, x.(localFront := x.front), c', if after != x.front then Write(v)
        else LoadFrontBlock(v, alloc));
    g' := g.(c := g.c[b := c']);
  }

  lemma LoadFrontInv(s: State, g: Ghost, v: Value, alloc: bool) returns (g': Ghost)
    requires Inv(s, g) && InRange(s) && s.producer.LoadFront?
    ensures Inv(Produce(s, v, alloc), g')
    ensures Produce(s, v, alloc).producer.LoadFrontBlock?
            ==> Length(g'.c[s.tailBlock]) == s.blocks[s.tailBlock].size - 1
  {
    var x := s.blocks[s.tailBlock];
    g' := LoadFrontKeeps(s, g, s.producer.v, s.producer.alloc, (x.tail + 1) % x.size);
  }

  lemma LoadNextFrontKeeps(s: State, g: Ghost, b: nat) returns (g': Ghost)
    requires Inv(s, g) && s.producer.LoadNextFront? && b == g.ring[g.k + 1]
    ensures Inv(Put(s, b, s.blocks[b].(localFront := s.blocks[b].front)).(producer := WriteNext(s.producer.v)), g')
  {
    var x, c := s.blocks[b], g.c[b];
    assert BlockOk(x, c, Seen(s));
    CopyFrontBlock(x, c, Seen(s));
    var x', c' := x.(localFront := x.front), c.(localFront := c.front);
    g' := g.(c := g.c[b := c']);
    ProducerTouches(s, g, b, x', c', WriteNext(s.producer.v));
  }

  lemma LoadNextFrontInv(s: State, g: Ghost, v: Value, alloc: bool) returns (g': Ghost)
    requires Inv(s, g) && InRange(s) && s.producer.LoadNextFront?
    ensures Inv(Produce(s, v, alloc), g')
  {
    NextBlock(s, g);
    g' := LoadNextFrontKeeps(s, g, g.ring[g.k + 1]);
  }

  /** The slot that is written holds no live element. */
  lemma WriteBlock(x: Block, c: Counters, seen: seq<Value>, v: Value)
    requires BlockOk(x, c, seen) && c.tail + 1 < c.localFront + x.size
    ensures forall e :: c.front <= e < c.tail ==> e % x.size != x.tail
    ensures x.tail < x.size && BlockOk(x.(data := x.data[x.tail := v]), c, seen)
  {
    var x' := x.(data := x.data[c.tail % x.size := v]);
    forall e | c.front <= e < c.tail ensures e % x.size != x.tail && Live(x', c, seen, e) {
      assert Live(x, c, seen, e);
      SameIndex(e, c.tail, x.size);
    }
  }

  lemma WriteTouches(s: State, g: Ghost, b: nat, v: Value, pc: ProducerPc)
    requires Inv(s, g) && b < |s.blocks| && !s.producer.StoreTailBlock? && !pc.StoreTailBlock?
    requires g.c[b].tail + 1 < g.c[b].localFront + s.blocks[b].size
    requires TailWasFull(pc) ==> TailWasFull(s.producer)
    ensures s.blocks[b].tail < |s.blocks[b].data|
    ensures var x := s.blocks[b]; var s' := Put(s, b, x.(data := x.data[x.tail := v])).(producer := pc);
            && RingOk(s', g) && BlocksOk(s', g) && ChainOk(s', g) && FullOk(s', g) && ConsumerOk(s', g)
            && (forall d :: 0 <= d < |s.blocks| ==> s'.blocks[d].size > 1)
  {
    var x, c := s.blocks[b], g.c[b];
    WriteBlock(x, c, Seen(s), v);
    ProducerTouches(s, g, b, x.(data := x.data[x.tail := v]), c, pc);
    assert g.(c := g.c[b := c]) == g;
  }

  lemma WriteInv(s: State, g: Ghost, v: Value, alloc: bool)
    requires Inv(s, g) && InRange(s) && s.producer.Write?
    ensures Inv(Produce(s, v, alloc), g)
  {
    assert BlockOk(s.blocks[s.tailBlock], g.c[s.tailBlock], Seen(s));
    WriteTouches(s, g, s.tailBlock, s.producer.v, StoreTail(s.producer.v));
  }

  lemma NextBlock(s: State, g: Ghost)
    requires RingOk(s, g)
    ensures s.blocks[s.tailBlock].next == After(g.ring, g.k)
  {
    assert s.blocks[g.ring[g.k]].next == After(g.ring, g.k);
  }

  lemma WriteNextKeeps(s: State, g: Ghost, b: nat)
    requires Inv(s, g) && s.producer.WriteNext? && b == g.ring[g.k + 1]
    ensures s.blocks[b].tail < |s.blocks[b].data|
    ensures var x := s.blocks[b];
            Inv(Put(s, b, x.(data := x.data[x.tail := s.producer.v])).(producer := StoreNextTail(s.producer.v)), g)
  {
    assert BlockOk(s.blocks[b], g.c[b], Seen(s));
    WriteTouches(s, g, b, s.producer.v, StoreNextTail(s.producer.v));
  }

  lemma WriteNextInv(s: State, g: Ghost, v: Value, alloc: bool)
    requires Inv(s, g) && InRange(s) && s.producer.WriteNext?
    ensures Inv(Produce(s, v, alloc), g)
  {
    NextBlock(s, g);
    WriteNextKeeps(s, g, g.ring[g.k + 1]);
  }

  lemma PushBlock(x: Block, c: Counters, seen: seq<Value>, v: Value, first: nat, after: nat)
    requires BlockOk(x, c, seen) && c.tail + 1 < c.localFront + x.size && x.data[c.tail % x.size] == v
    requires (first == c.first || Length(c) == 0) && first + Length(c) == |seen| && after == (x.tail + 1) % x.size
    ensures BlockOk(x.(tail := after), c.(tail := c.tail + 1, first := first), seen + [v])
  {
    var x', c' := x.(tail := after), c.(tail := c.tail + 1, first := first);
    NextIndex(c.tail, x.size);
    forall e | c'.front <= e < c'.tail ensures Live(x', c', seen + [v], e) {
      if e < c.tail { assert Live(x, c, seen, e); }
    }
  }

  lemma PushChain(s: State, g: Ghost, s': State, c: Counters)
    requires RingOk(s, g) && ChainOk(s, g)
    requires c.first == g.c[s.tailBlock].first && Length(c) == Length(g.c[s.tailBlock]) + 1
    requires |s'.enqueued| == |s.enqueued| + 1 && s'.dequeued == s.dequeued
    requires !s.producer.StoreTailBlock? && !s'.producer.StoreTailBlock?
    ensures ChainOk(s', g.(c := g.c[s.tailBlock := c]))
  {
    var g' := g.(c := g.c[s.tailBlock := c]);
    forall i | 0 <= i < |g.ring| && i != g.k ensures g'.c[g.ring[i]] == g.c[g.ring[i]] {
      assert g.ring[i] != g.ring[g.k];
    }
    forall i {:trigger StartOf(s', g', i)} | 0 <= i <= g'.k ensures g'.c[g'.ring[i]].first == StartOf(s', g', i) {
      assert g.c[g.ring[i]].first == StartOf(s, g, i);
    }
    assert StartOf(s, g, g.k + 1) == |s.enqueued|;
  }

  lemma TailEnds(s: State, g: Ghost)
    requires Inv(s, g)
    ensures g.c[s.tailBlock].first + Length(g.c[s.tailBlock]) == |s.enqueued|
  {
    assert StartOf(s, g, g.k + 1) == |s.enqueued|;
  }

  lemma PushInv(s: State, g: Ghost, x: Block, c: Counters, v: Value)
    requires Inv(s, g) && s.producer == StoreTail(v)
    requires var b := s.tailBlock;
             && x == s.blocks[b].(tail := x.tail) && c == g.c[b].(tail := g.c[b].tail + 1)
             && BlockOk(x, c, s.enqueued + [v])
    ensures Inv(Put(s, s.tailBlock, x).(producer := PIdle, enqueued := s.enqueued + [v]),
            g.(c := g.c[s.tailBlock := c]))
  {
    var b := s.tailBlock;
    var s' := Put(s, b, x).(producer := PIdle, enqueued := s.enqueued + [v]);
    var g' := g.(c := g.c[b := c]);
    OneBlock(s, g, s', b, x, c);
    PushChain(s, g, s', c);
    assert FullOk(s', g') by {
      forall i | 0 < i < g'.k ensures Length(g'.c[g'.ring[i]]) == s'.blocks[g'.ring[i]].size - 1 {
        assert g.ring[i] != g.ring[g.k];
      }
    }
    ConsumerKeeps(s, g, s', b, c);
  }

  lemma StoreTailKeeps(s: State, g: Ghost, after: nat) returns (g': Ghost)
    requires Inv(s, g) && s.producer.StoreTail? && s.blocks[s.tailBlock].size > 0
    requires after == (s.blocks[s.tailBlock].tail + 1) % s.blocks[s.tailBlock].size
    ensures var b, v := s.tailBlock, s.producer.v;
            Inv(Put(s, b, s.blocks[b].(tail := after)).(producer := PIdle, enqueued := s.enqueued + [v]), g')
  {
    var b, v := s.tailBlock, s.producer.v;
    var x, c := s.blocks[b], g.c[b];
    assert BlockOk(x.(tail := after), c.(tail := c.tail + 1), s.enqueued + [v]) by {
      TailEnds(s, g);
      assert BlockOk(x, c, Seen(s));
      PushBlock(x, c, s.enqueued, v, c.first, after);
    }
    g' := g.(c := g.c[b := c.(tail := c.tail + 1)]);
    PushInv(s, g, x.(tail := after), c.(tail := c.tail + 1), v);
  }

  lemma StoreTailInv(s: State, g: Ghost, v: Value, alloc: bool) returns (g': Ghost)
    requires Inv(s, g) && InRange(s) && s.producer.StoreTail?
    ensures Inv(Produce(s, v, alloc), g')
  {
    var b := s.tailBlock;
    var x := s.blocks[b];
    var after := (x.tail + 1) % x.size;
    assert Produce(s, v, alloc)
        == Put(s, b, x.(tail := after)).(producer := PIdle, enqueued := s.enqueued + [s.producer.v]);
    g' := StoreTailKeeps(s, g, after);
  }

  // ---- preservation: the tail block advances -----------------------------

  lemma UnpublishedPush(s: State, g: Ghost, s': State, b: nat, x: Block, c: Counters)
    requires Inv(s, g) && s.producer.StoreNextTail? && b == g.ring[g.k + 1]
    requires BlockOk(x, c, s.enqueued + [s.producer.v])
             && s' == Put(s, b, x).(producer := StoreTailBlock(s.producer.v, b))
    requires x == s.blocks[b].(tail := x.tail) && c == g.c[b].(tail := c.tail, first := c.first)
    ensures var g' := g.(c := g.c[b := c]);
            && RingOk(s', g') && BlocksOk(s', g') && ChainOk(s', g') && FullOk(s', g') && ConsumerOk(s', g')
            && (forall d :: 0 <= d < |s.blocks| ==> s'.blocks[d].size > 1)
  {
    OneBlock(s, g, s', b, x, c);
    SizesPositive(s', g.(c := g.c[b := c]));
    UnpublishedChain(s, g, s', c);
    UnpublishedFull(s, g, s', c);
    ConsumerKeeps(s, g, s', b, c);
  }

  lemma StoreNextTailKeeps(s: State, g: Ghost, b: nat, after: nat) returns (g': Ghost)
    requires Inv(s, g) && s.producer.StoreNextTail? && b == g.ring[g.k + 1]
    requires s.blocks[b].size > 0 && after == (s.blocks[b].tail + 1) % s.blocks[b].size
    ensures Inv(Put(s, b, s.blocks[b].(tail := after)).(producer := StoreTailBlock(s.producer.v, b)), g')
  {
    var x, c, v := s.blocks[b], g.c[b], s.producer.v;
    var x', c' := x.(tail := after), c.(tail := c.tail + 1, first := |s.enqueued|);
    assert BlockOk(x', c', s.enqueued + [v]) by {
      assert BlockOk(x, c, Seen(s));
      PushBlock(x, c, s.enqueued, v, |s.enqueued|, after);
    }
    g' := g.(c := g.c[b := c']);
    assert Length(c') == 1;
    UnpublishedPush(s, g, Put(s, b, x').(producer := StoreTailBlock(v, b)), b, x', c');
  }

  /** The block after the tail block is not part of the chain yet. */
  lemma UnpublishedChain(s: State, g: Ghost, s': State, c: Counters)
    requires InBounds(g) && g.k + 1 < |g.ring| && ChainOk(s, g)
    requires forall i :: 0 <= i < |g.ring| && i != g.k + 1 ==> g.ring[i] != g.ring[g.k + 1]
    requires s'.enqueued == s.enqueued && s'.dequeued == s.dequeued && s'.producer.StoreTailBlock?
    ensures ChainOk(s', g.(c := g.c[g.ring[g.k + 1] := c]))
  {
    var g' := g.(c := g.c[g.ring[g.k + 1] := c]);
    forall i {:trigger StartOf(s', g', i)} | 0 <= i <= g.k + 1 ensures StartOf(s', g', i) == StartOf(s, g, i) {}
    forall i {:trigger StartOf(s', g', i)} | 0 <= i <= g'.k ensures g'.c[g'.ring[i]].first == StartOf(s', g', i) {
      assert g.c[g.ring[i]].first == StartOf(s, g, i);
    }
    assert StartOf(s, g, g.k + 1) == |s.enqueued|;
  }

  lemma UnpublishedFull(s: State, g: Ghost, s': State, c: Counters)
    requires RingOk(s, g) && FullOk(s, g) && g.k + 1 < |g.ring| && TailWasFull(s.producer)
    requires |s'.blocks| == |s.blocks| && forall d :: 0 <= d < |s.blocks| ==> s'.blocks[d].size == s.blocks[d].size
    requires s'.tailBlock == s.tailBlock && RingOk(s', g.(c := g.c[g.ring[g.k + 1] := c]))
    ensures FullOk(s', g.(c := g.c[g.ring[g.k + 1] := c]))
  {
    var g' := g.(c := g.c[g.ring[g.k + 1] := c]);
    forall i | 0 < i < g'.k ensures Length(g'.c[g'.ring[i]]) == s'.blocks[g'.ring[i]].size - 1 {
      assert g.ring[i] != g.ring[g.k + 1];
    }
  }

  lemma StoreNextTailInv(s: State, g: Ghost, v: Value, alloc: bool) returns (g': Ghost)
    requires Inv(s, g) && InRange(s) && s.producer.StoreNextTail?
    ensures Inv(Produce(s, v, alloc), g')
  {
    var b := s.blocks[s.tailBlock].next;
    assert b == g.ring[g.k + 1] by { NextBlock(s, g); }
    var after := (s.blocks[b].tail + 1) % s.blocks[b].size;
    g' := StoreNextTailKeeps(s, g, b, after);
    assert Produce(s, v, alloc) == Put(s, b,
        s.blocks[b].(tail := after)).(producer := StoreTailBlock(s.producer.v, b)) by {
      StoresNextTail(s, v, alloc, b, after);
    }
  }

  lemma StoresNextTail(s: State, v: Value, alloc: bool, b: nat, after: nat)
    requires InRange(s) && s.producer.StoreNextTail? && b == s.blocks[s.tailBlock].next
    requires after == (s.blocks[b].tail + 1) % s.blocks[b].size
    ensures Produce(s, v, alloc) == Put(s, b, s.blocks[b].(tail := after)).(producer := StoreTailBlock(s.producer.v, b))
  {
  }

  lemma PublishChain(s: State, g: Ghost, s': State)
    requires InBounds(g) && ChainOk(s, g) && s.producer.StoreTailBlock? && g.k + 1 < |g.ring|
    requires var c := g.c[g.ring[g.k + 1]]; Length(c) == 1 && c.first == |s.enqueued|
    requires |s'.enqueued| == |s.enqueued| + 1 && s'.dequeued == s.dequeued && s'.producer.PIdle?
    ensures ChainOk(s', g.(k := g.k + 1))
  {
    var g' := g.(k := g.k + 1);
    assert StartOf(s, g, g.k + 1) == |s.enqueued|;
    forall i: nat {:trigger StartOf(s', g', i)} | i <= g.k + 1 ensures StartOf(s', g', i) == StartOf(s, g, i) {}
    forall i: nat {:trigger StartOf(s', g', i)} | i <= g.k + 1 ensures g.c[g.ring[i]].first == StartOf(s', g', i) {
      if i <= g.k { assert g.c[g.ring[i]].first == StartOf(s, g, i); }
    }
    forall i | 0 < i <= g.k + 1 ensures Length(g.c[g.ring[i]]) > 0 {}
    forall i | g.k + 1 < i < |g.ring| ensures Length(g.c[g.ring[i]]) == 0 {}
  }

  lemma PublishFull(s: State, g: Ghost, s': State)
    requires RingOk(s, g) && FullOk(s, g) && s.producer.StoreTailBlock? && g.k + 1 < |g.ring|
    requires s'.producer.PIdle? && s'.blocks == s.blocks && RingOk(s', g.(k := g.k + 1))
    ensures FullOk(s', g.(k := g.k + 1))
  {
    forall i | 0 < i < g.k + 1 ensures Length(g.c[g.ring[i]]) == s'.blocks[g.ring[i]].size - 1 {
      if i == g.k { assert g.ring[g.k] == s.tailBlock; }
    }
  }

  lemma PublishRing(s: State, g: Ghost, s': State)
    requires RingOk(s, g) && BlocksOk(s, g) && s.producer.StoreTailBlock? && g.k + 1 < |g.ring|
    requires s' == s.(tailBlock := g.ring[g.k + 1], producer := PIdle, enqueued := s.enqueued + [s.producer.v])
    ensures RingOk(s', g.(k := g.k + 1)) && BlocksOk(s', g.(k := g.k + 1))
  {
    forall i {:trigger After(g.ring, i)} | 0 <= i < |g.ring| ensures s'.blocks[g.ring[i]].next == After(g.ring, i) {
      assert s.blocks[g.ring[i]].next == After(g.ring, i);
    }
    forall d | 0 <= d < |s'.blocks| ensures BlockOk(s'.blocks[d], g.c[d], Seen(s')) {
      assert BlockOk(s.blocks[d], g.c[d], Seen(s));
    }
  }

  lemma StoreTailBlockKeeps(s: State, g: Ghost, s': State)
    requires Inv(s, g) && s.producer.StoreTailBlock?
    requires s' == s.(tailBlock := s.producer.nb, producer := PIdle, enqueued := s.enqueued + [s.producer.v])
    ensures Inv(s', g.(k := g.k + 1))
  {
    PublishRing(s, g, s');
    SizesPositive(s', g.(k := g.k + 1));
    PublishChain(s, g, s');
    PublishFull(s, g, s');
  }

  lemma StoreTailBlockInv(s: State, g: Ghost, v: Value, alloc: bool) returns (g': Ghost)
    requires Inv(s, g) && InRange(s) && s.producer.StoreTailBlock?
    ensures Inv(Produce(s, v, alloc), g')
  {
    g' := g.(k := g.k + 1);
    StoreTailBlockKeeps(s, g, Produce(s, v, alloc));
  }

  // ---- preservation: a new block -----------------------------------------

  function Spliced(ring: seq<nat>, k: nat, n: nat): (r: seq<nat>)
    requires k < |ring|
    ensures |r| == |ring| + 1
    ensures forall i :: 0 <= i < |r| ==> r[i] == if i <= k then ring[i] else if i == k + 1 then n else ring[i - 1]
  {
    ring[..k + 1] + [n] + ring[k + 1..]
  }

  lemma SpliceDistinct(ring: seq<nat>, k: nat, n: nat)
    requires k < |ring| && (forall i :: 0 <= i < |ring| ==> ring[i] < n)
    requires forall i, j :: 0 <= i < j < |ring| ==> ring[i] != ring[j]
    ensures forall i, j :: 0 <= i < j < |ring| + 1 ==> Spliced(ring, k, n)[i] != Spliced(ring, k, n)[j]
  {
    forall i, j | 0 <= i < j < |ring| + 1 ensures Spliced(ring, k, n)[i] != Spliced(ring, k, n)[j] {
      var i', j' := if i <= k then i else i - 1, if j <= k then j else j - 1;
      if i != k + 1 && j != k + 1 { assert ring[i'] != ring[j']; }
    }
  }

  lemma SpliceNext(s: State, g: Ghost, x: Block, blocks: seq<Block>, i: nat)
    requires RingOk(s, g) && i <= |g.ring| && x.next == s.blocks[s.tailBlock].next
    requires blocks == s.blocks[s.tailBlock := s.blocks[s.tailBlock].(next := |s.blocks|)] + [x]
    ensures var r := Spliced(g.ring, g.k, |s.blocks|); r[i] < |blocks| && blocks[r[i]].next == After(r, i)
  {
    assert s.blocks[g.ring[g.k]].next == After(g.ring, g.k);
    if i < g.k {
      assert g.ring[i] != g.ring[g.k];
      assert s.blocks[g.ring[i]].next == After(g.ring, i);
    } else if i > g.k + 1 {
      assert g.ring[g.k] != g.ring[i - 1];
      assert s.blocks[g.ring[i - 1]].next == After(g.ring, i - 1);
    }
  }

  lemma SpliceRing(s: State, g: Ghost, s': State, x: Block, c: Counters)
    requires RingOk(s, g)
    requires s'.frontBlock == s.frontBlock && s'.tailBlock == s.tailBlock
    requires x.next == s.blocks[s.tailBlock].next
    requires s'.blocks == s.blocks[s.tailBlock := s.blocks[s.tailBlock].(next := |s.blocks|)] + [x]
    ensures RingOk(s', Ghost(Spliced(g.ring, g.k, |s.blocks|), g.k, g.c + [c]))
  {
    SpliceDistinct(g.ring, g.k, |s.blocks|);
    var r := Spliced(g.ring, g.k, |s.blocks|);
    forall i {:trigger After(r, i)} | 0 <= i < |r| ensures r[i] < |s'.blocks| && s'.blocks[r[i]].next == After(r, i) {
      SpliceNext(s, g, x, s'.blocks, i);
    }
  }

  lemma SpliceBlocks(s: State, g: Ghost, s': State, x: Block, c: Counters)
    requires RingOk(s, g) && BlocksOk(s, g) && Seen(s) <= Seen(s') && BlockOk(x, c, Seen(s'))
    requires s'.blocks == s.blocks[s.tailBlock := s.blocks[s.tailBlock].(next := |s.blocks|)] + [x]
    ensures BlocksOk(s', Ghost(Spliced(g.ring, g.k, |s.blocks|), g.k, g.c + [c]))
  {
    forall d | 0 <= d < |s'.blocks| ensures BlockOk(s'.blocks[d], (g.c + [c])[d], Seen(s')) {
      if d < |s.blocks| {
        assert BlockOk(s.blocks[d], g.c[d], Seen(s));
        BlockKeeps(s.blocks[d], g.c[d], Seen(s), Seen(s'));
        if d == s.tailBlock { RelinkKeeps(s.blocks[d], g.c[d], Seen(s'), |s.blocks|); }
      }
    }
  }

  lemma RelinkKeeps(x: Block, c: Counters, seen: seq<Value>, next: nat)
    requires BlockOk(x, c, seen)
    ensures BlockOk(x.(next := next), c, seen)
  {
    forall e | c.front <= e < c.tail ensures Live(x.(next := next), c, seen, e) { assert Live(x, c, seen, e); }
  }

  lemma SpliceStart(s: State, g: Ghost, s': State, c: Counters, i: nat)
    requires InBounds(g) && i <= g.k + 1 && s'.dequeued == s.dequeued
    ensures InBounds(Ghost(Spliced(g.ring, g.k, |g.c|), g.k, g.c + [c]))
    ensures StartOf(s', Ghost(Spliced(g.ring, g.k, |g.c|), g.k, g.c + [c]), i) == StartOf(s, g, i)
  {
  }

  lemma SpliceLength(s: State, g: Ghost, c: Counters, i: nat)
    requires InBounds(g) && ChainOk(s, g) && !s.producer.StoreTailBlock? && 0 < i <= |g.ring|
    ensures i <= g.k ==> Length((g.c + [c])[Spliced(g.ring, g.k, |g.c|)[i]]) > 0
    ensures i > g.k + 1 ==> Length((g.c + [c])[Spliced(g.ring, g.k, |g.c|)[i]]) == 0
  {
    if i <= g.k { assert Length(g.c[g.ring[i]]) > 0; }
    if i > g.k + 1 { assert Length(g.c[g.ring[i - 1]]) == 0; }
  }

  lemma SpliceChain(s: State, g: Ghost, s': State, c: Counters)
    requires InBounds(g) && ChainOk(s, g) && !s.producer.StoreTailBlock? && s'.producer.StoreTailBlock?
    requires s'.enqueued == s.enqueued && s'.dequeued == s.dequeued
    ensures InBounds(Ghost(Spliced(g.ring, g.k, |g.c|), g.k, g.c + [c]))
    ensures ChainOk(s', Ghost(Spliced(g.ring, g.k, |g.c|), g.k, g.c + [c]))
  {
    var g' := Ghost(Spliced(g.ring, g.k, |g.c|), g.k, g.c + [c]);
    forall i: nat {:trigger StartOf(s', g', i)} | i <= g'.k ensures g'.c[g'.ring[i]].first == StartOf(s', g', i) {
      SpliceStart(s, g, s', c, i);
      assert g.c[g.ring[i]].first == StartOf(s, g, i);
    }
    SpliceStart(s, g, s', c, g.k + 1);
    forall i: nat | 0 < i < |g'.ring|
      ensures i <= g'.k ==> Length(g'.c[g'.ring[i]]) > 0
      ensures i > g'.k + 1 ==> Length(g'.c[g'.ring[i]]) == 0
    {
      SpliceLength(s, g, c, i);
    }
  }

  /** The two claims that remain when a new block is linked. */
  lemma SpliceRest(s: State, g: Ghost, s': State, x: Block, c: Counters)
    requires RingOk(s, g) && FullOk(s, g) && ConsumerOk(s, g) && TailWasFull(s.producer)
    requires RingOk(s', Ghost(Spliced(g.ring, g.k, |s.blocks|), g.k, g.c + [c]))
    requires s'.blocks == s.blocks[s.tailBlock := s.blocks[s.tailBlock].(next := |s.blocks|)] + [x]
    requires s'.frontBlock == s.frontBlock && s'.tailBlock == s.tailBlock && s'.consumer == s.consumer
             && s'.enqueued == s.enqueued
    ensures var g' := Ghost(Spliced(g.ring, g.k, |s.blocks|), g.k, g.c + [c]);
            FullOk(s', g') && ConsumerOk(s', g')
  {
    var g' := Ghost(Spliced(g.ring, g.k, |s.blocks|), g.k, g.c + [c]);
    forall i | 0 < i < g'.k ensures Length(g'.c[g'.ring[i]]) == s'.blocks[g'.ring[i]].size - 1 {
      assert g'.ring[i] == g.ring[i] && g.ring[i] != g.ring[g.k];
    }
    assert g.k > 0 ==> g'.ring[1] == g.ring[1];
  }

  lemma NewBlockOk(size: nat, next: nat, v: Value, before: seq<Value>)
    requires size > 1
    ensures BlockOk(NewBlock(size, next, v), Counters(0, 1, 1, 0, |before|), before + [v])
  {
    var x, c := NewBlock(size, next, v), Counters(0, 1, 1, 0, |before|);
    forall e | c.front <= e < c.tail ensures Live(x, c, before + [v], e) {}
  }

  ghost function Linked(s: State, v: Value): State
    requires InRange(s)
  {
    var size := NewBlockSize(s.largest);
    s.(blocks := s.blocks[s.tailBlock := s.blocks[s.tailBlock].(next := |s.blocks|)]
                 + [NewBlock(size, s.blocks[s.tailBlock].next, v)],
       largest := size, producer := StoreTailBlock(v, |s.blocks|))
  }

  lemma LinkNewKeeps(s: State, g: Ghost) returns (g': Ghost)
    requires Inv(s, g) && InRange(s) && s.producer.LinkNew?
    ensures Inv(Linked(s, s.producer.v), g')
  {
    var c := Counters(0, 1, 1, 0, |s.enqueued|);
    var s' := Linked(s, s.producer.v);
    var x := s'.blocks[|s.blocks|];
    g' := Ghost(Spliced(g.ring, g.k, |s.blocks|), g.k, g.c + [c]);
    NewBlockOk(NewBlockSize(s.largest), x.next, s.producer.v, s.enqueued);
    SpliceRing(s, g, s', x, c);
    SpliceBlocks(s, g, s', x, c);
    SpliceChain(s, g, s', c);
    SpliceRest(s, g, s', x, c);
    SizesPositive(s', g');
  }

  lemma LinkNewInv(s: State, g: Ghost, v: Value, alloc: bool) returns (g': Ghost)
    requires Inv(s, g) && InRange(s) && s.producer.LinkNew?
    ensures Inv(Produce(s, v, alloc), g')
  {
    g' := LinkNewKeeps(s, g);
  }

  lemma ProduceInv(s: State, g: Ghost, v: Value, alloc: bool) returns (g': Ghost)
    requires Inv(s, g) && InRange(s)
    ensures Inv(Produce(s, v, alloc), g')
  {
    match s.producer
    case LoadFront(_, _) => g' := LoadFrontInv(s, g, v, alloc);
    case Write(_) => WriteInv(s, g, v, alloc); g' := g;
    case StoreTail(_) => g' := StoreTailInv(s, g, v, alloc);
    case LoadNextFront(_) => g' := LoadNextFrontInv(s, g, v, alloc);
    case WriteNext(_) => WriteNextInv(s, g, v, alloc); g' := g;
    case StoreNextTail(_) => g' := StoreNextTailInv(s, g, v, alloc);
    case LinkNew(_) => g' := LinkNewInv(s, g, v, alloc);
    case StoreTailBlock(_, _) => g' := StoreTailBlockInv(s, g, v, alloc);
    case _ => ProducerLocalInv(s, g, v, alloc); g' := g;
  }

  lemma StepInv(s: State, g: Ghost, s': State) returns (g': Ghost)
    requires Inv(s, g) && Step(s, s')
    ensures Inv(s', g')
  {
    if Consumes(s, s') {
      g' := ConsumeInv(s, g);
    } else {
      var v, alloc :| s' == Produce(s, v, alloc);
      g' := ProduceInv(s, g, v, alloc);
    }
  }

  /** The blocks in the order of their numbers, with all counters at zero. */
  ghost predicate InitGhost(s: State, g: Ghost) {
    && |g.ring| == |s.blocks| == |g.c| && g.k == 0
    && (forall i :: 0 <= i < |g.ring| ==> g.ring[i] == i)
    && (forall b :: 0 <= b < |g.c| ==> g.c[b] == Counters(0, 0, 0, 0, 0))
  }

  lemma InitRing(s: State, g: Ghost)
    requires Init(s) && InitGhost(s, g)
    ensures RingOk(s, g)
  {
    forall i {:trigger After(g.ring, i)} | 0 <= i < |g.ring| ensures s.blocks[g.ring[i]].next == After(g.ring, i) {
      assert s.blocks[i].size == s.largest;
    }
  }

  lemma InitBlocks(s: State, g: Ghost)
    requires Init(s) && s.largest > 1 && InitGhost(s, g)
    ensures BlocksOk(s, g)
  {
    forall d | 0 <= d < |s.blocks| ensures BlockOk(s.blocks[d], g.c[d], Seen(s)) {
      assert s.blocks[d].size == s.largest;
    }
  }

  lemma InitInv(s: State) returns (g: Ghost)
    requires Init(s) && s.largest > 1
    ensures Inv(s, g) && g.k == 0
  {
    g := Ghost(seq(|s.blocks|, i => i), 0, seq(|s.blocks|, _ => Counters(0, 0, 0, 0, 0)));
    InitRing(s, g);
    InitBlocks(s, g);
    InitStarts(s, g);
    InitLengths(s, g);
    InitChain(s, g);
    InitRest(s, g);
  }

  lemma InitStarts(s: State, g: Ghost)
    requires Init(s) && InitGhost(s, g) && InBounds(g)
    ensures forall i {:trigger StartOf(s, g, i)} :: 0 <= i <= g.k ==> g.c[g.ring[i]].first == StartOf(s, g, i)
    ensures StartOf(s, g, g.k + 1) == |s.enqueued|
  {
  }

  lemma InitLengths(s: State, g: Ghost)
    requires Init(s) && InitGhost(s, g) && InBounds(g)
    ensures forall i {:trigger g.ring[i]} :: 0 <= i < |g.ring| ==> Length(g.c[g.ring[i]]) == 0
  {
  }

  lemma InitChain(s: State, g: Ghost)
    requires s.producer == PIdle && InBounds(g) && g.k == 0
    requires forall i {:trigger StartOf(s, g, i)} :: 0 <= i <= g.k ==> g.c[g.ring[i]].first == StartOf(s, g, i)
    requires StartOf(s, g, g.k + 1) == |s.enqueued|
    requires forall i {:trigger g.ring[i]} :: 0 <= i < |g.ring| ==> Length(g.c[g.ring[i]]) == 0
    ensures ChainOk(s, g)
  {
  }

  lemma InitRest(s: State, g: Ghost)
    requires s.largest > 1 && g.k == 0 && RingOk(s, g) && BlocksOk(s, g) && ChainOk(s, g)
    requires s.producer == PIdle && s.consumer == CIdle && s.enqueued == [] && s.dequeued == []
    ensures Inv(s, g)
  {
    SizesPositive(s, g);
  }

  // ---- runs --------------------------------------------------------------

  ghost predicate StepAt(run: seq<State>, i: nat)
    requires i + 1 < |run|
  {
    Step(run[i], run[i + 1])
  }

  ghost predicate IsRun(run: seq<State>) {
    run != [] && Init(run[0]) && forall i :: 0 <= i < |run| - 1 ==> StepAt(run, i)
  }

  lemma {:induction false} RunInv(run: seq<State>, i: nat) returns (g: Ghost)
    requires IsRun(run) && run[0].largest > 1 && i < |run|
    ensures Inv(run[i], g)
  {
    if i == 0 {
      g := InitInv(run[0]);
    } else {
      var g0 := RunInv(run, i - 1);
      RunStep(run, i);
      g := StepInv(run[i - 1], g0, run[i]);
    }
  }

  // ---- what the ring holds -----------------------------------------------

  function Held(x: Block, e: nat): Value
    requires 0 < x.size == |x.data|
  {
    x.data[e % x.size]
  }

  /** The elements between a block's front and tail. */
  ghost function BlockContents(x: Block): (r: seq<Value>)
    requires 0 < x.size == |x.data|
    ensures |r| == (x.tail - x.front) % x.size
    ensures forall i: nat {:trigger r[i]} :: i < |r| ==> r[i] == Held(x, x.front + i)
  {
    seq((x.tail - x.front) % x.size, i requires 0 <= i => Held(x, x.front + i))
  }

  /** The elements found by walking `n` blocks from block `b` along `next`, as
      `size_approx` and the destructor walk. */
  ghost function Walk(s: State, b: nat, n: nat): seq<Value>
    requires InRange(s) && b < |s.blocks|
    decreases n
  {
    if n == 0 then [] else BlockContents(s.blocks[b]) + Walk(s, s.blocks[b].next, n - 1)
  }

  lemma CircularLength(front: nat, tail: nat, size: nat)
    requires front <= tail < front + size
    ensures (tail % size - front % size) % size == tail - front
  {
    var a, b := tail / size, front / size;
    assert tail == size * a + tail % size && front == size * b + front % size;
    ModOfMultiple(tail - front, size, b - a);
    assert size * (b - a) == size * b - size * a;
    RemainderIs(tail - front, size, 0, tail - front);
  }

  lemma HeldIs(x: Block, c: Counters, seen: seq<Value>, i: nat)
    requires BlockOk(x, c, seen) && i < Length(c)
    ensures Held(x, x.front + i) == seen[c.first + i]
  {
    AddMod(c.front, i, x.size);
    assert Live(x, c, seen, c.front + i);
  }

  lemma BlockHolds(x: Block, c: Counters, seen: seq<Value>)
    requires BlockOk(x, c, seen)
    ensures BlockContents(x) == seen[c.first..c.first + Length(c)]
  {
    CircularLength(c.front, c.tail, x.size);
    var r := BlockContents(x);
    forall i | 0 <= i < |r| ensures r[i] == seen[c.first + i] { HeldIs(x, c, seen, i); }
  }

  lemma {:induction false} WalkEmpty(s: State, g: Ghost, i: nat)
    requires Inv(s, g) && InRange(s) && i < |g.ring|
    requires forall j :: i <= j < |g.ring| ==> Length(g.c[g.ring[j]]) == 0
    ensures Walk(s, g.ring[i], |g.ring| - i) == []
    decreases |g.ring| - i
  {
    var b := g.ring[i];
    BlockHolds(s.blocks[b], g.c[b], Seen(s));
    assert s.blocks[b].next == After(g.ring, i);
    if i + 1 < |g.ring| { WalkEmpty(s, g, i + 1); } else { assert Walk(s, s.blocks[b].next, 0) == []; }
  }

  /** The walk passes block `i` of the ring and finds there its part of the history. */
  ghost predicate Passes(s: State, g: Ghost, i: nat)
    requires InRange(s) && InBounds(g) && |g.c| == |s.blocks| && i < |g.ring|
  {
    var a, b := StartOf(s, g, i), StartOf(s, g, i + 1);
    && 0 <= a <= b <= |s.enqueued|
    && Walk(s, g.ring[i], |g.ring| - i) == Seen(s)[a..b] + Walk(s, After(g.ring, i), |g.ring| - i - 1)
  }

  lemma JoinSlices(seen: seq<Value>, a: nat, b: nat)
    requires a <= b <= |seen|
    ensures seen[a..b] + seen[b..] == seen[a..]
  {
  }

  /** From block `i` of the ring on, the walk finds the rest of the history. */
  ghost predicate Rest(s: State, g: Ghost, i: nat)
    requires InRange(s) && InBounds(g) && |g.c| == |s.blocks| && i < |g.ring|
  {
    && 0 <= StartOf(s, g, i) <= |s.enqueued|
    && Walk(s, g.ring[i], |g.ring| - i) == Seen(s)[StartOf(s, g, i)..]
  }

  lemma RestBack(s: State, g: Ghost, i: nat)
    requires InRange(s) && InBounds(g) && |g.c| == |s.blocks| && i + 1 < |g.ring|
    requires Passes(s, g, i) && Rest(s, g, i + 1)
    ensures Rest(s, g, i)
  {
    JoinSlices(Seen(s), StartOf(s, g, i), StartOf(s, g, i + 1));
  }

  lemma RestLast(s: State, g: Ghost)
    requires InRange(s) && InBounds(g) && |g.c| == |s.blocks|
    requires Passes(s, g, g.k) && StartOf(s, g, g.k + 1) == |s.enqueued|
    requires Walk(s, After(g.ring, g.k), |g.ring| - (g.k + 1)) == Seen(s)[|s.enqueued|..]
    ensures Rest(s, g, g.k)
  {
    JoinSlices(Seen(s), StartOf(s, g, g.k), StartOf(s, g, g.k + 1));
  }

  lemma {:induction false} WalkFrom(s: State, g: Ghost, i: nat)
    requires InRange(s) && InBounds(g) && |g.c| == |s.blocks| && i <= g.k
    requires forall j :: i <= j <= g.k ==> Passes(s, g, j)
    requires Rest(s, g, g.k)
    ensures Rest(s, g, i)
    decreases g.k - i
  {
    if i < g.k {
      WalkFrom(s, g, i + 1);
      RestBack(s, g, i);
    }
  }

  lemma WalkIsRest(s: State, g: Ghost)
    requires Inv(s, g) && InRange(s)
    ensures Walk(s, s.frontBlock, |s.blocks|) == Seen(s)[|s.dequeued|..]
  {
    forall j | 0 <= j <= g.k ensures Passes(s, g, j) { WalkOne(s, g, j); }
    WalkBeyond(s, g);
    RestLast(s, g);
    WalkFrom(s, g, 0);
  }

  lemma WalkOne(s: State, g: Ghost, i: nat)
    requires Inv(s, g) && InRange(s) && i <= g.k
    ensures Passes(s, g, i)
  {
    var b := g.ring[i];
    assert g.c[b].first == StartOf(s, g, i);
    assert BlockOk(s.blocks[b], g.c[b], Seen(s));
    assert s.blocks[b].next == After(g.ring, i);
    StartsGrow(s, g, i, i + 1);
    StartsGrow(s, g, i + 1, g.k + 1);
    WalkBlock(s, g, i);
  }

  lemma WalkBlock(s: State, g: Ghost, i: nat)
    requires InRange(s) && InBounds(g) && |g.c| == |s.blocks| && i < |g.ring|
    requires g.c[g.ring[i]].first == StartOf(s, g, i) && s.blocks[g.ring[i]].next == After(g.ring, i)
    requires BlockOk(s.blocks[g.ring[i]], g.c[g.ring[i]], Seen(s)) && StartOf(s, g, i + 1) <= |s.enqueued|
    ensures Passes(s, g, i)
  {
    BlockHolds(s.blocks[g.ring[i]], g.c[g.ring[i]], Seen(s));
  }

  lemma WalkLast(s: State, b: nat, n: nat, v: Value)
    requires InRange(s) && b < |s.blocks| && n > 0
    requires BlockContents(s.blocks[b]) == [v] && Walk(s, s.blocks[b].next, n - 1) == []
    ensures Walk(s, b, n) == [v]
  {
  }

  lemma UnpublishedHolds(s: State, g: Ghost)
    requires Inv(s, g) && InRange(s) && s.producer.StoreTailBlock?
    ensures BlockContents(s.blocks[g.ring[g.k + 1]]) == [s.producer.v]
  {
    var b := g.ring[g.k + 1];
    assert BlockOk(s.blocks[b], g.c[b], Seen(s));
    BlockHolds(s.blocks[b], g.c[b], Seen(s));
  }

  lemma LinkAt(s: State, g: Ghost, i: nat)
    requires Inv(s, g) && i < |g.ring|
    ensures g.ring[i] < |s.blocks| && s.blocks[g.ring[i]].next == After(g.ring, i)
  {
  }

  lemma NothingBehind(s: State, g: Ghost, i: nat)
    requires Inv(s, g) && InRange(s) && s.producer.StoreTailBlock? && i == g.k + 2 && i < |g.ring|
    ensures Walk(s, g.ring[i], |g.ring| - i) == []
  {
    WalkEmpty(s, g, i);
  }

  lemma EmptyAfter(s: State, g: Ghost, i: nat)
    requires Inv(s, g) && InRange(s) && s.producer.StoreTailBlock? && i == g.k + 2 <= |g.ring|
    ensures Walk(s, After(g.ring, i - 1), |g.ring| - i) == []
  {
    if i < |g.ring| { NothingBehind(s, g, i); }
  }

  lemma WalkUnpublished(s: State, g: Ghost)
    requires Inv(s, g) && InRange(s) && s.producer.StoreTailBlock?
    ensures Walk(s, g.ring[g.k + 1], |g.ring| - (g.k + 1)) == [s.producer.v]
  {
    UnpublishedHolds(s, g);
    LinkAt(s, g, g.k + 1);
    EmptyAfter(s, g, g.k + 2);
    WalkLast(s, g.ring[g.k + 1], |g.ring| - (g.k + 1), s.producer.v);
  }

  lemma WalkBeyond(s: State, g: Ghost)
    requires Inv(s, g) && InRange(s)
    ensures Walk(s, After(g.ring, g.k), |g.ring| - (g.k + 1)) == Seen(s)[|s.enqueued|..]
  {
    if g.k + 1 < |g.ring| {
      if s.producer.StoreTailBlock? { WalkUnpublished(s, g); } else { WalkEmpty(s, g, g.k + 1); }
    }
  }

  // ---- what holds in every run -------------------------------------------

  /** The elements come out in the order they went in, none twice and none lost: what
      is still in the ring is exactly the rest of the history. */
  lemma FifoOrder(run: seq<State>, i: nat)
    requires IsRun(run) && run[0].largest > 1 && i < |run|
    ensures run[i].dequeued <= run[i].enqueued
    ensures InRange(run[i])
    ensures Walk(run[i], run[i].frontBlock, |run[i].blocks|) == Seen(run[i])[|run[i].dequeued|..]
  {
    var g := RunInv(run, i);
    InvInRange(run[i], g);
    WalkIsRest(run[i], g);
  }

  /** The two assertions: the block the consumer advances to holds an element, and the
      block the producer advances to is empty. */
  lemma AssertionsHold(run: seq<State>, i: nat)
    requires IsRun(run) && run[0].largest > 1 && i < |run|
    ensures var s := run[i];
            && InRange(s)
            && (s.consumer.LoadNextTail? ==> s.blocks[s.consumer.nb].front != s.blocks[s.consumer.nb].tail)
            && (s.producer.LoadNextFront? ==>
                  var y := s.blocks[s.blocks[s.tailBlock].next]; y.front == y.tail)
  {
    var s := run[i];
    var g := RunInv(run, i);
    InvInRange(s, g);
    NextBlock(s, g);
    if s.consumer.LoadNextTail? {
      var x, c := s.blocks[g.ring[1]], g.c[g.ring[1]];
      assert BlockOk(x, c, Seen(s));
      SameIndex(c.front, c.tail, x.size);
    }
    if s.producer.LoadNextFront? {
      assert BlockOk(s.blocks[g.ring[g.k + 1]], g.c[g.ring[g.k + 1]], Seen(s));
    }
  }

  ghost predicate FreeAt(x: Block, e: nat)
    requires 0 < x.size
  {
    (x.front + e) % x.size != x.tail
  }

  /** One more element fits after the tail without touching a held one, and the block
      does not look empty then. */
  ghost predicate HasRoom(x: Block) {
    && 0 < x.size == |x.data| && (x.tail + 1) % x.size != x.front
    && forall e :: 0 <= e < |BlockContents(x)| ==> FreeAt(x, e)
  }

  lemma FreeSlot(x: Block, c: Counters, seen: seq<Value>, e: nat)
    requires BlockOk(x, c, seen) && e < Length(c)
    ensures FreeAt(x, e)
  {
    AddMod(c.front, e, x.size);
    SameIndex(c.front + e, c.tail, x.size);
  }

  lemma RoomLeft(x: Block, c: Counters, seen: seq<Value>)
    requires BlockOk(x, c, seen) && c.tail + 1 < c.localFront + x.size
    ensures HasRoom(x)
  {
    FullTest(c.tail, c.front, x.size);
    BlockHolds(x, c, seen);
    forall e | 0 <= e < |BlockContents(x)| ensures FreeAt(x, e) { FreeSlot(x, c, seen, e); }
  }

  /** Where `inner_enqueue` is about to construct the element. */
  ghost function WriteTarget(s: State): Block
    requires InRange(s)
  {
    s.blocks[if s.producer.Write? then s.tailBlock else s.blocks[s.tailBlock].next]
  }

  /** The slot the producer writes holds no element that the consumer has yet to take. */
  lemma NoLiveSlotOverwritten(run: seq<State>, i: nat)
    requires IsRun(run) && run[0].largest > 1 && i < |run|
    requires run[i].producer.Write? || run[i].producer.WriteNext?
    ensures InRange(run[i]) && HasRoom(WriteTarget(run[i]))
  {
    var s := run[i];
    var g := RunInv(run, i);
    InvInRange(s, g);
    WriteHasRoom(s, g);
  }

  lemma WriteHasRoom(s: State, g: Ghost)
    requires Inv(s, g) && InRange(s) && (s.producer.Write? || s.producer.WriteNext?)
    ensures HasRoom(WriteTarget(s))
  {
    NextBlock(s, g);
    var b := if s.producer.Write? then s.tailBlock else g.ring[g.k + 1];
    assert BlockOk(s.blocks[b], g.c[b], Seen(s));
    RoomLeft(s.blocks[b], g.c[b], Seen(s));
  }

  /** `size_approx` is exact while neither end is in a call. */
  lemma QuietSizeIsExact(run: seq<State>, i: nat)
    requires IsRun(run) && run[0].largest > 1 && i < |run|
    requires run[i].producer == PIdle && run[i].consumer == CIdle
    ensures InRange(run[i])
    ensures |Walk(run[i], run[i].frontBlock, |run[i].blocks|)| == |run[i].enqueued| - |run[i].dequeued|
  {
    FifoOrder(run, i);
  }

  // ---- a failed try_dequeue ----------------------------------------------

  /** What is known when `try_dequeue` has found the front block empty. */
  lemma FrontSeenEmpty(s: State, g: Ghost)
    requires Inv(s, g) && s.consumer == LoadTail && InRange(s)
             && s.blocks[s.frontBlock].front == s.blocks[s.frontBlock].tail
    ensures s.frontBlock == s.tailBlock ==> s.enqueued == s.dequeued
  {
    var x, c := s.blocks[s.frontBlock], g.c[s.frontBlock];
    assert BlockOk(x, c, Seen(s));
    SameIndex(c.front, c.tail, x.size);
    if s.frontBlock == s.tailBlock {
      assert g.k == 0;
      assert g.c[g.ring[0]].first == StartOf(s, g, 0);
      TailEnds(s, g);
    }
  }

  /** Once ahead, the tail block stays ahead until the consumer moves. */
  lemma TailStaysAhead(s: State, g: Ghost, s': State)
    requires Inv(s, g) && Produces(s, s') && s.frontBlock != s.tailBlock
    ensures s'.frontBlock != s'.tailBlock
  {
    if s.producer.StoreTailBlock? { assert g.ring[g.k + 1] != g.ring[0]; }
  }

  lemma BeforeLoadTailBlock(s: State, s': State)
    requires Consumes(s, s') && s'.consumer == LoadTailBlock
    ensures s.consumer == LoadTail && s.blocks[s.frontBlock].front == s.blocks[s.frontBlock].tail
    ensures s'.frontBlock == s.frontBlock && s'.tailBlock == s.tailBlock
  {
  }

  lemma ProducesKeeps(s: State, s': State)
    requires Produces(s, s')
    ensures s'.consumer == s.consumer && s'.frontBlock == s.frontBlock && s'.dequeued == s.dequeued
            && |s'.blocks| >= |s.blocks|
  {
  }

  lemma RunStep(run: seq<State>, i: nat)
    requires IsRun(run) && 0 < i < |run|
    ensures Step(run[i - 1], run[i])
  {
    assert StepAt(run, i - 1);
  }

  /** One step back in a call that is about to return false. */
  lemma BeforeFalse(s: State, g: Ghost, s': State)
    requires Inv(s, g) && InRange(s) && Step(s, s')
    requires s'.consumer == LoadTailBlock && s'.frontBlock == s'.tailBlock
    ensures if s.consumer == LoadTail then s.enqueued == s.dequeued
            else s.consumer == LoadTailBlock && s.frontBlock == s.tailBlock
  {
    if Consumes(s, s') {
      BeforeLoadTailBlock(s, s');
      FrontSeenEmpty(s, g);
    } else {
      ProducesKeeps(s, s');
      if s.frontBlock != s.tailBlock { TailStaysAhead(s, g, s'); }
    }
  }

  lemma NotAtStart(run: seq<State>, i: nat)
    requires IsRun(run) && i < |run| && (run[i].consumer != CIdle || run[i].producer != PIdle)
    ensures i > 0
  {
  }

  lemma BackOne(run: seq<State>, i: nat)
    requires IsRun(run) && run[0].largest > 1 && 0 < i < |run|
    requires run[i].consumer == LoadTailBlock && run[i].frontBlock == run[i].tailBlock
    ensures var s := run[i - 1];
            if s.consumer == LoadTail then s.enqueued == s.dequeued
            else s.consumer == LoadTailBlock && s.frontBlock == s.tailBlock
  {
    var g := RunInv(run, i - 1);
    InvInRange(run[i - 1], g);
    RunStep(run, i);
    BeforeFalse(run[i - 1], g, run[i]);
  }

  /** In the call that is about to return false, the queue was empty at some moment. */
  lemma {:induction false} EmptyWhenFalse(run: seq<State>, i: nat) returns (m: nat)
    requires IsRun(run) && run[0].largest > 1 && i < |run|
    requires run[i].consumer == LoadTailBlock && run[i].frontBlock == run[i].tailBlock
    ensures m <= i && run[m].enqueued == run[m].dequeued
    ensures forall n :: m <= n <= i ==> run[n].consumer == LoadTail || run[n].consumer == LoadTailBlock
  {
    NotAtStart(run, i);
    BackOne(run, i);
    if run[i - 1].consumer == LoadTail { m := i - 1; } else { m := EmptyWhenFalse(run, i - 1); }
  }
}
