/** All implicit producers of a queue, their consumers, and the free list between them
    (`ImplicitProducer::enqueue`, what its `dequeue` and `dequeue_bulk` do once they own a
    range of indices, and `requisition_block`, in concurrentqueue.h).

    One thread for each producer and any number of consumers interleave at the grain of one
    shared access; inside `add` and `try_get` they take the steps of `FreeList`.  A block
    wanders: the consumer that counts its last element hands it to the free list, from
    which any producer may take it. */
module ImplicitProducers {
  import opened Words
  import opened Circular
  import opened ImplicitIndex
  import F = FreeList

  /** Where a block is.  Unused ones are what is left of the initial pool, and memory that
      has not been allocated; the other values are history, which no step reads. */
  datatype Owner =
    | Unused
    | Listed                                // inside the free list
    | Held(producer: nat)                   // requisitioned
    | Live(producer: nat, number: nat)      // holds that block number, not all counted
    | Returned(consumer: nat)               // all counted, not yet handed to the free list

  /** `done` is `elementsCompletelyDequeued`. */
  datatype Block = Block(done: nat, slots: seq<Value>)

  /** A range of indices of one producer. */
  datatype Claim = Claim(producer: nat, first: nat, e: nat)

  /** The next shared access of a dequeue that owns `c`: `i` is its next index and `from` the
      first one in the current block, `got` the elements read so far. */
  datatype ConsumerPc =
    | Free
    | LoadIndex(c: Claim)                                                 // load blockIndex
    | LoadTail(c: Claim, h: nat)                                          // load the tail of the header
    | LoadKey(c: Claim, h: nat, tail: nat)                                // load the key at the tail
    | LoadValue(c: Claim, i: nat, h: nat, slot: nat, got: seq<Value>)     // load the block of the entry
    | Read(c: Claim, from: nat, i: nat, h: nat, slot: nat, b: nat, got: seq<Value>)
    | Count(c: Claim, from: nat, i: nat, h: nat, slot: nat, b: nat, got: seq<Value>)   // set_many_empty
    | Clear(c: Claim, i: nat, h: nat, slot: nat, b: nat, got: seq<Value>)   // store null in the entry
    | Return(c: Claim, i: nat, h: nat, slot: nat, b: nat, got: seq<Value>)  // call freeList.add
    | Adding(c: Claim, i: nat, h: nat, slot: nat, got: seq<Value>)          // inside freeList.add

  /** What one finished dequeue returned. */
  datatype Delivery = Delivery(producer: nat, first: nat, values: seq<Value>)

  /** Producer `p` is thread `p` of the free list, and consumer `t` thread `|producers| + t`. */
  datatype State = State(
    free: F.State, blocks: seq<Block>, owner: seq<Owner>,
    producers: seq<Producer>, consumers: seq<ConsumerPc>, delivered: seq<Delivery>)

  ghost predicate Begins(s: State) {
    && F.Init(s.free) && |s.free.pcs| + 2 < F.SHOULD_BE_ON_FREELIST
    && |s.free.refs| == |s.blocks| == |s.owner| && |s.free.pcs| == |s.producers| + |s.consumers|
    && (forall b :: 0 <= b < |s.blocks| ==> |s.blocks[b].slots| == BLOCK_SIZE)
    && (forall b :: 0 <= b < |s.owner| ==> s.owner[b] == Unused)
    && (forall p :: 0 <= p < |s.producers| ==> Init(s.producers[p]))
    && (forall t :: 0 <= t < |s.consumers| ==> s.consumers[t] == Free)
    && s.delivered == []
  }

  // ---- producer steps ------------------------------------------------------

  function SetProducer(s: State, p: nat, x: Producer): State
    requires p < |s.producers|
  {
    s.(producers := s.producers[p := x])
  }

  function SetPc(s: State, p: nat, pc: Pc): State
    requires p < |s.producers|
  {
    SetProducer(s, p, s.producers[p].(pc := pc))
  }

  function SetOwner(s: State, b: nat, o: Owner): State
    requires b < |s.owner|
  {
    s.(owner := s.owner[b := o])
  }

  function SetBlock(s: State, b: nat, x: Block): State
    requires b < |s.blocks|
  {
    s.(blocks := s.blocks[b := x])
  }

  /** All accesses of the next step of producer `p` are in range. */
  ghost predicate ProducerInRange(s: State, p: nat)
    requires p < |s.producers|
  {
    var x := s.producers[p];
    && Shaped(x)
    && match x.pc
       case TryGet(_) => p < |s.free.pcs| && !s.free.pcs[p].Idle?
       case Pool(_) => p < |s.free.pcs|
       case Reset(_, b) => b < |s.blocks|
       case Install(_, b) => b < |s.owner| && HeaderShaped(Current(x), |x.entries|)
       case Write(_) => x.tailBlock.To? && x.tailBlock.block < |s.blocks|
                        && |s.blocks[x.tailBlock.block].slots| == BLOCK_SIZE
       case _ => true
  }

  /** A block that was never used is taken from the initial pool, or allocated. */
  predicate TakesUnused(s: State, s': State, p: nat, v: Value)
    requires p < |s.producers|
  {
    exists b :: 0 <= b < |s.owner| && s.owner[b] == Unused && s' == SetPc(SetOwner(s, b, Held(p)), p, Reset(v, b))
  }

  /** A step inside `try_get`, and how the call goes on when that ends. */
  ghost predicate TryStep(s: State, s': State, p: nat, v: Value)
    requires p < |s.producers| && p < |s.free.pcs| && !s.free.pcs[p].Idle?
  {
    var f, f' := s.free, s'.free;
    && F.StepOf(f, f', p)
    && if p < |f'.pcs| && !f'.pcs[p].Idle? then s' == s.(free := f')
       else if f.pcs[p].GetTake? then
         f.pcs[p].n < |s.owner|
         && s' == SetPc(SetOwner(s, f.pcs[p].n, Held(p)), p, Reset(v, f.pcs[p].n)).(free := f')
       else s' == SetPc(s, p, Create(v)).(free := f')
  }

  ghost predicate ProducerStep(s: State, s': State, p: nat, v: Value, more: seq<Entry>)
    requires p < |s.producers| && ProducerInRange(s, p)
  {
    var x := s.producers[p];
    match x.pc
    case Pool(w) =>
      || TakesUnused(s, s', p, w)
      || s' == SetPc(s, p, TryGet(w)).(free := F.Goto(s.free, p, F.GetHead))
    case TryGet(w) => TryStep(s, s', p, w)
    case Create(w) => TakesUnused(s, s', p, w) || s' == SetPc(s, p, Rewind)
    case Reset(w, b) => s' == SetPc(SetBlock(s, b, s.blocks[b].(done := 0)), p, Install(w, b))
    case Install(w, b) => s' == SetOwner(SetProducer(s, p, Installed(x, w, b)), b, Live(p, |x.lots|))
    case Write(w) =>
      var b := x.tailBlock.block;
      var y := s.blocks[b].(slots := s.blocks[b].slots[|x.items| % BLOCK_SIZE := w]);
      s' == SetPc(SetBlock(s, b, y), p, SetTail(w))
    case _ => exists x' :: LocalStep(x, x', v, more) && s' == SetProducer(s, p, x')
  }

  // ---- consumer steps ------------------------------------------------------

  function Goto(s: State, t: nat, pc: ConsumerPc): State
    requires t < |s.consumers|
  {
    s.(consumers := s.consumers[t := pc])
  }

  function Least(a: nat, b: nat): nat { if a <= b then a else b }

  /** The end of the part of `i .. e` that lies in the block of `i`. */
  function EndOf(i: nat, e: nat): nat { Least(e, (i / BLOCK_SIZE + 1) * BLOCK_SIZE) }

  /** The header that a consumer uses. */
  predicate SeesHeader(s: State, c: Claim, h: nat) {
    c.producer < |s.producers| && h < |s.producers[c.producer].headers|
  }

  function HeaderOf(s: State, c: Claim, h: nat): Header
    requires SeesHeader(s, c, h)
  {
    s.producers[c.producer].headers[h]
  }

  predicate SeesEntry(s: State, c: Claim, h: nat, slot: nat) {
    && SeesHeader(s, c, h) && slot < |HeaderOf(s, c, h).index|
    && HeaderOf(s, c, h).index[slot] < |s.producers[c.producer].entries|
  }

  function EntryAt(s: State, c: Claim, h: nat, slot: nat): Entry
    requires SeesEntry(s, c, h, slot)
  {
    s.producers[c.producer].entries[HeaderOf(s, c, h).index[slot]]
  }

  /** All accesses of the next step of consumer `t` are in range. */
  ghost predicate ConsumerInRange(s: State, t: nat)
    requires t < |s.consumers|
  {
    match s.consumers[t]
    case Free => true
    case LoadIndex(c) => c.producer < |s.producers| && s.producers[c.producer].headers != []
    case LoadTail(c, h) => SeesHeader(s, c, h)
    case LoadKey(c, h, tail) => SeesEntry(s, c, h, tail)
    case LoadValue(c, i, h, slot, got) => SeesEntry(s, c, h, slot) && EntryAt(s, c, h, slot).value.To?
    case Read(c, from, i, h, slot, b, got) => b < |s.blocks| && |s.blocks[b].slots| == BLOCK_SIZE
    case Count(c, from, i, h, slot, b, got) =>
      && SeesEntry(s, c, h, slot) && b < |s.blocks| && b < |s.owner| && from <= i
      && from / BLOCK_SIZE < |s.producers[c.producer].lots|
    case Clear(c, i, h, slot, b, got) =>
      SeesEntry(s, c, h, slot) && i > 0 && (i - 1) / BLOCK_SIZE < |s.producers[c.producer].lots|
    case Return(c, i, h, slot, b, got) =>
      b in s.free.taken && b < |s.owner| && |s.producers| + t < |s.free.pcs|
    case Adding(c, i, h, slot, got) =>
      SeesEntry(s, c, h, slot) && |s.producers| + t < |s.free.pcs| && !s.free.pcs[|s.producers| + t].Idle?
  }

  /** A block is done with: on to the next one, or the end of the call. */
  function Next(s: State, t: nat, c: Claim, i: nat, h: nat, slot: nat, got: seq<Value>): State
    requires t < |s.consumers| && SeesEntry(s, c, h, slot)
  {
    if i < c.e then Goto(s, t, LoadValue(c, i, h, (slot + 1) % |HeaderOf(s, c, h).index|, got))
    else Goto(s, t, Free).(delivered := s.delivered + [Delivery(c.producer, c.first, got)])
  }

  /** `set_many_empty`: the counter goes up; whoever brings it to the size of a block goes
      on to release the block. */
  function CountStep(s: State, t: nat): State
    requires t < |s.consumers| && s.consumers[t].Count? && ConsumerInRange(s, t)
  {
    var pc := s.consumers[t];
    var x, n, k := s.producers[pc.c.producer], pc.from / BLOCK_SIZE, pc.i - pc.from;
    var s' := SetProducer(SetBlock(s, pc.b, s.blocks[pc.b].(done := s.blocks[pc.b].done + k)),
                          pc.c.producer, Counted(x, n, k));
    if s.blocks[pc.b].done + k == BLOCK_SIZE then
      Goto(SetOwner(s', pc.b, Returned(t)), t, Clear(pc.c, pc.i, pc.h, pc.slot, pc.b, pc.got))
    else Next(s', t, pc.c, pc.i, pc.h, pc.slot, pc.got)
  }

  /** The entry is set to null. */
  function ClearStepOf(s: State, t: nat): State
    requires t < |s.consumers| && s.consumers[t].Clear? && ConsumerInRange(s, t)
  {
    var pc := s.consumers[t];
    var x := s.producers[pc.c.producer];
    Goto(SetProducer(s, pc.c.producer,
                     Cleared(x, HeaderOf(s, pc.c, pc.h).index[pc.slot], (pc.i - 1) / BLOCK_SIZE)),
         t, Return(pc.c, pc.i, pc.h, pc.slot, pc.b, pc.got))
  }

  /** `freeList.add` is called. */
  function ReturnStep(s: State, t: nat): State
    requires t < |s.consumers| && s.consumers[t].Return? && ConsumerInRange(s, t)
  {
    var pc := s.consumers[t];
    var f := s.free.(taken := s.free.taken - {pc.b});
    Goto(SetOwner(s, pc.b, Listed), t, Adding(pc.c, pc.i, pc.h, pc.slot, pc.got)).(
      free := F.Goto(f, |s.producers| + t, F.AddMark(pc.b)))
  }

  ghost predicate AddStep(s: State, s': State, t: nat)
    requires t < |s.consumers| && s.consumers[t].Adding? && ConsumerInRange(s, t)
  {
    var pc, u, f' := s.consumers[t], |s.producers| + t, s'.free;
    && F.StepOf(s.free, f', u)
    && s' == if u < |f'.pcs| && !f'.pcs[u].Idle? then s.(free := f')
             else Next(s.(free := f'), t, pc.c, pc.i, pc.h, pc.slot, pc.got)
  }

  ghost predicate ConsumerStep(s: State, s': State, t: nat)
    requires t < |s.consumers| && ConsumerInRange(s, t)
  {
    match s.consumers[t]
    case Free => false
    case LoadIndex(c) => s' == Goto(s, t, LoadTail(c, |s.producers[c.producer].headers| - 1))
    case LoadTail(c, h) => s' == Goto(s, t, LoadKey(c, h, HeaderOf(s, c, h).tail))
    case LoadKey(c, h, tail) =>
      var slot := LookupSlot(c.first, EntryAt(s, c, h, tail).key, tail, |HeaderOf(s, c, h).index|);
      s' == Goto(s, t, LoadValue(c, c.first, h, slot, []))
    case LoadValue(c, i, h, slot, got) =>
      s' == Goto(s, t, Read(c, i, i, h, slot, EntryAt(s, c, h, slot).value.block, got))
    case Read(c, from, i, h, slot, b, got) =>
      var got' := got + [s.blocks[b].slots[i % BLOCK_SIZE]];
      s' == Goto(s, t, if i + 1 < EndOf(from, c.e) then Read(c, from, i + 1, h, slot, b, got')
                       else Count(c, from, i + 1, h, slot, b, got'))
    case Count(_, _, _, _, _, _, _) => s' == CountStep(s, t)
    case Clear(_, _, _, _, _, _) => s' == ClearStepOf(s, t)
    case Return(_, _, _, _, _, _) => s' == ReturnStep(s, t)
    case Adding(_, _, _, _, _) => AddStep(s, s', t)
  }

  /** `headIndex.fetch_add(n)` on producer `p`, for which the ticket protocol has room. */
  ghost predicate Claims(s: State, s': State, t: nat, p: nat, n: nat) {
    && t < |s.consumers| && s.consumers[t].Free? && p < |s.producers|
    && var x := s.producers[p];
       && n > 0 && x.head + n <= |x.items|
       && s' == Goto(SetProducer(s, p, x.(head := x.head + n)), t, LoadIndex(Claim(p, x.head, x.head + n)))
  }

  ghost predicate Produces(s: State, s': State, p: nat) {
    && p < |s.producers| && ProducerInRange(s, p)
    && exists v, more :: ProducerStep(s, s', p, v, more)
  }

  ghost predicate Consumes(s: State, s': State, t: nat) {
    t < |s.consumers| && ConsumerInRange(s, t) && ConsumerStep(s, s', t)
  }

  ghost predicate Step(s: State, s': State) {
    || (exists p :: Produces(s, s', p))
    || (exists t, p, n :: Claims(s, s', t, p, n))
    || (exists t :: Consumes(s, s', t))
  }

  // ---- the invariant: what consumers have found ------------------------------

  ghost predicate ClaimOk(x: Producer, c: Claim) {
    c.first < c.e <= x.head && (c.e - 1) / BLOCK_SIZE < |x.lots|
  }

  /** A header in which all numbers of the claim can be found. */
  ghost predicate HeaderFits(x: Producer, c: Claim, h: nat) {
    ClaimOk(x, c) && h < |x.headers| && |x.headers[h].index| > 0 && (c.e - 1) / BLOCK_SIZE < Hi(x, h)
  }

  /** The slot of number `n`. */
  ghost predicate SlotOk(x: Producer, c: Claim, h: nat, slot: nat, n: nat) {
    HeaderFits(x, c, h) && slot == SlotIn(x.headers[h], n)
  }

  ghost predicate TailSeen(x: Producer, c: Claim, h: nat, tail: nat, m: nat) {
    SlotOk(x, c, h, tail, m) && c.first / BLOCK_SIZE <= m < Hi(x, h)
  }

  predicate GotOk(x: Producer, c: Claim, i: nat, got: seq<Value>) {
    c.first <= i <= |x.items| && got == x.items[c.first..i]
  }

  /** Index `i` is the first one of the claim, or the first one of a block. */
  predicate Starts(c: Claim, i: nat) { c.first <= i && (i == c.first || i % BLOCK_SIZE == 0) }

  predicate BlockIs(x: Producer, n: nat, b: nat) { n < |x.lots| && x.lots[n].block == b }

  /** The part of the claim before `i` is done with, and `i` is the end of a part. */
  predicate EndsPart(c: Claim, i: nat) { c.first < i <= c.e && (i == c.e || i % BLOCK_SIZE == 0) }

  ghost predicate SeekOk(x: Producer, pc: ConsumerPc) {
    match pc
    case Free => true
    case LoadIndex(c) => ClaimOk(x, c)
    case LoadTail(c, h) => HeaderFits(x, c, h)
    case LoadKey(c, h, tail) => HeaderFits(x, c, h) && exists m :: TailSeen(x, c, h, tail, m)
    case LoadValue(c, i, h, slot, got) =>
      SlotOk(x, c, h, slot, i / BLOCK_SIZE) && Starts(c, i) && i < c.e && GotOk(x, c, i, got)
    case Read(c, from, i, h, slot, b, got) =>
      && SlotOk(x, c, h, slot, from / BLOCK_SIZE) && Starts(c, from) && from <= i < EndOf(from, c.e)
      && BlockIs(x, from / BLOCK_SIZE, b) && GotOk(x, c, i, got)
    case Count(c, from, i, h, slot, b, got) =>
      && SlotOk(x, c, h, slot, from / BLOCK_SIZE) && Starts(c, from) && from < i == EndOf(from, c.e)
      && BlockIs(x, from / BLOCK_SIZE, b) && GotOk(x, c, i, got)
    case Clear(c, i, h, slot, b, got) =>
      && EndsPart(c, i) && SlotOk(x, c, h, slot, (i - 1) / BLOCK_SIZE) && GotOk(x, c, i, got)
      && BlockIs(x, (i - 1) / BLOCK_SIZE, b)
    case Return(c, i, h, slot, b, got) =>
      EndsPart(c, i) && SlotOk(x, c, h, slot, (i - 1) / BLOCK_SIZE) && GotOk(x, c, i, got)
    case Adding(c, i, h, slot, got) =>
      EndsPart(c, i) && SlotOk(x, c, h, slot, (i - 1) / BLOCK_SIZE) && GotOk(x, c, i, got)
  }

  // ---- the invariant: elements to be counted ---------------------------------

  /** How many indices below `x` lie in block number `n`. */
  function Below(x: nat, n: nat): (r: nat)
    ensures r <= BLOCK_SIZE
  {
    if x <= n * BLOCK_SIZE then 0 else Least(x - n * BLOCK_SIZE, BLOCK_SIZE)
  }

  /** From which index on the claim has not been counted. */
  function From(pc: ConsumerPc): nat
    requires !pc.Free?
  {
    match pc
    case LoadIndex(c) => c.first
    case LoadTail(c, _) => c.first
    case LoadKey(c, _, _) => c.first
    case LoadValue(_, i, _, _, _) => i
    case Read(_, from, _, _, _, _, _) => from
    case Count(_, from, _, _, _, _, _) => from
    case Clear(_, i, _, _, _, _) => i
    case Return(_, i, _, _, _, _) => i
    case Adding(_, i, _, _, _) => i
  }

  /** The elements of block number `n` of producer `p` that a consumer will still count. */
  function Owes(pc: ConsumerPc, p: nat, n: nat): (r: nat)
  {
    if pc.Free? || pc.c.producer != p || pc.c.e < From(pc) then 0 else Below(pc.c.e, n) - Below(From(pc), n)
  }

  function Total(pcs: seq<ConsumerPc>, p: nat, n: nat): nat {
    if pcs == [] then 0 else Owes(pcs[0], p, n) + Total(pcs[1..], p, n)
  }

  lemma {:induction false} TotalUpdate(pcs: seq<ConsumerPc>, t: nat, pc: ConsumerPc, p: nat, n: nat)
    requires t < |pcs|
    ensures Total(pcs[t := pc], p, n) == Total(pcs, p, n) - Owes(pcs[t], p, n) + Owes(pc, p, n)
  {
    if t == 0 {
      assert pcs[t := pc][1..] == pcs[1..];
    } else {
      assert pcs[t := pc][1..] == pcs[1..][t - 1 := pc];
      TotalUpdate(pcs[1..], t - 1, pc, p, n);
    }
  }

  lemma {:induction false} TotalMember(pcs: seq<ConsumerPc>, t: nat, p: nat, n: nat)
    requires t < |pcs|
    ensures Owes(pcs[t], p, n) <= Total(pcs, p, n)
  {
    if t > 0 { TotalMember(pcs[1..], t - 1, p, n); }
  }

  lemma {:induction false} TotalFree(pcs: seq<ConsumerPc>, p: nat, n: nat)
    requires forall t :: 0 <= t < |pcs| ==> pcs[t] == Free
    ensures Total(pcs, p, n) == 0
  {
    if pcs != [] { TotalFree(pcs[1..], p, n); }
  }

  function DoneOf(x: Producer, n: nat): nat {
    if n < |x.lots| then x.lots[n].done else 0
  }

  /** The elements of a block number that are claimed and not counted. */
  function Due(x: Producer, n: nat): int { Below(x.head, n) - DoneOf(x, n) }

  /** Some consumer will count each of them. */
  ghost predicate Balanced(x: Producer, pcs: seq<ConsumerPc>, p: nat, n: nat) { Total(pcs, p, n) == Due(x, n) }

  // ---- the invariant: blocks -------------------------------------------------

  /** The slots hold the elements with the indices of number `n`. */
  predicate Filled(slots: seq<Value>, items: seq<Value>, n: nat) {
    && |slots| == BLOCK_SIZE
    && forall i :: n * BLOCK_SIZE <= i < (n + 1) * BLOCK_SIZE && i < |items| ==> slots[i - n * BLOCK_SIZE] == items[i]
  }

  /** Block `b` holds number `n` of producer `p`, of which `done` elements are counted. */
  ghost predicate LiveOk(s: State, p: nat, n: nat, b: nat, done: nat)
    requires p < |s.producers| && |s.blocks| == |s.owner|
  {
    && b < |s.blocks| && s.owner[b] == Live(p, n) && s.blocks[b].done == done
    && Filled(s.blocks[b].slots, s.producers[p].items, n)
  }

  ghost predicate LotOk(s: State, p: nat, n: nat)
    requires p < |s.producers| && n < |s.producers[p].lots| && |s.blocks| == |s.owner|
  {
    var l := s.producers[p].lots[n];
    && (l.cleared ==> l.done == BLOCK_SIZE)
    && (l.done < BLOCK_SIZE ==> LiveOk(s, p, n, l.block, l.done))
  }

  ghost predicate LotsOk(s: State, p: nat)
    requires p < |s.producers| && |s.blocks| == |s.owner|
  {
    forall n :: 0 <= n < |s.producers[p].lots| ==> LotOk(s, p, n)
  }

  ghost predicate BalancedAll(s: State, p: nat)
    requires p < |s.producers|
  {
    forall n: nat :: Balanced(s.producers[p], s.consumers, p, n)
  }

  /** Inside `try_get`. */
  predicate Getting(pc: F.Pc) {
    match pc
    case InsLoadHead(_, k) => k.ToLoop?
    case InsSetNext(_, _, k) => k.ToLoop?
    case InsSetRefs(_, _, k) => k.ToLoop?
    case InsCas(_, _, k) => k.ToLoop?
    case InsUndo(_, _, k) => k.ToLoop?
    case Idle => false
    case AddMark(_) => false
    case _ => true
  }

  /** What producer `p` holds and where it is in the free list. */
  ghost predicate HoldOk(s: State, p: nat)
    requires p < |s.producers| && p < |s.free.pcs| && |s.blocks| == |s.owner|
  {
    var x := s.producers[p];
    && (if x.pc.TryGet? then Getting(s.free.pcs[p]) else s.free.pcs[p].Idle?)
    && match x.pc
       case Reset(_, b) => b < |s.owner| && s.owner[b] == Held(p)
       case Install(_, b) => b < |s.owner| && s.owner[b] == Held(p) && s.blocks[b].done == 0
       case SetTail(w) =>
         && x.tailBlock.To? && x.tailBlock.block < |s.blocks| && |s.blocks[x.tailBlock.block].slots| == BLOCK_SIZE
         && s.blocks[x.tailBlock.block].slots[|x.items| % BLOCK_SIZE] == w
       case _ => true
  }

  /** What consumer `t` has to give back and where it is in the free list. */
  ghost predicate GivesOk(s: State, t: nat)
    requires t < |s.consumers| && |s.producers| + t < |s.free.pcs|
  {
    var pc := s.consumers[t];
    && (pc.Adding? <==> !s.free.pcs[|s.producers| + t].Idle?) && !Getting(s.free.pcs[|s.producers| + t])
    && (pc.Clear? || pc.Return? ==> pc.b < |s.owner| && s.owner[pc.b] == Returned(t))
    && (pc.Clear? ==>
          && pc.c.producer < |s.producers| && pc.i > 0
          && var n, x := (pc.i - 1) / BLOCK_SIZE, s.producers[pc.c.producer];
             n < |x.lots| && x.lots[n].done == BLOCK_SIZE && !x.lots[n].cleared)
  }

  ghost predicate ConsumerOk(s: State, t: nat)
    requires t < |s.consumers| && |s.producers| + t < |s.free.pcs|
  {
    var pc := s.consumers[t];
    && (!pc.Free? ==> pc.c.producer < |s.producers| && SeekOk(s.producers[pc.c.producer], pc))
    && GivesOk(s, t)
  }

  predicate HeldBy(pc: Pc, b: nat) { (pc.Reset? || pc.Install?) && pc.b == b }

  ghost predicate OwnerOk(s: State, b: nat)
    requires b < |s.owner|
  {
    match s.owner[b]
    case Unused => true
    case Listed => true
    case Held(p) => p < |s.producers| && HeldBy(s.producers[p].pc, b)
    case Live(p, n) =>
      p < |s.producers| && BlockIs(s.producers[p], n, b) && s.producers[p].lots[n].done < BLOCK_SIZE
    case Returned(t) =>
      t < |s.consumers| && (s.consumers[t].Clear? || s.consumers[t].Return?) && s.consumers[t].b == b
  }

  ghost predicate Sizes(s: State) {
    && |s.free.refs| == |s.blocks| == |s.owner| && |s.free.pcs| == |s.producers| + |s.consumers|
    && forall b :: 0 <= b < |s.blocks| ==> |s.blocks[b].slots| == BLOCK_SIZE
  }

  /** The free list has the blocks that nobody else has. */
  ghost predicate FreeOk(s: State)
    requires Sizes(s)
  {
    forall b :: 0 <= b < |s.owner| ==> (b in s.free.taken <==> s.owner[b] != Listed)
  }

  ghost predicate DeliveryOk(s: State, d: Delivery) {
    && d.producer < |s.producers|
    && d.first + |d.values| <= |s.producers[d.producer].items|
    && d.values == s.producers[d.producer].items[d.first..d.first + |d.values|]
  }

  ghost predicate Parts(s: State) {
    && Sizes(s) && FreeOk(s)
    && (forall p :: 0 <= p < |s.producers| ==>
          IndexOk(s.producers[p]) && HoldOk(s, p) && LotsOk(s, p) && BalancedAll(s, p))
    && (forall t :: 0 <= t < |s.consumers| ==> ConsumerOk(s, t))
    && (forall b :: 0 <= b < |s.owner| ==> OwnerOk(s, b))
    && (forall k :: 0 <= k < |s.delivered| ==> DeliveryOk(s, s.delivered[k]))
  }

  ghost predicate Inv(s: State, linked: seq<nat>) {
    F.Inv(s.free, linked) && Parts(s)
  }

  // ---- preservation: the producers -------------------------------------------

  lemma FitsLater(x: Producer, x': Producer, c: Claim, h: nat)
    requires HeaderFits(x, c, h) && Later(x, x')
    ensures HeaderFits(x', c, h) && forall n: int :: SlotIn(x'.headers[h], n) == SlotIn(x.headers[h], n)
    ensures Hi(x, h) <= Hi(x', h)
  {
    assert SameHeader(x, x', h);
  }

  lemma TailLater(x: Producer, x': Producer, c: Claim, h: nat, tail: nat)
    requires SeekOk(x, LoadKey(c, h, tail)) && Later(x, x')
    ensures SeekOk(x', LoadKey(c, h, tail))
  {
    FitsLater(x, x', c, h);
    var m :| TailSeen(x, c, h, tail, m);
    assert TailSeen(x', c, h, tail, m);
  }

  lemma GotLater(x: Producer, x': Producer, c: Claim, i: nat, got: seq<Value>)
    requires GotOk(x, c, i, got) && Later(x, x')
    ensures GotOk(x', c, i, got)
  {
  }

  lemma SeekLater(x: Producer, x': Producer, pc: ConsumerPc)
    requires SeekOk(x, pc) && Later(x, x')
    ensures SeekOk(x', pc)
  {
    if pc.LoadKey? {
      TailLater(x, x', pc.c, pc.h, pc.tail);
    } else if !pc.Free? && !pc.LoadIndex? {
      FitsLater(x, x', pc.c, pc.h);
      if !pc.LoadTail? { GotLater(x, x', pc.c, pc.i, pc.got); }
    }
  }

  /** Only producer `p` and block `m` are concerned, and `m` is not somebody else's. */
  ghost predicate ProducerFrame(s: State, s': State, p: nat, m: nat) {
    && Sizes(s') && |s'.producers| == |s.producers| && p < |s.producers| && |s'.blocks| == |s.blocks| == |s.owner|
    && s'.consumers == s.consumers && s'.delivered == s.delivered
    && (forall q :: 0 <= q < |s.producers| && q != p ==> s'.producers[q] == s.producers[q])
    && |s'.free.pcs| == |s.free.pcs|
    && (forall u :: 0 <= u < |s.free.pcs| && u != p ==> s'.free.pcs[u] == s.free.pcs[u])
    && (forall b :: 0 <= b < |s.owner| && b != m ==> s'.owner[b] == s.owner[b] && s'.blocks[b] == s.blocks[b])
    && (m < |s.owner| ==> MayTouch(s.owner[m], p))
    && ProducerMoves(s.producers[p], s'.producers[p], m)
  }

  predicate MayTouch(o: Owner, p: nat) {
    o.Unused? || o.Listed? || ((o.Held? || o.Live?) && o.producer == p)
  }

  /** The lots grow; a block that was held is the one that is touched. */
  ghost predicate ProducerMoves(x: Producer, x': Producer, m: nat) {
    && Later(x, x') && x.lots <= x'.lots && x'.head == x.head
    && ((x.pc.Reset? || x.pc.Install?) ==> x.pc.b == m)
  }

  lemma OtherProducer(s: State, s': State, p: nat, m: nat, q: nat)
    requires Parts(s) && ProducerFrame(s, s', p, m) && q < |s.producers| && q != p
    ensures IndexOk(s'.producers[q]) && HoldOk(s', q) && LotsOk(s', q) && BalancedAll(s', q)
  {
    assert HoldOk(s, q) && LotsOk(s, q) && BalancedAll(s, q);
    forall n | 0 <= n < |s'.producers[q].lots| ensures LotOk(s', q, n) { assert LotOk(s, q, n); }
    forall n: nat ensures Balanced(s'.producers[q], s'.consumers, q, n) {
      assert Balanced(s.producers[q], s.consumers, q, n);
    }
    TouchesNot(s, s', p, m, q);
  }

  lemma TouchesNot(s: State, s': State, p: nat, m: nat, q: nat)
    requires Parts(s) && ProducerFrame(s, s', p, m) && q < |s.producers| && q != p
    ensures HoldOk(s', q)
  {
    var x := s.producers[q];
    assert HoldOk(s, q) && LotsOk(s, q) && IndexOk(x);
    if x.pc.SetTail? {
      LastIsLive(s, q);
    }
  }

  /** The block that a producer writes to is its own. */
  lemma LastIsLive(s: State, p: nat)
    requires Parts(s) && p < |s.producers| && (s.producers[p].pc.Write? || s.producers[p].pc.SetTail?)
    ensures var x := s.producers[p];
      && x.lots != [] && x.tailBlock == To(x.lots[|x.lots| - 1].block)
      && LiveOk(s, p, |x.lots| - 1, x.tailBlock.block, x.lots[|x.lots| - 1].done)
  {
    var x := s.producers[p];
    assert IndexOk(x) && LotsOk(s, p) && BalancedAll(s, p);
    var n := |x.lots| - 1;
    assert LotOk(s, p, n) && Balanced(x, s.consumers, p, n);
  }

  lemma GivesStay(s: State, s': State, p: nat, m: nat, t: nat)
    requires Parts(s) && ProducerFrame(s, s', p, m) && t < |s.consumers|
    ensures GivesOk(s', t)
  {
    assert ConsumerOk(s, t);
  }

  lemma ConsumersStay(s: State, s': State, p: nat, m: nat, t: nat)
    requires Sizes(s) && ProducerFrame(s, s', p, m) && t < |s.consumers| && ConsumerOk(s, t) && GivesOk(s', t)
    ensures ConsumerOk(s', t)
  {
    var pc := s.consumers[t];
    if !pc.Free? && pc.c.producer == p { SeekLater(s.producers[p], s'.producers[p], pc); }
  }

  lemma OwnersStay(s: State, s': State, p: nat, m: nat, b: nat)
    requires Parts(s) && ProducerFrame(s, s', p, m) && b < |s.owner| && b != m
    ensures OwnerOk(s', b)
  {
    assert OwnerOk(s, b);
  }

  lemma DeliveriesStay(s: State, s': State, p: nat, m: nat, k: nat)
    requires Parts(s) && ProducerFrame(s, s', p, m) && k < |s.delivered|
    ensures DeliveryOk(s', s.delivered[k])
  {
    assert DeliveryOk(s, s.delivered[k]);
  }

  /** What remains to be shown of a step of producer `p`. */
  ghost predicate OwnPartsOk(s: State, p: nat, m: nat)
    requires Sizes(s) && p < |s.producers|
  {
    && FreeOk(s) && IndexOk(s.producers[p]) && HoldOk(s, p) && LotsOk(s, p) && BalancedAll(s, p)
    && (m < |s.owner| ==> OwnerOk(s, m))
  }

  lemma ProducerKeeps(s: State, s': State, p: nat, m: nat)
    requires Parts(s) && ProducerFrame(s, s', p, m) && OwnPartsOk(s', p, m)
    ensures Parts(s')
  {
    forall q | 0 <= q < |s'.producers|
      ensures IndexOk(s'.producers[q]) && HoldOk(s', q) && LotsOk(s', q) && BalancedAll(s', q)
    {
      if q != p { OtherProducer(s, s', p, m, q); }
    }
    forall t | 0 <= t < |s'.consumers| ensures ConsumerOk(s', t) {
      GivesStay(s, s', p, m, t);
      ConsumersStay(s, s', p, m, t);
    }
    forall b | 0 <= b < |s'.owner| ensures OwnerOk(s', b) { if b != m { OwnersStay(s, s', p, m, b); } }
    forall k | 0 <= k < |s'.delivered| ensures DeliveryOk(s', s'.delivered[k]) { DeliveriesStay(s, s', p, m, k); }
  }

  /** The new element is in the slot of its index. */
  lemma AppendFills(slots: seq<Value>, items: seq<Value>, n: nat, w: Value)
    requires Filled(slots, items, n) && |items| < (n + 1) * BLOCK_SIZE
    requires n * BLOCK_SIZE <= |items| ==> slots[|items| % BLOCK_SIZE] == w
    ensures Filled(slots, items + [w], n)
  {
    forall i | n * BLOCK_SIZE <= i < (n + 1) * BLOCK_SIZE && i < |items + [w]|
      ensures slots[i - n * BLOCK_SIZE] == (items + [w])[i]
    {
      if i == |items| { assert i % BLOCK_SIZE == i - n * BLOCK_SIZE; }
    }
  }

  lemma AppendKeepsFull(slots: seq<Value>, items: seq<Value>, n: nat, w: Value)
    requires Filled(slots, items, n) && (n + 1) * BLOCK_SIZE <= |items|
    ensures Filled(slots, items + [w], n)
  {
  }

  lemma AppendLot(s: State, s': State, p: nat, w: Value, n: nat)
    requires Parts(s) && p < |s.producers| && s.producers[p].pc == SetTail(w) && n < |s.producers[p].lots|
    requires s' == SetProducer(s, p, s.producers[p].(items := s.producers[p].items + [w], pc := Idle))
    ensures LotOk(s', p, n)
  {
    var x := s.producers[p];
    LastIsLive(s, p);
    assert IndexOk(x) && HoldOk(s, p) && LotsOk(s, p);
    assert LotOk(s, p, n);
    if x.lots[n].done < BLOCK_SIZE {
      var slots := s.blocks[x.lots[n].block].slots;
      if n + 1 == |x.lots| { AppendFills(slots, x.items, n, w); } else { AppendKeepsFull(slots, x.items, n, w); }
    }
  }

  predicate IsLocal(pc: Pc) {
    match pc
    case Pool(_) => false
    case TryGet(_) => false
    case Create(_) => false
    case Reset(_, _) => false
    case Install(_, _) => false
    case Write(_) => false
    case _ => true
  }

  lemma LocalLots(s: State, s': State, p: nat, v: Value, more: seq<Entry>)
    requires Parts(s) && p < |s.producers| && ProducerInRange(s, p) && IsLocal(s.producers[p].pc)
    requires p < |s'.producers| && LocalStep(s.producers[p], s'.producers[p], v, more)
    requires s' == SetProducer(s, p, s'.producers[p])
    ensures LotsOk(s', p)
  {
    var x, x' := s.producers[p], s'.producers[p];
    StepIsLater(x, x', v, more);
    forall n | 0 <= n < |x'.lots| ensures LotOk(s', p, n) {
      assert LotOk(s, p, n);
      if x.pc.SetTail? { AppendLot(s, s', p, x.pc.v, n); }
    }
  }

  lemma LocalIndex(s: State, s': State, p: nat, v: Value, more: seq<Entry>)
    requires Parts(s) && p < |s.producers| && ProducerInRange(s, p) && IsLocal(s.producers[p].pc)
    requires p < |s'.producers| && LocalStep(s.producers[p], s'.producers[p], v, more)
    requires s' == SetProducer(s, p, s'.producers[p])
    ensures IndexOk(s'.producers[p]) && HoldOk(s', p) && BalancedAll(s', p)
    ensures ProducerMoves(s.producers[p], s'.producers[p], |s.owner|)
  {
    var x, x' := s.producers[p], s'.producers[p];
    assert IndexOk(x) && HoldOk(s, p) && BalancedAll(s, p);
    StepKeeps(x, x', v, more);
    StepIsLater(x, x', v, more);
    forall n: nat ensures Balanced(x', s'.consumers, p, n) { assert Balanced(x, s.consumers, p, n); }
  }

  lemma LocalFrame(s: State, s': State, p: nat)
    requires Sizes(s) && p < |s.producers| == |s'.producers| && s' == SetProducer(s, p, s'.producers[p])
    requires ProducerMoves(s.producers[p], s'.producers[p], |s.owner|)
    ensures ProducerFrame(s, s', p, |s.owner|)
  {
  }

  lemma LocalKeeps(s: State, s': State, p: nat, v: Value, more: seq<Entry>)
    requires Parts(s) && p < |s.producers| && ProducerInRange(s, p) && IsLocal(s.producers[p].pc)
    requires p < |s'.producers| && LocalStep(s.producers[p], s'.producers[p], v, more)
    requires s' == SetProducer(s, p, s'.producers[p])
    ensures Parts(s')
  {
    LocalIndex(s, s', p, v, more);
    LocalLots(s, s', p, v, more);
    LocalFrame(s, s', p);
    ProducerKeeps(s, s', p, |s.owner|);
  }

  /** The steps from one call of `requisition_block` to the next change no lot. */
  lemma PcMoves(x: Producer, x': Producer)
    requires IndexOk(x) && x' == x.(pc := x'.pc) && Ahead(x'.pc) == Ahead(x.pc)
    requires Keyed(x.pc) && Keyed(x'.pc)
    ensures IndexOk(x') && Later(x, x')
  {
    PcStep(x, x');
  }

  /** A step that changes the pc of `p`, its place in the free list, and who has `m`. */
  lemma MovesKeep(s: State, s': State, p: nat, m: nat)
    requires Parts(s) && ProducerFrame(s, s', p, m) && s'.blocks == s.blocks
    requires s'.producers[p].lots == s.producers[p].lots && s'.producers[p].items == s.producers[p].items
    requires m < |s.owner| ==> !s.owner[m].Live? && OwnerOk(s', m)
    requires FreeOk(s') && IndexOk(s'.producers[p]) && HoldOk(s', p)
    ensures Parts(s')
  {
    var x, x' := s.producers[p], s'.producers[p];
    assert LotsOk(s, p) && BalancedAll(s, p);
    forall n | 0 <= n < |x'.lots| ensures LotOk(s', p, n) { assert LotOk(s, p, n); }
    forall n: nat ensures Balanced(x', s'.consumers, p, n) { assert Balanced(x, s.consumers, p, n); }
    ProducerKeeps(s, s', p, m);
  }

  lemma TakeKeeps(s: State, s': State, p: nat, v: Value, b: nat)
    requires Parts(s) && p < |s.producers| && (s.producers[p].pc.Pool? || s.producers[p].pc.Create?)
    requires b < |s.owner| && s.owner[b] == Unused && s' == SetPc(SetOwner(s, b, Held(p)), p, Reset(v, b))
    ensures Parts(s')
  {
    assert HoldOk(s, p);
    PcMoves(s.producers[p], s'.producers[p]);
    MovesKeep(s, s', p, b);
  }

  lemma GoOnKeeps(s: State, s': State, p: nat)
    requires Parts(s) && p < |s.producers| && (s.producers[p].pc.Pool? || s.producers[p].pc.Create?)
    requires s' == if s.producers[p].pc.Create? then SetPc(s, p, Rewind)
                   else SetPc(s, p, TryGet(s.producers[p].pc.v)).(free := F.Goto(s.free, p, F.GetHead))
    ensures Parts(s')
  {
    assert HoldOk(s, p);
    PcMoves(s.producers[p], s'.producers[p]);
    MovesKeep(s, s', p, |s.owner|);
  }

  lemma ResetKeeps(s: State, s': State, p: nat, v: Value)
    requires Parts(s) && p < |s.producers| && s.producers[p].pc.Reset? && ProducerInRange(s, p)
    requires ProducerStep(s, s', p, v, [])
    ensures Parts(s')
  {
    var x, x', b := s.producers[p], s'.producers[p], s.producers[p].pc.b;
    assert HoldOk(s, p) && LotsOk(s, p) && BalancedAll(s, p);
    PcMoves(x, x');
    forall n | 0 <= n < |x'.lots| ensures LotOk(s', p, n) { assert LotOk(s, p, n); }
    forall n: nat ensures Balanced(x', s'.consumers, p, n) { assert Balanced(x, s.consumers, p, n); }
    ProducerKeeps(s, s', p, b);
  }

  lemma InstalledIsLater(x: Producer, v: Value, b: nat)
    requires IndexOk(x) && x.pc == Install(v, b)
    ensures Current(x).index[Current(x).tail] < |x.entries| && Later(x, Installed(x, v, b))
  {
    InstallStep(x, v, b);
    var x' := Installed(x, v, b);
    forall h | 0 <= h < |x.headers| ensures SameHeader(x, x', h) {}
  }

  /** Nothing of a block number to come is claimed. */
  lemma NewLotIsEmpty(x: Producer)
    requires IndexOk(x) && |x.items| == |x.lots| * BLOCK_SIZE
    ensures Below(x.head, |x.lots|) == 0
  {
  }

  lemma InstallKeeps(s: State, s': State, p: nat, v: Value)
    requires Parts(s) && p < |s.producers| && s.producers[p].pc.Install? && ProducerInRange(s, p)
    requires ProducerStep(s, s', p, v, [])
    ensures Parts(s')
  {
    var x, x', b := s.producers[p], s'.producers[p], s.producers[p].pc.b;
    assert IndexOk(x) && HoldOk(s, p) && LotsOk(s, p) && BalancedAll(s, p);
    InstallStep(x, x.pc.v, b);
    InstalledIsLater(x, x.pc.v, b);
    forall n | 0 <= n < |x'.lots| ensures LotOk(s', p, n) { if n < |x.lots| { assert LotOk(s, p, n); } }
    forall n: nat ensures Balanced(x', s'.consumers, p, n) {
      assert Balanced(x, s.consumers, p, n);
      NewLotIsEmpty(x);
    }
    ProducerKeeps(s, s', p, b);
  }

  lemma WriteFills(slots: seq<Value>, items: seq<Value>, n: nat, w: Value)
    requires Filled(slots, items, n) && n * BLOCK_SIZE <= |items| < (n + 1) * BLOCK_SIZE
    ensures Filled(slots[|items| % BLOCK_SIZE := w], items, n)
  {
    forall i | n * BLOCK_SIZE <= i < (n + 1) * BLOCK_SIZE && i < |items|
      ensures slots[|items| % BLOCK_SIZE := w][i - n * BLOCK_SIZE] == items[i]
    {
    }
  }

  lemma WriteLots(s: State, s': State, p: nat, b: nat)
    requires Parts(s) && p < |s.producers| && s.producers[p].pc.Write? && b == s.producers[p].tailBlock.block
    requires ProducerInRange(s, p) && ProducerStep(s, s', p, 0, []) && Sizes(s')
    ensures LotsOk(s', p) && BalancedAll(s', p) && OwnerOk(s', b) && s.owner[b] == Live(p, |s.producers[p].lots| - 1)
  {
    var x, x' := s.producers[p], s'.producers[p];
    LastIsLive(s, p);
    assert IndexOk(x) && LotsOk(s, p) && BalancedAll(s, p);
    WriteFills(s.blocks[b].slots, x.items, |x.lots| - 1, x.pc.v);
    forall n | 0 <= n < |x'.lots| ensures LotOk(s', p, n) { assert LotOk(s, p, n); }
    forall n: nat ensures Balanced(x', s'.consumers, p, n) { assert Balanced(x, s.consumers, p, n); }
    assert OwnerOk(s, b);
  }

  lemma WriteKeeps(s: State, s': State, p: nat)
    requires Parts(s) && p < |s.producers| && s.producers[p].pc.Write? && ProducerInRange(s, p)
    requires ProducerStep(s, s', p, 0, [])
    ensures Parts(s')
  {
    var x, x', b := s.producers[p], s'.producers[p], s.producers[p].tailBlock.block;
    assert IndexOk(x) && HoldOk(s, p);
    PcStep(x, x');
    WriteLots(s, s', p, b);
    ProducerKeeps(s, s', p, b);
  }

  // ---- preservation: steps inside the free list --------------------------------

  /** A step of a call changes what the callers have only at the end of `try_get`. */
  lemma CallStep(f: F.State, linked: seq<nat>, f': F.State, u: nat)
    requires F.Inv(f, linked) && u < |f.pcs| && !f.pcs[u].Idle? && F.StepOf(f, f', u)
    ensures |f'.pcs| == |f.pcs| && |f'.refs| == |f.refs|
    ensures forall w :: 0 <= w < |f.pcs| && w != u ==> f'.pcs[w] == f.pcs[w]
    ensures Getting(f.pcs[u]) ==> f'.pcs[u].Idle? || Getting(f'.pcs[u])
    ensures !Getting(f.pcs[u]) ==> !Getting(f'.pcs[u]) && !f.pcs[u].GetTake?
    ensures f'.taken == if f.pcs[u].GetTake? then f.taken + {f.pcs[u].n} else f.taken
    ensures f.pcs[u].GetTake? ==> f'.pcs[u].Idle? && f.pcs[u].n < |f.refs| && f.pcs[u].n !in f.taken
  {
    if f.pcs[u].GetTake? {
      assert F.PcOk(f, f.pcs[u]);
      assert F.NodeOk(f, linked, f.pcs[u].n);
      F.TotalMember(F.Hold, f.pcs, u, f.pcs[u].n);
    }
  }

  lemma TryKeeps(s: State, linked: seq<nat>, s': State, p: nat, v: Value)
    requires Inv(s, linked) && p < |s.producers| && s.producers[p].pc == TryGet(v) && ProducerInRange(s, p)
    requires TryStep(s, s', p, v)
    ensures Parts(s')
  {
    var x, pc := s.producers[p], s.free.pcs[p];
    assert HoldOk(s, p) && IndexOk(x);
    CallStep(s.free, linked, s'.free, p);
    PcMoves(x, s'.producers[p]);
    MovesKeep(s, s', p, if pc.GetTake? then pc.n else |s.owner|);
  }

  lemma ProducerStepKeeps(s: State, linked: seq<nat>, s': State, p: nat, v: Value, more: seq<Entry>)
    requires Inv(s, linked) && p < |s.producers| && ProducerInRange(s, p) && ProducerStep(s, s', p, v, more)
    ensures Parts(s')
  {
    match s.producers[p].pc
    case Pool(w) =>
      if b :| 0 <= b < |s.owner| && s.owner[b] == Unused && s' == SetPc(SetOwner(s, b, Held(p)), p, Reset(w, b)) {
        TakeKeeps(s, s', p, w, b);
      } else {
        GoOnKeeps(s, s', p);
      }
    case Create(w) =>
      if b :| 0 <= b < |s.owner| && s.owner[b] == Unused && s' == SetPc(SetOwner(s, b, Held(p)), p, Reset(w, b)) {
        TakeKeeps(s, s', p, w, b);
      } else {
        GoOnKeeps(s, s', p);
      }
    case TryGet(w) => TryKeeps(s, linked, s', p, w);
    case Reset(_, _) => ResetKeeps(s, s', p, v);
    case Install(_, _) => InstallKeeps(s, s', p, v);
    case Write(_) => WriteKeeps(s, s', p);
    case _ =>
      assert LocalStep(s.producers[p], s'.producers[p], v, more) && s' == SetProducer(s, p, s'.producers[p]);
      LocalKeeps(s, s', p, v, more);
  }

  // ---- preservation: looking up and reading ------------------------------------

  /** What a consumer has yet to count is claimed but not counted. */
  lemma NotCounted(s: State, t: nat, n: nat)
    requires Parts(s) && t < |s.consumers| && !s.consumers[t].Free?
    requires From(s.consumers[t]) < s.consumers[t].c.e && n == From(s.consumers[t]) / BLOCK_SIZE
    ensures var pc := s.consumers[t]; var p := pc.c.producer;
      && p < |s.producers| && n < |s.producers[p].lots|
      && var l := s.producers[p].lots[n];
         && !l.cleared && l.done + Owes(pc, p, n) <= BLOCK_SIZE && l.done < BLOCK_SIZE
         && LiveOk(s, p, n, l.block, l.done)
  {
    var pc := s.consumers[t];
    var p := pc.c.producer;
    assert ConsumerOk(s, t);
    assert BalancedAll(s, p) && LotsOk(s, p);
    assert Balanced(s.producers[p], s.consumers, p, n);
    TotalMember(s.consumers, t, p, n);
    NumberOf(From(pc), pc.c.e, n);
    assert n < |s.producers[p].lots|;
    assert LotOk(s, p, n);
  }

  lemma NumberOf(from: nat, e: nat, n: nat)
    requires from < e && n == from / BLOCK_SIZE
    ensures Below(e, n) > Below(from, n) && n <= (e - 1) / BLOCK_SIZE
  {
  }

  /** Only consumer `t` moves, without counting or giving back. */
  ghost predicate Looks(s: State, s': State, t: nat)
    requires t < |s.consumers|
  {
    && t < |s'.consumers| && s' == Goto(s, t, s'.consumers[t])
    && var pc, pc' := s.consumers[t], s'.consumers[t];
       && !pc.Free? && !pc'.Free? && pc'.c == pc.c && From(pc') == From(pc)
       && !pc.Clear? && !pc.Return? && !pc.Adding? && !pc'.Clear? && !pc'.Return? && !pc'.Adding?
  }

  lemma LooksConsumer(s: State, s': State, t: nat, u: nat)
    requires Parts(s) && t < |s.consumers| && Looks(s, s', t) && u < |s.consumers|
    requires var pc := s'.consumers[t]; pc.c.producer < |s.producers| ==> SeekOk(s.producers[pc.c.producer], pc)
    ensures ConsumerOk(s', u)
  {
    assert ConsumerOk(s, u);
  }

  lemma LooksOwner(s: State, s': State, t: nat, b: nat)
    requires Parts(s) && t < |s.consumers| && Looks(s, s', t) && b < |s.owner|
    ensures OwnerOk(s', b)
  {
    assert OwnerOk(s, b);
  }

  lemma LooksKeeps(s: State, s': State, t: nat)
    requires Parts(s) && t < |s.consumers| && Looks(s, s', t)
    requires var pc := s'.consumers[t]; pc.c.producer < |s.producers| ==> SeekOk(s.producers[pc.c.producer], pc)
    ensures Parts(s')
  {
    forall p | 0 <= p < |s'.producers| ensures HoldOk(s', p) && LotsOk(s', p) && BalancedAll(s', p) {
      LooksProducer(s, s', t, p);
    }
    forall u | 0 <= u < |s'.consumers| ensures ConsumerOk(s', u) { LooksConsumer(s, s', t, u); }
    forall b | 0 <= b < |s'.owner| ensures OwnerOk(s', b) { LooksOwner(s, s', t, b); }
    forall k | 0 <= k < |s'.delivered| ensures DeliveryOk(s', s'.delivered[k]) {
      assert DeliveryOk(s, s.delivered[k]);
    }
  }

  lemma LooksProducer(s: State, s': State, t: nat, p: nat)
    requires Parts(s) && t < |s.consumers| && Looks(s, s', t) && p < |s.producers|
    ensures HoldOk(s', p) && LotsOk(s', p) && BalancedAll(s', p)
  {
    assert HoldOk(s, p) && LotsOk(s, p) && BalancedAll(s, p);
    forall n | 0 <= n < |s'.producers[p].lots| ensures LotOk(s', p, n) { assert LotOk(s, p, n); }
    forall n: nat ensures Balanced(s'.producers[p], s'.consumers, p, n) {
      assert Balanced(s.producers[p], s.consumers, p, n);
      TotalUpdate(s.consumers, t, s'.consumers[t], p, n);
    }
  }

  lemma LoadIndexFinds(x: Producer, c: Claim)
    requires IndexOk(x) && ClaimOk(x, c)
    ensures x.headers != [] && SeekOk(x, LoadTail(c, |x.headers| - 1))
  {
    assert HeaderShaped(Current(x), |x.entries|);
  }

  lemma LoadTailFinds(x: Producer, c: Claim, h: nat)
    requires IndexOk(x) && HeaderFits(x, c, h)
    ensures SeekOk(x, LoadKey(c, h, x.headers[h].tail))
  {
    var y := x.headers[h];
    var m: int := if h == Last(x) then |x.lots| + Ahead(x.pc) - 1 else y.hi - 1;
    if h < Last(x) { assert OldHeaderOk(x, h); }
    assert c.first / BLOCK_SIZE <= (c.e - 1) / BLOCK_SIZE;
    assert TailSeen(x, c, h, y.tail, m);
  }

  lemma LoadKeyFinds(x: Producer, c: Claim, h: nat, tail: nat)
    requires IndexOk(x) && SeekOk(x, LoadKey(c, h, tail)) && !x.lots[c.first / BLOCK_SIZE].cleared
    ensures x.headers[h].index[tail] < |x.entries|
    ensures var key := x.entries[x.headers[h].index[tail]].key;
      && key != INVALID_BLOCK_BASE
      && SeekOk(x, LoadValue(c, c.first, h, LookupSlot(c.first, key, tail, |x.headers[h].index|), []))
  {
    var m :| TailSeen(x, c, h, tail, m);
    var n := c.first / BLOCK_SIZE;
    LookupFinds(x, h, n, m);
    WithinRound(x, h, n, m);
    LookupIsExact(n, m, c.first, x.headers[h].off, |x.headers[h].index|);
    KeyIsValid(m);
  }

  /** The entry found has the key of the wanted block, and its value is the block. */
  ghost predicate Found(x: Producer, c: Claim, i: nat, h: nat, slot: nat) {
    && h < |x.headers| && slot < |x.headers[h].index| && x.headers[h].index[slot] < |x.entries|
    && i / BLOCK_SIZE < |x.lots|
    && x.entries[x.headers[h].index[slot]]
       == Entry(Wrap(i / BLOCK_SIZE * BLOCK_SIZE), To(x.lots[i / BLOCK_SIZE].block))
  }

  lemma LoadValueFinds(x: Producer, c: Claim, i: nat, h: nat, slot: nat, got: seq<Value>)
    requires IndexOk(x) && SeekOk(x, LoadValue(c, i, h, slot, got)) && i / BLOCK_SIZE < |x.lots|
    requires !x.lots[i / BLOCK_SIZE].cleared
    ensures Found(x, c, i, h, slot) && SeekOk(x, Read(c, i, i, h, slot, x.lots[i / BLOCK_SIZE].block, got))
  {
    LookupFinds(x, h, i / BLOCK_SIZE, i / BLOCK_SIZE);
  }

  lemma ReadFinds(s: State, x: Producer, pc: ConsumerPc, n: nat, done: nat)
    requires pc.Read? && SeekOk(x, pc) && pc.c.producer < |s.producers| && x == s.producers[pc.c.producer]
    requires |s.blocks| == |s.owner| && n == pc.from / BLOCK_SIZE && LiveOk(s, pc.c.producer, n, pc.b, done)
    requires pc.c.e <= |x.items|
    ensures pc.i / BLOCK_SIZE == n && s.blocks[pc.b].slots[pc.i % BLOCK_SIZE] == x.items[pc.i]
  {
    var i := pc.i;
    assert i / BLOCK_SIZE == n && i % BLOCK_SIZE == i - n * BLOCK_SIZE;
  }

  lemma GotMore(x: Producer, c: Claim, i: nat, got: seq<Value>)
    requires GotOk(x, c, i, got) && i < |x.items|
    ensures GotOk(x, c, i + 1, got + [x.items[i]])
  {
  }

  predicate LooksOnly(pc: ConsumerPc) { pc.LoadIndex? || pc.LoadTail? || pc.LoadKey? || pc.LoadValue? || pc.Read? }

  lemma LookSeeks(s: State, s': State, t: nat)
    requires Parts(s) && t < |s.consumers| && LooksOnly(s.consumers[t]) && ConsumerInRange(s, t)
    requires ConsumerStep(s, s', t)
    ensures var p := s.consumers[t].c.producer; p < |s.producers| && SeekOk(s.producers[p], s'.consumers[t])
  {
    var pc := s.consumers[t];
    assert ConsumerOk(s, t);
    var x := s.producers[pc.c.producer];
    assert IndexOk(x);
    if pc.LoadIndex? {
      LoadIndexFinds(x, pc.c);
    } else if pc.LoadTail? {
      LoadTailFinds(x, pc.c, pc.h);
    } else {
      LaterSeeks(s, s', t, x, From(pc) / BLOCK_SIZE);
    }
  }

  lemma LaterSeeks(s: State, s': State, t: nat, x: Producer, n: nat)
    requires Parts(s) && t < |s.consumers| && ConsumerInRange(s, t) && ConsumerStep(s, s', t)
    requires var pc := s.consumers[t];
      && (pc.LoadKey? || pc.LoadValue? || pc.Read?) && n == From(pc) / BLOCK_SIZE
      && pc.c.producer < |s.producers| && x == s.producers[pc.c.producer] && IndexOk(x) && SeekOk(x, pc)
    ensures SeekOk(x, s'.consumers[t])
  {
    var pc := s.consumers[t];
    NotCounted(s, t, n);
    if pc.LoadKey? {
      LoadKeyFinds(x, pc.c, pc.h, pc.tail);
    } else if pc.LoadValue? {
      LoadValueFinds(x, pc.c, pc.i, pc.h, pc.slot, pc.got);
    } else {
      ReadSeeks(s, s', t, x, n, x.lots[n].done);
    }
  }

  lemma ReadSeeks(s: State, s': State, t: nat, x: Producer, n: nat, done: nat)
    requires Sizes(s) && t < |s.consumers| && s.consumers[t].Read? && ConsumerInRange(s, t) && ConsumerStep(s, s', t)
    requires var pc := s.consumers[t];
      && n == pc.from / BLOCK_SIZE && pc.c.producer < |s.producers| && x == s.producers[pc.c.producer]
      && SeekOk(x, pc) && pc.c.e <= |x.items| && LiveOk(s, pc.c.producer, n, pc.b, done)
    ensures SeekOk(x, s'.consumers[t])
  {
    var pc := s.consumers[t];
    ReadFinds(s, x, pc, n, done);
    GotMore(x, pc.c, pc.i, pc.got);
  }

  lemma LookStep(s: State, s': State, t: nat)
    requires Parts(s) && t < |s.consumers| && LooksOnly(s.consumers[t]) && ConsumerInRange(s, t)
    requires ConsumerStep(s, s', t)
    ensures Parts(s')
  {
    LookSeeks(s, s', t);
    LooksKeeps(s, s', t);
  }

  // ---- preservation: counting and giving back ----------------------------------

  /** Only consumer `t`, block number `n` of its producer, and the block `m` of that number
      are concerned; there need not be such a block. */
  ghost predicate ConsumerFrame(s: State, s': State, t: nat, p: nat, n: nat, m: nat) {
    && Sizes(s') && |s'.producers| == |s.producers| && |s'.consumers| == |s.consumers|
    && |s'.blocks| == |s.blocks| == |s.owner| && t < |s.consumers| && p < |s.producers|
    && (forall q :: 0 <= q < |s.producers| && q != p ==> s'.producers[q] == s.producers[q])
    && (forall u :: 0 <= u < |s.consumers| && u != t ==> s'.consumers[u] == s.consumers[u])
    && |s'.free.pcs| == |s.free.pcs|
    && (forall u :: 0 <= u < |s.free.pcs| && u != |s.producers| + t ==> s'.free.pcs[u] == s.free.pcs[u])
    && (forall b :: 0 <= b < |s.owner| && b != m ==> s'.owner[b] == s.owner[b] && s'.blocks[b] == s.blocks[b])
    && (m < |s.owner| ==>
          s'.blocks[m].slots == s.blocks[m].slots && (s.owner[m] == Live(p, n) || s.owner[m] == Returned(t)))
    && ((s.consumers[t].Clear? || s.consumers[t].Return?) ==> s.consumers[t].b == m)
    && LotMoves(s.producers[p], s'.producers[p], n, m)
  }

  /** No lot but number `n` changes, and that one keeps its block. */
  ghost predicate LotMoves(x: Producer, x': Producer, n: nat, m: nat) {
    && Later(x, x') && x'.items == x.items && x'.pc == x.pc && x'.tailBlock == x.tailBlock
    && |x'.lots| == |x.lots|
    && (forall j :: 0 <= j < |x.lots| && j != n ==> x'.lots[j] == x.lots[j])
    && (n < |x.lots| && x'.lots[n] != x.lots[n] ==> x.lots[n].block == m)
  }

  /** Another consumer's lot that is counted and not cleared stays so. */
  lemma OtherLot(s: State, s': State, t: nat, p: nat, n: nat, m: nat, u: nat)
    requires Parts(s) && ConsumerFrame(s, s', t, p, n, m) && u < |s.consumers| && u != t && s.consumers[u].Clear?
    requires m < |s.owner| && s.owner[m] == Live(p, n) && n < |s.producers[p].lots|
             ==> s.producers[p].lots[n].done < BLOCK_SIZE
    ensures var pc := s.consumers[u]; var q, j := pc.c.producer, (pc.i - 1) / BLOCK_SIZE;
      && q < |s.producers| && pc.i > 0 && j < |s.producers[q].lots| && s'.producers[q].lots[j] == s.producers[q].lots[j]
  {
    assert ConsumerOk(s, u);
  }

  lemma OtherGives(s: State, s': State, t: nat, p: nat, n: nat, m: nat, u: nat)
    requires Parts(s) && ConsumerFrame(s, s', t, p, n, m) && u < |s.consumers| && u != t
    requires m < |s.owner| && s.owner[m] == Live(p, n) && n < |s.producers[p].lots|
             ==> s.producers[p].lots[n].done < BLOCK_SIZE
    ensures GivesOk(s', u)
  {
    assert ConsumerOk(s, u);
    if s.consumers[u].Clear? { OtherLot(s, s', t, p, n, m, u); }
  }

  lemma OtherConsumer(s: State, s': State, t: nat, p: nat, n: nat, m: nat, u: nat)
    requires Sizes(s) && ConsumerFrame(s, s', t, p, n, m) && u < |s.consumers| && u != t
    requires ConsumerOk(s, u) && GivesOk(s', u)
    ensures ConsumerOk(s', u)
  {
    var pc := s.consumers[u];
    if !pc.Free? && pc.c.producer == p { SeekLater(s.producers[p], s'.producers[p], pc); }
  }

  lemma HoldsStay(s: State, s': State, t: nat, p: nat, n: nat, m: nat, q: nat)
    requires Parts(s) && ConsumerFrame(s, s', t, p, n, m) && q < |s.producers|
    ensures HoldOk(s', q)
  {
    assert HoldOk(s, q);
    if s.producers[q].pc.SetTail? { LastIsLive(s, q); }
  }

  lemma OtherLots(s: State, s': State, t: nat, p: nat, n: nat, m: nat, q: nat)
    requires Parts(s) && ConsumerFrame(s, s', t, p, n, m) && q < |s.producers| && q != p
    ensures LotsOk(s', q)
  {
    assert LotsOk(s, q);
    forall j | 0 <= j < |s'.producers[q].lots| ensures LotOk(s', q, j) { assert LotOk(s, q, j); }
  }

  lemma SameLots(s: State, s': State, t: nat, p: nat, n: nat, m: nat, j: nat)
    requires Parts(s) && ConsumerFrame(s, s', t, p, n, m) && j < |s.producers[p].lots| && j != n
    ensures LotOk(s', p, j)
  {
    assert LotsOk(s, p);
    assert LotOk(s, p, j);
  }

  lemma OtherOwners(s: State, s': State, t: nat, p: nat, n: nat, m: nat, b: nat)
    requires Parts(s) && ConsumerFrame(s, s', t, p, n, m) && b < |s.owner| && b != m
    ensures OwnerOk(s', b)
  {
    assert OwnerOk(s, b);
  }

  /** What a step claims the consumer owes, and what it counts it owes no longer. */
  ghost predicate Settles(s: State, s': State, t: nat, p: nat)
    requires t < |s.consumers| && t < |s'.consumers| && p < |s.producers| && p < |s'.producers|
  {
    forall q: nat, j: nat ::
      Owes(s'.consumers[t], q, j) - Owes(s.consumers[t], q, j)
      == if q == p then Due(s'.producers[p], j) - Due(s.producers[p], j) else 0
  }

  lemma BalancesStay(s: State, s': State, t: nat, p: nat, n: nat, m: nat, q: nat)
    requires Parts(s) && ConsumerFrame(s, s', t, p, n, m) && Settles(s, s', t, p) && q < |s.producers|
    ensures BalancedAll(s', q)
  {
    assert BalancedAll(s, q);
    assert s'.consumers == s.consumers[t := s'.consumers[t]];
    forall j: nat ensures Balanced(s'.producers[q], s'.consumers, q, j) {
      assert Balanced(s.producers[q], s.consumers, q, j);
      TotalUpdate(s.consumers, t, s'.consumers[t], q, j);
    }
  }

  /** What is to be shown of a step of consumer `t`. */
  ghost predicate ConsumerMoves(s: State, s': State, t: nat, p: nat, n: nat, m: nat) {
    && ConsumerFrame(s, s', t, p, n, m) && Settles(s, s', t, p)
    && (m < |s.owner| && s.owner[m] == Live(p, n) ==> DoneOf(s.producers[p], n) < BLOCK_SIZE)
    && FreeOk(s') && IndexOk(s'.producers[p]) && ConsumerOk(s', t)
    && (m < |s.owner| ==> OwnerOk(s', m))
    && (n < |s'.producers[p].lots| ==> LotOk(s', p, n))
    && s.delivered <= s'.delivered
    && (forall k :: |s.delivered| <= k < |s'.delivered| ==> DeliveryOk(s', s'.delivered[k]))
  }

  lemma ConsumerKeeps(s: State, s': State, t: nat, p: nat, n: nat, m: nat)
    requires Parts(s) && ConsumerMoves(s, s', t, p, n, m)
    ensures Parts(s')
  {
    forall q | 0 <= q < |s'.producers|
      ensures IndexOk(s'.producers[q]) && HoldOk(s', q) && LotsOk(s', q) && BalancedAll(s', q)
    {
      HoldsStay(s, s', t, p, n, m, q);
      BalancesStay(s, s', t, p, n, m, q);
      if q != p {
        OtherLots(s, s', t, p, n, m, q);
      } else {
        forall j | 0 <= j < |s'.producers[p].lots| ensures LotOk(s', p, j) {
          if j != n { SameLots(s, s', t, p, n, m, j); }
        }
      }
    }
    forall u | 0 <= u < |s'.consumers| ensures ConsumerOk(s', u) {
      if u != t {
        OtherGives(s, s', t, p, n, m, u);
        OtherConsumer(s, s', t, p, n, m, u);
      }
    }
    forall b | 0 <= b < |s'.owner| ensures OwnerOk(s', b) { if b != m { OtherOwners(s, s', t, p, n, m, b); } }
    forall k | 0 <= k < |s'.delivered| ensures DeliveryOk(s', s'.delivered[k]) {
      if k < |s.delivered| { assert DeliveryOk(s, s.delivered[k]); }
    }
  }

  /** The next block is found one slot further. */
  lemma NextFinds(x: Producer, c: Claim, i: nat, h: nat, slot: nat, got: seq<Value>)
    requires EndsPart(c, i) && SlotOk(x, c, h, slot, (i - 1) / BLOCK_SIZE) && GotOk(x, c, i, got) && i < c.e
    ensures SeekOk(x, LoadValue(c, i, h, (slot + 1) % |x.headers[h].index|, got))
  {
    SlotNext((i - 1) / BLOCK_SIZE, x.headers[h].off, |x.headers[h].index|);
    assert i / BLOCK_SIZE == (i - 1) / BLOCK_SIZE + 1;
  }

  lemma EndOfPart(c: Claim, from: nat, i: nat)
    requires c.first <= from < i == EndOf(from, c.e)
    ensures EndsPart(c, i) && (i - 1) / BLOCK_SIZE == from / BLOCK_SIZE
  {
  }

  /** The part of a block that is counted. */
  lemma PartOf(from: nat, i: nat, e: nat, n: nat, j: nat)
    requires n == from / BLOCK_SIZE && from < i == EndOf(from, e)
    ensures Below(i, j) - Below(from, j) == if j == n then i - from else 0
    ensures j == n ==> Below(e, j) == Below(i, j)
  {
  }

  lemma CountSettles(s: State, s': State, t: nat, p: nat, n: nat, k: nat)
    requires t < |s.consumers| && t < |s'.consumers| && p < |s.producers| && p < |s'.producers|
    requires var pc := s.consumers[t];
      pc.Count? && pc.c.producer == p && n == pc.from / BLOCK_SIZE && pc.from < pc.i == EndOf(pc.from, pc.c.e)
      && k == pc.i - pc.from && n < |s.producers[p].lots|
    requires s'.producers[p] == Counted(s.producers[p], n, k)
    requires var pc, pc' := s.consumers[t], s'.consumers[t];
      if pc'.Free? then pc.i == pc.c.e else pc'.c == pc.c && From(pc') == pc.i
    ensures Settles(s, s', t, p)
  {
    var pc := s.consumers[t];
    forall q: nat, j: nat
      ensures Owes(s'.consumers[t], q, j) - Owes(pc, q, j)
              == if q == p then Due(s'.producers[p], j) - Due(s.producers[p], j) else 0
    {
      PartOf(pc.from, pc.i, pc.c.e, n, j);
      Monotone(pc.i, pc.c.e, j);
      Monotone(pc.from, pc.i, j);
    }
  }

  lemma Monotone(a: nat, b: nat, n: nat)
    requires a <= b
    ensures Below(a, n) <= Below(b, n)
  {
  }

  /** Counting: the assertion of `set_many_empty` holds, and the block stays in order. */
  lemma CountIsRight(s: State, t: nat)
    requires Parts(s) && t < |s.consumers| && s.consumers[t].Count?
    ensures var pc := s.consumers[t]; var p, n := pc.c.producer, pc.from / BLOCK_SIZE;
      && p < |s.producers| && n < |s.producers[p].lots| && pc.from < pc.i
      && var l := s.producers[p].lots[n];
         && l.block == pc.b && l.done < BLOCK_SIZE && !l.cleared && LiveOk(s, p, n, pc.b, l.done)
         && l.done + (pc.i - pc.from) <= BLOCK_SIZE
  {
    var pc := s.consumers[t];
    assert ConsumerOk(s, t);
    NotCounted(s, t, pc.from / BLOCK_SIZE);
    PartOf(pc.from, pc.i, pc.c.e, pc.from / BLOCK_SIZE, pc.from / BLOCK_SIZE);
  }

  lemma CountedIsLater(x: Producer, n: nat, k: nat, m: nat)
    requires IndexOk(x) && BlockIs(x, n, m)
    ensures LotMoves(x, Counted(x, n, k), n, m)
  {
    var x' := Counted(x, n, k);
    forall h | 0 <= h < |x.headers| ensures SameHeader(x, x', h) {}
  }

  /** Where a consumer goes when it is done with a part. */
  lemma NextOk(s: State, s': State, t: nat, c: Claim, i: nat, h: nat, slot: nat, got: seq<Value>)
    requires t < |s.consumers| && SeesEntry(s, c, h, slot) && s' == Next(s, t, c, i, h, slot, got)
    requires var x := s.producers[c.producer];
      EndsPart(c, i) && SlotOk(x, c, h, slot, (i - 1) / BLOCK_SIZE) && GotOk(x, c, i, got)
    ensures var pc := s'.consumers[t];
      if pc.Free? then i == c.e else pc.LoadValue? && pc.c == c && pc.i == i && SeekOk(s'.producers[c.producer], pc)
    ensures forall k :: |s.delivered| <= k < |s'.delivered| ==> DeliveryOk(s', s'.delivered[k])
  {
    if i < c.e { NextFinds(s.producers[c.producer], c, i, h, slot, got); }
  }

  /** What the invariant says of a consumer that is about to count `k` elements of number `n`. */
  ghost predicate Counting(s: State, t: nat, p: nat, n: nat, k: nat) {
    && Sizes(s) && t < |s.consumers| && s.consumers[t].Count? && p < |s.producers|
    && var pc, x := s.consumers[t], s.producers[p];
       && p == pc.c.producer && n == pc.from / BLOCK_SIZE == (pc.i - 1) / BLOCK_SIZE && k == pc.i - pc.from
       && pc.from < pc.i == EndOf(pc.from, pc.c.e) && EndsPart(pc.c, pc.i)
       && n < |x.lots| && x.lots[n].block == pc.b && !x.lots[n].cleared && x.lots[n].done + k <= BLOCK_SIZE
       && LiveOk(s, p, n, pc.b, x.lots[n].done) && SeekOk(x, pc)
       && |s.producers| + t < |s.free.pcs| && s.free.pcs[|s.producers| + t].Idle?
  }

  lemma CountFacts(s: State, t: nat, p: nat, n: nat, k: nat)
    requires Parts(s) && t < |s.consumers| && s.consumers[t].Count?
    requires var pc := s.consumers[t]; p == pc.c.producer && n == pc.from / BLOCK_SIZE && k == pc.i - pc.from
    ensures Counting(s, t, p, n, k) && IndexOk(s.producers[p])
  {
    CountIsRight(s, t);
    assert ConsumerOk(s, t) && IndexOk(s.producers[p]);
    EndOfPart(s.consumers[t].c, s.consumers[t].from, s.consumers[t].i);
  }

  lemma CountFrame(s: State, s': State, t: nat, p: nat, n: nat, k: nat)
    requires Counting(s, t, p, n, k) && ConsumerInRange(s, t) && s' == CountStep(s, t)
    requires LotMoves(s.producers[p], Counted(s.producers[p], n, k), n, s.consumers[t].b)
    ensures ConsumerFrame(s, s', t, p, n, s.consumers[t].b) && s'.free == s.free
    ensures s'.producers[p] == Counted(s.producers[p], n, k) && s.delivered <= s'.delivered
  {
  }

  /** The number is in order, and so is the block: it is live or handed to the consumer. */
  lemma CountLot(s: State, s': State, t: nat, p: nat, n: nat, k: nat)
    requires Counting(s, t, p, n, k) && ConsumerInRange(s, t) && s' == CountStep(s, t) && Sizes(s')
    ensures n < |s'.producers[p].lots| && LotOk(s', p, n) && OwnerOk(s', s.consumers[t].b)
    ensures s'.owner[s.consumers[t].b] != Listed
  {
  }

  lemma CountedSeeks(x: Producer, n: nat, k: nat, pc: ConsumerPc, m: nat)
    requires IndexOk(x) && SeekOk(x, pc) && BlockIs(x, n, m)
    ensures IndexOk(Counted(x, n, k)) && LotMoves(x, Counted(x, n, k), n, m) && SeekOk(Counted(x, n, k), pc)
  {
    CountedOk(x, n, k);
    CountedIsLater(x, n, k, m);
    SeekLater(x, Counted(x, n, k), pc);
  }

  lemma CountFree(s: State, s': State, t: nat, p: nat, n: nat, k: nat)
    requires Counting(s, t, p, n, k) && FreeOk(s) && ConsumerInRange(s, t) && s' == CountStep(s, t) && Sizes(s')
    ensures FreeOk(s')
  {
  }

  lemma CountMoves(s: State, s': State, t: nat, p: nat, n: nat, k: nat)
    requires Counting(s, t, p, n, k) && IndexOk(s.producers[p]) && FreeOk(s)
    requires ConsumerInRange(s, t) && s' == CountStep(s, t)
    ensures ConsumerMoves(s, s', t, p, n, s.consumers[t].b)
  {
    CountedSeeks(s.producers[p], n, k, s.consumers[t], s.consumers[t].b);
    CountFrame(s, s', t, p, n, k);
    CountGoesOn(s, s', t, p, n, k);
    CountSettles(s, s', t, p, n, k);
    CountLot(s, s', t, p, n, k);
    CountFree(s, s', t, p, n, k);
  }

  lemma CountKeeps(s: State, s': State, t: nat)
    requires Parts(s) && t < |s.consumers| && s.consumers[t].Count? && ConsumerInRange(s, t)
    requires s' == CountStep(s, t)
    ensures Parts(s')
  {
    var pc := s.consumers[t];
    var p, n, k := pc.c.producer, pc.from / BLOCK_SIZE, pc.i - pc.from;
    CountFacts(s, t, p, n, k);
    CountMoves(s, s', t, p, n, k);
    ConsumerKeeps(s, s', t, p, n, pc.b);
  }

  lemma CountGoesOn(s: State, s': State, t: nat, p: nat, n: nat, k: nat)
    requires Counting(s, t, p, n, k) && ConsumerInRange(s, t) && s' == CountStep(s, t)
    requires SeekOk(Counted(s.producers[p], n, k), s.consumers[t])
    ensures Sizes(s') && ConsumerOk(s', t)
    ensures var pc, pc' := s.consumers[t], s'.consumers[t];
      if pc'.Free? then pc.i == pc.c.e else pc'.c == pc.c && From(pc') == pc.i
    ensures forall j :: |s.delivered| <= j < |s'.delivered| ==> DeliveryOk(s', s'.delivered[j])
  {
    var pc := s.consumers[t];
    var s1 := SetProducer(SetBlock(s, pc.b, s.blocks[pc.b].(done := s.blocks[pc.b].done + k)), p,
                          Counted(s.producers[p], n, k));
    if s.blocks[pc.b].done + k != BLOCK_SIZE { NextOk(s1, s', t, pc.c, pc.i, pc.h, pc.slot, pc.got); }
  }

  lemma ClearReady(s: State, t: nat, x: Producer, n: nat)
    requires Parts(s) && t < |s.consumers| && s.consumers[t].Clear?
    requires s.consumers[t].c.producer < |s.producers| && x == s.producers[s.consumers[t].c.producer]
    requires n == (s.consumers[t].i - 1) / BLOCK_SIZE
    ensures var pc := s.consumers[t];
      && BlockIs(x, n, pc.b) && x.lots[n].done == BLOCK_SIZE && pc.b < |s.owner| && s.owner[pc.b] == Returned(t)
      && IndexOk(x) && EntryIn(Current(x), n) < |x.entries| && pc.h < |x.headers| && pc.slot < |x.headers[pc.h].index|
      && x.headers[pc.h].index[pc.slot] == EntryIn(Current(x), n)
      && IndexOk(Cleared(x, EntryIn(Current(x), n), n)) && SeekOk(x, pc)
      && |s.producers| + t < |s.free.pcs| && s.free.pcs[|s.producers| + t].Idle?
  {
    var pc := s.consumers[t];
    assert ConsumerOk(s, t) && IndexOk(x);
    LookupFinds(x, pc.h, n, n);
    ClearStep(x, n);
  }

  lemma ClearFrame(s: State, s': State, t: nat, p: nat, n: nat, x: Producer, e: nat)
    requires Sizes(s) && t < |s.consumers| && s.consumers[t].Clear? && ConsumerInRange(s, t) && s' == ClearStepOf(s, t)
    requires p == s.consumers[t].c.producer && n == (s.consumers[t].i - 1) / BLOCK_SIZE
    requires p < |s.producers| && x == s.producers[p] && IndexOk(x) && e < |x.entries|
    requires var pc := s.consumers[t];
      && BlockIs(x, n, pc.b) && x.lots[n].done == BLOCK_SIZE && pc.b < |s.owner| && s.owner[pc.b] == Returned(t)
      && HeaderOf(s, pc.c, pc.h).index[pc.slot] == e
    ensures ConsumerFrame(s, s', t, p, n, s.consumers[t].b) && Settles(s, s', t, p)
    ensures s'.producers[p] == Cleared(x, e, n) && OwnerOk(s', s.consumers[t].b)
    ensures LotOk(s', p, n) && s'.free == s.free && s'.owner == s.owner && s'.delivered == s.delivered
  {
    ClearedIsLater(x, e, n, s.consumers[t].b);
  }

  lemma ClearGoesOn(s: State, s': State, t: nat, x: Producer, x': Producer)
    requires Sizes(s) && t < |s.consumers| && s.consumers[t].Clear? && ConsumerInRange(s, t) && s' == ClearStepOf(s, t)
    requires var pc := s.consumers[t];
      && pc.c.producer < |s.producers| && x == s.producers[pc.c.producer] && x' == s'.producers[pc.c.producer]
      && SeekOk(x, pc) && Later(x, x') && pc.b < |s.owner| && s.owner[pc.b] == Returned(t)
      && |s.producers| + t < |s.free.pcs| && s.free.pcs[|s.producers| + t].Idle?
    ensures Sizes(s') && ConsumerOk(s', t)
  {
    SeekLater(x, x', s.consumers[t]);
  }

  lemma ClearMoves(s: State, s': State, t: nat, p: nat, n: nat, x: Producer, e: nat)
    requires Sizes(s) && t < |s.consumers| && s.consumers[t].Clear? && ConsumerInRange(s, t) && s' == ClearStepOf(s, t)
    requires p == s.consumers[t].c.producer && n == (s.consumers[t].i - 1) / BLOCK_SIZE
    requires p < |s.producers| && x == s.producers[p] && IndexOk(x) && e < |x.entries|
    requires var pc := s.consumers[t];
      && BlockIs(x, n, pc.b) && x.lots[n].done == BLOCK_SIZE && pc.b < |s.owner| && s.owner[pc.b] == Returned(t)
      && HeaderOf(s, pc.c, pc.h).index[pc.slot] == e && SeekOk(x, pc)
      && |s.producers| + t < |s.free.pcs| && s.free.pcs[|s.producers| + t].Idle?
    requires IndexOk(Cleared(x, e, n)) && FreeOk(s)
    ensures ConsumerMoves(s, s', t, p, n, s.consumers[t].b)
  {
    ClearFrame(s, s', t, p, n, x, e);
    ClearGoesOn(s, s', t, x, s'.producers[p]);
  }

  lemma ClearKeeps(s: State, s': State, t: nat)
    requires Parts(s) && t < |s.consumers| && s.consumers[t].Clear? && ConsumerInRange(s, t)
    requires s' == ClearStepOf(s, t)
    ensures Parts(s')
  {
    var pc := s.consumers[t];
    var p, n := pc.c.producer, (pc.i - 1) / BLOCK_SIZE;
    var x := s.producers[p];
    ClearReady(s, t, x, n);
    ClearMoves(s, s', t, p, n, x, EntryIn(Current(x), n));
    ConsumerKeeps(s, s', t, p, n, pc.b);
  }

  lemma ClearedIsLater(x: Producer, e: nat, n: nat, m: nat)
    requires IndexOk(x) && e < |x.entries| && BlockIs(x, n, m)
    ensures LotMoves(x, Cleared(x, e, n), n, m)
  {
    var x' := Cleared(x, e, n);
    forall h | 0 <= h < |x.headers| ensures SameHeader(x, x', h) {}
  }

  lemma SameIsLater(x: Producer)
    ensures Later(x, x)
  {
  }

  lemma ReturnMoves(s: State, s': State, t: nat, p: nat, x: Producer)
    requires Sizes(s) && FreeOk(s) && t < |s.consumers| && s.consumers[t].Return? && ConsumerInRange(s, t)
    requires s' == ReturnStep(s, t) && p == s.consumers[t].c.producer && p < |s.producers| && x == s.producers[p]
    requires IndexOk(x) && SeekOk(x, s.consumers[t]) && s.owner[s.consumers[t].b] == Returned(t)
    ensures ConsumerMoves(s, s', t, p, |x.lots|, s.consumers[t].b)
  {
    SameIsLater(x);
  }

  lemma ReturnKeeps(s: State, s': State, t: nat)
    requires Parts(s) && t < |s.consumers| && s.consumers[t].Return? && ConsumerInRange(s, t)
    requires s' == ReturnStep(s, t)
    ensures Parts(s')
  {
    var p := s.consumers[t].c.producer;
    assert ConsumerOk(s, t);
    ReturnMoves(s, s', t, p, s.producers[p]);
    ConsumerKeeps(s, s', t, p, |s.producers[p].lots|, s.consumers[t].b);
  }

  /** Where consumer `t` is when it comes back from `add`. */
  ghost predicate Returning(s: State, t: nat, x: Producer)
    requires t < |s.consumers|
  {
    var pc := s.consumers[t];
    && pc.Adding? && pc.c.producer < |s.producers| && x == s.producers[pc.c.producer] && IndexOk(x)
    && EndsPart(pc.c, pc.i) && SlotOk(x, pc.c, pc.h, pc.slot, (pc.i - 1) / BLOCK_SIZE) && GotOk(x, pc.c, pc.i, pc.got)
  }

  lemma AddReady(s: State, t: nat)
    requires Parts(s) && t < |s.consumers| && s.consumers[t].Adding?
    ensures var p := s.consumers[t].c.producer; p < |s.producers| && Returning(s, t, s.producers[p])
    ensures |s.producers| + t < |s.free.pcs| && !Getting(s.free.pcs[|s.producers| + t])
    ensures !s.free.pcs[|s.producers| + t].Idle?
  {
    assert ConsumerOk(s, t);
  }

  /** The free list after the step. */
  ghost predicate CallMoves(f: F.State, f': F.State, u: nat) {
    && f'.taken == f.taken && |f'.pcs| == |f.pcs| && |f'.refs| == |f.refs| && u < |f.pcs| && !Getting(f'.pcs[u])
    && forall w :: 0 <= w < |f.pcs| && w != u ==> f'.pcs[w] == f.pcs[w]
  }

  lemma AddWaits(s: State, s': State, t: nat, x: Producer)
    requires Sizes(s) && FreeOk(s) && t < |s.consumers| && Returning(s, t, x)
    requires CallMoves(s.free, s'.free, |s.producers| + t) && !s'.free.pcs[|s.producers| + t].Idle?
    requires s' == s.(free := s'.free)
    ensures ConsumerMoves(s, s', t, s.consumers[t].c.producer, |x.lots|, |s.owner|)
  {
    SameIsLater(x);
  }

  lemma AddEnds(s: State, s': State, t: nat, x: Producer, s1: State)
    requires Sizes(s) && FreeOk(s) && t < |s.consumers| && Returning(s, t, x)
    requires CallMoves(s.free, s'.free, |s.producers| + t) && s'.free.pcs[|s.producers| + t].Idle?
    requires s1 == s.(free := s'.free)
    requires var pc := s.consumers[t];
      SeesEntry(s1, pc.c, pc.h, pc.slot) && s' == Next(s1, t, pc.c, pc.i, pc.h, pc.slot, pc.got)
    ensures ConsumerMoves(s, s', t, s.consumers[t].c.producer, |x.lots|, |s.owner|)
  {
    var pc := s.consumers[t];
    SameIsLater(x);
    NextOk(s1, s', t, pc.c, pc.i, pc.h, pc.slot, pc.got);
  }

  lemma AddKeeps(s: State, linked: seq<nat>, s': State, t: nat)
    requires Inv(s, linked) && t < |s.consumers| && s.consumers[t].Adding? && ConsumerInRange(s, t)
    requires AddStep(s, s', t)
    ensures Parts(s')
  {
    var p, u := s.consumers[t].c.producer, |s.producers| + t;
    AddReady(s, t);
    CallStep(s.free, linked, s'.free, u);
    if s'.free.pcs[u].Idle? {
      AddEnds(s, s', t, s.producers[p], s.(free := s'.free));
    } else {
      AddWaits(s, s', t, s.producers[p]);
    }
    ConsumerKeeps(s, s', t, p, |s.producers[p].lots|, |s.owner|);
  }

  lemma ClaimMoves(s: State, s': State, t: nat, p: nat, n: nat, x: Producer)
    requires Sizes(s) && FreeOk(s) && Claims(s, s', t, p, n) && x == s.producers[p] && IndexOk(x) && GivesOk(s, t)
    ensures ConsumerMoves(s, s', t, p, |x.lots|, |s.owner|)
  {
    var x' := s'.producers[p];
    forall h | 0 <= h < |x.headers| ensures SameHeader(x, x', h) {}
    HeadOk(x, x');
    forall q: nat, j: nat
      ensures Owes(s'.consumers[t], q, j) - Owes(s.consumers[t], q, j) == if q == p then Due(x', j) - Due(x, j) else 0
    {
      Monotone(x.head, x'.head, j);
    }
  }

  lemma ClaimKeeps(s: State, s': State, t: nat, p: nat, n: nat)
    requires Parts(s) && Claims(s, s', t, p, n)
    ensures Parts(s')
  {
    assert ConsumerOk(s, t) && IndexOk(s.producers[p]);
    ClaimMoves(s, s', t, p, n, s.producers[p]);
    ConsumerKeeps(s, s', t, p, |s.producers[p].lots|, |s.owner|);
  }

  lemma HeadOk(x: Producer, x': Producer)
    requires IndexOk(x) && x' == x.(head := x'.head) && x.head < x'.head <= |x.items|
    ensures IndexOk(x') && (x'.head - 1) / BLOCK_SIZE < |x.lots|
  {
    OldHeadersStay(x, x');
  }

  lemma ConsumerStepKeeps(s: State, linked: seq<nat>, s': State, t: nat)
    requires Inv(s, linked) && t < |s.consumers| && ConsumerInRange(s, t) && ConsumerStep(s, s', t)
    ensures Parts(s')
  {
    match s.consumers[t]
    case Count(_, _, _, _, _, _, _) => CountKeeps(s, s', t);
    case Clear(_, _, _, _, _, _) => ClearKeeps(s, s', t);
    case Return(_, _, _, _, _, _) => ReturnKeeps(s, s', t);
    case Adding(_, _, _, _, _) => AddKeeps(s, linked, s', t);
    case _ => LookStep(s, s', t);
  }

  // ---- whole runs ----------------------------------------------------------------

  lemma BeginsOk(s: State)
    requires Begins(s)
    ensures Inv(s, [])
  {
    F.InitInv(s.free);
    forall p | 0 <= p < |s.producers| ensures IndexOk(s.producers[p]) && BalancedAll(s, p) {
      InitOk(s.producers[p]);
      forall n: nat ensures Balanced(s.producers[p], s.consumers, p, n) { TotalFree(s.consumers, p, n); }
    }
  }

  /** In the free list a step is one of its own steps, or none. */
  lemma FreeSteps(s: State, s': State)
    requires Parts(s) && Step(s, s')
    ensures s'.free == s.free || exists u: nat :: u < |s.free.pcs| && F.StepOf(s.free, s'.free, u)
  {
    if p: nat :| Produces(s, s', p) {
      var v, more :| ProducerStep(s, s', p, v, more);
      ProducerFree(s, s', p, v, more);
    } else if t: nat, p: nat, n: nat :| Claims(s, s', t, p, n) {
    } else {
      var t: nat :| Consumes(s, s', t);
      ConsumerFree(s, s', t, |s.producers| + t);
    }
  }

  lemma ProducerFree(s: State, s': State, p: nat, v: Value, more: seq<Entry>)
    requires Parts(s) && p < |s.producers| && ProducerInRange(s, p) && ProducerStep(s, s', p, v, more)
    ensures p < |s.free.pcs| && (s'.free == s.free || F.StepOf(s.free, s'.free, p))
  {
    assert HoldOk(s, p);
  }

  lemma ConsumerFree(s: State, s': State, t: nat, u: nat)
    requires Parts(s) && Consumes(s, s', t) && u == |s.producers| + t
    ensures u < |s.free.pcs| && (s'.free == s.free || F.StepOf(s.free, s'.free, u))
  {
    assert ConsumerOk(s, t);
  }

  lemma StepParts(s: State, linked: seq<nat>, s': State)
    requires Inv(s, linked) && Step(s, s')
    ensures Parts(s')
  {
    if p: nat :| Produces(s, s', p) {
      var v, more :| ProducerStep(s, s', p, v, more);
      ProducerStepKeeps(s, linked, s', p, v, more);
    } else if t: nat, p: nat, n: nat :| Claims(s, s', t, p, n) {
      ClaimKeeps(s, s', t, p, n);
    } else {
      var t: nat :| Consumes(s, s', t);
      ConsumerStepKeeps(s, linked, s', t);
    }
  }

  lemma StepInv(s: State, linked: seq<nat>, s': State) returns (linked': seq<nat>)
    requires Inv(s, linked) && Step(s, s')
    ensures Inv(s', linked')
  {
    StepParts(s, linked, s');
    FreeSteps(s, s');
    linked' := linked;
    if s'.free != s.free {
      var u: nat :| u < |s.free.pcs| && F.StepOf(s.free, s'.free, u);
      linked' := F.StepInv(s.free, linked, s'.free, u);
    }
  }

  /** `run` is an interleaving of any numbers of producers and consumers from the start. */
  ghost predicate IsRun(run: seq<State>) {
    run != [] && Begins(run[0]) && forall i :: 0 <= i < |run| - 1 ==> StepAt(run, i)
  }

  /** A step, or nothing happens here. */
  ghost predicate StepAt(run: seq<State>, i: nat)
    requires i + 1 < |run|
  {
    Step(run[i], run[i + 1]) || run[i + 1] == run[i]
  }

  lemma FirstInv(run: seq<State>) returns (linked: seq<nat>)
    requires IsRun(run)
    ensures Inv(run[0], linked)
  {
    linked := [];
    BeginsOk(run[0]);
  }

  lemma NextInv(run: seq<State>, i: nat, before: seq<nat>) returns (linked: seq<nat>)
    requires IsRun(run) && 0 < i < |run| && Inv(run[i - 1], before)
    ensures Inv(run[i], linked)
  {
    assert StepAt(run, i - 1);
    if run[i] == run[i - 1] { linked := before; } else { linked := StepInv(run[i - 1], before, run[i]); }
  }

  lemma {:induction false} RunInv(run: seq<State>, i: nat) returns (linked: seq<nat>)
    requires IsRun(run) && i < |run|
    ensures Inv(run[i], linked)
  {
    if i == 0 {
      linked := FirstInv(run);
    } else {
      var before := RunInv(run, i - 1);
      linked := NextInv(run, i, before);
    }
  }

  // ---- what the invariant means --------------------------------------------------

  /** Every finished dequeue returned exactly the elements that its producer had enqueued
      with its indices. */
  lemma DeliversWhatWasEnqueued(run: seq<State>, i: nat, k: nat)
    requires IsRun(run) && i < |run| && k < |run[i].delivered|
    ensures DeliveryOk(run[i], run[i].delivered[k])
  {
    var linked := RunInv(run, i);
  }

  /** Consumer `t` is going to read elements of block `b`, to count them, or to give it back. */
  predicate Uses(pc: ConsumerPc, b: nat) {
    match pc
    case Read(_, _, _, _, _, b', _) => b' == b
    case Count(_, _, _, _, _, b', _) => b' == b
    case Clear(_, _, _, _, b', _) => b' == b
    case Return(_, _, _, _, b', _) => b' == b
    case _ => false
  }

  /** Some element of block number `n` of producer `p` has not been counted. */
  predicate Needed(s: State, p: nat, n: nat) {
    p < |s.producers| && n < |s.producers[p].lots| && s.producers[p].lots[n].done < BLOCK_SIZE
  }

  /** No producer receives a block that a consumer still reads, or that holds elements of
      this or another producer which are not all counted. */
  lemma RequisitionedUnseen(run: seq<State>, i: nat, p: nat, b: nat)
    requires IsRun(run) && i < |run| && p < |run[i].producers| && HeldBy(run[i].producers[p].pc, b)
    ensures forall t :: 0 <= t < |run[i].consumers| ==> !Uses(run[i].consumers[t], b)
    ensures forall q: nat, n: nat :: Needed(run[i], q, n) ==> run[i].producers[q].lots[n].block != b
    ensures forall q :: 0 <= q < |run[i].producers| && q != p ==> !HeldBy(run[i].producers[q].pc, b)
  {
    var linked := RunInv(run, i);
    var s := run[i];
    assert HoldOk(s, p);
    forall t | 0 <= t < |s.consumers| ensures !Uses(s.consumers[t], b) { UsersOwn(s, t, b); }
    forall q: nat, n: nat | Needed(s, q, n) ensures s.producers[q].lots[n].block != b {
      assert LotsOk(s, q);
      assert LotOk(s, q, n);
    }
    forall q | 0 <= q < |s.producers| && q != p ensures !HeldBy(s.producers[q].pc, b) { assert HoldOk(s, q); }
  }

  /** A block that a consumer uses is live or in the hands of that consumer. */
  lemma UsersOwn(s: State, t: nat, b: nat)
    requires Parts(s) && t < |s.consumers|
    ensures Uses(s.consumers[t], b) ==> b < |s.owner| && (s.owner[b].Live? || s.owner[b] == Returned(t))
  {
    assert ConsumerOk(s, t);
    var pc := s.consumers[t];
    if Uses(pc, b) && (pc.Read? || pc.Count?) { NotCounted(s, t, pc.from / BLOCK_SIZE); }
  }

  /** Blocks that hold elements yet to be counted are different for different producers and
      different block numbers. */
  lemma BlocksNotShared(run: seq<State>, i: nat, p: nat, n: nat, q: nat, m: nat)
    requires IsRun(run) && i < |run| && Needed(run[i], p, n) && Needed(run[i], q, m) && (p != q || n != m)
    ensures run[i].producers[p].lots[n].block != run[i].producers[q].lots[m].block
  {
    var linked := RunInv(run, i);
    assert LotsOk(run[i], p) && LotsOk(run[i], q);
    assert LotOk(run[i], p, n) && LotOk(run[i], q, m);
  }

  /** The assertions of `get_block_index_index_for_index` never fail: the key at the tail is
      that of some block; and the entry found, until its value is loaded, has the key of the
      wanted block, and its value is the block. */
  lemma LookupsSucceed(run: seq<State>, i: nat, t: nat)
    requires IsRun(run) && i < |run| && t < |run[i].consumers|
    ensures run[i].consumers[t].LoadKey? ==> var pc := run[i].consumers[t];
      && SeesEntry(run[i], pc.c, pc.h, pc.tail)
      && EntryAt(run[i], pc.c, pc.h, pc.tail).key != INVALID_BLOCK_BASE
    ensures run[i].consumers[t].LoadValue? ==> var pc := run[i].consumers[t];
      && pc.c.producer < |run[i].producers| && Found(run[i].producers[pc.c.producer], pc.c, pc.i, pc.h, pc.slot)
  {
    var linked := RunInv(run, i);
    var pc := run[i].consumers[t];
    assert ConsumerOk(run[i], t);
    if pc.LoadKey? {
      NotCounted(run[i], t, pc.c.first / BLOCK_SIZE);
      LoadKeyFinds(run[i].producers[pc.c.producer], pc.c, pc.h, pc.tail);
    } else if pc.LoadValue? {
      NotCounted(run[i], t, pc.i / BLOCK_SIZE);
      LoadValueFinds(run[i].producers[pc.c.producer], pc.c, pc.i, pc.h, pc.slot, pc.got);
    }
  }

  /** The assertion of `set_many_empty` never fails: no more elements are counted than a
      block has. */
  lemma CountWithinBlock(run: seq<State>, i: nat, t: nat)
    requires IsRun(run) && i < |run| && t < |run[i].consumers| && run[i].consumers[t].Count?
    ensures var pc := run[i].consumers[t];
      pc.b < |run[i].blocks| && run[i].blocks[pc.b].done + (pc.i - pc.from) <= BLOCK_SIZE
  {
    var linked := RunInv(run, i);
    CountIsRight(run[i], t);
  }

  /** The assertion after a doubling of the index never fails. */
  lemma GrownSlotUnused(run: seq<State>, i: nat, p: nat)
    requires IsRun(run) && i + 1 < |run| && p < |run[i].producers| && Produces(run[i], run[i + 1], p)
    requires run[i].producers[p].pc.Grow? && p < |run[i + 1].producers| && run[i + 1].producers[p].pc.SetKey?
    ensures var x := run[i + 1].producers[p];
      IndexOk(x) && x.entries[NextEntry(Current(x))].key == INVALID_BLOCK_BASE
  {
    var linked := RunInv(run, i);
    var v, more :| ProducerStep(run[i], run[i + 1], p, v, more);
    GrownHasRoom(run[i].producers[p], run[i + 1].producers[p], v, more);
  }

  /** The assertion of `enqueue` never fails: the tail does not compare less than the head. */
  lemma TailNotBehindHead(run: seq<State>, i: nat, p: nat)
    requires IsRun(run) && i < |run| && p < |run[i].producers| && run[i].producers[p].pc.LoadHead?
    ensures var x := run[i].producers[p]; !CircularLess(Wrap(|x.items|), Wrap(x.head))
  {
    var linked := RunInv(run, i);
    var x := run[i].producers[p];
    assert LotsOk(run[i], p) && BalancedAll(run[i], p) && HeaderShaped(Current(x), |x.entries|);
    if x.lo > 0 {
      assert LotOk(run[i], p, x.lo - 1) && Balanced(x, run[i].consumers, p, x.lo - 1);
      assert x.lo * BLOCK_SIZE <= x.head;
    }
    RoundIsShort(|Current(x).index|);
    assert |x.items| - x.head <= (x.keyed - x.lo) * BLOCK_SIZE;
    CircularLessIsLess(|x.items|, x.head);
  }

  /** No step accesses a header, slot, entry, block or element that does not exist, or reads
      a block number from an entry that is null. */
  lemma AccessesInRange(run: seq<State>, i: nat)
    requires IsRun(run) && i < |run|
    ensures forall p :: 0 <= p < |run[i].producers| ==> ProducerInRange(run[i], p)
    ensures forall t :: 0 <= t < |run[i].consumers| ==> ConsumerInRange(run[i], t)
  {
    var linked := RunInv(run, i);
    forall p | 0 <= p < |run[i].producers| ensures ProducerInRange(run[i], p) {
      assert HoldOk(run[i], p);
      if run[i].producers[p].pc.Write? { LastIsLive(run[i], p); }
    }
    forall t | 0 <= t < |run[i].consumers| ensures ConsumerInRange(run[i], t) { ConsumerReady(run[i], t); }
  }

  lemma SlotSeen(s: State, c: Claim, h: nat, slot: nat, n: nat)
    requires Parts(s) && c.producer < |s.producers| && SlotOk(s.producers[c.producer], c, h, slot, n)
    ensures SeesEntry(s, c, h, slot)
  {
    var x := s.producers[c.producer];
    assert HeaderShaped(x.headers[h], |x.entries|);
  }

  lemma LookReady(s: State, t: nat)
    requires Parts(s) && t < |s.consumers| && LooksOnly(s.consumers[t])
    ensures ConsumerInRange(s, t)
  {
    var pc := s.consumers[t];
    assert ConsumerOk(s, t);
    if pc.LoadKey? {
      var m :| TailSeen(s.producers[pc.c.producer], pc.c, pc.h, pc.tail, m);
      SlotSeen(s, pc.c, pc.h, pc.tail, m);
    } else if pc.LoadValue? {
      NotCounted(s, t, pc.i / BLOCK_SIZE);
      LoadValueFinds(s.producers[pc.c.producer], pc.c, pc.i, pc.h, pc.slot, pc.got);
    } else if pc.Read? {
      NotCounted(s, t, pc.from / BLOCK_SIZE);
    }
  }

  lemma ConsumerReady(s: State, t: nat)
    requires Parts(s) && t < |s.consumers|
    ensures ConsumerInRange(s, t)
  {
    var pc := s.consumers[t];
    if LooksOnly(pc) {
      LookReady(s, t);
    } else {
      assert ConsumerOk(s, t);
      if pc.Count? {
        CountIsRight(s, t);
        SlotSeen(s, pc.c, pc.h, pc.slot, pc.from / BLOCK_SIZE);
      } else if !pc.Free? {
        SlotSeen(s, pc.c, pc.h, pc.slot, (pc.i - 1) / BLOCK_SIZE);
      }
    }
  }

  // ---- when nothing is in progress -------------------------------------------------

  predicate Quiet(s: State) {
    && (forall p :: 0 <= p < |s.producers| ==> s.producers[p].pc == Idle)
    && forall t :: 0 <= t < |s.consumers| ==> s.consumers[t] == Free
  }

  /** A block that is in use holds a block number of a producer. */
  predicate HasPlace(s: State, linked: seq<nat>, b: nat)
    requires b < |s.owner|
  {
    match s.owner[b]
    case Unused => b !in linked
    case Listed => b in linked
    case Live(p, n) => b !in linked && p < |s.producers| && BlockIs(s.producers[p], n, b)
    case _ => false
  }

  /** No block is lost and none is kept too long: with nothing in progress each block was
      never used, or is linked in the free list, or holds one block number of one producer;
      and the numbers that have a block are those of which some element is not dequeued. */
  lemma NoBlockLost(run: seq<State>, i: nat) returns (linked: seq<nat>)
    requires IsRun(run) && i < |run| && Quiet(run[i])
    ensures F.IsList(run[i].free, linked)
    ensures forall b :: 0 <= b < |run[i].owner| ==> HasPlace(run[i], linked, b)
    ensures forall p, n :: 0 <= p < |run[i].producers| && 0 <= n < |run[i].producers[p].lots| ==>
      (HasBlock(run[i], p, n) <==> run[i].producers[p].head < (n + 1) * BLOCK_SIZE)
  {
    linked := RunInv(run, i);
    var s := run[i];
    forall u | 0 <= u < |s.free.pcs| ensures s.free.pcs[u] == F.Idle { QuietThread(s, u); }
    forall b | 0 <= b < |s.owner| ensures HasPlace(s, linked, b) {
      assert F.NodeOk(s.free, linked, b) && OwnerOk(s, b);
      F.TotalIdle(F.Pin, s.free.pcs, b);
      F.TotalIdle(F.Insert, s.free.pcs, b);
      F.TotalIdle(F.Hold, s.free.pcs, b);
    }
    forall p, n | 0 <= p < |s.producers| && 0 <= n < |s.producers[p].lots|
      ensures HasBlock(s, p, n) <==> s.producers[p].head < (n + 1) * BLOCK_SIZE
    {
      QuietNumber(s, p, n);
    }
  }

  /** The block of number `n` is still its own. */
  predicate HasBlock(s: State, p: nat, n: nat)
    requires p < |s.producers| && n < |s.producers[p].lots|
  {
    var b := s.producers[p].lots[n].block;
    b < |s.owner| && s.owner[b] == Live(p, n)
  }

  lemma QuietThread(s: State, u: nat)
    requires Parts(s) && Quiet(s) && u < |s.free.pcs|
    ensures s.free.pcs[u] == F.Idle
  {
    if u < |s.producers| { assert HoldOk(s, u); } else { assert ConsumerOk(s, u - |s.producers|); }
  }

  lemma QuietNumber(s: State, p: nat, n: nat)
    requires Parts(s) && Quiet(s) && p < |s.producers| && n < |s.producers[p].lots|
    ensures HasBlock(s, p, n) <==> s.producers[p].head < (n + 1) * BLOCK_SIZE
  {
    assert LotsOk(s, p) && BalancedAll(s, p);
    assert LotOk(s, p, n) && Balanced(s.producers[p], s.consumers, p, n);
    TotalFree(s.consumers, p, n);
    var b := s.producers[p].lots[n].block;
    if b < |s.owner| { assert OwnerOk(s, b); }
  }

  // ---- what the tickets see --------------------------------------------------------

  /** Producer `p` may publish, but `headIndex` stays. */
  predicate Moves(s: State, s': State, p: nat) {
    && p < |s.producers| && p < |s'.producers|
    && s'.producers[p].head == s.producers[p].head && |s'.producers[p].items| >= |s.producers[p].items|
  }

  lemma ProduceMoves(s: State, s': State, p: nat)
    requires Produces(s, s', p)
    ensures |s'.consumers| == |s.consumers| && |s'.producers| == |s.producers|
    ensures forall q :: 0 <= q < |s.producers| ==> Moves(s, s', q)
    ensures forall q :: 0 <= q < |s.producers| && q != p ==> s'.producers[q] == s.producers[q]
  {
    var v, more :| ProducerStep(s, s', p, v, more);
  }

  lemma ConsumeMoves(s: State, s': State, t: nat)
    requires Consumes(s, s', t)
    ensures |s'.consumers| == |s.consumers| && |s'.producers| == |s.producers|
    ensures forall q :: 0 <= q < |s.producers| ==>
              Moves(s, s', q) && s'.producers[q].items == s.producers[q].items
  {
  }

  // ---- every index once ----------------------------------------------------------

  /** A running call, or a finished one, has index `x` of producer `p`. */
  function Holds(pc: ConsumerPc, p: nat, x: nat): nat {
    if !pc.Free? && pc.c.producer == p && pc.c.first <= x < pc.c.e then 1 else 0
  }

  function Holders(pcs: seq<ConsumerPc>, p: nat, x: nat): nat {
    if pcs == [] then 0 else Holds(pcs[0], p, x) + Holders(pcs[1..], p, x)
  }

  function Delivers(d: Delivery, p: nat, x: nat): nat {
    if d.producer == p && d.first <= x < d.first + |d.values| then 1 else 0
  }

  function Deliverers(ds: seq<Delivery>, p: nat, x: nat): nat {
    if ds == [] then 0 else Deliverers(ds[..|ds| - 1], p, x) + Delivers(ds[|ds| - 1], p, x)
  }

  lemma {:induction false} HoldersUpdate(pcs: seq<ConsumerPc>, t: nat, pc: ConsumerPc, p: nat, x: nat)
    requires t < |pcs|
    ensures Holders(pcs[t := pc], p, x) == Holders(pcs, p, x) - Holds(pcs[t], p, x) + Holds(pc, p, x)
  {
    if t == 0 {
      assert pcs[t := pc][1..] == pcs[1..];
    } else {
      assert pcs[t := pc][1..] == pcs[1..][t - 1 := pc];
      HoldersUpdate(pcs[1..], t - 1, pc, p, x);
    }
  }

  lemma DeliverersAppend(ds: seq<Delivery>, d: Delivery, p: nat, x: nat)
    ensures Deliverers(ds + [d], p, x) == Deliverers(ds, p, x) + Delivers(d, p, x)
  {
    assert (ds + [d])[..|ds|] == ds;
  }

  lemma {:induction false} HoldersFree(pcs: seq<ConsumerPc>, p: nat, x: nat)
    requires forall t :: 0 <= t < |pcs| ==> pcs[t] == Free
    ensures Holders(pcs, p, x) == 0
  {
    if pcs != [] { HoldersFree(pcs[1..], p, x); }
  }

  ghost predicate OnceOnly(s: State, p: nat, x: nat)
    requires p < |s.producers|
  {
    Holders(s.consumers, p, x) + Deliverers(s.delivered, p, x) == if x < s.producers[p].head then 1 else 0
  }

  /** A step of consumer `t` keeps its claim, or ends the call with a delivery of it. */
  ghost predicate KeepsClaim(s: State, s': State, t: nat)
    requires t < |s.consumers| && t < |s'.consumers|
  {
    var pc, pc' := s.consumers[t], s'.consumers[t];
    && !pc.Free? && s'.consumers == s.consumers[t := pc']
    && |s'.producers| == |s.producers|
    && (forall q :: 0 <= q < |s.producers| ==> s'.producers[q].head == s.producers[q].head)
    && if pc'.Free? then
         |s'.delivered| == |s.delivered| + 1
         && s'.delivered == s.delivered + [s'.delivered[|s.delivered|]]
         && var d := s'.delivered[|s.delivered|];
            d.producer == pc.c.producer && d.first == pc.c.first && d.first + |d.values| == pc.c.e
       else pc'.c == pc.c && s'.delivered == s.delivered
  }

  lemma NextKeepsClaim(s: State, s1: State, s': State, t: nat)
    requires t < |s.consumers| && (s.consumers[t].Count? || s.consumers[t].Adding?)
    requires s1.consumers == s.consumers && s1.delivered == s.delivered && |s1.producers| == |s.producers|
    requires forall q :: 0 <= q < |s.producers| ==> s1.producers[q].head == s.producers[q].head
    requires var pc := s.consumers[t];
      && SeesEntry(s1, pc.c, pc.h, pc.slot) && s' == Next(s1, t, pc.c, pc.i, pc.h, pc.slot, pc.got)
      && pc.i <= pc.c.e && pc.c.first + |pc.got| == pc.i
    ensures KeepsClaim(s, s', t)
  {
  }

  lemma GotLength(s: State, t: nat)
    requires Parts(s) && t < |s.consumers| && (s.consumers[t].Count? || s.consumers[t].Adding?)
    ensures var pc := s.consumers[t]; pc.i <= pc.c.e && pc.c.first + |pc.got| == pc.i
  {
    assert ConsumerOk(s, t);
  }

  lemma CountMovesClaim(s: State, s': State, t: nat)
    requires t < |s.consumers| && s.consumers[t].Count? && ConsumerInRange(s, t) && s' == CountStep(s, t)
    requires var pc := s.consumers[t]; pc.i <= pc.c.e && pc.c.first + |pc.got| == pc.i
    ensures t < |s'.consumers| && KeepsClaim(s, s', t)
  {
    var pc := s.consumers[t];
    if !s'.consumers[t].Clear? {
      var x := Counted(s.producers[pc.c.producer], pc.from / BLOCK_SIZE, pc.i - pc.from);
      var y := s.blocks[pc.b].(done := s.blocks[pc.b].done + (pc.i - pc.from));
      NextKeepsClaim(s, SetProducer(SetBlock(s, pc.b, y), pc.c.producer, x), s', t);
    }
  }

  lemma CountKeepsClaim(s: State, s': State, t: nat)
    requires Parts(s) && Consumes(s, s', t) && s.consumers[t].Count?
    ensures t < |s'.consumers| && KeepsClaim(s, s', t)
  {
    GotLength(s, t);
    CountMovesClaim(s, s', t);
  }

  lemma AddKeepsClaim(s: State, s': State, t: nat)
    requires Parts(s) && Consumes(s, s', t) && s.consumers[t].Adding?
    ensures t < |s'.consumers| && KeepsClaim(s, s', t)
  {
    GotLength(s, t);
    if !s'.consumers[t].Adding? { NextKeepsClaim(s, s.(free := s'.free), s', t); }
  }

  lemma ConsumeKeepsClaim(s: State, s': State, t: nat)
    requires Parts(s) && Consumes(s, s', t)
    ensures t < |s'.consumers| && KeepsClaim(s, s', t)
  {
    if s.consumers[t].Count? { CountKeepsClaim(s, s', t); }
    if s.consumers[t].Adding? { AddKeepsClaim(s, s', t); }
  }

  lemma LocalKeepsHead(s: State, s': State, p: nat, v: Value, more: seq<Entry>)
    requires Parts(s) && p < |s.producers| && ProducerInRange(s, p) && IsLocal(s.producers[p].pc)
    requires ProducerStep(s, s', p, v, more)
    ensures |s'.producers| == |s.producers| && s'.producers[p].head == s.producers[p].head
  {
    assert IndexOk(s.producers[p]);
    StepIsLater(s.producers[p], s'.producers[p], v, more);
  }

  lemma ProduceKeepsHead(s: State, s': State, p: nat, v: Value, more: seq<Entry>)
    requires Parts(s) && p < |s.producers| && ProducerInRange(s, p) && ProducerStep(s, s', p, v, more)
    ensures s'.consumers == s.consumers && s'.delivered == s.delivered && |s'.producers| == |s.producers|
    ensures forall q :: 0 <= q < |s.producers| ==> s'.producers[q].head == s.producers[q].head
  {
    if IsLocal(s.producers[p].pc) { LocalKeepsHead(s, s', p, v, more); }
  }

  lemma ConsumeOnce(s: State, s': State, t: nat, p: nat, x: nat)
    requires Parts(s) && Consumes(s, s', t) && p < |s.producers| && OnceOnly(s, p, x)
    ensures p < |s'.producers| && OnceOnly(s', p, x)
  {
    ConsumeKeepsClaim(s, s', t);
    HoldersUpdate(s.consumers, t, s'.consumers[t], p, x);
    if s'.consumers[t].Free? { DeliverersAppend(s.delivered, s'.delivered[|s.delivered|], p, x); }
  }

  lemma ClaimOnce(s: State, s': State, t: nat, q: nat, n: nat, p: nat, x: nat)
    requires Claims(s, s', t, q, n) && p < |s.producers| && OnceOnly(s, p, x)
    ensures p < |s'.producers| && OnceOnly(s', p, x)
  {
    HoldersUpdate(s.consumers, t, s'.consumers[t], p, x);
  }

  lemma StepOnce(s: State, s': State, p: nat, x: nat)
    requires Parts(s) && Step(s, s') && p < |s.producers| && OnceOnly(s, p, x)
    ensures p < |s'.producers| && OnceOnly(s', p, x)
  {
    if q: nat :| Produces(s, s', q) {
      var v, more :| ProducerStep(s, s', q, v, more);
      ProduceKeepsHead(s, s', q, v, more);
    } else if t: nat, q: nat, n: nat :| Claims(s, s', t, q, n) {
      ClaimOnce(s, s', t, q, n, p, x);
    } else {
      var t: nat :| Consumes(s, s', t);
      ConsumeOnce(s, s', t, p, x);
    }
  }

  lemma OnceNext(run: seq<State>, i: nat, p: nat, x: nat)
    requires IsRun(run) && i + 1 < |run| && p < |run[i].producers| && OnceOnly(run[i], p, x)
    ensures p < |run[i + 1].producers| && OnceOnly(run[i + 1], p, x)
  {
    var linked := RunInv(run, i);
    assert StepAt(run, i);
    if run[i + 1] != run[i] { StepOnce(run[i], run[i + 1], p, x); }
  }

  /** Every index below `headIndex` belongs to one running call or one finished one, and no
      other index to any. */
  lemma {:induction false} EachIndexOnce(run: seq<State>, i: nat, p: nat, x: nat)
    requires IsRun(run) && i < |run| && p < |run[0].producers|
    ensures p < |run[i].producers| && OnceOnly(run[i], p, x)
  {
    if i == 0 {
      HoldersFree(run[0].consumers, p, x);
    } else {
      EachIndexOnce(run, i - 1, p, x);
      OnceNext(run, i - 1, p, x);
    }
  }

  lemma {:induction false} SomeDelivery(ds: seq<Delivery>, p: nat, x: nat) returns (k: nat)
    requires Deliverers(ds, p, x) == 1
    ensures k < |ds| && Delivers(ds[k], p, x) == 1
    ensures forall j :: 0 <= j < |ds| && j != k ==> Delivers(ds[j], p, x) == 0
  {
    var last := |ds| - 1;
    if Delivers(ds[last], p, x) == 1 {
      k := last;
      NoDelivery(ds[..last], p, x);
    } else {
      k := SomeDelivery(ds[..last], p, x);
    }
  }

  lemma {:induction false} NoDelivery(ds: seq<Delivery>, p: nat, x: nat)
    requires Deliverers(ds, p, x) == 0
    ensures forall j :: 0 <= j < |ds| ==> Delivers(ds[j], p, x) == 0
  {
    if ds != [] { NoDelivery(ds[..|ds| - 1], p, x); }
  }

  /** With no dequeue in progress every element below `headIndex` was returned by exactly one
      call, at its place among what that call returned, and no other one by any. */
  lemma QuietMeansDelivered(run: seq<State>, i: nat, p: nat, x: nat) returns (k: nat)
    requires IsRun(run) && i < |run| && p < |run[0].producers| && p < |run[i].producers|
    requires forall t :: 0 <= t < |run[i].consumers| ==> run[i].consumers[t] == Free
    ensures forall j :: 0 <= j < |run[i].delivered| ==>
              (Delivers(run[i].delivered[j], p, x) == 1 <==> x < run[i].producers[p].head && j == k)
    ensures x < run[i].producers[p].head ==>
      && k < |run[i].delivered| && x < |run[i].producers[p].items|
      && var d := run[i].delivered[k];
         d.producer == p && d.first <= x < d.first + |d.values| && d.values[x - d.first] == run[i].producers[p].items[x]
  {
    EachIndexOnce(run, i, p, x);
    var s := run[i];
    HoldersFree(s.consumers, p, x);
    var linked := RunInv(run, i);
    if x < s.producers[p].head {
      k := SomeDelivery(s.delivered, p, x);
      assert DeliveryOk(s, s.delivered[k]);
    } else {
      k := 0;
      NoDelivery(s.delivered, p, x);
    }
  }
}
