/** The blocks of one explicit producer and their circular index (`ExplicitProducer`
    in concurrentqueue.h: `enqueue`, `new_block_index`, and what `dequeue` and
    `dequeue_bulk` do once they own a range of indices).

    One producer thread and any number of consumers interleave at the grain of one
    shared access, with one exception: the step that sees the last flag of a block set
    also does the stores of `reset_empty`, which no consumer can see half done
    (`ReusedUnseen`; `tailBlock` belongs to the producer).  Indices and bases are words
    that wrap at 2^64; the model keeps the unbounded counters and stores `Wrap` of them
    where the source stores words. */
module ProducerBlocks {
  import opened Words
  import opened Circular

  type Value = int

  const BLOCK_SIZE: nat := 32
  const INITIAL_INDEX_SIZE_LOG: nat := 5
  /** No allocator returns an index of more than 2^58 entries. */
  const MAX_INDEX_SIZE_LOG: nat := 58

  datatype Link = Nil | To(block: nat)

  /** `BlockIndexEntry`; `base` is a word. */
  datatype Entry = Entry(base: nat, block: nat)

  /** `BlockIndexHeader`: `front` is the slot published last. */
  datatype Index = Index(size: nat, front: nat, entries: seq<Entry>)

  /** The next step of `enqueue(v)`. */
  datatype ProducerPc =
    | Idle
    | Scan(v: Value, j: nat)    // is_empty: load emptyFlags[j] of tailBlock->next
    | LoadHead(v: Value)        // load headIndex, test for room
    | Grow(v: Value)            // new_block_index: store blockIndex
    | Insert(v: Value)          // link a requisitioned block behind tailBlock
    | SetEntry(v: Value)        // write the index entry
    | SetFront(v: Value)        // store front
    | Write(v: Value)           // construct the element
    | SetTail(v: Value)         // store tailIndex

  /** The next step of a dequeue that owns `first .. e`; `i` is its next index and
      `from` the first one in the current block, `got` the elements read so far. */
  datatype ConsumerPc =
    | Free
    | LoadIndex(first: nat, e: nat)                               // load blockIndex
    | LoadFront(first: nat, e: nat, h: nat)                       // load front
    | LoadBase(first: nat, e: nat, h: nat, f: nat)                // read entries[front].base
    | LoadBlock(first: nat, i: nat, e: nat, h: nat, slot: nat, got: seq<Value>)  // read entries[slot].block
    | Read(first: nat, from: nat, i: nat, e: nat, h: nat, slot: nat, b: nat, got: seq<Value>)
    | Release(first: nat, from: nat, j: nat, i: nat, e: nat, h: nat, slot: nat, b: nat, got: seq<Value>)

  /** What one finished dequeue returned. */
  datatype Delivery = Delivery(first: nat, values: seq<Value>)

  /** `indexes` are all headers ever allocated, the current one last; `used` and
      `prFront` are `pr_blockIndexSlotsUsed` and `pr_blockIndexFront`; `items` is
      the history of enqueued elements. */
  datatype State = State(
    tail: nat, head: nat,
    next: seq<nat>, flags: seq<seq<bool>>, slots: seq<seq<Value>>,
    tailBlock: Link, indexes: seq<Index>, used: nat, prFront: nat,
    producer: ProducerPc, consumers: seq<ConsumerPc>,
    items: seq<Value>, delivered: seq<Delivery>)

  ghost predicate Init(s: State) {
    && s.tail == s.head == s.used == s.prFront == 0
    && s.next == [] && s.flags == [] && s.slots == [] && s.tailBlock == Nil
    && |s.indexes| == 1 && s.indexes[0].size == Pow2(INITIAL_INDEX_SIZE_LOG) == |s.indexes[0].entries|
    && s.producer == Idle
    && (forall t :: 0 <= t < |s.consumers| ==> s.consumers[t] == Free)
    && s.items == [] && s.delivered == []
  }

  function Current(s: State): Index
    requires s.indexes != []
  {
    s.indexes[|s.indexes| - 1]
  }

  /** The flag of an index; the source keeps them in reverse order. */
  function FlagOf(i: nat): (r: nat)
    ensures r < BLOCK_SIZE
  {
    BLOCK_SIZE - 1 - i % BLOCK_SIZE
  }

  /** The end of the part of `i .. e` that lies in the block of `i`. */
  function EndInBlock(i: nat, e: nat): nat {
    var end := i - i % BLOCK_SIZE + BLOCK_SIZE;
    if e < end then e else end
  }

  /** Which slot a consumer looks in: the word difference of the bases, divided by
      the block size as an unsigned number, added to the front and masked. */
  function LookupSlot(index: nat, headBase: nat, front: nat, size: nat): nat
    requires size > 0
  {
    var blockBase := Wrap(index) - Wrap(index) % BLOCK_SIZE;
    (front + Wrap(blockBase - headBase) / BLOCK_SIZE) % size
  }

  // ---- producer steps ----------------------------------------------------

  /** All accesses of the next producer step are in range. */
  ghost predicate ProducerInRange(s: State) {
    && s.indexes != [] && Current(s).size > 0
    && |s.next| == |s.flags| == |s.slots|
    && (s.tailBlock.To? ==> s.tailBlock.block < |s.next| && s.next[s.tailBlock.block] < |s.next|)
    && match s.producer
       case Scan(_, j) => s.tailBlock.To? && j < BLOCK_SIZE && |s.flags[s.next[s.tailBlock.block]]| == BLOCK_SIZE
       case Grow(_) => 0 < s.used <= Current(s).size == |Current(s).entries|
       case SetEntry(_) => s.tailBlock.To? && s.prFront < |Current(s).entries|
       case Write(_) => s.tailBlock.To? && |s.slots[s.tailBlock.block]| == BLOCK_SIZE
       case _ => true
  }

  function NoFlags(): (r: seq<bool>)
    ensures |r| == BLOCK_SIZE && forall j :: 0 <= j < BLOCK_SIZE ==> !r[j]
  {
    seq(BLOCK_SIZE, _ => false)
  }

  function BlankSlots(): (r: seq<Value>)
    ensures |r| == BLOCK_SIZE
  {
    seq(BLOCK_SIZE, _ => 0)
  }

  /** The doubled index: the `used` newest entries, oldest first. */
  function GrownIndex(old': Index, used: nat, prFront: nat): Index
    requires 0 < used <= old'.size == |old'.entries|
  {
    Index(2 * old'.size, used - 1,
          seq(2 * old'.size, j requires 0 <= j < 2 * old'.size =>
            if j < used then old'.entries[Slot(j, prFront - used, old'.size)] else Entry(0, 0)))
  }

  function Replace(s: State, x: Index): State
    requires s.indexes != []
  {
    s.(indexes := s.indexes[|s.indexes| - 1 := x])
  }

  /** One step of `enqueue`; `Idle` starts a call with `v`. */
  ghost function Produce(s: State, v: Value): State
    requires ProducerInRange(s)
  {
    match s.producer
    case Idle =>
      s.(producer := if s.tail % BLOCK_SIZE != 0 then Write(v) else if s.tailBlock.To? then Scan(v, 0) else LoadHead(v))
    case Scan(v, j) =>
      var b := s.next[s.tailBlock.block];
      if !s.flags[b][j] then s.(producer := LoadHead(v))
      else if j + 1 < BLOCK_SIZE then s.(producer := Scan(v, j + 1))
      else s.(tailBlock := To(b), flags := s.flags[b := NoFlags()], producer := SetEntry(v))
    case LoadHead(v) =>
      if !CircularLess(Wrap(s.head), Wrap(s.tail + BLOCK_SIZE)) then s.(producer := Idle)
      else if s.used == Current(s).size then s.(producer := Grow(v))
      else s.(producer := Insert(v))
    case Grow(v) =>
      if Current(s).size >= Pow2(MAX_INDEX_SIZE_LOG) then s.(producer := Idle)
      else s.(indexes := s.indexes + [GrownIndex(Current(s), s.used, s.prFront)], prFront := s.used,
          producer := Insert(v))
    case Insert(v) =>
      var b := |s.next|;
      var s' := s.(flags := s.flags + [NoFlags()], slots := s.slots + [BlankSlots()],
                   tailBlock := To(b), used := s.used + 1, producer := SetEntry(v));
      if s.tailBlock.Nil? then s'.(next := s.next + [b])
      else s'.(next := s.next[s.tailBlock.block := b] + [s.next[s.tailBlock.block]])
    case SetEntry(v) =>
      var x := Current(s);
      var y := x.(entries := x.entries[s.prFront := Entry(Wrap(s.tail), s.tailBlock.block)]);
      Replace(s, y).(producer := SetFront(v))
    case SetFront(v) =>
      Replace(s, Current(s).(front := s.prFront)).(prFront := (s.prFront + 1) % Current(s).size, producer := Write(v))
    case Write(v) =>
      var b := s.tailBlock.block;
      s.(slots := s.slots[b := s.slots[b][s.tail % BLOCK_SIZE := v]], producer := SetTail(v))
    case SetTail(v) => s.(tail := s.tail + 1, items := s.items + [v], producer := Idle)
  }

  // ---- consumer steps ----------------------------------------------------

  /** All accesses of the next step of a consumer are in range. */
  ghost predicate ConsumerInRange(s: State, pc: ConsumerPc) {
    && s.indexes != []
    && |s.flags| == |s.slots|
    && match pc
       case LoadFront(_, _, h) => h < |s.indexes|
       case LoadBase(_, _, h, f) => h < |s.indexes| && s.indexes[h].size > 0 && f < |s.indexes[h].entries|
       case LoadBlock(_, _, _, h, slot, _) => h < |s.indexes| && slot < |s.indexes[h].entries|
       case Read(_, _, i, _, _, _, b, _) => b < |s.slots| && |s.slots[b]| == BLOCK_SIZE
       case Release(_, _, j, _, _, h, _, b, _) =>
         h < |s.indexes| && s.indexes[h].size > 0 && b < |s.flags| && |s.flags[b]| == BLOCK_SIZE && j > 0
       case _ => true
  }

  function Goto(s: State, t: nat, pc: ConsumerPc): State
    requires t < |s.consumers|
  {
    s.(consumers := s.consumers[t := pc])
  }

  /** One step of a consumer that is inside a dequeue. */
  ghost function Consume(s: State, t: nat): State
    requires t < |s.consumers| && !s.consumers[t].Free? && ConsumerInRange(s, s.consumers[t])
  {
    match s.consumers[t]
    case LoadIndex(first, e) => Goto(s, t, LoadFront(first, e, |s.indexes| - 1))
    case LoadFront(first, e, h) => Goto(s, t, LoadBase(first, e, h, s.indexes[h].front))
    case LoadBase(first, e, h, f) =>
      Goto(s, t, LoadBlock(first, first, e, h, LookupSlot(first, s.indexes[h].entries[f].base, f, s.indexes[h].size),
          []))
    case LoadBlock(first, i, e, h, slot, got) =>
      Goto(s, t, Read(first, i, i, e, h, slot, s.indexes[h].entries[slot].block, got))
    case Read(first, from, i, e, h, slot, b, got) =>
      var got' := got + [s.slots[b][i % BLOCK_SIZE]];
      Goto(s, t, if i + 1 < EndInBlock(from, e) then Read(first, from, i + 1, e, h, slot, b, got')
                 else Release(first, from, i + 1, i + 1, e, h, slot, b, got'))
    case Release(first, from, j, i, e, h, slot, b, got) =>
      var s' := s.(flags := s.flags[b := s.flags[b][FlagOf(j - 1) := true]]);
      if j - 1 > from then Goto(s', t, Release(first, from, j - 1, i, e, h, slot, b, got))
      else if i < e then Goto(s', t, LoadBlock(first, i, e, h, (slot + 1) % s.indexes[h].size, got))
      else Goto(s', t, Free).(delivered := s.delivered + [Delivery(first, got)])
  }

  /** `headIndex.fetch_add(n)`, for which the ticket protocol has room. */
  ghost predicate Claims(s: State, s': State, t: nat, n: nat) {
    && t < |s.consumers| && s.consumers[t].Free?
    && n > 0 && s.head + n <= s.tail
    && s' == Goto(s.(head := s.head + n), t, LoadIndex(s.head, s.head + n))
  }

  ghost predicate Produces(s: State, s': State) {
    ProducerInRange(s) && exists v :: s' == Produce(s, v)
  }

  ghost predicate Consumes(s: State, s': State, t: nat) {
    && t < |s.consumers| && !s.consumers[t].Free? && ConsumerInRange(s, s.consumers[t])
    && s' == Consume(s, t)
  }

  ghost predicate Step(s: State, s': State) {
    || Produces(s, s')
    || (exists t, n :: Claims(s, s', t, n))
    || (exists t :: Consumes(s, s', t))
  }

  // ---- ghost bookkeeping -------------------------------------------------

  /** `blk[q]` is the block that holds (or held) the indices of block number `q`,
      that is `q * 32 .. q * 32 + 32`.  Header `h` keeps the entries of the numbers
      `lo[h] .. hi[h]`, number `q` in slot `q + off[h]`, and has published the
      numbers below `pub[h]`. */
  datatype Ghost = Ghost(blk: seq<nat>, lo: seq<nat>, hi: seq<nat>, off: seq<int>, pub: seq<nat>)

  /** The block numbers in the ring of blocks are `Oldest .. |blk|`. */
  function Oldest(s: State, g: Ghost): int { |g.blk| - s.used }

  ghost predicate Numbers(s: State, g: Ghost) {
    var q := |g.blk|;
    && s.indexes != []
    && s.used <= q && (q > 0 ==> s.used > 0)
    && s.head <= s.tail == |s.items|
    && match s.producer
       case Idle => s.tail <= q * BLOCK_SIZE < s.tail + BLOCK_SIZE
       case Scan(_, j) => s.tail == q * BLOCK_SIZE && q > 0 && j < BLOCK_SIZE
       case LoadHead(_) => s.tail == q * BLOCK_SIZE
       case Grow(_) => s.tail == q * BLOCK_SIZE && 0 < s.used == Current(s).size
       case Insert(_) => s.tail == q * BLOCK_SIZE && s.used < Current(s).size
       case SetEntry(_) => s.tail + BLOCK_SIZE == q * BLOCK_SIZE
       case SetFront(_) => s.tail + BLOCK_SIZE == q * BLOCK_SIZE
       case Write(_) => s.tail < q * BLOCK_SIZE <= s.tail + BLOCK_SIZE
       case SetTail(_) => s.tail < q * BLOCK_SIZE <= s.tail + BLOCK_SIZE
  }

  function Successor(s: State, g: Ghost, q: nat): nat
    requires 0 < s.used <= |g.blk| && q < |g.blk|
  {
    if q + 1 < |g.blk| then g.blk[q + 1] else g.blk[|g.blk| - s.used]
  }

  /** The blocks of the ring are distinct and linked in order of their numbers. */
  ghost predicate Ring(s: State, g: Ghost) {
    && s.used <= |g.blk| && (|g.blk| > 0 ==> s.used > 0)
    && |s.next| == |s.flags| == |s.slots|
    && (forall b :: 0 <= b < |s.flags| ==> |s.flags[b]| == BLOCK_SIZE)
    && (forall b :: 0 <= b < |s.slots| ==> |s.slots[b]| == BLOCK_SIZE)
    && (forall q :: 0 <= q < |g.blk| ==> g.blk[q] < |s.next|)
    && s.tailBlock == (if |g.blk| == 0 then Nil else To(g.blk[|g.blk| - 1]))
    && (forall q, r :: Oldest(s, g) <= q < r < |g.blk| ==> g.blk[q] != g.blk[r])
    && (forall q {:trigger Successor(s, g, q)} :: Oldest(s, g) <= q < |g.blk|
          ==> s.next[g.blk[q]] == Successor(s, g, q))
  }

  ghost predicate SizeOk(size: nat) {
    exists k :: INITIAL_INDEX_SIZE_LOG <= k <= MAX_INDEX_SIZE_LOG && size == Pow2(k)
  }

  function EntryFor(g: Ghost, q: nat): Entry
    requires q < |g.blk|
  {
    Entry(Wrap(q * BLOCK_SIZE), g.blk[q])
  }

  ghost predicate IndexOk(x: Index, g: Ghost, lo: nat, hi: nat, off: int, pub: nat) {
    && SizeOk(x.size) && |x.entries| == x.size
    && lo <= hi <= |g.blk| && hi - lo <= x.size && pub <= hi
    && (pub > 0 ==> x.front == Slot(pub - 1, off, x.size))
    && (forall q :: lo <= q < hi ==> x.entries[Slot(q, off, x.size)] == EntryFor(g, q))
  }

  /** Numbers whose entry is written, and numbers that are published. */
  function Written(s: State, g: Ghost): int { |g.blk| - if s.producer.SetEntry? then 1 else 0 }

  function Published(s: State, g: Ghost): int {
    |g.blk| - if s.producer.SetEntry? || s.producer.SetFront? then 1 else 0
  }

  ghost predicate IndexesOk(s: State, g: Ghost) {
    var c := |s.indexes| - 1;
    && s.indexes != []
    && |g.lo| == |g.hi| == |g.off| == |g.pub| == |s.indexes|
    && (forall h :: 0 <= h < |s.indexes| ==> IndexOk(s.indexes[h], g, g.lo[h], g.hi[h], g.off[h], g.pub[h]))
    && (forall h :: 0 <= h < c ==> g.pub[h] == g.hi[h])
    && g.hi[c] == Written(s, g) && g.pub[c] == Published(s, g)
    && g.lo[c] <= Oldest(s, g)
    && s.used <= s.indexes[c].size
    && s.prFront == Slot(Published(s, g), g.off[c], s.indexes[c].size)
  }

  ghost predicate Holds(pc: ConsumerPc, x: nat) {
    match pc
    case Free => false
    case LoadIndex(first, e) => first <= x < e
    case LoadFront(first, e, _) => first <= x < e
    case LoadBase(first, e, _, _) => first <= x < e
    case LoadBlock(_, i, e, _, _, _) => i <= x < e
    case Read(_, from, _, e, _, _, _, _) => from <= x < e
    case Release(_, from, j, i, e, _, _, _, _) => from <= x < j || i <= x < e
  }

  /** The first index that a consumer still holds. */
  function Low(pc: ConsumerPc): nat
    requires !pc.Free?
  {
    match pc
    case LoadIndex(first, _) => first
    case LoadFront(first, _, _) => first
    case LoadBase(first, _, _, _) => first
    case LoadBlock(_, i, _, _, _, _) => i
    case Read(_, from, _, _, _, _, _, _) => from
    case Release(_, from, _, _, _, _, _, _, _) => from
  }

  ghost predicate Apart(a: ConsumerPc, b: ConsumerPc) {
    !a.Free? && !b.Free? ==> a.e <= b.first || b.e <= a.first
  }

  /** A finished call and one in progress own different indices; so do two finished calls. */
  ghost predicate AwayFrom(d: Delivery, pc: ConsumerPc) {
    !pc.Free? ==> d.first + |d.values| <= pc.first || pc.e <= d.first
  }

  ghost predicate Separate(d: Delivery, d': Delivery) {
    d.first + |d.values| <= d'.first || d'.first + |d'.values| <= d.first
  }

  ghost predicate HeaderOk(s: State, g: Ghost, h: nat, low: nat, e: nat) {
    && |g.lo| == |g.hi| == |g.off| == |s.indexes|
    && h < |s.indexes| && s.indexes[h].size > 0
    && 0 < e && g.lo[h] <= low / BLOCK_SIZE && (e - 1) / BLOCK_SIZE < g.hi[h]
  }

  ghost predicate FrontOk(s: State, g: Ghost, h: nat, f: nat, q: nat)
    requires |g.off| == |s.indexes| && h < |s.indexes| && s.indexes[h].size > 0
  {
    f == Slot(q, g.off[h], s.indexes[h].size)
  }

  ghost predicate SlotFor(s: State, g: Ghost, h: nat, slot: nat, i: nat)
    requires |g.off| == |s.indexes| && h < |s.indexes| && s.indexes[h].size > 0
  {
    slot == Slot(i / BLOCK_SIZE, g.off[h], s.indexes[h].size)
  }

  ghost predicate Got(s: State, first: nat, i: nat, got: seq<Value>) {
    first <= i <= |s.items| && got == s.items[first..i]
  }

  ghost predicate ConsumerOk(s: State, g: Ghost, pc: ConsumerPc) {
    !pc.Free? ==>
      && pc.e <= s.head && pc.first <= Low(pc) < pc.e && Oldest(s, g) <= Low(pc) / BLOCK_SIZE
      && match pc
         case LoadIndex(_, _) => true
         case LoadFront(first, e, h) => HeaderOk(s, g, h, first, e)
         case LoadBase(first, e, h, f) =>
           HeaderOk(s, g, h, first, e) && exists q :: first / BLOCK_SIZE <= q < g.hi[h] && FrontOk(s, g, h, f, q)
         case LoadBlock(first, i, e, h, slot, got) =>
           HeaderOk(s, g, h, i, e) && SlotFor(s, g, h, slot, i) && Got(s, first, i, got)
         case Read(first, from, i, e, h, slot, b, got) =>
           && HeaderOk(s, g, h, from, e) && SlotFor(s, g, h, slot, from) && Got(s, first, i, got)
           && from <= i < EndInBlock(from, e)
           && from / BLOCK_SIZE < |g.blk| && b == g.blk[from / BLOCK_SIZE]
         case Release(first, from, j, i, e, h, slot, b, got) =>
           && HeaderOk(s, g, h, from, e) && SlotFor(s, g, h, slot, from) && Got(s, first, i, got)
           && from < j <= i == EndInBlock(from, e)
           && from / BLOCK_SIZE < |g.blk| && b == g.blk[from / BLOCK_SIZE]
  }

  /** A finished dequeue returned the elements that were enqueued with its indices. */
  ghost predicate DeliveryOk(s: State, d: Delivery) {
    && d.first + |d.values| <= s.head
    && d.first + |d.values| <= |s.items| && d.values == s.items[d.first..d.first + |d.values|]
  }

  ghost predicate DeliveriesApart(s: State) {
    && (forall k, t :: 0 <= k < |s.delivered| && 0 <= t < |s.consumers| ==> AwayFrom(s.delivered[k], s.consumers[t]))
    && (forall k, l :: 0 <= k < l < |s.delivered| ==> Separate(s.delivered[k], s.delivered[l]))
  }

  ghost predicate ConsumersOk(s: State, g: Ghost) {
    && Oldest(s, g) <= s.head / BLOCK_SIZE
    && (forall k :: 0 <= k < |s.delivered| ==> DeliveryOk(s, s.delivered[k]))
    && DeliveriesApart(s)
    && (forall t :: 0 <= t < |s.consumers| ==> ConsumerOk(s, g, s.consumers[t]))
    && (forall t, u :: 0 <= t < u < |s.consumers| ==> Apart(s.consumers[t], s.consumers[u]))
  }

  /** Where index `x` of the ring lives. */
  ghost predicate InRing(s: State, g: Ghost, x: nat) {
    Oldest(s, g) <= x / BLOCK_SIZE < |g.blk|
  }

  ghost predicate ElementAt(s: State, g: Ghost, x: nat, v: Value) {
    && InRing(s, g, x) && 0 <= Oldest(s, g) && g.blk[x / BLOCK_SIZE] < |s.slots|
    && |s.slots[g.blk[x / BLOCK_SIZE]]| == BLOCK_SIZE
    && s.slots[g.blk[x / BLOCK_SIZE]][x % BLOCK_SIZE] == v
  }

  /** Elements stay in place until their block is reused. */
  ghost predicate DataOk(s: State, g: Ghost) {
    && (forall x :: 0 <= x < s.tail && x < |s.items| && InRing(s, g, x) ==> ElementAt(s, g, x, s.items[x]))
    && (s.producer.SetTail? ==> ElementAt(s, g, s.tail, s.producer.v))
  }

  ghost predicate Flagged(s: State, g: Ghost, x: nat) {
    && InRing(s, g, x) && 0 <= Oldest(s, g) && g.blk[x / BLOCK_SIZE] < |s.flags|
    && |s.flags[g.blk[x / BLOCK_SIZE]]| == BLOCK_SIZE
    && s.flags[g.blk[x / BLOCK_SIZE]][FlagOf(x)]
  }

  ghost predicate Done(s: State, x: nat) {
    x < s.head && forall t :: 0 <= t < |s.consumers| ==> !Holds(s.consumers[t], x)
  }

  ghost predicate AllSet(f: seq<bool>, j: nat) {
    j <= |f| && forall k :: 0 <= k < j ==> f[k]
  }

  /** The first `j` flags of the oldest block were seen set, and stay so. */
  ghost predicate OldestScanned(s: State, g: Ghost, j: nat) {
    && 0 < s.used <= |g.blk| && g.blk[|g.blk| - s.used] < |s.flags|
    && |s.flags[g.blk[|g.blk| - s.used]]| == BLOCK_SIZE
    && AllSet(s.flags[g.blk[|g.blk| - s.used]], j)
  }

  /** A set flag means that the index was claimed and is no longer held. */
  ghost predicate FlagsOk(s: State, g: Ghost) {
    && (forall x: nat :: Flagged(s, g, x) ==> Done(s, x))
    && (s.producer.Scan? ==>
          && 0 < s.used <= |g.blk| && g.blk[|g.blk| - s.used] < |s.flags|
          && AllSet(s.flags[g.blk[|g.blk| - s.used]], s.producer.j))
  }

  ghost predicate Inv(s: State, g: Ghost) {
    Numbers(s, g) && Ring(s, g) && IndexesOk(s, g) && ConsumersOk(s, g) && DataOk(s, g) && FlagsOk(s, g)
  }

  // ---- preservation: the producer ----------------------------------------

  /** What a producer step must respect for consumers to stay in order. */
  ghost predicate KeepsConsumers(s: State, g: Ghost, s': State, g': Ghost) {
    && s'.consumers == s.consumers && s'.head == s.head
    && s.items <= s'.items && s'.delivered == s.delivered
    && Oldest(s', g') <= s.head / BLOCK_SIZE
    && |g.lo| == |g.hi| == |g.off| == |s.indexes| <= |s'.indexes| == |g'.lo| == |g'.hi| == |g'.off|
    && |g.blk| <= |g'.blk| && (forall q :: 0 <= q < |g.blk| ==> g'.blk[q] == g.blk[q])
    && (forall h :: 0 <= h < |s.indexes| ==>
          && s'.indexes[h].size == s.indexes[h].size && g'.off[h] == g.off[h] && g.hi[h] <= g'.hi[h]
          && (g'.lo[h] <= g.lo[h] || g'.lo[h] <= Oldest(s', g')))
    && (forall t :: 0 <= t < |s.consumers| && !s.consumers[t].Free? ==>
          Oldest(s', g') <= Low(s.consumers[t]) / BLOCK_SIZE)
  }

  lemma ConsumersKeep(s: State, g: Ghost, s': State, g': Ghost)
    requires ConsumersOk(s, g) && KeepsConsumers(s, g, s', g')
    ensures ConsumersOk(s', g')
  {
    forall t | 0 <= t < |s'.consumers| ensures ConsumerOk(s', g', s'.consumers[t]) {
      ConsumerKeeps(s, g, s', g', t);
    }
    forall t, u | 0 <= t < u < |s'.consumers| ensures Apart(s'.consumers[t], s'.consumers[u]) {
      assert Apart(s.consumers[t], s.consumers[u]);
    }
    forall k | 0 <= k < |s'.delivered| ensures DeliveryOk(s', s'.delivered[k]) {
      assert DeliveryOk(s, s.delivered[k]);
    }
    assert DeliveriesApart(s');
  }

  lemma ConsumerKeeps(s: State, g: Ghost, s': State, g': Ghost, t: nat)
    requires ConsumersOk(s, g) && KeepsConsumers(s, g, s', g') && t < |s.consumers|
    ensures ConsumerOk(s', g', s.consumers[t])
  {
    var pc := s.consumers[t];
    assert ConsumerOk(s, g, pc);
    if pc.LoadBase? {
      var q :| pc.first / BLOCK_SIZE <= q < g.hi[pc.h] && FrontOk(s, g, pc.h, pc.f, q);
      assert FrontOk(s', g', pc.h, pc.f, q);
    }
  }

  lemma RingFrame(s: State, g: Ghost, s': State, g': Ghost)
    requires Ring(s, g) && g'.blk == g.blk
    requires s'.next == s.next && s'.used == s.used && s'.tailBlock == s.tailBlock
    requires |s'.flags| == |s.flags| && forall b :: 0 <= b < |s'.flags| ==> |s'.flags[b]| == BLOCK_SIZE
    requires |s'.slots| == |s.slots| && forall b :: 0 <= b < |s'.slots| ==> |s'.slots[b]| == BLOCK_SIZE
    ensures Ring(s', g')
  {
    forall q | Oldest(s', g') <= q < |g'.blk| ensures s'.next[g'.blk[q]] == Successor(s', g', q) {
      assert s.next[g.blk[q]] == Successor(s, g, q);
    }
  }

  lemma IndexesFrame(s: State, g: Ghost, s': State)
    requires IndexesOk(s, g)
    requires s'.indexes == s.indexes && s'.used == s.used && s'.prFront == s.prFront
    requires Written(s', g) == Written(s, g) && Published(s', g) == Published(s, g)
    ensures IndexesOk(s', g)
  {
  }

  lemma DataFrame(s: State, g: Ghost, s': State, g': Ghost)
    requires DataOk(s, g) && g'.blk == g.blk
    requires s'.used == s.used && s'.slots == s.slots && s'.tail == s.tail && s'.items == s.items
    requires s'.producer.SetTail? ==> s'.producer == s.producer
    ensures DataOk(s', g')
  {
    forall x | 0 <= x < s'.tail && x < |s'.items| && InRing(s', g', x) ensures ElementAt(s', g', x, s'.items[x]) {
      assert InRing(s, g, x) && ElementAt(s, g, x, s.items[x]);
    }
    if s'.producer.SetTail? { assert ElementAt(s, g, s.tail, s.producer.v); }
  }

  lemma FlagsFrame(s: State, g: Ghost, s': State, g': Ghost)
    requires FlagsOk(s, g) && g'.blk == g.blk
    requires s'.used == s.used && s'.flags == s.flags && s'.head == s.head && s'.consumers == s.consumers
    requires s'.producer.Scan? ==> OldestScanned(s, g, s'.producer.j)
    ensures FlagsOk(s', g')
  {
    forall x: nat | Flagged(s', g', x) ensures Done(s', x) { assert Flagged(s, g, x) && Done(s, x); }
  }

  /** Steps that only move the producer to another point of `enqueue`. */
  lemma ProducerMoves(s: State, g: Ghost, pc: ProducerPc)
    requires Inv(s, g)
    requires var s' := s.(producer := pc);
             Numbers(s', g) && Written(s', g) == Written(s, g) && Published(s', g) == Published(s, g)
    requires !pc.SetTail?
    requires pc.Scan? ==> OldestScanned(s, g, pc.j)
    ensures Inv(s.(producer := pc), g)
  {
    var s' := s.(producer := pc);
    RingFrame(s, g, s', g);
    IndexesFrame(s, g, s');
    ConsumersKeepAll(s, g, s');
    DataFrame(s, g, s', g);
    FlagsFrame(s, g, s', g);
  }

  lemma ConsumersKeepAll(s: State, g: Ghost, s': State)
    requires ConsumersOk(s, g)
    requires s'.consumers == s.consumers && s'.head == s.head && s'.items == s.items
    requires s'.used == s.used && s'.indexes == s.indexes && s'.delivered == s.delivered
    requires |g.lo| == |g.hi| == |g.off| == |s.indexes|
    ensures ConsumersOk(s', g)
  {
    forall t | 0 <= t < |s.consumers| && !s.consumers[t].Free?
      ensures Oldest(s', g) <= Low(s.consumers[t]) / BLOCK_SIZE
    {
      assert ConsumerOk(s, g, s.consumers[t]);
    }
    ConsumersKeep(s, g, s', g);
  }

  lemma RingNext(s: State, g: Ghost)
    requires Ring(s, g) && |g.blk| > 0
    ensures s.tailBlock.To? && s.tailBlock.block < |s.next|
    ensures s.next[s.tailBlock.block] == g.blk[|g.blk| - s.used] < |s.next|
  {
    assert s.next[g.blk[|g.blk| - 1]] == Successor(s, g, |g.blk| - 1);
  }

  lemma ProducerReady(s: State, g: Ghost)
    requires Inv(s, g)
    ensures ProducerInRange(s)
  {
    if |g.blk| > 0 { RingNext(s, g); }
    var c := |s.indexes| - 1;
    assert IndexOk(s.indexes[c], g, g.lo[c], g.hi[c], g.off[c], g.pub[c]);
  }

  // -- reusing the oldest block --

  predicate LastScan(s: State, g: Ghost) {
    s.producer.Scan? && s.producer.j + 1 == BLOCK_SIZE && 0 < s.used <= |g.blk|
  }

  function ReuseState(s: State, b: nat): State
    requires s.producer.Scan? && b < |s.flags|
  {
    s.(tailBlock := To(b), flags := s.flags[b := NoFlags()], producer := SetEntry(s.producer.v))
  }

  function AddBlock(g: Ghost, b: nat): Ghost { g.(blk := g.blk + [b]) }

  lemma ReuseRing(s: State, g: Ghost, b: nat)
    requires Ring(s, g) && LastScan(s, g) && b == g.blk[|g.blk| - s.used] && b < |s.flags|
    ensures Ring(ReuseState(s, b), AddBlock(g, b))
  {
    var s', g' := ReuseState(s, b), AddBlock(g, b);
    forall q | Oldest(s', g') <= q < |g'.blk| ensures s'.next[g'.blk[q]] == Successor(s', g', q) {
      if q < |g.blk| {
        assert s.next[g.blk[q]] == Successor(s, g, q);
      } else {
        assert s.next[b] == Successor(s, g, |g.blk| - s.used);
      }
    }
  }

  /** All flags of the oldest block being set, nobody holds an index of it. */
  lemma OldestIsDone(s: State, g: Ghost, x: nat)
    requires FlagsOk(s, g) && OldestScanned(s, g, BLOCK_SIZE) && x / BLOCK_SIZE == Oldest(s, g)
    ensures Done(s, x)
  {
    assert s.flags[g.blk[x / BLOCK_SIZE]][FlagOf(x)];
    assert Flagged(s, g, x);
  }

  lemma HoldsLow(pc: ConsumerPc)
    requires !pc.Free? && Low(pc) < pc.e && (pc.Release? ==> pc.from < pc.j)
    ensures Holds(pc, Low(pc))
  {
  }

  lemma ReuseConsumers(s: State, g: Ghost, s': State, g': Ghost)
    requires Inv(s, g) && OldestScanned(s, g, BLOCK_SIZE)
    requires s'.consumers == s.consumers && s'.head == s.head && s'.items == s.items && s'.indexes == s.indexes
    requires s'.delivered == s.delivered && s'.used == s.used && |g.blk| + 1 == |g'.blk|
             && (forall q :: 0 <= q < |g.blk| ==> g'.blk[q] == g.blk[q])
    requires g'.lo == g.lo && g'.hi == g.hi && g'.off == g.off
    ensures ConsumersOk(s', g')
  {
    forall t | 0 <= t < |s.consumers| && !s.consumers[t].Free?
      ensures Oldest(s', g') <= Low(s.consumers[t]) / BLOCK_SIZE
    {
      assert ConsumerOk(s, g, s.consumers[t]);
      HoldsLow(s.consumers[t]);
      if Low(s.consumers[t]) / BLOCK_SIZE == Oldest(s, g) { OldestIsDone(s, g, Low(s.consumers[t])); }
    }
    OldestIsDone(s, g, Oldest(s, g) * BLOCK_SIZE + BLOCK_SIZE - 1);
    ConsumersKeep(s, g, s', g');
  }

  lemma IndexesExtend(s: State, g: Ghost, s': State, b: nat)
    requires IndexesOk(s, g) && s'.indexes == s.indexes && s'.prFront == s.prFront
    requires s.used <= s'.used <= s.used + 1 && s'.used <= Current(s).size
    requires !s.producer.SetEntry? && !s.producer.SetFront? && s'.producer.SetEntry?
    ensures IndexesOk(s', AddBlock(g, b))
  {
    var g' := AddBlock(g, b);
    forall h | 0 <= h < |s'.indexes| ensures IndexOk(s'.indexes[h], g', g'.lo[h], g'.hi[h], g'.off[h], g'.pub[h]) {
      assert IndexOk(s.indexes[h], g, g.lo[h], g.hi[h], g.off[h], g.pub[h]);
      forall q | g.lo[h] <= q < g.hi[h]
        ensures s.indexes[h].entries[Slot(q, g.off[h], s.indexes[h].size)] == EntryFor(g', q)
      {
        assert EntryFor(g', q) == EntryFor(g, q);
      }
    }
  }

  lemma ReuseData(s: State, g: Ghost, b: nat)
    requires Inv(s, g) && LastScan(s, g) && b < |s.flags|
    ensures DataOk(ReuseState(s, b), AddBlock(g, b))
  {
    var s', g' := ReuseState(s, b), AddBlock(g, b);
    forall x | 0 <= x < s'.tail && x < |s'.items| && InRing(s', g', x) ensures ElementAt(s', g', x, s'.items[x]) {
      assert InRing(s, g, x) && ElementAt(s, g, x, s.items[x]);
    }
  }

  lemma ReuseFlags(s: State, g: Ghost, b: nat)
    requires Inv(s, g) && LastScan(s, g) && b == g.blk[|g.blk| - s.used] && b < |s.flags|
    ensures FlagsOk(ReuseState(s, b), AddBlock(g, b))
  {
    var s', g' := ReuseState(s, b), AddBlock(g, b);
    forall x: nat | Flagged(s', g', x) ensures Done(s', x) {
      assert x / BLOCK_SIZE < |g.blk|;
      assert g.blk[x / BLOCK_SIZE] != b;
      assert Flagged(s, g, x) && Done(s, x);
    }
  }

  lemma ScannedAll(s: State, g: Ghost, b: nat)
    requires FlagsOk(s, g) && Ring(s, g) && LastScan(s, g) && b == g.blk[|g.blk| - s.used] && b < |s.flags|
    requires |s.flags[b]| == BLOCK_SIZE && s.flags[b][BLOCK_SIZE - 1]
    ensures OldestScanned(s, g, BLOCK_SIZE)
  {
  }

  lemma ReuseStep(s: State, g: Ghost, b: nat)
    requires Inv(s, g) && LastScan(s, g) && b == g.blk[|g.blk| - s.used] && b < |s.flags|
    requires s.flags[b][BLOCK_SIZE - 1]
    ensures Inv(ReuseState(s, b), AddBlock(g, b))
  {
    var s', g' := ReuseState(s, b), AddBlock(g, b);
    assert Ring(s', g') by { ReuseRing(s, g, b); }
    assert IndexesOk(s', g') by { IndexesExtend(s, g, s', b); }
    assert ConsumersOk(s', g') by {
      assert OldestScanned(s, g, BLOCK_SIZE) by { ScannedAll(s, g, b); }
      ReuseConsumers(s, g, s', g');
    }
    assert DataOk(s', g') by { ReuseData(s, g, b); }
    assert FlagsOk(s', g') by { ReuseFlags(s, g, b); }
  }

  lemma ScanReuses(s: State, g: Ghost)
    requires Inv(s, g) && LastScan(s, g) && ProducerInRange(s)
    requires s.flags[s.next[s.tailBlock.block]][s.producer.j]
    ensures Inv(Produce(s, 0), AddBlock(g, s.next[s.tailBlock.block]))
  {
    RingNext(s, g);
    assert Produce(s, 0) == ReuseState(s, s.next[s.tailBlock.block]);
    ReuseStep(s, g, s.next[s.tailBlock.block]);
  }

  lemma ScanMoves(s: State, g: Ghost)
    requires Inv(s, g) && s.producer.Scan? && ProducerInRange(s)
    requires !s.flags[s.next[s.tailBlock.block]][s.producer.j] || s.producer.j + 1 < BLOCK_SIZE
    ensures Inv(Produce(s, 0), g)
  {
    RingNext(s, g);
    var b := s.next[s.tailBlock.block];
    ProducerMoves(s, g, if s.flags[b][s.producer.j] then Scan(s.producer.v, s.producer.j + 1)
        else LoadHead(s.producer.v));
  }

  lemma ScanStep(s: State, g: Ghost) returns (g': Ghost)
    requires Inv(s, g) && s.producer.Scan? && ProducerInRange(s)
    ensures Inv(Produce(s, 0), g')
  {
    RingNext(s, g);
    g' := g;
    if !s.flags[s.next[s.tailBlock.block]][s.producer.j] || s.producer.j + 1 < BLOCK_SIZE {
      ScanMoves(s, g);
    } else {
      g' := AddBlock(g, s.next[s.tailBlock.block]);
      ScanReuses(s, g);
    }
  }

  // -- linking a new block --

  function InsertState(s: State): State
    requires s.producer.Insert? && (s.tailBlock.To? ==> s.tailBlock.block < |s.next|)
  {
    var b := |s.next|;
    s.(flags := s.flags + [NoFlags()], slots := s.slots + [BlankSlots()], tailBlock := To(b), used := s.used + 1,
       producer := SetEntry(s.producer.v),
       next := if s.tailBlock.Nil? then s.next + [b]
               else s.next[s.tailBlock.block := b] + [s.next[s.tailBlock.block]])
  }

  lemma InsertRing(s: State, g: Ghost)
    requires Ring(s, g) && s.producer.Insert?
    ensures s.tailBlock.To? ==> s.tailBlock.block < |s.next|
    ensures Ring(InsertState(s), AddBlock(g, |s.next|))
  {
    if |g.blk| > 0 { RingNext(s, g); }
    var s', g' := InsertState(s), AddBlock(g, |s.next|);
    forall q | Oldest(s', g') <= q < |g'.blk| ensures s'.next[g'.blk[q]] == Successor(s', g', q) {
      if q + 1 < |g.blk| {
        assert s.next[g.blk[q]] == Successor(s, g, q);
        assert g.blk[q] != g.blk[|g.blk| - 1];
      }
    }
  }

  lemma InsertContents(s: State, g: Ghost)
    requires Inv(s, g) && s.producer.Insert? && (s.tailBlock.To? ==> s.tailBlock.block < |s.next|)
    ensures DataOk(InsertState(s), AddBlock(g, |s.next|)) && FlagsOk(InsertState(s), AddBlock(g, |s.next|))
  {
    var s', g' := InsertState(s), AddBlock(g, |s.next|);
    forall x | 0 <= x < s'.tail && x < |s'.items| && InRing(s', g', x) ensures ElementAt(s', g', x, s'.items[x]) {
      assert InRing(s, g, x) && ElementAt(s, g, x, s.items[x]);
    }
    forall x: nat | Flagged(s', g', x) ensures Done(s', x) {
      assert x / BLOCK_SIZE < |g.blk|;
      assert Flagged(s, g, x) && Done(s, x);
    }
  }

  lemma InsertConsumers(s: State, g: Ghost)
    requires Inv(s, g) && s.producer.Insert? && (s.tailBlock.To? ==> s.tailBlock.block < |s.next|)
    ensures ConsumersOk(InsertState(s), AddBlock(g, |s.next|))
  {
    forall t | 0 <= t < |s.consumers| && !s.consumers[t].Free?
      ensures Oldest(s, g) <= Low(s.consumers[t]) / BLOCK_SIZE
    {
      assert ConsumerOk(s, g, s.consumers[t]);
    }
    ConsumersKeep(s, g, InsertState(s), AddBlock(g, |s.next|));
  }

  lemma InsertStep(s: State, g: Ghost)
    requires Inv(s, g) && s.producer.Insert? && ProducerInRange(s)
    ensures Inv(Produce(s, 0), AddBlock(g, |s.next|))
  {
    assert Produce(s, 0) == InsertState(s);
    InsertRing(s, g);
    IndexesExtend(s, g, InsertState(s), |s.next|);
    InsertConsumers(s, g);
    InsertContents(s, g);
  }

  // -- doubling the index --

  lemma DoubledSize(size: nat)
    requires SizeOk(size) && size < Pow2(MAX_INDEX_SIZE_LOG)
    ensures SizeOk(2 * size)
  {
    var k :| INITIAL_INDEX_SIZE_LOG <= k <= MAX_INDEX_SIZE_LOG && size == Pow2(k);
    assert Pow2(k + 1) == 2 * size;
  }

  lemma SmallSlot(q: int, off: int, size: nat)
    requires 0 <= q + off < size
    ensures Slot(q, off, size) == q + off
  {
    RemainderIs(q + off, size, 0, q + off);
  }

  lemma CopiedSlot(q: int, hi: int, off: int, used: int, size: nat, prFront: nat)
    requires size > 0 && prFront == Slot(hi, off, size)
    ensures Slot(q + used - hi, prFront - used, size) == Slot(q, off, size)
  {
    AddMod(hi + off, q - hi, size);
  }

  /** The copying loop puts the entry of number `lo + j` into slot `j`. */
  lemma GrownEntries(x: Index, g: Ghost, lo: nat, hi: nat, off: int, pub: nat, used: nat, prFront: nat)
    requires IndexOk(x, g, lo, hi, off, pub) && 0 < used <= x.size && hi == |g.blk|
    requires lo <= hi - used && prFront == Slot(hi, off, x.size) && x.size < Pow2(MAX_INDEX_SIZE_LOG)
    ensures IndexOk(GrownIndex(x, used, prFront), g, hi - used, hi, used - hi, hi)
  {
    var y := GrownIndex(x, used, prFront);
    assert SizeOk(y.size) by { DoubledSize(x.size); }
    assert Slot(hi - 1, used - hi, y.size) == used - 1 by { SmallSlot(hi - 1, used - hi, y.size); }
    forall q | hi - used <= q < hi ensures y.entries[Slot(q, used - hi, y.size)] == EntryFor(g, q) {
      assert Slot(q, used - hi, y.size) == q + used - hi by { SmallSlot(q, used - hi, y.size); }
      CopiedSlot(q, hi, off, used, x.size, prFront);
    }
  }

  function GrownGhost(s: State, g: Ghost): Ghost
    requires s.used <= |g.blk|
  {
    g.(lo := g.lo + [|g.blk| - s.used], hi := g.hi + [|g.blk|], off := g.off + [s.used - |g.blk|],
        pub := g.pub + [|g.blk|])
  }

  function GrowState(s: State): State
    requires s.producer.Grow? && s.indexes != [] && 0 < s.used <= Current(s).size == |Current(s).entries|
  {
    s.(indexes := s.indexes + [GrownIndex(Current(s), s.used, s.prFront)], prFront := s.used,
        producer := Insert(s.producer.v))
  }

  lemma CurrentOk(s: State, g: Ghost, c: nat)
    requires IndexesOk(s, g) && !s.producer.SetEntry? && !s.producer.SetFront? && c == |s.indexes| - 1
             && s.used <= |g.blk|
    ensures IndexOk(s.indexes[c], g, g.lo[c], g.hi[c], g.off[c], g.pub[c]) && g.hi[c] == |g.blk|
    ensures g.lo[c] <= |g.blk| - s.used && s.prFront == Slot(|g.blk|, g.off[c], s.indexes[c].size)
  {
  }

  lemma NewestIndex(x: Index, g: Ghost, lo: nat, off: int, pub: nat, used: nat, prFront: nat, y: Index)
    requires IndexOk(x, g, lo, |g.blk|, off, pub) && 0 < used <= x.size && x.size < Pow2(MAX_INDEX_SIZE_LOG)
    requires lo <= |g.blk| - used && prFront == Slot(|g.blk|, off, x.size) && y == GrownIndex(x, used, prFront)
    ensures IndexOk(y, g, |g.blk| - used, |g.blk|, used - |g.blk|, |g.blk|)
  {
    GrownEntries(x, g, lo, |g.blk|, off, pub, used, prFront);
  }

  lemma GrownIndexAt(s: State, g: Ghost, h: nat)
    requires IndexesOk(s, g) && s.producer.Grow? && 0 < s.used <= |g.blk| && h <= |s.indexes|
    requires s.used <= Current(s).size == |Current(s).entries|
    requires IndexOk(GrownIndex(Current(s), s.used, s.prFront), g, |g.blk| - s.used, |g.blk|, s.used - |g.blk|, |g.blk|)
    ensures var g' := GrownGhost(s, g);
      IndexOk(GrowState(s).indexes[h], g', g'.lo[h], g'.hi[h], g'.off[h], g'.pub[h])
  {
    var g' := GrownGhost(s, g);
    if h < |s.indexes| {
      IndexKeeps(s, g, g', h);
    } else {
      GrownLast(s, g);
    }
  }

  lemma GrownLast(s: State, g: Ghost)
    requires s.producer.Grow? && 0 < s.used <= |g.blk| && s.indexes != []
             && |g.lo| == |g.hi| == |g.off| == |g.pub| == |s.indexes|
    requires s.used <= Current(s).size == |Current(s).entries|
    requires IndexOk(GrownIndex(Current(s), s.used, s.prFront), g, |g.blk| - s.used, |g.blk|, s.used - |g.blk|, |g.blk|)
    ensures var g', h := GrownGhost(s, g), |s.indexes|;
      IndexOk(GrowState(s).indexes[h], g', g'.lo[h], g'.hi[h], g'.off[h], g'.pub[h])
  {
    var y := GrownIndex(Current(s), s.used, s.prFront);
    SameEntries(y, g, GrownGhost(s, g), |g.blk| - s.used, |g.blk|, s.used - |g.blk|, |g.blk|);
  }

  lemma GrownNewest(s: State, g: Ghost, c: nat, x: Index)
    requires IndexesOk(s, g) && s.producer.Grow? && 0 < s.used <= |g.blk| && c == |s.indexes| - 1 && x == s.indexes[c]
    requires s.used <= x.size < Pow2(MAX_INDEX_SIZE_LOG)
    ensures IndexOk(GrownIndex(x, s.used, s.prFront), g, |g.blk| - s.used, |g.blk|, s.used - |g.blk|, |g.blk|)
  {
    CurrentOk(s, g, c);
    NewestIndex(x, g, g.lo[c], g.off[c], g.pub[c], s.used, s.prFront, GrownIndex(x, s.used, s.prFront));
  }

  lemma GrownAll(s: State, g: Ghost)
    requires IndexesOk(s, g) && s.producer.Grow? && 0 < s.used <= |g.blk|
    requires s.used <= Current(s).size == |Current(s).entries| && Current(s).size < Pow2(MAX_INDEX_SIZE_LOG)
    ensures var s', g' := GrowState(s), GrownGhost(s, g);
      forall h :: 0 <= h < |s'.indexes| ==> IndexOk(s'.indexes[h], g', g'.lo[h], g'.hi[h], g'.off[h], g'.pub[h])
  {
    var s', g' := GrowState(s), GrownGhost(s, g);
    GrownNewest(s, g, |s.indexes| - 1, Current(s));
    forall h | 0 <= h < |s'.indexes| ensures IndexOk(s'.indexes[h], g', g'.lo[h], g'.hi[h], g'.off[h], g'.pub[h]) {
      GrownIndexAt(s, g, h);
    }
  }

  /** What `IndexesOk` says of the numbers, for the doubled index. */
  lemma GrownNumbers(s: State, g: Ghost)
    requires IndexesOk(s, g) && s.producer.Grow? && 0 < s.used <= |g.blk|
    requires s.used <= Current(s).size == |Current(s).entries|
    ensures var s', g', c := GrowState(s), GrownGhost(s, g), |s.indexes|;
      && (forall h :: 0 <= h < c ==> g'.pub[h] == g'.hi[h])
      && g'.hi[c] == Written(s', g') && g'.pub[c] == Published(s', g') && g'.lo[c] <= Oldest(s', g')
      && s'.used <= s'.indexes[c].size
  {
    forall h | 0 <= h < |s.indexes| ensures g.pub[h] == g.hi[h] {}
  }

  lemma GrownFront(s: State, g: Ghost)
    requires s.producer.Grow? && s.indexes != [] && 0 < s.used <= Current(s).size == |Current(s).entries|
             && s.used <= |g.blk|
    requires |g.off| == |s.indexes|
    ensures var s', g', c := GrowState(s), GrownGhost(s, g), |s.indexes|;
      s'.prFront == Slot(Published(s', g'), g'.off[c], s'.indexes[c].size)
  {
    SmallSlot(|g.blk|, s.used - |g.blk|, 2 * Current(s).size);
  }

  lemma GrowIndexes(s: State, g: Ghost)
    requires IndexesOk(s, g) && s.producer.Grow? && 0 < s.used <= |g.blk|
    requires s.used <= Current(s).size == |Current(s).entries| && Current(s).size < Pow2(MAX_INDEX_SIZE_LOG)
    ensures IndexesOk(GrowState(s), GrownGhost(s, g))
  {
    GrownAll(s, g);
    GrownNumbers(s, g);
    GrownFront(s, g);
  }

  lemma IndexKeeps(s: State, g: Ghost, g': Ghost, h: nat)
    requires IndexesOk(s, g) && h < |s.indexes| && g'.blk == g.blk
    requires |g'.lo| > h && |g'.hi| > h && |g'.off| > h && |g'.pub| > h
    requires g'.lo[h] == g.lo[h] && g'.hi[h] == g.hi[h] && g'.off[h] == g.off[h] && g'.pub[h] == g.pub[h]
    ensures IndexOk(s.indexes[h], g', g'.lo[h], g'.hi[h], g'.off[h], g'.pub[h])
  {
    assert IndexOk(s.indexes[h], g, g.lo[h], g.hi[h], g.off[h], g.pub[h]);
    SameEntries(s.indexes[h], g, g', g.lo[h], g.hi[h], g.off[h], g.pub[h]);
  }

  lemma SameEntries(x: Index, g: Ghost, g': Ghost, lo: nat, hi: nat, off: int, pub: nat)
    requires IndexOk(x, g, lo, hi, off, pub) && |g.blk| <= |g'.blk| && g'.blk[..|g.blk|] == g.blk
    ensures IndexOk(x, g', lo, hi, off, pub)
  {
    forall q | lo <= q < hi ensures x.entries[Slot(q, off, x.size)] == EntryFor(g', q) {
      assert g'.blk[..|g.blk|][q] == g.blk[q];
      assert EntryFor(g', q) == EntryFor(g, q);
    }
  }

  lemma GrowSucceeds(s: State, g: Ghost)
    requires Inv(s, g) && s.producer.Grow? && 0 < s.used <= Current(s).size == |Current(s).entries|
    requires Current(s).size < Pow2(MAX_INDEX_SIZE_LOG)
    ensures Inv(GrowState(s), GrownGhost(s, g))
  {
    var s', g' := GrowState(s), GrownGhost(s, g);
    GrowIndexes(s, g);
    RingFrame(s, g, s', g');
    DataFrame(s, g, s', g');
    FlagsFrame(s, g, s', g');
    GrowConsumers(s, g, s', g');
  }

  lemma GrowStep(s: State, g: Ghost) returns (g': Ghost)
    requires Inv(s, g) && s.producer.Grow? && ProducerInRange(s)
    ensures Inv(Produce(s, 0), g')
  {
    if Current(s).size >= Pow2(MAX_INDEX_SIZE_LOG) {
      g' := g;
      ProducerMoves(s, g, Idle);
    } else {
      g' := GrownGhost(s, g);
      assert Produce(s, 0) == GrowState(s);
      GrowSucceeds(s, g);
    }
  }

  lemma GrowConsumers(s: State, g: Ghost, s': State, g': Ghost)
    requires Inv(s, g) && s.producer.Grow? && 0 < s.used <= Current(s).size == |Current(s).entries|
    requires s' == GrowState(s) && g' == GrownGhost(s, g)
    ensures ConsumersOk(s', g')
  {
    forall t | 0 <= t < |s.consumers| && !s.consumers[t].Free?
      ensures Oldest(s, g) <= Low(s.consumers[t]) / BLOCK_SIZE
    {
      assert ConsumerOk(s, g, s.consumers[t]);
    }
    ConsumersKeep(s, g, s', g');
  }

  // -- publishing the block --

  function Max(a: int, b: int): int { if a < b then b else a }

  /** Writing number `hi` into its slot overwrites the number one table size ago. */
  lemma EntryWritten(x: Index, g: Ghost, lo: nat, off: int, e: Entry)
    requires |g.blk| > 0 && IndexOk(x, g, lo, |g.blk| - 1, off, |g.blk| - 1) && e == EntryFor(g, |g.blk| - 1)
    ensures var q := |g.blk|;
      IndexOk(x.(entries := x.entries[Slot(q - 1, off, x.size) := e]), g, Max(lo, q - x.size), q, off, q - 1)
  {
    var last := |g.blk| - 1;
    var y := x.(entries := x.entries[Slot(last, off, x.size) := e]);
    forall q | Max(lo, last + 1 - x.size) <= q < last + 1 ensures y.entries[Slot(q, off, y.size)] == EntryFor(g, q) {
      if q < last { SlotDistinct(q, last, off, x.size); }
    }
  }

  function EntryGhost(s: State, g: Ghost): Ghost
    requires s.indexes != [] && |g.lo| == |g.hi| == |s.indexes|
  {
    var c := |s.indexes| - 1;
    g.(lo := g.lo[c := Max(g.lo[c], |g.blk| - s.indexes[c].size)], hi := g.hi[c := |g.blk|])
  }

  function EntryState(s: State): State
    requires s.producer.SetEntry? && s.tailBlock.To? && s.indexes != [] && s.prFront < |Current(s).entries|
  {
    var x := Current(s);
    var y := x.(entries := x.entries[s.prFront := Entry(Wrap(s.tail), s.tailBlock.block)]);
    Replace(s, y).(producer := SetFront(s.producer.v))
  }

  lemma EntryCurrent(s: State, g: Ghost)
    requires IndexesOk(s, g) && s.producer.SetEntry? && |g.blk| > 0 && s.prFront < |Current(s).entries|
    requires s.tailBlock == To(g.blk[|g.blk| - 1]) && s.tail == (|g.blk| - 1) * BLOCK_SIZE
    ensures var c, g' := |s.indexes| - 1, EntryGhost(s, g);
      IndexOk(Current(EntryState(s)), g, g'.lo[c], g'.hi[c], g'.off[c], g'.pub[c])
  {
    var c := |s.indexes| - 1;
    assert IndexOk(s.indexes[c], g, g.lo[c], g.hi[c], g.off[c], g.pub[c]);
    EntryWritten(s.indexes[c], g, g.lo[c], g.off[c], EntryFor(g, |g.blk| - 1));
  }

  lemma EntryIndexAt(s: State, g: Ghost, h: nat)
    requires IndexesOk(s, g) && s.producer.SetEntry? && s.tailBlock.To? && s.prFront < |Current(s).entries|
    requires h < |s.indexes|
    requires var c, g' := |s.indexes| - 1, EntryGhost(s, g);
      IndexOk(Current(EntryState(s)), g, g'.lo[c], g'.hi[c], g'.off[c], g'.pub[c])
    ensures var g' := EntryGhost(s, g);
      IndexOk(EntryState(s).indexes[h], g', g'.lo[h], g'.hi[h], g'.off[h], g'.pub[h])
  {
    var s', g' := EntryState(s), EntryGhost(s, g);
    if h < |s.indexes| - 1 {
      IndexKeeps(s, g, g', h);
    } else {
      SameEntries(s'.indexes[h], g, g', g'.lo[h], g'.hi[h], g'.off[h], g'.pub[h]);
    }
  }

  lemma EntryIndexes(s: State, g: Ghost)
    requires IndexesOk(s, g) && s.producer.SetEntry? && |g.blk| > 0 && s.prFront < |Current(s).entries|
    requires s.tailBlock == To(g.blk[|g.blk| - 1]) && s.tail == (|g.blk| - 1) * BLOCK_SIZE
    ensures IndexesOk(EntryState(s), EntryGhost(s, g))
  {
    var s', g' := EntryState(s), EntryGhost(s, g);
    EntryCurrent(s, g);
    forall h | 0 <= h < |s'.indexes| ensures IndexOk(s'.indexes[h], g', g'.lo[h], g'.hi[h], g'.off[h], g'.pub[h]) {
      EntryIndexAt(s, g, h);
    }
  }

  lemma EntryConsumers(s: State, g: Ghost)
    requires Inv(s, g) && s.producer.SetEntry? && s.tailBlock.To? && s.prFront < |Current(s).entries|
    ensures ConsumersOk(EntryState(s), EntryGhost(s, g))
  {
    forall t | 0 <= t < |s.consumers| && !s.consumers[t].Free?
      ensures Oldest(s, g) <= Low(s.consumers[t]) / BLOCK_SIZE
    {
      assert ConsumerOk(s, g, s.consumers[t]);
    }
    assert IndexOk(Current(s), g, g.lo[|s.indexes| - 1], g.hi[|s.indexes| - 1], g.off[|s.indexes| - 1],
        g.pub[|s.indexes| - 1]);
    ConsumersKeep(s, g, EntryState(s), EntryGhost(s, g));
  }

  lemma SetEntryStep(s: State, g: Ghost)
    requires Inv(s, g) && s.producer.SetEntry? && ProducerInRange(s)
    ensures |g.lo| == |g.hi| == |s.indexes| && Inv(Produce(s, 0), EntryGhost(s, g))
  {
    var s', g' := EntryState(s), EntryGhost(s, g);
    assert Produce(s, 0) == s';
    EntryIndexes(s, g);
    EntryConsumers(s, g);
    RingFrame(s, g, s', g');
    DataFrame(s, g, s', g');
    FlagsFrame(s, g, s', g');
  }

  function FrontGhost(s: State, g: Ghost): Ghost
    requires s.indexes != [] && |g.pub| == |s.indexes|
  {
    g.(pub := g.pub[|s.indexes| - 1 := |g.blk|])
  }

  function FrontState(s: State): State
    requires s.producer.SetFront? && s.indexes != [] && Current(s).size > 0
  {
    Replace(s, Current(s).(front := s.prFront)).(prFront := (s.prFront + 1) % Current(s).size,
        producer := Write(s.producer.v))
  }

  lemma FrontIndexes(s: State, g: Ghost)
    requires IndexesOk(s, g) && s.producer.SetFront? && |g.blk| > 0 && Current(s).size > 0
    ensures IndexesOk(FrontState(s), FrontGhost(s, g))
  {
    var s', g', c := FrontState(s), FrontGhost(s, g), |s.indexes| - 1;
    assert IndexOk(s.indexes[c], g, g.lo[c], g.hi[c], g.off[c], g.pub[c]);
    FrontPublished(s.indexes[c], g, g', g.lo[c], g.hi[c], g.off[c], g.pub[c], s.prFront);
    forall h | 0 <= h < c ensures IndexOk(s'.indexes[h], g', g'.lo[h], g'.hi[h], g'.off[h], g'.pub[h]) {
      IndexKeeps(s, g, g', h);
    }
    SlotNext(|g.blk| - 1, g.off[c], s.indexes[c].size);
  }

  lemma FrontPublished(x: Index, g: Ghost, g': Ghost, lo: nat, hi: nat, off: int, pub: nat, front: nat)
    requires IndexOk(x, g, lo, hi, off, pub) && hi == |g.blk| > 0 && front == Slot(hi - 1, off, x.size)
             && g'.blk == g.blk
    ensures IndexOk(x.(front := front), g', lo, hi, off, hi)
  {
    SameEntries(x, g, g', lo, hi, off, pub);
  }

  lemma FrontConsumers(s: State, g: Ghost)
    requires Inv(s, g) && s.producer.SetFront? && Current(s).size > 0
    ensures ConsumersOk(FrontState(s), FrontGhost(s, g))
  {
    forall t | 0 <= t < |s.consumers| && !s.consumers[t].Free?
      ensures Oldest(s, g) <= Low(s.consumers[t]) / BLOCK_SIZE
    {
      assert ConsumerOk(s, g, s.consumers[t]);
    }
    ConsumersKeep(s, g, FrontState(s), FrontGhost(s, g));
  }

  lemma SetFrontStep(s: State, g: Ghost)
    requires Inv(s, g) && s.producer.SetFront? && ProducerInRange(s)
    ensures |g.pub| == |s.indexes| && Inv(Produce(s, 0), FrontGhost(s, g))
  {
    var s', g' := FrontState(s), FrontGhost(s, g);
    assert Produce(s, 0) == s';
    FrontIndexes(s, g);
    FrontConsumers(s, g);
    RingFrame(s, g, s', g');
    DataFrame(s, g, s', g');
    FlagsFrame(s, g, s', g');
  }

  // -- writing the element --

  lemma WriteData(s: State, g: Ghost, s': State)
    requires Inv(s, g) && s.producer.Write? && ProducerInRange(s) && s' == Produce(s, 0)
    ensures DataOk(s', g)
  {
    var last := |g.blk| - 1;
    assert s.tail / BLOCK_SIZE == last;
    forall x | 0 <= x < s'.tail && x < |s'.items| && InRing(s', g, x) ensures ElementAt(s', g, x, s'.items[x]) {
      assert InRing(s, g, x) && ElementAt(s, g, x, s.items[x]);
      if x / BLOCK_SIZE != last { assert g.blk[x / BLOCK_SIZE] != g.blk[last]; }
    }
  }

  lemma WriteStep(s: State, g: Ghost)
    requires Inv(s, g) && s.producer.Write? && ProducerInRange(s)
    ensures Inv(Produce(s, 0), g)
  {
    var s' := Produce(s, 0);
    WriteData(s, g, s');
    RingFrame(s, g, s', g);
    IndexesFrame(s, g, s');
    ConsumersKeepAll(s, g, s');
    FlagsFrame(s, g, s', g);
  }

  lemma SetTailStep(s: State, g: Ghost)
    requires Inv(s, g) && s.producer.SetTail? && ProducerInRange(s)
    ensures Inv(Produce(s, 0), g)
  {
    var s' := Produce(s, 0);
    assert Ring(s', g) by { RingFrame(s, g, s', g); }
    assert IndexesOk(s', g) by { IndexesFrame(s, g, s'); }
    assert FlagsOk(s', g) by { FlagsFrame(s, g, s', g); }
    SetTailConsumers(s, g, s');
    SetTailData(s, g, s');
  }

  lemma SetTailData(s: State, g: Ghost, s': State)
    requires Inv(s, g) && s.producer.SetTail? && ProducerInRange(s) && s' == Produce(s, 0)
    ensures DataOk(s', g)
  {
    forall x | 0 <= x < s'.tail && x < |s'.items| && InRing(s', g, x) ensures ElementAt(s', g, x, s'.items[x]) {
      if x < s.tail { assert InRing(s, g, x) && ElementAt(s, g, x, s.items[x]); }
    }
  }

  lemma SetTailConsumers(s: State, g: Ghost, s': State)
    requires Inv(s, g) && s.producer.SetTail? && ProducerInRange(s) && s' == Produce(s, 0)
    ensures ConsumersOk(s', g)
  {
    forall t | 0 <= t < |s.consumers| && !s.consumers[t].Free?
      ensures Oldest(s, g) <= Low(s.consumers[t]) / BLOCK_SIZE
    {
      assert ConsumerOk(s, g, s.consumers[t]);
    }
    ConsumersKeep(s, g, s', g);
  }

  lemma WholeBlocks(tail: nat, q: nat)
    requires tail <= q * BLOCK_SIZE < tail + BLOCK_SIZE
    ensures tail % BLOCK_SIZE == 0 <==> tail == q * BLOCK_SIZE
  {
  }

  lemma StartsScan(s: State, g: Ghost)
    requires Ring(s, g) && |g.blk| > 0
    ensures OldestScanned(s, g, 0)
  {
  }

  lemma IdleStep(s: State, g: Ghost, v: Value)
    requires Inv(s, g) && s.producer.Idle? && ProducerInRange(s)
    ensures Inv(Produce(s, v), g)
  {
    WholeBlocks(s.tail, |g.blk|);
    if s.tail % BLOCK_SIZE != 0 {
      ProducerMoves(s, g, Write(v));
    } else if s.tailBlock.To? {
      StartsScan(s, g);
      ProducerMoves(s, g, Scan(v, 0));
    } else {
      ProducerMoves(s, g, LoadHead(v));
    }
  }

  lemma LoadHeadStep(s: State, g: Ghost)
    requires Inv(s, g) && s.producer.LoadHead? && ProducerInRange(s)
    ensures Inv(Produce(s, 0), g)
  {
    var c := |s.indexes| - 1;
    assert s.indexes[c].size > 0 by { assert IndexOk(s.indexes[c], g, g.lo[c], g.hi[c], g.off[c], g.pub[c]); }
    var pc := Produce(s, 0).producer;
    assert Produce(s, 0) == s.(producer := pc);
    ProducerMoves(s, g, pc);
  }

  lemma ProduceInv(s: State, g: Ghost, s': State) returns (g': Ghost)
    requires Inv(s, g) && Produces(s, s')
    ensures Inv(s', g')
  {
    g' := g;
    var v :| s' == Produce(s, v);
    match s.producer
    case Idle => IdleStep(s, g, v);
    case Scan(_, _) => g' := ScanStep(s, g);
    case LoadHead(_) => LoadHeadStep(s, g);
    case Grow(_) => g' := GrowStep(s, g);
    case Insert(_) => InsertStep(s, g); g' := AddBlock(g, |s.next|);
    case SetEntry(_) => SetEntryStep(s, g); g' := EntryGhost(s, g);
    case SetFront(_) => SetFrontStep(s, g); g' := FrontGhost(s, g);
    case Write(_) => WriteStep(s, g);
    case SetTail(_) => SetTailStep(s, g);
  }

  // ---- preservation: the consumers ---------------------------------------

  /** The range found by a lookup: the slot of the wanted block number. */
  lemma LookupIsExact(index: nat, q: nat, off: int, size: nat)
    requires SizeOk(size)
    ensures LookupSlot(index, Wrap(q * BLOCK_SIZE), Slot(q, off, size), size) == Slot(index / BLOCK_SIZE, off, size)
  {
    var k :| INITIAL_INDEX_SIZE_LOG <= k <= MAX_INDEX_SIZE_LOG && size == Pow2(k);
    WordDistance(index, q);
    Pow2Is59();
    Pow2Divides(k, 59);
    FrontPlusDistance(index / BLOCK_SIZE, q, off, size, Pow2(59 - k));
  }

  lemma FrontPlusDistance(wanted: nat, q: nat, off: int, size: nat, c: nat)
    requires size > 0 && size * c == WORD_BLOCKS
    ensures (Slot(q, off, size) + (wanted - q) % WORD_BLOCKS) % size == Slot(wanted, off, size)
  {
    var m, j := (wanted - q) % WORD_BLOCKS, (wanted - q) / WORD_BLOCKS;
    AddMod(q + off, m, size);
    assert wanted + off == q + off + m + size * c * j;
    MultipleOfSize(q + off + m, size, c, j);
  }

  lemma MultipleOfSize(x: int, size: nat, c: int, j: int)
    requires size > 0
    ensures (x + size * c * j) % size == x % size
  {
    assert size * c * j == size * (c * j);
    ModOfMultiple(x, size, c * j);
  }

  lemma Pow2Is59()
    ensures Pow2(59) == WORD_BLOCKS
  {
    assert Pow2(10) == 0x400;
    Pow2Divides(10, 20);
    Pow2Divides(20, 40);
    Pow2Divides(19, 59);
    Pow2Divides(10, 19);
    assert Pow2(9) == 0x200;
  }

  const WORD_BLOCKS: nat := 0x800_0000_0000_0000

  lemma WrapBlocks(d: int)
    ensures Wrap(d * BLOCK_SIZE) == (d % WORD_BLOCKS) * BLOCK_SIZE
  {
  }

  lemma BaseOf(index: nat)
    ensures Wrap(index) - Wrap(index) % BLOCK_SIZE == Wrap((index / BLOCK_SIZE) * BLOCK_SIZE)
  {
    var q, r := index / BLOCK_SIZE, index % BLOCK_SIZE;
    var m, k := q / WORD_BLOCKS, q % WORD_BLOCKS;
    assert index == BLOCK_SIZE * q + r && q == WORD_BLOCKS * m + k;
    WrapIs(index, m, BLOCK_SIZE * k + r);
    SlotInBlock(k, r);
    WrapBlocks(q);
  }

  lemma WrapIs(x: nat, m: nat, r: nat)
    requires x == BLOCK_SIZE * WORD_BLOCKS * m + r && r < BLOCK_SIZE * WORD_BLOCKS
    ensures Wrap(x) == r
  {
  }

  lemma SlotInBlock(k: nat, r: nat)
    requires r < BLOCK_SIZE
    ensures (BLOCK_SIZE * k + r) % BLOCK_SIZE == r
  {
  }

  /** Word distance of two bases, as an unsigned multiple of the block size. */
  lemma WordDistance(index: nat, q: nat)
    ensures var blockBase := Wrap(index) - Wrap(index) % BLOCK_SIZE;
      Wrap(blockBase - Wrap(q * BLOCK_SIZE)) / BLOCK_SIZE == (index / BLOCK_SIZE - q) % WORD_BLOCKS
  {
    BaseOf(index);
    WrapDifference((index / BLOCK_SIZE) * BLOCK_SIZE, q * BLOCK_SIZE);
    WrapBlocks(index / BLOCK_SIZE - q);
  }

  /** Steps that only move a consumer to another point of its dequeue. */
  lemma ConsumerMoves(s: State, g: Ghost, t: nat, pc: ConsumerPc)
    requires Inv(s, g) && t < |s.consumers| && !s.consumers[t].Free? && !pc.Free?
    requires pc.e == s.consumers[t].e && pc.first == s.consumers[t].first
    requires forall x: nat :: Holds(pc, x) ==> Holds(s.consumers[t], x)
    requires ConsumerOk(s, g, pc)
    ensures Inv(Goto(s, t, pc), g)
  {
    var s' := Goto(s, t, pc);
    BlocksKeep(s, g, s');
    ConsumersMove(s, g, s', t);
    FlagsShrink(s, g, s', t);
  }

  /** Blocks, index and elements do not depend on the consumers. */
  lemma BlocksKeep(s: State, g: Ghost, s': State)
    requires Numbers(s, g) && Ring(s, g) && IndexesOk(s, g) && DataOk(s, g)
    requires s' == s.(consumers := s'.consumers, head := s'.head, flags := s'.flags, delivered := s'.delivered)
    requires s.head <= s'.head <= s.tail
    requires |s'.flags| == |s.flags| && forall b :: 0 <= b < |s'.flags| ==> |s'.flags[b]| == BLOCK_SIZE
    ensures Numbers(s', g) && Ring(s', g) && IndexesOk(s', g) && DataOk(s', g)
  {
    RingFrame(s, g, s', g);
    IndexesFrame(s, g, s');
    DataFrame(s, g, s', g);
  }

  lemma ConsumersMove(s: State, g: Ghost, s': State, t: nat)
    requires ConsumersOk(s, g) && t < |s.consumers| && !s.consumers[t].Free? && |s'.consumers| == |s.consumers|
    requires s' == Goto(s, t, s'.consumers[t]) && !s'.consumers[t].Free?
    requires s'.consumers[t].e == s.consumers[t].e && s'.consumers[t].first == s.consumers[t].first
    requires ConsumerOk(s, g, s'.consumers[t])
    ensures ConsumersOk(s', g)
  {
    forall u | 0 <= u < |s'.consumers| ensures ConsumerOk(s', g, s'.consumers[u]) {
      assert ConsumerOk(s, g, s'.consumers[u]);
      SameConsumer(s, s', g, s'.consumers[u]);
    }
    forall u, v | 0 <= u < v < |s'.consumers| ensures Apart(s'.consumers[u], s'.consumers[v]) {
      assert Apart(s.consumers[u], s.consumers[v]);
    }
    forall k | 0 <= k < |s'.delivered| ensures DeliveryOk(s', s'.delivered[k]) {
      assert DeliveryOk(s, s.delivered[k]);
    }
    forall k, u | 0 <= k < |s'.delivered| && 0 <= u < |s'.consumers|
      ensures AwayFrom(s'.delivered[k], s'.consumers[u])
    {
      assert AwayFrom(s.delivered[k], s.consumers[u]);
    }
  }

  /** What holds of a consumer does not depend on the other consumers. */
  lemma SameConsumer(s: State, s': State, g: Ghost, pc: ConsumerPc)
    requires ConsumerOk(s, g, pc)
    requires s'.head >= s.head && s'.used == s.used && s'.indexes == s.indexes && s'.items == s.items
    ensures ConsumerOk(s', g, pc)
  {
    if pc.LoadBase? {
      var q :| pc.first / BLOCK_SIZE <= q < g.hi[pc.h] && FrontOk(s, g, pc.h, pc.f, q);
      assert FrontOk(s', g, pc.h, pc.f, q);
    }
  }

  lemma FlagsShrink(s: State, g: Ghost, s': State, t: nat)
    requires FlagsOk(s, g) && t < |s.consumers| == |s'.consumers|
    requires s' == Goto(s, t, s'.consumers[t])
    requires forall x: nat :: Holds(s'.consumers[t], x) ==> Holds(s.consumers[t], x)
    ensures FlagsOk(s', g)
  {
    forall x: nat | Flagged(s', g, x) ensures Done(s', x) { assert Flagged(s, g, x) && Done(s, x); }
  }

  lemma LoadIndexStep(s: State, g: Ghost, t: nat)
    requires Inv(s, g) && t < |s.consumers| && s.consumers[t].LoadIndex?
    ensures Inv(Goto(s, t, LoadFront(s.consumers[t].first, s.consumers[t].e, |s.indexes| - 1)), g)
  {
    var pc, c := s.consumers[t], |s.indexes| - 1;
    assert ConsumerOk(s, g, pc);
    assert IndexOk(s.indexes[c], g, g.lo[c], g.hi[c], g.off[c], g.pub[c]);
    ConsumerMoves(s, g, t, LoadFront(pc.first, pc.e, c));
  }

  lemma LoadFrontStep(s: State, g: Ghost, t: nat)
    requires Inv(s, g) && t < |s.consumers| && s.consumers[t].LoadFront? && s.consumers[t].h < |s.indexes|
    ensures var pc := s.consumers[t]; Inv(Goto(s, t, LoadBase(pc.first, pc.e, pc.h, s.indexes[pc.h].front)), g)
  {
    var pc := s.consumers[t];
    var h := pc.h;
    assert ConsumerOk(s, g, pc);
    assert IndexOk(s.indexes[h], g, g.lo[h], g.hi[h], g.off[h], g.pub[h]);
    assert pc.first / BLOCK_SIZE <= g.pub[h] - 1 by { assert pc.first <= pc.e - 1; }
    assert FrontOk(s, g, h, s.indexes[h].front, g.pub[h] - 1);
    ConsumerMoves(s, g, t, LoadBase(pc.first, pc.e, h, s.indexes[h].front));
  }

  lemma LoadBaseStep(s: State, g: Ghost, t: nat)
    requires Inv(s, g) && t < |s.consumers| && s.consumers[t].LoadBase?
    ensures ConsumerInRange(s, s.consumers[t])
    ensures Inv(Consume(s, t), g)
  {
    var pc := s.consumers[t];
    var h := pc.h;
    assert ConsumerOk(s, g, pc);
    var x := s.indexes[h];
    assert IndexOk(x, g, g.lo[h], g.hi[h], g.off[h], g.pub[h]);
    var q :| pc.first / BLOCK_SIZE <= q < g.hi[h] && FrontOk(s, g, h, pc.f, q);
    assert LookupSlot(pc.first, x.entries[pc.f].base, pc.f, x.size)
        == Slot(pc.first / BLOCK_SIZE, g.off[h], x.size) by {
      assert x.entries[Slot(q, g.off[h], x.size)] == EntryFor(g, q);
      LookupIsExact(pc.first, q, g.off[h], x.size);
    }
    BaseFound(s, g, t);
  }

  /** The slot that follows from the base at the front. */
  lemma BaseFound(s: State, g: Ghost, t: nat)
    requires Inv(s, g) && t < |s.consumers| && s.consumers[t].LoadBase? && ConsumerInRange(s, s.consumers[t])
    requires var pc := s.consumers[t]; var x := s.indexes[pc.h];
             |g.off| == |s.indexes|
             && LookupSlot(pc.first, x.entries[pc.f].base, pc.f, x.size)
                   == Slot(pc.first / BLOCK_SIZE, g.off[pc.h], x.size)
    ensures Inv(Consume(s, t), g)
  {
    assert ConsumerOk(s, g, s.consumers[t]);
    ConsumerMoves(s, g, t, Consume(s, t).consumers[t]);
  }

  lemma LoadBlockStep(s: State, g: Ghost, t: nat)
    requires Inv(s, g) && t < |s.consumers| && s.consumers[t].LoadBlock?
    ensures ConsumerInRange(s, s.consumers[t])
    ensures Inv(Consume(s, t), g)
  {
    var pc := s.consumers[t];
    var h := pc.h;
    assert ConsumerOk(s, g, pc);
    var x := s.indexes[h];
    assert IndexOk(x, g, g.lo[h], g.hi[h], g.off[h], g.pub[h]);
    var q := pc.i / BLOCK_SIZE;
    assert q <= (pc.e - 1) / BLOCK_SIZE;
    assert x.entries[Slot(q, g.off[h], x.size)] == EntryFor(g, q);
    ConsumerMoves(s, g, t, Consume(s, t).consumers[t]);
  }

  lemma SameBlock(from: nat, i: nat, e: nat)
    requires from <= i < EndInBlock(from, e)
    ensures i / BLOCK_SIZE == from / BLOCK_SIZE && i < e
  {
  }

  lemma ReadElement(s: State, g: Ghost, pc: ConsumerPc)
    requires Numbers(s, g) && DataOk(s, g) && ConsumerOk(s, g, pc) && pc.Read?
    ensures pc.i < |s.items| && ElementAt(s, g, pc.i, s.items[pc.i]) && pc.b == g.blk[pc.i / BLOCK_SIZE]
    ensures Got(s, pc.first, pc.i + 1, pc.got + [s.items[pc.i]])
  {
    SameBlock(pc.from, pc.i, pc.e);
    assert InRing(s, g, pc.i);
    assert s.items[pc.first..pc.i + 1] == s.items[pc.first..pc.i] + [s.items[pc.i]];
  }

  function AfterRead(pc: ConsumerPc, v: Value): ConsumerPc
    requires pc.Read?
  {
    if pc.i + 1 < EndInBlock(pc.from, pc.e) then
      Read(pc.first, pc.from, pc.i + 1, pc.e, pc.h, pc.slot, pc.b, pc.got + [v])
    else
      Release(pc.first, pc.from, pc.i + 1, pc.i + 1, pc.e, pc.h, pc.slot, pc.b, pc.got + [v])
  }

  lemma AfterReadOk(s: State, g: Ghost, pc: ConsumerPc)
    requires Numbers(s, g) && DataOk(s, g) && ConsumerOk(s, g, pc) && pc.Read?
    ensures pc.i < |s.items| && ElementAt(s, g, pc.i, s.items[pc.i]) && pc.b == g.blk[pc.i / BLOCK_SIZE]
    ensures ConsumerOk(s, g, AfterRead(pc, s.items[pc.i]))
    ensures forall x: nat :: Holds(AfterRead(pc, s.items[pc.i]), x) ==> Holds(pc, x)
  {
    ReadElement(s, g, pc);
  }

  lemma ConsumeReads(s: State, t: nat, v: Value)
    requires t < |s.consumers| && s.consumers[t].Read? && ConsumerInRange(s, s.consumers[t])
    requires s.slots[s.consumers[t].b][s.consumers[t].i % BLOCK_SIZE] == v
    ensures Consume(s, t) == Goto(s, t, AfterRead(s.consumers[t], v))
  {
  }

  lemma ReadStep(s: State, g: Ghost, t: nat)
    requires Inv(s, g) && t < |s.consumers| && s.consumers[t].Read?
    ensures ConsumerInRange(s, s.consumers[t])
    ensures Inv(Consume(s, t), g)
  {
    var pc := s.consumers[t];
    assert ConsumerOk(s, g, pc);
    AfterReadOk(s, g, pc);
    ConsumeReads(s, t, s.items[pc.i]);
    ConsumerMoves(s, g, t, AfterRead(pc, s.items[pc.i]));
  }

  // -- releasing an index --

  /** Setting the flag of `x` flags no other index of the ring. */
  lemma FlagOne(s: State, g: Ghost, s': State, b: nat, x: nat, y: nat)
    requires Ring(s, g) && InRing(s, g, x) && 0 <= Oldest(s, g) && b == g.blk[x / BLOCK_SIZE] && b < |s.flags|
    requires s'.used == s.used && s'.flags == s.flags[b := s.flags[b][FlagOf(x) := true]]
    requires Flagged(s', g, y) && y != x
    ensures Flagged(s, g, y)
  {
    if g.blk[y / BLOCK_SIZE] == b {
      assert y / BLOCK_SIZE == x / BLOCK_SIZE;
      assert FlagOf(y) != FlagOf(x);
    }
  }

  /** Consumer `t` moves on after setting the flag of `x`, which it held. */
  lemma ReleaseFlags(s: State, g: Ghost, s': State, t: nat, b: nat, x: nat)
    requires Ring(s, g) && FlagsOk(s, g) && InRing(s, g, x) && 0 <= Oldest(s, g)
    requires b == g.blk[x / BLOCK_SIZE] && b < |s.flags|
    requires s'.used == s.used && s'.head == s.head && s'.producer == s.producer
    requires s'.flags == s.flags[b := s.flags[b][FlagOf(x) := true]]
    requires t < |s.consumers| == |s'.consumers| && s'.consumers == s.consumers[t := s'.consumers[t]]
    requires forall y: nat :: Holds(s'.consumers[t], y) ==> Holds(s.consumers[t], y) && y != x
    requires x < s.head && forall u :: 0 <= u < |s.consumers| && u != t ==> !Holds(s.consumers[u], x)
    ensures FlagsOk(s', g)
  {
    forall y: nat | Flagged(s', g, y) ensures Done(s', y) {
      if y != x {
        FlagOne(s, g, s', b, x, y);
        assert Done(s, y);
      }
    }
  }

  lemma OthersDoNotHold(s: State, g: Ghost, t: nat, u: nat, x: nat)
    requires ConsumersOk(s, g) && t < |s.consumers| && u < |s.consumers| && t != u && Holds(s.consumers[t], x)
    ensures !Holds(s.consumers[u], x)
  {
    assert ConsumerOk(s, g, s.consumers[t]) && ConsumerOk(s, g, s.consumers[u]);
    assert if t < u then Apart(s.consumers[t], s.consumers[u]) else Apart(s.consumers[u], s.consumers[t]);
  }

  /** Where the consumer goes next. */
  function AfterRelease(s: State, pc: ConsumerPc): ConsumerPc
    requires pc.Release? && pc.h < |s.indexes| && s.indexes[pc.h].size > 0 && pc.j > 0
  {
    if pc.j - 1 > pc.from then Release(pc.first, pc.from, pc.j - 1, pc.i, pc.e, pc.h, pc.slot, pc.b, pc.got)
    else if pc.i < pc.e then LoadBlock(pc.first, pc.i, pc.e, pc.h, (pc.slot + 1) % s.indexes[pc.h].size, pc.got)
    else Free
  }

  lemma AfterReleaseOk(s: State, g: Ghost, pc: ConsumerPc)
    requires ConsumerOk(s, g, pc) && pc.Release?
    ensures pc.h < |s.indexes| && s.indexes[pc.h].size > 0 && pc.j > 0
    ensures var pc' := AfterRelease(s, pc);
      ConsumerOk(s, g, pc') && (!pc'.Free? ==> pc'.e == pc.e && pc'.first == pc.first)
  {
    if pc.j - 1 <= pc.from && pc.i < pc.e {
      assert pc.i / BLOCK_SIZE == pc.from / BLOCK_SIZE + 1;
      SlotNext(pc.from / BLOCK_SIZE, g.off[pc.h], s.indexes[pc.h].size);
    }
  }

  lemma AfterReleaseHolds(s: State, g: Ghost, pc: ConsumerPc, y: nat)
    requires ConsumerOk(s, g, pc) && pc.Release? && pc.h < |s.indexes| && s.indexes[pc.h].size > 0 && pc.j > 0
    requires Holds(AfterRelease(s, pc), y)
    ensures Holds(pc, y) && y != pc.j - 1
  {
  }

  lemma ReleaseDeliveries(s: State, g: Ghost, s': State, t: nat)
    requires ConsumersOk(s, g) && t < |s.consumers| == |s'.consumers| && s.consumers[t].Release?
    requires s.consumers[t].h < |s.indexes| && s.indexes[s.consumers[t].h].size > 0 && s.consumers[t].j > 0
    requires s'.consumers == s.consumers[t := AfterRelease(s, s.consumers[t])]
    requires s'.delivered == if AfterRelease(s, s.consumers[t]).Free?
      then s.delivered + [Delivery(s.consumers[t].first, s.consumers[t].got)] else s.delivered
    ensures DeliveriesApart(s')
  {
    assert ConsumerOk(s, g, s.consumers[t]);
    forall k, u | 0 <= k < |s'.delivered| && 0 <= u < |s'.consumers|
      ensures AwayFrom(s'.delivered[k], s'.consumers[u])
    {
      if k < |s.delivered| {
        assert AwayFrom(s.delivered[k], s.consumers[u]);
      } else if u != t {
        assert if u < t then Apart(s.consumers[u], s.consumers[t]) else Apart(s.consumers[t], s.consumers[u]);
      }
    }
    forall k, l | 0 <= k < l < |s'.delivered| ensures Separate(s'.delivered[k], s'.delivered[l]) {
      if l < |s.delivered| {
        assert Separate(s.delivered[k], s.delivered[l]);
      } else {
        assert AwayFrom(s.delivered[k], s.consumers[t]);
      }
    }
  }

  lemma ReleaseConsumers(s: State, g: Ghost, s': State, t: nat)
    requires ConsumersOk(s, g) && t < |s.consumers| == |s'.consumers| && s.consumers[t].Release?
    requires s.consumers[t].h < |s.indexes| && s.indexes[s.consumers[t].h].size > 0 && s.consumers[t].j > 0
    requires s'.consumers == s.consumers[t := AfterRelease(s, s.consumers[t])]
    requires s'.head == s.head && s'.used == s.used && s'.indexes == s.indexes && s'.items == s.items
    requires s'.delivered == if AfterRelease(s, s.consumers[t]).Free?
      then s.delivered + [Delivery(s.consumers[t].first, s.consumers[t].got)] else s.delivered
    ensures ConsumersOk(s', g)
  {
    var pc := s.consumers[t];
    assert ConsumerOk(s, g, pc);
    AfterReleaseOk(s, g, pc);
    forall u | 0 <= u < |s'.consumers| ensures ConsumerOk(s', g, s'.consumers[u]) {
      assert ConsumerOk(s, g, s'.consumers[u]);
      SameConsumer(s, s', g, s'.consumers[u]);
    }
    forall u, v | 0 <= u < v < |s'.consumers| ensures Apart(s'.consumers[u], s'.consumers[v]) {
      assert Apart(s.consumers[u], s.consumers[v]);
    }
    forall k | 0 <= k < |s'.delivered| ensures DeliveryOk(s', s'.delivered[k]) {
      if k < |s.delivered| { assert DeliveryOk(s, s.delivered[k]); }
    }
    ReleaseDeliveries(s, g, s', t);
  }

  /** The index whose flag is set next is held, in the ring, and not yet flagged. */
  lemma ReleasesHeld(s: State, g: Ghost, t: nat)
    requires Ring(s, g) && FlagsOk(s, g) && ConsumersOk(s, g) && t < |s.consumers| && s.consumers[t].Release?
    ensures var pc := s.consumers[t];
      && pc.j > 0 && Holds(pc, pc.j - 1) && pc.j <= s.head && InRing(s, g, pc.j - 1) && 0 <= Oldest(s, g)
      && pc.b == g.blk[(pc.j - 1) / BLOCK_SIZE] && pc.b < |s.flags| && |s.flags[pc.b]| == BLOCK_SIZE
      && !s.flags[pc.b][FlagOf(pc.j - 1)]
  {
    var pc := s.consumers[t];
    assert ConsumerOk(s, g, pc);
    SameBlock(pc.from, pc.j - 1, pc.e);
    assert !Flagged(s, g, pc.j - 1);
  }

  /** The state after a release, written out. */
  function Released(s: State, t: nat): State
    requires t < |s.consumers| && s.consumers[t].Release? && s.consumers[t].b < |s.flags|
    requires |s.flags[s.consumers[t].b]| == BLOCK_SIZE && s.consumers[t].j > 0
    requires s.consumers[t].h < |s.indexes| && s.indexes[s.consumers[t].h].size > 0
  {
    var pc := s.consumers[t];
    var pc' := AfterRelease(s, pc);
    s.(flags := s.flags[pc.b := s.flags[pc.b][FlagOf(pc.j - 1) := true]],
       consumers := s.consumers[t := pc'],
       delivered := if pc'.Free? then s.delivered + [Delivery(pc.first, pc.got)] else s.delivered)
  }

  lemma ReleaseState(s: State, g: Ghost, s': State, t: nat)
    requires Ring(s, g) && FlagsOk(s, g) && ConsumersOk(s, g) && t < |s.consumers| && s.consumers[t].Release?
    requires s.consumers[t].b < |s.flags| && |s.flags[s.consumers[t].b]| == BLOCK_SIZE && s.consumers[t].j > 0
    requires s.consumers[t].h < |s.indexes| && s.indexes[s.consumers[t].h].size > 0
    requires s' == Released(s, t)
    ensures FlagsOk(s', g)
  {
    var pc := s.consumers[t];
    ReleasesHeld(s, g, t);
    assert ConsumerOk(s, g, pc);
    forall u | 0 <= u < |s.consumers| && u != t ensures !Holds(s.consumers[u], pc.j - 1) {
      OthersDoNotHold(s, g, t, u, pc.j - 1);
    }
    forall y: nat | Holds(AfterRelease(s, pc), y) ensures Holds(pc, y) && y != pc.j - 1 {
      AfterReleaseHolds(s, g, pc, y);
    }
    ReleaseFlags(s, g, s', t, pc.b, pc.j - 1);
  }

  lemma ReleaseReady(s: State, g: Ghost, t: nat)
    requires Inv(s, g) && t < |s.consumers| && s.consumers[t].Release?
    ensures ConsumerInRange(s, s.consumers[t])
    ensures s.consumers[t].h < |s.indexes| && s.indexes[s.consumers[t].h].size > 0
  {
    assert ConsumerOk(s, g, s.consumers[t]);
    ReleasesHeld(s, g, t);
  }

  lemma ConsumeReleases(s: State, t: nat)
    requires t < |s.consumers| && s.consumers[t].Release? && ConsumerInRange(s, s.consumers[t])
    ensures Consume(s, t) == Released(s, t)
  {
  }

  lemma ReleasedInv(s: State, g: Ghost, s': State, t: nat)
    requires Inv(s, g) && t < |s.consumers| && s.consumers[t].Release? && ConsumerInRange(s, s.consumers[t])
    requires s' == Released(s, t)
    ensures Inv(s', g)
  {
    ReleaseState(s, g, s', t);
    BlocksKeep(s, g, s');
    ReleaseConsumers(s, g, s', t);
  }

  lemma ReleaseStep(s: State, g: Ghost, t: nat)
    requires Inv(s, g) && t < |s.consumers| && s.consumers[t].Release?
    ensures ConsumerInRange(s, s.consumers[t])
    ensures Inv(Consume(s, t), g)
  {
    ReleaseReady(s, g, t);
    ConsumeReleases(s, t);
    ReleasedInv(s, g, Released(s, t), t);
  }

  // -- claiming a range --

  lemma ClaimStep(s: State, g: Ghost, s': State, t: nat, n: nat)
    requires Inv(s, g) && Claims(s, s', t, n)
    ensures Inv(s', g)
  {
    BlocksKeep(s, g, s');
    ClaimConsumers(s, g, s', t, n);
    ClaimFlags(s, g, s', t, n);
  }

  lemma ClaimFlags(s: State, g: Ghost, s': State, t: nat, n: nat)
    requires FlagsOk(s, g) && Claims(s, s', t, n)
    ensures FlagsOk(s', g)
  {
    forall x: nat | Flagged(s', g, x) ensures Done(s', x) { assert Flagged(s, g, x) && Done(s, x); }
  }

  lemma ClaimConsumers(s: State, g: Ghost, s': State, t: nat, n: nat)
    requires Inv(s, g) && Claims(s, s', t, n)
    ensures ConsumersOk(s', g)
  {
    forall u | 0 <= u < |s'.consumers| ensures ConsumerOk(s', g, s'.consumers[u]) {
      assert ConsumerOk(s, g, s.consumers[u]);
      if u != t { SameConsumer(s, s', g, s'.consumers[u]); }
    }
    forall u, v | 0 <= u < v < |s'.consumers| ensures Apart(s'.consumers[u], s'.consumers[v]) {
      assert Apart(s.consumers[u], s.consumers[v]) && ConsumerOk(s, g, s.consumers[u])
          && ConsumerOk(s, g, s.consumers[v]);
    }
    forall k | 0 <= k < |s'.delivered| ensures DeliveryOk(s', s'.delivered[k]) { assert DeliveryOk(s, s.delivered[k]); }
    forall k, u | 0 <= k < |s'.delivered| && 0 <= u < |s'.consumers|
      ensures AwayFrom(s'.delivered[k], s'.consumers[u])
    {
      assert AwayFrom(s.delivered[k], s.consumers[u]) && DeliveryOk(s, s.delivered[k]);
    }
  }

  lemma ConsumeInv(s: State, g: Ghost, s': State, t: nat)
    requires Inv(s, g) && Consumes(s, s', t)
    ensures Inv(s', g)
  {
    match s.consumers[t]
    case LoadIndex(_, _) => LoadIndexStep(s, g, t);
    case LoadFront(_, _, _) => LoadFrontStep(s, g, t);
    case LoadBase(_, _, _, _) => LoadBaseStep(s, g, t);
    case LoadBlock(_, _, _, _, _, _) => LoadBlockStep(s, g, t);
    case Read(_, _, _, _, _, _, _, _) => ReadStep(s, g, t);
    case Release(_, _, _, _, _, _, _, _, _) => ReleaseStep(s, g, t);
  }

  // ---- whole runs --------------------------------------------------------

  lemma InitInv(s: State)
    requires Init(s)
    ensures Inv(s, Ghost([], [0], [0], [0], [0]))
  {
    var g := Ghost([], [0], [0], [0], [0]);
    assert SizeOk(s.indexes[0].size);
    SmallSlot(0, 0, s.indexes[0].size);
    assert IndexOk(s.indexes[0], g, 0, 0, 0, 0);
  }

  lemma StepInv(s: State, g: Ghost, s': State) returns (g': Ghost)
    requires Inv(s, g) && Step(s, s')
    ensures Inv(s', g')
  {
    g' := g;
    if Produces(s, s') {
      g' := ProduceInv(s, g, s');
    } else if t, n :| Claims(s, s', t, n) {
      ClaimStep(s, g, s', t, n);
    } else {
      var t :| Consumes(s, s', t);
      ConsumeInv(s, g, s', t);
    }
  }

  /** An interleaving of one producer and any number of consumers, in which every
      claim is covered by published elements. */
  ghost predicate IsRun(run: seq<State>) {
    run != [] && Init(run[0]) && forall i :: 0 <= i < |run| - 1 ==> Step(run[i], run[i + 1])
  }

  lemma {:induction false} RunInv(run: seq<State>, i: nat) returns (g: Ghost)
    requires IsRun(run) && i < |run|
    ensures Inv(run[i], g)
  {
    if i == 0 {
      InitInv(run[0]);
      g := Ghost([], [0], [0], [0], [0]);
    } else {
      var before := RunInv(run, i - 1);
      assert Step(run[i - 1], run[i - 1 + 1]);
      g := StepInv(run[i - 1], before, run[i]);
    }
  }

  // ---- what the invariant means ------------------------------------------

  /** Every finished dequeue returned exactly the elements enqueued with its
      indices, through block reuse, index doubling and index wrap-around. */
  lemma DeliversWhatWasEnqueued(run: seq<State>, i: nat, k: nat)
    requires IsRun(run) && i < |run| && k < |run[i].delivered|
    ensures var s, d := run[i], run[i].delivered[k];
      d.first + |d.values| <= s.tail == |s.items| && d.values == s.items[d.first..d.first + |d.values|]
  {
    var g := RunInv(run, i);
    assert DeliveryOk(run[i], run[i].delivered[k]);
  }

  predicate Within(d: Delivery, x: nat) { d.first <= x < d.first + |d.values| }

  predicate Owns(pc: ConsumerPc, x: nat) { !pc.Free? && pc.first <= x < pc.e }

  /** No claimed index is lost: a call in progress owns it or a finished one returned it. */
  ghost predicate Covered(s: State, x: nat) {
    || (exists k :: 0 <= k < |s.delivered| && Within(s.delivered[k], x))
    || (exists t :: 0 <= t < |s.consumers| && Owns(s.consumers[t], x))
  }

  lemma CoveredKeeps(s: State, s': State, x: nat)
    requires Covered(s, x) && s.delivered <= s'.delivered && |s.consumers| == |s'.consumers|
    requires forall t :: 0 <= t < |s.consumers| && Owns(s.consumers[t], x) ==>
      Owns(s'.consumers[t], x) || exists k :: 0 <= k < |s'.delivered| && Within(s'.delivered[k], x)
    ensures Covered(s', x)
  {
    if k :| 0 <= k < |s.delivered| && Within(s.delivered[k], x) {
      assert Within(s'.delivered[k], x);
    }
  }

  lemma ConsumeOwner(s: State, g: Ghost, s': State, t: nat)
    requires Inv(s, g) && Consumes(s, s', t)
    ensures |s'.consumers| == |s.consumers| && s.delivered <= s'.delivered && s'.head == s.head
    ensures forall u :: 0 <= u < |s.consumers| && u != t ==> s'.consumers[u] == s.consumers[u]
    ensures if s'.consumers[t].Free?
      then |s'.delivered| > 0 && s'.delivered[|s'.delivered| - 1].first == s.consumers[t].first
           && s.consumers[t].first + |s'.delivered[|s'.delivered| - 1].values| == s.consumers[t].e
      else s'.consumers[t].first == s.consumers[t].first && s'.consumers[t].e == s.consumers[t].e
  {
    assert ConsumerOk(s, g, s.consumers[t]);
  }

  lemma ProducerKeeps(s: State, s': State)
    requires Produces(s, s')
    ensures s'.head == s.head && s'.consumers == s.consumers && s'.delivered == s.delivered && s.tail <= s'.tail
  {
  }

  lemma ConsumeCovers(s: State, g: Ghost, s': State, t: nat, x: nat)
    requires Inv(s, g) && Consumes(s, s', t) && Covered(s, x)
    ensures Covered(s', x)
  {
    ConsumeOwner(s, g, s', t);
    if s'.consumers[t].Free? && Owns(s.consumers[t], x) { assert Within(s'.delivered[|s'.delivered| - 1], x); }
    CoveredKeeps(s, s', x);
  }

  lemma ClaimCovers(s: State, s': State, t: nat, n: nat, x: nat)
    requires Claims(s, s', t, n) && x < s'.head && (x < s.head ==> Covered(s, x))
    ensures Covered(s', x)
  {
    if x < s.head { CoveredKeeps(s, s', x); } else { assert Owns(s'.consumers[t], x); }
  }

  lemma StepCovers(s: State, g: Ghost, s': State, x: nat)
    requires Inv(s, g) && Step(s, s') && x < s'.head && (x < s.head ==> Covered(s, x))
    ensures Covered(s', x)
  {
    if Produces(s, s') {
      ProducerKeeps(s, s');
      CoveredKeeps(s, s', x);
    } else if t, n :| Claims(s, s', t, n) {
      ClaimCovers(s, s', t, n, x);
    } else {
      var t :| Consumes(s, s', t);
      ConsumeOwner(s, g, s', t);
      ConsumeCovers(s, g, s', t, x);
    }
  }

  /** No index is returned by two calls. */
  lemma DeliversOnce(run: seq<State>, i: nat, k: nat, l: nat)
    requires IsRun(run) && i < |run| && k < l < |run[i].delivered|
    ensures Separate(run[i].delivered[k], run[i].delivered[l])
  {
    var g := RunInv(run, i);
  }

  /** The last flag of the block ahead of the tail block has been found set. */
  ghost predicate Reuses(s: State) {
    && ProducerInRange(s) && s.producer.Scan? && s.producer.j + 1 == BLOCK_SIZE
    && s.flags[s.next[s.tailBlock.block]][s.producer.j]
  }

  /** When a block is reused no consumer reads its elements or is about to set its flags. */
  lemma ReusedUnseen(run: seq<State>, i: nat, t: nat)
    requires IsRun(run) && i < |run| && t < |run[i].consumers| && Reuses(run[i])
    requires run[i].consumers[t].Read? || run[i].consumers[t].Release?
    ensures run[i].consumers[t].b != run[i].next[run[i].tailBlock.block]
  {
    var g := RunInv(run, i);
    ReusedAlone(run[i], g, run[i].consumers[t]);
  }

  lemma ReusedAlone(s: State, g: Ghost, pc: ConsumerPc)
    requires Inv(s, g) && Reuses(s) && pc in s.consumers && (pc.Read? || pc.Release?)
    ensures pc.b != s.next[s.tailBlock.block]
  {
    RingNext(s, g);
    assert ConsumerOk(s, g, pc);
    if pc.from / BLOCK_SIZE == Oldest(s, g) {
      AllSeen(s, g);
      NoneHolds(s, g, pc);
    } else {
      assert g.blk[pc.from / BLOCK_SIZE] != g.blk[|g.blk| - s.used];
    }
  }

  lemma AllSeen(s: State, g: Ghost)
    requires Inv(s, g) && Reuses(s)
    ensures OldestScanned(s, g, BLOCK_SIZE)
  {
    RingNext(s, g);
  }

  lemma NoneHolds(s: State, g: Ghost, pc: ConsumerPc)
    requires FlagsOk(s, g) && OldestScanned(s, g, BLOCK_SIZE) && pc in s.consumers && !pc.Free?
    requires Low(pc) < pc.e && (pc.Release? ==> pc.from < pc.j)
    ensures Low(pc) / BLOCK_SIZE != Oldest(s, g)
  {
    HoldsLow(pc);
    if Low(pc) / BLOCK_SIZE == Oldest(s, g) { OldestIsDone(s, g, Low(pc)); }
  }

  /** No step of any thread ever accesses a block, slot, flag or index entry that
      does not exist, so no thread gets stuck. */
  lemma AccessesInRange(run: seq<State>, i: nat, t: nat)
    requires IsRun(run) && i < |run| && t < |run[i].consumers|
    ensures ProducerInRange(run[i])
    ensures !run[i].consumers[t].Free? ==> ConsumerInRange(run[i], run[i].consumers[t])
  {
    var g := RunInv(run, i);
    ProducerReady(run[i], g);
    if !run[i].consumers[t].Free? { ConsumerReady(run[i], g, t); }
  }

  lemma ConsumerReady(s: State, g: Ghost, t: nat)
    requires Inv(s, g) && t < |s.consumers| && !s.consumers[t].Free?
    ensures ConsumerInRange(s, s.consumers[t])
  {
    match s.consumers[t]
    case LoadIndex(_, _) =>
    case LoadFront(_, _, _) => assert ConsumerOk(s, g, s.consumers[t]);
    case LoadBase(_, _, _, _) => LoadBaseStep(s, g, t);
    case LoadBlock(_, _, _, _, _, _) => LoadBlockStep(s, g, t);
    case Read(_, _, _, _, _, _, _, _) => ReadStep(s, g, t);
    case Release(_, _, _, _, _, _, _, _, _) => ReleaseStep(s, g, t);
  }

  /** The assertion of `set_empty` never fails: a flag is set once per use. */
  lemma FlagWasClear(run: seq<State>, i: nat, t: nat)
    requires IsRun(run) && i < |run| && t < |run[i].consumers| && run[i].consumers[t].Release?
    ensures var s, pc := run[i], run[i].consumers[t];
      pc.b < |s.flags| && pc.j > 0 && |s.flags[pc.b]| == BLOCK_SIZE && !s.flags[pc.b][FlagOf(pc.j - 1)]
  {
    var g := RunInv(run, i);
    ReleasesHeld(run[i], g, t);
  }

  /** The assertion of `enqueue` never fails: the tail does not compare less than
      the head, as long as fewer than 2^58 blocks are linked, and no index of more
      entries can be allocated. */
  lemma TailNotBehindHead(run: seq<State>, i: nat)
    requires IsRun(run) && i < |run|
    ensures !CircularLess(Wrap(run[i].tail), Wrap(run[i].head))
    ensures run[i].tail - run[i].head <= HALF
  {
    var s := run[i];
    var g := RunInv(run, i);
    var c := |s.indexes| - 1;
    assert IndexOk(s.indexes[c], g, g.lo[c], g.hi[c], g.off[c], g.pub[c]);
    var k :| INITIAL_INDEX_SIZE_LOG <= k <= MAX_INDEX_SIZE_LOG && s.indexes[c].size == Pow2(k);
    Pow2Monotone(k, MAX_INDEX_SIZE_LOG);
    Pow2Is59();
    CircularLessIsLess(s.tail, s.head);
  }
}
