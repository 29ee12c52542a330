/** One implicit producer and its block index (`ImplicitProducer` in concurrentqueue.h).

    The index is a circular array of pointers to entries.  A doubled index shares the
    entries of the old one, so that a consumer may still look through any older header.
    An entry is taken again once its value has been set to null by the consumer that
    counted the last element of its block; other producers and consumers do not write to
    it.  The steps here are those that touch nothing but the producer's own memory. */
module ImplicitIndex {
  import opened Words
  import opened Circular

  type Value = int

  const BLOCK_SIZE: nat := 32
  const INITIAL_INDEX_SIZE_LOG: nat := 5
  const INVALID_BLOCK_BASE: nat := 1
  /** No allocator returns an index of more than 2^58 entries. */
  const MAX_INDEX_SIZE_LOG: nat := 58

  datatype Link = Nil | To(block: nat)

  /** `BlockIndexEntry`; `key` is a word. */
  datatype Entry = Entry(key: nat, value: Link)

  /** `BlockIndexHeader`; `index` holds positions in the memory of entries.  The last two
      fields are history: block number `n` is in slot `n + off`, and a header that has been
      replaced was used for the numbers below `hi`. */
  datatype Header = Header(index: seq<nat>, tail: nat, off: int, hi: nat)

  /** What became of a block number: its block, how many of its elements have been counted,
      and whether its entry has been set to null. */
  datatype Lot = Lot(block: nat, done: nat, cleared: bool)

  /** The next shared access of `enqueue(v)`. */
  datatype Pc =
    | Idle
    | LoadHead(v: Value)           // load headIndex, test for room
    | Test(v: Value)               // insert_block_index_entry: load the next entry
    | Grow(v: Value)               // new_block_index: store blockIndex
    | SetKey(v: Value)             // store the key of the entry
    | SetSlot(v: Value)            // store the tail of the header
    | Pool(v: Value)               // requisition_block: the initial pool
    | TryGet(v: Value)             // requisition_block: inside freeList.try_get
    | Create(v: Value)             // requisition_block: allocate
    | Rewind                       // no block: store the tail of the header
    | ClearNew                     // no block: store null in the entry
    | Reset(v: Value, b: nat)      // reset_empty
    | Install(v: Value, b: nat)    // store the block in the entry
    | Write(v: Value)              // construct the element
    | SetTail(v: Value)            // store tailIndex

  /** `items` is the history of enqueued elements, of which `tailIndex` is the number.  The
      last three fields are history: one lot for each block number so far, how many keys
      have been stored, and from which number on entries have not been taken again. */
  datatype Producer = Producer(
    head: nat, items: seq<Value>, tailBlock: Link, entries: seq<Entry>, headers: seq<Header>, pc: Pc,
    lots: seq<Lot>, keyed: nat, lo: nat)

  ghost predicate Init(p: Producer) {
    && p.head == p.keyed == p.lo == 0 && p.items == [] && p.tailBlock == Nil && p.pc == Idle && p.lots == []
    && |p.entries| == Pow2(INITIAL_INDEX_SIZE_LOG)
    && (forall j :: 0 <= j < |p.entries| ==> p.entries[j].key == INVALID_BLOCK_BASE)
    && |p.headers| == 1
    && p.headers[0] == Header(seq(|p.entries|, j requires 0 <= j < |p.entries| => j), |p.entries| - 1, 0, 0)
  }

  // ---- steps -------------------------------------------------------------

  ghost predicate SizeOk(size: nat) {
    exists k :: INITIAL_INDEX_SIZE_LOG <= k <= MAX_INDEX_SIZE_LOG && size == Pow2(k)
  }

  /** A header has slots, and they point to entries that exist. */
  ghost predicate HeaderShaped(x: Header, count: nat) {
    && SizeOk(|x.index|) && x.tail < |x.index|
    && forall j :: 0 <= j < |x.index| ==> x.index[j] < count
  }

  ghost predicate Shaped(p: Producer) {
    && p.headers != []
    && forall h :: 0 <= h < |p.headers| ==> HeaderShaped(p.headers[h], |p.entries|)
  }

  function Last(p: Producer): nat
    requires p.headers != []
  {
    |p.headers| - 1
  }

  function Current(p: Producer): Header
    requires p.headers != []
  {
    p.headers[|p.headers| - 1]
  }

  /** The slot `k` behind that of the tail. */
  function Behind(x: Header, k: int): (slot: nat)
    requires x.tail < |x.index|
    ensures slot < |x.index|
  {
    (x.tail + k) % |x.index|
  }

  function NextEntry(x: Header): nat
    requires x.tail < |x.index|
  {
    x.index[Behind(x, 1)]
  }

  /** The doubled index: the slots of the old one from behind its newest on, then new
      entries.  Numbers from `q` on go to the new ones. */
  function GrownHeader(x: Header, count: nat, q: nat): Header
    requires x.tail < |x.index|
  {
    var n := |x.index|;
    Header(seq(2 * n, j requires 0 <= j < 2 * n => if j < n then x.index[Behind(x, 1 + j)] else count + j - n),
           n - 1, n - q, 0)
  }

  /** Entries as they are allocated; their values are not initialised. */
  predicate Blank(entries: seq<Entry>) {
    forall j :: 0 <= j < |entries| ==> entries[j].key == INVALID_BLOCK_BASE
  }

  function SetCurrent(p: Producer, x: Header): Producer
    requires p.headers != []
  {
    p.(headers := p.headers[Last(p) := x])
  }

  function Grown(p: Producer, more: seq<Entry>): Producer
    requires p.headers != [] && Current(p).tail < |Current(p).index|
  {
    var x, q := Current(p), |p.lots|;
    p.(headers := p.headers[Last(p) := x.(hi := q)] + [GrownHeader(x, |p.entries|, q)], entries := p.entries + more)
  }

  function SetKeyOf(p: Producer, e: nat, key: nat): Producer
    requires e < |p.entries|
  {
    p.(entries := p.entries[e := p.entries[e].(key := key)])
  }

  function SetValueOf(p: Producer, e: nat, value: Link): Producer
    requires e < |p.entries|
  {
    p.(entries := p.entries[e := p.entries[e].(value := value)])
  }

  function Larger(a: int, b: int): int { if a >= b then a else b }

  /** The steps of `enqueue` on the producer's own memory; `more` are the entries that an
      allocation yields, none if it fails. */
  ghost predicate LocalStep(p: Producer, p': Producer, v: Value, more: seq<Entry>)
    requires Shaped(p)
  {
    var x, tail := Current(p), |p.items|;
    var e := NextEntry(x);
    match p.pc
    case Idle => p' == p.(pc := if tail % BLOCK_SIZE == 0 then LoadHead(v) else Write(v))
    case LoadHead(w) =>
      p' == p.(pc := if CircularLess(Wrap(p.head), Wrap(tail + BLOCK_SIZE)) then Test(w) else Idle)
    case Test(w) =>
      p' == p.(pc := if p.entries[e].key == INVALID_BLOCK_BASE || p.entries[e].value.Nil? then SetKey(w) else Grow(w))
    case Grow(w) =>
      if more == [] || |x.index| >= Pow2(MAX_INDEX_SIZE_LOG) then p' == p.(pc := Idle)
      else |more| == |x.index| && Blank(more) && p' == Grown(p, more).(pc := SetKey(w))
    case SetKey(w) =>
      p' == SetKeyOf(p, e, Wrap(tail)).(pc := SetSlot(w), keyed := |p.lots| + 1,
          lo := Larger(p.lo, |p.lots| + 1 - |x.index|))
    case SetSlot(w) => p' == SetCurrent(p, x.(tail := Behind(x, 1))).(pc := Pool(w))
    case Rewind => p' == SetCurrent(p, x.(tail := Behind(x, -1))).(pc := ClearNew)
    case ClearNew => p' == SetValueOf(p, e, Nil).(pc := Idle)
    case SetTail(w) => p' == p.(items := p.items + [w], pc := Idle)
    case _ => false
  }

  /** The entry of the new block is filled, and elements go to the block from now on. */
  function Installed(p: Producer, v: Value, b: nat): Producer
    requires p.headers != [] && Current(p).tail < |Current(p).index|
    requires Current(p).index[Current(p).tail] < |p.entries|
  {
    SetValueOf(p, Current(p).index[Current(p).tail], To(b)).(
        tailBlock := To(b), pc := Write(v), lots := p.lots + [Lot(b, 0, false)])
  }

  /** A consumer sets the entry of number `n` to null. */
  function Cleared(p: Producer, e: nat, n: nat): Producer
    requires e < |p.entries| && n < |p.lots|
  {
    SetValueOf(p, e, Nil).(lots := p.lots[n := p.lots[n].(cleared := true)])
  }

  function Counted(p: Producer, n: nat, k: nat): Producer
    requires n < |p.lots|
  {
    p.(lots := p.lots[n := p.lots[n].(done := p.lots[n].done + k)])
  }

  // ---- the invariant of the index ----------------------------------------

  function SlotIn(x: Header, n: int): (slot: nat)
    requires |x.index| > 0
    ensures slot < |x.index|
  {
    Slot(n, x.off, |x.index|)
  }

  /** The entry of number `n` as seen through header `x`. */
  function EntryIn(x: Header, n: int): nat
    requires |x.index| > 0
  {
    x.index[SlotIn(x, n)]
  }

  function ValueOf(l: Lot): Link { if l.cleared then Nil else To(l.block) }

  /** Whether the newest tail of the current header covers the number to come. */
  function Ahead(pc: Pc): nat {
    match pc
    case Pool(_) => 1
    case TryGet(_) => 1
    case Create(_) => 1
    case Rewind => 1
    case Reset(_, _) => 1
    case Install(_, _) => 1
    case _ => 0
  }

  /** The numbers that may be looked for through header `h`. */
  function Hi(p: Producer, h: nat): nat
    requires h < |p.headers|
  {
    if h + 1 == |p.headers| then p.keyed else p.headers[h].hi
  }

  predicate Distinct(index: seq<nat>) {
    forall i, j :: 0 <= i < j < |index| ==> index[i] != index[j]
  }

  ghost predicate KeyOk(entries: seq<Entry>, x: Header, n: nat)
    requires HeaderShaped(x, |entries|)
  {
    entries[EntryIn(x, n)].key == Wrap(n * BLOCK_SIZE)
  }

  ghost predicate ValueOk(entries: seq<Entry>, x: Header, n: nat, value: Link)
    requires HeaderShaped(x, |entries|)
  {
    entries[EntryIn(x, n)].value == value
  }

  ghost predicate KeysOk(p: Producer)
    requires Shaped(p)
  {
    forall n :: p.lo <= n < p.keyed ==> KeyOk(p.entries, Current(p), n)
  }

  ghost predicate ValuesOk(p: Producer)
    requires Shaped(p)
  {
    && (forall n :: p.lo <= n < |p.lots| ==> ValueOk(p.entries, Current(p), n, ValueOf(p.lots[n])))
    && forall n :: 0 <= n < p.lo && n < |p.lots| ==> p.lots[n].cleared
  }

  /** Two headers lead to the same entry. */
  predicate Agree(x: Header, y: Header, n: nat)
    requires |x.index| > 0 && |y.index| > 0
  {
    EntryIn(x, n) == EntryIn(y, n)
  }

  ghost predicate OldHeaderOk(p: Producer, h: nat)
    requires Shaped(p) && h < |p.headers|
  {
    var x := p.headers[h];
    && x.hi <= |p.lots| && x.tail == SlotIn(x, x.hi - 1)
    && forall n :: p.lo <= n < x.hi ==> Agree(x, Current(p), n)
  }

  ghost predicate HeadersOk(p: Producer)
    requires Shaped(p)
  {
    && (forall h :: 0 <= h < Last(p) ==> OldHeaderOk(p, h))
    && Distinct(Current(p).index)
    && Current(p).tail == SlotIn(Current(p), |p.lots| + Ahead(p.pc) - 1)
  }

  /** Which numbers the steps of a call find. */
  ghost predicate NumbersOk(p: Producer) {
    var q := |p.lots|;
    && p.head <= |p.items| && p.lo <= q <= p.keyed <= q + 1
    && match p.pc
       case Idle => |p.items| <= q * BLOCK_SIZE < |p.items| + BLOCK_SIZE
       case Write(_) => |p.items| < q * BLOCK_SIZE <= |p.items| + BLOCK_SIZE
       case SetTail(_) => |p.items| < q * BLOCK_SIZE <= |p.items| + BLOCK_SIZE
       case _ => |p.items| == q * BLOCK_SIZE
  }

  /** Whether the key of the number to come is that of the running call. */
  predicate Keyed(pc: Pc) {
    !(pc.Idle? || pc.LoadHead? || pc.Test? || pc.Grow? || pc.SetKey? || pc.Write? || pc.SetTail?)
  }

  /** The entry of the number to come: a call that got no block has left it null. */
  ghost predicate NextOk(p: Producer)
    requires Shaped(p)
  {
    var q, size := |p.lots|, |Current(p).index|;
    && p.keyed - p.lo <= size
    && (Keyed(p.pc) ==> p.keyed == q + 1)
    && (!Keyed(p.pc) && p.keyed == q + 1 ==> ValueOk(p.entries, Current(p), q, Nil))
    && (p.pc.Grow? ==> p.keyed == q)
    && (p.pc.SetKey? && p.lo <= q - size ==> p.lots[q - size].cleared)
  }

  ghost predicate IndexOk(p: Producer) {
    && Shaped(p) && NumbersOk(p) && KeysOk(p) && ValuesOk(p) && HeadersOk(p) && NextOk(p)
    && p.tailBlock == if p.lots == [] then Nil else To(p.lots[|p.lots| - 1].block)
  }

  // ---- slots and entries ---------------------------------------------------

  lemma BehindIs(x: Header, q: int, k: int)
    requires |x.index| > 0 && x.tail == SlotIn(x, q - 1)
    ensures Behind(x, k) == SlotIn(x, q - 1 + k)
  {
    var a := q - 1 + x.off;
    AddMod(a, k, |x.index|);
    assert a + k == q - 1 + k + x.off;
  }

  lemma EntriesDiffer(x: Header, n: int, m: int)
    requires |x.index| > 0 && Distinct(x.index) && n < m < n + |x.index|
    ensures EntryIn(x, n) != EntryIn(x, m)
  {
    SlotDistinct(n, m, x.off, |x.index|);
  }

  /** Numbers one round apart share their entry. */
  lemma OneRound(x: Header, q: int)
    requires |x.index| > 0
    ensures EntryIn(x, q - |x.index|) == EntryIn(x, q)
  {
    ModOfMultiple(q + x.off, |x.index|, -1);
  }

  lemma KeyIsValid(n: nat)
    ensures Wrap(n * BLOCK_SIZE) != INVALID_BLOCK_BASE
  {
  }

  // ---- the steps keep the index in order -------------------------------------

  /** Steps that change neither entries nor headers. */
  lemma PcStep(p: Producer, p': Producer)
    requires IndexOk(p) && p' == p.(pc := p'.pc, items := p'.items)
    requires NumbersOk(p') && NextOk(p') && Ahead(p'.pc) == Ahead(p.pc)
    ensures IndexOk(p')
  {
    OldHeadersStay(p, p');
  }

  lemma TestStep(p: Producer, p': Producer, v: Value)
    requires IndexOk(p) && p.pc.Test? && LocalStep(p, p', v, [])
    ensures IndexOk(p')
  {
    var x, q, size := Current(p), |p.lots|, |Current(p).index|;
    BehindIs(x, q, 1);
    assert p.entries[EntryIn(x, q)] == p.entries[NextEntry(x)];
    if p.keyed == q + 1 { assert ValueOk(p.entries, x, q, Nil); }
    if p.lo <= q - size {
      OneRound(x, q);
      KeyIsValid(q - size);
      assert KeyOk(p.entries, x, q - size) && ValueOk(p.entries, x, q - size, ValueOf(p.lots[q - size]));
    }
    PcStep(p, p');
  }

  /** The key of number `q` is stored; no other number of the window has that entry. */
  lemma KeyStored(entries: seq<Entry>, x: Header, q: nat, lo: nat, n: nat)
    requires HeaderShaped(x, |entries|) && Distinct(x.index) && q - |x.index| < n <= q
    requires n < q ==> KeyOk(entries, x, n)
    ensures var e := EntryIn(x, q);
      KeyOk(entries[e := entries[e].(key := Wrap(q * BLOCK_SIZE))], x, n)
  {
    if n < q { EntriesDiffer(x, n, q); }
  }

  lemma SetKeyStep(p: Producer, p': Producer, v: Value)
    requires IndexOk(p) && p.pc.SetKey? && LocalStep(p, p', v, [])
    ensures IndexOk(p')
  {
    var x, q := Current(p), |p.lots|;
    BehindIs(x, q, 1);
    forall n | p'.lo <= n < p'.keyed ensures KeyOk(p'.entries, x, n) { KeyStored(p.entries, x, q, p'.lo, n); }
    forall n | p'.lo <= n < q ensures ValueOk(p'.entries, x, n, ValueOf(p'.lots[n])) {
      assert ValueOk(p.entries, x, n, ValueOf(p.lots[n]));
    }
    forall h | 0 <= h < Last(p') ensures OldHeaderOk(p', h) { assert OldHeaderOk(p, h); }
  }

  lemma SetTailSlotStep(p: Producer, p': Producer, k: int)
    requires IndexOk(p) && p' == SetCurrent(p, Current(p).(tail := Behind(Current(p), k))).(pc := p'.pc)
    requires Ahead(p'.pc) == Ahead(p.pc) + k && NumbersOk(p') && Keyed(p.pc) && Keyed(p'.pc)
    ensures IndexOk(p')
  {
    var x, y, q := Current(p), Current(p'), |p.lots|;
    BehindIs(x, q + Ahead(p.pc), k);
    assert forall h :: 0 <= h < |p'.headers| ==> HeaderShaped(p.headers[h], |p.entries|);
    forall n | p.lo <= n < p.keyed ensures KeyOk(p'.entries, y, n) { assert KeyOk(p.entries, x, n); }
    forall n | p.lo <= n < q ensures ValueOk(p'.entries, y, n, ValueOf(p'.lots[n])) {
      assert ValueOk(p.entries, x, n, ValueOf(p.lots[n]));
    }
    forall h | 0 <= h < Last(p') ensures OldHeaderOk(p', h) {
      assert OldHeaderOk(p, h);
      forall n | p'.lo <= n < p'.headers[h].hi ensures Agree(p'.headers[h], y, n) { assert Agree(p.headers[h], x, n); }
    }
  }

  /** The value of the entry of number `n` is replaced; no other number has that entry. */
  lemma OtherValues(p: Producer, p': Producer, n: nat, value: Link)
    requires IndexOk(p) && p.lo <= n < p.keyed && p'.headers == p.headers && p'.lo == p.lo
    requires p'.entries == SetValueOf(p, EntryIn(Current(p), n), value).entries
    ensures Shaped(p') && ValueOk(p'.entries, Current(p'), n, value)
    ensures forall m :: p.lo <= m < p.keyed ==> KeyOk(p'.entries, Current(p'), m)
    ensures forall m :: p.lo <= m < |p.lots| && m != n ==>
              ValueOk(p'.entries, Current(p'), m, ValueOf(p.lots[m]))
  {
    var x := Current(p);
    forall h | 0 <= h < |p'.headers| ensures HeaderShaped(p'.headers[h], |p'.entries|) {
      assert HeaderShaped(p.headers[h], |p.entries|);
    }
    forall m | p.lo <= m < p.keyed ensures KeyOk(p'.entries, x, m) { assert KeyOk(p.entries, x, m); }
    forall m | p.lo <= m < |p.lots| && m != n ensures ValueOk(p'.entries, x, m, ValueOf(p.lots[m])) {
      assert ValueOk(p.entries, x, m, ValueOf(p.lots[m]));
      if m < n { EntriesDiffer(x, m, n); } else { EntriesDiffer(x, n, m); }
    }
  }

  lemma OldHeadersStay(p: Producer, p': Producer)
    requires IndexOk(p) && Shaped(p') && p'.headers == p.headers && p'.lo == p.lo && |p'.lots| >= |p.lots|
    ensures forall h :: 0 <= h < Last(p') ==> OldHeaderOk(p', h)
  {
    forall h | 0 <= h < Last(p') ensures OldHeaderOk(p', h) { assert OldHeaderOk(p, h); }
  }

  lemma ClearNewStep(p: Producer, p': Producer, v: Value)
    requires IndexOk(p) && p.pc.ClearNew? && LocalStep(p, p', v, [])
    ensures IndexOk(p')
  {
    BehindIs(Current(p), |p.lots|, 1);
    OtherValues(p, p', |p.lots|, Nil);
    OldHeadersStay(p, p');
  }

  lemma InstallStep(p: Producer, v: Value, b: nat)
    requires IndexOk(p) && p.pc == Install(v, b)
    ensures Current(p).index[Current(p).tail] < |p.entries|
    ensures IndexOk(Installed(p, v, b))
  {
    var p' := Installed(p, v, b);
    OtherValues(p, p', |p.lots|, To(b));
    OldHeadersStay(p, p');
  }

  lemma ClearedNext(p: Producer, p': Producer, n: nat)
    requires IndexOk(p) && n < |p.lots| && EntryIn(Current(p), n) < |p.entries|
    requires p' == Cleared(p, EntryIn(Current(p), n), n) && Shaped(p')
    ensures NumbersOk(p') && NextOk(p')
  {
    if !Keyed(p.pc) && p.keyed == |p.lots| + 1 { assert ValueOk(p.entries, Current(p), |p.lots|, Nil); }
  }

  lemma ClearedEntries(p: Producer, p': Producer, n: nat)
    requires IndexOk(p) && n < |p.lots| && !p.lots[n].cleared && EntryIn(Current(p), n) < |p.entries|
    requires p' == Cleared(p, EntryIn(Current(p), n), n)
    ensures Shaped(p') && KeysOk(p') && ValuesOk(p')
  {
    OtherValues(p, p', n, Nil);
  }

  lemma ClearStep(p: Producer, n: nat)
    requires IndexOk(p) && n < |p.lots| && !p.lots[n].cleared
    ensures EntryIn(Current(p), n) < |p.entries|
    ensures IndexOk(Cleared(p, EntryIn(Current(p), n), n))
  {
    assert HeaderShaped(Current(p), |p.entries|);
    var p' := Cleared(p, EntryIn(Current(p), n), n);
    ClearedEntries(p, p', n);
    OldHeadersStay(p, p');
    ClearedNext(p, p', n);
  }

  lemma CountedOk(p: Producer, n: nat, k: nat)
    requires IndexOk(p) && n < |p.lots|
    ensures IndexOk(Counted(p, n, k))
  {
    var p' := Counted(p, n, k);
    assert forall j :: 0 <= j < |p.lots| ==> ValueOf(p'.lots[j]) == ValueOf(p.lots[j]);
    OldHeadersStay(p, p');
  }

  // ---- the doubled index -----------------------------------------------------

  /** A number of the last round is in the first half of the doubled index. */
  lemma GrownEntry(x: Header, count: nat, q: nat, n: nat)
    requires |x.index| > 0 && x.tail == SlotIn(x, q - 1) && q - |x.index| <= n < q
    ensures EntryIn(GrownHeader(x, count, q), n) == EntryIn(x, n)
  {
    var size := |x.index|;
    GrownSlot(n, q, size, n + size - q);
    GrownSame(x, q, n + size - q, n + size);
    OneRound(x, n + size);
  }

  lemma GrownSlot(n: nat, q: nat, size: nat, j: nat)
    requires j == n + size - q && j < size
    ensures Slot(n, size - q, 2 * size) == j
  {
    RemainderIs(j, 2 * size, 0, j);
  }

  lemma GrownSame(x: Header, q: nat, j: nat, m: int)
    requires |x.index| > 0 && x.tail == SlotIn(x, q - 1) && m == q + j
    ensures x.index[Behind(x, 1 + j)] == EntryIn(x, m)
  {
    BehindIs(x, q, 1 + j);
  }

  lemma OldSlotsDiffer(x: Header, q: nat, i: nat, j: nat)
    requires |x.index| > 0 && Distinct(x.index) && x.tail == SlotIn(x, q - 1) && i < j < |x.index|
    ensures x.index[Behind(x, 1 + i)] != x.index[Behind(x, 1 + j)]
  {
    GrownSame(x, q, i, q + i);
    GrownSame(x, q, j, q + j);
    EntriesDiffer(x, q + i, q + j);
  }

  lemma GrownDistinct(x: Header, count: nat, q: nat)
    requires HeaderShaped(x, count) && Distinct(x.index) && x.tail == SlotIn(x, q - 1)
    ensures Distinct(GrownHeader(x, count, q).index)
  {
    var size, y := |x.index|, GrownHeader(x, count, q);
    forall i, j | 0 <= i < j < 2 * size ensures y.index[i] != y.index[j] {
      if j < size {
        OldSlotsDiffer(x, q, i, j);
      } else if i < size {
        assert y.index[i] == x.index[Behind(x, 1 + i)];
      }
    }
  }

  lemma GrownShaped(x: Header, count: nat, q: nat)
    requires HeaderShaped(x, count) && |x.index| < Pow2(MAX_INDEX_SIZE_LOG)
    ensures HeaderShaped(GrownHeader(x, count, q), count + |x.index|)
  {
    var k :| INITIAL_INDEX_SIZE_LOG <= k <= MAX_INDEX_SIZE_LOG && |x.index| == Pow2(k);
    assert k < MAX_INDEX_SIZE_LOG;
    assert 2 * |x.index| == Pow2(k + 1);
  }

  lemma GrownAll(p: Producer, more: seq<Entry>)
    requires IndexOk(p) && |more| == |Current(p).index| < Pow2(MAX_INDEX_SIZE_LOG)
    ensures Shaped(Grown(p, more))
  {
    var p', x := Grown(p, more), Current(p);
    assert HeaderShaped(x, |p.entries|);
    GrownShaped(x, |p.entries|, |p.lots|);
    forall h | 0 <= h < |p'.headers| ensures HeaderShaped(p'.headers[h], |p'.entries|) {
      if h < |p.headers| { MoreEntries(p.headers[h], p'.headers[h], |p.entries|, |p'.entries|); }
    }
  }

  lemma MoreEntries(x: Header, y: Header, count: nat, count': nat)
    requires HeaderShaped(x, count) && count <= count' && y.index == x.index && y.tail == x.tail
    ensures HeaderShaped(y, count')
  {
  }

  lemma GrownEntries(p: Producer, p': Producer)
    requires IndexOk(p) && Shaped(p') && p.keyed == p'.keyed == |p.lots| && p'.lots == p.lots && p'.lo == p.lo
    requires |p.entries| <= |p'.entries| && p'.entries[..|p.entries|] == p.entries
    requires forall n :: p.lo <= n < |p.lots| ==> Agree(Current(p), Current(p'), n)
    ensures KeysOk(p') && ValuesOk(p')
  {
    var x, y := Current(p), Current(p');
    forall n | p'.lo <= n < p'.keyed ensures KeyOk(p'.entries, y, n) {
      assert KeyOk(p.entries, x, n) && Agree(x, y, n);
    }
    forall n | p'.lo <= n < |p'.lots| ensures ValueOk(p'.entries, y, n, ValueOf(p'.lots[n])) {
      assert ValueOk(p.entries, x, n, ValueOf(p.lots[n])) && Agree(x, y, n);
    }
  }

  lemma GrowStep(p: Producer, p': Producer, w: Value, more: seq<Entry>)
    requires IndexOk(p) && p.pc.Grow? && |more| == |Current(p).index| < Pow2(MAX_INDEX_SIZE_LOG)
    requires p' == Grown(p, more).(pc := SetKey(w))
    ensures IndexOk(p')
  {
    var x, y, q := Current(p), Current(p'), |p.lots|;
    GrownAll(p, more);
    GrownAgrees(p, p');
    GrownEntries(p, p');
    GrownOlds(p, p', w, more);
    GrownDistinct(x, |p.entries|, q);
    GrownTail(x, |p.entries|, q);
  }

  lemma GrownAgrees(p: Producer, p': Producer)
    requires IndexOk(p) && p.pc.Grow? && Shaped(p') && Current(p') == GrownHeader(Current(p), |p.entries|, |p.lots|)
    ensures forall n :: p.lo <= n < |p.lots| ==> Agree(Current(p), Current(p'), n)
  {
    forall n | p.lo <= n < |p.lots| ensures Agree(Current(p), Current(p'), n) {
      GrownEntry(Current(p), |p.entries|, |p.lots|, n);
    }
  }

  lemma GrownOlds(p: Producer, p': Producer, w: Value, more: seq<Entry>)
    requires IndexOk(p) && p.pc.Grow? && Shaped(p') && p' == Grown(p, more).(pc := SetKey(w))
    requires forall n :: p.lo <= n < |p.lots| ==> Agree(Current(p), Current(p'), n)
    ensures forall h :: 0 <= h < Last(p') ==> OldHeaderOk(p', h)
  {
    forall h | 0 <= h < Last(p') ensures OldHeaderOk(p', h) { GrownOld(p, p', h); }
  }

  /** The assertion of `insert_block_index_entry`: behind the newest entry of the doubled
      index there is one that was never used. */
  lemma GrownHasRoom(p: Producer, p': Producer, v: Value, more: seq<Entry>)
    requires IndexOk(p) && p.pc.Grow? && LocalStep(p, p', v, more) && p'.pc.SetKey?
    ensures IndexOk(p') && p'.entries[NextEntry(Current(p'))].key == INVALID_BLOCK_BASE
  {
    GrowKeeps(p, p', v, more);
    RemainderIs(|more|, 2 * |more|, 0, |more|);
  }

  lemma GrownTail(x: Header, count: nat, q: nat)
    requires x.tail < |x.index|
    ensures var y := GrownHeader(x, count, q); y.tail == SlotIn(y, q - 1)
  {
  }

  lemma GrownOld(p: Producer, p': Producer, h: nat)
    requires IndexOk(p) && p.pc.Grow? && h < |p.headers| && Shaped(p')
    requires |p'.headers| == |p.headers| + 1 && p'.lots == p.lots && p'.lo == p.lo
    requires p'.headers[h] == if h == Last(p) then Current(p).(hi := |p.lots|) else p.headers[h]
    requires forall n :: p.lo <= n < |p.lots| ==> Agree(Current(p), Current(p'), n)
    ensures OldHeaderOk(p', h)
  {
    var x := p'.headers[h];
    if h < Last(p) { assert OldHeaderOk(p, h); }
    forall n | p'.lo <= n < x.hi ensures Agree(x, Current(p'), n) {
      assert Agree(Current(p), Current(p'), n);
      if h < Last(p) { assert Agree(x, Current(p), n); } else { assert SlotIn(x, n) == SlotIn(Current(p), n); }
    }
  }

  lemma InitOk(p: Producer)
    requires Init(p)
    ensures IndexOk(p)
  {
    assert SizeOk(Pow2(INITIAL_INDEX_SIZE_LOG));
    assert HeaderShaped(p.headers[0], |p.entries|);
  }

  // ---- any step of the producer ----------------------------------------------

  /** What consumers rely on has not changed. */
  ghost predicate Later(p: Producer, p': Producer) {
    && |p.headers| <= |p'.headers| && |p.lots| <= |p'.lots| && p.head <= p'.head && p.items <= p'.items
    && (forall h :: 0 <= h < |p.headers| ==> SameHeader(p, p', h))
    && forall n :: 0 <= n < |p.lots| ==> p'.lots[n].block == p.lots[n].block
  }

  predicate SameHeader(p: Producer, p': Producer, h: nat)
    requires h < |p.headers| && h < |p'.headers|
  {
    p'.headers[h].index == p.headers[h].index && p'.headers[h].off == p.headers[h].off && Hi(p, h) <= Hi(p', h)
  }

  lemma GrowKeeps(p: Producer, p': Producer, v: Value, more: seq<Entry>)
    requires IndexOk(p) && p.pc.Grow? && LocalStep(p, p', v, more)
    ensures IndexOk(p')
  {
    if p' == p.(pc := Idle) { PcStep(p, p'); } else { GrowStep(p, p', p.pc.v, more); }
  }

  lemma SetSlotKeeps(p: Producer, p': Producer, v: Value, more: seq<Entry>)
    requires IndexOk(p) && (p.pc.SetSlot? || p.pc.Rewind?) && LocalStep(p, p', v, more)
    ensures IndexOk(p')
  {
    if p.pc.SetSlot? { SetTailSlotStep(p, p', 1); } else { SetTailSlotStep(p, p', -1); }
  }

  lemma WhetherFull(tail: nat, q: nat)
    requires tail <= q * BLOCK_SIZE < tail + BLOCK_SIZE
    ensures tail % BLOCK_SIZE == 0 <==> tail == q * BLOCK_SIZE
  {
  }

  /** The first and the last step of a call, and the test for room. */
  lemma OuterKeeps(p: Producer, p': Producer, v: Value, more: seq<Entry>)
    requires IndexOk(p) && (p.pc.Idle? || p.pc.LoadHead? || p.pc.SetTail?) && LocalStep(p, p', v, more)
    ensures IndexOk(p')
  {
    if p.pc.Idle? { WhetherFull(|p.items|, |p.lots|); }
    PcStep(p, p');
  }

  lemma StepKeeps(p: Producer, p': Producer, v: Value, more: seq<Entry>)
    requires IndexOk(p) && LocalStep(p, p', v, more)
    ensures IndexOk(p')
  {
    match p.pc
    case Test(_) => TestStep(p, p', v);
    case Grow(_) => GrowKeeps(p, p', v, more);
    case SetKey(_) => SetKeyStep(p, p', v);
    case SetSlot(_) => SetSlotKeeps(p, p', v, more);
    case Rewind => SetSlotKeeps(p, p', v, more);
    case ClearNew => ClearNewStep(p, p', v);
    case _ => OuterKeeps(p, p', v, more);
  }

  lemma StepIsLater(p: Producer, p': Producer, v: Value, more: seq<Entry>)
    requires IndexOk(p) && LocalStep(p, p', v, more)
    ensures Later(p, p') && p'.lots == p.lots && p'.head == p.head
    ensures p.items == p'.items || exists w :: p.pc == SetTail(w) && p'.items == p.items + [w]
  {
    forall h | 0 <= h < |p.headers| ensures SameHeader(p, p', h) {
      if h < Last(p) { assert OldHeaderOk(p, h); }
    }
  }

  // ---- looking up a block ------------------------------------------------------

  /** The word as a signed number. */
  function Signed(w: nat): int { if w < HALF then w else w - WORD }

  /** Division towards zero. */
  function Truncated(x: int, d: nat): int
    requires d > 0
  {
    if x >= 0 then x / d else -((-x) / d)
  }

  /** The signed difference of the word `index` rounded down to its block and a key, divided
      by the block size. */
  function BlocksFrom(index: nat, key: nat): int {
    Truncated(Signed(Wrap(Wrap(index) - Wrap(index) % BLOCK_SIZE - key)), BLOCK_SIZE)
  }

  /** Which slot a consumer looks in: that distance from the key at the tail is added to the
      tail as a word, and masked. */
  function LookupSlot(index: nat, key: nat, tail: nat, size: nat): nat
    requires size > 0
  {
    Wrap(tail + Wrap(BlocksFrom(index, key))) % size
  }

  /** Wrapping does not change the remainder. */
  ghost predicate FitsWord(size: nat) {
    size > 0 && forall y: int {:trigger Wrap(y)} :: Wrap(y) % size == y % size
  }

  lemma PowerFits(k: nat)
    requires k <= 64
    ensures FitsWord(Pow2(k))
  {
    PowersOfTwo();
    Pow2Divides(k, 64);
    forall y: int ensures Wrap(y) % Pow2(k) == y % Pow2(k) { WrapMod(y, Pow2(k), Pow2(64 - k)); }
  }

  lemma SizeFits(size: nat)
    requires SizeOk(size)
    ensures FitsWord(size)
  {
    var k :| INITIAL_INDEX_SIZE_LOG <= k <= MAX_INDEX_SIZE_LOG && size == Pow2(k);
    PowerFits(k);
  }

  lemma WrapMod(y: int, size: nat, c: nat)
    requires size > 0 && size * c == WORD
    ensures Wrap(y) % size == y % size
  {
    var rounds := -(y / WORD);
    Regroup(size, c, rounds);
    ModOfMultiple(y, size, c * rounds);
    assert Wrap(y) == y + WORD * rounds;
  }

  lemma Regroup(a: int, b: int, c: int)
    ensures (a * b) * c == a * (b * c)
  {
  }

  lemma PowersOfTwo()
    ensures Pow2(58) * BLOCK_SIZE == HALF && Pow2(64) == WORD
  {
    assert Pow2(16) == 16 * Pow2(12) == 256 * Pow2(8) == 4096 * Pow2(4) == 65536;
    Pow2Divides(16, 32);
    Pow2Divides(32, 64);
    assert Pow2(64) == 16 * Pow2(60) && Pow2(60) == 4 * Pow2(58);
  }

  lemma BaseOf(index: nat)
    ensures Wrap(index) - Wrap(index) % BLOCK_SIZE == Wrap((index / BLOCK_SIZE) * BLOCK_SIZE)
  {
    var rounds, r := index / WORD, index % WORD;
    assert index == WORD * rounds + r;
    assert index / BLOCK_SIZE == (WORD / BLOCK_SIZE) * rounds + r / BLOCK_SIZE;
  }

  /** The signed difference of two bases `d` blocks apart, in blocks. */
  lemma Offset(base: nat, top: nat, d: nat)
    requires top == base + d * BLOCK_SIZE && d * BLOCK_SIZE <= HALF
    ensures Truncated(Signed(Wrap(Wrap(base) - Wrap(top))), BLOCK_SIZE) + d == 0
  {
    WrapDifference(base, top);
    assert Wrap(-(d * BLOCK_SIZE)) == if d == 0 then 0 else WORD - d * BLOCK_SIZE;
  }

  lemma RoundIsShort(size: nat)
    requires SizeOk(size)
    ensures size * BLOCK_SIZE <= HALF
  {
    var k :| INITIAL_INDEX_SIZE_LOG <= k <= MAX_INDEX_SIZE_LOG && size == Pow2(k);
    Pow2Monotone(k, MAX_INDEX_SIZE_LOG);
    PowersOfTwo();
  }

  /** Hence the slot that is computed is that of the wanted number. */
  lemma LookupIsExact(n: nat, m: nat, index: nat, off: int, size: nat)
    requires SizeOk(size) && n == index / BLOCK_SIZE && n <= m && (m - n) * BLOCK_SIZE <= HALF
    ensures size > 0 && LookupSlot(index, Wrap(m * BLOCK_SIZE), Slot(m, off, size), size) == Slot(n, off, size)
  {
    SizeFits(size);
    DistanceIs(n, m, index);
    BackFrom(m, n - m, off, size, n);
  }

  lemma DistanceIs(n: nat, m: nat, index: nat)
    requires n == index / BLOCK_SIZE && n <= m && (m - n) * BLOCK_SIZE <= HALF
    ensures BlocksFrom(index, Wrap(m * BLOCK_SIZE)) == n - m
  {
    BaseOf(index);
    Offset(n * BLOCK_SIZE, m * BLOCK_SIZE, m - n);
  }

  /** Going back from the tail by subtracting words. */
  lemma BackFrom(m: nat, d: int, off: int, size: nat, n: nat)
    requires FitsWord(size) && n == m + d
    ensures Wrap(Slot(m, off, size) + Wrap(d)) % size == Slot(n, off, size)
  {
    var a := m + off;
    assert (a % size + Wrap(d)) % size == (a % size + d) % size by { SumMod(a % size, d, size); }
    AddMod(a, d, size);
    assert a + d == n + off;
  }

  lemma SumMod(tail: nat, d: int, size: nat)
    requires FitsWord(size)
    ensures (tail + Wrap(d)) % size == (tail + d) % size
  {
    AddMod(Wrap(d), tail, size);
    AddMod(d, tail, size);
    assert tail + Wrap(d) == Wrap(d) + tail && tail + d == d + tail;
  }

  /** An older header leads to the same entry. */
  lemma OldAgrees(p: Producer, h: nat, n: nat)
    requires IndexOk(p) && h < |p.headers| && p.lo <= n < Hi(p, h)
    ensures HeaderShaped(p.headers[h], |p.entries|) && Agree(p.headers[h], Current(p), n)
  {
    if h < Last(p) { assert OldHeaderOk(p, h); }
  }

  /** The assertions of a lookup: through any header that may be used for it, an entry that
      has not been set to null has the key and the block of its number, and the tail that
      was loaded has the key of a number in use. */
  lemma LookupFinds(p: Producer, h: nat, n: nat, m: nat)
    requires IndexOk(p) && h < |p.headers| && n < |p.lots| && !p.lots[n].cleared && n <= m < Hi(p, h)
    ensures var x := p.headers[h];
      && HeaderShaped(x, |p.entries|) && EntryIn(x, m) < |p.entries| && EntryIn(x, n) < |p.entries|
      && p.entries[EntryIn(x, m)].key == Wrap(m * BLOCK_SIZE)
      && p.entries[EntryIn(x, n)] == Entry(Wrap(n * BLOCK_SIZE), To(p.lots[n].block))
      && EntryIn(x, n) == EntryIn(Current(p), n)
  {
    OldAgrees(p, h, n);
    WithinRound(p, h, n, m);
    OldAgrees(p, h, m);
    EntryFound(p, n, m);
  }

  lemma EntryFound(p: Producer, n: nat, m: nat)
    requires IndexOk(p) && n < |p.lots| && !p.lots[n].cleared && n <= m < p.keyed
    ensures var x := Current(p);
      && EntryIn(x, n) < |p.entries| && EntryIn(x, m) < |p.entries|
      && p.entries[EntryIn(x, m)].key == Wrap(m * BLOCK_SIZE)
      && p.entries[EntryIn(x, n)] == Entry(Wrap(n * BLOCK_SIZE), To(p.lots[n].block))
  {
    assert KeyOk(p.entries, Current(p), m) && KeyOk(p.entries, Current(p), n);
    assert ValueOk(p.entries, Current(p), n, ValueOf(p.lots[n]));
  }

  /** The distance of the tail is less than one round. */
  lemma WithinRound(p: Producer, h: nat, n: nat, m: nat)
    requires IndexOk(p) && h < |p.headers| && n < |p.lots| && !p.lots[n].cleared && n <= m < Hi(p, h)
    ensures SizeOk(|p.headers[h].index|) && p.lo <= n && m < p.keyed && (m - n) * BLOCK_SIZE <= HALF
  {
    assert HeaderShaped(p.headers[h], |p.entries|) && HeaderShaped(Current(p), |p.entries|);
    if h < Last(p) { assert OldHeaderOk(p, h); }
    RoundIsShort(|Current(p).index|);
  }
}
