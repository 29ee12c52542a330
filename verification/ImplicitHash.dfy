/** The hash from threads to their producers (`get_or_add_implicit_producer` in
    concurrentqueue.h): open addressing in a chain of tables of growing capacity, filled
    by compare-and-swap while other threads look up, insert and publish new tables.

    One step of the model is one access of a shared variable. Allocation succeeds and no
    thread exits. */
module ImplicitHash {
  import opened Circular
  import opened Counting

  const INITIAL_SIZE: nat := 32

  /** Key 0 is `invalid_thread_id`, key `t + 1` is thread `t`; `prev` is -1 for none. */
  datatype Table = Table(capacity: nat, prev: int, keys: seq<nat>, values: seq<nat>)

  /** The next step of a call; `n` is `newCount`, `value` the producer to be entered in
      the table `mainHash` of the call, `p` the number of slots already probed. */
  datatype Pc =
    | Idle
    | Probe(h: nat, p: nat)       // look at the key of a slot of table `h`
    | Count                       // not found anywhere: take a number
    | CheckLock(n: nat)           // should it grow, and is the lock free?
    | Reload(n: nat)              // with the lock: is it still too small?
    | Publish(n: nat)
    | Unlock(n: nat)
    | Room(n: nat)                // is the table less than three quarters full?
    | Place(value: nat, p: nat)   // look for an empty slot
    | PlaceCas(value: nat, p: nat)
    | PlaceValue(value: nat, p: nat)

  /** `m` is `mainHash` of the current call; `number` the `newCount` the thread was given,
      0 before that; `made` the producers created for it, `results` what its calls
      returned. */
  datatype Thread = Thread(pc: Pc, m: nat, number: nat, made: seq<nat>, results: seq<nat>)

  /** `hashes[t]` is the hashed identifier of thread `t`, `producers` how many producers
      have been created. */
  datatype State = State(
    tables: seq<Table>, main: nat, locked: bool, count: nat, producers: nat,
    hashes: seq<nat>, threads: seq<Thread>)

  ghost predicate InRange(s: State) {
    && s.main < |s.tables| && |s.hashes| == |s.threads|
    && (forall i :: 0 <= i < |s.tables| ==>
          var h := s.tables[i];
          0 < h.capacity == |h.keys| == |h.values| && h.prev < |s.tables|)
    && (forall t :: 0 <= t < |s.threads| ==>
          && s.threads[t].m < |s.tables|
          && (s.threads[t].pc.Probe? ==> s.threads[t].pc.h < |s.tables|))
  }

  /** The slot probed as number `p`: `index &= capacity - 1` and `++index`, `p` times. */
  function ProbeSlot(h: Table, hash: nat, p: nat): nat
    requires h.capacity > 0
  {
    Slot(p, hash, h.capacity)
  }

  /** The doubling loop: the new table is less than half full. */
  function NewCapacity(capacity: nat, n: nat): nat
    requires capacity > 0
    decreases 2 * n + 2 - capacity
  {
    if n >= capacity / 2 then NewCapacity(2 * capacity, n) else capacity
  }

  function EmptyTable(capacity: nat, prev: int): Table {
    Table(capacity, prev, seq(capacity, _ => 0), seq(capacity, _ => 0))
  }

  function Set(s: State, t: nat, th: Thread): State
    requires t < |s.threads|
  {
    s.(threads := s.threads[t := th])
  }

  function SetTable(s: State, i: nat, h: Table): State
    requires i < |s.tables|
  {
    s.(tables := s.tables[i := h])
  }

  function Return(th: Thread, value: nat): Thread {
    th.(pc := Idle, results := th.results + [value])
  }

  /** The thread state after a look at slot `p` of table `h`. */
  ghost function AfterProbe(s: State, t: nat): Thread
    requires InRange(s) && t < |s.threads| && s.threads[t].pc.Probe?
  {
    var th := s.threads[t];
    var h := s.tables[th.pc.h];
    var j := ProbeSlot(h, s.hashes[t], th.pc.p);
    if h.keys[j] == t + 1 then if th.pc.h != th.m then th.(pc := Place(h.values[j], 0)) else Return(th, h.values[j])
    else if h.keys[j] == 0 then th.(pc := if h.prev >= 0 then Probe(h.prev, 0) else Count)
    else th.(pc := Probe(th.pc.h, th.pc.p + 1))
  }

  ghost function Counted(s: State, t: nat): State
    requires InRange(s) && t < |s.threads| && s.threads[t].pc.Count?
  {
    Set(s, t, s.threads[t].(pc := CheckLock(s.count + 1), number := s.count + 1)).(count := s.count + 1)
  }

  /** The new table, private until it is stored. */
  ghost function Published(s: State, t: nat): State
    requires InRange(s) && t < |s.threads| && s.threads[t].pc.Publish?
  {
    var th := s.threads[t];
    var h := EmptyTable(NewCapacity(2 * s.tables[th.m].capacity, th.pc.n), th.m);
    Set(s, t, th.(m := |s.tables|, pc := Unlock(th.pc.n))).(tables := s.tables + [h], main := |s.tables|)
  }

  /** The state after a successful compare-and-swap. */
  ghost function Entered(s: State, t: nat): State
    requires InRange(s) && t < |s.threads| && s.threads[t].pc.PlaceCas?
  {
    var th := s.threads[t];
    var h := s.tables[th.m];
    SetTable(Set(s, t, th.(pc := PlaceValue(th.pc.value, th.pc.p))), th.m,
             h.(keys := h.keys[ProbeSlot(h, s.hashes[t], th.pc.p) := t + 1]))
  }

  ghost function AfterCas(s: State, t: nat): State
    requires InRange(s) && t < |s.threads| && s.threads[t].pc.PlaceCas?
  {
    var th := s.threads[t];
    var h := s.tables[th.m];
    if h.keys[ProbeSlot(h, s.hashes[t], th.pc.p)] == 0 then Entered(s, t)
    else Set(s, t, th.(pc := Place(th.pc.value, th.pc.p + 1)))
  }

  ghost function Written(s: State, t: nat): State
    requires InRange(s) && t < |s.threads| && s.threads[t].pc.PlaceValue?
  {
    var th := s.threads[t];
    var h := s.tables[th.m];
    SetTable(Set(s, t, Return(th, th.pc.value)), th.m,
             h.(values := h.values[ProbeSlot(h, s.hashes[t], th.pc.p) := th.pc.value]))
  }

  /** One step of thread `t`. */
  ghost function Advance(s: State, t: nat): State
    requires InRange(s) && t < |s.threads|
  {
    var th := s.threads[t];
    var capacity := s.tables[th.m].capacity;
    match th.pc
    case Idle => Set(s, t, th.(pc := Probe(s.main, 0), m := s.main))
    case Probe(_, _) => Set(s, t, AfterProbe(s, t))
    case Count => Counted(s, t)
    case CheckLock(n) =>
      if n >= capacity / 2 && !s.locked then Set(s, t, th.(pc := Reload(n))).(locked := true)
      else Set(s, t, th.(pc := Room(n)))
    case Reload(n) =>
      Set(s, t, th.(m := s.main, pc := if n >= s.tables[s.main].capacity / 2 then Publish(n) else Unlock(n)))
    case Publish(_) => Published(s, t)
    case Unlock(n) => Set(s, t, th.(pc := Room(n))).(locked := false)
    case Room(n) =>
      if n < capacity / 2 + capacity / 4 then
        Set(s, t, th.(pc := Place(s.producers, 0), made := th.made + [s.producers])).(producers := s.producers + 1)
      else Set(s, t, th.(m := s.main, pc := CheckLock(n)))
    case Place(value, p) =>
      var free := s.tables[th.m].keys[ProbeSlot(s.tables[th.m], s.hashes[t], p)] == 0;
      Set(s, t, th.(pc := if free then PlaceCas(value, p) else Place(value, p + 1)))
    case PlaceCas(_, _) => AfterCas(s, t)
    case PlaceValue(_, _) => Written(s, t)
  }

  ghost predicate Init(s: State) {
    && s.tables == [EmptyTable(INITIAL_SIZE, -1)] && s.main == 0 && !s.locked && s.count == 0
    && |s.hashes| == |s.threads|
    && forall t :: 0 <= t < |s.threads| ==> s.threads[t] == Thread(Idle, 0, 0, [], [])
  }

  // ---- the invariant -----------------------------------------------------

  ghost predicate IsCapacity(c: nat) {
    exists k: nat :: k >= 5 && c == Pow2(k)
  }

  /** The tables form one chain, each at least twice as large as the one before. */
  ghost predicate TablesOk(tables: seq<Table>) {
    && tables != []
    && (forall i :: 0 <= i < |tables| ==>
          && IsCapacity(tables[i].capacity) && tables[i].capacity == |tables[i].keys| == |tables[i].values|
          && tables[i].capacity >= 32 && tables[i].prev == i - 1)
    && forall i, j :: 0 <= i < j < |tables| ==> tables[i].capacity < tables[j].capacity
  }

  predicate Absent(h: Table, t: nat) {
    forall j :: 0 <= j < |h.keys| ==> h.keys[j] != t + 1
  }

  predicate Taken(h: Table, hash: nat, q: nat)
    requires 0 < h.capacity == |h.keys|
  {
    h.keys[ProbeSlot(h, hash, q)] != 0
  }

  /** The first `p` slots of the probe sequence are taken. */
  predicate Walked(h: Table, hash: nat, p: nat)
    requires 0 < h.capacity == |h.keys|
  {
    forall q :: 0 <= q < p ==> Taken(h, hash, q)
  }

  /** ... and not by thread `t`. */
  predicate Searched(h: Table, hash: nat, t: nat, p: nat)
    requires 0 < h.capacity == |h.keys|
  {
    Walked(h, hash, p) && forall q :: 0 <= q < p ==> Taken(h, hash, q) && h.keys[ProbeSlot(h, hash, q)] != t + 1
  }

  /** Probing for `hash` reaches slot `j` as number `p`. */
  predicate Reaches(h: Table, hash: nat, p: nat, j: nat)
    requires 0 < h.capacity == |h.keys|
  {
    p < h.capacity && j == ProbeSlot(h, hash, p) && Walked(h, hash, p)
  }

  /** The thread in slot `j` is found there by probing, and its number is less than
      three quarters of the capacity. */
  ghost predicate EntryOk(h: Table, hashes: seq<nat>, threads: seq<Thread>, j: nat)
    requires |hashes| == |threads| && j < h.capacity == |h.keys|
  {
    h.keys[j] != 0 ==>
      var t: nat := h.keys[j] - 1;
      && t < |threads| && 0 < threads[t].number && 4 * threads[t].number < 3 * h.capacity
      && exists p :: Reaches(h, hashes[t], p, j)
  }

  ghost predicate KeysOk(h: Table, hashes: seq<nat>, threads: seq<Thread>)
    requires |hashes| == |threads| && h.capacity == |h.keys|
  {
    && (forall j :: 0 <= j < h.capacity ==> EntryOk(h, hashes, threads, j))
    && forall j, k :: 0 <= j < k < h.capacity ==> h.keys[j] == 0 || h.keys[j] != h.keys[k]
  }

  /** Thread `t` has yet to write the value of slot `j` of table `i`. */
  predicate Writing(th: Thread, hash: nat, i: nat, h: Table, j: nat)
    requires h.capacity > 0
  {
    th.pc.PlaceValue? && th.m == i && j == ProbeSlot(h, hash, th.pc.p)
  }

  ghost predicate ValueOk(h: Table, i: nat, hashes: seq<nat>, threads: seq<Thread>, j: nat)
    requires |hashes| == |threads| && j < h.capacity == |h.keys| == |h.values|
  {
    0 < h.keys[j] <= |threads| ==>
      var t: nat := h.keys[j] - 1;
      && threads[t].made != []
      && (h.values[j] == threads[t].made[0] || Writing(threads[t], hashes[t], i, h, j))
  }

  ghost predicate AbsentFrom(tables: seq<Table>, t: nat, i: int) {
    forall k {:trigger tables[k]} :: i <= k < |tables| && 0 <= k ==> Absent(tables[k], t)
  }

  /** What thread `t` knows. */
  ghost predicate ThreadOk(tables: seq<Table>, hash: nat, th: Thread, t: nat)
    requires TablesOk(tables)
  {
    && th.m < |tables| && |th.made| <= 1
    && (forall k :: 0 <= k < |th.results| ==> th.results[k] == Producer(th))
    && (th.made != [] ==> th.number > 0)
    && match th.pc
       case Idle => Settled(tables, th, t)
       case Probe(h, p) =>
         && Settled(tables, th, t) && h <= th.m && AbsentFrom(tables, t, h + 1)
         && p < tables[h].capacity && Searched(tables[h], hash, t, p)
       case Count => th.made == [] && th.number == 0 && AbsentFrom(tables, t, 0)
       case Place(value, p) => Placing(tables, hash, th, t, value, p)
       case PlaceCas(value, p) => Placing(tables, hash, th, t, value, p)
       case PlaceValue(value, p) =>
         && th.made == [value] && p < tables[th.m].capacity
         && tables[th.m].keys[ProbeSlot(tables[th.m], hash, p)] == t + 1
       case CheckLock(n) => Numbered(tables, th, t, n)
       case Reload(n) => Numbered(tables, th, t, n)
       case Publish(n) => Numbered(tables, th, t, n)
       case Unlock(n) => Numbered(tables, th, t, n)
       case Room(n) => Numbered(tables, th, t, n)
  }

  ghost predicate Numbered(tables: seq<Table>, th: Thread, t: nat, n: nat) {
    th.made == [] && th.number == n > 0 && AbsentFrom(tables, t, 0)
  }

  ghost predicate Settled(tables: seq<Table>, th: Thread, t: nat) {
    if th.made == [] then th.number == 0 && AbsentFrom(tables, t, 0)
        else exists i :: 0 <= i < |tables| && !Absent(tables[i], t)
  }

  ghost predicate Placing(tables: seq<Table>, hash: nat, th: Thread, t: nat, value: nat, p: nat)
    requires TablesOk(tables) && th.m < |tables|
  {
    && th.made == [value] && 4 * th.number < 3 * tables[th.m].capacity
    && Absent(tables[th.m], t) && p < tables[th.m].capacity && Walked(tables[th.m], hash, p)
  }

  predicate HoldsLock(pc: Pc) { pc.Reload? || pc.Publish? || pc.Unlock? }

  predicate LockOk(s: State) {
    && (forall t :: 0 <= t < |s.threads| && HoldsLock(s.threads[t].pc) ==> s.locked)
    && (forall t, u :: 0 <= t < u < |s.threads| && HoldsLock(s.threads[t].pc) ==> !HoldsLock(s.threads[u].pc))
    && (forall t :: 0 <= t < |s.threads| && s.threads[t].pc.Publish? ==> s.threads[t].m == s.main)
  }

  /** The producer made for a thread, -1 for none. */
  function Producer(th: Thread): int { if th.made == [] then -1 else th.made[0] }

  /** Numbers and producers are handed out once. */
  predicate NumbersOk(s: State) {
    && (forall t :: 0 <= t < |s.threads| ==> s.threads[t].number <= s.count && Producer(s.threads[t]) < s.producers)
    && (forall t, u :: 0 <= t < u < |s.threads| && s.threads[t].number > 0
          ==> s.threads[t].number != s.threads[u].number)
    && (forall t, u :: 0 <= t < u < |s.threads| && Producer(s.threads[t]) >= 0
          ==> Producer(s.threads[t]) != Producer(s.threads[u]))
  }

  ghost predicate EntriesOk(s: State)
    requires TablesOk(s.tables) && |s.hashes| == |s.threads|
  {
    && (forall i :: 0 <= i < |s.tables| ==> KeysOk(s.tables[i], s.hashes, s.threads))
    && (forall i, j :: 0 <= i < |s.tables| && 0 <= j < s.tables[i].capacity
          ==> ValueOk(s.tables[i], i, s.hashes, s.threads, j))
  }

  ghost predicate ThreadsOk(s: State)
    requires TablesOk(s.tables) && |s.hashes| == |s.threads|
  {
    forall t :: 0 <= t < |s.threads| ==> ThreadOk(s.tables, s.hashes[t], s.threads[t], t)
  }

  ghost predicate Inv(s: State) {
    && TablesOk(s.tables) && s.main == |s.tables| - 1 && |s.hashes| == |s.threads|
    && EntriesOk(s) && ThreadsOk(s) && LockOk(s) && NumbersOk(s)
  }

  // ---- a free slot in every table ----------------------------------------

  /** The number of the thread whose key is in slot `j`. */
  function NumberAt(h: Table, threads: seq<Thread>, j: nat): nat
    requires j < |h.keys|
  {
    if 0 < h.keys[j] <= |threads| then threads[h.keys[j] - 1].number else 0
  }

  /** Since distinct threads have distinct numbers below the capacity, some slot is
      empty: a table that were full would use every number, also 0. */
  lemma FreeSlot(s: State, i: nat) returns (j: nat)
    requires TablesOk(s.tables) && |s.hashes| == |s.threads| && NumbersOk(s)
    requires i < |s.tables| && KeysOk(s.tables[i], s.hashes, s.threads)
    ensures j < s.tables[i].capacity && s.tables[i].keys[j] == 0
  {
    var h := s.tables[i];
    if forall j :: 0 <= j < h.capacity ==> h.keys[j] != 0 {
      var numbers := seq(h.capacity, j requires 0 <= j < h.capacity => NumberAt(h, s.threads, j));
      forall j | 0 <= j < h.capacity ensures 0 < numbers[j] < h.capacity { assert EntryOk(h, s.hashes, s.threads, j); }
      forall j, k | 0 <= j < k < h.capacity ensures numbers[j] != numbers[k] {
        assert EntryOk(h, s.hashes, s.threads, j) && EntryOk(h, s.hashes, s.threads, k);
        var t, u := h.keys[j] - 1, h.keys[k] - 1;
        assert t < u || u < t;
      }
      EveryNumberOccurs(numbers, 0);
      assert false;
    }
    j :| 0 <= j < h.capacity && h.keys[j] == 0;
  }

  /** Every slot is among the first `capacity` probed. */
  lemma SlotIsProbed(h: Table, hash: nat, j: nat) returns (q: nat)
    requires j < h.capacity
    ensures q < h.capacity && ProbeSlot(h, hash, q) == j
  {
    q := (j - hash) % h.capacity;
    AddMod(j - hash, hash, h.capacity);
    RemainderIs(j, h.capacity, 0, j);
  }

  /** The probe loops end: a taken slot is never the last one. */
  lemma ProbeGoesOn(s: State, i: nat, hash: nat, p: nat)
    requires TablesOk(s.tables) && |s.hashes| == |s.threads| && NumbersOk(s)
    requires i < |s.tables| && KeysOk(s.tables[i], s.hashes, s.threads)
    requires p < s.tables[i].capacity && Walked(s.tables[i], hash, p + 1)
    ensures p + 1 < s.tables[i].capacity
  {
    var h := s.tables[i];
    var j := FreeSlot(s, i);
    var q := SlotIsProbed(h, hash, j);
    assert q < p + 1 ==> Taken(h, hash, q);
  }

  lemma EmptyMeansNotAt(h: Table, hash: nat, t: nat, p: nat, j: nat, p': nat)
    requires 0 < h.capacity == |h.keys| && Reaches(h, hash, p', j)
    requires Searched(h, hash, t, p) && h.keys[ProbeSlot(h, hash, p)] == 0
    ensures h.keys[j] != t + 1
  {
    if p' < p { assert Taken(h, hash, p'); }
    assert p < p' ==> Taken(h, hash, p);
  }

  /** A search that meets an empty slot shows that the key is not in the table. */
  lemma EmptyMeansAbsent(h: Table, hashes: seq<nat>, threads: seq<Thread>, t: nat, p: nat)
    requires |hashes| == |threads| && 0 < h.capacity == |h.keys| && t < |threads| && KeysOk(h, hashes, threads)
    requires Searched(h, hashes[t], t, p) && h.keys[ProbeSlot(h, hashes[t], p)] == 0
    ensures Absent(h, t)
  {
    forall j | 0 <= j < |h.keys| ensures h.keys[j] != t + 1 {
      assert EntryOk(h, hashes, threads, j);
      if h.keys[j] == t + 1 {
        var p' :| Reaches(h, hashes[t], p', j);
        EmptyMeansNotAt(h, hashes[t], t, p, j, p');
      }
    }
  }

  // ---- steps that leave the tables alone ---------------------------------

  lemma LocalEntries(s: State, s': State, t: nat)
    requires TablesOk(s.tables) && |s.hashes| == |s.threads| == |s'.threads| && t < |s.threads| && EntriesOk(s)
    requires s'.tables == s.tables && s'.hashes == s.hashes && s'.threads == s.threads[t := s'.threads[t]]
    requires !s.threads[t].pc.PlaceValue?
    requires AbsentFrom(s.tables, t, 0)
             || (s'.threads[t].number == s.threads[t].number && s'.threads[t].made == s.threads[t].made)
    ensures EntriesOk(s')
  {
    forall i | 0 <= i < |s.tables| ensures KeysOk(s.tables[i], s'.hashes, s'.threads) {
      var h := s.tables[i];
      assert KeysOk(h, s.hashes, s.threads);
      forall j | 0 <= j < h.capacity ensures EntryOk(h, s'.hashes, s'.threads, j) {
        assert EntryOk(h, s.hashes, s.threads, j);
        assert AbsentFrom(s.tables, t, 0) ==> Absent(s.tables[i], t);
      }
    }
    forall i, j | 0 <= i < |s.tables| && 0 <= j < s.tables[i].capacity
      ensures ValueOk(s.tables[i], i, s'.hashes, s'.threads, j)
    {
      assert ValueOk(s.tables[i], i, s.hashes, s.threads, j);
      assert AbsentFrom(s.tables, t, 0) ==> Absent(s.tables[i], t);
    }
  }

  lemma LocalStep(s: State, s': State, t: nat)
    requires Inv(s) && t < |s.threads| == |s'.threads|
    requires s'.tables == s.tables && s'.main == s.main && s'.hashes == s.hashes
             && s'.threads == s.threads[t := s'.threads[t]]
    requires !s.threads[t].pc.PlaceValue?
    requires AbsentFrom(s.tables, t, 0)
             || (s'.threads[t].number == s.threads[t].number && s'.threads[t].made == s.threads[t].made)
    requires ThreadOk(s.tables, s.hashes[t], s'.threads[t], t) && LockOk(s') && NumbersOk(s')
    ensures Inv(s')
  {
    LocalEntries(s, s', t);
    forall u | 0 <= u < |s'.threads| ensures ThreadOk(s'.tables, s'.hashes[u], s'.threads[u], u) {
      assert ThreadOk(s.tables, s.hashes[u], s.threads[u], u);
    }
  }

  /** The thread moves on within the tables, the lock and the numbers as they are. */
  lemma Moves(s: State, t: nat, th: Thread)
    requires Inv(s) && t < |s.threads|
    requires th == s.threads[t].(pc := th.pc, m := th.m, results := th.results)
    requires !s.threads[t].pc.PlaceValue? && !HoldsLock(th.pc)
    requires ThreadOk(s.tables, s.hashes[t], th, t)
    ensures Inv(Set(s, t, th))
  {
    SetLock(s, t, th);
    SetNumbers(s, t, th);
    LocalStep(s, Set(s, t, th), t);
  }

  lemma SetLock(s: State, t: nat, th: Thread)
    requires LockOk(s) && t < |s.threads| && !HoldsLock(th.pc)
    ensures LockOk(Set(s, t, th))
  {
  }

  lemma SetNumbers(s: State, t: nat, th: Thread)
    requires NumbersOk(s) && t < |s.threads|
    requires th.number == s.threads[t].number && th.made == s.threads[t].made
    ensures NumbersOk(Set(s, t, th))
  {
  }

  /** The thread takes, keeps or releases the lock. */
  lemma MovesLock(s: State, t: nat, th: Thread, locked: bool)
    requires Inv(s) && t < |s.threads|
    requires th == s.threads[t].(pc := th.pc, m := th.m)
    requires !s.threads[t].pc.PlaceValue? && (locked <==> HoldsLock(th.pc))
    requires HoldsLock(s.threads[t].pc) || !s.locked
    requires th.pc.Publish? ==> th.m == s.main
    requires ThreadOk(s.tables, s.hashes[t], th, t)
    ensures Inv(Set(s, t, th).(locked := locked))
  {
    var s' := Set(s, t, th).(locked := locked);
    assert NumbersOk(s') by { SetNumbers(s, t, th); }
    assert LockOk(s');
    LocalStep(s, s', t);
  }

  lemma IdleInv(s: State, t: nat)
    requires Inv(s) && InRange(s) && t < |s.threads| && s.threads[t].pc.Idle?
    ensures Inv(Advance(s, t))
  {
    var th := s.threads[t];
    assert ThreadOk(s.tables, s.hashes[t], th, t);
    Moves(s, t, th.(pc := Probe(s.main, 0), m := s.main));
  }

  /** What a thread learns from its own key. */
  lemma OwnEntry(s: State, t: nat, i: nat, j: nat)
    requires Inv(s) && t < |s.threads| && !s.threads[t].pc.PlaceValue?
    requires i < |s.tables| && j < s.tables[i].capacity && s.tables[i].keys[j] == t + 1
    ensures s.threads[t].made == [s.tables[i].values[j]] && 4 * s.threads[t].number < 3 * s.tables[i].capacity
    ensures !Absent(s.tables[i], t)
  {
    assert ThreadOk(s.tables, s.hashes[t], s.threads[t], t);
    assert KeysOk(s.tables[i], s.hashes, s.threads);
    assert EntryOk(s.tables[i], s.hashes, s.threads, j);
    assert ValueOk(s.tables[i], i, s.hashes, s.threads, j);
  }

  lemma FoundOk(tables: seq<Table>, hash: nat, th: Thread, t: nat, value: nat)
    requires TablesOk(tables) && ThreadOk(tables, hash, th, t) && th.pc.Probe?
    requires th.made == [value] && 4 * th.number < 3 * tables[th.pc.h].capacity
    ensures th.pc.h == th.m ==> ThreadOk(tables, hash, Return(th, value), t)
    ensures th.pc.h != th.m ==> ThreadOk(tables, hash, th.(pc := Place(value, 0)), t)
  {
    if th.pc.h != th.m { assert Absent(tables[th.m], t); }
  }

  lemma EmptyOk(tables: seq<Table>, hash: nat, th: Thread, t: nat)
    requires TablesOk(tables) && ThreadOk(tables, hash, th, t) && th.pc.Probe? && Absent(tables[th.pc.h], t)
    ensures var prev := tables[th.pc.h].prev;
            prev < |tables| && ThreadOk(tables, hash, th.(pc := if prev >= 0 then Probe(prev, 0) else Count), t)
  {
    assert AbsentFrom(tables, t, th.pc.h);
  }

  lemma OtherOk(tables: seq<Table>, hash: nat, th: Thread, t: nat)
    requires TablesOk(tables) && ThreadOk(tables, hash, th, t) && th.pc.Probe?
    requires var h := tables[th.pc.h]; Taken(h, hash, th.pc.p) && h.keys[ProbeSlot(h, hash, th.pc.p)] != t + 1
    requires th.pc.p + 1 < tables[th.pc.h].capacity
    ensures ThreadOk(tables, hash, th.(pc := Probe(th.pc.h, th.pc.p + 1)), t)
  {
    assert Searched(tables[th.pc.h], hash, t, th.pc.p + 1);
  }

  lemma AfterProbeOk(s: State, t: nat)
    requires Inv(s) && InRange(s) && t < |s.threads| && s.threads[t].pc.Probe?
    ensures ThreadOk(s.tables, s.hashes[t], AfterProbe(s, t), t)
  {
    var th, hash := s.threads[t], s.hashes[t];
    assert ThreadOk(s.tables, hash, th, t);
    var h, p := s.tables[th.pc.h], th.pc.p;
    var j := ProbeSlot(h, hash, p);
    assert KeysOk(h, s.hashes, s.threads);
    if h.keys[j] == t + 1 {
      OwnEntry(s, t, th.pc.h, j);
      FoundOk(s.tables, hash, th, t, h.values[j]);
    } else if h.keys[j] == 0 {
      EmptyMeansAbsent(h, s.hashes, s.threads, t, p);
      EmptyOk(s.tables, hash, th, t);
    } else {
      assert Taken(h, hash, p);
      ProbeGoesOn(s, th.pc.h, hash, p);
      OtherOk(s.tables, hash, th, t);
    }
  }

  lemma ProbeInv(s: State, t: nat)
    requires Inv(s) && InRange(s) && t < |s.threads| && s.threads[t].pc.Probe?
    ensures Inv(Set(s, t, AfterProbe(s, t)))
  {
    AfterProbeOk(s, t);
    Moves(s, t, AfterProbe(s, t));
  }

  lemma CountNumbers(s: State, t: nat)
    requires NumbersOk(s) && LockOk(s) && InRange(s) && t < |s.threads| && s.threads[t].pc.Count?
    ensures NumbersOk(Counted(s, t)) && LockOk(Counted(s, t))
  {
  }

  lemma CountInv(s: State, t: nat)
    requires Inv(s) && InRange(s) && t < |s.threads| && s.threads[t].pc.Count?
    ensures Inv(Counted(s, t))
  {
    assert ThreadOk(s.tables, s.hashes[t], s.threads[t], t);
    CountNumbers(s, t);
    LocalStep(s, Counted(s, t), t);
  }

  lemma CheckLockInv(s: State, t: nat)
    requires Inv(s) && InRange(s) && t < |s.threads| && s.threads[t].pc.CheckLock?
    ensures Inv(Advance(s, t))
  {
    var th := s.threads[t];
    assert ThreadOk(s.tables, s.hashes[t], th, t);
    if th.pc.n >= s.tables[th.m].capacity / 2 && !s.locked {
      MovesLock(s, t, th.(pc := Reload(th.pc.n)), true);
    } else {
      Moves(s, t, th.(pc := Room(th.pc.n)));
    }
  }

  lemma ReloadInv(s: State, t: nat)
    requires Inv(s) && InRange(s) && t < |s.threads| && s.threads[t].pc.Reload?
    ensures Inv(Advance(s, t))
  {
    var th := s.threads[t];
    assert ThreadOk(s.tables, s.hashes[t], th, t);
    var pc := if th.pc.n >= s.tables[s.main].capacity / 2 then Publish(th.pc.n) else Unlock(th.pc.n);
    MovesLock(s, t, th.(m := s.main, pc := pc), true);
    assert s.locked;
  }

  lemma UnlockInv(s: State, t: nat)
    requires Inv(s) && InRange(s) && t < |s.threads| && s.threads[t].pc.Unlock?
    ensures Inv(Advance(s, t))
  {
    var th := s.threads[t];
    assert ThreadOk(s.tables, s.hashes[t], th, t);
    MovesLock(s, t, th.(pc := Room(th.pc.n)), false);
  }

  /** Three quarters, computed by shifts, of a power of two. */
  lemma ThreeQuarters(c: nat, n: nat)
    requires IsCapacity(c)
    ensures n < c / 2 + c / 4 <==> 4 * n < 3 * c
  {
    var k: nat :| k >= 5 && c == Pow2(k);
    var q := Pow2(k - 2);
    assert Pow2(k - 1) == 2 * q;
    assert c == 4 * q && c / 2 == 2 * q && c / 4 == q;
  }

  lemma RoomInv(s: State, t: nat)
    requires Inv(s) && InRange(s) && t < |s.threads| && s.threads[t].pc.Room?
    ensures Inv(Advance(s, t))
  {
    var th := s.threads[t];
    assert ThreadOk(s.tables, s.hashes[t], th, t);
    var c := s.tables[th.m].capacity;
    if th.pc.n < c / 2 + c / 4 {
      ThreeQuarters(c, th.pc.n);
      MakeInv(s, t);
    } else {
      NoRoom(s, t);
    }
  }

  lemma NoRoom(s: State, t: nat)
    requires Inv(s) && t < |s.threads| && s.threads[t].pc.Room?
    ensures Inv(Set(s, t, s.threads[t].(m := s.main, pc := CheckLock(s.threads[t].pc.n))))
  {
    assert ThreadOk(s.tables, s.hashes[t], s.threads[t], t);
    Moves(s, t, s.threads[t].(m := s.main, pc := CheckLock(s.threads[t].pc.n)));
  }

  lemma MakeInv(s: State, t: nat)
    requires Inv(s) && t < |s.threads| && s.threads[t].pc.Room?
    requires s.threads[t].m < |s.tables| && 4 * s.threads[t].pc.n < 3 * s.tables[s.threads[t].m].capacity
    ensures Inv(Set(s, t, s.threads[t].(pc := Place(s.producers, 0),
            made := s.threads[t].made + [s.producers])).(producers := s.producers + 1))
  {
    var th := s.threads[t];
    assert ThreadOk(s.tables, s.hashes[t], th, t);
    assert Absent(s.tables[th.m], t);
    var th' := th.(pc := Place(s.producers, 0), made := th.made + [s.producers]);
    assert ThreadOk(s.tables, s.hashes[t], th', t);
    var s' := Set(s, t, th').(producers := s.producers + 1);
    assert LockOk(s') by { SetLock(s, t, th'); }
    MakeNumbers(s, t, th');
    LocalStep(s, s', t);
  }

  lemma MakeNumbers(s: State, t: nat, th: Thread)
    requires NumbersOk(s) && t < |s.threads| && th.number == s.threads[t].number && th.made == [s.producers]
    ensures NumbersOk(Set(s, t, th).(producers := s.producers + 1))
  {
  }

  lemma NextPlaceOk(tables: seq<Table>, hash: nat, th: Thread, t: nat, value: nat, p: nat)
    requires TablesOk(tables) && ThreadOk(tables, hash, th, t)
             && (th.pc == Place(value, p) || th.pc == PlaceCas(value, p))
    requires Taken(tables[th.m], hash, p) && p + 1 < tables[th.m].capacity
    ensures ThreadOk(tables, hash, th.(pc := Place(value, p + 1)), t)
  {
    assert Walked(tables[th.m], hash, p + 1);
  }

  /** The slot was taken: try the next one. */
  lemma SlotTaken(s: State, t: nat, value: nat, p: nat)
    requires Inv(s) && t < |s.threads| && (s.threads[t].pc == Place(value, p) || s.threads[t].pc == PlaceCas(value, p))
    requires s.threads[t].m < |s.tables| && Taken(s.tables[s.threads[t].m], s.hashes[t], p)
    ensures Inv(Set(s, t, s.threads[t].(pc := Place(value, p + 1))))
  {
    var th := s.threads[t];
    assert ThreadOk(s.tables, s.hashes[t], th, t);
    assert KeysOk(s.tables[th.m], s.hashes, s.threads);
    ProbeGoesOn(s, th.m, s.hashes[t], p);
    NextPlaceOk(s.tables, s.hashes[t], th, t, value, p);
    Moves(s, t, th.(pc := Place(value, p + 1)));
  }

  lemma SlotEmpty(s: State, t: nat, value: nat, p: nat)
    requires Inv(s) && t < |s.threads| && s.threads[t].pc == Place(value, p)
    ensures Inv(Set(s, t, s.threads[t].(pc := PlaceCas(value, p))))
  {
    assert ThreadOk(s.tables, s.hashes[t], s.threads[t], t);
    Moves(s, t, s.threads[t].(pc := PlaceCas(value, p)));
  }

  lemma PlaceIs(s: State, t: nat)
    requires InRange(s) && t < |s.threads| && s.threads[t].pc.Place?
    ensures var th := s.threads[t]; var taken := Taken(s.tables[th.m], s.hashes[t], th.pc.p);
            && (taken ==> Advance(s, t) == Set(s, t, th.(pc := Place(th.pc.value, th.pc.p + 1))))
            && (!taken ==> Advance(s, t) == Set(s, t, th.(pc := PlaceCas(th.pc.value, th.pc.p))))
  {
  }

  lemma PlaceInv(s: State, t: nat)
    requires Inv(s) && InRange(s) && t < |s.threads| && s.threads[t].pc.Place?
    ensures Inv(Advance(s, t))
  {
    var value, p := s.threads[t].pc.value, s.threads[t].pc.p;
    if Taken(s.tables[s.threads[t].m], s.hashes[t], p) {
      SlotTaken(s, t, value, p);
      assert Advance(s, t) == Set(s, t, s.threads[t].(pc := Place(value, p + 1))) by { PlaceIs(s, t); }
    } else {
      SlotEmpty(s, t, value, p);
      assert Advance(s, t) == Set(s, t, s.threads[t].(pc := PlaceCas(value, p))) by { PlaceIs(s, t); }
    }
  }

  // ---- steps that change a table -----------------------------------------

  /** `h'` is `h` after threads other than `t` have entered keys. */
  predicate Fills(h: Table, h': Table, t: nat) {
    && h'.capacity == h.capacity == |h.keys| == |h'.keys| && h'.prev == h.prev
    && forall j :: 0 <= j < |h.keys|
          ==> h'.keys[j] == h.keys[j] || (h.keys[j] == 0 && h'.keys[j] != 0 && h'.keys[j] != t + 1)
  }

  predicate Grows(tables: seq<Table>, tables': seq<Table>, t: nat) {
    && |tables| <= |tables'|
    && (forall i {:trigger tables[i]} {:trigger tables'[i]} :: 0 <= i < |tables| ==> Fills(tables[i], tables'[i], t))
    && (forall i {:trigger tables'[i]} :: |tables| <= i < |tables'| ==> Absent(tables'[i], t))
  }

  lemma FillsKeeps(h: Table, h': Table, hash: nat, t: nat, p: nat)
    requires 0 < h.capacity && Fills(h, h', t)
    ensures Absent(h, t) <==> Absent(h', t)
    ensures Walked(h, hash, p) ==> Walked(h', hash, p)
    ensures Searched(h, hash, t, p) ==> Searched(h', hash, t, p)
  {
    if Absent(h, t) {
      forall j | 0 <= j < |h'.keys| ensures h'.keys[j] != t + 1 { assert h.keys[j] != t + 1; }
    }
    if Walked(h, hash, p) { WalkedFills(h, h', hash, t, p); }
    if Searched(h, hash, t, p) {
      WalkedFills(h, h', hash, t, p);
      forall q | 0 <= q < p ensures Taken(h', hash, q) && h'.keys[ProbeSlot(h', hash, q)] != t + 1 {
        assert Taken(h, hash, q);
      }
    }
    if Absent(h', t) {
      forall j | 0 <= j < |h.keys| ensures h.keys[j] != t + 1 { assert h'.keys[j] != t + 1; }
    }
  }

  lemma WalkedFills(h: Table, h': Table, hash: nat, t: nat, p: nat)
    requires 0 < h.capacity && Fills(h, h', t) && Walked(h, hash, p)
    ensures Walked(h', hash, p)
  {
    forall q | 0 <= q < p ensures Taken(h', hash, q) { assert Taken(h, hash, q); }
  }

  lemma AbsentGrows(tables: seq<Table>, tables': seq<Table>, t: nat, i: int)
    requires Grows(tables, tables', t) && AbsentFrom(tables, t, i)
    requires forall k :: 0 <= k < |tables| ==> tables[k].capacity > 0
    ensures AbsentFrom(tables', t, i)
  {
    forall k | i <= k < |tables'| && 0 <= k ensures Absent(tables'[k], t) {
      if k < |tables| { FillsKeeps(tables[k], tables'[k], 0, t, 0); }
    }
  }

  lemma SettledGrows(tables: seq<Table>, tables': seq<Table>, th: Thread, t: nat)
    requires Grows(tables, tables', t) && Settled(tables, th, t)
    requires forall k :: 0 <= k < |tables| ==> tables[k].capacity > 0
    ensures Settled(tables', th, t)
  {
    if th.made == [] {
      AbsentGrows(tables, tables', t, 0);
    } else {
      var i :| 0 <= i < |tables| && !Absent(tables[i], t);
      FillsKeeps(tables[i], tables'[i], 0, t, 0);
    }
  }

  /** What a thread knows is not disturbed by the others. */
  lemma ThreadFrame(tables: seq<Table>, tables': seq<Table>, hash: nat, th: Thread, t: nat)
    requires TablesOk(tables) && TablesOk(tables') && Grows(tables, tables', t) && ThreadOk(tables, hash, th, t)
    ensures ThreadOk(tables', hash, th, t)
  {
    assert Fills(tables[th.m], tables'[th.m], t);
    match th.pc
    case Idle => SettledGrows(tables, tables', th, t);
    case Probe(h, p) => ProbeFrame(tables, tables', hash, th, t);
    case Place(_, p) => FillsKeeps(tables[th.m], tables'[th.m], hash, t, p);
    case PlaceCas(_, p) => FillsKeeps(tables[th.m], tables'[th.m], hash, t, p);
    case PlaceValue(_, p) =>
    case _ => AbsentGrows(tables, tables', t, 0);
  }

  lemma ProbeFrame(tables: seq<Table>, tables': seq<Table>, hash: nat, th: Thread, t: nat)
    requires TablesOk(tables) && TablesOk(tables') && Grows(tables, tables', t) && ThreadOk(tables, hash, th, t)
    requires th.pc.Probe?
    ensures ThreadOk(tables', hash, th, t)
  {
    var h := th.pc.h;
    assert Fills(tables[h], tables'[h], t);
    SettledGrows(tables, tables', th, t);
    AbsentGrows(tables, tables', t, h + 1);
    FillsKeeps(tables[h], tables'[h], hash, t, th.pc.p);
  }

  // ---- entering a key ----------------------------------------------------

  /** Tables other than `i` are unchanged. */
  lemma OneTable(tables: seq<Table>, i: nat, h: Table, t: nat)
    requires TablesOk(tables) && i < |tables| && Fills(tables[i], h, t) && |h.values| == |tables[i].values|
    ensures TablesOk(tables[i := h]) && Grows(tables, tables[i := h], t)
  {
    var tables' := tables[i := h];
    forall k | 0 <= k < |tables| ensures Fills(tables[k], tables'[k], t) {}
  }

  lemma ShapeKept(tables: seq<Table>, i: nat, h: Table)
    requires TablesOk(tables) && i < |tables|
    requires h.capacity == tables[i].capacity == |h.keys| == |h.values| && h.prev == tables[i].prev
    ensures TablesOk(tables[i := h])
  {
  }

  lemma EntryFills(h: Table, h': Table, hashes: seq<nat>, threads: seq<Thread>, threads': seq<Thread>, t: nat, j: nat)
    requires |hashes| == |threads| == |threads'| && j < h.capacity && Fills(h, h', t) && h'.keys[j] == h.keys[j]
    requires forall u :: 0 <= u < |threads| ==> threads'[u].number == threads[u].number
    requires EntryOk(h, hashes, threads, j)
    ensures EntryOk(h', hashes, threads', j)
  {
    if h.keys[j] != 0 {
      var u := h.keys[j] - 1;
      var p :| Reaches(h, hashes[u], p, j);
      WalkedFills(h, h', hashes[u], t, p);
      assert Reaches(h', hashes[u], p, j);
    }
  }

  /** The compare-and-swap of thread `t` in slot `j` of its table. */
  lemma CasKeys(h: Table, hashes: seq<nat>, threads: seq<Thread>, threads': seq<Thread>, t: nat, p: nat)
    requires |hashes| == |threads| == |threads'| && t < |threads| && 0 < h.capacity == |h.keys|
    requires forall u :: 0 <= u < |threads| ==> threads'[u].number == threads[u].number
    requires KeysOk(h, hashes, threads) && Absent(h, t) && p < h.capacity && Walked(h, hashes[t], p)
    requires !Taken(h, hashes[t], p) && 0 < threads[t].number && 4 * threads[t].number < 3 * h.capacity
    ensures KeysOk(h.(keys := h.keys[ProbeSlot(h, hashes[t], p) := t + 1]), hashes, threads')
  {
    var j := ProbeSlot(h, hashes[t], p);
    var h' := h.(keys := h.keys[j := t + 1]);
    assert Fills(h, h', |threads|) by { assert h.keys[j] == 0; }
    forall k | 0 <= k < h'.capacity ensures EntryOk(h', hashes, threads', k) {
      assert EntryOk(h, hashes, threads, k);
      if k == j {
        WalkedFills(h, h', hashes[t], |threads|, p);
        assert Reaches(h', hashes[t], p, j);
      } else {
        EntryFills(h, h', hashes, threads, threads', |threads|, k);
      }
    }
  }

  lemma CasShape(s: State, t: nat)
    requires Inv(s) && InRange(s) && t < |s.threads| && s.threads[t].pc.PlaceCas?
    ensures TablesOk(Entered(s, t).tables)
  {
    var th := s.threads[t];
    assert ThreadOk(s.tables, s.hashes[t], th, t);
    ShapeKept(s.tables, th.m, Entered(s, t).tables[th.m]);
  }

  lemma CasKeysAt(s: State, t: nat, i: nat)
    requires Inv(s) && InRange(s) && t < |s.threads| && s.threads[t].pc.PlaceCas? && i < |s.tables|
    requires !Taken(s.tables[s.threads[t].m], s.hashes[t], s.threads[t].pc.p) && TablesOk(Entered(s, t).tables)
    ensures KeysOk(Entered(s, t).tables[i], Entered(s, t).hashes, Entered(s, t).threads)
  {
    var th, s' := s.threads[t], Entered(s, t);
    assert ThreadOk(s.tables, s.hashes[t], th, t);
    assert KeysOk(s.tables[i], s.hashes, s.threads);
    if i == th.m {
      CasKeys(s.tables[i], s.hashes, s.threads, s'.threads, t, th.pc.p);
    } else {
      KeysFrame(s.tables[i], s.hashes, s.threads, s'.threads);
    }
  }

  lemma CasValues(s: State, t: nat, i: nat, k: nat)
    requires Inv(s) && InRange(s) && t < |s.threads| && s.threads[t].pc.PlaceCas?
    requires i < |s.tables| && k < s.tables[i].capacity && TablesOk(Entered(s, t).tables)
    requires !Taken(s.tables[s.threads[t].m], s.hashes[t], s.threads[t].pc.p)
    ensures ValueOk(Entered(s, t).tables[i], i, Entered(s, t).hashes, Entered(s, t).threads, k)
  {
    assert ThreadOk(s.tables, s.hashes[t], s.threads[t], t);
    assert ValueOk(s.tables[i], i, s.hashes, s.threads, k);
  }

  lemma CasEntries(s: State, t: nat)
    requires Inv(s) && InRange(s) && t < |s.threads| && s.threads[t].pc.PlaceCas?
    requires !Taken(s.tables[s.threads[t].m], s.hashes[t], s.threads[t].pc.p)
    ensures TablesOk(Entered(s, t).tables) && EntriesOk(Entered(s, t))
  {
    var s' := Entered(s, t);
    CasShape(s, t);
    forall i | 0 <= i < |s'.tables| ensures KeysOk(s'.tables[i], s'.hashes, s'.threads) { CasKeysAt(s, t, i); }
    forall i, k | 0 <= i < |s'.tables| && 0 <= k < s'.tables[i].capacity
      ensures ValueOk(s'.tables[i], i, s'.hashes, s'.threads, k)
    {
      CasValues(s, t, i, k);
    }
  }

  lemma KeysFrame(h: Table, hashes: seq<nat>, threads: seq<Thread>, threads': seq<Thread>)
    requires |hashes| == |threads| == |threads'| && 0 < h.capacity == |h.keys| && KeysOk(h, hashes, threads)
    requires forall u :: 0 <= u < |threads| ==> threads'[u].number == threads[u].number
    ensures KeysOk(h, hashes, threads')
  {
    forall j | 0 <= j < h.capacity ensures EntryOk(h, hashes, threads', j) {
      assert EntryOk(h, hashes, threads, j);
    }
  }

  lemma CasThreads(s: State, t: nat)
    requires Inv(s) && InRange(s) && t < |s.threads| && s.threads[t].pc.PlaceCas?
    requires !Taken(s.tables[s.threads[t].m], s.hashes[t], s.threads[t].pc.p)
    requires TablesOk(Entered(s, t).tables)
    ensures ThreadsOk(Entered(s, t))
  {
    var s' := Entered(s, t);
    var m := s.threads[t].m;
    forall u | 0 <= u < |s'.threads| ensures ThreadOk(s'.tables, s'.hashes[u], s'.threads[u], u) {
      assert ThreadOk(s.tables, s.hashes[u], s.threads[u], u);
      if u != t {
        assert Fills(s.tables[m], s'.tables[m], u);
        OneTable(s.tables, m, s'.tables[m], u);
        ThreadFrame(s.tables, s'.tables, s.hashes[u], s.threads[u], u);
      }
    }
  }

  lemma EnteredInv(s: State, t: nat)
    requires Inv(s) && InRange(s) && t < |s.threads| && s.threads[t].pc.PlaceCas?
    requires !Taken(s.tables[s.threads[t].m], s.hashes[t], s.threads[t].pc.p)
    ensures Inv(Entered(s, t))
  {
    CasEntries(s, t);
    CasThreads(s, t);
    EnteredRest(s, t);
  }

  lemma CasIs(s: State, t: nat)
    requires InRange(s) && t < |s.threads| && s.threads[t].pc.PlaceCas?
    ensures var th := s.threads[t]; var taken := Taken(s.tables[th.m], s.hashes[t], th.pc.p);
            && (taken ==> Advance(s, t) == Set(s, t, th.(pc := Place(th.pc.value, th.pc.p + 1))))
            && (!taken ==> Advance(s, t) == Entered(s, t))
  {
  }

  lemma PlaceCasInv(s: State, t: nat)
    requires Inv(s) && InRange(s) && t < |s.threads| && s.threads[t].pc.PlaceCas?
    ensures Inv(Advance(s, t))
  {
    var value, p := s.threads[t].pc.value, s.threads[t].pc.p;
    if Taken(s.tables[s.threads[t].m], s.hashes[t], p) {
      SlotTaken(s, t, value, p);
      assert Advance(s, t) == Set(s, t, s.threads[t].(pc := Place(value, p + 1))) by { CasIs(s, t); }
    } else {
      EnteredInv(s, t);
      assert Advance(s, t) == Entered(s, t) by { CasIs(s, t); }
    }
  }

  lemma EnteredRest(s: State, t: nat)
    requires LockOk(s) && NumbersOk(s) && InRange(s) && t < |s.threads| && s.threads[t].pc.PlaceCas?
    ensures LockOk(Entered(s, t)) && NumbersOk(Entered(s, t))
  {
  }

  // ---- writing the value -------------------------------------------------

  lemma WriteShape(s: State, t: nat)
    requires Inv(s) && InRange(s) && t < |s.threads| && s.threads[t].pc.PlaceValue?
    ensures TablesOk(Written(s, t).tables)
  {
    var th := s.threads[t];
    assert ThreadOk(s.tables, s.hashes[t], th, t);
    ShapeKept(s.tables, th.m, Written(s, t).tables[th.m]);
  }

  lemma WriteKeys(s: State, t: nat, i: nat)
    requires Inv(s) && InRange(s) && t < |s.threads| && s.threads[t].pc.PlaceValue? && i < |s.tables|
    requires TablesOk(Written(s, t).tables)
    ensures KeysOk(Written(s, t).tables[i], Written(s, t).hashes, Written(s, t).threads)
  {
    var s' := Written(s, t);
    assert KeysOk(s.tables[i], s.hashes, s.threads);
    KeysFrame(s.tables[i], s.hashes, s.threads, s'.threads);
    SameKeys(s.tables[i], s'.tables[i], s.hashes, s'.threads);
  }

  lemma WriteValues(s: State, t: nat, i: nat, k: nat)
    requires Inv(s) && InRange(s) && t < |s.threads| && s.threads[t].pc.PlaceValue?
    requires i < |s.tables| && k < s.tables[i].capacity && TablesOk(Written(s, t).tables)
    ensures ValueOk(Written(s, t).tables[i], i, Written(s, t).hashes, Written(s, t).threads, k)
  {
    assert ThreadOk(s.tables, s.hashes[t], s.threads[t], t);
    assert ValueOk(s.tables[i], i, s.hashes, s.threads, k);
    assert KeysOk(s.tables[i], s.hashes, s.threads);
  }

  lemma WriteEntries(s: State, t: nat)
    requires Inv(s) && InRange(s) && t < |s.threads| && s.threads[t].pc.PlaceValue?
    ensures TablesOk(Written(s, t).tables) && EntriesOk(Written(s, t))
  {
    var s' := Written(s, t);
    WriteShape(s, t);
    forall i | 0 <= i < |s'.tables| ensures KeysOk(s'.tables[i], s'.hashes, s'.threads) { WriteKeys(s, t, i); }
    forall i, k | 0 <= i < |s'.tables| && 0 <= k < s'.tables[i].capacity
      ensures ValueOk(s'.tables[i], i, s'.hashes, s'.threads, k)
    {
      WriteValues(s, t, i, k);
    }
  }

  lemma SameKeys(h: Table, h': Table, hashes: seq<nat>, threads: seq<Thread>)
    requires |hashes| == |threads| && 0 < h.capacity == |h.keys| && h' == h.(values := h'.values)
             && KeysOk(h, hashes, threads)
    ensures KeysOk(h', hashes, threads)
  {
    forall j | 0 <= j < h.capacity ensures EntryOk(h', hashes, threads, j) {
      assert EntryOk(h, hashes, threads, j);
      assert Fills(h, h', |threads|);
      EntryFills(h, h', hashes, threads, threads, |threads|, j);
    }
  }

  lemma WriteThreads(s: State, t: nat)
    requires Inv(s) && InRange(s) && t < |s.threads| && s.threads[t].pc.PlaceValue?
    requires TablesOk(Written(s, t).tables)
    ensures ThreadsOk(Written(s, t))
  {
    var s' := Written(s, t);
    var m := s.threads[t].m;
    forall u | 0 <= u < |s'.threads| ensures ThreadOk(s'.tables, s'.hashes[u], s'.threads[u], u) {
      assert ThreadOk(s.tables, s.hashes[u], s.threads[u], u);
      if u != t {
        OneTable(s.tables, m, s'.tables[m], u);
        ThreadFrame(s.tables, s'.tables, s.hashes[u], s.threads[u], u);
      } else {
        assert !Absent(s'.tables[m], t);
      }
    }
  }

  lemma PlaceValueInv(s: State, t: nat)
    requires Inv(s) && InRange(s) && t < |s.threads| && s.threads[t].pc.PlaceValue?
    ensures Inv(Written(s, t))
  {
    WriteEntries(s, t);
    WriteThreads(s, t);
    WrittenRest(s, t);
  }

  lemma WrittenRest(s: State, t: nat)
    requires LockOk(s) && NumbersOk(s) && InRange(s) && t < |s.threads| && s.threads[t].pc.PlaceValue?
    ensures LockOk(Written(s, t)) && NumbersOk(Written(s, t))
  {
  }

  // ---- publishing a table ------------------------------------------------

  lemma {:induction false} NewCapacityIs(c: nat, n: nat)
    requires IsCapacity(c)
    ensures IsCapacity(NewCapacity(c, n)) && NewCapacity(c, n) >= c && n < NewCapacity(c, n) / 2
    decreases 2 * n + 2 - c
  {
    if n >= c / 2 {
      var k: nat :| k >= 5 && c == Pow2(k);
      assert 2 * c == Pow2(k + 1);
      NewCapacityIs(2 * c, n);
    }
  }

  lemma AtLeast32(c: nat)
    requires IsCapacity(c)
    ensures c >= 32 && IsCapacity(2 * c)
  {
    var k: nat :| k >= 5 && c == Pow2(k);
    Pow2Monotone(5, k);
    assert Pow2(5) == 32;
    assert 2 * c == Pow2(k + 1);
  }

  lemma EmptyTableOk(capacity: nat, prev: int, hashes: seq<nat>, threads: seq<Thread>, t: nat)
    requires capacity > 0 && |hashes| == |threads|
    ensures KeysOk(EmptyTable(capacity, prev), hashes, threads) && Absent(EmptyTable(capacity, prev), t)
  {
  }

  lemma PublishTables(s: State, t: nat)
    requires Inv(s) && InRange(s) && t < |s.threads| && s.threads[t].pc.Publish?
    ensures TablesOk(Published(s, t).tables)
  {
    var c := s.tables[s.main].capacity;
    AtLeast32(c);
    NewCapacityIs(2 * c, s.threads[t].pc.n);
    AtLeast32(NewCapacity(2 * c, s.threads[t].pc.n));
    assert s.threads[t].m == s.main;
  }

  lemma PublishEntries(s: State, t: nat)
    requires Inv(s) && InRange(s) && t < |s.threads| && s.threads[t].pc.Publish? && TablesOk(Published(s, t).tables)
    ensures EntriesOk(Published(s, t))
  {
    var s' := Published(s, t);
    forall i | 0 <= i < |s'.tables| ensures KeysOk(s'.tables[i], s'.hashes, s'.threads) {
      if i < |s.tables| {
        assert KeysOk(s.tables[i], s.hashes, s.threads);
        KeysFrame(s.tables[i], s.hashes, s.threads, s'.threads);
      } else {
        EmptyTableOk(s'.tables[i].capacity, s'.tables[i].prev, s'.hashes, s'.threads, 0);
      }
    }
    forall i, k | 0 <= i < |s'.tables| && 0 <= k < s'.tables[i].capacity
      ensures ValueOk(s'.tables[i], i, s'.hashes, s'.threads, k)
    {
      if i < |s.tables| { assert ValueOk(s.tables[i], i, s.hashes, s.threads, k); }
    }
  }

  lemma PublishThreads(s: State, t: nat)
    requires Inv(s) && InRange(s) && t < |s.threads| && s.threads[t].pc.Publish? && TablesOk(Published(s, t).tables)
    ensures ThreadsOk(Published(s, t))
  {
    var s' := Published(s, t);
    forall u | 0 <= u < |s'.threads| ensures ThreadOk(s'.tables, s'.hashes[u], s'.threads[u], u) {
      assert ThreadOk(s.tables, s.hashes[u], s.threads[u], u);
      AppendGrows(s.tables, s'.tables[|s.tables|], u);
      ThreadFrame(s.tables, s'.tables, s.hashes[u], s.threads[u], u);
    }
  }

  lemma AppendGrows(tables: seq<Table>, h: Table, u: nat)
    requires TablesOk(tables) && Absent(h, u)
    ensures Grows(tables, tables + [h], u)
  {
  }

  lemma PublishedRest(s: State, t: nat)
    requires LockOk(s) && NumbersOk(s) && InRange(s) && t < |s.threads| && s.threads[t].pc.Publish?
    ensures LockOk(Published(s, t)) && NumbersOk(Published(s, t))
  {
  }

  lemma PublishInv(s: State, t: nat)
    requires Inv(s) && InRange(s) && t < |s.threads| && s.threads[t].pc.Publish?
    ensures Inv(Published(s, t))
  {
    PublishTables(s, t);
    PublishEntries(s, t);
    PublishThreads(s, t);
    PublishedRest(s, t);
  }

  // ---- every step keeps the invariant ------------------------------------

  lemma InvInRange(s: State)
    requires Inv(s)
    ensures InRange(s)
  {
    forall t | 0 <= t < |s.threads|
      ensures s.threads[t].m < |s.tables| && (s.threads[t].pc.Probe? ==> s.threads[t].pc.h < |s.tables|)
    {
      assert ThreadOk(s.tables, s.hashes[t], s.threads[t], t);
    }
  }

  lemma ProbeStep(s: State, t: nat)
    requires Inv(s) && InRange(s) && t < |s.threads| && s.threads[t].pc.Probe?
    ensures Inv(Advance(s, t))
  {
    ProbeInv(s, t);
  }

  lemma CountStep(s: State, t: nat)
    requires Inv(s) && InRange(s) && t < |s.threads| && s.threads[t].pc.Count?
    ensures Inv(Advance(s, t))
  {
    CountInv(s, t);
  }

  lemma PublishStep(s: State, t: nat)
    requires Inv(s) && InRange(s) && t < |s.threads| && s.threads[t].pc.Publish?
    ensures Inv(Advance(s, t))
  {
    PublishInv(s, t);
  }

  lemma PlaceValueStep(s: State, t: nat)
    requires Inv(s) && InRange(s) && t < |s.threads| && s.threads[t].pc.PlaceValue?
    ensures Inv(Advance(s, t))
  {
    PlaceValueInv(s, t);
  }

  lemma StepInv(s: State, t: nat)
    requires Inv(s) && InRange(s) && t < |s.threads|
    ensures Inv(Advance(s, t))
  {
    match s.threads[t].pc
    case Idle => IdleInv(s, t);
    case Probe(_, _) => ProbeStep(s, t);
    case Count => CountStep(s, t);
    case CheckLock(_) => CheckLockInv(s, t);
    case Reload(_) => ReloadInv(s, t);
    case Publish(_) => PublishStep(s, t);
    case Unlock(_) => UnlockInv(s, t);
    case Room(_) => RoomInv(s, t);
    case Place(_, _) => PlaceInv(s, t);
    case PlaceCas(_, _) => PlaceCasInv(s, t);
    case PlaceValue(_, _) => PlaceValueStep(s, t);
  }

  lemma InitInv(s: State)
    requires Init(s)
    ensures Inv(s)
  {
    assert Pow2(5) == 32;
    assert IsCapacity(INITIAL_SIZE);
    EmptyTableOk(INITIAL_SIZE, -1, s.hashes, s.threads, 0);
    forall t | 0 <= t < |s.threads| ensures ThreadOk(s.tables, s.hashes[t], s.threads[t], t) {
      EmptyTableOk(INITIAL_SIZE, -1, s.hashes, s.threads, t);
    }
  }

  // ---- runs --------------------------------------------------------------

  ghost predicate Steps(s: State, s': State) {
    InRange(s) && exists t :: 0 <= t < |s.threads| && s' == Advance(s, t)
  }

  ghost predicate StepAt(run: seq<State>, i: nat)
    requires i + 1 < |run|
  {
    Steps(run[i], run[i + 1])
  }

  ghost predicate IsRun(run: seq<State>) {
    run != [] && Init(run[0]) && forall i :: 0 <= i < |run| - 1 ==> StepAt(run, i)
  }

  lemma StepsInv(s: State, s': State)
    requires Inv(s) && Steps(s, s')
    ensures Inv(s')
  {
    var t :| 0 <= t < |s.threads| && s' == Advance(s, t);
    StepInv(s, t);
  }

  lemma {:induction false} RunInv(run: seq<State>, i: nat)
    requires IsRun(run) && i < |run|
    ensures Inv(run[i])
  {
    if i == 0 {
      InitInv(run[0]);
    } else {
      RunInv(run, i - 1);
      assert StepAt(run, i - 1);
      StepsInv(run[i - 1], run[i]);
    }
  }

  /** A thread gets the same producer on every call, whatever tables have been published
      since, and no producer is made for it twice. */
  lemma SameProducerEachCall(run: seq<State>, i: nat, t: nat, k: nat, l: nat)
    requires IsRun(run) && i < |run| && t < |run[i].threads|
    requires k < |run[i].threads[t].results| && l < |run[i].threads[t].results|
    ensures run[i].threads[t].results[k] == run[i].threads[t].results[l]
    ensures run[i].threads[t].made == [run[i].threads[t].results[k]]
  {
    RunInv(run, i);
    assert ThreadOk(run[i].tables, run[i].hashes[t], run[i].threads[t], t);
  }

  /** Two threads never share a producer. */
  lemma ProducersNotShared(run: seq<State>, i: nat, t: nat, u: nat, k: nat, l: nat)
    requires IsRun(run) && i < |run| && t < u < |run[i].threads|
    requires k < |run[i].threads[t].results| && l < |run[i].threads[u].results|
    ensures run[i].threads[t].results[k] != run[i].threads[u].results[l]
  {
    RunInv(run, i);
    assert ThreadOk(run[i].tables, run[i].hashes[t], run[i].threads[t], t);
    assert ThreadOk(run[i].tables, run[i].hashes[u], run[i].threads[u], u);
  }

  /** Every probe loop ends: fewer slots are probed than the table has, since each table
      always has an empty slot. */
  lemma ProbesEnd(run: seq<State>, i: nat, t: nat)
    requires IsRun(run) && i < |run| && t < |run[i].threads|
    ensures InRange(run[i])
    ensures var s, th := run[i], run[i].threads[t];
            && (th.pc.Probe? ==> th.pc.p < s.tables[th.pc.h].capacity)
            && (th.pc.Place? || th.pc.PlaceCas? ==> th.pc.p < s.tables[th.m].capacity)
  {
    RunInv(run, i);
    InvInRange(run[i]);
    assert ThreadOk(run[i].tables, run[i].hashes[t], run[i].threads[t], t);
  }

  lemma EachTableHasRoom(run: seq<State>, i: nat, h: nat) returns (j: nat)
    requires IsRun(run) && i < |run| && h < |run[i].tables|
    ensures j < |run[i].tables[h].keys| && run[i].tables[h].keys[j] == 0
  {
    RunInv(run, i);
    assert KeysOk(run[i].tables[h], run[i].hashes, run[i].threads);
    j := FreeSlot(run[i], h);
  }
}
