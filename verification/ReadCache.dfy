/** The container cache of a restore (readCache.cc, enclaveRecvDecoder.cc): an LRU cache
    from container names to slots of a pool, into which container files are copied. */
module ReadCache {
  import opened Data
  import opened LruCache
  import I = ContainerId

  type Name = string
  type Bytes = seq<Byte>

  const MAX_CONTAINER_SIZE: nat := 4194304

  /** `memcpy` of `data` to the start of a buffer. */
  function Overwrite(buffer: Bytes, data: Bytes): (r: Bytes)
    requires |data| <= |buffer|
    ensures |r| == |buffer| && data <= r
  {
    data + buffer[|data|..]
  }

  // ---- the cache as a function ---------------------------------------------

  /** The recency list of names with their slots, the pool, and the next unused slot. */
  datatype State = State(entries: seq<Entry<Name, nat>>, pool: seq<Bytes>, current: nat)

  datatype Outcome = Served(next: State, data: Bytes) | OutOfBounds

  ghost predicate PoolOk(pool: seq<Bytes>) {
    forall i :: 0 <= i < |pool| ==> |pool[i]| == MAX_CONTAINER_SIZE
  }

  /** `InsertToCache`: the slot to use is that of the least recently used name once the
      pool is in use, the next unused one before. */
  function InsertInto(capacity: nat, s: State, name: Name, data: Bytes): Outcome
    requires PoolOk(s.pool) && |data| <= MAX_CONTAINER_SIZE
  {
    var evict := |s.entries| + 1 > |s.pool|;
    if evict && s.entries == [] then OutOfBounds
    else
      var slot := if evict then s.entries[|s.entries| - 1].value else s.current;
      if slot >= |s.pool| then OutOfBounds
      else Served(State(Apply(s.entries, Op.Insert(name, slot), capacity, 0),
                        s.pool[slot := Overwrite(s.pool[slot], data)],
                        if evict then s.current else s.current + 1), data)
  }

  lemma InsertedAt(capacity: nat, s: State, name: Name, data: Bytes, slot: nat, current: nat)
    requires PoolOk(s.pool) && |data| <= MAX_CONTAINER_SIZE && InsertInto(capacity, s, name, data).Served?
    requires if |s.entries| + 1 > |s.pool| then s.entries != [] && slot == s.entries[|s.entries| - 1].value
             && current == s.current
             else slot == s.current && current == s.current + 1
    ensures slot < |s.pool|
    ensures InsertInto(capacity, s, name, data).next
         == State(Apply(s.entries, Op.Insert(name, slot), capacity, 0), s.pool[slot := Overwrite(s.pool[slot], data)],
             current)
  {
  }

  /** One container of `GetReqContainers`: from the cache if it is there, else from disk
      and into the cache. */
  function Serve(capacity: nat, s: State, name: Name, file: Bytes): Outcome
    requires PoolOk(s.pool) && |file| <= MAX_CONTAINER_SIZE
  {
    if Has(s.entries, name) then
      var slot := s.entries[IndexOf(s.entries, name)].value;
      if slot >= |s.pool| then OutOfBounds
      else Served(s.(entries := Touch(s.entries, name)), s.pool[slot])
    else InsertInto(capacity, s, name, file)
  }

  ghost predicate DiskOk(disk: Name -> Bytes) {
    forall n :: |disk(n)| <= MAX_CONTAINER_SIZE
  }

  /** The state after some requests, whether all accesses were inside the pool, and what
      each request got. */
  datatype Answer = Answer(state: State, inBounds: bool, data: seq<Bytes>)

  ghost function ServeAll(capacity: nat, start: State, disk: Name -> Bytes, names: seq<Name>): (r: Answer)
    requires PoolOk(start.pool) && DiskOk(disk)
    ensures PoolOk(r.state.pool) && |r.data| == |names|
    decreases |names|
  {
    if names == [] then Answer(start, true, [])
    else
      var before := ServeAll(capacity, start, disk, names[..|names| - 1]);
      var name := names[|names| - 1];
      var out := Serve(capacity, before.state, name, disk(name));
      if out.OutOfBounds? then Answer(before.state, false, before.data + [[]])
      else Answer(out.next, before.inBounds, before.data + [out.data])
  }

  /** Every request got a buffer that starts with the whole file. */
  ghost predicate Right(r: Answer, disk: Name -> Bytes, names: seq<Name>) {
    r.inBounds && |r.data| == |names| && forall i :: 0 <= i < |names| ==> disk(names[i]) <= r.data[i]
  }

  /** One more request. */
  lemma ServeNext(capacity: nat, start: State, disk: Name -> Bytes, names: seq<Name>, name: Name)
    requires PoolOk(start.pool) && DiskOk(disk)
    ensures var before, r := ServeAll(capacity, start, disk, names), ServeAll(capacity, start, disk, names + [name]);
            var out := Serve(capacity, before.state, name, disk(name));
            if out.OutOfBounds? then r == Answer(before.state, false, before.data + [[]])
            else r == Answer(out.next, before.inBounds, before.data + [out.data])
  {
    assert (names + [name])[..|names|] == names;
  }

  lemma RightNext(r: Answer, disk: Name -> Bytes, names: seq<Name>, s: State, name: Name, data: Bytes)
    requires |r.data| == |names|
    ensures Right(Answer(s, r.inBounds, r.data + [data]), disk, names + [name])
            <==> Right(r, disk, names) && disk(name) <= data
  {
    var longer, all := r.data + [data], names + [name];
    assert longer[|names|] == data && all[|names|] == name;
    assert forall i :: 0 <= i < |names| ==> longer[i] == r.data[i] && all[i] == names[i];
  }

  function FreshState(pool: seq<Bytes>): State { State([], pool, 0) }

  // ---- with as many slots as names -----------------------------------------

  /** No name and no slot occurs twice. */
  ghost predicate Apart(entries: seq<Entry<Name, nat>>) {
    forall i, j :: 0 <= i < j < |entries| ==> entries[i].key != entries[j].key && entries[i].value != entries[j].value
  }

  /** The slot of an entry is in use, and starts with the entry's file. */
  ghost predicate Holds(s: State, disk: Name -> Bytes, e: Entry<Name, nat>) {
    e.value < s.current && e.value < |s.pool| && disk(e.key) <= s.pool[e.value]
  }

  /** Live names own distinct slots, whose contents start with their files. */
  ghost predicate CacheOk(s: State, n: nat, disk: Name -> Bytes) {
    && |s.pool| == n && PoolOk(s.pool) && s.current == |s.entries| <= n && Apart(s.entries)
    && forall i :: 0 <= i < |s.entries| ==> Holds(s, disk, s.entries[i])
  }

  lemma MovedApart(entries: seq<Entry<Name, nat>>, i: nat)
    requires i < |entries| && Apart(entries)
    ensures Apart(Moved(entries, i))
  {
  }

  lemma HitOk(s: State, n: nat, disk: Name -> Bytes, name: Name)
    requires CacheOk(s, n, disk) && Has(s.entries, name)
    ensures var i := IndexOf(s.entries, name);
            && s.entries[i].value < n && disk(name) <= s.pool[s.entries[i].value]
            && CacheOk(s.(entries := Touch(s.entries, name)), n, disk)
  {
    var i, t := IndexOf(s.entries, name), Touch(s.entries, name);
    assert Holds(s, disk, s.entries[i]);
    MovedApart(s.entries, i);
    forall j | 0 <= j < |t| ensures Holds(s.(entries := t), disk, t[j]) {
      assert Holds(s, disk, s.entries[if j == 0 then i else if j <= i then j - 1 else j]);
    }
  }

  lemma PushApart(e: Entry<Name, nat>, kept: seq<Entry<Name, nat>>)
    requires Apart(kept) && forall i :: 0 <= i < |kept| ==> kept[i].key != e.key && kept[i].value != e.value
    ensures Apart([e] + kept)
  {
  }

  /** Writing the file of a new name to a slot that no kept name owns. */
  lemma StoreOk(s: State, n: nat, disk: Name -> Bytes, name: Name, slot: nat, kept: seq<Entry<Name, nat>>, current: nat)
    requires CacheOk(s, n, disk) && DiskOk(disk) && !Has(s.entries, name)
    requires kept <= s.entries && slot < n && slot < current == |kept| + 1 <= n && s.current <= current
    requires forall i :: 0 <= i < |kept| ==> kept[i].value != slot
    ensures CacheOk(State([Entry(name, slot)] + kept, s.pool[slot := Overwrite(s.pool[slot], disk(name))], current),
            n, disk)
  {
    var entries := [Entry(name, slot)] + kept;
    var s' := State(entries, s.pool[slot := Overwrite(s.pool[slot], disk(name))], current);
    PushApart(Entry(name, slot), kept);
    forall i | 0 <= i < |entries| ensures Holds(s', disk, entries[i]) {
      if i > 0 { assert Holds(s, disk, s.entries[i - 1]); }
    }
  }

  lemma MissOk(s: State, n: nat, disk: Name -> Bytes, name: Name)
    requires n > 0 && CacheOk(s, n, disk) && DiskOk(disk) && !Has(s.entries, name)
    ensures var out := InsertInto(n, s, name, disk(name));
            out.Served? && CacheOk(out.next, n, disk) && disk(name) <= out.data
  {
    if |s.entries| == n {
      var last := |s.entries| - 1;
      assert Holds(s, disk, s.entries[last]);
      StoreOk(s, n, disk, name, s.entries[last].value, s.entries[..last], s.current);
      assert ([Entry(name, s.entries[last].value)] + s.entries)[..n]
          == [Entry(name, s.entries[last].value)] + s.entries[..last];
    } else {
      forall i | 0 <= i < |s.entries| ensures s.entries[i].value != s.current { assert Holds(s, disk, s.entries[i]); }
      StoreOk(s, n, disk, name, s.current, s.entries, s.current + 1);
      assert ([Entry(name, s.current)] + s.entries)[..|s.entries| + 1] == [Entry(name, s.current)] + s.entries;
    }
  }

  /** From any state in which names own slots with their files, all requests are served with
      the right bytes. */
  lemma {:induction false} ServesFiles(n: nat, s: State, disk: Name -> Bytes, names: seq<Name>)
    requires n > 0 && CacheOk(s, n, disk) && DiskOk(disk)
    ensures var r := ServeAll(n, s, disk, names); Right(r, disk, names) && CacheOk(r.state, n, disk)
    decreases |names|
  {
    if names != [] {
      var before, name := names[..|names| - 1], names[|names| - 1];
      ServesFiles(n, s, disk, before);
      assert before + [name] == names;
      ServesNext(n, s, disk, before, name);
    }
  }

  lemma ServesNext(n: nat, s: State, disk: Name -> Bytes, names: seq<Name>, name: Name)
    requires n > 0 && PoolOk(s.pool) && DiskOk(disk)
    requires var r := ServeAll(n, s, disk, names); Right(r, disk, names) && CacheOk(r.state, n, disk)
    ensures var r := ServeAll(n, s, disk, names + [name]); Right(r, disk, names + [name]) && CacheOk(r.state, n, disk)
  {
    var r := ServeAll(n, s, disk, names);
    var out := Serve(n, r.state, name, disk(name));
    assert out.Served? && CacheOk(out.next, n, disk) && disk(name) <= out.data by {
      if Has(r.state.entries, name) { HitOk(r.state, n, disk, name); } else { MissOk(r.state, n, disk, name); }
    }
    ServeNext(n, s, disk, names, name);
    RightNext(r, disk, names, out.next, name, out.data);
  }

  // ---- with any other number of slots --------------------------------------

  /** The containers that are asked for have names of seven characters. */
  predicate ContainerNames(names: seq<Name>) { forall i :: 0 <= i < |names| ==> |names[i]| == I.CONTAINER_ID_LENGTH }

  const NAMES: nat := I.Power(I.CONTAINER_ID_LENGTH)

  function Nth(k: nat): Name { I.Name(k, I.CONTAINER_ID_LENGTH) }

  lemma NthDiffers(j: nat, k: nat)
    requires j < k < NAMES
    ensures Nth(j) != Nth(k)
  {
    I.NamesInOrder(j, k, I.CONTAINER_ID_LENGTH);
  }

  function FirstNames(k: nat): (names: seq<Name>)
    ensures |names| == k && ContainerNames(names)
  {
    seq(k, i requires 0 <= i => Nth(i))
  }

  lemma FirstNamesNext(k: nat)
    ensures FirstNames(k + 1)[..k] == FirstNames(k) && FirstNames(k + 1)[k] == Nth(k)
  {
  }

  /** A disk on which the first container differs from the others. */
  function TwoContents(name: Name): Bytes { if name == Nth(0) then [1] else [2] }

  ghost function Requested(c: nat, pool: seq<Bytes>, k: nat): Answer
    requires PoolOk(pool)
  {
    ServeAll(c, FreshState(pool), TwoContents, FirstNames(k))
  }

  function NthEntry(k: nat): Entry<Name, nat> { Entry(Nth(k), k) }

  /** The newest entries of the first `k` names, which got the slots in turn. */
  ghost predicate InTurn(entries: seq<Entry<Name, nat>>, k: nat) {
    |entries| <= k && forall i: nat {:trigger entries[i]} :: i < |entries| ==> entries[i] == NthEntry(k - 1 - i)
  }

  lemma FreshName(entries: seq<Entry<Name, nat>>, k: nat)
    requires InTurn(entries, k) && k < NAMES
    ensures !Has(entries, Nth(k))
  {
    var i := IndexOf(entries, Nth(k));
    if i < |entries| { NthDiffers(k - 1 - i, k); }
  }

  /** The state after `k` different names: the next slot is `k`, and the list has been cut
      to `c` names. */
  ghost predicate FirstSeen(c: nat, s: State, n: nat, k: nat) {
    && s.current == k <= |s.pool| == n && PoolOk(s.pool)
    && |s.entries| == (if c == 0 || k <= c then k else c) && InTurn(s.entries, k)
  }

  lemma TurnNext(entries: seq<Entry<Name, nat>>, k: nat, m: nat)
    requires InTurn(entries, k) && m <= |entries| + 1
    ensures InTurn(([NthEntry(k)] + entries)[..m], k + 1)
  {
    var next := ([NthEntry(k)] + entries)[..m];
    forall i: nat {:trigger next[i]} | i < m ensures next[i] == NthEntry(k - i) {
      if i > 0 { assert next[i] == entries[i - 1]; }
    }
  }

  lemma NextSeen(c: nat, s: State, n: nat, k: nat)
    requires FirstSeen(c, s, n, k) && k < n < NAMES && (c == 0 || c != n)
    ensures var out := Serve(c, s, Nth(k), TwoContents(Nth(k))); out.Served? && FirstSeen(c, out.next, n, k + 1)
  {
    FreshName(s.entries, k);
    var out := Serve(c, s, Nth(k), TwoContents(Nth(k)));
    var long := [NthEntry(k)] + s.entries;
    var m := if c == 0 || k + 1 <= c then |long| else c;
    assert out.next.entries == long[..m];
    TurnNext(s.entries, k, m);
  }

  lemma {:induction false} AfterFirst(c: nat, pool: seq<Bytes>, k: nat)
    requires PoolOk(pool) && k <= |pool| < NAMES && (c == 0 || c != |pool|)
    ensures FirstSeen(c, Requested(c, pool, k).state, |pool|, k)
  {
    if k > 0 {
      AfterFirst(c, pool, k - 1);
      SeenNext(c, pool, k - 1);
    }
  }

  lemma SeenNext(c: nat, pool: seq<Bytes>, k: nat)
    requires PoolOk(pool) && k < |pool| < NAMES && (c == 0 || c != |pool|)
    requires FirstSeen(c, Requested(c, pool, k).state, |pool|, k)
    ensures FirstSeen(c, Requested(c, pool, k + 1).state, |pool|, k + 1)
  {
    RequestNext(c, pool, k);
    NextSeen(c, Requested(c, pool, k).state, |pool|, k);
  }

  /** With fewer names than slots, a new name after `n` others gets a slot past the pool. */
  lemma NextOutside(c: nat, s: State, n: nat)
    requires FirstSeen(c, s, n, n) && 0 < c < n < NAMES
    ensures Serve(c, s, Nth(n), TwoContents(Nth(n))).OutOfBounds?
  {
    FreshName(s.entries, n);
  }

  /** Too few names in the cache: the requests end past the pool. */
  lemma PastThePool(c: nat, pool: seq<Bytes>)
    requires PoolOk(pool) && 0 < c < |pool| < NAMES
    ensures !Requested(c, pool, |pool| + 1).inBounds
  {
    var n := |pool|;
    var r := Requested(c, pool, n);
    AfterFirst(c, pool, n);
    NextOutside(c, r.state, n);
    RequestNext(c, pool, n);
  }

  lemma RequestNext(c: nat, pool: seq<Bytes>, k: nat)
    requires PoolOk(pool)
    ensures var r, r' := Requested(c, pool, k), Requested(c, pool, k + 1);
            var out := Serve(c, r.state, Nth(k), TwoContents(Nth(k)));
            if out.OutOfBounds? then !r'.inBounds else r'.state == out.next
  {
    FirstNamesNext(k);
    assert FirstNames(k + 1) == FirstNames(k) + [Nth(k)];
    ServeNext(c, FreshState(pool), TwoContents, FirstNames(k), Nth(k));
  }

  /** The slot of the first name is used again. */
  ghost predicate Reused(s: State, n: nat) {
    && |s.pool| == n > 0 && PoolOk(s.pool) && s.pool[0][0] == 2
    && |s.entries| == n + 1 && s.entries[n] == Entry(Nth(0), 0)
    && forall i :: 0 <= i < n ==> s.entries[i].key != Nth(0)
  }

  lemma ReuseFirst(c: nat, s: State, n: nat)
    requires FirstSeen(c, s, n, n) && 0 < n < NAMES && (c == 0 || c > n)
    ensures var out := Serve(c, s, Nth(n), TwoContents(Nth(n))); out.Served? && Reused(out.next, n)
  {
    FreshName(s.entries, n);
    NthDiffers(0, n);
    var out := Serve(c, s, Nth(n), TwoContents(Nth(n)));
    assert s.entries[n - 1].value == 0;
    assert out.next.entries == [Entry(Nth(n), 0)] + s.entries;
    forall i | 0 <= i < n ensures out.next.entries[i].key != Nth(0) {
      if i > 0 { assert out.next.entries[i] == s.entries[i - 1]; }
      NthDiffers(0, n - i);
    }
  }

  /** The pool is full and the list is not cut. */
  lemma ReusedSlot(c: nat, pool: seq<Bytes>)
    requires PoolOk(pool) && 0 < |pool| < NAMES && (c == 0 || c > |pool|)
    ensures Reused(Requested(c, pool, |pool| + 1).state, |pool|)
  {
    var n := |pool|;
    AfterFirst(c, pool, n);
    RequestNext(c, pool, n);
    ReuseFirst(c, Requested(c, pool, n).state, n);
  }

  lemma FoundAt(entries: seq<Entry<Name, nat>>, name: Name, n: nat)
    requires n < |entries| && entries[n].key == name && forall i :: 0 <= i < n ==> entries[i].key != name
    ensures IndexOf(entries, name) == n
  {
  }

  /** Too many names: the first name is still in the cache, its slot holds another file. */
  lemma SharedSlot(c: nat, pool: seq<Bytes>)
    requires PoolOk(pool) && 0 < |pool| < NAMES && (c == 0 || c > |pool|)
    ensures var names := FirstNames(|pool| + 1) + [Nth(0)];
            !Right(ServeAll(c, FreshState(pool), TwoContents, names), TwoContents, names)
  {
    var names, r := FirstNames(|pool| + 1), Requested(c, pool, |pool| + 1);
    ReusedSlot(c, pool);
    FoundAt(r.state.entries, Nth(0), |pool|);
    ServeNext(c, FreshState(pool), TwoContents, names, Nth(0));
    var out := Serve(c, r.state, Nth(0), TwoContents(Nth(0)));
    RightNext(r, TwoContents, names, out.next, Nth(0), out.data);
  }

  lemma Refused(c: nat, pool: seq<Bytes>) returns (names: seq<Name>)
    requires PoolOk(pool) && |pool| < NAMES && !(c == |pool| > 0)
    ensures ContainerNames(names) && !Right(ServeAll(c, FreshState(pool), TwoContents, names), TwoContents, names)
  {
    if |pool| == 0 {
      names := [Nth(0)];
      assert names[..0] == [];
    } else if 0 < c < |pool| {
      names := FirstNames(|pool| + 1);
      PastThePool(c, pool);
    } else {
      names := FirstNames(|pool| + 1) + [Nth(0)];
      SharedSlot(c, pool);
    }
  }

  /** All requests for containers on all disks are served with the right bytes exactly when
      the LRU cache is built for as many names as the pool has slots, and for at least one.
      (A pool of 36^7 slots, each of 4 MB, does not exist.) */
  lemma TransparentExactly(c: nat, pool: seq<Bytes>)
    requires PoolOk(pool) && |pool| < NAMES
    ensures (forall disk: Name -> Bytes, names :: DiskOk(disk) && ContainerNames(names)
                                                  ==> Right(ServeAll(c, FreshState(pool), disk, names), disk, names))
            <==> c == |pool| > 0
  {
    if c == |pool| > 0 {
      forall disk: Name -> Bytes, names | DiskOk(disk)
        ensures Right(ServeAll(c, FreshState(pool), disk, names), disk, names)
      {
        ServesFiles(c, FreshState(pool), disk, names);
      }
    } else {
      var names := Refused(c, pool);
      assert DiskOk(TwoContents);
    }
  }

  // ---- as it is built and configured ---------------------------------------

  /** The capacity in readCache.h, and `readCacheSize_` in config.json. */
  const SHIPPED_CAPACITY: nat := 1
  const SHIPPED_POOL: nat := 64

  /** How often the name differs from the one requested before. */
  function Changes(names: seq<Name>): nat {
    if names == [] then 0
    else
      var k := |names| - 1;
      Changes(names[..k]) + if k == 0 || names[k] != names[k - 1] then 1 else 0
  }

  /** The one name in the cache is the last one, in the slot used last. */
  ghost predicate OneName(s: State, n: nat, disk: Name -> Bytes, names: seq<Name>) {
    && |s.pool| == n && PoolOk(s.pool) && s.current == Changes(names) <= n
    && if names == [] then s.entries == [] else
         && s.current > 0 && s.entries == [Entry(names[|names| - 1], s.current - 1)]
         && disk(names[|names| - 1]) <= s.pool[s.current - 1]
  }

  lemma SameName(s: State, name: Name, file: Bytes, slot: nat)
    requires PoolOk(s.pool) && |file| <= MAX_CONTAINER_SIZE && s.entries == [Entry(name, slot)] && slot < |s.pool|
    ensures Serve(1, s, name, file) == Served(s, s.pool[slot])
  {
    assert s.entries[0].key == name;
    assert IndexOf(s.entries, name) == 0;
    assert Touch(s.entries, name) == s.entries;
  }

  lemma OtherName(s: State, name: Name, file: Bytes)
    requires PoolOk(s.pool) && |file| <= MAX_CONTAINER_SIZE && |s.entries| <= 1 < |s.pool| && !Has(s.entries, name)
    ensures Serve(1, s, name, file) ==
            if s.current >= |s.pool| then OutOfBounds
            else Served(State([Entry(name, s.current)], s.pool[s.current := Overwrite(s.pool[s.current], file)],
                s.current + 1), file)
  {
    if s.current < |s.pool| {
      assert Apply(s.entries, Op.Insert(name, s.current), 1, 0) == [Entry(name, s.current)];
    }
  }

  /** One more request. */
  lemma OneNameStep(s: State, n: nat, disk: Name -> Bytes, names: seq<Name>, name: Name)
    requires n > 1 && DiskOk(disk) && OneName(s, n, disk, names)
    ensures var out := Serve(1, s, name, disk(name));
            if Changes(names + [name]) > n then out.OutOfBounds?
            else out.Served? && OneName(out.next, n, disk, names + [name]) && disk(name) <= out.data
  {
    var k, longer := |names|, names + [name];
    assert longer[..k] == names;
    if k > 0 && names[k - 1] == name {
      SameName(s, name, disk(name), s.current - 1);
    } else {
      assert !Has(s.entries, name);
      OtherName(s, name, disk(name));
    }
  }

  /** A cache built for one name serves a sequence of requests exactly when the name changes
      at most as often as the pool has slots: each change uses up a slot. */
  lemma {:induction false} OneNameServes(pool: seq<Bytes>, disk: Name -> Bytes, names: seq<Name>)
    requires |pool| > 1 && PoolOk(pool) && DiskOk(disk)
    ensures var r := ServeAll(1, FreshState(pool), disk, names);
            && (r.inBounds <==> Changes(names) <= |pool|)
            && (r.inBounds ==> Right(r, disk, names) && OneName(r.state, |pool|, disk, names))
    decreases |names|
  {
    if names != [] {
      var before, name := names[..|names| - 1], names[|names| - 1];
      OneNameServes(pool, disk, before);
      assert before + [name] == names;
      var r := ServeAll(1, FreshState(pool), disk, before);
      ServeNext(1, FreshState(pool), disk, before, name);
      if Changes(before) <= |pool| {
        OneNameStep(r.state, |pool|, disk, before, name);
        var out := Serve(1, r.state, name, disk(name));
        if out.Served? { RightNext(r, disk, before, out.next, name, out.data); }
      }
    }
  }

  lemma {:induction false} AllChange(names: seq<Name>)
    requires forall i :: 0 < i < |names| ==> names[i] != names[i - 1]
    ensures Changes(names) == |names|
    decreases |names|
  {
    if names != [] { AllChange(names[..|names| - 1]); }
  }

  /** As shipped, any 65 requests of which no two in a row are the same write past the pool;
      so restoring from 65 containers does, and so does taking turns between two. */
  lemma ShippedOverflows(pool: seq<Bytes>, disk: Name -> Bytes, names: seq<Name>)
    requires |pool| == SHIPPED_POOL && PoolOk(pool) && DiskOk(disk)
    requires |names| > SHIPPED_POOL && forall i :: 0 < i < |names| ==> names[i] != names[i - 1]
    ensures !ServeAll(SHIPPED_CAPACITY, FreshState(pool), disk, names).inBounds
  {
    AllChange(names);
    OneNameServes(pool, disk, names);
  }

  // ---- the cache and the restore loop --------------------------------------

  /** `ReadCache`. */
  class ContainerCache {
    const lru: Cache<Name, nat>
    const pool: array<Bytes>
    var currentIndex: nat

    ghost predicate Valid() reads this, lru, pool {
      lru.Valid() && lru.elasticity == 0 && PoolOk(pool[..])
    }

    ghost function Abstract(): State reads this, lru, lru.keys, pool {
      State(lru.Contents(), pool[..], currentIndex)
    }

    constructor (capacity: nat, cacheSize: nat)
      ensures Valid() && fresh(lru) && fresh(pool) && lru.maxSize == capacity && lru.keys == []
      ensures pool.Length == cacheSize && Abstract() == FreshState(pool[..])
    {
      lru := new Cache(capacity, 0);
      pool := new Bytes[cacheSize](_ => seq(MAX_CONTAINER_SIZE, _ => 0));
      currentIndex := 0;
    }

    method ExistsInCache(name: Name) returns (found: bool)
      requires Valid()
      ensures found == Has(Abstract().entries, name)
    {
      found := lru.Contains(name);
    }

    /** `memcpy` to a slot, and the insertion of its name; `next` is the next unused slot. */
    method Store(name: Name, slot: nat, data: Bytes, next: nat)
      requires Valid() && slot < pool.Length && |data| <= MAX_CONTAINER_SIZE
      modifies this`currentIndex, pool, lru`cache, lru`keys, lru.keys
      ensures Valid() && pool[..] == old(pool[..])[slot := Overwrite(old(pool[slot]), data)] && currentIndex == next
      ensures lru.Contents() == Apply(old(lru.Contents()), Op.Insert(name, slot), lru.maxSize, 0)
      ensures forall n :: n in lru.keys ==> n in old(lru.keys) || fresh(n)
    {
      pool[slot] := Overwrite(pool[slot], data);
      lru.Insert(name, slot);
      currentIndex := next;
      assert pool[..] == old(pool[..])[slot := Overwrite(old(pool[slot]), data)];
    }

    /** The slot written is in the pool if the outcome is not `OutOfBounds`. */
    method InsertToCache(name: Name, data: Bytes)
      requires Valid() && |data| <= MAX_CONTAINER_SIZE && !Has(Abstract().entries, name)
      requires InsertInto(lru.maxSize, Abstract(), name, data).Served?
      modifies this`currentIndex, pool, lru`cache, lru`keys, lru.keys
      ensures Valid() && Abstract() == InsertInto(lru.maxSize, old(Abstract()), name, data).next
      ensures forall n :: n in lru.keys ==> n in old(lru.keys) || fresh(n)
    {
      var slot, next := currentIndex, currentIndex + 1;
      var size := lru.Size();
      if size + 1 > pool.Length {
        slot := lru.PruneValue();
        next := currentIndex;
      }
      InsertedAt(lru.maxSize, Abstract(), name, data, slot, next);
      Store(name, slot, data, next);
    }

    method ReadFromCache(name: Name) returns (data: Bytes)
      requires Valid() && Has(Abstract().entries, name)
      requires Abstract().entries[IndexOf(Abstract().entries, name)].value < pool.Length
      modifies lru`keys
      ensures Valid() && Abstract() == old(Abstract()).(entries := Touch(old(Abstract()).entries, name))
      ensures data == pool[old(Abstract().entries[IndexOf(Abstract().entries, name)].value)]
      ensures forall n :: n in lru.keys <==> n in old(lru.keys)
    {
      var found, index := lru.TryGet(name, 0);
      data := pool[index];
    }
  }

  /** The container directories: base containers are looked up first. */
  datatype Disk = Disk(base: map<Name, Bytes>, delta: map<Name, Bytes>)

  predicate Exists(d: Disk, name: Name) { name in d.base || name in d.delta }

  function FileOf(d: Disk, name: Name): Bytes {
    if name in d.base then d.base[name] else if name in d.delta then d.delta[name] else []
  }

  function Files(d: Disk): Name -> Bytes { n => FileOf(d, n) }

  ghost predicate FilesFit(d: Disk) { forall n :: |FileOf(d, n)| <= MAX_CONTAINER_SIZE }

  /** The cache holds containers that exist. */
  ghost predicate Backed(s: State, d: Disk) {
    forall i :: 0 <= i < |s.entries| ==> Exists(d, s.entries[i].key)
  }

  /** How many of the first containers exist. */
  function Existing(d: Disk, ids: seq<Name>): (m: nat)
    ensures m <= |ids| && (forall i :: 0 <= i < m ==> Exists(d, ids[i])) && (m < |ids| ==> !Exists(d, ids[m]))
    decreases |ids|
  {
    if ids == [] then 0
    else
      var k := |ids| - 1;
      var before := Existing(d, ids[..k]);
      if before == k && Exists(d, ids[k]) then k + 1 else before
  }

  /** What the first `k` requests do to the cache. */
  ghost function ServeFirst(capacity: nat, start: State, d: Disk, ids: seq<Name>, k: nat): Answer
    requires PoolOk(start.pool) && FilesFit(d) && k <= |ids|
  {
    ServeAll(capacity, start, Files(d), ids[..k])
  }

  lemma ServeFirstNext(capacity: nat, start: State, d: Disk, ids: seq<Name>, k: nat)
    requires PoolOk(start.pool) && FilesFit(d) && k < |ids|
    ensures var r, r' := ServeFirst(capacity, start, d, ids, k), ServeFirst(capacity, start, d, ids, k + 1);
            var out := Serve(capacity, r.state, ids[k], FileOf(d, ids[k]));
            && r'.data == r.data + [if out.Served? then out.data else []]
            && (r'.inBounds ==> r.inBounds && out.Served? && r'.state == out.next)
  {
    assert ids[..k + 1] == ids[..k] + [ids[k]];
    assert Files(d)(ids[k]) == FileOf(d, ids[k]);
    ServeNext(capacity, start, Files(d), ids[..k], ids[k]);
  }

  /** What request `k` got stays as it was. */
  lemma {:induction false} ServeFirstKeeps(capacity: nat, start: State, d: Disk, ids: seq<Name>, k: nat, m: nat)
    requires PoolOk(start.pool) && FilesFit(d) && k < m <= |ids| && ServeFirst(capacity, start, d, ids, m).inBounds
    ensures ServeFirst(capacity, start, d, ids, k + 1).inBounds
    ensures |ServeFirst(capacity, start, d, ids, m).data| == m
            && |ServeFirst(capacity, start, d, ids, k + 1).data| == k + 1
    ensures ServeFirst(capacity, start, d, ids, m).data[k] == ServeFirst(capacity, start, d, ids, k + 1).data[k]
  {
    if k + 1 < m {
      ServeFirstNext(capacity, start, d, ids, m - 1);
      ServeFirstKeeps(capacity, start, d, ids, k, m - 1);
    }
  }

  lemma ServeFirstAt(capacity: nat, start: State, d: Disk, ids: seq<Name>, k: nat, m: nat)
    requires PoolOk(start.pool) && FilesFit(d) && k < m <= |ids| && ServeFirst(capacity, start, d, ids, m).inBounds
    ensures |ServeFirst(capacity, start, d, ids, m).data| == m
    ensures var out := Serve(capacity, ServeFirst(capacity, start, d, ids, k).state, ids[k], FileOf(d, ids[k]));
            && out.Served? && ServeFirst(capacity, start, d, ids, k + 1).state == out.next
            && ServeFirst(capacity, start, d, ids, m).data[k] == out.data
  {
    ServeFirstKeeps(capacity, start, d, ids, k, m);
    ServeFirstNext(capacity, start, d, ids, k);
  }

  /** The buffers start with what the requests got. */
  predicate Filled(data: seq<Bytes>, buffers: seq<Bytes>, k: nat) {
    k <= |data| && k <= |buffers| && forall i :: 0 <= i < k ==> data[i] <= buffers[i]
  }

  /** `GetReqContainers` of enclaveRecvDecoder.cc, for a cache of any capacity: serves the
      containers in order, up to one that does not exist, which ends the program. What must
      hold is that the accesses stay inside the pool; `ServesFiles`, `TransparentExactly` and
      `OneNameServes` say when they do, and when what is served is the files. */
  method GetReqContainers(cache: ContainerCache, ids: seq<Name>, d: Disk, containerArray: array<Bytes>)
      returns (ok: bool)
    requires FilesFit(d) && cache.Valid() && Backed(cache.Abstract(), d)
    requires |ids| <= containerArray.Length && containerArray != cache.pool
    requires forall i :: 0 <= i < containerArray.Length ==> |containerArray[i]| == MAX_CONTAINER_SIZE
    requires ServeFirst(cache.lru.maxSize, cache.Abstract(), d, ids, Existing(d, ids)).inBounds
    modifies cache`currentIndex, cache.pool, cache.lru`cache, cache.lru`keys, cache.lru.keys, containerArray
    ensures ok <==> forall i :: 0 <= i < |ids| ==> Exists(d, ids[i])
    ensures cache.Valid() && Backed(cache.Abstract(), d)
    ensures var r := ServeFirst(cache.lru.maxSize, old(cache.Abstract()), d, ids, Existing(d, ids));
            cache.Abstract() == r.state && Filled(r.data, containerArray[..], Existing(d, ids))
  {
    var i := 0;
    ghost var start, c := cache.Abstract(), cache.lru.maxSize;
    while i < |ids|
      modifies cache`currentIndex, cache.pool, cache.lru`cache, cache.lru`keys, cache.lru.keys, containerArray
      invariant i <= |ids| && cache.Valid() && Backed(cache.Abstract(), d)
      invariant forall n :: n in cache.lru.keys ==> n in old(cache.lru.keys) || fresh(n)
      invariant forall k :: i <= k < containerArray.Length ==> |containerArray[k]| == MAX_CONTAINER_SIZE
      invariant Progress(c, start, d, ids, i, cache.Abstract(), containerArray[..])
    {
      ok := ServeBuffer(cache, ids, i, d, containerArray, start);
      if !ok { return false; }
      i := i + 1;
    }
    ok := true;
  }

  /** One round of the loop. */
  method ServeBuffer(cache: ContainerCache, ids: seq<Name>, i: nat, d: Disk, containerArray: array<Bytes>,
      ghost start: State)
    returns (ok: bool)
    requires cache.Valid() && Backed(cache.Abstract(), d) && containerArray != cache.pool
    requires i < |ids| && i < containerArray.Length && |containerArray[i]| == MAX_CONTAINER_SIZE
    requires Progress(cache.lru.maxSize, start, d, ids, i, cache.Abstract(), containerArray[..])
    modifies cache`currentIndex, cache.pool, cache.lru`cache, cache.lru`keys, cache.lru.keys, containerArray
    ensures cache.Valid() && Backed(cache.Abstract(), d) && (ok <==> Exists(d, ids[i]))
    ensures Progress(cache.lru.maxSize, start, d, ids, if ok then i + 1 else i, cache.Abstract(), containerArray[..])
    ensures !ok ==> Existing(d, ids) == i
    ensures forall k :: i < k < containerArray.Length ==> containerArray[k] == old(containerArray[k])
    ensures forall n :: n in cache.lru.keys ==> n in old(cache.lru.keys) || fresh(n)
  {
    ghost var now, before := cache.Abstract(), containerArray[..];
    if Exists(d, ids[i]) { NextServed(cache.lru.maxSize, start, d, ids, i, now, before); }
    ok := FillBuffer(cache, ids[i], d, containerArray, i);
    if ok { NextProgress(cache.lru.maxSize, start, d, ids, i, now, before, cache.Abstract(), containerArray[..]); }
    assert forall k :: i < k < containerArray.Length ==> containerArray[..][k] == before[k];
  }

  /** After `k` requests, all for containers that exist. */
  ghost predicate Progress(capacity: nat, start: State, d: Disk, ids: seq<Name>, k: nat, s: State,
      buffers: seq<Bytes>) {
    && PoolOk(start.pool) && FilesFit(d) && k <= Existing(d, ids)
    && ServeFirst(capacity, start, d, ids, Existing(d, ids)).inBounds
    && s == ServeFirst(capacity, start, d, ids, k).state
    && Filled(ServeFirst(capacity, start, d, ids, Existing(d, ids)).data, buffers, k)
  }

  lemma NextServed(capacity: nat, start: State, d: Disk, ids: seq<Name>, k: nat, s: State, buffers: seq<Bytes>)
    requires Progress(capacity, start, d, ids, k, s, buffers) && k < |ids| && Exists(d, ids[k])
    ensures PoolOk(s.pool) && Serve(capacity, s, ids[k], FileOf(d, ids[k])).Served?
  {
    ServeFirstAt(capacity, start, d, ids, k, Existing(d, ids));
  }

  lemma NextProgress(capacity: nat, start: State, d: Disk, ids: seq<Name>, k: nat, s: State, buffers: seq<Bytes>,
                     s': State, buffers': seq<Bytes>)
    requires Progress(capacity, start, d, ids, k, s, buffers) && k < |ids| && Exists(d, ids[k]) && PoolOk(s.pool)
    requires k < |buffers'| == |buffers| && buffers' == buffers[k := buffers'[k]]
    requires var out := Serve(capacity, s, ids[k], FileOf(d, ids[k]));
             out.Served? && s' == out.next && out.data <= buffers'[k]
    ensures Progress(capacity, start, d, ids, k + 1, s', buffers')
  {
    ServeFirstAt(capacity, start, d, ids, k, Existing(d, ids));
    FilledNext(ServeFirst(capacity, start, d, ids, Existing(d, ids)).data, buffers, buffers', k);
  }

  lemma FilledNext(data: seq<Bytes>, before: seq<Bytes>, buffers: seq<Bytes>, i: nat)
    requires Filled(data, before, i) && i < |buffers| == |before| && buffers == before[i := buffers[i]]
    requires i < |data| && data[i] <= buffers[i]
    ensures Filled(data, buffers, i + 1)
  {
  }

  method FillBuffer(cache: ContainerCache, name: Name, d: Disk, containerArray: array<Bytes>, i: nat) returns (ok: bool)
    requires FilesFit(d) && cache.Valid() && Backed(cache.Abstract(), d) && containerArray != cache.pool
    requires i < containerArray.Length && |containerArray[i]| == MAX_CONTAINER_SIZE
    requires Exists(d, name) ==> Serve(cache.lru.maxSize, cache.Abstract(), name, FileOf(d, name)).Served?
    modifies cache`currentIndex, cache.pool, cache.lru`cache, cache.lru`keys, cache.lru.keys, containerArray
    ensures cache.Valid() && Backed(cache.Abstract(), d) && (ok <==> Exists(d, name))
    ensures !ok ==> cache.Abstract() == old(cache.Abstract()) && containerArray[..] == old(containerArray[..])
    ensures ok ==> var out := Serve(cache.lru.maxSize, old(cache.Abstract()), name, FileOf(d, name));
                   cache.Abstract() == out.next && out.data <= containerArray[i]
    ensures containerArray[..] == old(containerArray[..])[i := containerArray[i]]
    ensures forall n :: n in cache.lru.keys ==> n in old(cache.lru.keys) || fresh(n)
  {
    var buffer;
    ok, buffer := GetContainer(cache, name, d, containerArray[i]);
    if ok { containerArray[i] := buffer; }
  }

  lemma ServeBacked(capacity: nat, s: State, d: Disk, name: Name)
    requires PoolOk(s.pool) && Backed(s, d) && Exists(d, name) && |FileOf(d, name)| <= MAX_CONTAINER_SIZE
    ensures var out := Serve(capacity, s, name, FileOf(d, name)); out.Served? ==> Backed(out.next, d)
  {
  }

  /** One round of the loop: from the cache, or from disk and into the cache. */
  method GetContainer(cache: ContainerCache, name: Name, d: Disk, buffer: Bytes) returns (ok: bool, filled: Bytes)
    requires FilesFit(d) && cache.Valid() && Backed(cache.Abstract(), d) && |buffer| == MAX_CONTAINER_SIZE
    requires Exists(d, name) ==> Serve(cache.lru.maxSize, cache.Abstract(), name, FileOf(d, name)).Served?
    modifies cache`currentIndex, cache.pool, cache.lru`cache, cache.lru`keys, cache.lru.keys
    ensures cache.Valid() && Backed(cache.Abstract(), d) && (ok <==> Exists(d, name))
    ensures !ok ==> cache.Abstract() == old(cache.Abstract())
    ensures ok ==> var out := Serve(cache.lru.maxSize, old(cache.Abstract()), name, FileOf(d, name));
                   cache.Abstract() == out.next && out.data <= filled
    ensures forall n :: n in cache.lru.keys ==> n in old(cache.lru.keys) || fresh(n)
  {
    ghost var s := cache.Abstract();
    var hit := cache.ExistsInCache(name);
    if hit {
      assert Exists(d, s.entries[IndexOf(s.entries, name)].key);
      filled := cache.ReadFromCache(name);
      ServeBacked(cache.lru.maxSize, s, d, name);
      return true, filled;
    }
    if !Exists(d, name) { return false, buffer; }
    assert |Files(d)(name)| <= MAX_CONTAINER_SIZE;
    filled := Overwrite(buffer, FileOf(d, name));
    cache.InsertToCache(name, FileOf(d, name));
    ServeBacked(cache.lru.maxSize, s, d, name);
    ok := true;
  }
}
