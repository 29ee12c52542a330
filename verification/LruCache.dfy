/** The cache of lruCache.h: a map from keys to nodes of a list that is kept in the order
    of last use. */
module LruCache {
  import opened Options

  datatype Entry<K, V> = Entry(key: K, value: V)

  // ---- the recency sequence ------------------------------------------------

  /** Where `k` is in the sequence; its length if it is not there. */
  function IndexOf<K(==), V>(s: seq<Entry<K, V>>, k: K): (i: nat)
    ensures i <= |s| && (i < |s| ==> s[i].key == k)
    ensures forall j :: 0 <= j < i ==> s[j].key != k
  {
    if s == [] then 0 else if s[0].key == k then 0 else 1 + IndexOf(s[1..], k)
  }

  predicate Has<K(==), V>(s: seq<Entry<K, V>>, k: K) { IndexOf(s, k) < |s| }

  function RemoveAt<T>(s: seq<T>, i: nat): (r: seq<T>)
    requires i < |s|
    ensures |r| == |s| - 1
    ensures forall j {:trigger r[j]} :: 0 <= j < |r| ==> r[j] == s[if j < i then j else j + 1]
  {
    s[..i] + s[i + 1..]
  }

  /** Element `i` moved to the front. */
  function Moved<T>(s: seq<T>, i: nat): (r: seq<T>)
    requires i < |s|
    ensures |r| == |s|
    ensures forall j {:trigger r[j]} :: 0 <= j < |r| ==> r[j] == s[if j == 0 then i else if j <= i then j - 1 else j]
  {
    [s[i]] + RemoveAt(s, i)
  }

  function Touch<K(==), V>(s: seq<Entry<K, V>>, k: K): seq<Entry<K, V>>
    requires Has(s, k)
  {
    Moved(s, IndexOf(s, k))
  }

  /** What `prune` leaves; `maxSize` 0 means no limit. */
  function Pruned<T>(s: seq<T>, maxSize: nat, elasticity: nat): seq<T> {
    if maxSize == 0 || |s| < maxSize + elasticity || |s| <= maxSize then s else s[..maxSize]
  }

  datatype Op<K, V> = Insert(key: K, value: V) | Get(key: K) | Remove(key: K) | Clear

  /** `tryGet` and `get` are both `Get`: a miss changes nothing. */
  function Apply<K(==), V>(s: seq<Entry<K, V>>, op: Op<K, V>, maxSize: nat, elasticity: nat): seq<Entry<K, V>> {
    match op
    case Insert(k, v) =>
      if Has(s, k) then [Entry(k, v)] + RemoveAt(s, IndexOf(s, k)) else Pruned([Entry(k, v)] + s, maxSize, elasticity)
    case Get(k) => if Has(s, k) then Touch(s, k) else s
    case Remove(k) => if Has(s, k) then RemoveAt(s, IndexOf(s, k)) else s
    case Clear => []
  }

  // ---- what holds after every run of operations ----------------------------

  function Run<K(==), V>(ops: seq<Op<K, V>>, maxSize: nat, elasticity: nat): seq<Entry<K, V>> {
    if ops == [] then [] else Apply(Run(ops[..|ops| - 1], maxSize, elasticity), ops[|ops| - 1], maxSize, elasticity)
  }

  predicate Distinct<K(==), V>(s: seq<Entry<K, V>>) {
    forall i, j :: 0 <= i < j < |s| ==> s[i].key != s[j].key
  }

  /** Operation `i` uses key `k`. */
  predicate Uses<K(==), V>(op: Op<K, V>, k: K) {
    (op.Insert? || op.Get?) && op.key == k
  }

  /** One past the last operation that used `k`, 0 if there is none. */
  function LastUse<K(==), V>(ops: seq<Op<K, V>>, k: K): (r: nat)
    ensures r <= |ops|
  {
    if ops == [] then 0 else if Uses(ops[|ops| - 1], k) then |ops| else LastUse(ops[..|ops| - 1], k)
  }

  /** The value of the last insertion of `k`. */
  function LastValue<K(==), V>(ops: seq<Op<K, V>>, k: K): Option<V> {
    if ops == [] then None
    else if ops[|ops| - 1].Insert? && ops[|ops| - 1].key == k then Some(ops[|ops| - 1].value)
    else LastValue(ops[..|ops| - 1], k)
  }

  /** The most recently used key comes first. */
  predicate ByRecency<K(==), V>(s: seq<Entry<K, V>>, ops: seq<Op<K, V>>) {
    forall i, j :: 0 <= i < j < |s| ==> LastUse(ops, s[i].key) > LastUse(ops, s[j].key)
  }

  predicate LatestValues<K(==), V(==)>(s: seq<Entry<K, V>>, ops: seq<Op<K, V>>) {
    forall i :: 0 <= i < |s| ==> LastValue(ops, s[i].key) == Some(s[i].value)
  }

  function Bound(maxSize: nat, elasticity: nat): nat {
    maxSize + if elasticity > 0 then elasticity - 1 else 0
  }

  lemma DistinctFront<K, V>(e: Entry<K, V>, rest: seq<Entry<K, V>>)
    requires Distinct(rest) && forall i :: 0 <= i < |rest| ==> rest[i].key != e.key
    ensures Distinct([e] + rest)
  {
  }

  lemma DistinctKeeps<K, V>(s: seq<Entry<K, V>>, op: Op<K, V>, maxSize: nat, elasticity: nat)
    requires Distinct(s)
    ensures Distinct(Apply(s, op, maxSize, elasticity))
  {
    if op.Clear? {
    } else if Has(s, op.key) {
      var rest := RemoveAt(s, IndexOf(s, op.key));
      DistinctFront(if op.Insert? then Entry(op.key, op.value) else s[IndexOf(s, op.key)], rest);
    } else if op.Insert? {
      DistinctFront(Entry(op.key, op.value), s);
    }
  }

  lemma LastUseAfter<K, V>(ops: seq<Op<K, V>>, op: Op<K, V>, k: K)
    ensures LastUse(ops + [op], k) == if Uses(op, k) then |ops| + 1 else LastUse(ops, k)
  {
    assert (ops + [op])[..|ops|] == ops;
  }

  /** Moving the entry that is used to the front keeps the order. */
  lemma FrontRecency<K, V>(ops: seq<Op<K, V>>, op: Op<K, V>, e: Entry<K, V>, rest: seq<Entry<K, V>>)
    requires ByRecency(rest, ops) && Uses(op, e.key) && forall i :: 0 <= i < |rest| ==> rest[i].key != e.key
    ensures ByRecency([e] + rest, ops + [op])
  {
    var s' := [e] + rest;
    forall i, j | 0 <= i < j < |s'| ensures LastUse(ops + [op], s'[i].key) > LastUse(ops + [op], s'[j].key) {
      LastUseAfter(ops, op, s'[i].key);
      LastUseAfter(ops, op, s'[j].key);
      assert s'[j] == rest[j - 1];
    }
  }

  lemma SubRecency<K, V>(s: seq<Entry<K, V>>, ops: seq<Op<K, V>>, m: nat)
    requires ByRecency(s, ops) && m < |s|
    ensures ByRecency(RemoveAt(s, m), ops) && ByRecency(s[..m], ops)
  {
  }

  lemma SameRecency<K, V>(s: seq<Entry<K, V>>, ops: seq<Op<K, V>>, op: Op<K, V>)
    requires ByRecency(s, ops) && forall i :: 0 <= i < |s| ==> !Uses(op, s[i].key)
    ensures ByRecency(s, ops + [op])
  {
    forall i, j | 0 <= i < j < |s| ensures LastUse(ops + [op], s[i].key) > LastUse(ops + [op], s[j].key) {
      LastUseAfter(ops, op, s[i].key);
      LastUseAfter(ops, op, s[j].key);
    }
  }

  lemma RecencyKeeps<K, V>(s: seq<Entry<K, V>>, ops: seq<Op<K, V>>, op: Op<K, V>, maxSize: nat, elasticity: nat)
    requires Distinct(s) && ByRecency(s, ops)
    ensures ByRecency(Apply(s, op, maxSize, elasticity), ops + [op])
  {
    if op.Clear? {
    } else if Has(s, op.key) {
      var m := IndexOf(s, op.key);
      SubRecency(s, ops, m);
      var rest := RemoveAt(s, m);
      if op.Remove? {
        SameRecency(rest, ops, op);
      } else {
        FrontRecency(ops, op, if op.Insert? then Entry(op.key, op.value) else s[m], rest);
      }
    } else if op.Insert? {
      FrontRecency(ops, op, Entry(op.key, op.value), s);
    } else {
      SameRecency(s, ops, op);
    }
  }

  lemma ValuesKeep<K, V>(s: seq<Entry<K, V>>, ops: seq<Op<K, V>>, op: Op<K, V>, maxSize: nat, elasticity: nat)
    requires Distinct(s) && LatestValues(s, ops)
    ensures LatestValues(Apply(s, op, maxSize, elasticity), ops + [op])
  {
    assert (ops + [op])[..|ops|] == ops;
  }

  /** After every run of operations: no key twice, most recently used first, each value
      the last one inserted, and for a nonzero maximum the size within its bound. */
  lemma {:induction false} CacheInv<K, V>(ops: seq<Op<K, V>>, maxSize: nat, elasticity: nat)
    ensures var s := Run(ops, maxSize, elasticity);
            && Distinct(s) && ByRecency(s, ops) && LatestValues(s, ops)
            && (maxSize > 0 ==> |s| <= Bound(maxSize, elasticity))
  {
    if ops != [] {
      var before, op := ops[..|ops| - 1], ops[|ops| - 1];
      CacheInv(before, maxSize, elasticity);
      var s := Run(before, maxSize, elasticity);
      assert ops == before + [op];
      DistinctKeeps(s, op, maxSize, elasticity);
      RecencyKeeps(s, before, op, maxSize, elasticity);
      ValuesKeep(s, before, op, maxSize, elasticity);
    }
  }

  /** An insertion drops keys only past the soft limit, down to exactly the soft limit,
      and every dropped key was last used before every kept one. */
  lemma PrunesLeastRecent<K, V>(ops: seq<Op<K, V>>, k: K, v: V, maxSize: nat, elasticity: nat, x: K, y: K)
    requires var s, s' := Run(ops, maxSize, elasticity), Run(ops + [Insert(k, v)], maxSize, elasticity);
             Has(s, x) && !Has(s', x) && Has(s', y)
    ensures |Run(ops + [Insert(k, v)], maxSize, elasticity)| == maxSize > 0
    ensures LastUse(ops + [Insert(k, v)], x) < LastUse(ops + [Insert(k, v)], y)
  {
    var all := ops + [Insert(k, v)];
    assert all[..|ops|] == ops;
    CacheInv(ops, maxSize, elasticity);
    CacheInv(all, maxSize, elasticity);
    var s, s' := Run(ops, maxSize, elasticity), Run(all, maxSize, elasticity);
    assert s' == Apply(s, Insert(k, v), maxSize, elasticity);
    StaysOrPruned(s, k, v, maxSize, elasticity, x);
    var long := [Entry(k, v)] + s;
    assert Apply(s, Insert(k, v), 0, 0) == long;
    RecencyKeeps(s, ops, Insert(k, v), 0, 0);
    assert s' == long[..maxSize];
    CutOrder(long, all, maxSize, x, y);
  }

  lemma HasPrefix<K, V>(s: seq<Entry<K, V>>, m: nat, x: K)
    requires m <= |s| && Has(s, x)
    ensures Has(s[..m], x) || IndexOf(s, x) >= m
  {
    var i := IndexOf(s, x);
    if i < m { assert s[..m][i].key == x; }
  }

  lemma CutOrder<K, V>(s: seq<Entry<K, V>>, ops: seq<Op<K, V>>, m: nat, x: K, y: K)
    requires ByRecency(s, ops) && m <= |s| && Has(s, x) && !Has(s[..m], x) && Has(s[..m], y)
    ensures LastUse(ops, x) < LastUse(ops, y)
  {
    HasPrefix(s, m, x);
    var i, j := IndexOf(s, x), IndexOf(s[..m], y);
    assert s[j].key == y;
  }

  /** A key stays through an insertion, unless the sequence is cut to the soft limit. */
  lemma StaysOrPruned<K, V>(s: seq<Entry<K, V>>, k: K, v: V, maxSize: nat, elasticity: nat, x: K)
    requires Distinct(s) && Has(s, x)
    ensures var s' := Apply(s, Insert(k, v), maxSize, elasticity);
            || Has(s', x)
            || (x != k && !Has(s, k) && |s'| == maxSize > 0 && Has([Entry(k, v)] + s, x))
  {
    var i := IndexOf(s, x);
    if Has(s, k) {
      var m := IndexOf(s, k);
      var s' := [Entry(k, v)] + RemoveAt(s, m);
      assert s'[if i < m then i + 1 else if i == m then 0 else i].key == x;
    } else {
      assert ([Entry(k, v)] + s)[i + 1].key == x;
    }
  }

  // ---- the map and the list ------------------------------------------------

  class Node<K, V> {
    const key: K
    var value: V

    constructor (key: K, value: V)
      ensures this.key == key && this.value == value
    {
      this.key := key;
      this.value := value;
    }
  }

  /** The map has exactly the keys of the list, and leads to their nodes. */
  ghost predicate Match<K(!new), V>(keys: seq<Node<K, V>>, cache: map<K, Node<K, V>>) {
    && |cache| == |keys|
    && (forall i :: 0 <= i < |keys| ==> keys[i].key in cache && cache[keys[i].key] == keys[i])
    && (forall k :: k in cache ==> cache[k].key == k && cache[k] in keys)
    && (forall i, j :: 0 <= i < j < |keys| ==> keys[i] != keys[j])
  }

  lemma MovedHas<T>(s: seq<T>, i: nat)
    requires i < |s|
    ensures forall x :: x in Moved(s, i) <==> x in s
  {
    forall p | 0 <= p < |s| ensures s[p] in Moved(s, i) {
      assert Moved(s, i)[if p < i then p + 1 else if p == i then 0 else p] == s[p];
    }
  }

  lemma MovedDistinct<T>(s: seq<T>, i: nat)
    requires i < |s| && forall p, q :: 0 <= p < q < |s| ==> s[p] != s[q]
    ensures forall p, q :: 0 <= p < q < |s| ==> Moved(s, i)[p] != Moved(s, i)[q]
  {
  }

  /** Every node of the list is the one in the map under its key. */
  ghost predicate Mapped<K(!new), V>(keys: seq<Node<K, V>>, cache: map<K, Node<K, V>>) {
    forall i :: 0 <= i < |keys| ==> keys[i].key in cache && cache[keys[i].key] == keys[i]
  }

  ghost predicate NoNodeTwice<K(!new), V>(keys: seq<Node<K, V>>) {
    forall i, j :: 0 <= i < j < |keys| ==> keys[i] != keys[j]
  }

  lemma MappedMove<K(!new), V>(keys: seq<Node<K, V>>, cache: map<K, Node<K, V>>, i: nat)
    requires Mapped(keys, cache) && i < |keys|
    ensures Mapped(Moved(keys, i), cache)
  {
  }

  lemma MatchMove<K(!new), V>(keys: seq<Node<K, V>>, cache: map<K, Node<K, V>>, i: nat)
    requires Match(keys, cache) && i < |keys|
    ensures Match(Moved(keys, i), cache)
    ensures forall n :: n in Moved(keys, i) <==> n in keys
  {
    assert NoNodeTwice(Moved(keys, i)) by { MovedDistinct(keys, i); }
    MappedMove(keys, cache, i);
    MovedHas(keys, i);
  }

  lemma MappedRemove<K(!new), V>(keys: seq<Node<K, V>>, cache: map<K, Node<K, V>>, i: nat)
    requires Mapped(keys, cache) && NoNodeTwice(keys) && i < |keys|
    ensures Mapped(RemoveAt(keys, i), cache - {keys[i].key}) && NoNodeTwice(RemoveAt(keys, i))
  {
    var keys' := RemoveAt(keys, i);
    forall j | 0 <= j < |keys'| ensures keys'[j] != keys[i] {}
  }

  lemma KeptRemove<K(!new), V>(keys: seq<Node<K, V>>, n: Node<K, V>, i: nat)
    requires i < |keys| && n in keys && n != keys[i]
    ensures n in RemoveAt(keys, i)
  {
    var p :| 0 <= p < |keys| && keys[p] == n;
    assert RemoveAt(keys, i)[if p < i then p else p - 1] == n;
  }

  lemma MatchRemove<K(!new), V>(keys: seq<Node<K, V>>, cache: map<K, Node<K, V>>, i: nat)
    requires Match(keys, cache) && i < |keys|
    ensures Match(RemoveAt(keys, i), cache - {keys[i].key})
  {
    var cache' := cache - {keys[i].key};
    assert |cache'| == |cache| - 1 by { assert cache == cache'[keys[i].key := keys[i]]; }
    MappedRemove(keys, cache, i);
    forall k | k in cache' ensures cache'[k] in RemoveAt(keys, i) { KeptRemove(keys, cache[k], i); }
  }

  lemma MatchPush<K(!new), V>(keys: seq<Node<K, V>>, cache: map<K, Node<K, V>>, n: Node<K, V>)
    requires Match(keys, cache) && n.key !in cache
    ensures Match([n] + keys, cache[n.key := n])
  {
    var cache' := cache[n.key := n];
    assert |cache'| == |cache| + 1 by {
      assert cache'.Keys == cache.Keys + {n.key};
      assert |cache'| == |cache'.Keys| && |cache| == |cache.Keys|;
    }
    assert n !in keys;
  }

  lemma IndexIs<K, V>(s: seq<Entry<K, V>>, k: K, i: nat)
    requires i < |s| && s[i].key == k && Distinct(s)
    ensures IndexOf(s, k) == i
  {
  }

  class Cache<K(==, !new), V> {
    const maxSize: nat
    const elasticity: nat
    var cache: map<K, Node<K, V>>
    var keys: seq<Node<K, V>>   // the list, front first

    ghost predicate Valid() reads this { Match(keys, cache) }

    ghost function Contents(): (s: seq<Entry<K, V>>)
      reads this, keys
      ensures |s| == |keys|
      ensures forall i {:trigger s[i]} :: 0 <= i < |s| ==> s[i] == Entry(keys[i].key, keys[i].value)
    {
      seq(|keys|, i requires 0 <= i < |keys| reads this, keys => Entry(keys[i].key, keys[i].value))
    }

    constructor (maxSize: nat, elasticity: nat)
      ensures Valid() && this.maxSize == maxSize && this.elasticity == elasticity && Contents() == []
    {
      this.maxSize := maxSize;
      this.elasticity := elasticity;
      cache := map[];
      keys := [];
    }

    /** The list holds no key twice, and the map finds what it holds. */
    lemma Lookup(k: K)
      requires Valid()
      ensures Distinct(Contents())
      ensures k in cache <==> Has(Contents(), k)
    {
      var s := Contents();
      forall i, j | 0 <= i < j < |s| ensures s[i].key != s[j].key { assert keys[i] != keys[j]; }
      if k in cache {
        var p :| 0 <= p < |keys| && keys[p] == cache[k];
        IndexIs(s, k, p);
      }
      assert Has(s, k) ==> keys[IndexOf(s, k)].key in cache;
    }

    /** The list position the map leads to. */
    method Find(k: K) returns (i: nat)
      requires Valid() && k in cache
      ensures i < |keys| && keys[i] == cache[k] && i == IndexOf(Contents(), k)
    {
      i :| 0 <= i < |keys| && keys[i] == cache[k];
      Lookup(k);
      IndexIs(Contents(), k, i);
    }

    method Size() returns (n: nat)
      requires Valid()
      ensures n == |Contents()|
    {
      n := |cache|;
    }

    method Contains(k: K) returns (found: bool)
      requires Valid()
      ensures found == Has(Contents(), k)
    {
      Lookup(k);
      found := k in cache;
    }

    method Clear()
      requires Valid()
      modifies this`cache, this`keys
      ensures Valid() && Contents() == []
    {
      cache := map[];
      keys := [];
    }

    /** `keys_.splice(keys_.begin(), keys_, iter)`. */
    method Splice(i: nat)
      requires Valid() && i < |keys|
      modifies this`keys
      ensures Valid() && Contents() == Moved(old(Contents()), i)
      ensures forall n :: n in keys <==> n in old(keys)
    {
      ghost var s := Contents();
      MatchMove(keys, cache, i);
      keys := Moved(keys, i);
      forall j | 0 <= j < |keys| ensures Contents()[j] == Moved(s, i)[j] {}
    }

    method Insert(k: K, v: V)
      requires Valid()
      modifies this`cache, this`keys, keys
      ensures Valid() && Contents() == Apply(old(Contents()), Op.Insert(k, v), maxSize, elasticity)
      ensures forall n :: n in keys ==> n in old(keys) || fresh(n)
    {
      Lookup(k);
      if k in cache {
        Update(k, v);
      } else {
        EmplaceFront(k, v);
        var _ := Prune();
      }
    }

    /** Insertion of a key that is not there, before pruning. */
    method EmplaceFront(k: K, v: V)
      requires Valid() && k !in cache
      modifies this`cache, this`keys
      ensures Valid() && Contents() == [Entry(k, v)] + old(Contents())
      ensures forall n :: n in keys ==> n in old(keys) || fresh(n)
    {
      ghost var s := Contents();
      var n := new Node(k, v);
      MatchPush(keys, cache, n);
      keys := [n] + keys;
      cache := cache[k := n];
      assert Contents() == [Entry(k, v)] + s;
    }

    /** Insertion of a key that is there. */
    method Update(k: K, v: V)
      requires Valid() && k in cache
      modifies this`keys, keys
      ensures Valid() && Has(old(Contents()), k)
      ensures Contents() == [Entry(k, v)] + RemoveAt(old(Contents()), IndexOf(old(Contents()), k))
      ensures forall n :: n in keys <==> n in old(keys)
    {
      Lookup(k);
      ghost var s := Contents();
      var i := Find(k);
      cache[k].value := v;
      assert Contents() == s[i := Entry(k, v)] by {
        forall j | 0 <= j < |s| && j != i ensures keys[j] != cache[k] {}
      }
      Splice(i);
      assert RemoveAt(s[i := Entry(k, v)], i) == RemoveAt(s, i);
    }

    /** Returns how many nodes were removed. */
    method Prune() returns (count: nat)
      requires Valid()
      modifies this`cache, this`keys
      ensures Valid() && Contents() == Pruned(old(Contents()), maxSize, elasticity)
      ensures keys <= old(keys) && count == |old(keys)| - |keys|
    {
      count := 0;
      var maxAllowed := maxSize + elasticity;
      if maxSize == 0 || |cache| < maxAllowed { return; }
      count := PruneTo(maxSize);
    }

    /** The loop of `prune`. */
    method PruneTo(n: nat) returns (count: nat)
      requires Valid()
      modifies this`cache, this`keys
      ensures Valid() && keys <= old(keys) && count == |old(keys)| - |keys|
      ensures Contents() == if |old(keys)| <= n then old(Contents()) else old(Contents())[..n]
    {
      count := 0;
      ghost var s, was := Contents(), keys;
      while |cache| > n
        modifies this`cache, this`keys
        invariant Valid() && Contents() <= s && keys <= was && count == |was| - |keys|
        invariant |keys| >= n || |keys| == |was|
        decreases |keys|
      {
        EraseBack();
        count := count + 1;
      }
    }

    method EraseBack()
      requires Valid() && keys != []
      modifies this`cache, this`keys
      ensures Valid() && keys == old(keys)[..|old(keys)| - 1] && Contents() == old(Contents())[..|old(keys)| - 1]
    {
      ghost var s, was := Contents(), keys;
      Erase(|keys| - 1);
      assert RemoveAt(s, |s| - 1) == s[..|s| - 1];
      assert RemoveAt(was, |was| - 1) == was[..|was| - 1];
    }

    method TryGet(k: K, d: V) returns (found: bool, v: V)
      requires Valid()
      modifies this`keys
      ensures Valid() && Contents() == Apply(old(Contents()), Get(k), maxSize, elasticity)
      ensures found == Has(old(Contents()), k)
      ensures v == if found then old(Contents())[IndexOf(old(Contents()), k)].value else d
      ensures forall n :: n in keys <==> n in old(keys)
    {
      Lookup(k);
      if k !in cache { return false, d; }
      var i := Find(k);
      v := keys[i].value;
      Splice(i);
      found := true;
    }

    method Remove(k: K) returns (found: bool)
      requires Valid()
      modifies this`cache, this`keys
      ensures Valid() && Contents() == Apply(old(Contents()), Op.Remove(k), maxSize, elasticity)
      ensures found == Has(old(Contents()), k)
    {
      Lookup(k);
      if k !in cache { return false; }
      var i := Find(k);
      Erase(i);
      return true;
    }

    method Erase(i: nat)
      requires Valid() && i < |keys|
      modifies this`cache, this`keys
      ensures Valid() && keys == RemoveAt(old(keys), i) && Contents() == RemoveAt(old(Contents()), i)
    {
      ghost var s := Contents();
      MatchRemove(keys, cache, i);
      cache := cache - {keys[i].key};
      keys := RemoveAt(keys, i);
      forall j | 0 <= j < |keys| ensures Contents()[j] == RemoveAt(s, i)[j] {}
    }

    /** The value of the least recently used key. */
    method PruneValue() returns (v: V)
      requires Valid() && keys != []
      ensures v == Contents()[|Contents()| - 1].value
    {
      v := cache[keys[|keys| - 1].key].value;
    }
  }
}
