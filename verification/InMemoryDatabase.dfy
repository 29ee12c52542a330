/** The in-memory index (inMemoryDatabase.cc): a map of fingerprints and three maps of
    super-features, written to two files by the destructor and read back by `OpenDB`. */
module InMemoryDatabase {
  import opened Data
  import opened Framing
  import opened Sequences
  import opened Options

  type Str = seq<Byte>

  const CHUNK_HASH_SIZE: nat := 32
  const INT: nat := 4
  const INT_LIMIT: nat := 0x8000_0000

  /** The first super-feature is the first in the key. */
  type SuperFeatures = sf: seq<map<Str, seq<Str>>> | |sf| == 3 witness [map[], map[], map[]]

  // ---- reading and writing strings -----------------------------------------

  /** The size as an `int`, then the bytes. */
  function WriteString(s: Str): Str { Encode(|s|, INT) + s }

  datatype ReadResult = End | Bad | Read(s: Str, next: nat)

  /** `read` of a size and of as many bytes; `End` at the end of the file or for size 0,
      which the loops take for the end. */
  function ReadKey(file: Str, at: nat): (r: ReadResult)
    ensures r.Read? ==> at < r.next <= |file|
  {
    if at >= |file| then End // nothing is read, the size stays 0
    else if at + INT > |file| then Bad
    else
      var n := Decode(file, at, INT);
      if n == 0 then End
      else if n >= INT_LIMIT || at + INT + n > |file| then Bad
      else Read(file[at + INT..at + INT + n], at + INT + n)
  }

  function ReadValue(file: Str, at: nat): (r: ReadResult)
    ensures r.Read? ==> at < r.next <= |file|
  {
    if at + INT > |file| then Bad
    else
      var n := Decode(file, at, INT);
      if n >= INT_LIMIT || at + INT + n > |file| then Bad
      else Read(file[at + INT..at + INT + n], at + INT + n)
  }

  predicate Writable(s: Str) { |s| < INT_LIMIT }

  lemma StringRead(file: Str, at: nat, s: Str)
    requires Holds(file, at, WriteString(s)) && Writable(s)
    ensures ReadValue(file, at) == Read(s, at + |WriteString(s)|)
    ensures s != [] ==> ReadKey(file, at) == Read(s, at + |WriteString(s)|)
    ensures s == [] ==> ReadKey(file, at) == End
  {
    HoldsPart(file, at, Encode(|s|, INT), s);
    assert Power256(4) == 0x1_0000_0000;
    DecodeEncode(file, at, |s|, INT);
    assert file[at + INT..at + INT + |s|] == s;
  }

  // ---- the fingerprint index -----------------------------------------------

  datatype Pair = Pair(key: Str, value: Str)

  function WritePair(p: Pair): Str { WriteString(p.key) + WriteString(p.value) }

  /** What is written for the first `n` pairs. */
  function WritePairs(ps: seq<Pair>, n: nat): Str
    requires n <= |ps|
  {
    if n == 0 then [] else WritePairs(ps, n - 1) + WritePair(ps[n - 1])
  }

  /** `indexObj_.insert`, which does not replace. */
  function AddNew(m: map<Str, Str>, p: Pair): map<Str, Str> {
    if p.key in m then m else m[p.key := p.value]
  }

  function AddFirst(m: map<Str, Str>, ps: seq<Pair>, n: nat): map<Str, Str>
    requires n <= |ps|
  {
    if n == 0 then m else AddNew(AddFirst(m, ps, n - 1), ps[n - 1])
  }

  /** The reading loop of `OpenDB`; `None` for a file that the destructor cannot have
      written. */
  function LoadIndex(file: Str, at: nat, m: map<Str, Str>): Option<map<Str, Str>>
    decreases |file| - at
  {
    var k := ReadKey(file, at);
    if k.End? then Some(m)
    else if k.Bad? then None
    else
      var v := ReadValue(file, k.next);
      if v.Read? then LoadIndex(file, v.next, AddNew(m, Pair(k.s, v.s))) else None
  }

  /** `order` is the order in which the unordered map is enumerated. */
  predicate Enumerates<T>(order: seq<Str>, m: map<Str, T>) {
    && (forall i :: 0 <= i < |order| ==> order[i] in m)
    && (forall k :: k in m ==> k in order)
    && forall i, j :: 0 <= i < j < |order| ==> order[i] != order[j]
  }

  function Pairs(m: map<Str, Str>, order: seq<Str>): (ps: seq<Pair>)
    requires forall i :: 0 <= i < |order| ==> order[i] in m
    ensures |ps| == |order|
  {
    seq(|order|, i requires 0 <= i < |order| => Pair(order[i], m[order[i]]))
  }

  predicate WritablePairs(ps: seq<Pair>) {
    forall i :: 0 <= i < |ps| ==> Writable(ps[i].key) && Writable(ps[i].value)
  }

  function PairLength(p: Pair): nat { INT + |p.key| + INT + |p.value| }

  /** The pair can be read at position `at`. */
  predicate PairAt(file: Str, at: nat, p: Pair) {
    && ReadKey(file, at) == Read(p.key, at + INT + |p.key|)
    && ReadValue(file, at + INT + |p.key|) == Read(p.value, at + PairLength(p))
  }

  lemma PairStrings(file: Str, at: nat, p: Pair)
    requires Holds(file, at, WritePair(p)) && Writable(p.key) && Writable(p.value) && p.key != []
    ensures PairAt(file, at, p)
  {
    HoldsPart(file, at, WriteString(p.key), WriteString(p.value));
    StringRead(file, at, p.key);
    StringRead(file, at + |WriteString(p.key)|, p.value);
  }

  /** Where pair `n` is written. */
  function PairPosition(ps: seq<Pair>, n: nat): nat
    requires n <= |ps|
  {
    if n == 0 then 0 else PairPosition(ps, n - 1) + PairLength(ps[n - 1])
  }

  lemma {:induction false} PairsPrefix(ps: seq<Pair>, k: nat, n: nat)
    requires k <= n <= |ps|
    ensures WritePairs(ps, k) <= WritePairs(ps, n) && |WritePairs(ps, k)| == PairPosition(ps, k)
    decreases n + k
  {
    if k < n { PairsPrefix(ps, k, n - 1); }
    if k > 0 { PairsPrefix(ps, k - 1, k - 1); }
  }

  lemma PairWritten(ps: seq<Pair>, k: nat)
    requires k < |ps| && WritablePairs(ps) && ps[k].key != []
    ensures PairInPlace(WritePairs(ps, |ps|), ps, k)
  {
    PairsPrefix(ps, k, |ps|);
    PairsPrefix(ps, k + 1, |ps|);
    HeldAfter(WritePairs(ps, |ps|), WritePairs(ps, k), WritePair(ps[k]));
    PairStrings(WritePairs(ps, |ps|), PairPosition(ps, k), ps[k]);
  }

  predicate PairInPlace(file: Str, ps: seq<Pair>, k: nat)
    requires k < |ps|
  {
    PairAt(file, PairPosition(ps, k), ps[k])
  }

  predicate PairsAt(file: Str, ps: seq<Pair>) {
    forall k :: 0 <= k < |ps| ==> PairInPlace(file, ps, k)
  }

  lemma PairStep(file: Str, at: nat, p: Pair, m: map<Str, Str>, rest: Option<map<Str, Str>>)
    requires PairAt(file, at, p) && LoadIndex(file, at + PairLength(p), AddNew(m, p)) == rest
    ensures LoadIndex(file, at, m) == rest
  {
  }

  /** The reading loop takes in the pairs from `n` on. */
  predicate ReadsPairs(file: Str, ps: seq<Pair>, n: nat, m: map<Str, Str>) {
    n <= |ps| && LoadIndex(file, PairPosition(ps, n), AddFirst(m, ps, n)) == Some(AddFirst(m, ps, |ps|))
  }

  lemma PairRead(file: Str, ps: seq<Pair>, n: nat, m: map<Str, Str>)
    requires n < |ps| && PairsAt(file, ps) && ReadsPairs(file, ps, n + 1, m)
    ensures ReadsPairs(file, ps, n, m)
  {
    assert PairInPlace(file, ps, n);
    PairStep(file, PairPosition(ps, n), ps[n], AddFirst(m, ps, n), Some(AddFirst(m, ps, |ps|)));
  }

  lemma {:induction false} PairsRead(file: Str, ps: seq<Pair>, n: nat, m: map<Str, Str>)
    requires n <= |ps| && PairsAt(file, ps) && |file| == PairPosition(ps, |ps|)
    ensures ReadsPairs(file, ps, n, m)
    decreases |ps| - n
  {
    if n < |ps| {
      PairsRead(file, ps, n + 1, m);
      PairRead(file, ps, n, m);
    }
  }

  lemma {:induction false} Added(ps: seq<Pair>, n: nat)
    requires n <= |ps| && forall i, j :: 0 <= i < j < |ps| ==> ps[i].key != ps[j].key
    ensures forall i :: 0 <= i < n ==>
              ps[i].key in AddFirst(map[], ps, n) && AddFirst(map[], ps, n)[ps[i].key] == ps[i].value
    ensures forall k :: k in AddFirst(map[], ps, n) ==> exists i :: 0 <= i < n && ps[i].key == k
  {
    if n > 0 {
      Added(ps, n - 1);
      forall k | k in AddFirst(map[], ps, n) ensures exists i :: 0 <= i < n && ps[i].key == k {
        if k == ps[n - 1].key { assert ps[n - 1].key == k; } else { assert k in AddFirst(map[], ps, n - 1); }
      }
    }
  }

  lemma {:induction false} NoEmptyKeyLoaded(file: Str, at: nat, m: map<Str, Str>)
    requires [] !in m && LoadIndex(file, at, m).Some?
    ensures [] !in LoadIndex(file, at, m).value
    decreases |file| - at
  {
    var k := ReadKey(file, at);
    if k.Read? {
      var v := ReadValue(file, k.next);
      NoEmptyKeyLoaded(file, v.next, AddNew(m, Pair(k.s, v.s)));
    }
  }

  predicate WritableIndex(m: map<Str, Str>) {
    forall k :: k in m ==> Writable(k) && Writable(m[k])
  }

  lemma Rebuilt(m: map<Str, Str>, order: seq<Str>)
    requires Enumerates(order, m)
    ensures AddFirst(map[], Pairs(m, order), |order|) == m
  {
    var ps := Pairs(m, order);
    Added(ps, |ps|);
    var r := AddFirst(map[], ps, |ps|);
    forall k | k in m ensures k in r && r[k] == m[k] {
      var i :| 0 <= i < |order| && order[i] == k;
      assert ps[i].key == k && ps[i].value == m[k];
    }
    forall k | k in r ensures k in m {
      var i :| 0 <= i < |ps| && ps[i].key == k;
    }
  }

  /** What the destructor writes; `order` is the order of enumeration. */
  function IndexFile(m: map<Str, Str>, order: seq<Str>): Str
    requires forall i :: 0 <= i < |order| ==> order[i] in m
  {
    WritePairs(Pairs(m, order), |order|)
  }

  /** In whatever order the map is written, reading the file gives the map back, unless
      it has the empty string as a key. */
  lemma IndexRoundTrip(m: map<Str, Str>, order: seq<Str>)
    requires Enumerates(order, m) && WritableIndex(m)
    ensures LoadIndex(IndexFile(m, order), 0, map[]) == Some(m) <==> [] !in m
  {
    if [] !in m {
      var ps, file := Pairs(m, order), IndexFile(m, order);
      forall k | 0 <= k < |ps| ensures PairInPlace(file, ps, k) { PairWritten(ps, k); }
      PairsPrefix(ps, |ps|, |ps|);
      PairsRead(file, ps, 0, map[]);
      Rebuilt(m, order);
    } else if LoadIndex(IndexFile(m, order), 0, map[]).Some? {
      NoEmptyKeyLoaded(IndexFile(m, order), 0, map[]);
    }
  }

  // ---- the super-feature index ---------------------------------------------

  datatype Triple = Triple(version: nat, key: Str, value: Str)

  function WriteTriple(t: Triple): Str { Encode(t.version, INT) + WritePair(Pair(t.key, t.value)) }

  function WriteTriples(ts: seq<Triple>, n: nat): Str
    requires n <= |ts|
  {
    if n == 0 then [] else WriteTriples(ts, n - 1) + WriteTriple(ts[n - 1])
  }

  /** The list of a key, empty if there is none. */
  function ListOf(m: map<Str, seq<Str>>, k: Str): seq<Str> { if k in m then m[k] else [] }

  /** `sfObj_[version][key].push_back(value)`. */
  function PushBack(sf: SuperFeatures, t: Triple): SuperFeatures
    requires t.version < 3
  {
    sf[t.version := sf[t.version][t.key := ListOf(sf[t.version], t.key) + [t.value]]]
  }

  predicate Versions(ts: seq<Triple>) { forall i :: 0 <= i < |ts| ==> ts[i].version < 3 }

  function PushFirst(sf: SuperFeatures, ts: seq<Triple>, n: nat): SuperFeatures
    requires n <= |ts| && Versions(ts)
  {
    if n == 0 then sf else PushBack(PushFirst(sf, ts, n - 1), ts[n - 1])
  }

  function LoadSF(file: Str, at: nat, sf: SuperFeatures): Option<SuperFeatures>
    decreases |file| - at
  {
    if at >= |file| then Some(sf)
    else if at + INT > |file| then None
    else
      var k := ReadKey(file, at + INT);
      if k.End? then Some(sf)
      else if k.Bad? then None
      else
        var v, version := ReadValue(file, k.next), Decode(file, at, INT);
        if v.Read? && version < 3 then LoadSF(file, v.next, PushBack(sf, Triple(version, k.s, v.s))) else None
  }

  function KeyTriples(i: nat, k: Str, values: seq<Str>): (ts: seq<Triple>)
    ensures |ts| == |values|
  {
    seq(|values|, j requires 0 <= j < |values| => Triple(i, k, values[j]))
  }

  /** What the destructor writes for one map. */
  function MapTriples(i: nat, m: map<Str, seq<Str>>, order: seq<Str>): seq<Triple>
    requires forall j :: 0 <= j < |order| ==> order[j] in m
  {
    if order == [] then []
    else MapTriples(i, m, order[..|order| - 1]) + KeyTriples(i, order[|order| - 1], m[order[|order| - 1]])
  }

  predicate EnumeratesAll(orders: seq<seq<Str>>, sf: SuperFeatures) {
    |orders| == 3 && forall i :: 0 <= i < 3 ==> Enumerates(orders[i], sf[i])
  }

  function AllTriples(sf: SuperFeatures, orders: seq<seq<Str>>): seq<Triple>
    requires EnumeratesAll(orders, sf)
  {
    MapTriples(0, sf[0], orders[0]) + MapTriples(1, sf[1], orders[1]) + MapTriples(2, sf[2], orders[2])
  }

  function Matching(t: Triple, i: nat, k: Str): seq<Str> {
    if t.version == i && t.key == k then [t.value] else []
  }

  /** The values among the first `n` that are written for key `k` of map `i`, in order. */
  function Project(ts: seq<Triple>, n: nat, i: nat, k: Str): seq<Str>
    requires n <= |ts|
  {
    if n == 0 then [] else Project(ts, n - 1, i, k) + Matching(ts[n - 1], i, k)
  }

  lemma {:induction false} ProjectPrefix(a: seq<Triple>, b: seq<Triple>, n: nat, i: nat, k: Str)
    requires n <= |a|
    ensures Project(a + b, n, i, k) == Project(a, n, i, k)
  {
    if n > 0 { ProjectPrefix(a, b, n - 1, i, k); }
  }

  lemma {:induction false} ProjectConcat(a: seq<Triple>, b: seq<Triple>, n: nat, i: nat, k: Str)
    requires n <= |b|
    ensures Project(a + b, |a| + n, i, k) == Project(a, |a|, i, k) + Project(b, n, i, k)
  {
    if n == 0 {
      ProjectPrefix(a, b, |a|, i, k);
    } else {
      ProjectConcat(a, b, n - 1, i, k);
      assert (a + b)[|a| + n - 1] == b[n - 1];
      Assoc(Project(a, |a|, i, k), Project(b, n - 1, i, k), Matching(b[n - 1], i, k));
    }
  }

  lemma Assoc<T>(a: seq<T>, b: seq<T>, c: seq<T>)
    ensures (a + b) + c == a + (b + c)
  {
  }

  /** All the values written for a key. */
  function Written(ts: seq<Triple>, i: nat, k: Str): seq<Str> { Project(ts, |ts|, i, k) }

  lemma WrittenConcat(a: seq<Triple>, b: seq<Triple>, i: nat, k: Str)
    ensures Written(a + b, i, k) == Written(a, i, k) + Written(b, i, k)
  {
    ProjectConcat(a, b, |b|, i, k);
  }

  lemma {:induction false} ProjectKey(j: nat, x: Str, values: seq<Str>, n: nat, i: nat, k: Str)
    requires n <= |values|
    ensures Project(KeyTriples(j, x, values), n, i, k) == if i == j && k == x then values[..n] else []
  {
    if n > 0 { ProjectKey(j, x, values, n - 1, i, k); }
  }

  lemma {:induction false} WrittenMap(j: nat, m: map<Str, seq<Str>>, order: seq<Str>, i: nat, k: Str)
    requires forall x :: 0 <= x < |order| ==> order[x] in m
    requires forall x, y :: 0 <= x < y < |order| ==> order[x] != order[y]
    ensures Written(MapTriples(j, m, order), i, k) == if i == j && k in order then m[k] else []
    decreases |order|
  {
    if order != [] {
      var init, last := order[..|order| - 1], order[|order| - 1];
      assert k in order <==> k in init || k == last;
      assert last !in init;
      WrittenMap(j, m, init, i, k);
      ProjectKey(j, last, m[last], |m[last]|, i, k);
      assert m[last][..|m[last]|] == m[last];
      assert Written(MapTriples(j, m, order), i, k)
          == Written(MapTriples(j, m, init), i, k) + Written(KeyTriples(j, last, m[last]), i, k) by {
        WrittenConcat(MapTriples(j, m, init), KeyTriples(j, last, m[last]), i, k);
      }
    }
  }

  lemma WrittenThree(a: seq<Triple>, b: seq<Triple>, c: seq<Triple>, i: nat, k: Str)
    ensures Written(a + b + c, i, k) == Written(a, i, k) + Written(b, i, k) + Written(c, i, k)
  {
    WrittenConcat(a + b, c, i, k);
    WrittenConcat(a, b, i, k);
  }

  lemma ThreeSlots<T>(x: seq<T>, i: nat)
    requires i < 3
    ensures (if i == 0 then x else []) + (if i == 1 then x else []) + (if i == 2 then x else []) == x
  {
  }

  lemma WrittenAll(sf: SuperFeatures, orders: seq<seq<Str>>, i: nat, k: Str)
    requires EnumeratesAll(orders, sf) && i < 3
    ensures Written(AllTriples(sf, orders), i, k) == ListOf(sf[i], k)
  {
    var a, b, c := MapTriples(0, sf[0], orders[0]), MapTriples(1, sf[1], orders[1]), MapTriples(2, sf[2], orders[2]);
    var x := ListOf(sf[i], k);
    assert Written(a, i, k) == if i == 0 then x else [] by { WrittenOne(0, sf, orders[0], i, k); }
    assert Written(b, i, k) == if i == 1 then x else [] by { WrittenOne(1, sf, orders[1], i, k); }
    assert Written(c, i, k) == if i == 2 then x else [] by { WrittenOne(2, sf, orders[2], i, k); }
    ThreeSlots(x, i);
    assert Written(a + b + c, i, k) == x by { WrittenThree(a, b, c, i, k); }
  }

  lemma WrittenOne(j: nat, sf: SuperFeatures, order: seq<Str>, i: nat, k: Str)
    requires j < 3 && i < 3 && Enumerates(order, sf[j])
    ensures Written(MapTriples(j, sf[j], order), i, k) == if i == j then ListOf(sf[i], k) else []
  {
    WrittenMap(j, sf[j], order, i, k);
  }

  lemma PushedOne(sf: SuperFeatures, t: Triple, i: nat, k: Str)
    requires i < 3 && t.version < 3
    ensures ListOf(PushBack(sf, t)[i], k) == ListOf(sf[i], k) + Matching(t, i, k)
    ensures k in PushBack(sf, t)[i] <==> k in sf[i] || Matching(t, i, k) != []
  {
  }

  /** Map `i` of the result has under `k` what it had and then what is written for it. */
  predicate Extended(sf: SuperFeatures, after: SuperFeatures, values: seq<Str>, i: nat, k: Str)
    requires i < 3
  {
    && ListOf(after[i], k) == ListOf(sf[i], k) + values
    && (k in after[i] <==> k in sf[i] || values != [])
  }

  lemma {:induction false} Pushed(sf: SuperFeatures, ts: seq<Triple>, n: nat, i: nat, k: Str)
    requires i < 3 && n <= |ts| && Versions(ts)
    ensures Extended(sf, PushFirst(sf, ts, n), Project(ts, n, i, k), i, k)
  {
    if n > 0 {
      Pushed(sf, ts, n - 1, i, k);
      PushedNext(sf, PushFirst(sf, ts, n - 1), Project(ts, n - 1, i, k), ts[n - 1], i, k);
    }
  }

  lemma PushedNext(sf: SuperFeatures, before: SuperFeatures, values: seq<Str>, t: Triple, i: nat, k: Str)
    requires i < 3 && t.version < 3 && Extended(sf, before, values, i, k)
    ensures Extended(sf, PushBack(before, t), values + Matching(t, i, k), i, k)
  {
    PushedOne(before, t, i, k);
    Assoc(ListOf(sf[i], k), values, Matching(t, i, k));
  }

  predicate WritableTriples(ts: seq<Triple>) {
    Versions(ts) && forall i :: 0 <= i < |ts| ==> Writable(ts[i].key) && Writable(ts[i].value)
  }

  predicate TripleAt(file: Str, at: nat, t: Triple) {
    && at + INT <= |file| && Decode(file, at, INT) == t.version < 3
    && PairAt(file, at + INT, Pair(t.key, t.value))
  }

  function TripleLength(t: Triple): nat { INT + PairLength(Pair(t.key, t.value)) }

  lemma TripleStrings(file: Str, at: nat, t: Triple)
    requires Holds(file, at, WriteTriple(t)) && t.version < 3 && Writable(t.key) && Writable(t.value) && t.key != []
    ensures TripleAt(file, at, t)
  {
    HoldsPart(file, at, Encode(t.version, INT), WritePair(Pair(t.key, t.value)));
    assert Power256(4) == 0x1_0000_0000;
    DecodeEncode(file, at, t.version, INT);
    PairStrings(file, at + INT, Pair(t.key, t.value));
  }

  function TriplePosition(ts: seq<Triple>, n: nat): nat
    requires n <= |ts|
  {
    if n == 0 then 0 else TriplePosition(ts, n - 1) + TripleLength(ts[n - 1])
  }

  lemma {:induction false} TriplesPrefix(ts: seq<Triple>, k: nat, n: nat)
    requires k <= n <= |ts|
    ensures WriteTriples(ts, k) <= WriteTriples(ts, n) && |WriteTriples(ts, k)| == TriplePosition(ts, k)
    decreases n + k
  {
    if k < n { TriplesPrefix(ts, k, n - 1); }
    if k > 0 { TriplesPrefix(ts, k - 1, k - 1); }
  }

  lemma TripleWritten(ts: seq<Triple>, k: nat)
    requires k < |ts| && WritableTriples(ts) && ts[k].key != []
    ensures TripleInPlace(WriteTriples(ts, |ts|), ts, k)
  {
    TriplesPrefix(ts, k, |ts|);
    TriplesPrefix(ts, k + 1, |ts|);
    HeldAfter(WriteTriples(ts, |ts|), WriteTriples(ts, k), WriteTriple(ts[k]));
    TripleStrings(WriteTriples(ts, |ts|), TriplePosition(ts, k), ts[k]);
  }

  predicate TripleInPlace(file: Str, ts: seq<Triple>, k: nat)
    requires k < |ts|
  {
    TripleAt(file, TriplePosition(ts, k), ts[k])
  }

  predicate TriplesAt(file: Str, ts: seq<Triple>) {
    forall k :: 0 <= k < |ts| ==> TripleInPlace(file, ts, k)
  }

  lemma TripleStep(file: Str, at: nat, t: Triple, sf: SuperFeatures, rest: Option<SuperFeatures>)
    requires TripleAt(file, at, t) && LoadSF(file, at + TripleLength(t), PushBack(sf, t)) == rest
    ensures LoadSF(file, at, sf) == rest
  {
  }

  /** The reading loop takes in the triples from `n` on. */
  predicate ReadsTriples(file: Str, ts: seq<Triple>, n: nat, sf: SuperFeatures) {
    n <= |ts| && Versions(ts) && LoadSF(file, TriplePosition(ts, n), PushFirst(sf, ts, n))
        == Some(PushFirst(sf, ts, |ts|))
  }

  lemma TripleRead(file: Str, ts: seq<Triple>, n: nat, sf: SuperFeatures)
    requires n < |ts| && TriplesAt(file, ts) && ReadsTriples(file, ts, n + 1, sf)
    ensures ReadsTriples(file, ts, n, sf)
  {
    assert TripleInPlace(file, ts, n);
    TripleStep(file, TriplePosition(ts, n), ts[n], PushFirst(sf, ts, n), Some(PushFirst(sf, ts, |ts|)));
  }

  lemma {:induction false} TriplesRead(file: Str, ts: seq<Triple>, n: nat, sf: SuperFeatures)
    requires n <= |ts| && Versions(ts) && TriplesAt(file, ts) && |file| == TriplePosition(ts, |ts|)
    ensures ReadsTriples(file, ts, n, sf)
    decreases |ts| - n
  {
    if n < |ts| {
      TriplesRead(file, ts, n + 1, sf);
      TripleRead(file, ts, n, sf);
    }
  }

  lemma {:induction false} NoEmptyKeyPushed(file: Str, at: nat, sf: SuperFeatures, i: nat)
    requires i < 3 && [] !in sf[i] && LoadSF(file, at, sf).Some?
    requires forall k :: k in sf[i] ==> sf[i][k] != []
    ensures [] !in LoadSF(file, at, sf).value[i]
    ensures forall k :: k in LoadSF(file, at, sf).value[i] ==> LoadSF(file, at, sf).value[i][k] != []
    decreases |file| - at
  {
    if at < |file| && ReadKey(file, at + INT).Read? {
      var k := ReadKey(file, at + INT);
      var v := ReadValue(file, k.next);
      NoEmptyKeyPushed(file, v.next, PushBack(sf, Triple(Decode(file, at, INT), k.s, v.s)), i);
    }
  }

  predicate WritableSF(sf: SuperFeatures) {
    forall i, k :: 0 <= i < 3 && k in sf[i] ==> Writable(k) && forall j :: 0 <= j < |sf[i][k]| ==> Writable(sf[i][k][j])
  }

  /** Every key is nonempty, and so is its list. */
  predicate WellKept(sf: SuperFeatures) {
    forall i, k :: 0 <= i < 3 && k in sf[i] ==> k != [] && sf[i][k] != []
  }

  lemma {:induction false} MapTriplesOk(i: nat, sf: SuperFeatures, order: seq<Str>)
    requires i < 3 && (forall j :: 0 <= j < |order| ==> order[j] in sf[i]) && WritableSF(sf)
    ensures WritableTriples(MapTriples(i, sf[i], order))
    ensures WellKept(sf) ==>
              forall j :: 0 <= j < |MapTriples(i, sf[i], order)| ==> MapTriples(i, sf[i], order)[j].key != []
    decreases |order|
  {
    if order != [] { MapTriplesOk(i, sf, order[..|order| - 1]); }
  }

  lemma AllTriplesOk(sf: SuperFeatures, orders: seq<seq<Str>>)
    requires EnumeratesAll(orders, sf) && WritableSF(sf)
    ensures WritableTriples(AllTriples(sf, orders))
    ensures WellKept(sf) ==> forall j :: 0 <= j < |AllTriples(sf, orders)| ==> AllTriples(sf, orders)[j].key != []
  {
    MapTriplesOk(0, sf, orders[0]);
    MapTriplesOk(1, sf, orders[1]);
    MapTriplesOk(2, sf, orders[2]);
  }

  const EmptySF: SuperFeatures := [map[], map[], map[]]

  lemma RebuiltSF(sf: SuperFeatures, orders: seq<seq<Str>>)
    requires EnumeratesAll(orders, sf) && WellKept(sf) && Versions(AllTriples(sf, orders))
    ensures PushFirst(EmptySF, AllTriples(sf, orders), |AllTriples(sf, orders)|) == sf
  {
    var ts := AllTriples(sf, orders);
    var r := PushFirst(EmptySF, ts, |ts|);
    forall i | 0 <= i < 3 ensures r[i] == sf[i] {
      forall k ensures SameList(r[i], sf[i], k) {
        Pushed(EmptySF, ts, |ts|, i, k);
        WrittenAll(sf, orders, i, k);
      }
      SameLists(r[i], sf[i]);
    }
  }

  predicate SameList(a: map<Str, seq<Str>>, b: map<Str, seq<Str>>, k: Str) {
    ListOf(a, k) == ListOf(b, k) && (k in a <==> ListOf(b, k) != [])
  }

  lemma SameLists(a: map<Str, seq<Str>>, b: map<Str, seq<Str>>)
    requires (forall k :: SameList(a, b, k)) && forall k :: k in b ==> b[k] != []
    ensures a == b
  {
    forall k | k in a || k in b ensures k in a && k in b && a[k] == b[k] { assert SameList(a, b, k); }
  }

  /** The second file; `orders` are the orders in which the maps are enumerated. */
  function SFFile(sf: SuperFeatures, orders: seq<seq<Str>>): Str
    requires EnumeratesAll(orders, sf)
  {
    BytesOf(AllTriples(sf, orders))
  }

  /** Whatever the orders of enumeration, reading the file gives the three maps back, each
      list in its order, exactly when no key and no list is empty. */
  lemma SFRoundTrip(sf: SuperFeatures, orders: seq<seq<Str>>)
    requires EnumeratesAll(orders, sf) && WritableSF(sf)
    ensures LoadSF(SFFile(sf, orders), 0, EmptySF) == Some(sf) <==> WellKept(sf)
  {
    var ts := AllTriples(sf, orders);
    AllTriplesOk(sf, orders);
    if WellKept(sf) {
      var file := SFFile(sf, orders);
      forall k | 0 <= k < |ts| ensures TripleInPlace(file, ts, k) { TripleWritten(ts, k); }
      TriplesPrefix(ts, |ts|, |ts|);
      TriplesRead(file, ts, 0, EmptySF);
      RebuiltSF(sf, orders);
    } else if LoadSF(SFFile(sf, orders), 0, EmptySF).Some? {
      var i, k :| 0 <= i < 3 && k in sf[i] && (k == [] || sf[i][k] == []);
      NoEmptyKeyPushed(SFFile(sf, orders), 0, EmptySF, i);
    }
  }

  // ---- updates and queries --------------------------------------------------

  /** The part of a super-feature key that map `i` uses. */
  function Part(key: Str, i: nat): Str
    requires i < 3 && |key| >= 3 * CHUNK_HASH_SIZE
  {
    key[i * CHUNK_HASH_SIZE..(i + 1) * CHUNK_HASH_SIZE]
  }

  /** The list under a key after `InsertSF` with the flag: 0 appends, 1 replaces, 2
      erases, others do nothing. */
  function Updated(before: Option<seq<Str>>, value: Str, flag: nat): Option<seq<Str>> {
    match flag
    case 0 => Some((if before.Some? then before.value else []) + [value])
    case 1 => Some([value])
    case 2 => None
    case _ => before
  }

  function Lookup(m: map<Str, seq<Str>>, k: Str): Option<seq<Str>> { if k in m then Some(m[k]) else None }

  /** One map of the index after `InsertSF`. */
  ghost predicate UpdatedMap(m: map<Str, seq<Str>>, m': map<Str, seq<Str>>, key: Str, value: Str, flag: nat) {
    forall k :: Lookup(m', k) == if k == key then Updated(Lookup(m, k), value, flag) else Lookup(m, k)
  }

  ghost predicate UpdatedSF(sf: SuperFeatures, sf': SuperFeatures, key: Str, value: Str, flag: nat)
    requires |key| >= 3 * CHUNK_HASH_SIZE
  {
    forall i :: 0 <= i < 3 ==> UpdatedMap(sf[i], sf'[i], Part(key, i), value, flag)
  }

  /** No update leaves an empty list, so that a query that finds a key has a front
      element to return, and saving and loading lose nothing. */
  lemma UpdatesKeep(sf: SuperFeatures, sf': SuperFeatures, key: Str, value: Str, flag: nat)
    requires |key| >= 3 * CHUNK_HASH_SIZE && UpdatedSF(sf, sf', key, value, flag) && WellKept(sf)
    ensures WellKept(sf')
  {
    forall i, k | 0 <= i < 3 && k in sf'[i] ensures k != [] && sf'[i][k] != [] {
      assert UpdatedMap(sf[i], sf'[i], Part(key, i), value, flag);
      assert Lookup(sf'[i], k) == Some(sf'[i][k]);
      if k in sf[i] { assert Lookup(sf[i], k) == Some(sf[i][k]); }
    }
  }

  /** What `QuerySF` answers: the front of the first list found. */
  function Answer(sf: SuperFeatures, key: Str): Option<Str>
    requires |key| >= 3 * CHUNK_HASH_SIZE && WellKept(sf)
  {
    if Part(key, 0) in sf[0] then Some(sf[0][Part(key, 0)][0])
    else if Part(key, 1) in sf[1] then Some(sf[1][Part(key, 1)][0])
    else if Part(key, 2) in sf[2] then Some(sf[2][Part(key, 2)][0])
    else None
  }

  /** A replaced feature is found at once, and an erased one no more; an appended one answers
      the query exactly when no feature is known under the first part of the key. */
  lemma QueryAfterUpdate(sf: SuperFeatures, sf': SuperFeatures, key: Str, value: Str, flag: nat)
    requires |key| >= 3 * CHUNK_HASH_SIZE && UpdatedSF(sf, sf', key, value, flag) && WellKept(sf)
    ensures WellKept(sf')
    ensures flag == 0 ==> Answer(sf', key) == if Part(key, 0) in sf[0] then Answer(sf, key) else Some(value)
    ensures flag == 1 ==> Answer(sf', key) == Some(value)
    ensures flag == 2 ==> Answer(sf', key) == None
    ensures flag > 2 ==> Answer(sf', key) == Answer(sf, key)
  {
    UpdatesKeep(sf, sf', key, value, flag);
    forall i | 0 <= i < 3 ensures Lookup(sf'[i], Part(key, i)) == Updated(Lookup(sf[i], Part(key, i)), value, flag) {
      assert UpdatedMap(sf[i], sf'[i], Part(key, i), value, flag);
    }
  }

  /** Hence appending keeps an answer exactly when it was found under the first part, or is
      the value itself. */
  lemma AppendKeepsExactly(sf: SuperFeatures, sf': SuperFeatures, key: Str, value: Str)
    requires |key| >= 3 * CHUNK_HASH_SIZE && UpdatedSF(sf, sf', key, value, 0) && WellKept(sf) && Answer(sf, key).Some?
    ensures WellKept(sf')
    ensures Answer(sf', key) == Answer(sf, key) <==> Part(key, 0) in sf[0] || Answer(sf, key) == Some(value)
  {
    QueryAfterUpdate(sf, sf', key, value, 0);
  }

  // ---- every reachable index -------------------------------------------------

  /** All keys and values are chunk hashes. */
  predicate HashSized(sf: SuperFeatures) {
    forall i, k :: 0 <= i < 3 && k in sf[i] ==>
      |k| == CHUNK_HASH_SIZE && forall j :: 0 <= j < |sf[i][k]| ==> |sf[i][k][j]| == CHUNK_HASH_SIZE
  }

  /** One call of `InsertSF`, or writing the index in some order and loading it again. */
  ghost predicate Next(sf: SuperFeatures, sf': SuperFeatures) {
    || (exists key, value, flag :: |key| >= 3 * CHUNK_HASH_SIZE && |value| == CHUNK_HASH_SIZE
          && UpdatedSF(sf, sf', key, value, flag))
    || (exists orders :: EnumeratesAll(orders, sf) && LoadSF(SFFile(sf, orders), 0, EmptySF) == Some(sf'))
  }

  ghost predicate NextAt(run: seq<SuperFeatures>, i: nat)
    requires i + 1 < |run|
  {
    Next(run[i], run[i + 1])
  }

  /** Runs from the empty index, through any number of restarts. */
  ghost predicate IsRun(run: seq<SuperFeatures>) {
    run != [] && run[0] == EmptySF && forall i :: 0 <= i < |run| - 1 ==> NextAt(run, i)
  }

  lemma UpdateKeepsSize(sf: SuperFeatures, sf': SuperFeatures, key: Str, value: Str, flag: nat)
    requires |key| >= 3 * CHUNK_HASH_SIZE && |value| == CHUNK_HASH_SIZE && UpdatedSF(sf, sf', key, value, flag)
             && HashSized(sf)
    ensures HashSized(sf')
  {
    forall i, k | 0 <= i < 3 && k in sf'[i]
      ensures |k| == CHUNK_HASH_SIZE && forall j :: 0 <= j < |sf'[i][k]| ==> |sf'[i][k][j]| == CHUNK_HASH_SIZE
    {
      assert UpdatedMap(sf[i], sf'[i], Part(key, i), value, flag);
      assert Lookup(sf'[i], k) == Some(sf'[i][k]);
      if k in sf[i] { assert Lookup(sf[i], k) == Some(sf[i][k]); }
    }
  }

  lemma SizedIsWritable(sf: SuperFeatures)
    requires HashSized(sf)
    ensures WritableSF(sf)
  {
  }

  lemma NextKeeps(sf: SuperFeatures, sf': SuperFeatures)
    requires Next(sf, sf') && WellKept(sf) && HashSized(sf)
    ensures WellKept(sf') && HashSized(sf')
  {
    if key, value, flag :|
      |key| >= 3 * CHUNK_HASH_SIZE && |value| == CHUNK_HASH_SIZE && UpdatedSF(sf, sf', key, value, flag)
    {
      UpdatesKeep(sf, sf', key, value, flag);
      UpdateKeepsSize(sf, sf', key, value, flag);
    } else {
      var orders :| EnumeratesAll(orders, sf) && LoadSF(SFFile(sf, orders), 0, EmptySF) == Some(sf');
      SizedIsWritable(sf);
      SFRoundTrip(sf, orders);
    }
  }

  function AppendTo(m: map<Str, seq<Str>>, key: Str, value: Str): map<Str, seq<Str>> {
    m[key := (if key in m then m[key] else []) + [value]]
  }

  function Appended(sf: SuperFeatures, key: Str, value: Str): SuperFeatures
    requires |key| >= 3 * CHUNK_HASH_SIZE
  {
    [AppendTo(sf[0], Part(key, 0), value), AppendTo(sf[1], Part(key, 1), value), AppendTo(sf[2], Part(key, 2), value)]
  }

  lemma AppendedIs(sf: SuperFeatures, key: Str, value: Str)
    requires |key| >= 3 * CHUNK_HASH_SIZE
    ensures UpdatedSF(sf, Appended(sf, key, value), key, value, 0)
  {
    forall i | 0 <= i < 3 ensures UpdatedMap(sf[i], Appended(sf, key, value)[i], Part(key, i), value, 0) {}
  }

  function Hash(b: Byte): (h: Str)
    ensures |h| == CHUNK_HASH_SIZE
  {
    seq(CHUNK_HASH_SIZE, _ => b)
  }

  lemma Parts(a: Str, b: Str, c: Str)
    requires |a| == |b| == |c| == CHUNK_HASH_SIZE
    ensures Part(a + b + c, 0) == a && Part(a + b + c, 1) == b && Part(a + b + c, 2) == c
  {
  }

  /** Two appended features whose keys share the second part only: for the second key the
      older feature is found at first, and no more after the second one is appended. */
  lemma AppendDisplaces() returns (run: seq<SuperFeatures>, key: Str, value: Str)
    ensures IsRun(run) && |run| == 3 && |key| >= 3 * CHUNK_HASH_SIZE && |value| == CHUNK_HASH_SIZE
    ensures UpdatedSF(run[1], run[2], key, value, 0) && WellKept(run[1]) && WellKept(run[2])
    ensures Answer(run[1], key) == Some(Hash(0)) && Answer(run[2], key) == Some(Hash(1))
  {
    var first := Hash(0) + Hash(1) + Hash(0);
    key, value := Hash(2) + Hash(1) + Hash(2), Hash(1);
    Parts(Hash(0), Hash(1), Hash(0));
    Parts(Hash(2), Hash(1), Hash(2));
    var sf := Appended(EmptySF, first, Hash(0));
    run := [EmptySF, sf, Appended(sf, key, value)];
    AppendedIs(EmptySF, first, Hash(0));
    AppendedIs(sf, key, value);
    forall i | 0 <= i < |run| - 1 ensures NextAt(run, i) {
      if i == 0 {
        assert UpdatedSF(run[0], run[1], first, Hash(0), 0);
      } else {
        assert UpdatedSF(run[1], run[2], key, value, 0);
      }
    }
    ReachableKept(run, 1);
    assert Hash(0)[0] != Hash(2)[0];
    QueryAfterUpdate(sf, run[2], key, value, 0);
  }

  /** In every reachable index no list is empty and all sizes are those of hashes. */
  lemma {:induction false} ReachableKept(run: seq<SuperFeatures>, i: nat)
    requires IsRun(run) && i < |run|
    ensures WellKept(run[i]) && HashSized(run[i])
  {
    if i > 0 {
      ReachableKept(run, i - 1);
      assert NextAt(run, i - 1);
      NextKeeps(run[i - 1], run[i]);
    }
  }

  /** Hence saving and loading a reachable index changes nothing, in whatever order it is
      enumerated, and a key that is found has a front element. */
  lemma ReachableRoundTrip(run: seq<SuperFeatures>, i: nat, orders: seq<seq<Str>>)
    requires IsRun(run) && i < |run| && EnumeratesAll(orders, run[i])
    ensures LoadSF(SFFile(run[i], orders), 0, EmptySF) == Some(run[i])
    ensures forall m, k :: 0 <= m < 3 && k in run[i][m] ==> run[i][m][k] != []
  {
    ReachableKept(run, i);
    SizedIsWritable(run[i]);
    SFRoundTrip(run[i], orders);
  }

  /** Whatever a file holds, loading it makes no empty key and no empty list. */
  lemma LoadedKept(file: Str)
    requires LoadSF(file, 0, EmptySF).Some?
    ensures WellKept(LoadSF(file, 0, EmptySF).value)
  {
    var sf := LoadSF(file, 0, EmptySF).value;
    forall i, k | 0 <= i < 3 && k in sf[i] ensures k != [] && sf[i][k] != [] { NoEmptyKeyPushed(file, 0, EmptySF, i); }
  }

  function BytesOf(ts: seq<Triple>): Str { WriteTriples(ts, |ts|) }

  lemma {:induction false} BytesPrefix(a: seq<Triple>, b: seq<Triple>, n: nat)
    requires n <= |a|
    ensures WriteTriples(a + b, n) == WriteTriples(a, n)
  {
    if n > 0 { BytesPrefix(a, b, n - 1); }
  }

  lemma BytesConcat(a: seq<Triple>, b: seq<Triple>)
    ensures BytesOf(a + b) == BytesOf(a) + BytesOf(b)
  {
    BytesConcatFirst(a, b, |b|);
  }

  lemma {:induction false} BytesConcatFirst(a: seq<Triple>, b: seq<Triple>, n: nat)
    requires n <= |b|
    ensures WriteTriples(a + b, |a| + n) == BytesOf(a) + WriteTriples(b, n)
  {
    if n == 0 {
      BytesPrefix(a, b, |a|);
    } else {
      BytesConcatFirst(a, b, n - 1);
      assert (a + b)[|a| + n - 1] == b[n - 1];
      Assoc(BytesOf(a), WriteTriples(b, n - 1), WriteTriple(b[n - 1]));
    }
  }

  // ---- the database object --------------------------------------------------

  class Database {
    var indexObj: map<Str, Str>
    var sfObj: SuperFeatures

    ghost predicate Valid() reads this { WellKept(sfObj) }

    /** `OpenDB`; a missing file reads like an empty one. */
    constructor (dbFile: Str, sfdbFile: Str)
      requires LoadIndex(dbFile, 0, map[]).Some? && LoadSF(sfdbFile, 0, EmptySF).Some?
      ensures Valid() && indexObj == LoadIndex(dbFile, 0, map[]).value && sfObj == LoadSF(sfdbFile, 0, EmptySF).value
    {
      indexObj := map[];
      sfObj := EmptySF;
      new;
      LoadIndexFile(dbFile);
      LoadSFFile(sfdbFile);
      LoadedKept(sfdbFile);
    }

    method LoadIndexFile(file: Str)
      requires LoadIndex(file, 0, indexObj).Some?
      modifies this`indexObj
      ensures indexObj == LoadIndex(file, 0, old(indexObj)).value
    {
      var at := 0;
      while true
        invariant LoadIndex(file, 0, old(indexObj)) == LoadIndex(file, at, indexObj)
        decreases |file| - at
      {
        var k := ReadKey(file, at);
        if k.End? { break; }
        var v := ReadValue(file, k.next);
        indexObj := AddNew(indexObj, Pair(k.s, v.s));
        at := v.next;
      }
    }

    method LoadSFFile(file: Str)
      requires LoadSF(file, 0, sfObj).Some?
      modifies this`sfObj
      ensures sfObj == LoadSF(file, 0, old(sfObj)).value
    {
      var at := 0;
      while at < |file|
        invariant LoadSF(file, 0, old(sfObj)) == LoadSF(file, at, sfObj)
        decreases |file| - at
      {
        var version := Decode(file, at, INT);
        var k := ReadKey(file, at + INT);
        if k.End? { break; }
        var v := ReadValue(file, k.next);
        sfObj := PushBack(sfObj, Triple(version, k.s, v.s));
        at := v.next;
      }
    }

    /** The first file the destructor writes. */
    method SaveIndex(order: seq<Str>) returns (file: Str)
      requires Enumerates(order, indexObj)
      ensures file == IndexFile(indexObj, order)
    {
      file := [];
      var i := 0;
      while i < |order|
        invariant i <= |order| && file == WritePairs(Pairs(indexObj, order), i)
      {
        file := file + (WriteString(order[i]) + WriteString(indexObj[order[i]]));
        i := i + 1;
      }
    }

    /** The second file the destructor writes, map by map. */
    method SaveSF(orders: seq<seq<Str>>) returns (file: Str)
      requires EnumeratesAll(orders, sfObj)
      ensures file == SFFile(sfObj, orders)
    {
      var a := SaveMap(0, orders[0]);
      var b := SaveMap(1, orders[1]);
      var c := SaveMap(2, orders[2]);
      file := a + b + c;
      BytesConcat(MapTriples(0, sfObj[0], orders[0]), MapTriples(1, sfObj[1], orders[1]));
      BytesConcat(MapTriples(0, sfObj[0], orders[0]) + MapTriples(1, sfObj[1], orders[1]),
          MapTriples(2, sfObj[2], orders[2]));
    }

    method SaveMap(i: nat, order: seq<Str>) returns (part: Str)
      requires i < 3 && forall x :: 0 <= x < |order| ==> order[x] in sfObj[i]
      ensures part == BytesOf(MapTriples(i, sfObj[i], order))
    {
      part := [];
      var x := 0;
      while x < |order|
        invariant x <= |order| && part == BytesOf(MapTriples(i, sfObj[i], order[..x]))
      {
        var key := order[x];
        var piece := SaveList(i, key, sfObj[i][key]);
        assert order[..x + 1][..x] == order[..x];
        BytesConcat(MapTriples(i, sfObj[i], order[..x]), KeyTriples(i, key, sfObj[i][key]));
        part := part + piece;
        x := x + 1;
      }
      assert order[..|order|] == order;
    }

    method SaveList(sf_version: nat, key: Str, values: seq<Str>) returns (piece: Str)
      ensures piece == BytesOf(KeyTriples(sf_version, key, values))
    {
      piece := [];
      var j := 0;
      while j < |values|
        invariant j <= |values| && piece == WriteTriples(KeyTriples(sf_version, key, values), j)
      {
        piece := piece + (Encode(sf_version, INT) + (WriteString(key) + WriteString(values[j])));
        j := j + 1;
      }
    }

    method InsertSF(key: Str, buffer: Str, updateflag: nat)
      requires Valid() && |key| >= 3 * CHUNK_HASH_SIZE && |buffer| >= CHUNK_HASH_SIZE
      modifies this`sfObj
      ensures Valid() && UpdatedSF(old(sfObj), sfObj, key, buffer[..CHUNK_HASH_SIZE], updateflag)
    {
      var valueStr := buffer[..CHUNK_HASH_SIZE];
      var i := 0;
      while i < 3
        invariant i <= 3
        invariant forall j :: 0 <= j < i ==> UpdatedMap(old(sfObj)[j], sfObj[j], Part(key, j), valueStr, updateflag)
        invariant forall j :: i <= j < 3 ==> sfObj[j] == old(sfObj)[j]
      {
        var m := UpdateMap(sfObj[i], Part(key, i), valueStr, updateflag);
        sfObj := sfObj[i := m];
        i := i + 1;
      }
      UpdatesKeep(old(sfObj), sfObj, key, valueStr, updateflag);
    }

    /** The body of the loop of `InsertSF`. */
    method UpdateMap(before: map<Str, seq<Str>>, keyStr: Str, valueStr: Str, updateflag: nat)
        returns (m: map<Str, seq<Str>>)
      ensures UpdatedMap(before, m, keyStr, valueStr, updateflag)
    {
      m := before;
      if updateflag == 0 {
        m := m[keyStr := ListOf(m, keyStr) + [valueStr]];
      } else if updateflag == 1 {
        m := m - {keyStr};
        m := m[keyStr := ListOf(m, keyStr) + [valueStr]];
        assert m[keyStr] == [valueStr];
      } else if updateflag == 2 {
        m := m - {keyStr};
      }
    }

    method QuerySF(key: Str) returns (r: Option<Str>)
      requires Valid() && |key| >= 3 * CHUNK_HASH_SIZE
      ensures r == Answer(sfObj, key)
    {
      var i := 0;
      while i < 3
        invariant i <= 3 && forall j :: 0 <= j < i ==> Part(key, j) !in sfObj[j]
      {
        var keyStr := Part(key, i);
        if keyStr in sfObj[i] { return Some(sfObj[i][keyStr][0]); }
        i := i + 1;
      }
      return None;
    }

    method Insert(key: Str, value: Str)
      modifies this`indexObj
      ensures indexObj == old(indexObj)[key := value]
    {
      indexObj := indexObj[key := value];
    }
  }
}
