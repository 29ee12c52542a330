/** The reference-counted, CAS-based free list (`FreeList` in concurrentqueue.h).

    Any number of threads run `add` and `try_get`.  One step of the model is one
    atomic access of the source: a load, a store, a compare-exchange or a
    fetch-add of `freeListHead`, of one node's `freeListRefs` word or of one
    node's `freeListNext`.  Callers hand nodes to each other freely, but `add`
    is only called with a node that the callers own. */
module FreeList {

  /** A pointer to a node, or `nullptr`. */
  datatype Link = Nil | To(node: nat)

  const SHOULD_BE_ON_FREELIST: nat := 0x8000_0000
  const WORD: nat := 0x1_0000_0000

  /** Where `add_knowing_refcount_is_zero` returns to: the end of `add` or of a
      failed turn of `try_get`, whose local `head` is then `head`. */
  datatype Return = ToCaller | ToLoop(head: Link)

  /** The next atomic access of a thread, with the thread's local variables. */
  datatype Pc =
    | Idle
    | AddMark(n: nat)                         // add: fetch_add(SHOULD_BE_ON_FREELIST)
    | InsLoadHead(n: nat, k: Return)          // insert: load freeListHead
    | InsSetNext(n: nat, h: Link, k: Return)  // insert: store freeListNext
    | InsSetRefs(n: nat, h: Link, k: Return)  // insert: store freeListRefs := 1
    | InsCas(n: nat, h: Link, k: Return)      // insert: CAS freeListHead
    | InsUndo(n: nat, h: Link, k: Return)     // insert: fetch_add(SHOULD_BE_ON_FREELIST - 1)
    | GetHead                                 // try_get: load freeListHead
    | GetRefs(n: nat)                         // try_get: load head->freeListRefs
    | GetPin(n: nat, r: nat)                  // try_get: CAS refs to refs + 1
    | GetNext(n: nat)                         // try_get: load head->freeListNext
    | GetCas(n: nat, nx: Link)                // try_get: CAS freeListHead
    | GetCheck(n: nat)                        // try_get: the assertion
    | GetTake(n: nat)                         // try_get: fetch_sub(2), return the node
    | GetUnpin(n: nat, h: Link)               // try_get: fetch_sub(1) after a failed CAS

  /** `refs` and `next` are the words of the nodes; `taken` are the nodes in the
      hands of callers that are not inside `add`. */
  datatype State = State(head: Link, refs: seq<nat>, next: seq<Link>, taken: set<nat>, pcs: seq<Pc>)

  ghost predicate Init(s: State) {
    && s.head == Nil
    && |s.refs| == |s.next|
    && (forall n :: 0 <= n < |s.refs| ==> s.refs[n] == 0)
    && (forall n :: 0 <= n < |s.next| ==> s.next[n] == Nil)
    && (forall n :: n in s.taken <==> n < |s.refs|)
    && (forall t :: 0 <= t < |s.pcs| ==> s.pcs[t] == Idle)
  }

  // ---- steps -------------------------------------------------------------

  /** The loop head of `try_get`: leave when the local `head` is null. */
  function Loop(h: Link): Pc {
    if h.Nil? then Idle else GetRefs(h.node)
  }

  function Resume(k: Return): Pc {
    match k
    case ToCaller => Idle
    case ToLoop(h) => Loop(h)
  }

  function Goto(s: State, t: nat, pc: Pc): State
    requires t < |s.pcs|
  {
    s.(pcs := s.pcs[t := pc])
  }

  function SetRefs(s: State, n: nat, w: nat): State
    requires n < |s.refs|
  {
    s.(refs := s.refs[n := w])
  }

  /** The node a thread is about to access exists. */
  ghost predicate PcInRange(pc: Pc, size: nat) {
    match pc
    case Idle => true
    case GetHead => true
    case _ => pc.n < size
  }

  /** One atomic access by thread `t`, which is inside `add` or `try_get`. */
  ghost function Advance(s: State, t: nat): State
    requires t < |s.pcs| && !s.pcs[t].Idle?
    requires |s.refs| == |s.next| && PcInRange(s.pcs[t], |s.refs|)
  {
    match s.pcs[t]
    case AddMark(n) =>
      var w := s.refs[n];
      Goto(SetRefs(s, n, (w + SHOULD_BE_ON_FREELIST) % WORD), t, if w == 0 then InsLoadHead(n, ToCaller) else Idle)
    case InsLoadHead(n, k) => Goto(s, t, InsSetNext(n, s.head, k))
    case InsSetNext(n, h, k) => Goto(s.(next := s.next[n := h]), t, InsSetRefs(n, h, k))
    case InsSetRefs(n, h, k) => Goto(SetRefs(s, n, 1), t, InsCas(n, h, k))
    case InsCas(n, h, k) =>
      if s.head == h then Goto(s.(head := To(n)), t, Resume(k)) else Goto(s, t, InsUndo(n, s.head, k))
    case InsUndo(n, h, k) =>
      var w := s.refs[n];
      Goto(SetRefs(s, n, (w + SHOULD_BE_ON_FREELIST - 1) % WORD), t, if w == 1 then InsSetNext(n, h, k) else Resume(k))
    case GetHead => Goto(s, t, Loop(s.head))
    case GetRefs(n) =>
      var r := s.refs[n];
      Goto(s, t, if r % SHOULD_BE_ON_FREELIST == 0 then GetHead else GetPin(n, r))
    case GetPin(n, r) =>
      if s.refs[n] == r then Goto(SetRefs(s, n, (r + 1) % WORD), t, GetNext(n)) else Goto(s, t, GetHead)
    case GetNext(n) => Goto(s, t, GetCas(n, s.next[n]))
    case GetCas(n, nx) =>
      if s.head == To(n) then Goto(s.(head := nx), t, GetCheck(n)) else Goto(s, t, GetUnpin(n, s.head))
    case GetCheck(n) => Goto(s, t, GetTake(n))
    case GetTake(n) => Goto(SetRefs(s, n, (s.refs[n] - 2) % WORD), t, Idle).(taken := s.taken + {n})
    case GetUnpin(n, h) =>
      var w := s.refs[n];
      Goto(SetRefs(s, n, (w - 1) % WORD), t,
           if w == SHOULD_BE_ON_FREELIST + 1 then InsLoadHead(n, ToLoop(h)) else Loop(h))
  }

  /** An idle thread calls `try_get`, or calls `add` with a node the callers own;
      a busy thread makes its next access. */
  ghost predicate Step(s: State, s': State) {
    exists t: nat :: t < |s.pcs| && StepOf(s, s', t)
  }

  ghost predicate StepOf(s: State, s': State, t: nat)
    requires t < |s.pcs|
  {
    if s.pcs[t].Idle? then
      || s' == Goto(s, t, GetHead)
      || exists n :: n in s.taken && s' == Goto(s.(taken := s.taken - {n}), t, AddMark(n))
    else
      && |s.refs| == |s.next|
      && PcInRange(s.pcs[t], |s.refs|)
      && s' == Advance(s, t)
  }

  // ---- what a thread contributes to a node -------------------------------

  /** References counted in `freeListRefs`, the exclusive right to insert the
      node, and exclusive possession of the node inside an operation. */
  datatype Role = Pin | Insert | Hold

  function Weight(r: Role, pc: Pc, n: nat): nat {
    match r
    case Pin =>
      (match pc
       case InsCas(m, _, _) => if m == n then 1 else 0
       case InsUndo(m, _, _) => if m == n then 1 else 0
       case GetNext(m) => if m == n then 1 else 0
       case GetCas(m, _) => if m == n then 1 else 0
       case GetUnpin(m, _) => if m == n then 1 else 0
       case GetCheck(m) => if m == n then 2 else 0
       case GetTake(m) => if m == n then 2 else 0
       case _ => 0)
    case Insert =>
      (match pc
       case InsLoadHead(m, _) => if m == n then 1 else 0
       case InsSetNext(m, _, _) => if m == n then 1 else 0
       case InsSetRefs(m, _, _) => if m == n then 1 else 0
       case _ => 0)
    case Hold =>
      (match pc
       case AddMark(m) => if m == n then 1 else 0
       case InsCas(m, _, _) => if m == n then 1 else 0
       case InsUndo(m, _, _) => if m == n then 1 else 0
       case GetCheck(m) => if m == n then 1 else 0
       case GetTake(m) => if m == n then 1 else 0
       case _ => 0)
  }

  function Total(r: Role, pcs: seq<Pc>, n: nat): nat {
    if pcs == [] then 0 else Total(r, pcs[1..], n) + Weight(r, pcs[0], n)
  }

  lemma {:induction false} TotalUpdate(r: Role, pcs: seq<Pc>, t: nat, pc: Pc, n: nat)
    requires t < |pcs|
    ensures Total(r, pcs[t := pc], n) == Total(r, pcs, n) - Weight(r, pcs[t], n) + Weight(r, pc, n)
  {
    if t == 0 {
      assert pcs[t := pc][1..] == pcs[1..];
    } else {
      assert pcs[t := pc][1..] == pcs[1..][t - 1 := pc];
      TotalUpdate(r, pcs[1..], t - 1, pc, n);
    }
  }

  lemma {:induction false} TotalMember(r: Role, pcs: seq<Pc>, t: nat, n: nat)
    requires t < |pcs|
    ensures Weight(r, pcs[t], n) <= Total(r, pcs, n)
  {
    if t > 0 { TotalMember(r, pcs[1..], t - 1, n); }
  }

  lemma {:induction false} TotalTwo(r: Role, pcs: seq<Pc>, t: nat, u: nat, n: nat)
    requires t < u < |pcs|
    ensures Weight(r, pcs[t], n) + Weight(r, pcs[u], n) <= Total(r, pcs, n)
  {
    if t == 0 { TotalMember(r, pcs[1..], u - 1, n); } else { TotalTwo(r, pcs[1..], t - 1, u - 1, n); }
  }

  /** Only a holder counts twice. */
  lemma {:induction false} PinsBounded(pcs: seq<Pc>, n: nat)
    ensures Total(Pin, pcs, n) <= |pcs| + Total(Hold, pcs, n)
  {
    if pcs != [] { PinsBounded(pcs[1..], n); }
  }

  lemma {:induction false} TotalIdle(r: Role, pcs: seq<Pc>, n: nat)
    requires forall t :: 0 <= t < |pcs| ==> pcs[t] == Idle
    ensures Total(r, pcs, n) == 0
  {
    if pcs != [] { TotalIdle(r, pcs[1..], n); }
  }

  // ---- the invariant -----------------------------------------------------

  function Count(w: nat): nat { w % SHOULD_BE_ON_FREELIST }

  function Flag(w: nat): nat { w / SHOULD_BE_ON_FREELIST }

  function One(b: bool): nat { if b then 1 else 0 }

  function After(linked: seq<nat>, i: nat): Link {
    if i + 1 < |linked| then To(linked[i + 1]) else Nil
  }

  /** `linked` lists the nodes reachable from `head`, each exactly once. */
  ghost predicate IsList(s: State, linked: seq<nat>) {
    && |s.refs| == |s.next|
    && (forall i :: 0 <= i < |linked| ==> linked[i] < |s.next|)
    && (forall i, j :: 0 <= i < j < |linked| ==> linked[i] != linked[j])
    && s.head == (if linked == [] then Nil else To(linked[0]))
    && (forall i :: 0 <= i < |linked| ==> s.next[linked[i]] == After(linked, i))
  }

  /** A node is in exactly one place, its count is the number of references, and
      a flagged node has an inserter exactly when its count is zero. */
  ghost predicate NodeOk(s: State, linked: seq<nat>, n: nat)
    requires n < |s.refs|
  {
    var w := s.refs[n];
    && w < WORD
    && Count(w) == One(n in linked) + Total(Pin, s.pcs, n)
    && One(n in linked) + One(n in s.taken) + Total(Hold, s.pcs, n) + Flag(w) == 1
    && Total(Insert, s.pcs, n) == (if Flag(w) == 1 && Count(w) == 0 then 1 else 0)
  }

  ghost predicate LinkOk(h: Link, size: nat) {
    h.To? ==> h.node < size
  }

  ghost predicate ReturnOk(k: Return, size: nat) {
    k.ToLoop? ==> LinkOk(k.head, size)
  }

  /** Local variables: nodes exist, and a `next` value that was read under a
      reference or written by the inserter is still current. */
  ghost predicate PcOk(s: State, pc: Pc)
    requires |s.refs| == |s.next|
  {
    && PcInRange(pc, |s.next|)
    && match pc
       case InsLoadHead(_, k) => ReturnOk(k, |s.next|)
       case InsSetNext(_, h, k) => LinkOk(h, |s.next|) && ReturnOk(k, |s.next|)
       case InsSetRefs(n, h, k) => s.next[n] == h && LinkOk(h, |s.next|) && ReturnOk(k, |s.next|)
       case InsCas(n, h, k) => s.next[n] == h && LinkOk(h, |s.next|) && ReturnOk(k, |s.next|)
       case InsUndo(_, h, k) => LinkOk(h, |s.next|) && ReturnOk(k, |s.next|)
       case GetPin(_, r) => Count(r) != 0
       case GetCas(n, nx) => s.next[n] == nx
       case GetUnpin(_, h) => LinkOk(h, |s.next|)
       case _ => true
  }

  ghost predicate Inv(s: State, linked: seq<nat>) {
    && |s.pcs| + 2 < SHOULD_BE_ON_FREELIST
    && IsList(s, linked)
    && (forall n :: n in s.taken ==> n < |s.refs|)
    && (forall n :: 0 <= n < |s.next| ==> LinkOk(s.next[n], |s.next|))
    && (forall n :: 0 <= n < |s.refs| ==> NodeOk(s, linked, n))
    && (forall t :: 0 <= t < |s.pcs| ==> PcOk(s, s.pcs[t]))
  }

  // ---- preservation ------------------------------------------------------

  lemma Lower(w: nat, k: nat)
    requires w < WORD && k <= Count(w)
    ensures (w - k) % WORD == w - k && Count(w - k) == Count(w) - k && Flag(w - k) == Flag(w)
  {
  }

  lemma Raise(w: nat)
    requires w < WORD && Count(w) + 1 < SHOULD_BE_ON_FREELIST
    ensures (w + 1) % WORD == w + 1 && Count(w + 1) == Count(w) + 1 && Flag(w + 1) == Flag(w)
  {
  }

  /** No weight on any node but `m`. */
  ghost predicate Only(pc: Pc, m: nat) {
    forall r: Role, n: nat :: n != m ==> Weight(r, pc, n) == 0
  }

  /** A step that touches the word, the place and the references of `m` only
      leaves every other node in order. */
  lemma OtherNodes(s: State, linked: seq<nat>, s': State, linked': seq<nat>, t: nat, m: nat)
    requires Inv(s, linked)
    requires t < |s.pcs| && |s'.pcs| == |s.pcs| && s'.pcs == s.pcs[t := s'.pcs[t]]
    requires Only(s.pcs[t], m) && Only(s'.pcs[t], m)
    requires |s'.refs| == |s.refs| && forall n :: 0 <= n < |s.refs| && n != m ==> s'.refs[n] == s.refs[n]
    requires forall n :: n != m ==> (n in linked' <==> n in linked) && (n in s'.taken <==> n in s.taken)
    ensures forall n :: 0 <= n < |s'.refs| && n != m ==> NodeOk(s', linked', n)
  {
    forall n | 0 <= n < |s'.refs| && n != m ensures NodeOk(s', linked', n) {
      assert NodeOk(s, linked, n);
      forall r: Role ensures Total(r, s'.pcs, n) == Total(r, s.pcs, n) {
        TotalUpdate(r, s.pcs, t, s'.pcs[t], n);
      }
    }
  }

  /** What a thread's own references say about a node. */
  lemma Facts(s: State, linked: seq<nat>, t: nat, m: nat)
    requires t < |s.pcs| && m < |s.refs| && NodeOk(s, linked, m)
    ensures Weight(Pin, s.pcs[t], m) <= Count(s.refs[m]) <= |s.pcs| + 1
    ensures Weight(Hold, s.pcs[t], m) > 0 ==> Flag(s.refs[m]) == 0 && m !in linked && m !in s.taken
    ensures Weight(Insert, s.pcs[t], m) > 0 ==> Flag(s.refs[m]) == 1 && Count(s.refs[m]) == 0
  {
    TotalMember(Pin, s.pcs, t, m);
    TotalMember(Hold, s.pcs, t, m);
    TotalMember(Insert, s.pcs, t, m);
    PinsBounded(s.pcs, m);
  }

  function Ready(w: nat): nat { if Flag(w) == 1 && Count(w) == 0 then 1 else 0 }

  /** A step keeps the touched node in order when what the word gains and loses
      is what the list, the callers and the stepping thread lose and gain. */
  lemma NodeMoves(s: State, linked: seq<nat>, s': State, linked': seq<nat>, t: nat, m: nat)
    requires t < |s.pcs| && |s'.pcs| == |s.pcs| && s'.pcs == s.pcs[t := s'.pcs[t]]
    requires m < |s.refs| && m < |s'.refs| && NodeOk(s, linked, m) && s'.refs[m] < WORD
    requires Count(s'.refs[m]) - One(m in linked') - Weight(Pin, s'.pcs[t], m)
          == Count(s.refs[m]) - One(m in linked) - Weight(Pin, s.pcs[t], m)
    requires One(m in linked') + One(m in s'.taken) + Weight(Hold, s'.pcs[t], m) + Flag(s'.refs[m])
          == One(m in linked) + One(m in s.taken) + Weight(Hold, s.pcs[t], m) + Flag(s.refs[m])
    requires Weight(Insert, s'.pcs[t], m) - Ready(s'.refs[m]) == Weight(Insert, s.pcs[t], m) - Ready(s.refs[m])
    ensures NodeOk(s', linked', m)
  {
    TotalUpdate(Pin, s.pcs, t, s'.pcs[t], m);
    TotalUpdate(Hold, s.pcs, t, s'.pcs[t], m);
    TotalUpdate(Insert, s.pcs, t, s'.pcs[t], m);
  }

  /** Steps that move neither a word, a link, the list nor a weight. */
  lemma PureStep(s: State, linked: seq<nat>, t: nat, pc: Pc)
    requires Inv(s, linked) && t < |s.pcs| && PcOk(s, pc)
    requires forall r: Role, n: nat :: Weight(r, s.pcs[t], n) == Weight(r, pc, n)
    ensures Inv(Goto(s, t, pc), linked)
  {
    var s' := Goto(s, t, pc);
    forall n | 0 <= n < |s'.refs| ensures NodeOk(s', linked, n) {
      assert NodeOk(s, linked, n);
      forall r: Role ensures Total(r, s'.pcs, n) == Total(r, s.pcs, n) {
        TotalUpdate(r, s.pcs, t, pc, n);
      }
    }
    forall u | 0 <= u < |s'.pcs| ensures PcOk(s', s'.pcs[u]) {
      assert PcOk(s, s.pcs[u]);
    }
  }

  /** Steps that move the word, the place or the references of `m`, not a link. */
  lemma NodeStep(s: State, linked: seq<nat>, s': State, linked': seq<nat>, t: nat, m: nat)
    requires Inv(s, linked)
    requires t < |s.pcs| && |s'.pcs| == |s.pcs| && s'.pcs == s.pcs[t := s'.pcs[t]]
    requires Only(s.pcs[t], m) && Only(s'.pcs[t], m)
    requires |s'.refs| == |s.refs| && forall n :: 0 <= n < |s.refs| && n != m ==> s'.refs[n] == s.refs[n]
    requires forall n :: n != m ==> (n in linked' <==> n in linked) && (n in s'.taken <==> n in s.taken)
    requires s'.next == s.next && IsList(s', linked')
    requires m < |s.refs| && NodeOk(s', linked', m) && PcOk(s', s'.pcs[t])
    ensures Inv(s', linked')
  {
    OtherNodes(s, linked, s', linked', t, m);
    forall u | 0 <= u < |s'.pcs| ensures PcOk(s', s'.pcs[u]) {
      assert PcOk(s, s.pcs[u]);
    }
  }

  lemma StartAdd(s: State, linked: seq<nat>, t: nat, n: nat)
    requires Inv(s, linked) && t < |s.pcs| && s.pcs[t].Idle? && n in s.taken
    ensures Inv(Goto(s.(taken := s.taken - {n}), t, AddMark(n)), linked)
  {
    var s' := Goto(s.(taken := s.taken - {n}), t, AddMark(n));
    assert NodeOk(s, linked, n);
    NodeMoves(s, linked, s', linked, t, n);
    NodeStep(s, linked, s', linked, t, n);
  }

  lemma MarkStep(s: State, linked: seq<nat>, t: nat)
    requires Inv(s, linked) && t < |s.pcs| && s.pcs[t].AddMark?
    ensures Inv(Advance(s, t), linked)
  {
    var n, s' := s.pcs[t].n, Advance(s, t);
    assert PcOk(s, s.pcs[t]);
    assert NodeOk(s, linked, n);
    Facts(s, linked, t, n);
    NodeMoves(s, linked, s', linked, t, n);
    NodeStep(s, linked, s', linked, t, n);
  }

  lemma InsSetNextStep(s: State, linked: seq<nat>, t: nat)
    requires Inv(s, linked) && t < |s.pcs| && s.pcs[t].InsSetNext?
    ensures Inv(Advance(s, t), linked)
  {
    var n, s' := s.pcs[t].n, Advance(s, t);
    assert PcOk(s, s.pcs[t]);
    assert NodeOk(s, linked, n);
    Facts(s, linked, t, n);
    assert n !in linked;
    NodeMoves(s, linked, s', linked, t, n);
    OtherNodes(s, linked, s', linked, t, n);
    forall u | 0 <= u < |s'.pcs| ensures PcOk(s', s'.pcs[u]) {
      InsertsAlone(s, linked, t, u, n);
    }
  }

  /** The thread that may insert `n` is the only one whose local variables
      depend on the `next` of `n`. */
  lemma InsertsAlone(s: State, linked: seq<nat>, t: nat, u: nat, n: nat)
    requires Inv(s, linked) && t < |s.pcs| && u < |s.pcs| && n < |s.refs|
    requires Weight(Insert, s.pcs[t], n) > 0
    ensures PcOk(s, s.pcs[u])
    ensures u != t ==> Weight(Insert, s.pcs[u], n) == 0 && Weight(Pin, s.pcs[u], n) == 0
  {
    assert NodeOk(s, linked, n);
    Facts(s, linked, t, n);
    TotalMember(Pin, s.pcs, u, n);
    if u < t { TotalTwo(Insert, s.pcs, u, t, n); }
    if t < u { TotalTwo(Insert, s.pcs, t, u, n); }
  }

  lemma InsSetRefsStep(s: State, linked: seq<nat>, t: nat)
    requires Inv(s, linked) && t < |s.pcs| && s.pcs[t].InsSetRefs?
    ensures Inv(Advance(s, t), linked)
  {
    var n, s' := s.pcs[t].n, Advance(s, t);
    assert PcOk(s, s.pcs[t]);
    assert NodeOk(s, linked, n);
    Facts(s, linked, t, n);
    NodeMoves(s, linked, s', linked, t, n);
    NodeStep(s, linked, s', linked, t, n);
  }

  lemma PushList(s: State, linked: seq<nat>, s': State, linked': seq<nat>, n: nat)
    requires IsList(s, linked) && n < |s.next| && n !in linked && s.next[n] == s.head
    requires s'.refs == s.refs && s'.next == s.next && s'.head == To(n) && linked' == [n] + linked
    ensures IsList(s', linked')
    ensures n in linked' && forall m :: m != n ==> (m in linked' <==> m in linked)
  {
    assert linked'[0] == n;
    forall i | 0 <= i < |linked'| ensures s'.next[linked'[i]] == After(linked', i) {
      if i > 0 { assert s.next[linked[i - 1]] == After(linked, i - 1); }
    }
  }

  lemma InsCasSucceeds(s: State, linked: seq<nat>, t: nat, linked': seq<nat>)
    requires Inv(s, linked) && t < |s.pcs| && s.pcs[t].InsCas? && s.head == s.pcs[t].h
    requires PcOk(s, s.pcs[t]) && s.pcs[t].n !in linked && IsList(Advance(s, t), linked')
    requires s.pcs[t].n in linked' && forall m :: m != s.pcs[t].n ==> (m in linked' <==> m in linked)
    ensures Inv(Advance(s, t), linked')
  {
    var n, s' := s.pcs[t].n, Advance(s, t);
    assert NodeOk(s, linked, n);
    Facts(s, linked, t, n);
    NodeMoves(s, linked, s', linked', t, n);
    NodeStep(s, linked, s', linked', t, n);
  }

  lemma InsCasStep(s: State, linked: seq<nat>, t: nat) returns (linked': seq<nat>)
    requires Inv(s, linked) && t < |s.pcs| && s.pcs[t].InsCas?
    ensures Inv(Advance(s, t), linked')
  {
    assert PcOk(s, s.pcs[t]);
    if s.head == s.pcs[t].h {
      linked' := [s.pcs[t].n] + linked;
      assert NodeOk(s, linked, s.pcs[t].n);
      Facts(s, linked, t, s.pcs[t].n);
      PushList(s, linked, Advance(s, t), linked', s.pcs[t].n);
      InsCasSucceeds(s, linked, t, linked');
    } else {
      linked' := linked;
      PureStep(s, linked, t, Advance(s, t).pcs[t]);
    }
  }

  lemma InsUndoStep(s: State, linked: seq<nat>, t: nat)
    requires Inv(s, linked) && t < |s.pcs| && s.pcs[t].InsUndo?
    ensures Inv(Advance(s, t), linked)
  {
    var n, s' := s.pcs[t].n, Advance(s, t);
    assert PcOk(s, s.pcs[t]);
    assert NodeOk(s, linked, n);
    Facts(s, linked, t, n);
    NodeMoves(s, linked, s', linked, t, n);
    NodeStep(s, linked, s', linked, t, n);
  }

  lemma GetPinStep(s: State, linked: seq<nat>, t: nat)
    requires Inv(s, linked) && t < |s.pcs| && s.pcs[t].GetPin?
    ensures Inv(Advance(s, t), linked)
  {
    var n, s' := s.pcs[t].n, Advance(s, t);
    assert PcOk(s, s.pcs[t]);
    if s.refs[n] == s.pcs[t].r {
      assert NodeOk(s, linked, n);
      Facts(s, linked, t, n);
      Raise(s.refs[n]);
      NodeMoves(s, linked, s', linked, t, n);
      NodeStep(s, linked, s', linked, t, n);
    } else {
      PureStep(s, linked, t, GetHead);
    }
  }

  lemma PopList(s: State, linked: seq<nat>, s': State, linked': seq<nat>)
    requires IsList(s, linked) && linked != [] && linked' == linked[1..]
    requires s'.refs == s.refs && s'.next == s.next && s'.head == s.next[linked[0]]
    ensures IsList(s', linked')
    ensures linked[0] !in linked' && forall n :: n != linked[0] ==> (n in linked' <==> n in linked)
  {
    assert linked == [linked[0]] + linked';
    assert s.next[linked[0]] == After(linked, 0);
    forall i | 0 <= i < |linked'| ensures s'.next[linked'[i]] == After(linked', i) {
      assert s.next[linked[i + 1]] == After(linked, i + 1);
    }
  }

  lemma GetCasSucceeds(s: State, linked: seq<nat>, t: nat, linked': seq<nat>)
    requires Inv(s, linked) && t < |s.pcs| && s.pcs[t].GetCas? && s.head == To(s.pcs[t].n)
    requires PcOk(s, s.pcs[t]) && s.pcs[t].n in linked && s.pcs[t].n !in linked' && IsList(Advance(s, t), linked')
    requires forall m :: m != s.pcs[t].n ==> (m in linked' <==> m in linked)
    ensures Inv(Advance(s, t), linked')
  {
    var n, s' := s.pcs[t].n, Advance(s, t);
    assert NodeOk(s, linked, n);
    Facts(s, linked, t, n);
    NodeMoves(s, linked, s', linked', t, n);
    NodeStep(s, linked, s', linked', t, n);
  }

  lemma GetCasStep(s: State, linked: seq<nat>, t: nat) returns (linked': seq<nat>)
    requires Inv(s, linked) && t < |s.pcs| && s.pcs[t].GetCas?
    ensures Inv(Advance(s, t), linked')
  {
    assert PcOk(s, s.pcs[t]);
    if s.head == To(s.pcs[t].n) {
      linked' := linked[1..];
      PopList(s, linked, Advance(s, t), linked');
      GetCasSucceeds(s, linked, t, linked');
    } else {
      linked' := linked;
      PureStep(s, linked, t, Advance(s, t).pcs[t]);
    }
  }

  lemma GetTakeStep(s: State, linked: seq<nat>, t: nat)
    requires Inv(s, linked) && t < |s.pcs| && s.pcs[t].GetTake?
    ensures Inv(Advance(s, t), linked)
  {
    var n, s' := s.pcs[t].n, Advance(s, t);
    assert PcOk(s, s.pcs[t]);
    assert NodeOk(s, linked, n);
    Facts(s, linked, t, n);
    Lower(s.refs[n], 2);
    NodeMoves(s, linked, s', linked, t, n);
    NodeStep(s, linked, s', linked, t, n);
  }

  lemma GetUnpinStep(s: State, linked: seq<nat>, t: nat)
    requires Inv(s, linked) && t < |s.pcs| && s.pcs[t].GetUnpin?
    ensures Inv(Advance(s, t), linked)
  {
    var n, s' := s.pcs[t].n, Advance(s, t);
    assert PcOk(s, s.pcs[t]);
    assert NodeOk(s, linked, n);
    Facts(s, linked, t, n);
    Lower(s.refs[n], 1);
    NodeMoves(s, linked, s', linked, t, n);
    NodeStep(s, linked, s', linked, t, n);
  }

  lemma LoadStep(s: State, linked: seq<nat>, t: nat)
    requires Inv(s, linked) && t < |s.pcs|
    requires match s.pcs[t] case InsLoadHead(_, _) => true case GetHead => true case GetRefs(_) => true
             case GetNext(_) => true case GetCheck(_) => true case _ => false
    ensures Inv(Advance(s, t), linked)
  {
    assert PcOk(s, s.pcs[t]);
    PureStep(s, linked, t, Advance(s, t).pcs[t]);
  }

  // ---- whole runs --------------------------------------------------------

  lemma InitInv(s: State)
    requires Init(s) && |s.pcs| + 2 < SHOULD_BE_ON_FREELIST
    ensures Inv(s, [])
  {
    forall n | 0 <= n < |s.refs| ensures NodeOk(s, [], n) {
      TotalIdle(Pin, s.pcs, n);
      TotalIdle(Insert, s.pcs, n);
      TotalIdle(Hold, s.pcs, n);
    }
  }

  lemma StepInv(s: State, linked: seq<nat>, s': State, t: nat) returns (linked': seq<nat>)
    requires Inv(s, linked) && t < |s.pcs| && StepOf(s, s', t)
    ensures Inv(s', linked')
  {
    linked' := linked;
    match s.pcs[t]
    case Idle =>
      if s' == Goto(s, t, GetHead) {
        PureStep(s, linked, t, GetHead);
      } else {
        var n :| n in s.taken && s' == Goto(s.(taken := s.taken - {n}), t, AddMark(n));
        StartAdd(s, linked, t, n);
      }
    case AddMark(_) => MarkStep(s, linked, t);
    case InsSetNext(_, _, _) => InsSetNextStep(s, linked, t);
    case InsSetRefs(_, _, _) => InsSetRefsStep(s, linked, t);
    case InsCas(_, _, _) => linked' := InsCasStep(s, linked, t);
    case InsUndo(_, _, _) => InsUndoStep(s, linked, t);
    case GetPin(_, _) => GetPinStep(s, linked, t);
    case GetCas(_, _) => linked' := GetCasStep(s, linked, t);
    case GetTake(_) => GetTakeStep(s, linked, t);
    case GetUnpin(_, _) => GetUnpinStep(s, linked, t);
    case _ => LoadStep(s, linked, t);
  }

  /** `run` is an interleaving of any number of operations from an empty list. */
  ghost predicate IsRun(run: seq<State>) {
    && run != []
    && Init(run[0])
    && |run[0].pcs| + 2 < SHOULD_BE_ON_FREELIST
    && forall i :: 0 <= i < |run| - 1 ==> Step(run[i], run[i + 1])
  }

  lemma NextInv(run: seq<State>, i: nat, before: seq<nat>) returns (linked: seq<nat>)
    requires IsRun(run) && 0 < i < |run| && Inv(run[i - 1], before)
    ensures Inv(run[i], linked)
  {
    assert Step(run[i - 1], run[i - 1 + 1]);
    var t: nat :| t < |run[i - 1].pcs| && StepOf(run[i - 1], run[i], t);
    linked := StepInv(run[i - 1], before, run[i], t);
  }

  lemma {:induction false} RunInv(run: seq<State>, i: nat) returns (linked: seq<nat>)
    requires IsRun(run) && i < |run|
    ensures Inv(run[i], linked)
  {
    if i == 0 {
      InitInv(run[0]);
      linked := [];
    } else {
      var before := RunInv(run, i - 1);
      linked := NextInv(run, i, before);
    }
  }

  // ---- what the invariant means ------------------------------------------

  /** Thread `t` has taken node `n` off the list and is about to return it. */
  predicate Taking(s: State, t: nat, n: nat) {
    t < |s.pcs| && (s.pcs[t] == GetCheck(n) || s.pcs[t] == GetTake(n))
  }

  /** The assertion of `try_get` never fails: in every interleaving the flag of a
      node just taken off the list is clear. */
  lemma AssertionHolds(run: seq<State>, i: nat, t: nat)
    requires IsRun(run) && i < |run| && t < |run[i].pcs| && run[i].pcs[t].GetCheck?
    ensures run[i].pcs[t].n < |run[i].refs| && run[i].refs[run[i].pcs[t].n] < SHOULD_BE_ON_FREELIST
  {
    var linked := RunInv(run, i);
    var n := run[i].pcs[t].n;
    assert PcOk(run[i], run[i].pcs[t]);
    assert NodeOk(run[i], linked, n);
    TotalMember(Hold, run[i].pcs, t, n);
  }

  /** A node has at most one taker, and while it has one nobody else owns it and
      it is on no list. */
  lemma OneTaker(run: seq<State>, i: nat, t: nat, u: nat, n: nat)
    requires IsRun(run) && i < |run| && Taking(run[i], t, n) && Taking(run[i], u, n)
    ensures t == u && n !in run[i].taken
    ensures exists linked :: IsList(run[i], linked) && n !in linked
  {
    var linked := RunInv(run, i);
    assert PcOk(run[i], run[i].pcs[t]);
    assert NodeOk(run[i], linked, n);
    TotalMember(Hold, run[i].pcs, t, n);
    if t < u { TotalTwo(Hold, run[i].pcs, t, u, n); }
    if u < t { TotalTwo(Hold, run[i].pcs, u, t, n); }
  }

  lemma PinnedNext(s: State, linked: seq<nat>, s': State, t: nat, u: nat, n: nat)
    requires Inv(s, linked) && t < |s.pcs| && u < |s.pcs| && n < |s.next| && StepOf(s, s', u)
    requires Weight(Pin, s.pcs[t], n) > 0
    ensures n < |s'.next| && s'.next[n] == s.next[n]
  {
    assert NodeOk(s, linked, n);
    Facts(s, linked, t, n);
    Facts(s, linked, u, n);
  }

  /** While any thread has a reference on a node, no step changes the node's
      `next`; this is what makes the compare-exchange of `try_get` free of the
      ABA problem. */
  lemma NextIsStable(run: seq<State>, i: nat, t: nat, n: nat)
    requires IsRun(run) && i + 1 < |run| && t < |run[i].pcs| && n < |run[i].next|
    requires Weight(Pin, run[i].pcs[t], n) > 0
    ensures n < |run[i + 1].next| && run[i + 1].next[n] == run[i].next[n]
  {
    var linked := RunInv(run, i);
    assert Step(run[i], run[i + 1]);
    var u: nat :| u < |run[i].pcs| && StepOf(run[i], run[i + 1], u);
    PinnedNext(run[i], linked, run[i + 1], t, u, n);
  }

  /** Conservation: every node is at every moment in exactly one of five places:
      linked once, with the callers, held inside an operation, being inserted,
      or waiting for the last reference to go; and in the last case some thread
      does hold a reference, so the node is not forgotten. */
  lemma NodesConserved(run: seq<State>, i: nat, n: nat) returns (linked: seq<nat>)
    requires IsRun(run) && i < |run| && n < |run[i].refs|
    ensures IsList(run[i], linked)
    ensures var s := run[i]; var waiting := s.refs[n] > SHOULD_BE_ON_FREELIST;
      && One(n in linked) + One(n in s.taken) + Total(Hold, s.pcs, n) + Total(Insert, s.pcs, n) + One(waiting) == 1
      && (waiting ==> Total(Pin, s.pcs, n) > 0)
  {
    linked := RunInv(run, i);
    assert NodeOk(run[i], linked, n);
  }

  /** When no operation is in progress no node is lost: it is linked or with the callers. */
  lemma NothingLost(run: seq<State>, i: nat, n: nat) returns (linked: seq<nat>)
    requires IsRun(run) && i < |run| && n < |run[i].refs|
    requires forall t :: 0 <= t < |run[i].pcs| ==> run[i].pcs[t] == Idle
    ensures IsList(run[i], linked) && (n in linked <==> n !in run[i].taken)
    ensures run[i].refs[n] == One(n in linked)
  {
    linked := RunInv(run, i);
    assert NodeOk(run[i], linked, n);
    TotalIdle(Pin, run[i].pcs, n);
    TotalIdle(Insert, run[i].pcs, n);
    TotalIdle(Hold, run[i].pcs, n);
  }
}
