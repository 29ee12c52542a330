/** The ticket protocol by which any number of threads dequeue from one producer's
    sub-queue (`ExplicitProducer::dequeue` and `dequeue_bulk` in concurrentqueue.h).

    One step of the model is one atomic access of `tailIndex`, `headIndex`,
    `dequeueOptimisticCount` or `dequeueOvercommit`.  The model keeps each counter
    unbounded; the source's word is its `Wrap`, and every comparison below is made
    on words.  Wrapping commutes with subtraction (`Words.WrapDifference`), so
    local variables may be kept unwrapped too. */
module DequeueTickets {
  import opened Words

  /** `dequeue`, or `dequeue_bulk` with its `max`. */
  datatype Kind = Single | Bulk(max: nat)

  /** The next atomic access of a dequeuer, with its local variables. */
  datatype Pc =
    | Idle
    | LoadTail(kind: Kind)
    | LoadOvercommit(kind: Kind, tail: nat)
    | LoadCount(kind: Kind, tail: nat, over: nat)    // and the first comparison
    | AddCount(kind: Kind, want: nat, over: nat)     // dequeueOptimisticCount.fetch_add(want)
    | ReloadTail(kind: Kind, want: nat, over: nat, my: nat)  // and the second comparison
    | AddOvercommit(failed: nat, granted: nat)       // dequeueOvercommit.fetch_add(failed)
    | AddHead(granted: nat)                          // headIndex.fetch_add(granted)

  /** Indices `first .. first + count` handed to one call. */
  datatype Range = Range(first: nat, count: nat)

  /** `claims` is the history of `headIndex.fetch_add` results. */
  datatype State = State(tail: nat, head: nat, count: nat, over: nat, pcs: seq<Pc>, claims: seq<Range>)

  ghost predicate Init(s: State) {
    && s.tail == s.head == s.count == s.over == 0
    && s.claims == []
    && forall t :: 0 <= t < |s.pcs| ==> s.pcs[t] == Idle
  }

  // ---- the comparisons of the source, on words ---------------------------

  /** The first test: is it worth taking a ticket? */
  predicate Enters(kind: Kind, tail: int, effective: int) {
    match kind
    case Single => CircularLess(Wrap(effective), Wrap(tail))
    case Bulk(_) => CircularLess(0, Wrap(tail - effective))
  }

  function Min(a: nat, b: nat): nat { if a < b then a else b }

  function Want(kind: Kind, tail: int, effective: int): nat {
    match kind
    case Single => 1
    case Bulk(max) => Min(Wrap(tail - effective), max)
  }

  /** The second test, with the reloaded tail; `effective` is the thread's own
      ticket number minus the overcommit that it read. */
  predicate Approves(kind: Kind, tail: int, effective: int) {
    match kind
    case Single => CircularLess(Wrap(effective), Wrap(tail))
    case Bulk(_) => CircularLess(0, Wrap(tail - effective))
  }

  function Granted(kind: Kind, want: nat, tail: int, effective: int): nat {
    match kind
    case Single => want
    case Bulk(_) => Min(want, Wrap(tail - effective))
  }

  // ---- steps -------------------------------------------------------------

  function Goto(s: State, t: nat, pc: Pc): State
    requires t < |s.pcs|
  {
    s.(pcs := s.pcs[t := pc])
  }

  function Advance(s: State, t: nat): State
    requires t < |s.pcs| && !s.pcs[t].Idle?
  {
    match s.pcs[t]
    case LoadTail(kind) => Goto(s, t, LoadOvercommit(kind, s.tail))
    case LoadOvercommit(kind, tail) => Goto(s, t, LoadCount(kind, tail, s.over))
    case LoadCount(kind, tail, over) =>
      Goto(s, t, if Enters(kind, tail, s.count - over) then AddCount(kind, Want(kind, tail, s.count - over), over)
          else Idle)
    case AddCount(kind, want, over) => Goto(s.(count := s.count + want), t, ReloadTail(kind, want, over, s.count))
    case ReloadTail(kind, want, over, my) =>
      if Approves(kind, s.tail, my - over) then
        var n := Granted(kind, want, s.tail, my - over);
        Goto(s, t, if n < want then AddOvercommit(want - n, n) else AddHead(n))
      else
        Goto(s, t, AddOvercommit(want, 0))
    case AddOvercommit(failed, granted) =>
      Goto(s.(over := s.over + failed), t, if granted > 0 then AddHead(granted) else Idle)
    case AddHead(granted) =>
      Goto(s.(head := s.head + granted, claims := s.claims + [Range(s.head, granted)]), t, Idle)
  }

  ghost predicate StepOf(s: State, s': State, t: nat)
    requires t < |s.pcs|
  {
    if s.pcs[t].Idle? then exists kind :: s' == Goto(s, t, LoadTail(kind)) else s' == Advance(s, t)
  }

  /** The producer publishes `k` more elements. */
  ghost predicate Publish(s: State, s': State) {
    s.tail <= s'.tail && s' == s.(tail := s'.tail)
  }

  ghost predicate Step(s: State, s': State) {
    Publish(s, s') || exists t: nat :: t < |s.pcs| && StepOf(s, s', t)
  }

  /** No ticket is so old that its distance to the tail leaves the range in which
      words can be compared; tickets for no unit do not matter. */
  ghost predicate Fresh(s: State) {
    forall t :: 0 <= t < |s.pcs| && s.pcs[t].ReloadTail? && s.pcs[t].want > 0 ==>
      s.pcs[t].my - s.pcs[t].over - s.tail <= HALF
  }

  // ---- ghost bookkeeping: the fate of every unit of a ticket -------------

  datatype Fate = Pending | Approved | Failed

  function Count(fates: seq<Fate>, f: Fate, k: nat): nat
    requires k <= |fates|
  {
    if k == 0 then 0 else Count(fates, f, k - 1) + if fates[k - 1] == f then 1 else 0
  }

  lemma {:induction false} CountSame(a: seq<Fate>, b: seq<Fate>, f: Fate, k: nat)
    requires k <= |a| && k <= |b| && forall u :: 0 <= u < k ==> a[u] == b[u]
    ensures Count(a, f, k) == Count(b, f, k)
  {
    if k > 0 { CountSame(a, b, f, k - 1); }
  }

  lemma {:induction false} CountNone(a: seq<Fate>, f: Fate, j: nat, k: nat)
    requires j <= k <= |a| && forall u :: j <= u < k ==> a[u] != f
    ensures Count(a, f, k) == Count(a, f, j)
  {
    if j < k { CountNone(a, f, j, k - 1); }
  }

  lemma {:induction false} CountMonotone(a: seq<Fate>, f: Fate, j: nat, k: nat)
    requires j <= k <= |a|
    ensures Count(a, f, j) <= Count(a, f, k)
  {
    if j < k { CountMonotone(a, f, j, k - 1); }
  }

  /** Ticket `my .. my + want` decided: the first `n` units granted. */
  function Decided(fates: seq<Fate>, my: nat, want: nat, n: nat): (r: seq<Fate>)
    requires n <= want && my + want <= |fates|
    ensures |r| == |fates|
  {
    seq(|fates|, i requires 0 <= i < |fates| =>
      if my <= i < my + n then Approved else if my + n <= i < my + want then Failed else fates[i])
  }

  /** How many of the first `k` units lie in `lo .. hi`. */
  function Inside(k: int, lo: int, hi: int): int {
    if k <= lo then 0 else if k >= hi then hi - lo else k - lo
  }

  lemma {:induction false} DecidedCounts(fates: seq<Fate>, my: nat, want: nat, n: nat, k: nat)
    requires n <= want && my + want <= |fates| && k <= |fates|
    requires forall u :: my <= u < my + want ==> fates[u] == Pending
    ensures Count(Decided(fates, my, want, n), Approved, k) == Count(fates, Approved, k) + Inside(k, my, my + n)
    ensures Count(Decided(fates, my, want, n), Failed, k) == Count(fates, Failed, k) + Inside(k, my + n, my + want)
  {
    if k > 0 { DecidedCounts(fates, my, want, n, k - 1); }
  }

  // ---- what the threads still owe ----------------------------------------

  /** Units not yet decided, granted but not yet taken from `headIndex`, and
      failed but not yet added to `dequeueOvercommit`. */
  datatype Debt = Undecided | ToClaim | ToGiveBack

  function Weight(d: Debt, pc: Pc): nat {
    match d
    case Undecided => if pc.ReloadTail? then pc.want else 0
    case ToClaim => if pc.AddOvercommit? || pc.AddHead? then pc.granted else 0
    case ToGiveBack => if pc.AddOvercommit? then pc.failed else 0
  }

  function Total(d: Debt, pcs: seq<Pc>): nat {
    if pcs == [] then 0 else Total(d, pcs[1..]) + Weight(d, pcs[0])
  }

  lemma {:induction false} TotalUpdate(d: Debt, pcs: seq<Pc>, t: nat, pc: Pc)
    requires t < |pcs|
    ensures Total(d, pcs[t := pc]) == Total(d, pcs) - Weight(d, pcs[t]) + Weight(d, pc)
  {
    if t == 0 {
      assert pcs[t := pc][1..] == pcs[1..];
    } else {
      assert pcs[t := pc][1..] == pcs[1..][t - 1 := pc];
      TotalUpdate(d, pcs[1..], t - 1, pc);
    }
  }

  lemma {:induction false} TotalIdle(d: Debt, pcs: seq<Pc>)
    requires forall t :: 0 <= t < |pcs| ==> pcs[t] == Idle
    ensures Total(d, pcs) == 0
  {
    if pcs != [] { TotalIdle(d, pcs[1..]); }
  }

  // ---- the invariant -----------------------------------------------------

  function End(claims: seq<Range>, i: int): nat
    requires i <= |claims|
  {
    if i <= 0 then 0 else claims[i - 1].first + claims[i - 1].count
  }

  /** The claims follow each other without gap or overlap, up to `head`. */
  ghost predicate Tiled(claims: seq<Range>, head: nat) {
    && (forall i {:trigger End(claims, i)} :: 0 <= i < |claims| ==> claims[i].first == End(claims, i))
    && head == End(claims, |claims|)
  }

  /** An approved unit has fewer than `tail` predecessors that did not fail. */
  ghost predicate UnitOk(fates: seq<Fate>, u: nat, tail: nat)
    requires u < |fates|
  {
    fates[u] == Approved ==> u - Count(fates, Failed, u) < tail
  }

  ghost predicate PcOk(s: State, fates: seq<Fate>, pc: Pc) {
    match pc
    case LoadCount(_, _, over) => over <= s.over
    case AddCount(kind, want, over) => over <= s.over && (kind.Single? ==> want == 1)
    case ReloadTail(kind, want, over, my) =>
      && (kind.Single? ==> want == 1)
      && my + want <= |fates| && over <= Count(fates, Failed, my)
      && forall u :: my <= u < my + want ==> fates[u] == Pending
    case _ => true
  }

  ghost predicate Apart(a: Pc, b: Pc) {
    a.ReloadTail? && b.ReloadTail? ==> a.my + a.want <= b.my || b.my + b.want <= a.my
  }

  ghost predicate Accounts(s: State, fates: seq<Fate>) {
    && |fates| == s.count
    && s.count == s.over + s.head + Total(Undecided, s.pcs) + Total(ToClaim, s.pcs) + Total(ToGiveBack, s.pcs)
    && Count(fates, Failed, |fates|) == s.over + Total(ToGiveBack, s.pcs)
    && Count(fates, Approved, |fates|) == s.head + Total(ToClaim, s.pcs)
  }

  ghost predicate Inv(s: State, fates: seq<Fate>) {
    && Accounts(s, fates)
    && Tiled(s.claims, s.head)
    && (forall u :: 0 <= u < |fates| ==> UnitOk(fates, u, s.tail))
    && (forall t :: 0 <= t < |s.pcs| ==> PcOk(s, fates, s.pcs[t]))
    && (forall t, v :: 0 <= t < v < |s.pcs| ==> Apart(s.pcs[t], s.pcs[v]))
  }

  /** Every approved unit having fewer than `tail` unfailed predecessors, at most
      `tail` units are approved. */
  lemma {:induction false} ApprovedAtMostTail(fates: seq<Fate>, k: nat, tail: nat)
    requires k <= |fates| && forall u :: 0 <= u < k ==> UnitOk(fates, u, tail)
    ensures Count(fates, Approved, k) <= tail
    ensures Count(fates, Approved, k) + Count(fates, Failed, k) <= k
  {
    if k > 0 {
      ApprovedAtMostTail(fates, k - 1, tail);
      assert UnitOk(fates, k - 1, tail);
    }
  }

  lemma InvBoundsHead(s: State, fates: seq<Fate>)
    requires Inv(s, fates)
    ensures s.head + Total(ToClaim, s.pcs) <= s.tail
  {
    ApprovedAtMostTail(fates, |fates|, s.tail);
  }

  // ---- preservation ------------------------------------------------------

  /** Steps that touch neither counters nor debts. */
  lemma PureStep(s: State, fates: seq<Fate>, t: nat, pc: Pc)
    requires Inv(s, fates) && t < |s.pcs| && PcOk(s, fates, pc) && !pc.ReloadTail?
    requires forall d: Debt :: Weight(d, pc) == Weight(d, s.pcs[t])
    ensures Inv(Goto(s, t, pc), fates)
  {
    TotalUpdate(Undecided, s.pcs, t, pc);
    TotalUpdate(ToClaim, s.pcs, t, pc);
    TotalUpdate(ToGiveBack, s.pcs, t, pc);
    var s' := Goto(s, t, pc);
    forall u | 0 <= u < |s'.pcs| ensures PcOk(s', fates, s'.pcs[u]) {
      assert PcOk(s, fates, s.pcs[u]);
    }
  }

  lemma PublishStep(s: State, fates: seq<Fate>, k: nat)
    requires Inv(s, fates)
    ensures Inv(s.(tail := s.tail + k), fates)
  {
    var s' := s.(tail := s.tail + k);
    forall u | 0 <= u < |fates| ensures UnitOk(fates, u, s'.tail) { assert UnitOk(fates, u, s.tail); }
    forall u | 0 <= u < |s'.pcs| ensures PcOk(s', fates, s'.pcs[u]) { assert PcOk(s, fates, s.pcs[u]); }
  }

  function Extended(fates: seq<Fate>, want: nat): (r: seq<Fate>)
    ensures |r| == |fates| + want
    ensures forall u :: 0 <= u < |fates| ==> r[u] == fates[u]
    ensures forall u :: |fates| <= u < |r| ==> r[u] == Pending
  {
    fates + seq(want, _ => Pending)
  }

  lemma ExtendedUnits(fates: seq<Fate>, want: nat, tail: nat)
    requires forall u :: 0 <= u < |fates| ==> UnitOk(fates, u, tail)
    ensures forall u :: 0 <= u < |fates| + want ==> UnitOk(Extended(fates, want), u, tail)
  {
    forall u | 0 <= u < |fates| + want ensures UnitOk(Extended(fates, want), u, tail) {
      if u < |fates| {
        assert UnitOk(fates, u, tail);
        CountSame(fates, Extended(fates, want), Failed, u);
      }
    }
  }

  lemma AddCountAccounts(s: State, fates: seq<Fate>, t: nat)
    requires Accounts(s, fates) && t < |s.pcs| && s.pcs[t].AddCount?
    ensures Accounts(Advance(s, t), Extended(fates, s.pcs[t].want))
  {
    var s', fates' := Advance(s, t), Extended(fates, s.pcs[t].want);
    TotalUpdate(Undecided, s.pcs, t, s'.pcs[t]);
    TotalUpdate(ToClaim, s.pcs, t, s'.pcs[t]);
    TotalUpdate(ToGiveBack, s.pcs, t, s'.pcs[t]);
    forall f: Fate | f != Pending ensures Count(fates', f, |fates'|) == Count(fates, f, |fates|) {
      CountNone(fates', f, |fates|, |fates'|);
      CountSame(fates, fates', f, |fates|);
    }
  }

  /** The new ticket starts after every unit that has failed so far, so the
      overcommit it read is at most the number of its failed predecessors. */
  lemma AddCountStep(s: State, fates: seq<Fate>, t: nat)
    requires Inv(s, fates) && t < |s.pcs| && s.pcs[t].AddCount?
    ensures Inv(Advance(s, t), Extended(fates, s.pcs[t].want))
  {
    var s', want := Advance(s, t), s.pcs[t].want;
    var fates' := Extended(fates, want);
    AddCountAccounts(s, fates, t);
    ExtendedUnits(fates, want, s.tail);
    forall u | 0 <= u < |s'.pcs| ensures PcOk(s', fates', s'.pcs[u]) {
      assert PcOk(s, fates, s.pcs[u]);
      if s.pcs[u].ReloadTail? { CountSame(fates, fates', Failed, s.pcs[u].my); }
      CountSame(fates, fates', Failed, |fates|);
    }
    forall u, v | 0 <= u < v < |s'.pcs| ensures Apart(s'.pcs[u], s'.pcs[v]) {
      assert PcOk(s, fates, s.pcs[u]) && PcOk(s, fates, s.pcs[v]) && Apart(s.pcs[u], s.pcs[v]);
    }
  }

  /** On fresh tickets the second test grants at most the units that have fewer
      than `tail` unfailed predecessors. */
  lemma GrantIsSafe(kind: Kind, want: nat, tail: nat, effective: int)
    requires effective - tail <= HALF && (kind.Single? ==> want == 1)
    requires Approves(kind, tail, effective)
    ensures Granted(kind, want, tail, effective) <= want
    ensures Granted(kind, want, tail, effective) > 0 ==> effective + Granted(kind, want, tail, effective) <= tail
  {
    WrapDifference(effective, tail);
    WrapDifference(0, tail - effective);
  }

  lemma DecidedUnits(fates: seq<Fate>, my: nat, want: nat, n: nat, over: nat, tail: nat)
    requires n <= want && my + want <= |fates| && over <= Count(fates, Failed, my)
    requires forall u :: my <= u < my + want ==> fates[u] == Pending
    requires n > 0 ==> my - over + n <= tail
    requires forall u :: 0 <= u < |fates| ==> UnitOk(fates, u, tail)
    ensures forall u :: 0 <= u < |fates| ==> UnitOk(Decided(fates, my, want, n), u, tail)
  {
    forall u | 0 <= u < |fates| ensures UnitOk(Decided(fates, my, want, n), u, tail) {
      assert UnitOk(fates, u, tail);
      DecidedCounts(fates, my, want, n, u);
      if my <= u { CountMonotone(fates, Failed, my, u); }
    }
  }

  /** The step of thread `t` decides its ticket and grants `n` units. */
  ghost predicate Decides(s: State, s': State, t: nat, n: nat) {
    && t < |s.pcs| && s.pcs[t].ReloadTail? && n <= s.pcs[t].want
    && |s'.pcs| == |s.pcs| && s' == Goto(s, t, s'.pcs[t])
    && (s'.pcs[t].AddOvercommit? || s'.pcs[t].AddHead?)
    && Weight(ToClaim, s'.pcs[t]) == n
    && Weight(ToGiveBack, s'.pcs[t]) == s.pcs[t].want - n
  }

  lemma DecideAccounts(s: State, fates: seq<Fate>, s': State, t: nat, n: nat)
    requires Accounts(s, fates) && Decides(s, s', t, n) && PcOk(s, fates, s.pcs[t])
    ensures Accounts(s', Decided(fates, s.pcs[t].my, s.pcs[t].want, n))
  {
    TotalUpdate(Undecided, s.pcs, t, s'.pcs[t]);
    TotalUpdate(ToClaim, s.pcs, t, s'.pcs[t]);
    TotalUpdate(ToGiveBack, s.pcs, t, s'.pcs[t]);
    DecidedCounts(fates, s.pcs[t].my, s.pcs[t].want, n, |fates|);
  }

  /** Deciding one ticket leaves the other threads in order. */
  lemma DecideThread(s: State, fates: seq<Fate>, s': State, t: nat, n: nat, u: nat)
    requires Decides(s, s', t, n) && u < |s.pcs| && u != t
    requires PcOk(s, fates, s.pcs[t]) && PcOk(s, fates, s.pcs[u]) && Apart(s.pcs[t], s.pcs[u])
    ensures PcOk(s', Decided(fates, s.pcs[t].my, s.pcs[t].want, n), s'.pcs[u])
  {
    if s.pcs[u].ReloadTail? {
      DecidedCounts(fates, s.pcs[t].my, s.pcs[t].want, n, s.pcs[u].my);
    }
  }

  lemma DecideStep(s: State, fates: seq<Fate>, s': State, t: nat, n: nat)
    requires Inv(s, fates) && Decides(s, s', t, n) && PcOk(s, fates, s.pcs[t])
    requires n > 0 ==> s.pcs[t].my - s.pcs[t].over + n <= s.tail
    ensures Inv(s', Decided(fates, s.pcs[t].my, s.pcs[t].want, n))
  {
    DecideAccounts(s, fates, s', t, n);
    DecidedUnits(fates, s.pcs[t].my, s.pcs[t].want, n, s.pcs[t].over, s.tail);
    forall u | 0 <= u < |s'.pcs| && u != t
      ensures PcOk(s', Decided(fates, s.pcs[t].my, s.pcs[t].want, n), s'.pcs[u])
    {
      assert if u < t then Apart(s.pcs[u], s.pcs[t]) else Apart(s.pcs[t], s.pcs[u]);
      DecideThread(s, fates, s', t, n, u);
    }
    forall u, v | 0 <= u < v < |s'.pcs| ensures Apart(s'.pcs[u], s'.pcs[v]) {
      assert Apart(s.pcs[u], s.pcs[v]);
    }
  }

  lemma ReloadTailStep(s: State, fates: seq<Fate>, t: nat) returns (fates': seq<Fate>)
    requires Inv(s, fates) && t < |s.pcs| && s.pcs[t].ReloadTail? && Fresh(s)
    ensures Inv(Advance(s, t), fates')
  {
    var pc := s.pcs[t];
    assert PcOk(s, fates, pc);
    var n := 0;
    if pc.want > 0 && Approves(pc.kind, s.tail, pc.my - pc.over) {
      n := Granted(pc.kind, pc.want, s.tail, pc.my - pc.over);
      GrantIsSafe(pc.kind, pc.want, s.tail, pc.my - pc.over);
    }
    fates' := Decided(fates, pc.my, pc.want, n);
    DecideStep(s, fates, Advance(s, t), t, n);
  }

  lemma CounterAccounts(s: State, fates: seq<Fate>, t: nat)
    requires Accounts(s, fates) && t < |s.pcs| && (s.pcs[t].AddOvercommit? || s.pcs[t].AddHead?)
    ensures Accounts(Advance(s, t), fates)
  {
    var s' := Advance(s, t);
    TotalUpdate(Undecided, s.pcs, t, s'.pcs[t]);
    TotalUpdate(ToClaim, s.pcs, t, s'.pcs[t]);
    TotalUpdate(ToGiveBack, s.pcs, t, s'.pcs[t]);
  }

  lemma TiledExtends(claims: seq<Range>, head: nat, n: nat)
    requires Tiled(claims, head)
    ensures Tiled(claims + [Range(head, n)], head + n)
  {
    var claims' := claims + [Range(head, n)];
    forall i | 0 <= i < |claims'| ensures claims'[i].first == End(claims', i) {
      if i < |claims| { assert claims[i].first == End(claims, i); }
    }
  }

  lemma CounterStep(s: State, fates: seq<Fate>, t: nat)
    requires Inv(s, fates) && t < |s.pcs| && (s.pcs[t].AddOvercommit? || s.pcs[t].AddHead?)
    ensures Inv(Advance(s, t), fates)
  {
    var s' := Advance(s, t);
    CounterAccounts(s, fates, t);
    if s.pcs[t].AddHead? { TiledExtends(s.claims, s.head, s.pcs[t].granted); }
    forall u | 0 <= u < |s'.pcs| ensures PcOk(s', fates, s'.pcs[u]) {
      assert PcOk(s, fates, s.pcs[u]);
    }
    forall u, v | 0 <= u < v < |s'.pcs| ensures Apart(s'.pcs[u], s'.pcs[v]) {
      assert Apart(s.pcs[u], s.pcs[v]);
    }
  }

  // ---- whole runs --------------------------------------------------------

  lemma InitInv(s: State)
    requires Init(s)
    ensures Inv(s, [])
  {
    TotalIdle(Undecided, s.pcs);
    TotalIdle(ToClaim, s.pcs);
    TotalIdle(ToGiveBack, s.pcs);
  }

  lemma ThreadStepInv(s: State, fates: seq<Fate>, s': State, t: nat) returns (fates': seq<Fate>)
    requires Inv(s, fates) && Fresh(s) && t < |s.pcs| && StepOf(s, s', t)
    ensures Inv(s', fates')
  {
    fates' := fates;
    assert PcOk(s, fates, s.pcs[t]);
    match s.pcs[t]
    case Idle =>
      var kind :| s' == Goto(s, t, LoadTail(kind));
      PureStep(s, fates, t, LoadTail(kind));
    case AddCount(_, want, _) => AddCountStep(s, fates, t); fates' := Extended(fates, want);
    case ReloadTail(_, _, _, _) => fates' := ReloadTailStep(s, fates, t);
    case AddOvercommit(_, _) => CounterStep(s, fates, t);
    case AddHead(_) => CounterStep(s, fates, t);
    case _ => PureStep(s, fates, t, Advance(s, t).pcs[t]);
  }

  lemma StepInv(s: State, fates: seq<Fate>, s': State) returns (fates': seq<Fate>)
    requires Inv(s, fates) && Fresh(s) && Step(s, s')
    ensures Inv(s', fates')
  {
    if Publish(s, s') {
      fates' := fates;
      PublishStep(s, fates, s'.tail - s.tail);
    } else {
      var t: nat :| t < |s.pcs| && StepOf(s, s', t);
      fates' := ThreadStepInv(s, fates, s', t);
    }
  }

  // ---- runs --------------------------------------------------------------

  ghost predicate StepAt(run: seq<State>, i: nat)
    requires i + 1 < |run|
  {
    Step(run[i], run[i + 1])
  }

  ghost predicate IsRun(run: seq<State>) {
    run != [] && Init(run[0]) && forall i :: 0 <= i < |run| - 1 ==> StepAt(run, i)
  }

  lemma RunStep(run: seq<State>, i: nat)
    requires IsRun(run) && 0 < i < |run|
    ensures Step(run[i - 1], run[i])
  {
    assert StepAt(run, i - 1);
  }

  /** Units that calls in progress have asked for and not been granted. */
  function InProgress(s: State): nat { Total(Undecided, s.pcs) + Total(ToGiveBack, s.pcs) }

  /** Thread `t` is in one and the same call from state `i` to state `j`. */
  ghost predicate InCall(run: seq<State>, i: nat, j: nat, t: nat) {
    i <= j < |run| && forall k :: i <= k <= j ==> t < |run[k].pcs| && !run[k].pcs[t].Idle?
  }

  /** From any moment of a call to any later one, at most 2^63 elements are asked for by
      the calls that then begin to take tickets or are in progress. */
  ghost predicate Brisk(run: seq<State>) {
    forall i: nat, j: nat, t: nat :: InCall(run, i, j, t) ==> run[j].count - run[i].count + InProgress(run[i]) <= HALF
  }

  /** The most units that may be asked for in all without any other condition. */
  const MOST: nat := HALF + 2

  function Last(run: seq<State>): State
    requires run != []
  {
    run[|run| - 1]
  }

  /** The runs of which the theorems hold: no call is overtaken by too many units, or there
      are not that many. */
  ghost predicate Tame(run: seq<State>) { Brisk(run) || (run != [] && Last(run).count <= MOST) }

  lemma StepKeeps(s: State, s': State, t: nat)
    requires Step(s, s') && t < |s'.pcs|
    ensures s.tail <= s'.tail && s.count <= s'.count && |s.pcs| == |s'.pcs|
    ensures s'.pcs[t] != s.pcs[t] ==> StepOf(s, s', t)
  {
  }

  lemma {:induction false} TailGrows(run: seq<State>, i: nat, j: nat)
    requires IsRun(run) && i <= j < |run| && 0 < |run[j].pcs|
    ensures run[i].tail <= run[j].tail && |run[i].pcs| == |run[j].pcs|
    decreases j
  {
    if i < j {
      RunStep(run, j);
      StepKeeps(run[j - 1], run[j], 0);
      TailGrows(run, i, j - 1);
    }
  }

  lemma NotAtStart(run: seq<State>, j: nat, t: nat)
    requires IsRun(run) && j < |run| && t < |run[j].pcs| && !run[j].pcs[t].Idle?
    ensures j > 0
  {
  }

  /** The moment at which thread `t` read the overcommit that it uses. */
  lemma {:induction false} OverRead(run: seq<State>, j: nat, t: nat) returns (i: nat)
    requires IsRun(run) && j < |run| && t < |run[j].pcs|
    requires run[j].pcs[t].LoadCount? || run[j].pcs[t].AddCount? || run[j].pcs[t].ReloadTail?
    ensures i < j && InCall(run, i, j, t) && run[i].over == run[j].pcs[t].over
  {
    NotAtStart(run, j, t);
    RunStep(run, j);
    StepKeeps(run[j - 1], run[j], t);
    if run[j - 1].pcs[t].LoadOvercommit? {
      i := j - 1;
    } else {
      i := OverRead(run, j - 1, t);
    }
  }

  /** A ticket exceeds the tail by at most the units asked for in the meantime. */
  lemma TicketDistance(s: State, fates: seq<Fate>, s': State, fates': seq<Fate>, t: nat)
    requires Inv(s, fates) && Inv(s', fates') && t < |s'.pcs| && s'.pcs[t].ReloadTail?
    requires s'.pcs[t].over == s.over && s.tail <= s'.tail
    ensures s'.pcs[t].my - s'.pcs[t].over - s'.tail <= s'.count - s.count + InProgress(s)
  {
    InvBoundsHead(s, fates);
    assert PcOk(s', fates', s'.pcs[t]);
  }

  /** While nothing has been published no thread takes a ticket. */
  ghost predicate Early(s: State) {
    s.tail == 0 ==>
      s.count == 0 && s.over == 0 && forall t :: 0 <= t < |s.pcs| ==> BeforeTicket(s.pcs[t])
  }

  predicate BeforeTicket(pc: Pc) {
    match pc
    case Idle => true
    case LoadTail(_) => true
    case LoadOvercommit(_, tail) => tail == 0
    case LoadCount(_, tail, over) => tail == 0 && over == 0
    case _ => false
  }

  lemma StepEarly(s: State, s': State)
    requires Step(s, s') && Early(s)
    ensures Early(s')
  {
    if s'.tail == 0 && !Publish(s, s') {
      var t: nat :| t < |s.pcs| && StepOf(s, s', t);
      assert BeforeTicket(s.pcs[t]);
    }
  }

  lemma {:induction false} RunEarly(run: seq<State>, i: nat)
    requires IsRun(run) && i < |run|
    ensures Early(run[i])
  {
    if i > 0 {
      RunEarly(run, i - 1);
      RunStep(run, i);
      StepEarly(run[i - 1], run[i]);
    }
  }

  lemma {:induction false} CountGrows(run: seq<State>, i: nat, j: nat)
    requires IsRun(run) && i <= j < |run|
    ensures run[i].count <= run[j].count
    decreases j
  {
    if i < j {
      RunStep(run, j);
      CountGrows(run, i, j - 1);
    }
  }

  /** The first ticket is taken when an element is there, so that a ticket for `MOST` units
      or fewer is at most 2^63 beyond the tail. */
  lemma FewIsFresh(s: State, fates: seq<Fate>)
    requires Inv(s, fates) && Early(s) && s.count <= MOST
    ensures Fresh(s)
  {
    forall t | 0 <= t < |s.pcs| && s.pcs[t].ReloadTail? && s.pcs[t].want > 0
      ensures s.pcs[t].my - s.pcs[t].over - s.tail <= HALF
    {
      assert PcOk(s, fates, s.pcs[t]);
      assert s.tail == 0 ==> BeforeTicket(s.pcs[t]);
    }
  }

  lemma {:induction false} TameIsFresh(run: seq<State>, j: nat, fates: seq<Fate>)
    requires IsRun(run) && Tame(run) && j < |run| && Inv(run[j], fates)
    ensures Fresh(run[j])
    decreases j, 0
  {
    if Brisk(run) {
      forall t | 0 <= t < |run[j].pcs| && run[j].pcs[t].ReloadTail?
        ensures run[j].pcs[t].my - run[j].pcs[t].over - run[j].tail <= HALF
      {
        var i := OverRead(run, j, t);
        var before := RunInv(run, i);
        TailGrows(run, i, j);
        TicketDistance(run[i], before, run[j], fates, t);
      }
    } else {
      CountGrows(run, j, |run| - 1);
      RunEarly(run, j);
      FewIsFresh(run[j], fates);
    }
  }

  lemma {:induction false} RunInv(run: seq<State>, i: nat) returns (fates: seq<Fate>)
    requires IsRun(run) && Tame(run) && i < |run|
    ensures Inv(run[i], fates)
    decreases i, 1
  {
    if i == 0 {
      InitInv(run[0]);
      fates := [];
    } else {
      var before := RunInv(run, i - 1);
      TameIsFresh(run, i - 1, before);
      RunStep(run, i);
      fates := StepInv(run[i - 1], before, run[i]);
    }
  }

  // ---- what the invariant means ------------------------------------------

  /** `headIndex` never passes `tailIndex`, even counting every increment that an
      already approved dequeuer is still going to make. */
  lemma HeadNeverPassesTail(run: seq<State>, i: nat)
    requires IsRun(run) && Tame(run) && i < |run|
    ensures run[i].head + Total(ToClaim, run[i].pcs) <= run[i].tail
  {
    var fates := RunInv(run, i);
    InvBoundsHead(run[i], fates);
  }

  lemma {:induction false} EndsAreOrdered(claims: seq<Range>, head: nat, i: nat, j: nat)
    requires Tiled(claims, head) && i <= j <= |claims|
    ensures End(claims, i) <= End(claims, j)
  {
    if i < j {
      EndsAreOrdered(claims, head, i, j - 1);
      assert claims[j - 1].first == End(claims, j - 1);
    }
  }

  lemma TiledIsDisjoint(claims: seq<Range>, head: nat, i: nat, j: nat)
    requires Tiled(claims, head) && i < j < |claims|
    ensures claims[i].first + claims[i].count <= claims[j].first <= claims[j].first + claims[j].count <= head
  {
    EndsAreOrdered(claims, head, i + 1, j);
    EndsAreOrdered(claims, head, j + 1, |claims|);
    assert claims[j].first == End(claims, j);
  }

  /** Ranges are handed out in index order, without overlap, and only of elements
      that have been published. */
  lemma ClaimsAreDisjoint(run: seq<State>, r: nat, i: nat, j: nat)
    requires IsRun(run) && Tame(run) && r < |run| && i < j < |run[r].claims|
    ensures var c := run[r].claims; c[i].first + c[i].count <= c[j].first <= c[j].first + c[j].count <= run[r].tail
  {
    var fates := RunInv(run, r);
    InvBoundsHead(run[r], fates);
    TiledIsDisjoint(run[r].claims, run[r].head, i, j);
  }

  predicate Covers(r: Range, index: nat) { r.first <= index < r.first + r.count }

  lemma {:induction false} CoveredFrom(claims: seq<Range>, head: nat, index: nat, k: nat) returns (i: nat)
    requires Tiled(claims, head) && k <= |claims| && index < End(claims, k)
    ensures i < k && Covers(claims[i], index)
  {
    assert claims[k - 1].first == End(claims, k - 1);
    if index < claims[k - 1].first { i := CoveredFrom(claims, head, index, k - 1); } else { i := k - 1; }
  }

  /** Every index below `headIndex` belongs to exactly one call. */
  lemma HandedOutOnce(run: seq<State>, r: nat, index: nat) returns (i: nat)
    requires IsRun(run) && Tame(run) && r < |run| && index < run[r].head
    ensures i < |run[r].claims| && Covers(run[r].claims[i], index)
    ensures forall j :: 0 <= j < |run[r].claims| && Covers(run[r].claims[j], index) ==> j == i
  {
    var fates := RunInv(run, r);
    i := CoveredFrom(run[r].claims, run[r].head, index, |run[r].claims|);
    forall j | 0 <= j < |run[r].claims| && Covers(run[r].claims[j], index) ensures j == i {
      if i < j { ClaimsAreDisjoint(run, r, i, j); } else if j < i { ClaimsAreDisjoint(run, r, j, i); }
    }
  }

  /** When no dequeue is in progress the optimistic count is exact: every failed
      attempt has been given back. */
  lemma QuietCountIsExact(run: seq<State>, i: nat)
    requires IsRun(run) && Tame(run) && i < |run| && forall t :: 0 <= t < |run[i].pcs| ==> run[i].pcs[t] == Idle
    ensures run[i].count - run[i].over == run[i].head <= run[i].tail
  {
    var fates := RunInv(run, i);
    TotalIdle(Undecided, run[i].pcs);
    TotalIdle(ToClaim, run[i].pcs);
    TotalIdle(ToGiveBack, run[i].pcs);
    InvBoundsHead(run[i], fates);
  }

  /** What a call that runs alone may take when `there` elements are there. */
  function Share(kind: Kind, there: nat): nat { if kind.Single? then 1 else Min(there, kind.max) }

  function Took(s: State, k: nat): State {
    s.(count := s.count + k, head := s.head + k, claims := s.claims + [Range(s.head, k)])
  }

  ghost predicate StepBy(call: seq<State>, t: nat, i: nat)
    requires i + 1 < |call|
  {
    t < |call[i].pcs| && !call[i].pcs[t].Idle? && call[i + 1] == Advance(call[i], t)
  }

  /** The states of a call of thread `t` from its beginning to its end, when no other thread
      takes a step. */
  ghost predicate CallAlone(call: seq<State>, t: nat, s: State, kind: Kind) {
    CallBegun(call, t, s, kind) && Last(call).pcs[t].Idle?
  }

  ghost predicate CallBegun(call: seq<State>, t: nat, s: State, kind: Kind) {
    && call != [] && t < |s.pcs| && call[0] == Goto(s, t, LoadTail(kind)) && t < |Last(call).pcs|
    && forall i :: 0 <= i < |call| - 1 ==> StepBy(call, t, i)
  }

  function StepsLeft(pc: Pc): nat {
    match pc
    case Idle => 0
    case AddHead(_) => 1
    case AddOvercommit(_, _) => 2
    case ReloadTail(_, _, _, _) => 3
    case AddCount(_, _, _) => 4
    case LoadCount(_, _, _) => 5
    case LoadOvercommit(_, _) => 6
    case LoadTail(_) => 7
  }

  /** A call that runs alone ends. */
  lemma {:induction false} AloneEndsFrom(call0: seq<State>, t: nat, s: State, kind: Kind) returns (call: seq<State>)
    requires CallBegun(call0, t, s, kind)
    ensures CallAlone(call, t, s, kind)
    decreases StepsLeft(Last(call0).pcs[t])
  {
    call := call0;
    if !Last(call0).pcs[t].Idle? {
      call := call0 + [Advance(Last(call0), t)];
      forall i | 0 <= i < |call| - 1 ensures StepBy(call, t, i) {
        if i < |call0| - 1 { assert StepBy(call0, t, i); }
      }
      call := AloneEndsFrom(call, t, s, kind);
    }
  }

  lemma CallEnds(s: State, t: nat, kind: Kind) returns (call: seq<State>)
    requires t < |s.pcs|
    ensures CallAlone(call, t, s, kind)
  {
    call := AloneEndsFrom([Goto(s, t, LoadTail(kind))], t, s, kind);
  }

  /** The tests of a call that runs alone, on the word that is the distance of the counters. */
  lemma AloneTests(kind: Kind, tail: nat, head: nat)
    requires head <= tail
    ensures var there := Wrap(tail - head);
      && (Enters(kind, tail, head) <==> 0 < there < HALF)
      && (Approves(kind, tail, head) <==> 0 < there < HALF)
      && (0 < there < HALF ==>
            && Want(kind, tail, head) == Share(kind, there)
            && Granted(kind, Share(kind, there), tail, head) == Share(kind, there))
  {
    WrapDifference(head, tail);
    WrapDifference(0, tail - head);
  }

  lemma TestOnce(s: State, t: nat, kind: Kind, head: nat)
    requires t < |s.pcs| && s.pcs[t] == LoadCount(kind, s.tail, s.over) && head == s.count - s.over
    ensures Advance(s, t) == Goto(s, t, if Enters(kind, s.tail, head)
            then AddCount(kind, Want(kind, s.tail, head), s.over) else Idle)
  {
  }

  lemma TestTwice(s: State, t: nat, kind: Kind, want: nat, over: nat, my: nat)
    requires t < |s.pcs| && s.pcs[t] == ReloadTail(kind, want, over, my)
    requires Approves(kind, s.tail, my - over) && Granted(kind, want, s.tail, my - over) == want
    ensures Advance(s, t) == Goto(s, t, AddHead(want))
  {
  }

  /** A state of the call at which it is not over is followed by its next step... */
  lemma NextState(call: seq<State>, t: nat, s: State, kind: Kind, i: nat, s': State)
    requires CallAlone(call, t, s, kind) && i < |call| && t < |call[i].pcs| && !call[i].pcs[t].Idle?
    requires s' == Advance(call[i], t)
    ensures i + 1 < |call| && call[i + 1] == s'
  {
    if i + 1 < |call| { assert StepBy(call, t, i); }
  }

  /** ...and the state at which it is over is the last one. */
  lemma EndState(call: seq<State>, t: nat, s: State, kind: Kind, i: nat)
    requires CallAlone(call, t, s, kind) && i < |call| && t < |call[i].pcs| && call[i].pcs[t].Idle?
    ensures Last(call) == call[i]
  {
    assert i + 1 < |call| ==> StepBy(call, t, i);
  }

  lemma AloneLooks(call: seq<State>, t: nat, s: State, kind: Kind)
    requires CallAlone(call, t, s, kind)
    ensures |call| > 2 && call[2] == Goto(s, t, LoadCount(kind, s.tail, s.over))
  {
    NextState(call, t, s, kind, 0, Goto(s, t, LoadOvercommit(kind, s.tail)));
    NextState(call, t, s, kind, 1, Goto(s, t, LoadCount(kind, s.tail, s.over)));
  }

  lemma AloneTakes(call: seq<State>, t: nat, s: State, kind: Kind, k: nat)
    requires CallAlone(call, t, s, kind) && |call| > 3 && call[3] == Goto(s, t, AddCount(kind, k, s.over))
    requires s.head == s.count - s.over && Approves(kind, s.tail, s.head) && Granted(kind, k, s.tail, s.head) == k
    ensures Last(call) == Goto(Took(s, k), t, Idle)
  {
    var s1 := s.(count := s.count + k);
    NextState(call, t, s, kind, 3, Goto(s1, t, ReloadTail(kind, k, s.over, s.count)));
    TestTwice(call[4], t, kind, k, s.over, s.count);
    NextState(call, t, s, kind, 4, Goto(s1, t, AddHead(k)));
    NextState(call, t, s, kind, 5, Goto(Took(s, k), t, Idle));
    EndState(call, t, s, kind, 6);
  }

  /** Hence a call that runs alone takes all it may: one element, or the smaller of `max` and
      what is there. It finds nothing exactly when nothing is there, or when the number of
      elements is one that the comparison of words takes for a negative one. */
  lemma AloneGetsWhatIsThere(run: seq<State>, i: nat, call: seq<State>, t: nat, kind: Kind)
    requires IsRun(run) && Tame(run) && i < |run| && forall u :: 0 <= u < |run[i].pcs| ==> run[i].pcs[u] == Idle
    requires CallAlone(call, t, run[i], kind)
    ensures var s := run[i]; var there := Wrap(s.tail - s.head);
      Last(call) == if 0 < there < HALF then Took(s, Share(kind, there)) else s
  {
    var s := run[i];
    QuietCountIsExact(run, i);
    AloneEnds(call, t, s, kind, Wrap(s.tail - s.head));
  }

  lemma AloneEnds(call: seq<State>, t: nat, s: State, kind: Kind, there: nat)
    requires CallAlone(call, t, s, kind) && s.pcs[t].Idle? && s.head == s.count - s.over <= s.tail
    requires there == Wrap(s.tail - s.head)
    ensures Last(call) == if 0 < there < HALF then Took(s, Share(kind, there)) else s
  {
    AloneTests(kind, s.tail, s.head);
    AloneLooks(call, t, s, kind);
    var pc := if 0 < there < HALF then AddCount(kind, Share(kind, there), s.over) else Idle;
    assert Advance(call[2], t) == Goto(s, t, pc) by { TestOnce(call[2], t, kind, s.head); }
    NextState(call, t, s, kind, 2, Goto(s, t, pc));
    if 0 < there < HALF { AloneTakes(call, t, s, kind, Share(kind, there)); } else { EndState(call, t, s, kind, 3); }
  }

  // ---- few tickets suffice -------------------------------------------------

  /** The optimistic count is the sum of what became of the units; this needs no
      comparison of words. */
  predicate Balanced(s: State) {
    s.count == s.over + s.head + Total(Undecided, s.pcs) + Total(ToClaim, s.pcs) + Total(ToGiveBack, s.pcs)
  }

  /** Changing one thread changes the balance by the change of its debts. */
  lemma BalanceMoves(s: State, s': State, t: nat, pc: Pc)
    requires t < |s.pcs| && Balanced(s) && s'.pcs == s.pcs[t := pc]
    requires s'.count - s.count == (s'.over - s.over) + (s'.head - s.head) + Debts(pc) - Debts(s.pcs[t])
    ensures Balanced(s')
  {
    TotalUpdate(Undecided, s.pcs, t, pc);
    TotalUpdate(ToClaim, s.pcs, t, pc);
    TotalUpdate(ToGiveBack, s.pcs, t, pc);
  }

  function Debts(pc: Pc): int { Weight(Undecided, pc) + Weight(ToClaim, pc) + Weight(ToGiveBack, pc) }

  lemma AdvanceBalanced(s: State, t: nat)
    requires t < |s.pcs| && !s.pcs[t].Idle? && Balanced(s)
    ensures Balanced(Advance(s, t))
  {
    BalanceMoves(s, Advance(s, t), t, Advance(s, t).pcs[t]);
  }

  lemma StepBalanced(s: State, s': State)
    requires Step(s, s') && Balanced(s)
    ensures Balanced(s')
  {
    if Publish(s, s') {
    } else {
      var t: nat :| t < |s.pcs| && StepOf(s, s', t);
      if s.pcs[t].Idle? {
        var kind :| s' == Goto(s, t, LoadTail(kind));
        BalanceMoves(s, s', t, LoadTail(kind));
      } else {
        AdvanceBalanced(s, t);
      }
    }
  }

  lemma {:induction false} RunBalanced(run: seq<State>, i: nat)
    requires IsRun(run) && i < |run|
    ensures Balanced(run[i])
  {
    if i == 0 {
      InitInv(run[0]);
    } else {
      RunBalanced(run, i - 1);
      RunStep(run, i);
      StepBalanced(run[i - 1], run[i]);
    }
  }

  /** Every run in which at most 2^63 units are asked for in all is brisk. */
  lemma FewTicketsAreBrisk(run: seq<State>)
    requires IsRun(run) && run[|run| - 1].count <= HALF
    ensures Brisk(run)
  {
    forall i: nat, j: nat, t: nat | InCall(run, i, j, t)
      ensures run[j].count - run[i].count + InProgress(run[i]) <= HALF
    {
      RunBalanced(run, i);
      CountGrows(run, j, |run| - 1);
    }
  }

  /** The number of units itself decides up to two more: `headIndex` then never passes
      `tailIndex`. */
  lemma FewTicketsAreSafe(run: seq<State>, i: nat)
    requires IsRun(run) && Last(run).count <= MOST && i < |run|
    ensures run[i].head <= run[i].tail
  {
    HeadNeverPassesTail(run, i);
  }

  // ---- a stale ticket ------------------------------------------------------

  /** For a ticket 2^63 + 1 beyond the tail the second test of the source approves
      although nothing is there. */
  lemma StaleTicketIsApproved(kind: Kind, tail: nat, effective: int)
    requires HALF < effective - tail < WORD
    ensures Approves(kind, tail, effective)
  {
    WrapDifference(effective, tail);
    WrapDifference(0, tail - effective);
  }

  lemma Extend(run: seq<State>, s: State) returns (run': seq<State>)
    requires IsRun(run) && Step(Last(run), s)
    ensures IsRun(run') && Last(run') == s
  {
    run' := run + [s];
    forall i | 0 <= i < |run'| - 1 ensures StepAt(run', i) {
      if i < |run| - 1 { assert StepAt(run, i); }
    }
  }

  /** Thread `t` takes a step. */
  lemma Take(run: seq<State>, t: nat) returns (run': seq<State>)
    requires IsRun(run) && t < |Last(run).pcs| && !Last(run).pcs[t].Idle?
    ensures IsRun(run') && Last(run') == Advance(Last(run), t)
  {
    assert StepOf(Last(run), Advance(Last(run), t), t);
    run' := Extend(run, Advance(Last(run), t));
  }

  function Claims(k: nat): (c: seq<Range>)
    ensures |c| == k
  {
    seq(k, i requires 0 <= i < k => Range(i, 1))
  }

  /** Thread 0 read the overcommit 0 long ago and is about to take a ticket; since then
      `k` elements have been taken and as many calls have found nothing. */
  function Asleep(k: nat, tail: nat, a: Pc, b: Pc): State {
    State(tail, k, 2 * k, k, [AddCount(Single, 1, 0), a, b], Claims(k))
  }

  /** A thread that finds `k + 1` elements published and `k` taken goes on to a ticket. */
  lemma WorkerEnters(run0: seq<State>, k: nat, t: nat) returns (run: seq<State>)
    requires IsRun(run0) && (t == 1 || t == 2)
    requires Last(run0) == Asleep(k, k + 1, if t == 1 then Idle else AddCount(Single, 1, k), Idle)
    ensures IsRun(run) && Last(run) == Last(run0).(pcs := Last(run0).pcs[t := AddCount(Single, 1, k)])
  {
    var s := Last(run0);
    WrapDifference(k, k + 1);
    assert StepOf(s, Goto(s, t, LoadTail(Single)), t);
    run := Extend(run0, Goto(s, t, LoadTail(Single)));
    run := Take(run, t);
    assert Last(run) == Goto(s, t, LoadOvercommit(Single, k + 1));
    run := Take(run, t);
    run := Take(run, t);
    assert Last(run) == Goto(s, t, AddCount(Single, 1, k));
  }

  /** Two threads race for one element: one gets it, the other gives its ticket back. */
  lemma Race(run0: seq<State>, k: nat) returns (run: seq<State>)
    requires IsRun(run0) && Last(run0) == Asleep(k, k + 1, Idle, Idle)
    ensures IsRun(run) && Last(run) == Asleep(k + 1, k + 1, Idle, Idle)
  {
    run := WorkerEnters(run0, k, 1);
    assert Last(run) == Asleep(k, k + 1, AddCount(Single, 1, k), Idle);
    run := WorkerEnters(run, k, 2);
    assert Last(run) == Asleep(k, k + 1, AddCount(Single, 1, k), AddCount(Single, 1, k));
    run := RaceTickets(run, k);
    run := RaceEnds(run, k);
  }

  function Raced(k: nat, a: Pc, b: Pc): State { Asleep(k, k + 1, a, b).(count := 2 * k + 2) }

  lemma RaceTickets(run0: seq<State>, k: nat) returns (run: seq<State>)
    requires IsRun(run0) && Last(run0) == Asleep(k, k + 1, AddCount(Single, 1, k), AddCount(Single, 1, k))
    ensures IsRun(run) && Last(run) == Raced(k, ReloadTail(Single, 1, k, 2 * k), ReloadTail(Single, 1, k, 2 * k + 1))
  {
    run := Take(run0, 1);
    assert Last(run).pcs == [AddCount(Single, 1, 0), ReloadTail(Single, 1, k, 2 * k), AddCount(Single, 1, k)];
    run := Take(run, 2);
    assert Last(run).pcs == [AddCount(Single, 1, 0), ReloadTail(Single, 1, k, 2 * k),
        ReloadTail(Single, 1, k, 2 * k + 1)];
  }

  lemma RaceEnds(run0: seq<State>, k: nat) returns (run: seq<State>)
    requires IsRun(run0) && Last(run0) == Raced(k, ReloadTail(Single, 1, k, 2 * k), ReloadTail(Single, 1, k, 2 * k + 1))
    ensures IsRun(run) && Last(run) == Asleep(k + 1, k + 1, Idle, Idle)
  {
    WrapDifference(k, k + 1);
    WrapDifference(k + 1, k + 1);
    run := Take(run0, 1);
    assert Last(run) == Raced(k, AddHead(1), ReloadTail(Single, 1, k, 2 * k + 1));
    run := Take(run, 2);
    assert Last(run) == Raced(k, AddHead(1), AddOvercommit(1, 0));
    run := Take(run, 1);
    assert Last(run).claims == Claims(k + 1);
    run := Take(run, 2);
    assert Last(run).pcs == [AddCount(Single, 1, 0), Idle, Idle];
  }

  /** Thread 0 falls asleep while one element is there. */
  lemma FallsAsleep() returns (run: seq<State>)
    ensures IsRun(run) && Last(run) == Asleep(0, 1, Idle, Idle)
  {
    var s := State(0, 0, 0, 0, [Idle, Idle, Idle], []);
    run := Extend([s], s.(tail := 1));
    s := Last(run);
    WrapDifference(0, 1);
    assert StepOf(s, Goto(s, 0, LoadTail(Single)), 0);
    run := Extend(run, Goto(s, 0, LoadTail(Single)));
    run := Take(run, 0);
    assert Last(run) == Goto(s, 0, LoadOvercommit(Single, 1));
    run := Take(run, 0);
    run := Take(run, 0);
    assert Last(run).pcs == [AddCount(Single, 1, 0), Idle, Idle];
  }

  lemma {:induction false} Races(k: nat) returns (run: seq<State>)
    requires k > 0
    ensures IsRun(run) && Last(run) == Asleep(k, k, Idle, Idle)
  {
    if k == 1 {
      run := FallsAsleep();
    } else {
      run := Races(k - 1);
      run := Extend(run, Asleep(k - 1, k, Idle, Idle));
    }
    run := Race(run, k - 1);
  }

  /** Without any bound the protocol fails: while one thread sleeps between its first test
      and its ticket, 2^63 + 1 elements are taken and as many calls find nothing; then its
      second test approves it for an element that is not there. */
  lemma SleeperOverclaims() returns (run: seq<State>)
    ensures IsRun(run) && Last(run).head > Last(run).tail
  {
    var n: nat := HALF + 1;
    run := Races(n);
    run := Take(run, 0);
    assert Last(run).pcs[0] == ReloadTail(Single, 1, 0, 2 * n);
    StaleTicketIsApproved(Single, n, 2 * n);
    run := Take(run, 0);
    assert Last(run).pcs[0] == AddHead(1);
    run := Take(run, 0);
  }

  // ---- the exact number of units ---------------------------------------------

  /** Of `n` threads the first `k` are at `a`, the others at `b`. */
  function Crowd(n: nat, k: nat, a: Pc, b: Pc): (pcs: seq<Pc>)
    ensures |pcs| == n
  {
    seq(n, t requires 0 <= t < n => if t < k then a else b)
  }

  /** One element has been published, and `k` of `n` threads have found it. */
  function Found(n: nat, k: nat): State { State(1, 0, 0, 0, Crowd(n, k, AddCount(Single, 1, 0), Idle), []) }

  lemma CrowdNext(n: nat, k: nat, a: Pc, b: Pc)
    requires k < n
    ensures Crowd(n, k, a, b)[k := a] == Crowd(n, k + 1, a, b)
  {
  }

  lemma FindsOne(run0: seq<State>, n: nat, k: nat) returns (run: seq<State>)
    requires IsRun(run0) && k < n && Last(run0) == Found(n, k)
    ensures IsRun(run) && Last(run) == Found(n, k + 1)
  {
    var s := Last(run0);
    WrapDifference(0, 1);
    assert StepOf(s, Goto(s, k, LoadTail(Single)), k);
    run := Extend(run0, Goto(s, k, LoadTail(Single)));
    run := Take(run, k);
    assert Last(run) == Goto(s, k, LoadOvercommit(Single, 1));
    run := Take(run, k);
    assert Last(run) == Goto(s, k, LoadCount(Single, 1, 0));
    run := Take(run, k);
    CrowdNext(n, k, AddCount(Single, 1, 0), Idle);
  }

  lemma {:induction false} AllFind(n: nat, k: nat) returns (run: seq<State>)
    requires k <= n
    ensures IsRun(run) && Last(run) == Found(n, k)
  {
    if k == 0 {
      var s := Found(n, 0).(tail := 0);
      run := [s];
      run := Extend(run, s.(tail := 1));
    } else {
      run := AllFind(n, k - 1);
      run := FindsOne(run, n, k - 1);
    }
  }

  /** All have found the element, and the first `k` have taken a ticket. */
  function Ticketed(n: nat, k: nat): State {
    State(1, 0, k, 0, seq(n, t requires 0 <= t < n => if t < k then ReloadTail(Single, 1, 0, t)
        else AddCount(Single, 1, 0)), [])
  }

  lemma {:induction false} AllTake(n: nat, k: nat) returns (run: seq<State>)
    requires k <= n
    ensures IsRun(run) && Last(run) == Ticketed(n, k)
  {
    if k == 0 {
      run := AllFind(n, n);
      assert Crowd(n, n, AddCount(Single, 1, 0), Idle) == Ticketed(n, 0).pcs;
    } else {
      run := AllTake(n, k - 1);
      run := Take(run, k - 1);
      assert Last(run).pcs == Ticketed(n, k).pcs;
    }
  }

  /** Even with one element and no failed call: all threads find it before any takes a
      ticket, and the ticket 2^63 + 1 beyond the tail is approved like the first. */
  lemma CrowdOverclaims() returns (run: seq<State>)
    ensures IsRun(run) && Last(run).count == MOST + 1 && Last(run).head > Last(run).tail
  {
    var n := MOST + 1;
    run := AllTake(n, n);
    run := BothClaim(run, n);
  }

  /** The first thread and the last one are approved. */
  lemma BothClaim(run0: seq<State>, n: nat) returns (run: seq<State>)
    requires IsRun(run0) && n == MOST + 1 && Last(run0) == Ticketed(n, n)
    ensures IsRun(run) && Last(run).count == n && Last(run).head > Last(run).tail
  {
    var s := Last(run0);
    WrapDifference(0, 1);
    run := Take(run0, 0);
    assert Last(run) == Goto(s, 0, AddHead(1));
    run := Take(run, 0);
    assert Last(run).pcs[n - 1] == ReloadTail(Single, 1, 0, n - 1) && Last(run).head == Last(run).tail == 1;
    StaleTicketIsApproved(Single, 1, n - 1);
    run := Take(run, n - 1);
    assert Last(run).pcs[n - 1] == AddHead(1);
    run := Take(run, n - 1);
  }

  ghost predicate HeadBehindTail(run: seq<State>) { forall i :: 0 <= i < |run| ==> run[i].head <= run[i].tail }

  /** Exactly: all runs in which at most `n` units are asked for are safe if and only if `n`
      is at most 2^63 + 2. */
  lemma SafeExactly(n: nat)
    ensures (forall run: seq<State> :: IsRun(run) && Last(run).count <= n ==> HeadBehindTail(run)) <==> n <= MOST
  {
    if n <= MOST {
      forall run: seq<State> | IsRun(run) && Last(run).count <= n ensures HeadBehindTail(run) {
        forall i | 0 <= i < |run| ensures run[i].head <= run[i].tail { FewTicketsAreSafe(run, i); }
      }
    } else {
      var run := CrowdOverclaims();
      assert !(run[|run| - 1].head <= run[|run| - 1].tail);
    }
  }
}
