/** One explicit producer as a whole: the ticket protocol decides which dequeuer may
    advance `headIndex`, and the blocks hold the elements.  Neither part assumes
    anything of the other here: that a claim never runs ahead of the published
    elements, which `ProducerBlocks` asks of its callers, is proved of the tickets. */
module ExplicitProducer {
  import T = DequeueTickets
  import B = ProducerBlocks
  import W = Words

  /** Thread `t` of the tickets and consumer `t` of the blocks are the same thread. */
  datatype State = State(tickets: T.State, blocks: B.State)

  ghost predicate Init(s: State) {
    T.Init(s.tickets) && B.Init(s.blocks) && |s.tickets.pcs| == |s.blocks.consumers|
  }

  /** The producer takes a step; publishing is the store of `tailIndex`. */
  ghost predicate Produces(s: State, s': State) {
    && B.Produces(s.blocks, s'.blocks)
    && s'.tickets == s.tickets.(tail := s'.blocks.tail)
  }

  /** A step before `headIndex` is advanced.  A thread that still reads elements
      does not start another call. */
  ghost predicate TakesTicket(s: State, s': State, t: nat) {
    && t < |s.tickets.pcs| && t < |s.blocks.consumers|
    && !s.tickets.pcs[t].AddHead? && s.blocks.consumers[t].Free?
    && T.StepOf(s.tickets, s'.tickets, t)
    && s'.blocks == s.blocks
  }

  /** `headIndex.fetch_add`, the one access both parts share. */
  ghost predicate AdvancesHead(s: State, s': State, t: nat) {
    && t < |s.tickets.pcs| && t < |s.blocks.consumers|
    && s.tickets.pcs[t].AddHead?
    && s'.tickets == T.Advance(s.tickets, t)
    && var n := s.tickets.pcs[t].granted;
       s'.blocks == if n == 0 then s.blocks
                    else B.Goto(s.blocks.(head := s.blocks.head + n), t, B.LoadIndex(s.blocks.head, s.blocks.head + n))
  }

  ghost predicate Reads(s: State, s': State, t: nat) {
    B.Consumes(s.blocks, s'.blocks, t) && s'.tickets == s.tickets
  }

  ghost predicate Step(s: State, s': State) {
    || Produces(s, s')
    || (exists t :: TakesTicket(s, s', t))
    || (exists t :: AdvancesHead(s, s', t))
    || (exists t :: Reads(s, s', t))
  }

  ghost predicate StepAt(run: seq<State>, i: nat)
    requires i + 1 < |run|
  {
    Step(run[i], run[i + 1])
  }

  ghost predicate IsRun(run: seq<State>) {
    run != [] && Init(run[0]) && forall i :: 0 <= i < |run| - 1 ==> StepAt(run, i)
  }

  lemma RunStep(run: seq<State>, i: nat)
    requires IsRun(run) && 0 < i < |run|
    ensures Step(run[i - 1], run[i])
  {
    assert StepAt(run, i - 1);
  }

  /** What the run is for the tickets. */
  function TicketRun(run: seq<State>): (r: seq<T.State>)
    ensures |r| == |run|
  {
    seq(|run|, i requires 0 <= i < |run| => run[i].tickets)
  }

  ghost predicate Coupled(s: State) {
    && s.tickets.tail == s.blocks.tail && s.tickets.head == s.blocks.head
    && |s.tickets.pcs| == |s.blocks.consumers|
    && forall t :: 0 <= t < |s.tickets.pcs| ==> s.tickets.pcs[t].Idle? || s.blocks.consumers[t].Free?
  }

  ghost predicate Inv(s: State, fates: seq<T.Fate>, g: B.Ghost) {
    T.Inv(s.tickets, fates) && B.Inv(s.blocks, g) && Coupled(s)
  }

  /** The tickets keep the promise that the blocks need. */
  lemma ClaimHasRoom(s: State, fates: seq<T.Fate>, g: B.Ghost, s': State, t: nat)
    requires Inv(s, fates, g) && AdvancesHead(s, s', t) && s.tickets.pcs[t].granted > 0
    ensures B.Claims(s.blocks, s'.blocks, t, s.tickets.pcs[t].granted)
  {
    T.InvBoundsHead(s.tickets, fates);
    T.TotalUpdate(T.ToClaim, s.tickets.pcs, t, T.Idle);
  }

  lemma ProducesInv(s: State, fates: seq<T.Fate>, g: B.Ghost, s': State) returns (g': B.Ghost)
    requires Inv(s, fates, g) && Produces(s, s')
    ensures Inv(s', fates, g')
  {
    g' := B.ProduceInv(s.blocks, g, s'.blocks);
    ProducesTickets(s, fates, s');
  }

  lemma ProducesTickets(s: State, fates: seq<T.Fate>, s': State)
    requires T.Inv(s.tickets, fates) && Coupled(s) && Produces(s, s')
    ensures T.Inv(s'.tickets, fates) && Coupled(s')
  {
    B.ProducerKeeps(s.blocks, s'.blocks);
    T.PublishStep(s.tickets, fates, s'.blocks.tail - s.tickets.tail);
  }

  lemma AdvancesHeadInv(s: State, fates: seq<T.Fate>, g: B.Ghost, s': State, t: nat)
    requires Inv(s, fates, g) && AdvancesHead(s, s', t)
    ensures Inv(s', fates, g)
  {
    T.CounterStep(s.tickets, fates, t);
    AdvancesBlocks(s, fates, g, s', t);
  }

  lemma AdvancesBlocks(s: State, fates: seq<T.Fate>, g: B.Ghost, s': State, t: nat)
    requires Inv(s, fates, g) && AdvancesHead(s, s', t)
    ensures B.Inv(s'.blocks, g)
  {
    if s.tickets.pcs[t].granted > 0 {
      ClaimHasRoom(s, fates, g, s', t);
      B.ClaimStep(s.blocks, g, s'.blocks, t, s.tickets.pcs[t].granted);
    }
  }

  lemma ReaderKeeps(b: B.State, b': B.State, t: nat)
    requires B.Consumes(b, b', t)
    ensures b'.head == b.head && b'.tail == b.tail && |b'.consumers| == |b.consumers|
    ensures forall u :: 0 <= u < |b.consumers| && b.consumers[u].Free? ==> b'.consumers[u].Free?
  {
  }

  lemma TicketKeeps(s: T.State, s': T.State, t: nat)
    requires t < |s.pcs| && !s.pcs[t].AddHead? && T.StepOf(s, s', t)
    ensures s'.head == s.head && s'.tail == s.tail && |s'.pcs| == |s.pcs|
    ensures forall u :: 0 <= u < |s.pcs| && u != t ==> s'.pcs[u] == s.pcs[u]
  {
  }

  lemma StepInv(s: State, fates: seq<T.Fate>, g: B.Ghost, s': State) returns (fates': seq<T.Fate>, g': B.Ghost)
    requires Inv(s, fates, g) && T.Fresh(s.tickets) && Step(s, s')
    ensures Inv(s', fates', g')
  {
    fates', g' := fates, g;
    if Produces(s, s') {
      g' := ProducesInv(s, fates, g, s');
    } else if t :| TakesTicket(s, s', t) {
      fates' := T.ThreadStepInv(s.tickets, fates, s'.tickets, t);
      TicketKeeps(s.tickets, s'.tickets, t);
    } else if t :| AdvancesHead(s, s', t) {
      AdvancesHeadInv(s, fates, g, s', t);
    } else {
      var t :| Reads(s, s', t);
      B.ConsumeInv(s.blocks, g, s'.blocks, t);
      ReaderKeeps(s.blocks, s'.blocks, t);
    }
  }

  /** A step of the whole is a step of the tickets, or none. */
  lemma TicketStep(s: State, s': State)
    requires Step(s, s') && s.tickets.tail == s.blocks.tail
    ensures T.Step(s.tickets, s'.tickets) && s'.tickets.tail == s'.blocks.tail
  {
    if Produces(s, s') {
      B.ProducerKeeps(s.blocks, s'.blocks);
    } else if t: nat :| TakesTicket(s, s', t) {
      assert T.StepOf(s.tickets, s'.tickets, t);
      TicketKeeps(s.tickets, s'.tickets, t);
    } else if t: nat :| AdvancesHead(s, s', t) {
      assert T.StepOf(s.tickets, s'.tickets, t);
    } else {
      var t: nat :| Reads(s, s', t);
      ReaderKeeps(s.blocks, s'.blocks, t);
    }
  }

  lemma {:induction false} SameTail(run: seq<State>, i: nat)
    requires IsRun(run) && i < |run|
    ensures run[i].tickets.tail == run[i].blocks.tail
  {
    if i > 0 {
      SameTail(run, i - 1);
      RunStep(run, i);
      TicketStep(run[i - 1], run[i]);
    }
  }

  lemma TicketsRun(run: seq<State>)
    requires IsRun(run)
    ensures T.IsRun(TicketRun(run))
  {
    var r := TicketRun(run);
    forall i | 0 <= i < |r| - 1 ensures T.StepAt(r, i) {
      SameTail(run, i);
      RunStep(run, i + 1);
      TicketStep(run[i], run[i + 1]);
    }
  }

  lemma {:induction false} RunInv(run: seq<State>, i: nat) returns (fates: seq<T.Fate>, g: B.Ghost)
    requires IsRun(run) && T.Tame(TicketRun(run)) && i < |run|
    ensures Inv(run[i], fates, g)
  {
    if i == 0 {
      T.InitInv(run[0].tickets);
      B.InitInv(run[0].blocks);
      fates, g := [], B.Ghost([], [0], [0], [0], [0]);
    } else {
      var f, b := RunInv(run, i - 1);
      assert T.Fresh(run[i - 1].tickets) by {
        TicketsRun(run);
        T.TameIsFresh(TicketRun(run), i - 1, f);
      }
      RunStep(run, i);
      fates, g := StepInv(run[i - 1], f, b, run[i]);
    }
  }

  /** The queue of one producer delivers every element at most once and each under
      its own index: what a call returned is the part of the enqueued sequence at
      the indices it claimed, and no two calls share an index. */
  lemma EachElementOnce(run: seq<State>, i: nat, k: nat)
    requires IsRun(run) && T.Tame(TicketRun(run)) && i < |run| && k < |run[i].blocks.delivered|
    ensures var items, d := run[i].blocks.items, run[i].blocks.delivered[k];
      d.first + |d.values| <= |items| && d.values == items[d.first..d.first + |d.values|]
    ensures forall l :: 0 <= l < |run[i].blocks.delivered| && l != k ==>
      B.Separate(run[i].blocks.delivered[k], run[i].blocks.delivered[l])
  {
    var fates, g := RunInv(run, i);
    assert B.DeliveryOk(run[i].blocks, run[i].blocks.delivered[k]);
    forall l | 0 <= l < |run[i].blocks.delivered| && l != k
      ensures B.Separate(run[i].blocks.delivered[k], run[i].blocks.delivered[l])
    {
      assert if k < l then B.Separate(run[i].blocks.delivered[k], run[i].blocks.delivered[l])
             else B.Separate(run[i].blocks.delivered[l], run[i].blocks.delivered[k]);
    }
  }

  lemma AdvancesHeadCovers(s: State, fates: seq<T.Fate>, g: B.Ghost, s': State, t: nat, x: nat)
    requires Inv(s, fates, g) && AdvancesHead(s, s', t) && x < s'.blocks.head
    requires x < s.blocks.head ==> B.Covered(s.blocks, x)
    ensures B.Covered(s'.blocks, x)
  {
    if s.tickets.pcs[t].granted > 0 {
      ClaimHasRoom(s, fates, g, s', t);
      B.ClaimCovers(s.blocks, s'.blocks, t, s.tickets.pcs[t].granted, x);
    }
  }

  lemma ReadsCovers(s: State, fates: seq<T.Fate>, g: B.Ghost, s': State, t: nat, x: nat)
    requires Inv(s, fates, g) && Reads(s, s', t) && x < s'.blocks.head
    requires x < s.blocks.head ==> B.Covered(s.blocks, x)
    ensures B.Covered(s'.blocks, x)
  {
    ReaderKeeps(s.blocks, s'.blocks, t);
    B.ConsumeCovers(s.blocks, g, s'.blocks, t, x);
  }

  lemma StepCovers(s: State, fates: seq<T.Fate>, g: B.Ghost, s': State, x: nat)
    requires Inv(s, fates, g) && Step(s, s') && x < s'.blocks.head
    requires x < s.blocks.head ==> B.Covered(s.blocks, x)
    ensures B.Covered(s'.blocks, x)
  {
    if Produces(s, s') {
      B.ProducerKeeps(s.blocks, s'.blocks);
      B.CoveredKeeps(s.blocks, s'.blocks, x);
    } else if s'.blocks != s.blocks {
      if t: nat :| AdvancesHead(s, s', t) {
        AdvancesHeadCovers(s, fates, g, s', t, x);
      } else {
        var t: nat :| Reads(s, s', t);
        ReadsCovers(s, fates, g, s', t, x);
      }
    }
  }

  lemma SameHead(run: seq<State>, i: nat)
    requires IsRun(run) && T.Tame(TicketRun(run)) && i < |run|
    ensures run[i].tickets.head == run[i].blocks.head
  {
    var fates, g := RunInv(run, i);
  }

  lemma CoversNext(run: seq<State>, i: nat, x: nat)
    requires IsRun(run) && T.Tame(TicketRun(run)) && 0 < i < |run| && x < run[i].blocks.head
    requires x < run[i - 1].blocks.head ==> B.Covered(run[i - 1].blocks, x)
    ensures B.Covered(run[i].blocks, x)
  {
    assert Step(run[i - 1], run[i]) by { RunStep(run, i); }
    var fates, g := RunInv(run, i - 1);
    StepCovers(run[i - 1], fates, g, run[i], x);
  }

  /** No claimed element is lost either: a call that is still running owns its
      index, or a finished call returned it. */
  lemma {:induction false} NothingLost(run: seq<State>, i: nat, x: nat)
    requires IsRun(run) && T.Tame(TicketRun(run)) && i < |run| && x < run[i].tickets.head
    ensures B.Covered(run[i].blocks, x)
  {
    SameHead(run, i);
    if i > 0 {
      SameHead(run, i - 1);
      if x < run[i - 1].blocks.head { NothingLost(run, i - 1, x); }
      CoversNext(run, i, x);
    }
  }

  ghost predicate Quiet(s: State) {
    && (forall t :: 0 <= t < |s.tickets.pcs| ==> s.tickets.pcs[t].Idle?)
    && (forall t :: 0 <= t < |s.blocks.consumers| ==> s.blocks.consumers[t].Free?)
  }

  /** When every call has finished, the delivered elements are exactly those below
      `headIndex`, and the counters of the ticket protocol agree on that. */
  lemma QuietMeansDelivered(run: seq<State>, i: nat, x: nat)
    requires IsRun(run) && T.Tame(TicketRun(run)) && i < |run| && Quiet(run[i])
    ensures var s := run[i];
      && s.tickets.count - s.tickets.over == s.blocks.head <= s.blocks.tail == |s.blocks.items|
      && (x < s.blocks.head <==> exists k :: 0 <= k < |s.blocks.delivered| && B.Within(s.blocks.delivered[k], x))
  {
    var fates, g := RunInv(run, i);
    T.InvBoundsHead(run[i].tickets, fates);
    T.TotalIdle(T.Undecided, run[i].tickets.pcs);
    T.TotalIdle(T.ToClaim, run[i].tickets.pcs);
    T.TotalIdle(T.ToGiveBack, run[i].tickets.pcs);
    if x < run[i].blocks.head { NothingLost(run, i, x); }
    if k :| 0 <= k < |run[i].blocks.delivered| && B.Within(run[i].blocks.delivered[k], x) {
      assert B.DeliveryOk(run[i].blocks, run[i].blocks.delivered[k]);
    }
  }

  /** What is proved above holds of every run in which at most 2^63 + 2 elements are asked
      for in all. */
  lemma FewRequestsAreTame(run: seq<State>)
    requires IsRun(run) && run[|run| - 1].tickets.count <= T.MOST
    ensures T.Tame(TicketRun(run))
  {
  }
}
