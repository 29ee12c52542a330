/** The implicit producers of a queue together with their tickets: for each producer the
    ticket protocol decides which dequeuer may advance `headIndex`.  That a claim never runs
    ahead of the published elements, which `ImplicitProducers` asks of its callers, is proved
    of the tickets, so that everything proved there holds here. */
module ImplicitQueue {
  import T = DequeueTickets
  import I = ImplicitProducers

  /** Thread `t` of each producer's tickets and consumer `t` are the same thread. */
  datatype State = State(tickets: seq<T.State>, queue: I.State)

  ghost predicate Init(s: State) {
    && I.Begins(s.queue) && |s.tickets| == |s.queue.producers|
    && forall p :: 0 <= p < |s.tickets| ==> T.Init(s.tickets[p]) && |s.tickets[p].pcs| == |s.queue.consumers|
  }

  /** Producer `p` takes a step; publishing is the store of `tailIndex`. */
  ghost predicate Produces(s: State, s': State, p: nat) {
    && I.Produces(s.queue, s'.queue, p) && p < |s.tickets| && p < |s'.queue.producers|
    && s'.tickets == s.tickets[p := s.tickets[p].(tail := |s'.queue.producers[p].items|)]
  }

  /** Thread `t` is in no dequeue but one of producer `p`. */
  ghost predicate Busy(s: State, p: nat, t: nat) {
    && p < |s.tickets| && t < |s.tickets[p].pcs| && t < |s.queue.consumers| && s.queue.consumers[t].Free?
    && forall q :: 0 <= q < |s.tickets| && q != p && t < |s.tickets[q].pcs| ==> s.tickets[q].pcs[t].Idle?
  }

  /** A step before `headIndex` is advanced. */
  ghost predicate TakesTicket(s: State, s': State, p: nat, t: nat) {
    && Busy(s, p, t) && !s.tickets[p].pcs[t].AddHead?
    && p < |s'.tickets| && T.StepOf(s.tickets[p], s'.tickets[p], t)
    && s' == State(s.tickets[p := s'.tickets[p]], s.queue)
  }

  /** `headIndex.fetch_add`, the one access both parts share. */
  ghost predicate AdvancesHead(s: State, s': State, p: nat, t: nat) {
    && Busy(s, p, t) && s.tickets[p].pcs[t].AddHead? && p < |s.queue.producers|
    && s'.tickets == s.tickets[p := T.Advance(s.tickets[p], t)]
    && var n, x := s.tickets[p].pcs[t].granted, s.queue.producers[p];
       s'.queue == if n == 0 then s.queue
                   else I.Goto(I.SetProducer(s.queue, p, x.(head := x.head + n)), t,
                               I.LoadIndex(I.Claim(p, x.head, x.head + n)))
  }

  ghost predicate Reads(s: State, s': State, t: nat) {
    I.Consumes(s.queue, s'.queue, t) && s'.tickets == s.tickets
  }

  ghost predicate Step(s: State, s': State) {
    || (exists p :: Produces(s, s', p))
    || (exists p, t :: TakesTicket(s, s', p, t))
    || (exists p, t :: AdvancesHead(s, s', p, t))
    || (exists t :: Reads(s, s', t))
  }

  ghost predicate StepAt(run: seq<State>, i: nat)
    requires i + 1 < |run|
  {
    Step(run[i], run[i + 1])
  }

  ghost predicate IsRun(run: seq<State>) {
    run != [] && Init(run[0]) && forall i :: 0 <= i < |run| - 1 ==> StepAt(run, i)
  }

  lemma RunStep(run: seq<State>, i: nat)
    requires IsRun(run) && 0 < i < |run|
    ensures Step(run[i - 1], run[i])
  {
    assert StepAt(run, i - 1);
  }

  // ---- what both parts agree on ----------------------------------------------

  ghost predicate Coupled(s: State) {
    && |s.tickets| == |s.queue.producers|
    && forall p :: 0 <= p < |s.tickets| ==> CoupledAt(s, p)
  }

  ghost predicate CoupledAt(s: State, p: nat)
    requires p < |s.tickets| && p < |s.queue.producers|
  {
    && s.tickets[p].tail == |s.queue.producers[p].items| && s.tickets[p].head == s.queue.producers[p].head
    && |s.tickets[p].pcs| == |s.queue.consumers|
  }

  lemma TicketKeeps(s: T.State, s': T.State, t: nat)
    requires t < |s.pcs| && !s.pcs[t].AddHead? && T.StepOf(s, s', t)
    ensures s'.head == s.head && s'.tail == s.tail && |s'.pcs| == |s.pcs|
  {
  }

  /** A step keeps them in agreement, and is a step of each producer's tickets, or none. */
  lemma StepCouples(s: State, s': State)
    requires Coupled(s) && Step(s, s')
    ensures Coupled(s')
    ensures forall q :: 0 <= q < |s.tickets| ==> T.Step(s.tickets[q], s'.tickets[q])
  {
    if p: nat :| Produces(s, s', p) {
      I.ProduceMoves(s.queue, s'.queue, p);
      ProducesCouples(s, s', p);
    } else if p: nat, t: nat :| TakesTicket(s, s', p, t) {
      TicketCouples(s, s', p, t);
    } else if p: nat, t: nat :| AdvancesHead(s, s', p, t) {
      HeadCouples(s, s', p, t);
    } else {
      var t: nat :| Reads(s, s', t);
      I.ConsumeMoves(s.queue, s'.queue, t);
      forall q | 0 <= q < |s.tickets| ensures CoupledAt(s', q) && T.Publish(s.tickets[q], s'.tickets[q]) {
        assert CoupledAt(s, q);
      }
    }
  }

  lemma ProducesCouples(s: State, s': State, p: nat)
    requires Coupled(s) && Produces(s, s', p)
    requires |s'.queue.consumers| == |s.queue.consumers| && |s'.queue.producers| == |s.queue.producers|
    requires forall q :: 0 <= q < |s.queue.producers| ==> I.Moves(s.queue, s'.queue, q)
    requires forall q :: 0 <= q < |s.queue.producers| && q != p ==> s'.queue.producers[q] == s.queue.producers[q]
    ensures Coupled(s')
    ensures forall q :: 0 <= q < |s.tickets| ==> T.Step(s.tickets[q], s'.tickets[q])
  {
    forall q | 0 <= q < |s.tickets| ensures CoupledAt(s', q) && T.Publish(s.tickets[q], s'.tickets[q]) {
      assert CoupledAt(s, q) && I.Moves(s.queue, s'.queue, q);
    }
  }

  lemma TicketCouples(s: State, s': State, p: nat, t: nat)
    requires Coupled(s) && TakesTicket(s, s', p, t)
    ensures Coupled(s')
    ensures forall q :: 0 <= q < |s.tickets| ==> T.Step(s.tickets[q], s'.tickets[q])
  {
    TicketKeeps(s.tickets[p], s'.tickets[p], t);
    forall q | 0 <= q < |s.tickets| ensures CoupledAt(s', q) && T.Step(s.tickets[q], s'.tickets[q]) {
      assert CoupledAt(s, q);
      if q != p { assert T.Publish(s.tickets[q], s'.tickets[q]); }
    }
  }

  lemma HeadCouples(s: State, s': State, p: nat, t: nat)
    requires Coupled(s) && AdvancesHead(s, s', p, t)
    ensures Coupled(s')
    ensures forall q :: 0 <= q < |s.tickets| ==> T.Step(s.tickets[q], s'.tickets[q])
  {
    assert T.StepOf(s.tickets[p], s'.tickets[p], t);
    forall q | 0 <= q < |s.tickets| ensures CoupledAt(s', q) && T.Step(s.tickets[q], s'.tickets[q]) {
      assert CoupledAt(s, q);
      if q != p { assert T.Publish(s.tickets[q], s'.tickets[q]); }
    }
  }

  lemma {:induction false} RunCoupled(run: seq<State>, i: nat)
    requires IsRun(run) && i < |run|
    ensures Coupled(run[i]) && |run[i].tickets| == |run[0].tickets|
  {
    if i == 0 {
      InitCoupled(run[0]);
    } else {
      RunCoupled(run, i - 1);
      RunStep(run, i);
      StepCouples(run[i - 1], run[i]);
    }
  }

  lemma InitCoupled(s: State)
    requires Init(s)
    ensures Coupled(s)
  {
  }

  lemma SameProducers(run: seq<State>)
    requires IsRun(run)
    ensures forall i :: 0 <= i < |run| ==> |run[i].tickets| == |run[0].tickets|
  {
    forall i | 0 <= i < |run| ensures |run[i].tickets| == |run[0].tickets| { RunCoupled(run, i); }
  }

  // ---- the run of one producer's tickets, and the run of the blocks --------------

  /** What the run is for the tickets of producer `p`. */
  ghost function TicketRun(run: seq<State>, p: nat): (r: seq<T.State>)
    requires IsRun(run) && p < |run[0].tickets|
    ensures |r| == |run| && forall i :: 0 <= i < |run| ==> p < |run[i].tickets| && r[i] == run[i].tickets[p]
  {
    SameProducers(run);
    seq(|run|, i requires 0 <= i < |run| => run[i].tickets[p])
  }

  lemma TicketsRun(run: seq<State>, p: nat)
    requires IsRun(run) && p < |run[0].tickets|
    ensures T.IsRun(TicketRun(run, p))
  {
    var r := TicketRun(run, p);
    forall i | 0 <= i < |r| - 1 ensures T.StepAt(r, i) {
      RunCoupled(run, i);
      RunStep(run, i + 1);
      StepCouples(run[i], run[i + 1]);
    }
  }

  /** What the run is for the blocks. */
  function BlockRun(run: seq<State>): (r: seq<I.State>)
    ensures |r| == |run|
  {
    seq(|run|, i requires 0 <= i < |run| => run[i].queue)
  }

  /** All producers' tickets are of the runs for which the ticket protocol is right. */
  ghost predicate Tame(run: seq<State>)
    requires IsRun(run)
  {
    forall p :: 0 <= p < |run[0].tickets| ==> T.Tame(TicketRun(run, p))
  }

  /** The tickets keep the promise that the blocks need. */
  lemma ClaimHasRoom(run: seq<State>, i: nat, p: nat, t: nat)
    requires IsRun(run) && Tame(run) && i + 1 < |run| && AdvancesHead(run[i], run[i + 1], p, t)
    requires run[i].tickets[p].pcs[t].granted > 0
    ensures I.Claims(run[i].queue, run[i + 1].queue, t, p, run[i].tickets[p].pcs[t].granted)
  {
    RunCoupled(run, i);
    assert CoupledAt(run[i], p);
    TicketsRun(run, p);
    T.HeadNeverPassesTail(TicketRun(run, p), i);
    T.TotalUpdate(T.ToClaim, run[i].tickets[p].pcs, t, T.Idle);
  }

  lemma BlockStep(run: seq<State>, i: nat)
    requires IsRun(run) && Tame(run) && i + 1 < |run|
    ensures run[i + 1].queue == run[i].queue || I.Step(run[i].queue, run[i + 1].queue)
  {
    var s, s' := run[i], run[i + 1];
    RunStep(run, i + 1);
    if p: nat :| Produces(s, s', p) {
    } else if p: nat, t: nat :| TakesTicket(s, s', p, t) {
    } else if p: nat, t: nat :| AdvancesHead(s, s', p, t) {
      if s.tickets[p].pcs[t].granted > 0 { ClaimHasRoom(run, i, p, t); }
    } else {
      var t: nat :| Reads(s, s', t);
    }
  }

  /** Hence whatever is proved of the runs of `ImplicitProducers` holds here. */
  lemma BlocksRun(run: seq<State>)
    requires IsRun(run) && Tame(run)
    ensures I.IsRun(BlockRun(run))
  {
    var r := BlockRun(run);
    forall i | 0 <= i < |r| - 1 ensures I.StepAt(r, i) { BlockStep(run, i); }
  }

  /** With no dequeue in progress the counters of each producer agree, and every element
      below its `headIndex`, and no other one, was returned, by exactly one call and with the
      value enqueued at its index. */
  lemma QuietMeansDelivered(run: seq<State>, i: nat, p: nat, x: nat) returns (k: nat)
    requires IsRun(run) && Tame(run) && i < |run| && p < |run[0].tickets|
    requires forall t :: 0 <= t < |run[i].queue.consumers| ==> run[i].queue.consumers[t] == I.Free
    requires p < |run[i].tickets| && forall t :: 0 <= t < |run[i].tickets[p].pcs| ==> run[i].tickets[p].pcs[t].Idle?
    ensures p < |run[i].queue.producers|
    ensures var s, y := run[i].tickets[p], run[i].queue.producers[p];
      s.count - s.over == s.head == y.head <= s.tail == |y.items|
    ensures forall j :: 0 <= j < |run[i].queue.delivered| ==>
              (I.Delivers(run[i].queue.delivered[j], p, x) == 1 <==> x < run[i].tickets[p].head && j == k)
    ensures x < run[i].tickets[p].head ==>
      && k < |run[i].queue.delivered|
      && var d := run[i].queue.delivered[k];
         d.first <= x < d.first + |d.values| && d.values[x - d.first] == run[i].queue.producers[p].items[x]
  {
    RunCoupled(run, i);
    RunCoupled(run, 0);
    assert CoupledAt(run[i], p);
    TicketsRun(run, p);
    T.QuietCountIsExact(TicketRun(run, p), i);
    T.HeadNeverPassesTail(TicketRun(run, p), i);
    BlocksRun(run);
    k := I.QuietMeansDelivered(BlockRun(run), i, p, x);
  }
}
