/** The blocking queue (`BlockingReaderWriterQueue` in readerwriterqueue.h): a
    `ReaderWriterQueue` and a semaphore that counts its elements. */
module BlockingReaderWriterQueue {
  import Q = ReaderWriterQueue
  import S = Semaphore

  datatype PutPc = PutIdle | Enqueueing | Signalling
  datatype GetPc = GetIdle | Waiting | Dequeueing

  /** `lastGet` is the result of the inner `try_dequeue` of the last call. */
  datatype State = State(queue: Q.State, sema: S.State, put: PutPc, get: GetPc, lastGet: bool)

  /** One step of `enqueue` or `try_enqueue`: a successful inner call is followed by
      `signal`. */
  ghost function Put(s: State, v: Q.Value, alloc: bool): State
    requires Q.InRange(s.queue)
  {
    match s.put
    case PutIdle => s.(queue := Q.Produce(s.queue, v, alloc), put := Enqueueing)
    case Enqueueing =>
      var q := Q.Produce(s.queue, v, alloc);
      if q.producer != Q.PIdle then s.(queue := q)
      else if |q.enqueued| == |s.queue.enqueued| then s.(queue := q, put := PutIdle)
      else s.(queue := q, put := Signalling, sema := S.SignalStep(s.sema, 1))
    case Signalling =>
      var sema := S.SignalStep(s.sema, 1);
      s.(sema := sema, put := if sema.signaller == S.SIdle then PutIdle else Signalling)
  }

  /** One step of `try_dequeue` (`mode` is `Try`), `wait_dequeue` or `wait_dequeue_timed`:
      a successful wait is followed by the inner `try_dequeue`. */
  ghost function Get(s: State, mode: S.Mode, expired: bool): State
    requires Q.InRange(s.queue)
  {
    match s.get
    case GetIdle => s.(sema := S.WaitStep(s.sema, mode, expired), get := Waiting)
    case Waiting =>
      var sema := S.WaitStep(s.sema, mode, expired);
      s.(sema := sema,
         get := if sema.waiter != S.WIdle then Waiting else if sema.granted > s.sema.granted then Dequeueing
             else GetIdle)
    case Dequeueing =>
      var q := Q.Consume(s.queue);
      if q.consumer != Q.CIdle then s.(queue := q)
      else s.(queue := q, get := GetIdle, lastGet := |q.dequeued| > |s.queue.dequeued|)
  }

  ghost predicate Step(s: State, s': State) {
    Q.InRange(s.queue) && ((exists v, alloc :: s' == Put(s, v, alloc))
        || (exists mode, expired :: s' == Get(s, mode, expired)))
  }

  ghost predicate Init(s: State) {
    Q.Init(s.queue) && s.queue.largest > 1 && S.Init(s.sema) && s.sema.count == 0
    && s.put == PutIdle && s.get == GetIdle && s.lastGet
  }

  // ---- the invariant -----------------------------------------------------

  /** Each element is signalled once, each granted wait takes one element. */
  predicate Coupled(s: State) {
    && (s.put != Enqueueing ==> s.queue.producer == Q.PIdle)
    && (s.put == Signalling <==> s.sema.signaller != S.SIdle)
    && (s.sema.signaller.Add? ==> s.sema.signaller.n == 1)
    && (s.get != Dequeueing ==> s.queue.consumer == Q.CIdle)
    && (s.get == Waiting <==> s.sema.waiter != S.WIdle)
    && s.sema.signalled == |s.queue.enqueued| - (if s.sema.signaller.Add? then 1 else 0)
    && s.sema.granted == |s.queue.dequeued| + (if s.get == Dequeueing then 1 else 0)
  }

  /** The inner `try_dequeue` is not on its way to returning false. */
  ghost predicate WillSucceed(q: Q.State) {
    q.consumer == Q.LoadTailBlock ==> q.frontBlock != q.tailBlock
  }

  ghost predicate Inv(s: State, g: Q.Ghost) {
    Q.Inv(s.queue, g) && S.Inv(s.sema) && Coupled(s) && WillSucceed(s.queue) && s.lastGet
  }

  /** While a granted wait has yet to take its element, the queue is not empty. */
  lemma GrantedHasElement(s: State)
    requires S.Inv(s.sema) && Coupled(s)
    ensures s.get == Dequeueing ==> |s.queue.enqueued| > |s.queue.dequeued|
  {
  }

  // ---- one step of the inner queue ---------------------------------------

  lemma ProduceCounts(q: Q.State, v: Q.Value, alloc: bool)
    requires Q.InRange(q)
    ensures var q' := Q.Produce(q, v, alloc);
            && q'.dequeued == q.dequeued && q'.consumer == q.consumer
            && |q'.enqueued| == |q.enqueued| + (if q'.enqueued == q.enqueued then 0 else 1)
            && (q'.enqueued != q.enqueued ==> q'.producer == Q.PIdle)
            && (q.producer == Q.PIdle ==> q'.enqueued == q.enqueued)
  {
  }

  lemma ProduceKeeps(q: Q.State, g: Q.Ghost, v: Q.Value, alloc: bool) returns (g': Q.Ghost)
    requires Q.Inv(q, g) && Q.InRange(q) && WillSucceed(q)
    ensures Q.Inv(Q.Produce(q, v, alloc), g') && WillSucceed(Q.Produce(q, v, alloc))
  {
    g' := Q.ProduceInv(q, g, v, alloc);
    if q.frontBlock != q.tailBlock { Q.TailStaysAhead(q, g, Q.Produce(q, v, alloc)); }
    assert Q.Produces(q, Q.Produce(q, v, alloc));
    Q.ProducesKeeps(q, Q.Produce(q, v, alloc));
    KeepsWill(q, Q.Produce(q, v, alloc));
  }

  lemma KeepsWill(q: Q.State, q': Q.State)
    requires WillSucceed(q) && q'.consumer == q.consumer
    requires q.frontBlock != q.tailBlock ==> q'.frontBlock != q'.tailBlock
    ensures WillSucceed(q')
  {
  }

  /** A call of the inner `try_dequeue` ends with one more element taken. */
  lemma ConsumeEnds(q: Q.State)
    requires Q.InRange(q) && WillSucceed(q)
    ensures var q' := Q.Consume(q);
            && q'.enqueued == q.enqueued && q'.producer == q.producer
            && |q'.dequeued| == |q.dequeued| + (if q'.consumer == Q.CIdle then 1 else 0)
  {
  }

  lemma ConsumeKeeps(q: Q.State, g: Q.Ghost) returns (g': Q.Ghost)
    requires Q.Inv(q, g) && Q.InRange(q) && |q.enqueued| > |q.dequeued|
    ensures Q.Inv(Q.Consume(q), g') && WillSucceed(Q.Consume(q))
  {
    g' := Q.ConsumeInv(q, g);
    var q' := Q.Consume(q);
    if q'.consumer == Q.LoadTailBlock {
      assert Q.Consumes(q, q');
      Q.BeforeLoadTailBlock(q, q');
      Q.FrontSeenEmpty(q, g);
    }
  }

  // ---- every step keeps the invariant ------------------------------------

  lemma PutInv(s: State, g: Q.Ghost, v: Q.Value, alloc: bool) returns (g': Q.Ghost)
    requires Inv(s, g) && Q.InRange(s.queue)
    ensures Inv(Put(s, v, alloc), g')
  {
    if s.put == Signalling {
      S.SignalInv(s.sema, 1);
      g' := g;
    } else {
      ProduceCounts(s.queue, v, alloc);
      g' := ProduceKeeps(s.queue, g, v, alloc);
      S.SignalInv(s.sema, 1);
    }
  }

  lemma WaitCounts(s: S.State, mode: S.Mode, expired: bool)
    ensures var s' := S.WaitStep(s, mode, expired);
            && s'.signalled == s.signalled && s'.signaller == s.signaller
            && s'.granted == s.granted + (if s'.granted > s.granted then 1 else 0)
            && (s'.granted > s.granted ==> s'.waiter == S.WIdle)
            && (s.waiter == S.WIdle ==> s'.waiter != S.WIdle && s'.granted == s.granted)
  {
  }

  lemma GetInv(s: State, g: Q.Ghost, mode: S.Mode, expired: bool) returns (g': Q.Ghost)
    requires Inv(s, g) && Q.InRange(s.queue)
    ensures Inv(Get(s, mode, expired), g')
  {
    if s.get == Dequeueing {
      GrantedHasElement(s);
      ConsumeEnds(s.queue);
      g' := ConsumeKeeps(s.queue, g);
    } else {
      WaitCounts(s.sema, mode, expired);
      S.WaitInv(s.sema, mode, expired);
      g' := g;
    }
  }

  lemma StepInv(s: State, g: Q.Ghost, s': State) returns (g': Q.Ghost)
    requires Inv(s, g) && Step(s, s')
    ensures Inv(s', g')
  {
    if v, alloc :| s' == Put(s, v, alloc) {
      g' := PutInv(s, g, v, alloc);
    } else {
      var mode, expired :| s' == Get(s, mode, expired);
      g' := GetInv(s, g, mode, expired);
    }
  }

  // ---- runs --------------------------------------------------------------

  ghost predicate StepAt(run: seq<State>, i: nat)
    requires i + 1 < |run|
  {
    Step(run[i], run[i + 1])
  }

  ghost predicate IsRun(run: seq<State>) {
    run != [] && Init(run[0]) && forall i :: 0 <= i < |run| - 1 ==> StepAt(run, i)
  }

  lemma InitInv(s: State) returns (g: Q.Ghost)
    requires Init(s)
    ensures Inv(s, g)
  {
    g := Q.InitInv(s.queue);
  }

  lemma RunStep(run: seq<State>, i: nat)
    requires IsRun(run) && 0 < i < |run|
    ensures Step(run[i - 1], run[i])
  {
    assert StepAt(run, i - 1);
  }

  lemma {:induction false} RunInv(run: seq<State>, i: nat) returns (g: Q.Ghost)
    requires IsRun(run) && i < |run|
    ensures Inv(run[i], g)
  {
    if i == 0 {
      g := InitInv(run[0]);
    } else {
      var g0 := RunInv(run, i - 1);
      RunStep(run, i);
      g := StepInv(run[i - 1], g0, run[i]);
    }
  }

  /** After a granted wait the inner `try_dequeue` never fails, so the assertions on its
      result hold; permits never exceed the elements in the queue; and what comes out is
      what went in, in order. */
  lemma DequeueSucceeds(run: seq<State>, i: nat)
    requires IsRun(run) && i < |run|
    ensures run[i].lastGet
    ensures run[i].sema.count <= |run[i].queue.enqueued| - |run[i].queue.dequeued|
    ensures run[i].get == Dequeueing ==> |run[i].queue.dequeued| < |run[i].queue.enqueued|
    ensures run[i].queue.dequeued <= run[i].queue.enqueued
  {
    var g := RunInv(run, i);
    GrantedHasElement(run[i]);
  }

  /** `size_approx` is exact while neither end is in a call. */
  lemma QuietCountIsSize(run: seq<State>, i: nat)
    requires IsRun(run) && i < |run| && run[i].put == PutIdle && run[i].get == GetIdle
    ensures run[i].sema.count == |run[i].queue.enqueued| - |run[i].queue.dequeued| >= 0
  {
    var g := RunInv(run, i);
  }
}
