/** The queue between two threads of a pipeline (messageQueue.h) and its shutdown: the
    producing thread sets `done_` after its last push, the consuming thread (the main
    loops of DataSender and RestoreWriter) leaves when it has seen the flag and then an
    empty queue.

    Items are represented by their numbers in the order of production. The steps of
    `try_enqueue` and `try_dequeue` are those of the lock-free queue underneath. */
module MessageQueue {
  import Q = ReaderWriterQueue
  import opened Data

  /** `Ready`: about to push the next item, or to set the flag after the last one. */
  datatype PushPc = Ready | Pushing | Finished

  /** `last` is `jobDoneFlag`. */
  datatype PopPc = LoadDone | LoadEmpty | Pop(last: bool) | Popping(last: bool) | Exited

  /** `items` is how many items the producing thread has, `pushed` how many of them have
      been pushed. */
  datatype State = State(queue: Q.State, items: nat, pushed: nat, done: bool, push: PushPc, pop: PopPc)

  /** One step of the producing thread; `Push` repeats `try_enqueue` until it succeeds. */
  ghost function PushStep(s: State): State
    requires Q.InRange(s.queue)
  {
    match s.push
    case Ready =>
      if s.pushed < s.items then s.(queue := Q.Produce(s.queue, s.pushed, false), push := Pushing)
      else s.(done := true, push := Finished)
    case Pushing =>
      var q := Q.Produce(s.queue, s.pushed, false);
      if q.producer != Q.PIdle then s.(queue := q)
      else s.(queue := q, push := Ready, pushed := if |q.enqueued| > |s.queue.enqueued| then s.pushed + 1 else s.pushed)
    case Finished => s
  }

  /** `IsEmpty`: `size_approx` is zero. It is called after `done_` has been seen, when the
      producer has stopped and the queue has one user left, so that its loads can be one
      step (`AskedAlone`). */
  ghost predicate IsEmpty(q: Q.State)
    requires Q.InRange(q)
  {
    |Q.Walk(q, q.frontBlock, |q.blocks|)| == 0
  }

  /** One step of the consuming thread. */
  ghost function PopStep(s: State): State
    requires Q.InRange(s.queue)
  {
    match s.pop
    case LoadDone => s.(pop := if s.done then LoadEmpty else Pop(false))
    case LoadEmpty => s.(pop := Pop(IsEmpty(s.queue)))
    case Pop(last) => s.(queue := Q.Consume(s.queue), pop := Popping(last))
    case Popping(last) =>
      var q := Q.Consume(s.queue);
      if q.consumer != Q.CIdle then s.(queue := q)
      else s.(queue := q, pop := if last then Exited else LoadDone)
    case Exited => s
  }

  ghost predicate Step(s: State, s': State) {
    Q.InRange(s.queue) && (s' == PushStep(s) || s' == PopStep(s))
  }

  ghost predicate Init(s: State) {
    && Q.Init(s.queue) && s.queue.largest > 1
    && s.pushed == 0 && !s.done && s.push == Ready && s.pop == LoadDone
  }

  // ---- the invariant -----------------------------------------------------

  function Numbers(n: nat): seq<nat> { seq(n, i => i) }

  predicate Carries(pc: Q.ProducerPc, v: Q.Value) { pc == Q.PIdle || pc.v == v }

  predicate PushOk(s: State) {
    && s.queue.enqueued == Numbers(s.pushed) && s.pushed <= s.items
    && (s.push == Pushing ==> s.pushed < s.items && Carries(s.queue.producer, s.pushed))
    && (s.push != Pushing ==> s.queue.producer == Q.PIdle)
    && (s.push == Finished <==> s.done) && (s.done ==> s.pushed == s.items)
  }

  predicate Leaving(pc: PopPc) { pc == Exited || pc == Pop(true) || pc == Popping(true) }

  predicate PopOk(s: State) {
    && (!s.pop.Popping? ==> s.queue.consumer == Q.CIdle)
    && (s.pop == LoadEmpty ==> s.done)
    && (Leaving(s.pop) ==> s.done && s.queue.dequeued == s.queue.enqueued)
  }

  ghost predicate Inv(s: State, g: Q.Ghost) {
    Q.Inv(s.queue, g) && PushOk(s) && PopOk(s)
  }

  // ---- the steps of the inner queue ---------------------------------------

  lemma ProduceCarries(q: Q.State, v: Q.Value)
    requires Q.InRange(q) && Carries(q.producer, v)
    ensures var q' := Q.Produce(q, v, false);
            && q'.dequeued == q.dequeued && q'.consumer == q.consumer && Carries(q'.producer, v)
            && (q'.enqueued == q.enqueued || (q'.enqueued == q.enqueued + [v] && q'.producer == Q.PIdle))
            && (q.producer == Q.PIdle ==> q'.enqueued == q.enqueued)
  {
  }

  lemma ConsumeTakes(q: Q.State)
    requires Q.InRange(q)
    ensures var q' := Q.Consume(q);
            && q'.enqueued == q.enqueued && q'.producer == q.producer
            && (q'.dequeued == q.dequeued || |q'.dequeued| == |q.dequeued| + 1)
            && q.dequeued <= q'.dequeued
  {
  }

  lemma PushKeeps(s: State)
    requires Q.InRange(s.queue) && PushOk(s) && PopOk(s)
    ensures PushOk(PushStep(s)) && PopOk(PushStep(s))
  {
    if s.push == Pushing || (s.push == Ready && s.pushed < s.items) {
      ProduceCarries(s.queue, s.pushed);
      assert Numbers(s.pushed + 1) == Numbers(s.pushed) + [s.pushed];
    }
  }

  lemma PushInv(s: State, g: Q.Ghost) returns (g': Q.Ghost)
    requires Inv(s, g) && Q.InRange(s.queue)
    ensures Inv(PushStep(s), g')
  {
    PushKeeps(s);
    g' := g;
    if s.push == Pushing || (s.push == Ready && s.pushed < s.items) { g' := Q.ProduceInv(s.queue, g, s.pushed, false); }
  }

  lemma PopKeeps(s: State)
    requires Q.InRange(s.queue) && PushOk(s) && PopOk(s)
    requires s.queue.dequeued == s.queue.enqueued && (s.pop.Pop? || s.pop.Popping?)
             ==> Q.Consume(s.queue).dequeued == s.queue.dequeued
    requires s.pop == LoadEmpty && IsEmpty(s.queue) ==> s.queue.dequeued == s.queue.enqueued
    ensures PushOk(PopStep(s)) && PopOk(PopStep(s))
  {
    ConsumeTakes(s.queue);
  }

  /** An empty queue looks empty, and only an empty one. */
  lemma EmptyIsEmpty(q: Q.State, g: Q.Ghost)
    requires Q.Inv(q, g) && Q.InRange(q) && q.producer == Q.PIdle
    ensures IsEmpty(q) <==> q.dequeued == q.enqueued
  {
    Q.WalkIsRest(q, g);
  }

  lemma PopInv(s: State, g: Q.Ghost) returns (g': Q.Ghost)
    requires Inv(s, g) && Q.InRange(s.queue)
    ensures Inv(PopStep(s), g')
  {
    g' := g;
    if s.pop.Pop? || s.pop.Popping? {
      ConsumeTakes(s.queue);
      g' := Q.ConsumeInv(s.queue, g);
      NoMore(s.queue, g, Q.Consume(s.queue), g');
    } else if s.pop == LoadEmpty {
      EmptyIsEmpty(s.queue, g);
    }
    PopKeeps(s);
  }

  /** Nothing is taken from an empty queue. */
  lemma NoMore(q: Q.State, g: Q.Ghost, q': Q.State, g': Q.Ghost)
    requires Q.Inv(q, g) && Q.Inv(q', g') && q'.enqueued == q.enqueued && q.dequeued <= q'.dequeued
    ensures q.dequeued == q.enqueued ==> q'.dequeued == q'.enqueued
  {
  }

  lemma StepInv(s: State, g: Q.Ghost, s': State) returns (g': Q.Ghost)
    requires Inv(s, g) && Step(s, s')
    ensures Inv(s', g')
  {
    if s' == PushStep(s) { g' := PushInv(s, g); } else { g' := PopInv(s, g); }
  }

  // ---- runs --------------------------------------------------------------

  ghost predicate StepAt(run: seq<State>, i: nat)
    requires i + 1 < |run|
  {
    Step(run[i], run[i + 1])
  }

  ghost predicate IsRun(run: seq<State>) {
    run != [] && Init(run[0]) && forall i :: 0 <= i < |run| - 1 ==> StepAt(run, i)
  }

  lemma InitInv(s: State) returns (g: Q.Ghost)
    requires Init(s)
    ensures Inv(s, g)
  {
    g := Q.InitInv(s.queue);
  }

  lemma RunStep(run: seq<State>, i: nat)
    requires IsRun(run) && 0 < i < |run|
    ensures Step(run[i - 1], run[i]) && run[i].items == run[i - 1].items
  {
    assert StepAt(run, i - 1);
  }

  lemma {:induction false} RunInv(run: seq<State>, i: nat) returns (g: Q.Ghost)
    requires IsRun(run) && i < |run|
    ensures Inv(run[i], g) && run[i].items == run[0].items
  {
    if i == 0 {
      g := InitInv(run[0]);
    } else {
      var g0 := RunInv(run, i - 1);
      RunStep(run, i);
      g := StepInv(run[i - 1], g0, run[i]);
    }
  }

  /** Items are taken in the order in which they were produced, each once; when the
      consuming thread has left, all of them have been taken and the queue is empty, so
      that the check in its destructor does not fail. */
  lemma ExitsAfterLastItem(run: seq<State>, i: nat)
    requires IsRun(run) && i < |run|
    ensures run[i].queue.dequeued <= Numbers(run[0].items)
    ensures run[i].pop == Exited ==> run[i].queue.dequeued == Numbers(run[0].items)
    ensures run[i].pop == Exited ==> Q.InRange(run[i].queue) && IsEmpty(run[i].queue)
  {
    var g := RunInv(run, i);
    Q.InvInRange(run[i].queue, g);
    Q.WalkIsRest(run[i].queue, g);
  }

  /** While the consuming thread asks whether the queue is empty, the other one does
      nothing any more. */
  lemma AskedAlone(run: seq<State>, i: nat)
    requires IsRun(run) && i < |run| && run[i].pop == LoadEmpty
    ensures Q.InRange(run[i].queue) && PushStep(run[i]) == run[i]
  {
    var g := RunInv(run, i);
    Q.InvInRange(run[i].queue, g);
  }

  /** The items with the numbers in `order`. */
  function Taken<T>(items: seq<T>, order: seq<Q.Value>): (r: seq<T>)
    requires forall i :: 0 <= i < |order| ==> 0 <= order[i] < |items|
    ensures |r| == |order|
  {
    seq(|order|, i requires 0 <= i < |order| => items[order[i]])
  }

  lemma TakenAll<T>(items: seq<T>)
    ensures Taken(items, Numbers(|items|)) == items
  {
  }
}
