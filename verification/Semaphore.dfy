/** The semaphore of the blocking queue (`LightweightSemaphore` in atomicops.h): a counter
    that goes below zero while its one waiter sleeps on a kernel semaphore.

    One step of the model is one atomic access of the counter or one call of the kernel
    semaphore, by the waiter or by the signaller. */
module Semaphore {

  /** `tryWait`, or `wait` with a timeout in microseconds (negative: none). */
  datatype Mode = Try | Wait(timeout: int)

  const SPINS: nat := 1024

  /** The next step of the waiter. */
  datatype WaiterPc =
    | WIdle
    | Load(left: nat, mode: Mode)   // is there a permit? `left` more looks after this one
    | Take                          // there was one: take it
    | Subtract(timeout: int)        // announce a waiter
    | Sleep                         // wait for the kernel semaphore
    | SleepTimed
    | PutBack                       // timed out: withdraw the announcement
    | Retake                        // but a signal had come
    | TryKernel

  /** The next step of `signal(n)`. */
  datatype SignallerPc = SIdle | Add(n: int) | Post

  /** `signalled` sums the arguments of `signal`, `granted` counts the waits that
      returned true and `refused` those that returned false. */
  datatype State = State(
    count: int, kernel: nat, waiter: WaiterPc, signaller: SignallerPc,
    signalled: int, granted: nat, refused: nat)

  function Grant(s: State): State { s.(waiter := WIdle, granted := s.granted + 1) }
  function Refuse(s: State): State { s.(waiter := WIdle, refused := s.refused + 1) }

  /** One step of the waiter. `mode` is the call that starts when it is idle, `expired`
      whether a timed wait runs out; a sleeping waiter stays where it is until the
      kernel semaphore has a permit. */
  function WaitStep(s: State, mode: Mode, expired: bool): State {
    match s.waiter
    case WIdle => s.(waiter := Load(if mode == Try then 0 else SPINS, mode))
    case Load(left, m) =>
      if s.count > 0 then s.(waiter := Take)
      else if left > 0 then s.(waiter := Load(left - 1, m))
      else if m == Try then Refuse(s) else s.(waiter := Subtract(m.timeout))
    case Take => Grant(s.(count := s.count - 1))
    case Subtract(timeout) =>
      var s' := s.(count := s.count - 1);
      if s.count > 0 then Grant(s')
      else s'.(waiter := if timeout < 0 then Sleep else if timeout > 0 then SleepTimed else PutBack)
    case Sleep => if s.kernel > 0 then Grant(s.(kernel := s.kernel - 1)) else s
    case SleepTimed =>
      if expired then s.(waiter := PutBack) else if s.kernel > 0 then Grant(s.(kernel := s.kernel - 1)) else s
    case PutBack => if s.count < 0 then Refuse(s.(count := s.count + 1)) else s.(count := s.count + 1, waiter := Retake)
    case Retake => s.(count := s.count - 1, waiter := if s.count > 0 then TryKernel else PutBack)
    case TryKernel => if s.kernel > 0 then Grant(s.(kernel := s.kernel - 1)) else s.(waiter := PutBack)
  }

  /** One step of the signaller; `SIdle` starts `signal(n)`. */
  function SignalStep(s: State, n: int): State {
    match s.signaller
    case SIdle => s.(signaller := Add(n))
    case Add(m) => s.(count := s.count + m, signalled := s.signalled + m, signaller := if s.count < 0 then Post
        else SIdle)
    case Post => s.(kernel := s.kernel + 1, signaller := SIdle)
  }

  ghost predicate Step(s: State, s': State) {
    || (exists mode, expired :: s' == WaitStep(s, mode, expired))
    || (exists n {:trigger SignalStep(s, n)} :: n >= 0 && s' == SignalStep(s, n))
  }

  predicate Init(s: State) {
    s.count >= 0 && s.kernel == 0 && s.waiter == WIdle && s.signaller == SIdle
    && s.signalled == s.count && s.granted == 0 && s.refused == 0
  }

  // ---- the invariant -----------------------------------------------------

  /** The waiter has announced itself: one unit of the counter stands for it. */
  predicate Announced(pc: WaiterPc) {
    pc == Sleep || pc == SleepTimed || pc == PutBack || pc == TryKernel
  }

  /** Kernel permits that exist or are about to. */
  function Posts(s: State): nat { s.kernel + if s.signaller == Post then 1 else 0 }

  predicate Inv(s: State) {
    && s.count == s.signalled - s.granted - (if Announced(s.waiter) then 1 else 0)
    && (s.signaller.Add? ==> s.signaller.n >= 0)
    && (if Announced(s.waiter) then s.count >= (if s.waiter == TryKernel then 0 else -1)
          && Posts(s) == (if s.count == -1 then 0 else 1)
        else if s.waiter == Retake then s.count >= 1 && Posts(s) == 1
        else s.count >= (if s.waiter == Take then 1 else 0) && Posts(s) == 0)
  }

  lemma WaitInv(s: State, mode: Mode, expired: bool)
    requires Inv(s)
    ensures Inv(WaitStep(s, mode, expired))
  {
  }

  /** An argument of zero does no harm while nobody has announced itself in vain. */
  lemma SignalInv(s: State, n: int)
    requires Inv(s) && n >= 0 && (s.signaller == Add(0) ==> s.count >= 0)
    ensures Inv(SignalStep(s, n))
  {
  }

  // ---- runs --------------------------------------------------------------

  ghost predicate StepAt(run: seq<State>, i: nat)
    requires i + 1 < |run|
  {
    Step(run[i], run[i + 1])
  }

  ghost predicate IsRun(run: seq<State>) {
    run != [] && Init(run[0]) && forall i :: 0 <= i < |run| - 1 ==> StepAt(run, i)
  }

  /** The step of `signal(0)` meets a count below zero. */
  predicate WakesForNothing(run: seq<State>, i: nat)
    requires i + 1 < |run|
  {
    run[i].signaller == Add(0) && run[i + 1].signaller != Add(0) && run[i].count < 0
  }

  /** `signal(0)`, which its assertion allows, is called only when no waiter is left. */
  predicate Harmless(run: seq<State>) {
    forall i :: 0 <= i < |run| - 1 ==> !WakesForNothing(run, i)
  }

  lemma StepInv(s: State, s': State)
    requires Inv(s) && Step(s, s') && (s.signaller == Add(0) && s'.signaller != Add(0) ==> s.count >= 0)
    ensures Inv(s')
  {
    if mode, expired :| s' == WaitStep(s, mode, expired) {
      WaitInv(s, mode, expired);
    } else {
      var n :| n >= 0 && s' == SignalStep(s, n);
      SignalInv(s, n);
    }
  }

  lemma {:induction false} RunInv(run: seq<State>, i: nat)
    requires IsRun(run) && Harmless(run) && i < |run|
    ensures Inv(run[i])
  {
    if i > 0 {
      RunInv(run, i - 1);
      assert StepAt(run, i - 1) && !WakesForNothing(run, i - 1);
      StepInv(run[i - 1], run[i]);
    }
  }

  /** The count never drops below -1, also at the assertion in `signal`; at most one
      kernel permit exists; and each wait that returned true has used up exactly one of
      the signalled permits, one that returned false none. */
  lemma PermitsConserved(run: seq<State>, i: nat)
    requires IsRun(run) && Harmless(run) && i < |run|
    ensures run[i].count >= -1 && run[i].kernel <= 1
    ensures run[i].granted <= run[i].signalled
    ensures !Announced(run[i].waiter) ==> run[i].count == run[i].signalled - run[i].granted >= 0
    ensures Announced(run[i].waiter) ==> run[i].count + 1 == run[i].signalled - run[i].granted
  {
    RunInv(run, i);
  }

  /** No wake-up is lost: while a permit is left, a sleeping waiter finds the kernel
      semaphore posted, or the signaller is about to post it. */
  lemma NoLostWakeup(run: seq<State>, i: nat)
    requires IsRun(run) && Harmless(run) && i < |run|
    requires run[i].waiter == Sleep || run[i].waiter == SleepTimed || run[i].waiter == TryKernel
    ensures run[i].kernel == 1 || run[i].signaller == Post <==> run[i].granted < run[i].signalled
  {
    RunInv(run, i);
  }

  /** A wait returns false only when no permit is left, and the loop after a timeout
      goes round only while the signaller has yet to post. */
  lemma TimeoutIsHonest(run: seq<State>, i: nat)
    requires IsRun(run) && Harmless(run) && i + 1 < |run|
    requires run[i].waiter == PutBack || run[i].waiter == Retake || run[i].waiter == TryKernel
    requires run[i + 1].waiter != run[i].waiter
    ensures run[i].waiter == PutBack && run[i + 1].waiter == WIdle ==> run[i].granted == run[i].signalled
    ensures run[i].waiter == Retake ==> run[i + 1].waiter == TryKernel
    ensures run[i].waiter == TryKernel && run[i + 1].waiter == PutBack ==> run[i].signaller == Post
  {
    RunInv(run, i);
    assert StepAt(run, i);
    if mode, expired :| run[i + 1] == WaitStep(run[i], mode, expired) {
    } else {
      var n :| n >= 0 && run[i + 1] == SignalStep(run[i], n);
    }
  }

  // ---- signal(0) ---------------------------------------------------------

  function Last(run: seq<State>): State
    requires run != []
  {
    run[|run| - 1]
  }

  /** The run goes on after `before` without a further `signal`. */
  ghost predicate GoesOn(before: seq<State>, run: seq<State>) {
    IsRun(run) && before <= run && forall i :: |before| <= i < |run| ==> !run[i].signaller.Add?
  }

  lemma OneMore(before: seq<State>, run: seq<State>, s: State) returns (run': seq<State>)
    requires GoesOn(before, run) && Step(Last(run), s) && !s.signaller.Add?
    ensures GoesOn(before, run') && |run'| == |run| + 1 && Last(run') == s
  {
    run' := run + [s];
    forall i | 0 <= i < |run'| - 1 ensures StepAt(run', i) {
      if i < |run| - 1 { assert StepAt(run, i); }
    }
  }

  lemma Waits(before: seq<State>, run: seq<State>, mode: Mode) returns (run': seq<State>)
    requires GoesOn(before, run) && !Last(run).signaller.Add?
    ensures GoesOn(before, run') && |run'| == |run| + 1 && Last(run') == WaitStep(Last(run), mode, false)
  {
    run' := OneMore(before, run, WaitStep(Last(run), mode, false));
  }

  /** A waiter that finds no permit looks as often as it may and announces itself. */
  lemma {:induction false} LooksInVain(before: seq<State>, run0: seq<State>, left: nat) returns (run: seq<State>)
    requires GoesOn(before, run0) && Last(run0).signaller == SIdle && Last(run0).count == 0
    requires Last(run0).waiter == Load(left, Wait(-1))
    ensures GoesOn(before, run) && |run| > |run0| && Last(run) == Last(run0).(waiter := Sleep, count := -1)
    decreases left
  {
    run := Waits(before, run0, Try);
    if left > 0 {
      run := LooksInVain(before, run, left - 1);
    } else {
      run := Waits(before, run, Try);
    }
  }

  /** `wait` on a semaphore without permits. */
  lemma FallsAsleep(before: seq<State>, run0: seq<State>) returns (run: seq<State>)
    requires GoesOn(before, run0) && Last(run0).signaller == SIdle && Last(run0).count == 0
             && Last(run0).waiter == WIdle
    ensures GoesOn(before, run) && |run| > |run0| && Last(run) == Last(run0).(waiter := Sleep, count := -1)
  {
    run := Waits(before, run0, Wait(-1));
    run := LooksInVain(before, run, SPINS);
  }

  /** Whatever the state, one `signal(0)` that meets a count below zero is enough: the run
      can go on, without another one, to a wait that returns true without a permit. */
  lemma EmptySignalOvergrants(run0: seq<State>) returns (run: seq<State>)
    requires IsRun(run0) && Harmless(run0) && Last(run0).signaller == Add(0) && Last(run0).count < 0
    ensures GoesOn(run0, run) && |run| > |run0| && Last(run).granted > Last(run).signalled
  {
    RunInv(run0, |run0| - 1);
    var s := Last(run0);
    assert Step(s, SignalStep(s, 0));
    run := OneMore(run0, run0, SignalStep(s, 0));
    assert Step(Last(run), SignalStep(Last(run), 0));
    run := OneMore(run0, run, SignalStep(Last(run), 0));
    assert Last(run) == s.(signaller := SIdle, kernel := s.kernel + 1);
    if s.waiter == PutBack {
      run := Waits(run0, run, Try);
      run := FallsAsleep(run0, run);
    }
    run := Waits(run0, run, Try);
  }

  /** From the start: a waiter falls asleep, and `signal(0)` lets it return true. */
  lemma EmptySignalWakes() returns (run: seq<State>)
    ensures IsRun(run) && Last(run).granted > Last(run).signalled
    ensures forall i :: 0 <= i < |run| && run[i].signaller.Add? ==> run[i].signaller.n == 0
  {
    run := SleepsFirst();
    var before := run;
    run := EmptySignalOvergrants(run);
    forall i | 0 <= i < |run| && run[i].signaller.Add? ensures run[i].signaller.n == 0 {
      if i < |before| { assert run[i] == before[i]; }
    }
  }

  lemma SleepsFirst() returns (run: seq<State>)
    ensures IsRun(run) && Harmless(run) && Last(run).signaller == Add(0) && Last(run).count < 0
    ensures forall i :: 0 <= i < |run| && run[i].signaller.Add? ==> run[i].signaller.n == 0
  {
    var s0 := State(0, 0, WIdle, SIdle, 0, 0, 0);
    var before := FallsAsleep([], [s0]);
    var s := SignalStep(Last(before), 0);
    assert Step(Last(before), s);
    run := before + [s];
    forall i | 0 <= i < |run| - 1 ensures StepAt(run, i) {
      if i < |before| - 1 { assert StepAt(before, i); }
    }
  }

  /** No call of `signal` has an argument below `m`. */
  predicate ArgumentsFrom(run: seq<State>, m: int) {
    forall i :: 0 <= i < |run| && run[i].signaller.Add? ==> run[i].signaller.n >= m
  }

  predicate Conserved(run: seq<State>) { forall i :: 0 <= i < |run| ==> run[i].granted <= run[i].signalled }

  /** Exactly: all runs whose arguments of `signal` are at least `m` conserve the permits if
      and only if `m` is at least one. */
  lemma ConservedExactly(m: int)
    ensures (forall run: seq<State> :: IsRun(run) && ArgumentsFrom(run, m) ==> Conserved(run)) <==> m >= 1
  {
    if m >= 1 {
      forall run: seq<State> | IsRun(run) && ArgumentsFrom(run, m) ensures Conserved(run) {
        forall i | 0 <= i < |run| ensures run[i].granted <= run[i].signalled { PermitsConserved(run, i); }
      }
    } else {
      var run := EmptySignalWakes();
      assert !(run[|run| - 1].granted <= run[|run| - 1].signalled);
    }
  }
}
