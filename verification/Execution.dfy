/** execute_in_subprocess: the polling loop against a deadline, and the ways out of it. */
module Execution {
  import opened Basics

  // What the child sends: an answer, a failure with its code, or nothing before its end of the pipe.
  datatype Payload<A> = Answered(answer: A) | Refused(code: Code) | EndOfFile
  datatype Code = LimitCode | TimeoutCode | OtherCode

  // Interrupted: what monitor raised (cancellation, shutdown, no room for the staged bytes).
  // NotStarted: the process could not be started. Stuck: it outlived SIGKILL, and close() raises.
  datatype Exit<A> = Answer(answer: A) | TimedOut | Interrupted | LimitExceeded | ExecutionFailed | NotStarted | Stuck

  // What the parent sees of the world: whether the i-th poll finds the pipe readable, whether the
  // i-th call of monitor passes, and the monotonic clock after the i-th poll.
  datatype Watch = Watch(readable: nat -> bool, calm: nat -> bool, clock: nat -> int)

  /** Polls take time: the clock advances from one to the next. */
  ghost predicate Ticks(w: Watch) { forall i: nat :: w.clock(i) < w.clock(i + 1) }

  /** Poll i finds nothing, monitor passes and the deadline is ahead. */
  predicate Waits(w: Watch, i: nat, deadline: int) { !w.readable(i) && w.calm(i) && w.clock(i) < deadline }

  function ExitOf<A>(p: Payload<A>): Exit<A> {
    match p
    case Answered(a) => Answer(a)
    case Refused(LimitCode) => LimitExceeded
    case Refused(TimeoutCode) => TimedOut
    case _ => ExecutionFailed
  }

  datatype Signal = Term | Kill

  // Whether the child can be started, and whether it ends while joined: by itself, after SIGTERM,
  // after SIGKILL.
  datatype Nature = Nature(starts: bool, byItself: bool, onTerm: bool, onKill: bool)

  class Process {
    const nature: Nature
    var started: bool
    var alive: bool
    var signals: seq<Signal>
    var closed: bool

    constructor (nature: Nature)
      ensures this.nature == nature && New()
    {
      this.nature := nature;
      started, alive, signals, closed := false, false, [], false;
    }

    predicate New() reads this { !started && !alive && signals == [] && !closed }

    method Start() returns (ok: bool)
      requires New()
      modifies this
      ensures ok == nature.starts && started == ok && alive == ok && signals == [] && !closed
    {
      ok := nature.starts;
      started, alive := ok, ok;
    }

    method Join(ends: bool)
      modifies this`alive
      ensures alive == (old(alive) && !ends)
    {
      if ends { alive := false; }
    }

    /** stop_process: nothing is signalled that ends by itself, SIGKILL comes only after SIGTERM had
        its time, and only a child that outlives SIGKILL is left running, with an exception. */
    method Stop() returns (ok: bool)
      requires alive == started && signals == [] && !closed
      modifies this
      ensures started == old(started) && (closed <==> started && ok)
      ensures ok <==> !alive
      ensures alive <==> started && !nature.byItself && !nature.onTerm && !nature.onKill
      ensures |signals| <= 2
      ensures |signals| >= 1 <==> started && !nature.byItself
      ensures |signals| == 2 <==> started && !nature.byItself && !nature.onTerm
      ensures |signals| >= 1 ==> signals[0] == Term
      ensures |signals| == 2 ==> signals[1] == Kill
    {
      if !started { return true; }
      Join(nature.byItself);
      if alive {
        signals := signals + [Term];
        Join(nature.onTerm);
      }
      if alive {
        signals := signals + [Kill];
        Join(nature.onKill);
      }
      if alive { return false; }
      closed := true;
      return true;
    }
  }

  /** What the wait ends with: at the first poll that is readable, whose monitor raises, or that comes
      at or after the deadline, in this order; an answer counts only if monitor passes once more. */
  function WaitEnds<A>(w: Watch, polls: nat, payload: Payload<A>): Exit<A> {
    if !w.readable(polls) then (if w.calm(polls) then TimedOut else Interrupted)
    else if payload.EndOfFile? then ExecutionFailed
    else if !w.calm(polls) then Interrupted
    else ExitOf(payload)
  }

  /** What the caller gets of a child that started and could be stopped. Nothing came: the time was up, or
      monitor raised. The pipe ended: the execution failed. Something came and monitor raised: that. Something
      came undisturbed: the child's answer if it is one, else the exit of its failure code. */
  ghost predicate Delivers<A>(readable: bool, calm: bool, payload: Payload<A>, exit: Exit<A>) {
    && (!readable ==> exit == if calm then TimedOut else Interrupted)
    && (readable && payload.EndOfFile? ==> exit == ExecutionFailed)
    && (readable && !calm && !payload.EndOfFile? ==> exit == Interrupted)
    && (readable && calm ==>
          && (exit.Answer? <==> payload.Answered?) && (exit.Answer? ==> exit.answer == payload.answer)
          && (exit.LimitExceeded? <==> payload == Refused(LimitCode))
          && (exit.TimedOut? <==> payload == Refused(TimeoutCode))
          && (exit.ExecutionFailed? <==> payload == Refused(OtherCode) || payload.EndOfFile?))
  }

  /** `polls` counts the polls that found nothing. Whatever the outcome, answer, timeout, interruption
      or failure, the child no longer runs when it is known, unless it outlived SIGKILL: that is an
      outcome of its own. */
  method ExecuteInSubprocess<A>(child: Process, w: Watch, deadline: int, payload: Payload<A>) returns (exit: Exit<A>,
                                polls: nat)
    requires child.New() && Ticks(w)
    modifies child
    ensures child.alive <==> exit.Stuck?
    ensures exit.NotStarted? <==> !child.nature.starts
    ensures child.closed <==> !exit.NotStarted? && !exit.Stuck?
    ensures exit.Stuck? <==>
      child.nature.starts && !child.nature.byItself && !child.nature.onTerm && !child.nature.onKill
    ensures child.nature.starts ==> (forall i: nat :: i < polls ==> Waits(w, i, deadline)) && !Waits(w, polls, deadline)
    ensures !exit.NotStarted? && !exit.Stuck? ==> Delivers(w.readable(polls), w.calm(polls), payload, exit)
  {
    polls := 0;
    var started := child.Start();
    if !started {
      exit := NotStarted;
    } else {
      exit, polls := Await(w, deadline, payload);
    }
    var stopped := child.Stop();
    if !stopped { exit := Stuck; }
  }

  /** The polling loop. */
  method Await<A>(w: Watch, deadline: int, payload: Payload<A>) returns (exit: Exit<A>, polls: nat)
    requires Ticks(w)
    ensures forall i: nat :: i < polls ==> Waits(w, i, deadline)
    ensures !Waits(w, polls, deadline)
    ensures exit == WaitEnds(w, polls, payload) && !exit.NotStarted? && !exit.Stuck?
  {
    polls := 0;
    while !w.readable(polls) && w.calm(polls) && w.clock(polls) < deadline
      invariant forall i: nat :: i < polls ==> Waits(w, i, deadline)
      decreases deadline - w.clock(polls)
    {
      polls := polls + 1;
    }
    if !w.readable(polls) {
      exit := if w.calm(polls) then TimedOut else Interrupted;
    } else if payload.EndOfFile? {
      exit := ExecutionFailed;
    } else if !w.calm(polls) {
      exit := Interrupted;
    } else {
      exit := ExitOf(payload);
    }
  }

  lemma {:induction false} ClockClimbs(w: Watch, i: nat)
    requires Ticks(w)
    ensures w.clock(i) >= w.clock(0) + i
  {
    if i > 0 { ClockClimbs(w, i - 1); }
  }

  /** No wait outlasts its deadline by more than the poll that discovers it. */
  lemma WaitIsBounded(w: Watch, deadline: int, polls: nat)
    requires Ticks(w) && forall i: nat :: i < polls ==> Waits(w, i, deadline)
    ensures polls > 0 ==> w.clock(polls - 1) < deadline && polls <= deadline - w.clock(0)
  {
    if polls > 0 {
      ClockClimbs(w, polls - 1);
      assert Waits(w, polls - 1, deadline);
    }
  }

  /** recovery_lock's retries: `free` tells whether the i-th non-blocking attempt succeeds. The lock
      is taken at the first attempt that succeeds, unless one that failed came at or after the
      deadline. */
  method AcquireRecoveryLock(free: nat -> bool, clock: nat -> int, deadline: int) returns (got: bool, failures: nat)
    requires Ticks(Watch(free, free, clock))
    ensures forall i: nat :: i < failures ==> !free(i) && clock(i) < deadline
    ensures got <==> free(failures)
    ensures !got ==> clock(failures) >= deadline
    ensures got <==> exists n: nat :: free(n) && forall i: nat :: i < n ==> clock(i) < deadline
  {
    failures := 0;
    while !free(failures) && clock(failures) < deadline
      invariant forall i: nat :: i < failures ==> !free(i) && clock(i) < deadline
      decreases deadline - clock(failures)
    {
      assert Watch(free, free, clock).clock(failures) < Watch(free, free, clock).clock(failures + 1);
      failures := failures + 1;
    }
    got := free(failures);
  }
}
