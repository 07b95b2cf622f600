/** Semaphores of kern/thread/synch.c: P and V as steps of any number of threads, with the
    semaphore's spinlock and wait channel explicit. */
module Semaphore {
  import opened Common

  /** sem_count is an unsigned int. */
  const WIDTH: nat := 0x1_0000_0000

  /** Where a thread is in P or V. */
  datatype Pc =
    | Out                   // in neither
    | Test(woken: bool)     // P, lock held, about to test sem_count; woken from a sleep or not
    | Asleep                // P, on the wait channel
    | Woken                 // P, taken off the channel, waiting for the lock
    | Taken                 // P, count decremented, lock still held
    | Adding                // V, lock held
    | Waking                // V, count incremented
    | Added                 // V, wakeone done, lock still held

  datatype State = State(count: nat, lock: Option<nat>, queue: seq<nat>, pc: map<nat, Pc>, init: nat, ps: nat, vs: nat)

  datatype Step =
    | PAcquire(t: nat) | PSleep(t: nat) | PReacquire(t: nat) | PTake(t: nat) | PRelease(t: nat)
    | VAcquire(t: nat) | VAdd(t: nat) | VWake(t: nat) | VRelease(t: nat)

  function Set(s: State, t: nat, pc: Pc): (r: State)
  {
    s.(pc := s.pc[t := pc])
  }

  predicate At(s: State, t: nat, pc: Pc)
  {
    t in s.pc && s.pc[t] == pc
  }

  /** Whether a step can happen: the lock is free when it is asked for, the loop test has the
      outcome the step needs, and the assertion in V holds. */
  predicate Enabled(s: State, st: Step)
  {
    match st
    case PAcquire(t) => At(s, t, Out) && s.lock == None
    case PSleep(t) => t in s.pc && s.pc[t].Test? && s.count == 0
    case PReacquire(t) => At(s, t, Woken) && s.lock == None
    case PTake(t) => t in s.pc && s.pc[t].Test? && s.count > 0
    case PRelease(t) => At(s, t, Taken)
    case VAcquire(t) => At(s, t, Out) && s.lock == None
    case VAdd(t) => At(s, t, Adding) && (s.count + 1) % WIDTH > 0
    case VWake(t) => At(s, t, Waking) && (s.queue != [] ==> s.queue[0] in s.pc)
    case VRelease(t) => At(s, t, Added)
  }

  function Apply(s: State, st: Step): (r: State)
    requires Enabled(s, st)
  {
    match st
    case PAcquire(t) => Set(s, t, Test(false)).(lock := Some(t))
    // wchan_sleep queues the thread before it lets go of the lock
    case PSleep(t) => Set(s, t, Asleep).(queue := s.queue + [t], lock := None)
    case PReacquire(t) => Set(s, t, Test(true)).(lock := Some(t))
    case PTake(t) => Set(s, t, Taken).(count := s.count - 1, ps := s.ps + 1)
    case PRelease(t) => Set(s, t, Out).(lock := None)
    case VAcquire(t) => Set(s, t, Adding).(lock := Some(t))
    case VAdd(t) => Set(s, t, Waking).(count := (s.count + 1) % WIDTH, vs := s.vs + 1)
    case VWake(t) =>
      if s.queue == [] then Set(s, t, Added)
      else Set(Set(s, s.queue[0], Woken), t, Added).(queue := s.queue[1..])
    case VRelease(t) => Set(s, t, Out).(lock := None)
  }

  ghost predicate Init(s: State)
  {
    && s.init < WIDTH && s.count == s.init && s.lock == None && s.queue == [] && s.ps == 0 && s.vs == 0
    && forall t :: t in s.pc ==> s.pc[t] == Out
  }

  // ---- Invariant ----

  predicate InLock(pc: Pc)
  {
    pc.Test? || pc == Taken || pc == Adding || pc == Waking || pc == Added
  }

  /** Threads that a V has woken and that have not looked at the count since. */
  function Pending(s: State): (p: set<nat>)
  {
    set t | t in s.pc && (s.pc[t] == Woken || s.pc[t] == Test(true))
  }

  ghost predicate Inv(s: State)
  {
    && s.count + s.ps == s.init + s.vs && s.count < WIDTH
    && (forall t :: t in s.pc ==> (InLock(s.pc[t]) <==> s.lock == Some(t)))
    && NoDup(s.queue)
    && (forall t :: t in s.queue <==> At(s, t, Asleep))
    && (s.queue != [] ==> s.count <= |Pending(s)| + Owed(s))
  }

  /** One wakeup is owed between the increment in V and its wakeone. */
  function Owed(s: State): (n: nat)
  {
    if s.lock.Some? && At(s, s.lock.value, Waking) then 1 else 0
  }

  lemma PendingSet(s: State, t: nat, pc: Pc)
    requires t in s.pc
    ensures var p := pc == Woken || pc == Test(true);
            Pending(Set(s, t, pc)) == if p then Pending(s) + {t} else Pending(s) - {t}
  {
  }

  lemma QueueHead(s: State)
    requires Inv(s) && s.queue != []
    ensures At(s, s.queue[0], Asleep) && s.queue[0] !in s.queue[1..]
  {
    assert s.queue[0] in s.queue;
  }

  lemma PSleepInv(s: State, t: nat)
    requires Inv(s) && Enabled(s, PSleep(t))
    ensures Inv(Apply(s, PSleep(t)))
  {
    assert !At(s, t, Asleep);
    var s' := Apply(s, PSleep(t));
    assert forall x :: x in s'.queue <==> x in s.queue || x == t;
  }

  lemma VWakePending(s: State, t: nat)
    requires Inv(s) && Enabled(s, VWake(t)) && s.queue != []
    ensures |Pending(Apply(s, VWake(t)))| == |Pending(s)| + 1
  {
    var s', x := Apply(s, VWake(t)), s.queue[0];
    QueueHead(s);
    hide NoDup;
    PendingSet(s, x, Woken);
    PendingSet(Set(s, x, Woken), t, Added);
    assert Pending(s') == Pending(s) + {x} && x !in Pending(s);
  }

  lemma VWakeInv(s: State, t: nat)
    requires Inv(s) && Enabled(s, VWake(t)) && s.queue != []
    ensures Inv(Apply(s, VWake(t)))
  {
    hide Pending;
    var s', x := Apply(s, VWake(t)), s.queue[0];
    QueueHead(s);
    VWakePending(s, t);
    assert NoDup(s'.queue);
    hide NoDup;
    assert forall y :: y in s.queue <==> y == x || y in s.queue[1..];
  }

  /** Thread t moves, on no list before or after, and takes or drops the lock as its new place
      says. */
  lemma MoveInv(s: State, s': State, t: nat, pc: Pc)
    requires Inv(s) && t in s.pc && s.pc[t] != Asleep && pc != Asleep
    requires s'.pc == s.pc[t := pc] && s'.queue == s.queue
    requires InLock(pc) <==> s'.lock == Some(t)
    requires forall x :: x != t ==> (s'.lock == Some(x) <==> s.lock == Some(x))
    requires s'.count + s'.ps == s'.init + s'.vs && s'.count < WIDTH
    requires s'.queue != [] ==> s'.count <= |Pending(s')| + Owed(s')
    ensures Inv(s')
  {
    hide Pending, NoDup;
    assert forall x :: At(s', x, Asleep) == At(s, x, Asleep);
  }

  /** The set of woken threads before and after a step. */
  lemma PendingStep(s: State, s': State, t: nat, pc: Pc)
    requires t in s.pc && s'.pc == s.pc[t := pc]
    ensures var p := pc == Woken || pc == Test(true);
            && |Pending(s')| >= |Pending(s)| - (if t in Pending(s) && !p then 1 else 0)
            && (t in Pending(s) <==> s.pc[t] == Woken || s.pc[t] == Test(true))
  {
    if pc == Woken || pc == Test(true) {
      assert Pending(s') == Pending(s) + {t};
      assert t in Pending(s) ==> Pending(s') == Pending(s);
    } else {
      assert Pending(s') == Pending(s) - {t};
    }
  }

  lemma StepInv(s: State, st: Step)
    requires Inv(s) && Enabled(s, st)
    ensures Inv(Apply(s, st))
  {
    if st.PSleep? {
      PSleepInv(s, st.t);
    } else if st.VWake? && s.queue != [] {
      VWakeInv(s, st.t);
    } else {
      var s', t := Apply(s, st), st.t;
      PendingStep(s, s', t, s'.pc[t]);
      assert s.count <= |Pending(s)| + Owed(s) || s.queue == [];
      hide Pending, NoDup;
      assert s'.pc == s.pc[t := s'.pc[t]] && s'.queue == s.queue;
      MoveInv(s, s', t, s'.pc[t]);
    }
  }

  // ---- Runs ----

  ghost predicate IsRun(states: seq<State>, steps: seq<Step>)
  {
    && |states| == |steps| + 1
    && Init(states[0])
    && forall i :: 0 <= i < |steps| ==> Enabled(states[i], steps[i]) && states[i + 1] == Apply(states[i], steps[i])
  }

  lemma {:induction false} RunInv(states: seq<State>, steps: seq<Step>, i: nat)
    requires IsRun(states, steps) && i < |states|
    ensures Inv(states[i])
  {
    if i > 0 {
      RunInv(states, steps, i - 1);
      hide Inv;
      StepInv(states[i - 1], steps[i - 1]);
    } else {
      assert Pending(states[0]) == {};
    }
  }

  /** How many steps of a run are of one kind. */
  function Completed(steps: seq<Step>, v: bool): (n: nat)
  {
    if steps == [] then 0
    else Completed(steps[..|steps| - 1], v)
         + (if (if v then steps[|steps| - 1].VAdd? else steps[|steps| - 1].PTake?) then 1 else 0)
  }

  lemma {:induction false} Counters(states: seq<State>, steps: seq<Step>, i: nat)
    requires IsRun(states, steps) && i < |states|
    ensures states[i].init == states[0].init
    ensures states[i].vs == Completed(steps[..i], true) && states[i].ps == Completed(steps[..i], false)
  {
    if i > 0 {
      Counters(states, steps, i - 1);
      assert steps[..i][..i - 1] == steps[..i - 1];
      assert steps[..i][i - 1] == steps[i - 1];
    }
  }

  /** sem_count = initial + increments by V - decrements by P, in every state of every run. */
  lemma CountBalances(states: seq<State>, steps: seq<Step>, i: nat)
    requires IsRun(states, steps) && i < |states|
    ensures states[i].count == states[0].count + Completed(steps[..i], true) - Completed(steps[..i], false)
  {
    RunInv(states, steps, i);
    Counters(states, steps, i);
  }

  /** No wakeup is lost: while a thread sleeps, the count is at most the number of threads
      woken but not yet rechecked, plus one while a V is about to wake one more. */
  lemma NoLostWakeup(states: seq<State>, steps: seq<Step>, i: nat, t: nat)
    requires IsRun(states, steps) && i < |states| && At(states[i], t, Asleep)
    ensures states[i].count <= |Pending(states[i])| + Owed(states[i])
    ensures states[i].lock == None && states[i].count > 0 ==> exists x :: At(states[i], x, Woken)
  {
    RunInv(states, steps, i);
    var s := states[i];
    assert t in s.queue;
    if s.lock == None && s.count > 0 {
      var x :| x in Pending(s);
      assert At(s, x, Woken);
    }
  }

  /** V's assertion can fail only when the count is at the top of its range. */
  lemma VPanics(states: seq<State>, steps: seq<Step>, i: nat, t: nat)
    requires IsRun(states, steps) && i < |states| && At(states[i], t, Adding)
    ensures Enabled(states[i], VAdd(t)) <==> states[i].count != WIDTH - 1
  {
    RunInv(states, steps, i);
  }
}
