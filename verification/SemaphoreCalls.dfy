/** P and V in every run: the accesses that a call consists of, in order, and in which order the
    threads that sleep in P are woken. */
module SemaphoreCalls {
  import opened Common
  import opened Semaphore

  /** n times to sleep on the channel and back. */
  function Rounds(t: nat, n: nat): (r: seq<Step>)
  {
    if n == 0 then [] else Rounds(t, n - 1) + [PSleep(t), PReacquire(t)]
  }

  /** The own steps with which a thread comes to a point, from the beginning of the call; n is how
      often it has slept. */
  function Path(pc: Pc, t: nat, n: nat): (r: seq<Step>)
  {
    match pc
    case Out => []
    case Test(_) => [PAcquire(t)] + Rounds(t, n)
    case Asleep => [PAcquire(t)] + Rounds(t, n) + [PSleep(t)]
    case Woken => [PAcquire(t)] + Rounds(t, n) + [PSleep(t)]
    case Taken => [PAcquire(t)] + Rounds(t, n) + [PTake(t)]
    case Adding => [VAcquire(t)]
    case Waking => [VAcquire(t), VAdd(t)]
    case Added => [VAcquire(t), VAdd(t), VWake(t)]
  }

  /** The steps of thread t among steps[a..b]. */
  function Mine(steps: seq<Step>, t: nat, a: nat, b: nat): (r: seq<Step>)
    requires a <= b <= |steps|
    decreases b
  {
    if a == b then [] else Mine(steps, t, a, b - 1) + (if steps[b - 1].t == t then [steps[b - 1]] else [])
  }

  /** Another thread's step moves a thread only by waking it. */
  lemma OthersMove(s: State, st: Step, x: nat)
    requires Inv(s) && Enabled(s, st) && st.t != x && x in s.pc
    ensures x in Apply(s, st).pc
    ensures var pc, pc' := s.pc[x], Apply(s, st).pc[x]; pc' == pc || (pc == Asleep && pc' == Woken)
  {
    if s.queue != [] {
      QueueHead(s);
    }
    hide Inv;
  }

  lemma CallPath(s: State, st: Step)
    requires Enabled(s, st) && s.pc[st.t] == Out
    ensures st.t in Apply(s, st).pc && Apply(s, st).pc[st.t] != Out && Path(Apply(s, st).pc[st.t], st.t, 0) == [st]
  {
  }

  lemma OwnPath(s: State, st: Step, n: nat) returns (n': nat)
    requires Enabled(s, st) && s.pc[st.t] != Out
    ensures st.t in Apply(s, st).pc && (Apply(s, st).pc[st.t] == Out <==> st.PRelease? || st.VRelease?)
    ensures Apply(s, st).pc[st.t] != Out ==>
              Path(Apply(s, st).pc[st.t], st.t, n') == Path(s.pc[st.t], st.t, n) + [st]
  {
    n' := if st.PReacquire? then n + 1 else n;
    assert [PAcquire(st.t)] + Rounds(st.t, n) + [PSleep(st.t)] + [PReacquire(st.t)]
        == [PAcquire(st.t)] + (Rounds(st.t, n) + [PSleep(st.t), PReacquire(st.t)]);
  }

  // ---- Calls in runs ----

  lemma RunStep(states: seq<State>, steps: seq<Step>, i: nat)
    requires IsRun(states, steps) && i < |steps|
    ensures |states| == |steps| + 1
    ensures Enabled(states[i], steps[i]) && states[i + 1] == Apply(states[i], steps[i])
  {
    hide Enabled, Apply, Init;
  }

  /** Thread t calls P or V with steps[i], and is in it in states[i + 1..j]. */
  ghost predicate InCall(states: seq<State>, steps: seq<Step>, i: nat, j: nat, t: nat)
  {
    && i < j <= |steps| < |states| && steps[i].t == t && At(states[i], t, Out)
    && forall k :: i < k < j ==> t in states[k].pc && states[k].pc[t] != Out
  }

  lemma {:induction false} PathRun(states: seq<State>, steps: seq<Step>, i: nat, k: nat, t: nat) returns (n: nat)
    requires IsRun(states, steps) && InCall(states, steps, i, k + 1, t) && i < k
    ensures t in states[k].pc && Path(states[k].pc[t], t, n) == Mine(steps, t, i, k)
    decreases k
  {
    hide IsRun, Inv, Enabled, Apply, Rounds;
    RunStep(states, steps, k - 1);
    if k == i + 1 {
      n := 0;
      CallPath(states[i], steps[i]);
      assert Mine(steps, t, i, i) == [];
    } else {
      n := PathRun(states, steps, i, k - 1, t);
      RunInv(states, steps, k - 1);
      if steps[k - 1].t == t {
        n := OwnPath(states[k - 1], steps[k - 1], n);
      } else {
        OthersMove(states[k - 1], steps[k - 1], t);
      }
    }
  }

  lemma {:induction false} MineFirst(steps: seq<Step>, t: nat, a: nat, b: nat)
    requires a < b <= |steps| && steps[a].t == t
    ensures Mine(steps, t, a, b) != [] && Mine(steps, t, a, b)[0] == steps[a]
    decreases b
  {
    if b > a + 1 {
      MineFirst(steps, t, a, b - 1);
    } else {
      assert Mine(steps, t, a, a) == [];
    }
  }

  lemma LastStep(s: State, st: Step, n: nat)
    requires Enabled(s, st) && s.pc[st.t] != Out && At(Apply(s, st), st.t, Out)
    ensures var path, t := Path(s.pc[st.t], st.t, n) + [st], st.t;
            || path == [PAcquire(t)] + Rounds(t, n) + [PTake(t), PRelease(t)]
            || path == [VAcquire(t), VAdd(t), VWake(t), VRelease(t)]
  {
    hide Rounds;
  }

  /** From the call of P or V to its return, whatever all other threads do in between: P takes one
      from the count, once, after any number of sleeps, and V adds one and wakes one sleeper. */
  lemma CallReturns(states: seq<State>, steps: seq<Step>, i: nat, j: nat, t: nat) returns (n: nat)
    requires IsRun(states, steps) && InCall(states, steps, i, j, t) && At(states[j], t, Out)
    ensures steps[i] == PAcquire(t) || steps[i] == VAcquire(t)
    ensures Mine(steps, t, i, j)
         == if steps[i] == PAcquire(t) then [PAcquire(t)] + Rounds(t, n) + [PTake(t), PRelease(t)]
            else [VAcquire(t), VAdd(t), VWake(t), VRelease(t)]
  {
    hide IsRun, Inv, Enabled, Apply, Path, Rounds;
    RunStep(states, steps, i);
    RunStep(states, steps, j - 1);
    CallPath(states[i], steps[i]);
    assert j > i + 1;
    n := PathRun(states, steps, i, j - 1, t);
    RunInv(states, steps, j - 1);
    if steps[j - 1].t != t {
      OthersMove(states[j - 1], steps[j - 1], t);
    }
    LastStep(states[j - 1], steps[j - 1], n);
    MineFirst(steps, t, i, j);
  }

  /** What the two counted accesses do: PTake takes one from the count and only from a positive
      one, VAdd adds one, and no other step changes it. */
  lemma CountSteps(states: seq<State>, steps: seq<Step>, i: nat)
    requires IsRun(states, steps) && i < |steps| < |states|
    ensures states[i + 1].count
         == states[i].count + (if steps[i].VAdd? then 1 else 0) - (if steps[i].PTake? then 1 else 0)
  {
    hide IsRun, Pending, NoDup, Owed;
    RunStep(states, steps, i);
    RunInv(states, steps, i);
  }

  /** The channel is first in, first out: a thread that goes to sleep is behind all others, and V
      wakes the one in front, if there is one, and no other. */
  lemma WokenInOrder(states: seq<State>, steps: seq<Step>, i: nat, x: nat)
    requires IsRun(states, steps) && i < |steps| < |states| && x in states[i].pc
    ensures var s, s', st := states[i], states[i + 1], steps[i];
            && s'.queue == (if st.PSleep? then s.queue + [st.t]
                            else if st.VWake? && s.queue != [] then s.queue[1..] else s.queue)
            && (At(s, x, Asleep) ==> At(s', x, if st.VWake? && [x] <= s.queue then Woken else Asleep))
  {
    hide IsRun;
    RunStep(states, steps, i);
    RunInv(states, steps, i);
    if states[i].queue != [] {
      QueueHead(states[i]);
    }
    assert At(states[i], x, Asleep) ==> x in states[i].queue;
    hide Pending, NoDup, Owed;
  }

  // ---- No deadlock ----

  /** The next access of a thread that is not asleep; between two calls, the first of P. */
  function NextOf(s: State, t: nat): (st: Step)
    requires t in s.pc && s.pc[t] != Asleep
  {
    match s.pc[t]
    case Out => PAcquire(t)
    case Test(_) => if s.count > 0 then PTake(t) else PSleep(t)
    case Woken => PReacquire(t)
    case Taken => PRelease(t)
    case Adding => VAdd(t)
    case Waking => VWake(t)
    case Added => VRelease(t)
  }

  predicate CanStep(s: State, t: nat)
  {
    t in s.pc && s.pc[t] != Asleep && Enabled(s, NextOf(s, t))
  }

  lemma {:induction false} HeldByThread(states: seq<State>, steps: seq<Step>, i: nat)
    requires IsRun(states, steps) && i < |states|
    ensures states[i].lock.Some? ==> states[i].lock.value in states[i].pc
  {
    if i > 0 {
      HeldByThread(states, steps, i - 1);
      RunStep(states, steps, i - 1);
    }
  }

  /** A thread that is not asleep can go on, or it waits for the spinlock and the holder can go on;
      the holder is stopped only by the assertion in V, with the count at the top of its range. */
  lemma NoDeadlock(states: seq<State>, steps: seq<Step>, i: nat, t: nat)
    requires IsRun(states, steps) && i < |states| && t in states[i].pc && states[i].pc[t] != Asleep
    ensures var s := states[i];
            || CanStep(s, t)
            || (At(s, t, Adding) && s.count == WIDTH - 1)
            || (&& s.lock.Some? && s.lock.value in s.pc
                && (CanStep(s, s.lock.value) || (At(s, s.lock.value, Adding) && s.count == WIDTH - 1)))
  {
    hide IsRun;
    var s := states[i];
    RunInv(states, steps, i);
    HeldByThread(states, steps, i);
    if s.queue != [] {
      QueueHead(s);
    }
    hide Pending, NoDup, Owed;
  }
}
