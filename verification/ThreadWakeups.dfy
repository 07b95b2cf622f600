/** Which threads a wakeup wakes: wchan_wakeall every thread that sleeps on the channel, in the
    order in which they went to sleep, wchan_wakeone the first, and no other. */
module ThreadWakeups {
  import opened Common
  import opened ThreadSystem
  import opened ThreadSafety
  import opened ThreadSteps
  import opened ThreadForks
  import opened ThreadFrames
  import opened ThreadRuns
  import opened ThreadOrder

  /** The steps among steps[a..b] with which CPU c puts a thread on a run queue, in order. */
  function Puts(steps: seq<Step>, c: nat, a: nat, b: nat): (at: seq<nat>)
    requires a <= b <= |steps|
    ensures forall n :: 0 <= n < |at| ==> a <= at[n] < b && steps[at[n]] == Waking(PutEnqueue(c))
    ensures forall n, n' :: 0 <= n < n' < |at| ==> at[n] < at[n']
    decreases b
  {
    if a == b then [] else Puts(steps, c, a, b - 1) + (if steps[b - 1] == Waking(PutEnqueue(c)) then [b - 1] else [])
  }

  /** Thread t, which belongs to some CPU, becomes ready and goes to the end of the run queue of
      that CPU. */
  ghost predicate JoinsQueue(s: State, s': State, t: nat)
  {
    && t in s.threads && t in s'.threads && s'.threads[t].cpu == s.threads[t].cpu && s'.threads[t].state == Ready
    && List(s', Queue(s.threads[t].cpu)) == List(s, Queue(s.threads[t].cpu)) + [t]
  }

  /** How many of the threads on a channel a wakeup takes. */
  function Due(q: seq<nat>, all: bool): (m: nat)
    ensures m <= |q|
  {
    if all || q == [] then |q| else 1
  }

  /** CPU c wakes threads on channel w, which held q: n of them are on run queues by now, some are
      in its hands, and the others are still on the channel. */
  ghost predicate InWakeup(s: State, c: nat, w: nat, all: bool, q: seq<nat>, n: nat)
  {
    && c < |s.cpus| && n <= Due(q, all)
    && var op, hand, chan := s.cpus[c].op, List(s, Hand(c)), List(s, Chan(w));
       if op.Grab? then
         && op.w == w && op.all == all && n == 0
         && |hand| <= Due(q, all) && hand == q[..|hand|] && chan == q[|hand|..]
       else
         && (op.Put? || op.PutWait? || op.PutLocked?) && op.src == Some(w)
         && hand == q[n..Due(q, all)] && chan == q[Due(q, all)..]
  }

  lemma WakeupStart(s: State, c: nat, w: nat, all: bool)
    requires Inv(s) && Enabled(s, Waking(WakeStart(c, w, all)))
    ensures InWakeup(Apply(s, Waking(WakeStart(c, w, all))), c, w, all, List(s, Chan(w)), 0)
  {
    InvAt(s, c);
    hide Inv;
  }

  /** The steps that CPU c can take in a wakeup. */
  lemma WakeupOwnStep(s: State, st: Step, c: nat)
    requires Inv(s) && c < |s.cpus| && Enabled(s, st) && Actor(st) == c
    requires var op := s.cpus[c].op; op.Grab? || op.Put? || op.PutWait? || op.PutLocked?
    ensures st == Waking(WakeGrab(c)) || st == Waking(WakeGrabbed(c)) || st == Waking(PutRead(c))
         || st == Waking(PutLock(c)) || st == Waking(PutEnqueue(c)) || st == Waking(PutDone(c))
  {
    OpAt(s, c);
    hide Inv;
  }

  lemma GrabStep(s: State, c: nat, w: nat, all: bool, q: seq<nat>)
    requires InWakeup(s, c, w, all, q, 0) && CanWakeGrab(s, c)
    ensures InWakeup(DoWakeGrab(s, c), c, w, all, q, 0)
  {
    var n := |List(s, Hand(c))|;
    assert q[n..][1..] == q[n + 1..] && q[..n] + [q[n..][0]] == q[..n + 1];
  }

  lemma EnqueueStep(s: State, c: nat, w: nat, all: bool, q: seq<nat>, n: nat)
    requires Inv(s) && InWakeup(s, c, w, all, q, n) && CanPutEnqueue(s, c)
    ensures n < Due(q, all) && InWakeup(DoPutEnqueue(s, c), c, w, all, q, n + 1)
    ensures JoinsQueue(s, DoPutEnqueue(s, c), q[n])
  {
    hide Inv, Lists, AllThreads, RqLocks, LkLocks, CurOk, ThreadOk, DoPutEnqueue, List;
    InvAt(s, c);
    PutEnqueueEffect(s, c);
    PutReady(s, c);
    assert q[n..Due(q, all)][1..] == q[n + 1..Due(q, all)] && q[n..Due(q, all)][0] == q[n];
  }

  lemma PutReady(s: State, c: nat)
    requires CanPutEnqueue(s, c)
    ensures var t, s' := Head(s, Hand(c)), DoPutEnqueue(s, c); t in s'.threads && s'.threads[t].state == Ready
  {
    hide List;
  }

  lemma WakeupOwn(s: State, st: Step, c: nat, w: nat, all: bool, q: seq<nat>, n: nat)
    requires Inv(s) && InWakeup(s, c, w, all, q, n) && Enabled(s, st) && Actor(st) == c && st != Waking(PutDone(c))
    ensures InWakeup(Apply(s, st), c, w, all, q, if st == Waking(PutEnqueue(c)) then n + 1 else n)
    ensures st == Waking(PutEnqueue(c)) ==> n < |q| && JoinsQueue(s, Apply(s, st), q[n])
  {
    WakeupOwnStep(s, st, c);
    if st == Waking(WakeGrab(c)) {
      GrabStep(s, c, w, all, q);
    } else if st == Waking(PutEnqueue(c)) {
      EnqueueStep(s, c, w, all, q, n);
    } else {
      WakeupPlain(s, st, c, w, all, q, n);
    }
  }

  lemma WakeupPlain(s: State, st: Step, c: nat, w: nat, all: bool, q: seq<nat>, n: nat)
    requires InWakeup(s, c, w, all, q, n) && Enabled(s, st)
    requires st == Waking(WakeGrabbed(c)) || st == Waking(PutRead(c)) || st == Waking(PutLock(c))
    ensures InWakeup(Apply(s, st), c, w, all, q, n)
  {
    assert Apply(s, st).lists == s.lists;
  }

  lemma WakeupOther(s: State, st: Step, c: nat, w: nat, all: bool, q: seq<nat>, n: nat)
    requires Inv(s) && InWakeup(s, c, w, all, q, n) && Enabled(s, st) && Actor(st) != c
    ensures InWakeup(Apply(s, st), c, w, all, q, n)
  {
    assert w in LkHeld(s.cpus[c]);
    hide Inv, Enabled, Apply, List, LkHeld;
    OthersLeave(s, st, c);
    ChannelProtected(s, st, c, w);
  }

  /** Each of the steps at has put its thread on a run queue. */
  ghost predicate AllPut(states: seq<State>, at: seq<nat>, q: seq<nat>)
  {
    && |at| <= |q|
    && forall n :: 0 <= n < |at| ==> at[n] + 1 < |states| && JoinsQueue(states[at[n]], states[at[n] + 1], q[n])
  }

  lemma {:induction false} WakeupRun(states: seq<State>, steps: seq<Step>, i: nat, k: nat, c: nat, w: nat, all: bool)
    requires IsRun(states, steps) && i < k <= |steps| && steps[i] == Waking(WakeStart(c, w, all))
    requires NoneBetween(steps, i, k, Waking(PutDone(c)))
    ensures InWakeup(states[k], c, w, all, List(states[i], Chan(w)), |Puts(steps, c, i + 1, k)|)
    ensures AllPut(states, Puts(steps, c, i + 1, k), List(states[i], Chan(w)))
    decreases k
  {
    hide IsRun, Inv, InWakeup, Enabled, Apply, List, JoinsQueue, AllPut;
    RunStep(states, steps, k - 1);
    PutNone(states, steps, i + 1, c, List(states[i], Chan(w)));
    RunInv(states, steps, k - 1);
    if k == i + 1 {
      WakeupStart(states[i], c, w, all);
    } else {
      WakeupRun(states, steps, i, k - 1, c, w, all);
      var s, st, q, n := states[k - 1], steps[k - 1], List(states[i], Chan(w)), |Puts(steps, c, i + 1, k - 1)|;
      if Actor(st) == c {
        WakeupOwn(s, st, c, w, all, q, n);
      } else {
        WakeupOther(s, st, c, w, all, q, n);
      }
      PutMore(states, steps, i + 1, k, c, q);
    }
  }

  lemma PutNone(states: seq<State>, steps: seq<Step>, a: nat, c: nat, q: seq<nat>)
    requires a <= |steps|
    ensures Puts(steps, c, a, a) == [] && AllPut(states, Puts(steps, c, a, a), q)
  {
  }

  lemma PutMore(states: seq<State>, steps: seq<Step>, a: nat, k: nat, c: nat, q: seq<nat>)
    requires a < k <= |steps| < |states| && AllPut(states, Puts(steps, c, a, k - 1), q)
    requires steps[k - 1] == Waking(PutEnqueue(c)) ==>
               |Puts(steps, c, a, k - 1)| < |q|
               && JoinsQueue(states[k - 1], states[k], q[|Puts(steps, c, a, k - 1)|])
    ensures AllPut(states, Puts(steps, c, a, k), q)
    ensures |Puts(steps, c, a, k)|
         == |Puts(steps, c, a, k - 1)| + (if steps[k - 1] == Waking(PutEnqueue(c)) then 1 else 0)
  {
    hide JoinsQueue;
  }

  /** From the call of wchan_wakeone or wchan_wakeall to its return, with all other CPUs running:
      the CPU puts exactly the first thread of the channel, or every thread of it in order, on the
      run queue of the CPU that the thread belongs to, and the others stay on the channel. */
  lemma WakesExactly(states: seq<State>, steps: seq<Step>, i: nat, j: nat, c: nat, w: nat, all: bool)
    requires IsRun(states, steps) && i < |steps| && steps[i] == Waking(WakeStart(c, w, all))
    requires NextAt(steps, i, j, Waking(PutDone(c)))
    ensures var q, at := List(states[i], Chan(w)), Puts(steps, c, i + 1, j);
            var m := if all then |q| else if q == [] then 0 else 1;
            && |at| == m
            && (forall n :: 0 <= n < m ==> i < at[n] < j && JoinsQueue(states[at[n]], states[at[n] + 1], q[n]))
            && List(states[j + 1], Chan(w)) == q[m..]
  {
    hide IsRun, Inv, InWakeup, Enabled, Apply, List, JoinsQueue, NoneBetween;
    WakeupRun(states, steps, i, j, c, w, all);
    RunStep(states, steps, j);
    WakeupEnd(states[j], c, w, all, List(states[i], Chan(w)), |Puts(steps, c, i + 1, j)|);
  }

  lemma WakeupEnd(s: State, c: nat, w: nat, all: bool, q: seq<nat>, n: nat)
    requires InWakeup(s, c, w, all, q, n) && Enabled(s, Waking(PutDone(c)))
    ensures n == Due(q, all) && List(Apply(s, Waking(PutDone(c))), Chan(w)) == q[n..]
  {
  }
}
