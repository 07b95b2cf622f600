/** In which order threads run: run queues are first in, first out in every run, a yield gives the
    CPU to the thread that has waited longest, a thread that goes to sleep joins its channel, and
    a thread that exits never runs again. */
module ThreadOrder {
  import opened Common
  import opened ThreadSystem
  import opened ThreadSafety
  import opened ThreadSteps
  import opened ThreadForks
  import opened ThreadFrames
  import opened ThreadRuns

  /** steps[j] is the first step st after steps[i]. */
  ghost predicate NextAt(steps: seq<Step>, i: nat, j: nat, st: Step)
  {
    i < j < |steps| && steps[j] == st && NoneBetween(steps, i, j, st)
  }

  /** There is no step st between steps[i] and steps[j]. */
  ghost predicate NoneBetween(steps: seq<Step>, i: nat, j: nat, st: Step)
  {
    j <= |steps| && forall k :: i < k < j ==> steps[k] != st
  }

  lemma RunStep(states: seq<State>, steps: seq<Step>, i: nat)
    requires IsRun(states, steps) && i < |steps|
    ensures |states| == |steps| + 1
    ensures Enabled(states[i], steps[i]) && states[i + 1] == Apply(states[i], steps[i])
  {
    hide Enabled, Apply, Init;
  }

  // ---- Run queues ----

  /** How often CPU x takes a thread to run it, in steps[i..j]. */
  function Picks(steps: seq<Step>, x: nat, i: nat, j: nat): (n: nat)
    requires i <= j <= |steps|
    decreases j
  {
    if i == j then 0 else Picks(steps, x, i, j - 1) + (if steps[j - 1] == Switching(Pick(x)) then 1 else 0)
  }

  /** Throughout states[i..j + 1], thread t is on the run queue of CPU x. */
  ghost predicate StaysQueued(states: seq<State>, i: nat, j: nat, x: nat, t: nat)
  {
    j < |states| && forall k :: i <= k <= j ==> t in List(states[k], Queue(x))
  }

  /** Pick takes the thread in front. */
  lemma PickFront(s: State, c: nat)
    requires Inv(s) && CanPick(s, c)
    ensures var q, s' := List(s, Queue(c)), DoPick(s, c);
            q != [] && List(s', Queue(c)) == q[1..] && List(s', Hand(c)) == [q[0]]
  {
    InvAt(s, c);
  }

  lemma TurnStep(s: State, st: Step, x: nat, p: nat)
    requires Inv(s) && Enabled(s, st) && p < |List(s, Queue(x))|
    requires List(s, Queue(x))[p] in List(Apply(s, st), Queue(x))
    ensures var q, q', d := List(s, Queue(x)), List(Apply(s, st), Queue(x)), if st == Switching(Pick(x)) then 1 else 0;
            d <= p < |q'| + d && q'[p - d] == q[p]
  {
    hide Inv, Enabled, Apply, List, NoDup;
    var q, q' := List(s, Queue(x)), List(Apply(s, st), Queue(x));
    QueueOnce(s, x);
    if st == Switching(Pick(x)) {
      PickTurn(s, x);
    } else if q' != q {
      QueueOrder(s, st, x);
    }
    MovesUp(q, q', p, if st == Switching(Pick(x)) then 1 else 0);
  }

  lemma QueueOnce(s: State, x: nat)
    requires Inv(s)
    ensures NoDup(List(s, Queue(x)))
  {
  }

  lemma PickTurn(s: State, x: nat)
    requires Inv(s) && Enabled(s, Switching(Pick(x)))
    ensures List(s, Queue(x)) != [] && List(Apply(s, Switching(Pick(x))), Queue(x)) == List(s, Queue(x))[1..]
  {
    hide Inv;
    PickFront(s, x);
  }

  lemma MovesUp(q: seq<nat>, q': seq<nat>, p: nat, d: nat)
    requires NoDup(q) && p < |q| && q[p] in q'
    requires if d == 1 then q' == q[1..] else d == 0 && (q <= q' || q' == q[..|q| - 1])
    ensures d <= p < |q'| + d && q'[p - d] == q[p]
  {
    var k :| 0 <= k < |q'| && q'[k] == q[p];
    if d == 1 {
      assert q[k + 1] == q[p];
    }
  }

  /** A thread on a run queue moves up by one place each time its CPU takes a thread to run, and
      no thread ever gets in front of it. */
  lemma {:induction false} TurnComes(states: seq<State>, steps: seq<Step>, i: nat, j: nat, x: nat, p: nat)
    requires IsRun(states, steps) && i <= j <= |steps| && p < |List(states[i], Queue(x))|
    requires StaysQueued(states, i, j, x, List(states[i], Queue(x))[p])
    ensures var n, q := Picks(steps, x, i, j), List(states[j], Queue(x));
            n <= p < |q| + n && q[p - n] == List(states[i], Queue(x))[p]
    decreases j
  {
    hide IsRun, Inv, List, Enabled, Apply;
    if i < j {
      TurnComes(states, steps, i, j - 1, x, p);
      RunStep(states, steps, j - 1);
      RunInv(states, steps, j - 1);
      TurnStep(states[j - 1], steps[j - 1], x, p - Picks(steps, x, i, j - 1));
    }
  }

  /** Of two threads that wait on the same run queue, the one in front stays in front. */
  lemma FirstInFirstOut(states: seq<State>, steps: seq<Step>, i: nat, j: nat, x: nat, p: nat, p': nat)
    requires IsRun(states, steps) && i <= j <= |steps| && p < p' < |List(states[i], Queue(x))|
    requires StaysQueued(states, i, j, x, List(states[i], Queue(x))[p])
    requires StaysQueued(states, i, j, x, List(states[i], Queue(x))[p'])
    ensures exists a, b :: 0 <= a < b < |List(states[j], Queue(x))|
              && List(states[j], Queue(x))[a] == List(states[i], Queue(x))[p]
              && List(states[j], Queue(x))[b] == List(states[i], Queue(x))[p']
  {
    hide List, IsRun, Picks;
    TurnComes(states, steps, i, j, x, p);
    TurnComes(states, steps, i, j, x, p');
    var n := Picks(steps, x, i, j);
    assert 0 <= p - n < p' - n < |List(states[j], Queue(x))|;
  }

  // ---- thread_yield ----

  /** CPU c is in thread_switch for a yield by thread me that found q on the run queue. */
  ghost predicate Yielding(s: State, c: nat, me: nat, q: seq<nat>)
  {
    && c < |s.cpus| && s.cpus[c].op == NoOp && q != []
    && if s.cpus[c].pc == Picked then List(s, Hand(c)) == [q[0]] && List(s, Queue(c)) == q[1..] + [me]
       else
         && s.cpus[c].cur == me
         && (s.cpus[c].pc == Locked(ToReady) || s.cpus[c].pc == Placed(ToReady) || s.cpus[c].pc == Choosing)
         && List(s, Queue(c)) == if s.cpus[c].pc == Locked(ToReady) then q else q + [me]
  }

  lemma YieldOwn(s: State, st: Step, c: nat, me: nat, q: seq<nat>)
    requires Inv(s) && Yielding(s, c, me, q) && Enabled(s, st) && Actor(st) == c && st != Switching(SwitchFrame(c))
    ensures Yielding(Apply(s, st), c, me, q)
  {
    hide Inv, Yielding, List, DoPlaceReady, DoWriteState, DoPick, CanPlaceReady, CanWriteState, CanPick;
    YieldNext(s, st, c, me, q);
    if st == Switching(PlaceReady(c)) {
      YieldPlaced(s, c, me, q);
    } else if st == Switching(WriteState(c)) {
      YieldWritten(s, c, me, q);
    } else {
      YieldPicked(s, c, me, q);
    }
  }

  lemma YieldPlaced(s: State, c: nat, me: nat, q: seq<nat>)
    requires Yielding(s, c, me, q) && CanPlaceReady(s, c)
    ensures Yielding(DoPlaceReady(s, c), c, me, q)
  {
  }

  lemma YieldWritten(s: State, c: nat, me: nat, q: seq<nat>)
    requires Yielding(s, c, me, q) && CanWriteState(s, c)
    ensures Yielding(DoWriteState(s, c), c, me, q)
  {
  }

  lemma YieldPicked(s: State, c: nat, me: nat, q: seq<nat>)
    requires Inv(s) && Yielding(s, c, me, q) && CanPick(s, c)
    ensures Yielding(DoPick(s, c), c, me, q)
  {
    hide Inv;
    PickFront(s, c);
  }

  lemma YieldNext(s: State, st: Step, c: nat, me: nat, q: seq<nat>)
    requires Yielding(s, c, me, q) && Enabled(s, st) && Actor(st) == c && st != Switching(SwitchFrame(c))
    ensures st == Switching(PlaceReady(c)) || st == Switching(WriteState(c)) || st == Switching(Pick(c))
  {
    hide List;
  }

  lemma YieldStep(s: State, st: Step, c: nat, me: nat, q: seq<nat>)
    requires Inv(s) && Yielding(s, c, me, q) && Enabled(s, st) && st != Switching(SwitchFrame(c))
    ensures Yielding(Apply(s, st), c, me, q)
  {
    if Actor(st) == c {
      YieldOwn(s, st, c, me, q);
    } else {
      assert c in RqHeld(s.cpus[c], c);
      hide Inv, Enabled, Apply, List, RqHeld;
      OthersLeave(s, st, c);
      LockProtects(s, st, c, c);
    }
  }

  lemma YieldStart(s: State, c: nat)
    requires Enabled(s, Switching(SwitchLock(c, ToReady))) && List(s, Queue(c)) != []
    ensures c < |s.cpus|
    ensures Yielding(Apply(s, Switching(SwitchLock(c, ToReady))), c, s.cpus[c].cur, List(s, Queue(c)))
  {
  }

  lemma {:induction false} YieldRun(states: seq<State>, steps: seq<Step>, i: nat, k: nat, c: nat)
    requires IsRun(states, steps) && i < k <= |steps| && steps[i] == Switching(SwitchLock(c, ToReady))
    requires List(states[i], Queue(c)) != [] && NoneBetween(steps, i, k, Switching(SwitchFrame(c)))
    ensures c < |states[i].cpus| && Yielding(states[k], c, states[i].cpus[c].cur, List(states[i], Queue(c)))
    decreases k
  {
    hide IsRun, Inv, Yielding, Enabled, Apply, List;
    RunStep(states, steps, k - 1);
    if k == i + 1 {
      YieldStart(states[i], c);
    } else {
      YieldRun(states, steps, i, k - 1, c);
      RunInv(states, steps, k - 1);
      YieldStep(states[k - 1], steps[k - 1], c, states[i].cpus[c].cur, List(states[i], Queue(c)));
    }
  }

  /** A yield gives the CPU to the thread in front of the run queue, and the yielding thread goes
      to the end of it, whatever all other CPUs do in the meantime. */
  lemma YieldGivesUp(states: seq<State>, steps: seq<Step>, i: nat, j: nat, c: nat)
    requires IsRun(states, steps) && i < |steps| && steps[i] == Switching(SwitchLock(c, ToReady))
    requires List(states[i], Queue(c)) != [] && NextAt(steps, i, j, Switching(SwitchFrame(c)))
    ensures c < |states[i].cpus| && c < |states[j + 1].cpus|
    ensures var q, me := List(states[i], Queue(c)), states[i].cpus[c].cur;
            states[j + 1].cpus[c].cur == q[0] && List(states[j + 1], Queue(c)) == q[1..] + [me]
  {
    YieldRun(states, steps, i, j, c);
    RunStep(states, steps, j);
  }

  /** With nobody else on the run queue a yield returns to the same thread at once. */
  lemma YieldAlone(states: seq<State>, steps: seq<Step>, i: nat, j: nat, c: nat)
    requires IsRun(states, steps) && i < j < |steps| && steps[i] == Switching(SwitchLock(c, ToReady))
    requires List(states[i], Queue(c)) == [] && Actor(steps[j]) == c && forall k :: i < k < j ==> Actor(steps[k]) != c
    ensures c < |states[i].cpus| && c < |states[j + 1].cpus| && steps[j] == Switching(NothingToDo(c))
    ensures states[j + 1].cpus[c].pc == Running && states[j + 1].cpus[c].cur == states[i].cpus[c].cur
  {
    hide IsRun, Alone, Enabled, Apply, List;
    AloneRun(states, steps, i, j, c);
    RunStep(states, steps, j);
    AloneEnd(states[j], steps[j], c, states[i].cpus[c].cur);
  }

  lemma AloneEnd(s: State, st: Step, c: nat, me: nat)
    requires Alone(s, c, me) && Enabled(s, st) && Actor(st) == c
    ensures st == Switching(NothingToDo(c)) && c < |Apply(s, st).cpus|
    ensures Apply(s, st).cpus[c].pc == Running && Apply(s, st).cpus[c].cur == me
  {
    assert st.Switching?;
  }

  /** CPU c is in thread_switch for a yield by thread me with an empty run queue. */
  ghost predicate Alone(s: State, c: nat, me: nat)
  {
    && c < |s.cpus| && s.cpus[c].op == NoOp && s.cpus[c].pc == Locked(ToReady) && s.cpus[c].cur == me
    && List(s, Queue(c)) == []
  }

  lemma AloneStart(s: State, c: nat)
    requires Enabled(s, Switching(SwitchLock(c, ToReady))) && List(s, Queue(c)) == []
    ensures c < |s.cpus| && Alone(Apply(s, Switching(SwitchLock(c, ToReady))), c, s.cpus[c].cur)
  {
  }

  lemma AloneStep(s: State, st: Step, c: nat, me: nat)
    requires Inv(s) && Alone(s, c, me) && Enabled(s, st) && Actor(st) != c
    ensures Alone(Apply(s, st), c, me)
  {
    assert c in RqHeld(s.cpus[c], c);
    hide Inv, Enabled, Apply, List, RqHeld;
    OthersLeave(s, st, c);
    LockProtects(s, st, c, c);
  }

  lemma {:induction false} AloneRun(states: seq<State>, steps: seq<Step>, i: nat, k: nat, c: nat)
    requires IsRun(states, steps) && i < k <= |steps| && steps[i] == Switching(SwitchLock(c, ToReady))
    requires List(states[i], Queue(c)) == [] && forall m :: i < m < k ==> Actor(steps[m]) != c
    ensures c < |states[i].cpus| && Alone(states[k], c, states[i].cpus[c].cur)
    decreases k
  {
    hide IsRun, Inv, Alone, Enabled, Apply, List;
    RunStep(states, steps, k - 1);
    if k == i + 1 {
      AloneStart(states[i], c);
    } else {
      AloneRun(states, steps, i, k - 1, c);
      RunInv(states, steps, k - 1);
      AloneStep(states[k - 1], steps[k - 1], c, states[i].cpus[c].cur);
    }
  }

  // ---- wchan_sleep ----

  /** CPU c is about to put thread me on channel w, which holds q. */
  ghost predicate GoingToSleep(s: State, c: nat, me: nat, w: nat, q: seq<nat>)
  {
    && c < |s.cpus| && s.cpus[c].op == NoOp && s.cpus[c].pc == Locked(ToSleep(w)) && s.cpus[c].cur == me
    && List(s, Chan(w)) == q
  }

  lemma {:induction false} SleepRun(states: seq<State>, steps: seq<Step>, i: nat, k: nat, c: nat, w: nat)
    requires IsRun(states, steps) && i < k <= |steps| && steps[i] == Switching(SwitchLock(c, ToSleep(w)))
    requires NoneBetween(steps, i, k, Switching(PlaceSleep(c)))
    ensures c < |states[i].cpus|
    ensures GoingToSleep(states[k], c, states[i].cpus[c].cur, w, List(states[i], Chan(w)))
    decreases k
  {
    hide IsRun, Inv, GoingToSleep, Enabled, Apply, List;
    RunStep(states, steps, k - 1);
    if k == i + 1 {
      SleepStart(states[i], c, w);
    } else {
      SleepRun(states, steps, i, k - 1, c, w);
      RunInv(states, steps, k - 1);
      SleepStep(states[k - 1], steps[k - 1], c, states[i].cpus[c].cur, w, List(states[i], Chan(w)));
    }
  }

  lemma SleepStart(s: State, c: nat, w: nat)
    requires Enabled(s, Switching(SwitchLock(c, ToSleep(w))))
    ensures c < |s.cpus|
    ensures GoingToSleep(Apply(s, Switching(SwitchLock(c, ToSleep(w)))), c, s.cpus[c].cur, w, List(s, Chan(w)))
  {
  }

  lemma SleepStep(s: State, st: Step, c: nat, me: nat, w: nat, q: seq<nat>)
    requires Inv(s) && GoingToSleep(s, c, me, w, q) && Enabled(s, st) && st != Switching(PlaceSleep(c))
    ensures GoingToSleep(Apply(s, st), c, me, w, q)
  {
    assert Actor(st) != c;
    assert w in LkHeld(s.cpus[c]);
    hide Inv, Enabled, Apply, List, LkHeld;
    OthersLeave(s, st, c);
    ChannelProtected(s, st, c, w);
  }

  /** A thread that goes to sleep on a channel ends up behind all threads that sleep there, and
      only then is the lock of the channel released. */
  lemma SleepJoins(states: seq<State>, steps: seq<Step>, i: nat, j: nat, c: nat, w: nat)
    requires IsRun(states, steps) && i < |steps| && steps[i] == Switching(SwitchLock(c, ToSleep(w)))
    requires NextAt(steps, i, j, Switching(PlaceSleep(c)))
    ensures c < |states[i].cpus|
    ensures List(states[j + 1], Chan(w)) == List(states[i], Chan(w)) + [states[i].cpus[c].cur]
    ensures forall k :: i <= k <= j ==> w in states[k].lkHolder && states[k].lkHolder[w] == c
    ensures w !in states[j + 1].lkHolder
  {
    hide Inv, IsRun;
    SleepRun(states, steps, i, j, c, w);
    RunStep(states, steps, j);
    RunStep(states, steps, i);
    forall k | i <= k <= j ensures w in states[k].lkHolder && states[k].lkHolder[w] == c {
      if k > i {
        SleepRun(states, steps, i, k, c, w);
      }
      RunInv(states, steps, k);
      LockWord(states[k], c, w);
    }
  }

  lemma LockWord(s: State, c: nat, w: nat)
    requires Inv(s) && c < |s.cpus| && w in LkHeld(s.cpus[c])
    ensures w in s.lkHolder && s.lkHolder[w] == c
  {
  }
}
