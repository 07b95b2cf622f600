/** Runs of the thread system: the invariant holds in every state of every run, and what
    that means for stacks, wakeups, zombies, idle CPUs and migration. */
module ThreadRuns {
  import opened Common
  import opened ThreadSystem
  import opened ThreadSafety
  import opened ThreadSteps
  import opened ThreadForks

  lemma SendOneInv(s: State, c: nat)
    requires Inv(s) && CanSendOne(s, c)
    ensures Inv(DoSendOne(s, c))
  {
    hide Inv;
    if Head(s, Hand(c)) == s.cpus[c].cur {
      KeepCurrentInv(s, c);
    } else {
      MigrateInv(s, c);
    }
  }

  lemma SwitchStepInv(s: State, st: SwitchStep)
    requires Inv(s) && CanSwitch(s, st)
    ensures Inv(DoSwitchStep(s, st))
  {
    hide Inv;
    match st
    case LockChan(c, w) => LockChanInv(s, c, w);
    case UnlockChan(c) => UnlockChanInv(s, c);
    case SwitchLock(c, k) => SwitchLockInv(s, c, k);
    case NothingToDo(c) => NothingToDoInv(s, c);
    case PlaceReady(c) => PlaceReadyInv(s, c);
    case PlaceSleep(c) => PlaceSleepInv(s, c);
    case PlaceZombie(c) => PlaceZombieInv(s, c);
    case WriteState(c) => WriteStateInv(s, c);
    case Pick(c) => PickInv(s, c);
    case GoIdle(c) => GoIdleInv(s, c);
    case IdleReturn(c) => IdleReturnInv(s, c);
    case Relock(c) => RelockInv(s, c);
    case SwitchFrame(c) => SwitchFrameInv(s, c);
    case Finish(c) => FinishInv(s, c);
    case Exorcise(c) => ExorciseInv(s, c);
    case ExorciseDone(c) => ExorciseDoneInv(s, c);
  }

  lemma WakeStepInv(s: State, st: WakeStep)
    requires Inv(s) && CanWake(s, st)
    ensures Inv(DoWakeStep(s, st))
  {
    hide Inv;
    match st
    case WakeStart(c, w, all) => WakeStartInv(s, c, w, all);
    case WakeGrab(c) => WakeGrabInv(s, c);
    case WakeGrabbed(c) => WakeGrabbedInv(s, c);
    case Fork(c, t) => ForkInv(s, c, t);
    case ForkPut(c) => ForkPutInv(s, c);
    case PutRead(c) => PutReadInv(s, c);
    case PutLock(c) => PutLockInv(s, c);
    case PutEnqueue(c) => PutEnqueueInv(s, c);
    case PutDone(c) => PutDoneInv(s, c);
  }

  lemma MigrateStepInv(s: State, st: MigrateStep)
    requires Inv(s) && CanMigrate(s, st)
    ensures Inv(DoMigrateStep(s, st))
  {
    hide Inv;
    match st
    case MigrateStart(c) => MigrateStartInv(s, c);
    case MigrateCount(c) => MigrateCountInv(s, c);
    case MigrateDecide(c) => MigrateDecideInv(s, c);
    case TakeLock(c) => TakeLockInv(s, c);
    case TakeOne(c) => TakeOneInv(s, c);
    case TakeDone(c) => TakeDoneInv(s, c);
    case SendLock(c) => SendLockInv(s, c);
    case SendSkip(c) => SendSkipInv(s, c);
    case SendOne(c) => SendOneInv(s, c);
    case SendUnlock(c) => SendUnlockInv(s, c);
    case SendDone(c) => SendDoneInv(s, c);
    case BackLock(c) => BackLockInv(s, c);
    case BackOne(c) => BackOneInv(s, c);
    case BackDone(c) => BackDoneInv(s, c);
  }

  lemma StepInv(s: State, st: Step)
    requires Inv(s) && Enabled(s, st)
    ensures Inv(Apply(s, st))
  {
    hide Inv;
    match st
    case Switching(sw) => SwitchStepInv(s, sw);
    case Waking(wk) => WakeStepInv(s, wk);
    case Migrating(mg) => MigrateStepInv(s, mg);
  }

  /** One interleaving: states joined by steps, from a state as boot leaves it. */
  ghost predicate IsRun(states: seq<State>, steps: seq<Step>)
  {
    && |states| == |steps| + 1
    && Init(states[0])
    && forall i :: 0 <= i < |steps| ==> Enabled(states[i], steps[i]) && states[i + 1] == Apply(states[i], steps[i])
  }

  lemma {:induction false} RunInv(states: seq<State>, steps: seq<Step>, i: nat)
    requires IsRun(states, steps) && i < |states|
    ensures Inv(states[i])
  {
    hide Inv;
    if i == 0 {
      InitInv(states[0]);
    } else {
      RunInv(states, steps, i - 1);
      StepInv(states[i - 1], steps[i - 1]);
    }
  }

  lemma {:induction false} RunBirths(states: seq<State>, steps: seq<Step>, i: nat)
    requires IsRun(states, steps) && i < |states|
    ensures Births(states[i])
  {
    hide Inv;
    if i > 0 {
      RunBirths(states, steps, i - 1);
      RunInv(states, steps, i - 1);
      hide Births;
      StepBirths(states[i - 1], steps[i - 1]);
    }
  }

  // ---- What holds in every state of every run ----

  /** A thread being forked is not left behind, however often its parent is switched out and
      migrated: the parent is there, alive and not exiting, and once it runs outside
      thread_switch it can go on to make the thread runnable on the CPU the thread was given. */
  lemma ForkGoesOn(states: seq<State>, steps: seq<Step>, i: nat, t: nat)
    requires IsRun(states, steps) && i < |states| && t in states[i].threads
    requires states[i].threads[t].loc.On? && states[i].threads[t].loc.l.Born?
    ensures var s := states[i]; var p := s.threads[t].loc.l.p;
            && List(s, Born(p)) == [t] && p in s.threads && !Zombied(s, p)
            && s.threads[t].state == Ready && s.threads[t].cpu < |s.cpus|
            && (forall c :: 0 <= c < |s.cpus| ==> s.cpus[c].cur != t)
            && (forall c :: 0 <= c < |s.cpus| && s.cpus[c].cur == p ==>
                 && s.cpus[c].pc != Locked(ToZombie)
                 && (s.cpus[c].pc == Running && s.cpus[c].op == NoOp ==> CanForkPut(s, c)))
  {
    hide Inv, Births, Lists, AllThreads;
    var s := states[i];
    RunInv(states, steps, i);
    RunBirths(states, steps, i);
    NeverRun(s, t);
    BornOf(s, t);
  }

  lemma BornOf(s: State, t: nat)
    requires Inv(s) && Births(s) && t in s.threads && s.threads[t].loc.On? && s.threads[t].loc.l.Born?
    ensures var p := s.threads[t].loc.l.p;
            && List(s, Born(p)) == [t] && p in s.threads && !Zombied(s, p)
            && (forall c :: 0 <= c < |s.cpus| && s.cpus[c].cur == p ==> s.cpus[c].pc != Locked(ToZombie))
  {
    assert t in List(s, Born(s.threads[t].loc.l.p));
    hide Inv;
  }

  /** Each thread is on at most one list, at most once. */
  lemma OneList(states: seq<State>, steps: seq<Step>, i: nat, l: ListId, l': ListId, p: nat, q: nat)
    requires IsRun(states, steps) && i < |states|
    requires p < |List(states[i], l)| && q < |List(states[i], l')|
    requires List(states[i], l)[p] == List(states[i], l')[q]
    ensures l == l' && p == q
  {
    RunInv(states, steps, i);
    var s := states[i];
    var t := List(s, l)[p];
    assert t in List(s, l) && t in List(s, l');
    assert s.threads[t].loc == On(l) && s.threads[t].loc == On(l');
    assert NoDup(List(s, l));
  }

  /** No thread's stack is in use by two CPUs. */
  lemma NoSharedStack(states: seq<State>, steps: seq<Step>, i: nat, c: nat, d: nat)
    requires IsRun(states, steps) && i < |states| && c < |states[i].cpus| && d < |states[i].cpus|
    requires states[i].cpus[c].cur == states[i].cpus[d].cur
    ensures c == d
  {
    RunInv(states, steps, i);
    InvAt(states[i], c);
    InvAt(states[i], d);
  }

  /** No thread is lost: one that is on no list is running on its own CPU. */
  lemma NoneLost(states: seq<State>, steps: seq<Step>, i: nat, t: nat)
    requires IsRun(states, steps) && i < |states| && t in states[i].threads
    requires forall l :: t !in List(states[i], l)
    ensures var s := states[i]; var c := s.threads[t].cpu;
            c < |s.cpus| && s.cpus[c].cur == t && OffList(s.cpus[c].pc)
  {
    RunInv(states, steps, i);
    var s := states[i];
    assert ThreadOk(s, t);
    forall l ensures s.threads[t].loc != On(l) {
      assert t !in List(s, l);
    }
  }

  /** A thread on a run queue is S_READY and belongs to that CPU, also when its wakeup raced
      its going to sleep. */
  lemma QueuedReady(states: seq<State>, steps: seq<Step>, i: nat, c: nat, t: nat)
    requires IsRun(states, steps) && i < |states| && t in List(states[i], Queue(c))
    ensures t in states[i].threads && states[i].threads[t].state == Ready && states[i].threads[t].cpu == c
  {
    RunInv(states, steps, i);
    assert ThreadOk(states[i], t);
  }

  /** The wakeup race itself: a thread that is on its channel, or already taken off it, while
      its CPU has yet to write S_SLEEP cannot be put on a run queue in the meantime, because
      its CPU holds the lock that the wakeup needs. */
  lemma WakeupWaits(states: seq<State>, steps: seq<Step>, i: nat, c: nat, d: nat)
    requires IsRun(states, steps) && i < |states| && c < |states[i].cpus| && d < |states[i].cpus|
    requires states[i].cpus[c].pc.Placed?
    requires states[i].cpus[d].op.PutLocked?
    ensures states[i].cpus[d].op.target != c
    ensures List(states[i], Hand(d)) != [] && Head(states[i], Hand(d)) != states[i].cpus[c].cur
  {
    var s := states[i];
    RunInv(states, steps, i);
    TargetSettled(s, d);
    InvAt(s, c);
    InvAt(s, d);
  }

  /** exorcise destroys only zombies, and never a thread some CPU is on. */
  lemma ZombiesOnly(states: seq<State>, steps: seq<Step>, i: nat, c: nat)
    requires IsRun(states, steps) && i < |states| && CanExorcise(states[i], c)
    ensures states[i].threads[Head(states[i], Zombies(c))].state == Zombie
    ensures forall x :: 0 <= x < |states[i].cpus| ==> states[i].cpus[x].cur != Head(states[i], Zombies(c))
  {
    RunInv(states, steps, i);
    ExorciseSafe(states[i], c);
  }

  /** No CPU sits in cpu_idle with a thread on its run queue and no interrupt on the way. */
  lemma NoStuckIdle(states: seq<State>, steps: seq<Step>, i: nat, c: nat)
    requires IsRun(states, steps) && i < |states| && c < |states[i].cpus|
    requires states[i].cpus[c].pc == Idle && List(states[i], Queue(c)) != []
    ensures states[i].cpus[c].ipi
  {
    RunInv(states, steps, i);
    InvAt(states[i], c);
  }

  /** Two CPUs never hold the same run queue lock or the same channel lock. */
  lemma LocksExclude(states: seq<State>, steps: seq<Step>, i: nat, c: nat, d: nat)
    requires IsRun(states, steps) && i < |states| && c < |states[i].cpus| && d < |states[i].cpus| && c != d
    ensures RqHeld(states[i].cpus[c], c) !! RqHeld(states[i].cpus[d], d)
    ensures LkHeld(states[i].cpus[c]) !! LkHeld(states[i].cpus[d])
  {
    RunInv(states, steps, i);
    var s := states[i];
    hide Lists, AllThreads, AllCurs, AllOps, RqHeld, LkHeld;
    forall x: nat ensures x !in RqHeld(s.cpus[c], c) || x !in RqHeld(s.cpus[d], d) {
      assert x in RqHeld(s.cpus[c], c) ==> x < |s.cpus| && s.cpus[x].rqHolder == Some(c);
      assert x in RqHeld(s.cpus[d], d) ==> x < |s.cpus| && s.cpus[x].rqHolder == Some(d);
    }
    forall w: nat ensures w !in LkHeld(s.cpus[c]) || w !in LkHeld(s.cpus[d]) {
      assert w in LkHeld(s.cpus[c]) ==> w in s.lkHolder && s.lkHolder[w] == c;
      assert w in LkHeld(s.cpus[d]) ==> w in s.lkHolder && s.lkHolder[w] == d;
    }
  }

  // ---- Migration under interference ----

  /** remtail never returns NULL: while victims remain to be taken, the queue is not empty. */
  lemma NeverNull(states: seq<State>, steps: seq<Step>, i: nat, c: nat)
    requires IsRun(states, steps) && i < |states| && c < |states[i].cpus|
    requires states[i].cpus[c].op.TakeLocked? && states[i].cpus[c].op.taken < states[i].cpus[c].op.left
    ensures CanTakeOne(states[i], c)
  {
    var s := states[i];
    RunInv(states, steps, i);
    InvAt(s, c);
    RemTailLists(s, Queue(c));
  }

  /** While threads remain to be sent there are victims to send, so remhead does not return
      NULL either. */
  lemma VictimsLeft(states: seq<State>, steps: seq<Step>, i: nat, c: nat)
    requires IsRun(states, steps) && i < |states| && c < |states[i].cpus|
    requires states[i].cpus[c].op.SendLocked? && states[i].cpus[c].op.left > 0
    ensures List(states[i], Hand(c)) != []
  {
    RunInv(states, steps, i);
    InvAt(states[i], c);
  }

  /** The queues and the private lists: where a ready thread can be. */
  ghost predicate Waiting(s: State, t: nat)
    requires t in s.threads
  {
    s.threads[t].loc.On? && (s.threads[t].loc.l.Queue? || s.threads[t].loc.l.Hand?)
  }

  /** No thread is made, lost or woken; one that changes CPU goes from a private list to the
      run queue of its new CPU, and no CPU is on it. */
  ghost predicate Conserved(s: State, s': State)
  {
    && s'.threads.Keys == s.threads.Keys
    && forall t :: t in s.threads ==>
         && s'.threads[t].state == s.threads[t].state
         && (Waiting(s', t) <==> Waiting(s, t))
         && (s'.threads[t].cpu != s.threads[t].cpu ==>
              && s'.threads[t].loc == On(Queue(s'.threads[t].cpu))
              && forall x :: 0 <= x < |s.cpus| ==> s.cpus[x].cur != t)
  }

  lemma MigrationConserves(states: seq<State>, steps: seq<Step>, i: nat)
    requires IsRun(states, steps) && i < |steps| && steps[i].Migrating?
    ensures Conserved(states[i], states[i + 1])
  {
    RunInv(states, steps, i);
    MigrateStepConserves(states[i], steps[i].mg);
  }

  /** Throughout states[a..b], CPU c holds the run queue lock of CPU d to send threads to it. */
  ghost predicate SendingTo(states: seq<State>, a: nat, b: nat, c: nat, d: nat)
    requires a <= b < |states|
  {
    forall j :: a <= j <= b ==>
      c < |states[j].cpus| && states[j].cpus[c].op.SendLocked? && states[j].cpus[c].op.i == d
  }

  /** While a CPU sends threads to another, the queue of the receiver never grows above one share,
      whatever all other CPUs do in the meantime. */
  lemma {:induction false} NeverAboveShare(states: seq<State>, steps: seq<Step>, a: nat, b: nat, c: nat, d: nat)
    requires IsRun(states, steps) && a <= b < |states| && SendingTo(states, a, b, c, d)
    ensures states[b].cpus[c].op.share == states[a].cpus[c].op.share
    ensures |List(states[b], Queue(d))| <= |List(states[a], Queue(d))|
         || |List(states[b], Queue(d))| <= states[a].cpus[c].op.share
    decreases b
  {
    hide Inv, Enabled, Apply, Init, List;
    if a < b {
      NeverAboveShare(states, steps, a, b - 1, c, d);
      RunInv(states, steps, b - 1);
      assert states[b - 1].cpus[c].op.SendLocked? && states[b].cpus[c].op.SendLocked?;
      ShareStep(states[b - 1], steps[b - 1], c, d);
    }
  }

  lemma ShareStep(s: State, st: Step, c: nat, d: nat)
    requires Inv(s) && Enabled(s, st) && c < |s.cpus| && s.cpus[c].op.SendLocked? && s.cpus[c].op.i == d
    requires c < |Apply(s, st).cpus| && Apply(s, st).cpus[c].op.SendLocked?
    ensures Apply(s, st).cpus[c].op.share == s.cpus[c].op.share
    ensures || |List(Apply(s, st), Queue(d))| <= |List(s, Queue(d))|
            || |List(Apply(s, st), Queue(d))| <= s.cpus[c].op.share
  {
    hide Inv, Lists, AllThreads, RqLocks, LkLocks, CurOk, Enabled, Apply, List;
    if Actor(st) == c {
      OpAt(s, c);
      SenderStep(s, st, c, d);
    } else {
      assert d in RqHeld(s.cpus[c], c);
      LockProtects(s, st, c, d);
      OpKept(s, st, c);
    }
  }

  lemma OpAt(s: State, c: nat)
    requires Inv(s) && c < |s.cpus|
    ensures s.cpus[c].op != NoOp ==> s.cpus[c].pc == Running || s.cpus[c].pc.SleepHeld? || s.cpus[c].pc == Idle
  {
    assert OpOk(s, c);
    hide Lists, AllThreads, RqLocks, LkLocks, AllCurs;
  }

  /** The sender's own step while it stays in the sending loop. */
  lemma SenderStep(s: State, st: Step, c: nat, d: nat)
    requires Enabled(s, st) && Actor(st) == c && c < |s.cpus| && s.cpus[c].op.SendLocked? && s.cpus[c].op.i == d
    requires s.cpus[c].pc == Running || s.cpus[c].pc.SleepHeld? || s.cpus[c].pc == Idle
    requires c < |Apply(s, st).cpus| && Apply(s, st).cpus[c].op.SendLocked?
    ensures Apply(s, st).cpus[c].op.share == s.cpus[c].op.share
    ensures || |List(Apply(s, st), Queue(d))| <= |List(s, Queue(d))|
            || |List(Apply(s, st), Queue(d))| <= s.cpus[c].op.share
  {
    assert !st.Waking?;
    assert st.Switching? ==> false;
    SendsOne(s, c);
  }

  lemma SendsOne(s: State, c: nat)
    requires c < |s.cpus| && s.cpus[c].op.SendLocked? && CanSendOne(s, c)
    ensures var s', op := DoSendOne(s, c), s.cpus[c].op;
            && |s'.cpus| == |s.cpus| && s'.cpus[c].op == SendLocked(op.i, op.left - 1, op.share)
            && |List(s', Queue(op.i))| <= op.share
  {
  }

  lemma MovedConserves(s: State, s': State, c: nat, m: nat)
    requires Moved(s, s', c, m) && m in s.threads && m in s'.threads
    requires s'.threads[m].state == s.threads[m].state && Waiting(s', m) && Waiting(s, m)
    requires s'.threads[m].cpu == s.threads[m].cpu
          || (s'.threads[m].loc == On(Queue(s'.threads[m].cpu)) && forall x :: 0 <= x < |s.cpus| ==> s.cpus[x].cur != m)
    ensures Conserved(s, s')
  {
  }

  lemma TakeOneConserves(s: State, c: nat)
    requires Inv(s) && CanTakeOne(s, c)
    ensures Conserved(s, DoTakeOne(s, c))
  {
    var s', m := DoTakeOne(s, c), List(s, Queue(c))[|List(s, Queue(c))| - 1];
    RemTailLists(s, Queue(c));
    TakeOneMoved(s, c);
    hide Inv, Moved, Conserved;
    MovedConserves(s, s', c, m);
  }

  lemma BackOneConserves(s: State, c: nat)
    requires Inv(s) && CanBackOne(s, c)
    ensures Conserved(s, DoBackOne(s, c))
  {
    var s', m := DoBackOne(s, c), Head(s, Hand(c));
    RemHeadLists(s, Hand(c));
    BackOneMoved(s, c);
    hide Inv, Moved, Conserved;
    MovedConserves(s, s', c, m);
  }

  lemma KeepCurrentConserves(s: State, c: nat)
    requires Inv(s) && CanSendOne(s, c)
    ensures Conserved(s, DoKeepCurrent(s, c))
  {
    var s', m := DoKeepCurrent(s, c), Head(s, Hand(c));
    RemHeadLists(s, Hand(c));
    KeepCurrentMoved(s, c);
    hide Inv, Moved, Conserved;
    MovedConserves(s, s', c, m);
  }

  lemma MigrateConserves(s: State, c: nat)
    requires Inv(s) && CanSendOne(s, c) && Head(s, Hand(c)) != s.cpus[c].cur
    ensures Conserved(s, DoMigrate(s, c))
  {
    var s', m := DoMigrate(s, c), Head(s, Hand(c));
    RemHeadLists(s, Hand(c));
    MigrateMoved(s, c);
    MigrateCur(s, c);
    assert s'.threads[m] == s.threads[m].(cpu := s.cpus[c].op.i, loc := On(Queue(s.cpus[c].op.i)));
    hide Inv, DoMigrate, Moved, Conserved;
    MovedConserves(s, s', c, m);
  }

  lemma MigrateStepConserves(s: State, st: MigrateStep)
    requires Inv(s) && CanMigrate(s, st)
    ensures Conserved(s, DoMigrateStep(s, st))
  {
    hide Inv;
    match st
    case TakeOne(c) => TakeOneConserves(s, c);
    case BackOne(c) => BackOneConserves(s, c);
    case SendOne(c) =>
      if Head(s, Hand(c)) == s.cpus[c].cur {
        KeepCurrentConserves(s, c);
      } else {
        MigrateConserves(s, c);
      }
    case _ => assert DoMigrateStep(s, st).threads == s.threads;
  }
}
