/** Two more things that every interleaving keeps: a thread being forked is never left behind by
    its parent, and a run queue is changed only by the CPU that holds its lock. */
module ThreadForks {
  import opened Common
  import opened ThreadSystem
  import opened ThreadSafety
  import opened ThreadSteps

  // ---- Forks ----

  /** On the list of dead threads. */
  ghost predicate Zombied(s: State, t: nat)
  {
    t in s.threads && s.threads[t].loc.On? && s.threads[t].loc.l.Zombies?
  }

  /** A thread that is in the middle of thread_fork exists, is not dead and is not about to die,
      and it forks one thread at a time. */
  ghost predicate Births(s: State)
  {
    && (forall p :: List(s, Born(p)) != [] ==> |List(s, Born(p))| == 1 && p in s.threads && !Zombied(s, p))
    && (forall c :: 0 <= c < |s.cpus| && s.cpus[c].pc == Locked(ToZombie) ==> List(s, Born(s.cpus[c].cur)) == [])
  }

  /** A step that has nothing to do with forks or exits. */
  ghost predicate Elsewhere(s: State, s': State)
  {
    && |s'.cpus| == |s.cpus|
    && (forall p :: List(s', Born(p)) == List(s, Born(p)))
    && (forall t :: t in s.threads ==> t in s'.threads && (Zombied(s', t) ==> Zombied(s, t)))
    && (forall c :: 0 <= c < |s.cpus| && s'.cpus[c].pc == Locked(ToZombie) ==>
         s.cpus[c].pc == Locked(ToZombie) && s'.cpus[c].cur == s.cpus[c].cur)
  }

  lemma ElsewhereBirths(s: State, s': State)
    requires Births(s) && Elsewhere(s, s')
    ensures Births(s')
  {
  }

  lemma SwitchElsewhere(s: State, st: SwitchStep)
    requires CanSwitch(s, st) && !st.PlaceZombie? && !st.Exorcise? && (st.SwitchLock? ==> st.k != ToZombie)
    ensures Elsewhere(s, DoSwitchStep(s, st))
  {
    if st.PlaceReady? {
      PlaceElsewhere(s, st.c);
    } else if st.PlaceSleep? {
      SleepElsewhere(s, st.c);
    } else if st.Pick? {
      PickElsewhere(s, st.c);
    } else if !st.SwitchFrame? {
      assert DoSwitchStep(s, st).lists == s.lists;
    }
  }

  lemma PlaceElsewhere(s: State, c: nat)
    requires CanPlaceReady(s, c)
    ensures Elsewhere(s, DoPlaceReady(s, c))
  {
  }

  lemma SleepElsewhere(s: State, c: nat)
    requires CanPlaceSleep(s, c)
    ensures Elsewhere(s, DoPlaceSleep(s, c))
  {
  }

  lemma PickElsewhere(s: State, c: nat)
    requires CanPick(s, c)
    ensures Elsewhere(s, DoPick(s, c))
  {
  }

  lemma WakeElsewhere(s: State, st: WakeStep)
    requires CanWake(s, st) && !st.Fork? && !st.ForkPut?
    ensures Elsewhere(s, DoWakeStep(s, st))
  {
    if st.WakeGrab? {
      GrabElsewhere(s, st.c);
    } else if st.PutEnqueue? {
      PutElsewhere(s, st.c);
    } else {
      assert DoWakeStep(s, st).lists == s.lists;
    }
  }

  lemma GrabElsewhere(s: State, c: nat)
    requires CanWakeGrab(s, c)
    ensures Elsewhere(s, DoWakeGrab(s, c))
  {
  }

  lemma PutElsewhere(s: State, c: nat)
    requires CanPutEnqueue(s, c)
    ensures Elsewhere(s, DoPutEnqueue(s, c))
  {
    PutEnqueueEffect(s, c);
    PutEnqueueMoved(s, c);
    assert !Zombied(DoPutEnqueue(s, c), Head(s, Hand(c)));
    hide DoPutEnqueue, List;
  }

  lemma MigrateElsewhere(s: State, st: MigrateStep)
    requires CanMigrate(s, st)
    ensures Elsewhere(s, DoMigrateStep(s, st))
  {
    if st.TakeOne? || st.BackOne? || st.SendOne? {
      MoveElsewhere(s, st);
    } else {
      assert DoMigrateStep(s, st).threads == s.threads && DoMigrateStep(s, st).lists == s.lists;
    }
  }

  lemma MoveElsewhere(s: State, st: MigrateStep)
    requires CanMigrate(s, st) && (st.TakeOne? || st.BackOne? || st.SendOne?)
    ensures Elsewhere(s, DoMigrateStep(s, st))
  {
    if st.TakeOne? {
      TakeElsewhere(s, st.c);
    } else if st.SendOne? {
      SendElsewhere(s, st.c);
    }
  }

  lemma TakeElsewhere(s: State, c: nat)
    requires CanTakeOne(s, c)
    ensures Elsewhere(s, DoTakeOne(s, c))
  {
  }

  lemma SendElsewhere(s: State, c: nat)
    requires CanSendOne(s, c)
    ensures Elsewhere(s, DoSendOne(s, c))
  {
  }

  lemma SwitchLockBirths(s: State, c: nat)
    requires Births(s) && CanSwitchLock(s, c, ToZombie)
    ensures Births(DoSwitchLock(s, c, ToZombie))
  {
  }

  lemma PlaceZombieBirths(s: State, c: nat)
    requires Births(s) && CanPlaceZombie(s, c)
    ensures Births(DoPlaceZombie(s, c))
  {
  }

  lemma ExorciseBirths(s: State, c: nat)
    requires Inv(s) && Births(s) && CanExorcise(s, c)
    ensures Births(DoExorcise(s, c))
  {
    hide Lists, AllThreads, AllCurs, AllOps, RqLocks, LkLocks;
    RemHeadLists(s, Zombies(c));
    ExorciseEffect(s, c);
    hide DoExorcise, List;
    assert Zombied(s, Head(s, Zombies(c)));
  }

  lemma ExorciseEffect(s: State, c: nat)
    requires CanExorcise(s, c)
    ensures var s', z := DoExorcise(s, c), Head(s, Zombies(c));
            && s'.cpus == s.cpus && (forall p :: List(s', Born(p)) == List(s, Born(p)))
            && (forall t :: t in s.threads && t != z ==> t in s'.threads && s'.threads[t] == s.threads[t])
  {
  }

  lemma ForkBirths(s: State, c: nat, t: nat)
    requires Inv(s) && Births(s) && CanFork(s, c, t)
    ensures Births(DoFork(s, c, t))
  {
    hide Inv, Lists, AllThreads, AllCurs, AllOps, RqLocks, LkLocks, OpOk, DoFork, List;
    InvAt(s, c);
    OneRunner(s, c);
    ForkEffect(s, c, t);
  }

  lemma ForkEffect(s: State, c: nat, t: nat)
    requires CanFork(s, c, t)
    ensures var s', p := DoFork(s, c, t), s.cpus[c].cur;
            && s'.cpus == s.cpus && List(s', Born(p)) == [t]
            && (forall q :: q != p ==> List(s', Born(q)) == List(s, Born(q)))
            && (forall x :: x in s.threads ==> x in s'.threads && s'.threads[x] == s.threads[x])
  {
  }

  /** No other CPU is on the same thread. */
  lemma OneRunner(s: State, c: nat)
    requires Inv(s) && c < |s.cpus|
    ensures forall x :: 0 <= x < |s.cpus| && x != c ==> s.cpus[x].cur != s.cpus[c].cur
  {
    InvAt(s, c);
    hide Lists, AllThreads, RqLocks, LkLocks, AllOps, OpOk;
    CurApart(s, c, s.cpus[c].cur);
  }

  lemma ForkPutBirths(s: State, c: nat)
    requires Births(s) && CanForkPut(s, c)
    ensures Births(DoForkPut(s, c))
  {
  }

  lemma StepBirths(s: State, st: Step)
    requires Inv(s) && Births(s) && Enabled(s, st)
    ensures Births(Apply(s, st))
  {
    hide Inv, Births, Elsewhere;
    match st
    case Switching(sw) =>
      if sw.SwitchLock? && sw.k == ToZombie {
        SwitchLockBirths(s, sw.c);
      } else if sw.PlaceZombie? {
        PlaceZombieBirths(s, sw.c);
      } else if sw.Exorcise? {
        ExorciseBirths(s, sw.c);
      } else {
        SwitchElsewhere(s, sw);
        ElsewhereBirths(s, Apply(s, st));
      }
    case Waking(wk) =>
      if wk.Fork? {
        ForkBirths(s, wk.c, wk.t);
      } else if wk.ForkPut? {
        ForkPutBirths(s, wk.c);
      } else {
        WakeElsewhere(s, wk);
        ElsewhereBirths(s, Apply(s, st));
      }
    case Migrating(mg) =>
      MigrateElsewhere(s, mg);
      ElsewhereBirths(s, Apply(s, st));
  }

  // ---- Run queues and their locks ----

  /** The CPU that takes the step. */
  function Actor(st: Step): (c: nat)
  {
    match st
    case Switching(sw) => sw.c
    case Waking(wk) => wk.c
    case Migrating(mg) => mg.c
  }

  lemma SwitchGuard(s: State, st: SwitchStep, x: nat)
    requires CanSwitch(s, st) && List(DoSwitchStep(s, st), Queue(x)) != List(s, Queue(x))
    ensures x == st.c && st.c < |s.cpus| && (s.cpus[st.c].pc.Locked? || s.cpus[st.c].pc == Choosing)
  {
  }

  lemma WakeGuard(s: State, st: WakeStep, x: nat)
    requires CanWake(s, st) && List(DoWakeStep(s, st), Queue(x)) != List(s, Queue(x))
    ensures st.c < |s.cpus| && s.cpus[st.c].op.PutLocked? && x == s.cpus[st.c].op.target
  {
  }

  lemma MigrateGuard(s: State, st: MigrateStep, x: nat)
    requires CanMigrate(s, st) && List(DoMigrateStep(s, st), Queue(x)) != List(s, Queue(x))
    ensures st.c < |s.cpus|
    ensures var op := s.cpus[st.c].op;
            ((op.TakeLocked? || op.BackLocked?) && x == st.c) || (op.SendLocked? && x == op.i)
  {
  }

  /** A step that changes a run queue is taken by a CPU that holds its lock. */
  lemma QueueGuarded(s: State, st: Step, x: nat)
    requires Enabled(s, st) && List(Apply(s, st), Queue(x)) != List(s, Queue(x))
    ensures Actor(st) < |s.cpus| && x in RqHeld(s.cpus[Actor(st)], Actor(st))
  {
    match st
    case Switching(sw) => SwitchGuard(s, sw, x);
    case Waking(wk) => WakeGuard(s, wk, x);
    case Migrating(mg) => MigrateGuard(s, mg, x);
  }

  /** So while a CPU holds the lock of a run queue no other CPU changes that queue. */
  lemma LockProtects(s: State, st: Step, c: nat, x: nat)
    requires Inv(s) && Enabled(s, st) && c < |s.cpus| && x in RqHeld(s.cpus[c], c) && Actor(st) != c
    ensures List(Apply(s, st), Queue(x)) == List(s, Queue(x))
  {
    hide Lists, AllThreads, AllCurs, AllOps, LkLocks, RqHeld, Enabled, Apply;
    if List(Apply(s, st), Queue(x)) != List(s, Queue(x)) {
      QueueGuarded(s, st, x);
    }
  }

  lemma SwitchOpKept(s: State, st: SwitchStep, c: nat)
    requires CanSwitch(s, st) && st.c != c && c < |s.cpus|
    ensures var s' := DoSwitchStep(s, st); |s'.cpus| == |s.cpus| && s'.cpus[c].op == s.cpus[c].op
  {
  }

  lemma WakeOpKept(s: State, st: WakeStep, c: nat)
    requires CanWake(s, st) && st.c != c && c < |s.cpus|
    ensures var s' := DoWakeStep(s, st); |s'.cpus| == |s.cpus| && s'.cpus[c].op == s.cpus[c].op
  {
  }

  lemma MigrateOpKept(s: State, st: MigrateStep, c: nat)
    requires CanMigrate(s, st) && st.c != c && c < |s.cpus|
    ensures var s' := DoMigrateStep(s, st); |s'.cpus| == |s.cpus| && s'.cpus[c].op == s.cpus[c].op
  {
    hide DoSendOne, List;
    if st.SendOne? {
      SendOneOpKept(s, st.c, c);
    }
  }

  lemma SendOneOpKept(s: State, x: nat, c: nat)
    requires CanSendOne(s, x) && x != c && c < |s.cpus|
    ensures |DoSendOne(s, x).cpus| == |s.cpus| && DoSendOne(s, x).cpus[c].op == s.cpus[c].op
  {
    hide List;
  }

  /** Other CPUs do not change what a CPU is doing. */
  lemma OpKept(s: State, st: Step, c: nat)
    requires Enabled(s, st) && Actor(st) != c && c < |s.cpus|
    ensures |Apply(s, st).cpus| == |s.cpus| && Apply(s, st).cpus[c].op == s.cpus[c].op
  {
    hide CanSwitch, CanWake, CanMigrate, DoSwitchStep, DoWakeStep, DoMigrateStep;
    match st
    case Switching(sw) => SwitchOpKept(s, sw, c);
    case Waking(wk) => WakeOpKept(s, wk, c);
    case Migrating(mg) => MigrateOpKept(s, mg, c);
  }
}
