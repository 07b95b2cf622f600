/** The thread system does not deadlock: a CPU that cannot go on waits for a run queue lock, the
    holder of that lock can go on, and it releases the lock after a bounded number of its own
    steps, whatever all other CPUs do. */
module ThreadProgress {
  import opened Common
  import opened ThreadSystem
  import opened ThreadSafety
  import opened ThreadSteps
  import opened ThreadForks
  import opened ThreadFrames
  import opened ThreadRuns
  import opened ThreadOrder

  // ---- What a CPU does next ----

  /** The run queue lock that a CPU is waiting for. */
  function Awaited(s: State, c: nat): (x: Option<nat>)
    requires c < |s.cpus|
  {
    match s.cpus[c].op
    case NoOp => if s.cpus[c].pc == Unidling then Some(c) else None
    case PutWait(_, target) => Some(target)
    case Count(i, _, _) => if i < |s.cpus| then Some(i) else None
    case Take(_, _) => Some(c)
    case Send(i, left, _) => if left > 0 && i < |s.cpus| && i != c then Some(i) else None
    case Back => if List(s, Hand(c)) != [] then Some(c) else None
    case _ => None
  }

  /** The next step of a CPU in the middle of a wakeup, fork or migration. */
  function OpStep(s: State, c: nat): (st: Step)
    requires c < |s.cpus|
  {
    var op, hand := s.cpus[c].op, List(s, Hand(c));
    match op
    case NoOp => Migrating(MigrateStart(c))
    case Grab(w, all) => Waking(if List(s, Chan(w)) != [] && (all || hand == []) then WakeGrab(c) else WakeGrabbed(c))
    case Put(_) => Waking(if hand != [] then PutRead(c) else PutDone(c))
    case PutWait(_, _) => Waking(PutLock(c))
    case PutLocked(_, _) => Waking(PutEnqueue(c))
    case Count(i, _, _) => Migrating(if i < |s.cpus| then MigrateCount(c) else MigrateDecide(c))
    case Take(_, _) => Migrating(TakeLock(c))
    case TakeLocked(left, taken, _) => Migrating(if taken < left then TakeOne(c) else TakeDone(c))
    case Send(i, left, _) =>
      Migrating(if left == 0 || i >= |s.cpus| then SendDone(c) else if i == c then SendSkip(c) else SendLock(c))
    case SendLocked(i, left, share) =>
      Migrating(if left == 0 || |List(s, Queue(i))| >= share then SendUnlock(c) else SendOne(c))
    case Back => Migrating(if hand == [] then BackDone(c) else BackLock(c))
    case BackLocked => Migrating(if hand == [] then BackDone(c) else BackOne(c))
  }

  /** The next step of a CPU; outside every operation and outside thread_switch, one that it can
      always take. */
  function Move(s: State, c: nat): (st: Step)
    requires c < |s.cpus|
  {
    if s.cpus[c].op != NoOp then OpStep(s, c)
    else
      match s.cpus[c].pc
      case Running => Migrating(MigrateStart(c))
      case SleepHeld(_) => Switching(UnlockChan(c))
      case Locked(k) =>
        Switching(match k
                  case ToReady => if List(s, Queue(c)) == [] then NothingToDo(c) else PlaceReady(c)
                  case ToSleep(_) => PlaceSleep(c)
                  case ToZombie => PlaceZombie(c))
      case Placed(_) => Switching(WriteState(c))
      case Choosing => Switching(if List(s, Queue(c)) == [] then GoIdle(c) else Pick(c))
      case Idle => Switching(IdleReturn(c))
      case Unidling => Switching(Relock(c))
      case Picked => Switching(SwitchFrame(c))
      case Switched => Switching(Finish(c))
      case Exorcising => Switching(if List(s, Zombies(c)) == [] then ExorciseDone(c) else Exorcise(c))
  }

  /** CPU c is not kept waiting for a run queue lock. */
  predicate Free(s: State, c: nat)
  {
    && c < |s.cpus|
    && var x := Awaited(s, c);
       x == None || (x.value < |s.cpus| && s.cpus[x.value].rqHolder == None)
  }

  lemma HeadThere(s: State, l: ListId)
    requires Inv(s) && List(s, l) != []
    ensures Head(s, l) in s.threads
  {
    RemHeadLists(s, l);
  }

  lemma SwitchMoves(s: State, c: nat)
    requires Inv(s) && Free(s, c) && s.cpus[c].op == NoOp
    ensures Enabled(s, Move(s, c)) && Actor(Move(s, c)) == c
  {
    hide Inv, Lists, AllThreads, RqLocks, LkLocks, List, ThreadOk;
    InvAt(s, c);
    if List(s, Queue(c)) != [] {
      HeadThere(s, Queue(c));
    }
    if List(s, Hand(c)) != [] {
      HeadThere(s, Hand(c));
    }
    if List(s, Zombies(c)) != [] {
      HeadThere(s, Zombies(c));
    }
  }

  lemma WakeMoves(s: State, c: nat)
    requires Inv(s) && Free(s, c)
    requires var op := s.cpus[c].op; op.Grab? || op.Put? || op.PutWait? || op.PutLocked?
    ensures Enabled(s, OpStep(s, c)) && Actor(OpStep(s, c)) == c
  {
    hide Inv, Lists, AllThreads, RqLocks, LkLocks, List, ThreadOk, CurOk;
    InvAt(s, c);
    if List(s, Hand(c)) != [] {
      HeadThere(s, Hand(c));
    }
    if s.cpus[c].op.Grab? && List(s, Chan(s.cpus[c].op.w)) != [] {
      HeadThere(s, Chan(s.cpus[c].op.w));
    }
  }

  lemma MigrateMoves(s: State, c: nat)
    requires Inv(s) && Free(s, c)
    requires var op := s.cpus[c].op; op != NoOp && !(op.Grab? || op.Put? || op.PutWait? || op.PutLocked?)
    ensures Enabled(s, OpStep(s, c)) && Actor(OpStep(s, c)) == c
  {
    hide Inv, Lists, AllThreads, RqLocks, LkLocks, List, ThreadOk, CurOk;
    InvAt(s, c);
    if s.cpus[c].op.TakeLocked? {
      if List(s, Queue(c)) != [] {
        RemTailLists(s, Queue(c));
      }
    } else {
      if List(s, Hand(c)) != [] {
        HeadThere(s, Hand(c));
      }
      SendsToCpu(s, c);
    }
  }

  lemma SendsToCpu(s: State, c: nat)
    requires Inv(s) && c < |s.cpus|
    ensures s.cpus[c].op.SendLocked? ==> s.cpus[c].op.i < |s.cpus|
  {
    assert s.cpus[c].op.SendLocked? ==> s.cpus[c].op.i in RqHeld(s.cpus[c], c);
  }

  /** A CPU that no run queue lock keeps waiting can take its next step. */
  lemma FreeMoves(s: State, c: nat)
    requires Inv(s) && Free(s, c)
    ensures Enabled(s, Move(s, c)) && Actor(Move(s, c)) == c
  {
    var op := s.cpus[c].op;
    hide Inv, Free, Enabled, OpStep;
    if op == NoOp {
      SwitchMoves(s, c);
    } else if op.Grab? || op.Put? || op.PutWait? || op.PutLocked? {
      WakeMoves(s, c);
    } else {
      MigrateMoves(s, c);
    }
  }

  /** A CPU that holds a run queue lock waits for no other. */
  lemma HolderFree(s: State, x: nat)
    requires Inv(s) && x < |s.cpus| && s.cpus[x].rqHolder.Some?
    ensures var d := s.cpus[x].rqHolder.value; d < |s.cpus| && x in RqHeld(s.cpus[d], d) && Awaited(s, d) == None
  {
    var d := s.cpus[x].rqHolder.value;
    assert x in RqHeld(s.cpus[d], d);
    OpAt(s, d);
    hide Inv, List;
  }

  /** In every state of every run each CPU can go on, or waits for a run queue lock whose holder
      can. */
  lemma NoDeadlock(states: seq<State>, steps: seq<Step>, i: nat, c: nat)
    requires IsRun(states, steps) && i < |states| && c < |states[i].cpus|
    ensures var s := states[i];
            || Enabled(s, Move(s, c))
            || (&& Awaited(s, c).Some? && Awaited(s, c).value < |s.cpus|
                && s.cpus[Awaited(s, c).value].rqHolder.Some?
                && var d := s.cpus[Awaited(s, c).value].rqHolder.value;
                   d < |s.cpus| && d != c && Enabled(s, Move(s, d)))
  {
    hide IsRun, Inv, Enabled, Move, Awaited;
    var s := states[i];
    RunInv(states, steps, i);
    AwaitedCpu(s, c);
    if Free(s, c) {
      FreeMoves(s, c);
    } else {
      HolderFree(s, Awaited(s, c).value);
      FreeMoves(s, s.cpus[Awaited(s, c).value].rqHolder.value);
    }
  }

  lemma AwaitedCpu(s: State, c: nat)
    requires Inv(s) && c < |s.cpus|
    ensures Awaited(s, c).Some? ==> Awaited(s, c).value < |s.cpus|
  {
    InvAt(s, c);
    hide Inv, Lists, AllThreads, RqLocks, LkLocks, List, ThreadOk, CurOk;
  }

  // ---- How long a run queue lock is held ----

  /** How many steps of its own a CPU needs at most until it holds no run queue lock. */
  function StepsLeft(s: State, c: nat): (n: nat)
    requires c < |s.cpus|
  {
    match s.cpus[c].op
    case PutLocked(_, _) => 1
    case SendLocked(_, left, _) => left + 1
    case BackLocked => |List(s, Hand(c))| + 1
    case TakeLocked(left, taken, _) => (if taken < left then left - taken else 0) + 1
    case _ =>
      match s.cpus[c].pc
      case Locked(_) => 5
      case Placed(_) => 4
      case Choosing => 3
      case Picked => 2
      case Switched => 1
      case _ => 0
  }

  lemma LeftSwitch(s: State, st: SwitchStep, c: nat)
    requires CanSwitch(s, st) && st.c == c && s.cpus[c].op == NoOp && StepsLeft(s, c) > 0
    ensures c < |DoSwitchStep(s, st).cpus| && StepsLeft(DoSwitchStep(s, st), c) < StepsLeft(s, c)
  {
    hide List;
  }

  lemma LeftWake(s: State, st: WakeStep, c: nat)
    requires CanWake(s, st) && st.c == c && s.cpus[c].op.PutLocked? && !s.cpus[c].pc.Locked?
    requires s.cpus[c].pc == Running || s.cpus[c].pc.SleepHeld? || s.cpus[c].pc == Idle
    ensures c < |DoWakeStep(s, st).cpus| && StepsLeft(DoWakeStep(s, st), c) < StepsLeft(s, c)
  {
    hide List;
  }

  lemma LeftMigrate(s: State, st: MigrateStep, c: nat)
    requires CanMigrate(s, st) && st.c == c
    requires s.cpus[c].op.SendLocked? || s.cpus[c].op.BackLocked? || s.cpus[c].op.TakeLocked?
    requires s.cpus[c].pc == Running || s.cpus[c].pc.SleepHeld? || s.cpus[c].pc == Idle
    ensures c < |DoMigrateStep(s, st).cpus| && StepsLeft(DoMigrateStep(s, st), c) < StepsLeft(s, c)
  {
    hide DoBackOne, DoSendOne, List;
    if st.BackOne? {
      LeftBack(s, c);
    } else if st.SendOne? {
      LeftSend(s, c);
    }
  }

  lemma LeftSend(s: State, c: nat)
    requires CanSendOne(s, c)
    ensures var op := s.cpus[c].op;
            && c < |DoSendOne(s, c).cpus| && op.left > 0
            && DoSendOne(s, c).cpus[c].op == SendLocked(op.i, op.left - 1, op.share)
  {
    hide List;
  }

  lemma LeftBack(s: State, c: nat)
    requires CanBackOne(s, c)
    ensures |List(DoBackOne(s, c), Hand(c))| < |List(s, Hand(c))| && DoBackOne(s, c).cpus == s.cpus
  {
  }

  lemma LeftHeld(s: State, c: nat, x: nat)
    requires c < |s.cpus| && x in RqHeld(s.cpus[c], c)
    ensures StepsLeft(s, c) > 0
  {
    hide List;
  }

  lemma LeftOwn(s: State, st: Step, c: nat, x: nat)
    requires Inv(s) && c < |s.cpus| && x in RqHeld(s.cpus[c], c) && Enabled(s, st) && Actor(st) == c
    ensures c < |Apply(s, st).cpus| && StepsLeft(Apply(s, st), c) < StepsLeft(s, c)
  {
    OpAt(s, c);
    LeftHeld(s, c, x);
    hide Inv, List, StepsLeft, DoSwitchStep, DoWakeStep, DoMigrateStep;
    match st
    case Switching(sw) => LeftSwitch(s, sw, c);
    case Waking(wk) => LeftWake(s, wk, c);
    case Migrating(mg) => LeftMigrate(s, mg, c);
  }

  lemma LeftOther(s: State, st: Step, c: nat)
    requires c < |s.cpus| && Enabled(s, st) && Actor(st) != c
    ensures c < |Apply(s, st).cpus| && StepsLeft(Apply(s, st), c) == StepsLeft(s, c)
  {
    hide Enabled, Apply, List;
    OthersLeave(s, st, c);
  }

  /** How many of steps[i..j] CPU c takes. */
  function StepsOf(steps: seq<Step>, c: nat, i: nat, j: nat): (n: nat)
    requires i <= j <= |steps|
    decreases j
  {
    if i == j then 0 else StepsOf(steps, c, i, j - 1) + (if Actor(steps[j - 1]) == c then 1 else 0)
  }

  /** Throughout states[i..j + 1], CPU c holds the run queue lock of CPU x. */
  ghost predicate HoldsOn(states: seq<State>, i: nat, j: nat, c: nat, x: nat)
  {
    j < |states| && forall k :: i <= k <= j ==> x < |states[k].cpus| && states[k].cpus[x].rqHolder == Some(c)
  }

  /** A run queue lock is held for a bounded number of steps of its holder; the bound does not
      depend on the other CPUs. */
  lemma {:induction false} LockIsReleased(states: seq<State>, steps: seq<Step>, i: nat, j: nat, c: nat, x: nat)
    requires IsRun(states, steps) && i <= j <= |steps| && HoldsOn(states, i, j, c, x)
    ensures c < |states[i].cpus| && c < |states[j].cpus|
    ensures StepsOf(steps, c, i, j) + StepsLeft(states[j], c) <= StepsLeft(states[i], c)
    ensures StepsOf(steps, c, i, j) < StepsLeft(states[i], c)
    decreases j
  {
    hide IsRun, Inv, Enabled, Apply, StepsLeft, RqHeld, Awaited;
    RunInv(states, steps, j);
    HolderFree(states[j], x);
    LeftHeld(states[j], c, x);
    if i < j {
      LockIsReleased(states, steps, i, j - 1, c, x);
      RunStep(states, steps, j - 1);
      RunInv(states, steps, j - 1);
      if Actor(steps[j - 1]) == c {
        HolderFree(states[j - 1], x);
        LeftOwn(states[j - 1], steps[j - 1], c, x);
      } else {
        LeftOther(states[j - 1], steps[j - 1], c);
      }
    }
  }

  // ---- What a running thread can call ----

  /** Outside thread_switch and outside every operation, a CPU can begin any operation as soon as
      the lock that it takes is free: lock a channel, wake one or all threads of it, fork, yield,
      exit, and consider a migration. */
  lemma CanCall(states: seq<State>, steps: seq<Step>, i: nat, c: nat, w: nat, all: bool, t: nat)
    requires IsRun(states, steps) && i < |states| && c < |states[i].cpus|
    requires states[i].cpus[c].pc == Running && states[i].cpus[c].op == NoOp
    ensures var s := states[i]; var me := s.cpus[c].cur;
            && Enabled(s, Migrating(MigrateStart(c)))
            && (w !in s.lkHolder ==> Enabled(s, Switching(LockChan(c, w))) && Enabled(s, Waking(WakeStart(c, w, all))))
            && (s.cpus[c].rqHolder == None ==> Enabled(s, Switching(SwitchLock(c, ToReady))))
            && (List(s, Born(me)) == [] ==>
                 && (t !in s.threads ==> Enabled(s, Waking(Fork(c, t))))
                 && (s.cpus[c].rqHolder == None ==> Enabled(s, Switching(SwitchLock(c, ToZombie)))))
            && (List(s, Born(me)) != [] ==> Enabled(s, Waking(ForkPut(c))))
  {
    hide IsRun;
    RunInv(states, steps, i);
    if List(states[i], Born(states[i].cpus[c].cur)) != [] {
      HeadThere(states[i], Born(states[i].cpus[c].cur));
    }
    hide Inv;
  }

  /** With the lock of a channel held a CPU can sleep on it, wake its threads, or unlock it. */
  lemma CanSleep(states: seq<State>, steps: seq<Step>, i: nat, c: nat, w: nat, all: bool)
    requires IsRun(states, steps) && i < |states| && c < |states[i].cpus|
    requires states[i].cpus[c].pc == SleepHeld(w) && states[i].cpus[c].op == NoOp
    ensures var s := states[i];
            && Enabled(s, Switching(UnlockChan(c))) && Enabled(s, Waking(WakeStart(c, w, all)))
            && (s.cpus[c].rqHolder == None ==> Enabled(s, Switching(SwitchLock(c, ToSleep(w)))))
  {
    hide IsRun;
  }
}
