/** The life of a thread: a forked thread first becomes ready on the CPU of its parent, a thread
    that runs is S_RUN, and a thread that exits is destroyed without ever running again. */
module ThreadLives {
  import opened Common
  import opened ThreadSystem
  import opened ThreadSafety
  import opened ThreadSteps
  import opened ThreadForks
  import opened ThreadFrames
  import opened ThreadRuns
  import opened ThreadOrder
  import opened ThreadWakeups

  // ---- thread_fork ----

  /** Thread t was created on CPU c and has not been made runnable yet. */
  ghost predicate Newborn(s: State, t: nat, c: nat)
  {
    && t in s.threads && s.threads[t].cpu == c && s.threads[t].state == Ready && s.threads[t].loc.On?
    && match s.threads[t].loc.l
       case Born(_) => true
       case Hand(d) => d < |s.cpus| && HandKindOf(s.cpus[d]) == Created
       case _ => false
  }

  lemma ForkStart(s: State, c: nat, t: nat)
    requires Inv(s) && Enabled(s, Waking(Fork(c, t)))
    ensures var p := s.cpus[c].cur; p in s.threads && s.threads[p].cpu == c
    ensures Newborn(Apply(s, Waking(Fork(c, t))), t, c)
  {
    InvAt(s, c);
    hide Inv, Lists, AllThreads, RqLocks, LkLocks, OpOk;
  }

  /** The CPU that has a new thread in its hands goes on making it runnable. */
  lemma CreatedKept(s: State, st: Step, d: nat)
    requires Inv(s) && Enabled(s, st) && d < |s.cpus| && HandKindOf(s.cpus[d]) == Created && List(s, Hand(d)) != []
    ensures d < |Apply(s, st).cpus| && HandKindOf(Apply(s, st).cpus[d]) == Created
  {
    if Actor(st) == d {
      WakeupOwnStep(s, st, d);
      hide Inv;
    } else {
      hide Inv, Enabled, Apply, List;
      OthersLeave(s, st, d);
    }
  }

  lemma NewbornOther(s: State, st: Step, t: nat, c: nat)
    requires Inv(s) && Newborn(s, t, c) && Enabled(s, st) && Touched(s, st) != Some(t)
    ensures Newborn(Apply(s, st), t, c)
  {
    var l := s.threads[t].loc.l;
    assert t in List(s, l);
    hide Inv, Enabled, Apply, List, Touched;
    OtherThread(s, st, t);
    if l.Hand? {
      CreatedKept(s, st, l.c);
    }
  }

  /** Only two steps touch a new thread. */
  lemma NewbornSwitch(s: State, st: SwitchStep, t: nat, c: nat)
    requires Inv(s) && Newborn(s, t, c) && CanSwitch(s, st)
    ensures TouchedBySwitch(s, st) != Some(t)
  {
    var x := st.c;
    InvAt(s, x);
    if st.Pick? {
      RemHeadLists(s, Queue(x));
    } else if st.SwitchFrame? {
      RemHeadLists(s, Hand(x));
    } else if st.Exorcise? {
      RemHeadLists(s, Zombies(x));
    } else {
      ThreadAt(s, t);
    }
    hide Inv, Lists, AllThreads, RqLocks, LkLocks;
  }

  lemma NewbornMigrate(s: State, st: MigrateStep, t: nat, c: nat)
    requires Inv(s) && Newborn(s, t, c) && CanMigrate(s, st)
    ensures TouchedByMigrate(s, st) != Some(t)
  {
    var x := st.c;
    InvAt(s, x);
    if st.TakeOne? {
      RemTailLists(s, Queue(x));
    } else if st.SendOne? || st.BackOne? {
      RemHeadLists(s, Hand(x));
    }
    hide Inv, Lists, AllThreads, RqLocks, LkLocks, CurOk, ThreadOk;
  }

  lemma NewbornForkPut(s: State, x: nat, t: nat, c: nat)
    requires Inv(s) && Newborn(s, t, c) && CanForkPut(s, x) && Head(s, Born(s.cpus[x].cur)) == t
    ensures Newborn(DoForkPut(s, x), t, c)
  {
    hide Inv, List;
  }

  lemma NewbornPut(s: State, x: nat, t: nat, c: nat)
    requires Inv(s) && Newborn(s, t, c) && CanPutEnqueue(s, x) && Head(s, Hand(x)) == t
    ensures JoinsQueue(s, DoPutEnqueue(s, x), t)
  {
    InvAt(s, x);
    hide Inv, Lists, AllThreads, RqLocks, LkLocks, CurOk, ThreadOk;
  }

  lemma NewbornWake(s: State, st: WakeStep, t: nat, c: nat)
    requires Inv(s) && Newborn(s, t, c) && CanWake(s, st) && TouchedByWake(s, st) == Some(t)
    ensures var s' := DoWakeStep(s, st); Newborn(s', t, c) || JoinsQueue(s, s', t)
  {
    hide Inv, JoinsQueue, List, DoForkPut, DoPutEnqueue, DoWakeGrab;
    if st.WakeGrab? {
      OnList(s, Chan(s.cpus[st.c].op.w), t);
    } else if st.ForkPut? {
      NewbornForkPut(s, st.c, t, c);
    } else if st.PutEnqueue? {
      NewbornPut(s, st.c, t, c);
    }
  }

  lemma NewbornStep(s: State, st: Step, t: nat, c: nat)
    requires Inv(s) && Newborn(s, t, c) && Enabled(s, st)
    ensures var s' := Apply(s, st); Newborn(s', t, c) || JoinsQueue(s, s', t)
  {
    hide Inv, Newborn, JoinsQueue, CanSwitch, CanWake, CanMigrate, DoSwitchStep, DoWakeStep, DoMigrateStep;
    hide TouchedBySwitch, TouchedByWake, TouchedByMigrate;
    if Touched(s, st) != Some(t) {
      NewbornOther(s, st, t, c);
    } else {
      match st
      case Switching(sw) => NewbornSwitch(s, sw, t, c);
      case Waking(wk) => NewbornWake(s, wk, t, c);
      case Migrating(mg) => NewbornMigrate(s, mg, t, c);
    }
  }

  /** Thread t is on no run queue in states[i + 1..j]. */
  ghost predicate NotQueued(states: seq<State>, i: nat, j: nat, t: nat)
  {
    j <= |states| && forall k, x :: i < k < j ==> t !in List(states[k], Queue(x))
  }

  lemma {:induction false} NewbornRun(states: seq<State>, steps: seq<Step>, i: nat, k: nat, c: nat, t: nat)
    requires IsRun(states, steps) && i < k <= |steps| && steps[i] == Waking(Fork(c, t))
    requires NotQueued(states, i, k + 1, t)
    ensures Newborn(states[k], t, c)
    decreases k
  {
    hide IsRun, Inv, Newborn, Enabled, Apply, List;
    RunStep(states, steps, k - 1);
    RunInv(states, steps, k - 1);
    if k == i + 1 {
      ForkStart(states[i], c, t);
    } else {
      NewbornRun(states, steps, i, k - 1, c, t);
      NewbornStep(states[k - 1], steps[k - 1], t, c);
    }
  }

  /** A forked thread belongs to the CPU on which its parent called thread_fork, wherever the
      parent is when it makes the thread runnable, and the first run queue that the thread gets on
      is that of this CPU, behind all threads that are there. */
  lemma ForkLands(states: seq<State>, steps: seq<Step>, i: nat, j: nat, c: nat, t: nat, x: nat)
    requires IsRun(states, steps) && i + 1 < j <= |steps| && steps[i] == Waking(Fork(c, t))
    requires NotQueued(states, i, j, t) && t in List(states[j], Queue(x))
    ensures var s := states[i]; c < |s.cpus| && s.cpus[c].cur in s.threads && s.threads[s.cpus[c].cur].cpu == c
    ensures x == c && List(states[j], Queue(c)) == List(states[j - 1], Queue(c)) + [t]
    ensures t in states[j].threads && states[j].threads[t].cpu == c && states[j].threads[t].state == Ready
  {
    hide IsRun, Inv, Enabled, Apply;
    RunStep(states, steps, i);
    RunInv(states, steps, i);
    assert c < |states[i].cpus| by { ForkActor(states[i], c, t); }
    ForkStart(states[i], c, t);
    NewbornRun(states, steps, i, j - 1, c, t);
    RunStep(states, steps, j - 1);
    RunInv(states, steps, j - 1);
    NewbornStep(states[j - 1], steps[j - 1], t, c);
    RunInv(states, steps, j);
    QueuedOnly(states[j], t, x, c);
  }

  lemma ForkActor(s: State, c: nat, t: nat)
    requires Enabled(s, Waking(Fork(c, t)))
    ensures c < |s.cpus|
  {
  }

  lemma QueuedOnly(s: State, t: nat, x: nat, c: nat)
    requires Inv(s) && t in List(s, Queue(x))
    ensures t in s.threads && s.threads[t].loc == On(Queue(x)) && s.threads[t].cpu == x
  {
    assert ThreadOk(s, t);
  }

  // ---- S_RUN ----

  /** CPU c runs thread t, which is S_RUN, and has not begun to give it up. */
  ghost predicate RunsOn(s: State, c: nat, t: nat)
  {
    && c < |s.cpus| && s.cpus[c].cur == t && t in s.threads && s.threads[t].state == Run
    && RunsPc(s.cpus[c].pc)
  }

  predicate RunsPc(pc: Pc)
  {
    pc == Running || pc.SleepHeld? || pc.Locked? || pc == Exorcising
  }

  /** A CPU leaves thread_switch with its thread in S_RUN. */
  lemma FinishRuns(s: State, c: nat)
    requires Inv(s) && Enabled(s, Switching(Finish(c)))
    ensures c < |s.cpus| && RunsOn(Apply(s, Switching(Finish(c))), c, s.cpus[c].cur)
  {
  }

  lemma RunsTouched(s: State, st: Step, c: nat, t: nat)
    requires Inv(s) && RunsOn(s, c, t) && Enabled(s, st) && Touched(s, st) == Some(t)
    ensures Actor(st) == c && st.Switching? && (st.sw.PlaceReady? || st.sw.PlaceSleep? || st.sw.PlaceZombie?)
  {
    var x := Actor(st);
    InvAt(s, c);
    InvAt(s, x);
    hide Inv;
    if st.Switching? {
      RunsSwitch(s, st.sw, c, t);
    } else if st.Waking? {
      WokenFrom(s, st.wk, t);
    } else {
      MovedFrom(s, st.mg, t);
    }
  }

  lemma RunsSwitch(s: State, st: SwitchStep, c: nat, t: nat)
    requires Inv(s) && RunsOn(s, c, t) && CanSwitch(s, st) && TouchedBySwitch(s, st) == Some(t) && st.c < |s.cpus|
    requires CurOk(s, c) && CurOk(s, st.c)
    ensures st.c == c && (st.PlaceReady? || st.PlaceSleep? || st.PlaceZombie?)
  {
    var x := st.c;
    if st.Pick? {
      OnList(s, Queue(x), t);
    } else if st.SwitchFrame? {
      OnList(s, Hand(x), t);
    } else if st.Exorcise? {
      OnList(s, Zombies(x), t);
    }
    hide Inv;
  }

  lemma OnList(s: State, l: ListId, t: nat)
    requires Inv(s) && List(s, l) != [] && Head(s, l) == t
    ensures t in s.threads && s.threads[t].loc == On(l)
  {
    RemHeadLists(s, l);
  }

  lemma RunsOwnSwitch(s: State, st: SwitchStep, c: nat)
    requires CanSwitch(s, st) && st.c == c && RunsPc(s.cpus[c].pc) && TouchedBySwitch(s, st) != Some(s.cpus[c].cur)
    ensures var s' := DoSwitchStep(s, st); c < |s'.cpus| && s'.cpus[c].cur == s.cpus[c].cur && RunsPc(s'.cpus[c].pc)
  {
  }

  lemma RunsOwnWake(s: State, st: WakeStep, c: nat)
    requires CanWake(s, st) && st.c == c
    ensures var s' := DoWakeStep(s, st);
            c < |s.cpus| == |s'.cpus| && s'.cpus[c].cur == s.cpus[c].cur && s'.cpus[c].pc == s.cpus[c].pc
  {
    hide List;
  }

  lemma RunsOwnMigrate(s: State, st: MigrateStep, c: nat)
    requires CanMigrate(s, st) && st.c == c
    ensures var s' := DoMigrateStep(s, st);
            c < |s.cpus| == |s'.cpus| && s'.cpus[c].cur == s.cpus[c].cur && s'.cpus[c].pc == s.cpus[c].pc
  {
    hide List;
  }

  lemma RunsStep(s: State, st: Step, c: nat, t: nat)
    requires Inv(s) && RunsOn(s, c, t) && Enabled(s, st) && Touched(s, st) != Some(t)
    ensures RunsOn(Apply(s, st), c, t)
  {
    OtherThread(s, st, t);
    hide Inv, Touched, List;
    if Actor(st) != c {
      hide Enabled, Apply;
      OthersLeave(s, st, c);
    } else {
      RunsOwn(s, st, c);
    }
  }

  lemma RunsOwn(s: State, st: Step, c: nat)
    requires Enabled(s, st) && Actor(st) == c && c < |s.cpus| && RunsPc(s.cpus[c].pc)
    requires Touched(s, st) != Some(s.cpus[c].cur)
    ensures var s' := Apply(s, st); c < |s'.cpus| && s'.cpus[c].cur == s.cpus[c].cur && RunsPc(s'.cpus[c].pc)
  {
    hide CanSwitch, CanWake, CanMigrate, DoSwitchStep, DoWakeStep, DoMigrateStep, RunsPc;
    hide TouchedBySwitch, TouchedByWake, TouchedByMigrate;
    match st
    case Switching(sw) => RunsOwnSwitch(s, sw, c);
    case Waking(wk) => RunsOwnWake(s, wk, c);
    case Migrating(mg) => RunsOwnMigrate(s, mg, c);
  }

  /** A step that puts the current thread of CPU c on a list. */
  predicate GivesUp(st: Step, c: nat)
  {
    st == Switching(PlaceReady(c)) || st == Switching(PlaceSleep(c)) || st == Switching(PlaceZombie(c))
  }

  /** From its return from thread_switch until it is put on a list again, a thread stays current
      on its CPU and in S_RUN, whatever all other CPUs do. */
  lemma {:induction false} RunsOnAndOn(states: seq<State>, steps: seq<Step>, i: nat, k: nat, c: nat)
    requires IsRun(states, steps) && i < k <= |steps| && steps[i] == Switching(Finish(c))
    requires forall m :: i < m < k ==> !GivesUp(steps[m], c)
    ensures c < |states[i].cpus| && RunsOn(states[k], c, states[i].cpus[c].cur)
    decreases k
  {
    hide IsRun, Inv, RunsOn, Enabled, Apply, Touched;
    RunStep(states, steps, k - 1);
    RunInv(states, steps, k - 1);
    if k == i + 1 {
      FinishRuns(states[i], c);
    } else {
      RunsOnAndOn(states, steps, i, k - 1, c);
      var s, st, t := states[k - 1], steps[k - 1], states[i].cpus[c].cur;
      if Touched(s, st) == Some(t) {
        RunsTouched(s, st, c, t);
      }
      RunsStep(s, st, c, t);
    }
  }

  // ---- thread_exit ----

  /** Thread t is on its way out through CPU c. */
  ghost predicate Exiting(s: State, c: nat, t: nat)
  {
    && c < |s.cpus| && s.cpus[c].cur == t && ExitPc(s.cpus[c].pc)
    && (s.cpus[c].pc != Locked(ToZombie) ==> Zombied(s, t))
  }

  predicate ExitPc(pc: Pc)
  {
    || pc == Locked(ToZombie) || pc == Placed(ToZombie) || pc == Choosing || pc == Idle || pc == Unidling
    || pc == Picked
  }

  /** Thread t has exited: it waits to be destroyed or has been, and no CPU is on it. */
  ghost predicate Exited(s: State, t: nat)
  {
    (t in s.threads ==> Zombied(s, t)) && forall x :: 0 <= x < |s.cpus| ==> s.cpus[x].cur != t
  }

  lemma ZombieSwitch(s: State, st: SwitchStep, t: nat)
    requires Inv(s) && Zombied(s, t) && CanSwitch(s, st) && TouchedBySwitch(s, st) == Some(t)
    ensures st.WriteState? || st.Exorcise?
    ensures st.WriteState? ==> Zombied(DoSwitchStep(s, st), t)
    ensures st.Exorcise? ==> t !in DoSwitchStep(s, st).threads && DoSwitchStep(s, st).cpus == s.cpus
  {
    InvAt(s, st.c);
    if st.Pick? {
      OnList(s, Queue(st.c), t);
    } else if st.SwitchFrame? {
      OnList(s, Hand(st.c), t);
    }
    hide Inv, Lists, AllThreads, RqLocks, LkLocks, OpOk;
  }

  lemma ZombieWake(s: State, st: WakeStep, t: nat)
    requires Inv(s) && Zombied(s, t) && CanWake(s, st)
    ensures TouchedByWake(s, st) != Some(t)
  {
    if TouchedByWake(s, st) == Some(t) {
      WokenFrom(s, st, t);
    }
  }

  lemma WokenFrom(s: State, st: WakeStep, t: nat)
    requires Inv(s) && CanWake(s, st) && TouchedByWake(s, st) == Some(t)
    ensures t !in s.threads || (s.threads[t].loc.On? && !s.threads[t].loc.l.Zombies?)
  {
    var x := st.c;
    if st.WakeGrab? {
      OnList(s, Chan(s.cpus[x].op.w), t);
    } else if st.ForkPut? {
      OnList(s, Born(s.cpus[x].cur), t);
    } else if st.PutEnqueue? {
      OnList(s, Hand(x), t);
    }
    hide Inv;
  }

  lemma MovedFrom(s: State, st: MigrateStep, t: nat)
    requires Inv(s) && CanMigrate(s, st) && TouchedByMigrate(s, st) == Some(t)
    ensures t !in s.threads || (s.threads[t].loc.On? && !s.threads[t].loc.l.Zombies?)
  {
    if st.TakeOne? {
      RemTailLists(s, Queue(st.c));
    } else {
      OnList(s, Hand(st.c), t);
    }
    hide Inv;
  }

  /** A zombie stays one until it is destroyed. */
  lemma ZombieStays(s: State, st: Step, t: nat)
    requires Inv(s) && Zombied(s, t) && Enabled(s, st)
    ensures Zombied(Apply(s, st), t) || (st == Switching(Exorcise(Actor(st))) && t !in Apply(s, st).threads)
  {
    if Touched(s, st) != Some(t) {
      hide Inv, Enabled, Apply, Touched;
      OtherThread(s, st, t);
    } else {
      hide Inv, Zombied, CanSwitch, CanWake, CanMigrate, DoSwitchStep, DoWakeStep, DoMigrateStep;
      hide TouchedBySwitch, TouchedByWake, TouchedByMigrate;
      match st
      case Switching(sw) => ZombieSwitch(s, sw, t);
      case Waking(wk) => ZombieWake(s, wk, t);
      case Migrating(mg) => ZombieMigrate(s, mg, t);
    }
  }

  lemma ZombieMigrate(s: State, st: MigrateStep, t: nat)
    requires Inv(s) && Zombied(s, t) && CanMigrate(s, st)
    ensures TouchedByMigrate(s, st) != Some(t)
  {
    if TouchedByMigrate(s, st) == Some(t) {
      MovedFrom(s, st, t);
    }
  }

  lemma ExitStart(s: State, c: nat)
    requires Enabled(s, Switching(SwitchLock(c, ToZombie)))
    ensures c < |s.cpus| && Exiting(Apply(s, Switching(SwitchLock(c, ToZombie))), c, s.cpus[c].cur)
  {
  }

  lemma ExitSwitch(s: State, st: SwitchStep, c: nat)
    requires c < |s.cpus| && CanSwitch(s, st) && st.c == c && ExitPc(s.cpus[c].pc) && !st.SwitchFrame?
    requires s.cpus[c].pc != Locked(ToZombie)
    ensures var s' := DoSwitchStep(s, st);
            && c < |s'.cpus| && s'.cpus[c].cur == s.cpus[c].cur && ExitPc(s'.cpus[c].pc)
            && s'.cpus[c].pc != Locked(ToZombie)
  {
    hide List;
  }

  lemma ExitPlace(s: State, st: SwitchStep, c: nat)
    requires Inv(s) && c < |s.cpus| && CanSwitch(s, st) && st.c == c && s.cpus[c].pc == Locked(ToZombie)
    ensures Exiting(DoSwitchStep(s, st), c, s.cpus[c].cur)
  {
    OpAt(s, c);
    hide Inv;
    assert st == PlaceZombie(c);
  }

  /** While a thread is on its way out, its CPU does not come to destroying zombies. */
  lemma NotDestroyed(s: State, st: Step, c: nat, t: nat)
    requires Inv(s) && Exiting(s, c, t) && Enabled(s, st) && Zombied(s, t)
    ensures Zombied(Apply(s, st), t)
  {
    ZombieStays(s, st, t);
    if t !in Apply(s, st).threads {
      DestroyedBy(s, Actor(st), t);
    }
  }

  lemma DestroyedBy(s: State, x: nat, t: nat)
    requires Inv(s) && CanExorcise(s, x) && t in s.threads && t !in DoExorcise(s, x).threads
    ensures s.threads[t].cpu == x && s.threads[t].loc == On(Zombies(x))
    ensures forall y :: 0 <= y < |s.cpus| ==> s.cpus[y].cur != t
  {
    OnList(s, Zombies(x), t);
    ThreadAt(s, t);
    ExorciseSafe(s, x);
    hide Inv;
  }

  lemma ExitStep(s: State, st: Step, c: nat, t: nat)
    requires Inv(s) && Exiting(s, c, t) && Enabled(s, st) && st != Switching(SwitchFrame(c))
    ensures Exiting(Apply(s, st), c, t)
  {
    if s.cpus[c].pc != Locked(ToZombie) {
      NotDestroyed(s, st, c, t);
    }
    hide Zombied;
    if Actor(st) != c {
      hide Inv, Enabled, Apply;
      OthersLeave(s, st, c);
    } else {
      hide CanSwitch, CanWake, CanMigrate, DoSwitchStep, DoWakeStep, DoMigrateStep;
      match st
      case Switching(sw) =>
        if s.cpus[c].pc == Locked(ToZombie) {
          ExitPlace(s, sw, c);
        } else {
          ExitSwitch(s, sw, c);
        }
      case Waking(wk) =>
        RunsOwnWake(s, wk, c);
        ExitNoOp(s, st, c);
      case Migrating(mg) =>
        RunsOwnMigrate(s, mg, c);
        ExitNoOp(s, st, c);
    }
  }

  /** No operation on other threads starts while the run queue is locked. */
  lemma ExitNoOp(s: State, st: Step, c: nat)
    requires Inv(s) && c < |s.cpus| && Enabled(s, st) && Actor(st) == c && !st.Switching?
    ensures !s.cpus[c].pc.Locked?
  {
    OpAt(s, c);
    hide Inv;
  }

  lemma ExitEnd(s: State, c: nat, t: nat)
    requires Inv(s) && Exiting(s, c, t) && Enabled(s, Switching(SwitchFrame(c)))
    ensures Exited(Apply(s, Switching(SwitchFrame(c))), t)
  {
    NotDestroyed(s, Switching(SwitchFrame(c)), c, t);
    OneRunner(s, c);
    OnList(s, Hand(c), Head(s, Hand(c)));
    hide Inv;
  }

  lemma ExitedSwitch(s: State, st: SwitchStep, t: nat)
    requires Inv(s) && Exited(s, t) && CanSwitch(s, st)
    ensures forall x :: 0 <= x < |DoSwitchStep(s, st).cpus| ==> DoSwitchStep(s, st).cpus[x].cur != t
  {
    if st.SwitchFrame? {
      OnList(s, Hand(st.c), Head(s, Hand(st.c)));
    }
    hide Inv;
  }

  lemma SameCurs(s: State, st: Step)
    requires Enabled(s, st) && !st.Switching?
    ensures |Apply(s, st).cpus| == |s.cpus|
    ensures forall x :: 0 <= x < |s.cpus| ==> Apply(s, st).cpus[x].cur == s.cpus[x].cur
  {
    hide Enabled, Apply;
    forall x | 0 <= x < |s.cpus| ensures |Apply(s, st).cpus| == |s.cpus| && Apply(s, st).cpus[x].cur == s.cpus[x].cur {
      if Actor(st) != x {
        OthersLeave(s, st, x);
      } else {
        OwnCur(s, st, x);
      }
    }
    OwnCur(s, st, Actor(st));
  }

  lemma OwnCur(s: State, st: Step, x: nat)
    requires Enabled(s, st) && !st.Switching? && Actor(st) == x
    ensures x < |s.cpus| == |Apply(s, st).cpus| && Apply(s, st).cpus[x].cur == s.cpus[x].cur
  {
    hide CanWake, CanMigrate, DoWakeStep, DoMigrateStep;
    match st
    case Waking(wk) => RunsOwnWake(s, wk, x);
    case Migrating(mg) => RunsOwnMigrate(s, mg, x);
  }

  lemma ExitedStep(s: State, st: Step, t: nat)
    requires Inv(s) && Exited(s, t) && Enabled(s, st) && !(st.Waking? && st.wk.Fork? && st.wk.t == t)
    ensures Exited(Apply(s, st), t)
  {
    var s' := Apply(s, st);
    if t in s.threads {
      ZombieStays(s, st, t);
    } else {
      NotRevived(s, st, t);
    }
    hide Zombied;
    if st.Switching? {
      ExitedSwitch(s, st.sw, t);
    } else {
      SameCurs(s, st);
    }
    hide Inv;
  }

  lemma NotRevived(s: State, st: Step, t: nat)
    requires Inv(s) && t !in s.threads && Enabled(s, st) && !(st.Waking? && st.wk.Fork? && st.wk.t == t)
    ensures t !in Apply(s, st).threads
  {
    if Touched(s, st) == Some(t) {
      TouchedExists(s, st, t);
    }
    hide Inv, Enabled, Apply, Touched;
    OtherThread(s, st, t);
  }

  lemma TouchedExists(s: State, st: Step, t: nat)
    requires Inv(s) && Enabled(s, st) && Touched(s, st) == Some(t) && !(st.Waking? && st.wk.Fork?)
    ensures t in s.threads
  {
    hide Inv, List;
  }

  lemma {:induction false} ExitRun(states: seq<State>, steps: seq<Step>, i: nat, k: nat, c: nat)
    requires IsRun(states, steps) && i < k <= |steps| && steps[i] == Switching(SwitchLock(c, ToZombie))
    requires NoneBetween(steps, i, k, Switching(SwitchFrame(c)))
    ensures c < |states[i].cpus| && Exiting(states[k], c, states[i].cpus[c].cur)
    decreases k
  {
    hide IsRun, Inv, Exiting, Enabled, Apply;
    RunStep(states, steps, k - 1);
    if k == i + 1 {
      ExitStart(states[i], c);
    } else {
      ExitRun(states, steps, i, k - 1, c);
      RunInv(states, steps, k - 1);
      ExitStep(states[k - 1], steps[k - 1], c, states[i].cpus[c].cur);
    }
  }

  /** No thread is created under the number t between steps[i] and steps[k]. */
  ghost predicate NotReused(steps: seq<Step>, i: nat, k: nat, t: nat)
  {
    k <= |steps| && forall m, x :: i < m < k ==> steps[m] != Waking(Fork(x, t))
  }

  /** A thread that exits is current on its CPU until the CPU switches to another thread, and from
      then on it is on no run queue and no CPU ever is on it again. */
  lemma {:induction false} ExitIsFinal(states: seq<State>, steps: seq<Step>, i: nat, j: nat, k: nat, c: nat)
    requires IsRun(states, steps) && i < |steps| && steps[i] == Switching(SwitchLock(c, ToZombie))
    requires NextAt(steps, i, j, Switching(SwitchFrame(c))) && j < k <= |steps| && c < |states[i].cpus|
    requires NotReused(steps, j, k, states[i].cpus[c].cur)
    ensures Exited(states[k], states[i].cpus[c].cur)
    ensures forall x :: states[i].cpus[c].cur !in List(states[k], Queue(x))
    decreases k
  {
    hide IsRun, Inv, Exited, Exiting, Enabled, Apply, List;
    RunStep(states, steps, k - 1);
    RunInv(states, steps, k - 1);
    var t := states[i].cpus[c].cur;
    if k == j + 1 {
      ExitRun(states, steps, i, j, c);
      ExitEnd(states[j], c, t);
    } else {
      ExitIsFinal(states, steps, i, j, k - 1, c);
      ExitedStep(states[k - 1], steps[k - 1], t);
    }
    RunInv(states, steps, k);
    ExitedOff(states[k], t);
  }

  lemma ExitedOff(s: State, t: nat)
    requires Inv(s) && Exited(s, t)
    ensures forall x :: t !in List(s, Queue(x))
  {
    forall x ensures t !in List(s, Queue(x)) {
      assert t in List(s, Queue(x)) <==> t in s.threads && s.threads[t].loc == On(Queue(x));
    }
  }

  // ---- exorcise ----

  /** Outside thread_switch, or in it for another purpose than to exit. */
  predicate Living(pc: Pc)
  {
    pc == Running || pc.SleepHeld? || pc.Locked? || pc == Placed(ToReady) || (pc.Placed? && pc.k.ToSleep?)
  }

  ghost predicate Reaped(s: State, c: nat)
    requires c < |s.cpus|
  {
    |List(s, Zombies(c))| <= 1 && (Living(s.cpus[c].pc) ==> List(s, Zombies(c)) == [])
  }

  lemma ReapSwitch(s: State, st: SwitchStep, c: nat)
    requires c < |s.cpus| && Reaped(s, c) && CanSwitch(s, st) && st.c == c
    ensures c < |DoSwitchStep(s, st).cpus| && Reaped(DoSwitchStep(s, st), c)
  {
  }

  lemma ReapWake(s: State, st: WakeStep, c: nat)
    requires c < |s.cpus| && Reaped(s, c) && CanWake(s, st) && st.c == c
    ensures c < |DoWakeStep(s, st).cpus| && Reaped(DoWakeStep(s, st), c)
  {
  }

  lemma ReapMigrate(s: State, st: MigrateStep, c: nat)
    requires c < |s.cpus| && Reaped(s, c) && CanMigrate(s, st) && st.c == c
    ensures c < |DoMigrateStep(s, st).cpus| && Reaped(DoMigrateStep(s, st), c)
  {
  }

  lemma ReapStep(s: State, st: Step, c: nat)
    requires c < |s.cpus| && Reaped(s, c) && Enabled(s, st)
    ensures c < |Apply(s, st).cpus| && Reaped(Apply(s, st), c)
  {
    if Actor(st) != c {
      hide Enabled, Apply, List;
      OthersLeave(s, st, c);
    } else {
      hide CanSwitch, CanWake, CanMigrate, DoSwitchStep, DoWakeStep, DoMigrateStep, Reaped;
      match st
      case Switching(sw) => ReapSwitch(s, sw, c);
      case Waking(wk) => ReapWake(s, wk, c);
      case Migrating(mg) => ReapMigrate(s, mg, c);
    }
  }

  /** A CPU never has more than one dead thread, and none once it is out of thread_switch: every
      thread that exited there has been destroyed. */
  lemma {:induction false} AllReaped(states: seq<State>, steps: seq<Step>, i: nat, c: nat)
    requires IsRun(states, steps) && i < |states| && c < |states[0].cpus|
    ensures c < |states[i].cpus| && Reaped(states[i], c)
  {
    if i > 0 {
      hide IsRun, Enabled, Apply, Reaped;
      AllReaped(states, steps, i - 1, c);
      assert |states| == |steps| + 1 by { RunLength(states, steps); }
      RunStep(states, steps, i - 1);
      ReapStep(states[i - 1], steps[i - 1], c);
    }
  }

  lemma RunLength(states: seq<State>, steps: seq<Step>)
    requires IsRun(states, steps)
    ensures |states| == |steps| + 1
  {
  }
}
