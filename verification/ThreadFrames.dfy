/** What the other CPUs leave alone: where a CPU is and what it has in its hands, and every list
    whose lock it holds. */
module ThreadFrames {
  import opened Common
  import opened ThreadSystem
  import opened ThreadSafety
  import opened ThreadSteps
  import opened ThreadForks

  // ---- A CPU and its private lists ----

  /** Where CPU c is, what it is doing, and the lists that only it uses. */
  ghost predicate SameCpu(s: State, s': State, c: nat)
  {
    && c < |s.cpus| == |s'.cpus|
    && s'.cpus[c].pc == s.cpus[c].pc && s'.cpus[c].cur == s.cpus[c].cur && s'.cpus[c].op == s.cpus[c].op
    && List(s', Hand(c)) == List(s, Hand(c)) && List(s', Zombies(c)) == List(s, Zombies(c))
  }

  lemma SwitchSame(s: State, st: SwitchStep, c: nat)
    requires CanSwitch(s, st) && st.c != c && c < |s.cpus|
    ensures SameCpu(s, DoSwitchStep(s, st), c)
  {
  }

  lemma WakeSame(s: State, st: WakeStep, c: nat)
    requires CanWake(s, st) && st.c != c && c < |s.cpus|
    ensures SameCpu(s, DoWakeStep(s, st), c)
  {
  }

  lemma SendSame(s: State, x: nat, c: nat)
    requires CanSendOne(s, x) && x != c && c < |s.cpus|
    ensures SameCpu(s, DoSendOne(s, x), c)
  {
  }

  lemma MigrateSame(s: State, st: MigrateStep, c: nat)
    requires CanMigrate(s, st) && st.c != c && c < |s.cpus|
    ensures SameCpu(s, DoMigrateStep(s, st), c)
  {
    hide DoSendOne;
    if st.SendOne? {
      SendSame(s, st.c, c);
    }
  }

  /** Other CPUs do not change where a CPU is, what it does and what it has in its hands. */
  lemma OthersLeave(s: State, st: Step, c: nat)
    requires Enabled(s, st) && Actor(st) != c && c < |s.cpus|
    ensures SameCpu(s, Apply(s, st), c)
  {
    hide CanSwitch, CanWake, CanMigrate, DoSwitchStep, DoWakeStep, DoMigrateStep, SameCpu;
    match st
    case Switching(sw) => SwitchSame(s, sw, c);
    case Waking(wk) => WakeSame(s, wk, c);
    case Migrating(mg) => MigrateSame(s, mg, c);
  }

  // ---- Threads ----

  function TouchedBySwitch(s: State, st: SwitchStep): (r: Option<nat>)
    requires CanSwitch(s, st)
  {
    match st
    case PlaceReady(c) => Some(s.cpus[c].cur)
    case PlaceSleep(c) => Some(s.cpus[c].cur)
    case PlaceZombie(c) => Some(s.cpus[c].cur)
    case WriteState(c) => Some(s.cpus[c].cur)
    case Finish(c) => Some(s.cpus[c].cur)
    case Pick(c) => Some(Head(s, Queue(c)))
    case SwitchFrame(c) => Some(Head(s, Hand(c)))
    case Exorcise(c) => Some(Head(s, Zombies(c)))
    case _ => None
  }

  function TouchedByWake(s: State, st: WakeStep): (r: Option<nat>)
    requires CanWake(s, st)
  {
    match st
    case WakeGrab(c) => Some(Head(s, Chan(s.cpus[c].op.w)))
    case Fork(_, t) => Some(t)
    case ForkPut(c) => Some(Head(s, Born(s.cpus[c].cur)))
    case PutEnqueue(c) => Some(Head(s, Hand(c)))
    case _ => None
  }

  function TouchedByMigrate(s: State, st: MigrateStep): (r: Option<nat>)
    requires CanMigrate(s, st)
  {
    match st
    case TakeOne(c) => Some(List(s, Queue(c))[|List(s, Queue(c))| - 1])
    case SendOne(c) => Some(Head(s, Hand(c)))
    case BackOne(c) => Some(Head(s, Hand(c)))
    case _ => None
  }

  /** The one thread, if any, whose t_state, t_cpu or place a step changes. */
  function Touched(s: State, st: Step): (r: Option<nat>)
    requires Enabled(s, st)
  {
    match st
    case Switching(sw) => TouchedBySwitch(s, sw)
    case Waking(wk) => TouchedByWake(s, wk)
    case Migrating(mg) => TouchedByMigrate(s, mg)
  }

  ghost predicate SameThread(s: State, s': State, t: nat)
  {
    (t in s'.threads <==> t in s.threads) && (t in s.threads ==> s'.threads[t] == s.threads[t])
  }

  lemma SwitchThread(s: State, st: SwitchStep, t: nat)
    requires CanSwitch(s, st) && TouchedBySwitch(s, st) != Some(t)
    ensures SameThread(s, DoSwitchStep(s, st), t)
  {
  }

  lemma WakeThread(s: State, st: WakeStep, t: nat)
    requires CanWake(s, st) && TouchedByWake(s, st) != Some(t)
    ensures SameThread(s, DoWakeStep(s, st), t)
  {
  }

  lemma MigrateThread(s: State, st: MigrateStep, t: nat)
    requires CanMigrate(s, st) && TouchedByMigrate(s, st) != Some(t)
    ensures SameThread(s, DoMigrateStep(s, st), t)
  {
  }

  lemma OtherThread(s: State, st: Step, t: nat)
    requires Enabled(s, st) && Touched(s, st) != Some(t)
    ensures SameThread(s, Apply(s, st), t)
  {
    hide CanSwitch, CanWake, CanMigrate, DoSwitchStep, DoWakeStep, DoMigrateStep, SameThread;
    hide TouchedBySwitch, TouchedByWake, TouchedByMigrate;
    match st
    case Switching(sw) => SwitchThread(s, sw, t);
    case Waking(wk) => WakeThread(s, wk, t);
    case Migrating(mg) => MigrateThread(s, mg, t);
  }

  // ---- Channels and their locks ----

  lemma SwitchChan(s: State, st: SwitchStep, w: nat)
    requires CanSwitch(s, st) && List(DoSwitchStep(s, st), Chan(w)) != List(s, Chan(w))
    ensures st.PlaceSleep? && st.c < |s.cpus| && s.cpus[st.c].pc == Locked(ToSleep(w))
    ensures List(DoSwitchStep(s, st), Chan(w)) == List(s, Chan(w)) + [s.cpus[st.c].cur]
  {
  }

  lemma WakeChan(s: State, st: WakeStep, w: nat)
    requires CanWake(s, st) && List(DoWakeStep(s, st), Chan(w)) != List(s, Chan(w))
    ensures st.WakeGrab? && st.c < |s.cpus| && s.cpus[st.c].op.Grab? && s.cpus[st.c].op.w == w
    ensures List(s, Chan(w)) != [] && List(DoWakeStep(s, st), Chan(w)) == List(s, Chan(w))[1..]
  {
  }

  lemma MigrateChan(s: State, st: MigrateStep, w: nat)
    requires CanMigrate(s, st)
    ensures List(DoMigrateStep(s, st), Chan(w)) == List(s, Chan(w))
  {
  }

  /** Wait channels are first in, first out, and change only under their lock. */
  lemma ChannelOrder(s: State, st: Step, w: nat)
    requires Enabled(s, st) && List(Apply(s, st), Chan(w)) != List(s, Chan(w))
    ensures Actor(st) < |s.cpus| && w in LkHeld(s.cpus[Actor(st)])
    ensures var q, q' := List(s, Chan(w)), List(Apply(s, st), Chan(w));
            || (st == Switching(PlaceSleep(Actor(st))) && q' == q + [s.cpus[Actor(st)].cur])
            || (st == Waking(WakeGrab(Actor(st))) && q != [] && q' == q[1..])
  {
    hide CanSwitch, CanWake, CanMigrate, DoSwitchStep, DoWakeStep, DoMigrateStep;
    match st
    case Switching(sw) => SwitchChan(s, sw, w);
    case Waking(wk) => WakeChan(s, wk, w);
    case Migrating(mg) => MigrateChan(s, mg, w);
  }

  /** So while a CPU holds the lock of a channel no other CPU changes that channel. */
  lemma ChannelProtected(s: State, st: Step, c: nat, w: nat)
    requires Inv(s) && Enabled(s, st) && c < |s.cpus| && w in LkHeld(s.cpus[c]) && Actor(st) != c
    ensures List(Apply(s, st), Chan(w)) == List(s, Chan(w))
  {
    assert w in s.lkHolder && s.lkHolder[w] == c;
    hide Lists, AllThreads, AllCurs, AllOps, RqLocks, LkHeld, Enabled, Apply;
    if List(Apply(s, st), Chan(w)) != List(s, Chan(w)) {
      ChannelOrder(s, st, w);
    }
  }

  // ---- Run queues ----

  lemma SwitchQueue(s: State, st: SwitchStep, x: nat)
    requires CanSwitch(s, st) && List(DoSwitchStep(s, st), Queue(x)) != List(s, Queue(x))
    ensures var q, q' := List(s, Queue(x)), List(DoSwitchStep(s, st), Queue(x));
            || (st == PlaceReady(x) && x < |s.cpus| && q' == q + [s.cpus[x].cur])
            || (st == Pick(x) && q != [] && q' == q[1..])
  {
  }

  lemma WakeQueue(s: State, st: WakeStep, x: nat)
    requires CanWake(s, st) && List(DoWakeStep(s, st), Queue(x)) != List(s, Queue(x))
    ensures st.PutEnqueue? && List(s, Hand(st.c)) != []
    ensures List(DoWakeStep(s, st), Queue(x)) == List(s, Queue(x)) + [List(s, Hand(st.c))[0]]
  {
  }

  lemma SendQueue(s: State, c: nat, x: nat)
    requires CanSendOne(s, c) && List(DoSendOne(s, c), Queue(x)) != List(s, Queue(x))
    ensures List(s, Hand(c)) != [] && List(DoSendOne(s, c), Queue(x)) == List(s, Queue(x)) + [List(s, Hand(c))[0]]
  {
  }

  lemma MigrateQueue(s: State, st: MigrateStep, x: nat)
    requires CanMigrate(s, st) && List(DoMigrateStep(s, st), Queue(x)) != List(s, Queue(x))
    ensures var q, q' := List(s, Queue(x)), List(DoMigrateStep(s, st), Queue(x));
            || (st == TakeOne(x) && q != [] && q' == q[..|q| - 1])
            || ((st.SendOne? || st.BackOne?) && List(s, Hand(st.c)) != [] && q' == q + [List(s, Hand(st.c))[0]])
  {
    hide DoSendOne;
    if st.SendOne? {
      SendQueue(s, st.c, x);
    }
  }

  /** The thread that a step puts on a run queue: the current one, or the first in hand. */
  function Joining(s: State, st: Step): (t: nat)
    requires Actor(st) < |s.cpus|
  {
    if st.Switching? || List(s, Hand(Actor(st))) == [] then s.cpus[Actor(st)].cur else List(s, Hand(Actor(st)))[0]
  }

  /** Run queues are first in, first out: a thread joins behind all others, only the CPU itself
      takes from the front, to run it, and from the back, to give it away. */
  lemma QueueOrder(s: State, st: Step, x: nat)
    requires Enabled(s, st) && List(Apply(s, st), Queue(x)) != List(s, Queue(x))
    ensures Actor(st) < |s.cpus|
    ensures var q, q' := List(s, Queue(x)), List(Apply(s, st), Queue(x));
            || q' == q + [Joining(s, st)]
            || (st == Switching(Pick(x)) && q != [] && q' == q[1..])
            || (st == Migrating(TakeOne(x)) && q != [] && q' == q[..|q| - 1])
  {
    hide CanSwitch, CanWake, CanMigrate, DoSwitchStep, DoWakeStep, DoMigrateStep, RqHeld;
    QueueGuarded(s, st, x);
    match st
    case Switching(sw) => SwitchQueue(s, sw, x);
    case Waking(wk) => WakeQueue(s, wk, x);
    case Migrating(mg) => MigrateQueue(s, mg, x);
  }
}
