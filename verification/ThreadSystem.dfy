/** The thread system of kern/thread/thread.c as a step protocol over any number of CPUs,
    threads and wait channels.  Run queue locks and wait channel locks are explicit, and each
    step is one access to shared state, so every interleaving the locks allow is a run. */
module ThreadSystem {
  import opened Common

  /** t_state */
  datatype ThreadState = Run | Ready | Sleep | Zombie

  /** The lists a thread's list node can be on.  Hand(c) is the private list of CPU c: the
      thread or threads taken by a wakeup, the victims of a migration, the thread being made
      runnable by a fork, or the thread chosen to run next.  Born(p) holds the thread that p has
      created in thread_fork and not yet begun to make runnable. */
  datatype ListId = Queue(c: nat) | Chan(w: nat) | Zombies(c: nat) | Hand(c: nat) | Born(p: nat)

  datatype Location = Off | On(l: ListId)

  datatype Thread = Thread(state: ThreadState, cpu: nat, loc: Location)

  /** The newstate argument of thread_switch. */
  datatype Kind = ToReady | ToSleep(w: nat) | ToZombie

  /** Where a CPU is in thread_switch, on the stack of its current thread. */
  datatype Pc =
    | Running                 // outside thread_switch, interrupts possible
    | SleepHeld(w: nat)       // holds the lock of channel w and is about to sleep on it
    | Locked(k: Kind)         // run queue locked
    | Placed(k: Kind)         // current thread is on its new list; t_state not yet written
    | Choosing                // c_isidle set, run queue locked, looking for a thread
    | Idle                    // run queue unlocked, in cpu_idle
    | Unidling                // cpu_idle returned, run queue not locked again yet
    | Picked                  // next thread taken off the run queue
    | Switched                // on the stack of the next thread, run queue still locked
    | Exorcising              // run queue unlocked, destroying zombies

  /** What an interrupt handler or the running thread is doing to other threads. */
  datatype Op =
    | NoOp
    | Grab(w: nat, all: bool)                    // taking threads off channel w
    | Put(src: Option<nat>)                      // making the threads in Hand runnable
    | PutWait(src: Option<nat>, target: nat)     // t_cpu read, waiting for its run queue lock
    | PutLocked(src: Option<nat>, target: nat)
    | Count(i: nat, mine: nat, total: nat)       // thread_consider_migration
    | Take(left: nat, share: nat)
    | TakeLocked(left: nat, taken: nat, share: nat)
    | Send(i: nat, left: nat, share: nat)
    | SendLocked(i: nat, left: nat, share: nat)
    | Back
    | BackLocked

  datatype Cpu = Cpu(cur: nat, pc: Pc, op: Op, isIdle: bool, ipi: bool, rqHolder: Option<nat>)

  datatype State = State(cpus: seq<Cpu>, threads: map<nat, Thread>, lists: map<ListId, seq<nat>>,
                         lkHolder: map<nat, nat>)

  function List(s: State, l: ListId): (r: seq<nat>)
  {
    if l in s.lists then s.lists[l] else []
  }

  // ---- List operations, as threadlist.c offers them ----

  function SetLoc(s: State, t: nat, loc: Location): (r: State)
    requires t in s.threads
  {
    s.(threads := s.threads[t := s.threads[t].(loc := loc)])
  }

  function AddTail(s: State, l: ListId, t: nat): (r: State)
    requires t in s.threads
  {
    SetLoc(s, t, On(l)).(lists := s.lists[l := List(s, l) + [t]])
  }

  function AddHead(s: State, l: ListId, t: nat): (r: State)
    requires t in s.threads
  {
    SetLoc(s, t, On(l)).(lists := s.lists[l := [t] + List(s, l)])
  }

  function RemHead(s: State, l: ListId): (r: State)
    requires List(s, l) != [] && List(s, l)[0] in s.threads
  {
    SetLoc(s, List(s, l)[0], Off).(lists := s.lists[l := List(s, l)[1..]])
  }

  function RemTail(s: State, l: ListId): (r: State)
    requires List(s, l) != [] && List(s, l)[|List(s, l)| - 1] in s.threads
  {
    var q := List(s, l);
    SetLoc(s, q[|q| - 1], Off).(lists := s.lists[l := q[..|q| - 1]])
  }

  // ---- Small state updates ----

  function SetCpu(s: State, c: nat, k: Cpu): (r: State)
    requires c < |s.cpus|
  {
    s.(cpus := s.cpus[c := k])
  }

  function SetPc(s: State, c: nat, pc: Pc): (r: State)
    requires c < |s.cpus|
  {
    SetCpu(s, c, s.cpus[c].(pc := pc))
  }

  function SetOp(s: State, c: nat, op: Op): (r: State)
    requires c < |s.cpus|
  {
    SetCpu(s, c, s.cpus[c].(op := op))
  }

  function SetRq(s: State, c: nat, holder: Option<nat>): (r: State)
    requires c < |s.cpus|
  {
    SetCpu(s, c, s.cpus[c].(rqHolder := holder))
  }

  function SetState(s: State, t: nat, st: ThreadState): (r: State)
    requires t in s.threads
  {
    s.(threads := s.threads[t := s.threads[t].(state := st)])
  }

  /** ipi_send(c, IPI_UNIDLE), if c is idle and not the sender. */
  function Unidle(s: State, sender: nat, c: nat): (r: State)
    requires c < |s.cpus|
  {
    if s.cpus[c].isIdle && c != sender then SetCpu(s, c, s.cpus[c].(ipi := true)) else s
  }

  function Head(s: State, l: ListId): (t: nat)
    requires List(s, l) != []
  {
    List(s, l)[0]
  }

  function StateOf(k: Kind): (st: ThreadState)
  {
    match k
    case ToReady => Ready
    case ToSleep(_) => Sleep
    case ToZombie => Zombie
  }

  // ---- thread_switch ----

  /** An operation on other threads can start from running code, from code holding a channel
      lock, or from an interrupt taken while idle. */
  predicate MayStartOp(k: Cpu)
  {
    k.op == NoOp && (k.pc == Running || k.pc.SleepHeld? || k.pc == Idle)
  }

  /** Starting an operation on an idle CPU means an interrupt came: cpu_idle will return. */
  function StartOp(s: State, c: nat, op: Op): (r: State)
    requires c < |s.cpus|
  {
    var k := s.cpus[c];
    SetCpu(s, c, k.(op := op, ipi := k.ipi || k.pc == Idle))
  }

  /** DIVROUNDUP(total, n) */
  function OneShare(total: nat, n: nat): (r: nat)
    requires n > 0
  {
    (total + n - 1) / n
  }

  /** spinlock_acquire on a wait channel's lock, before wchan_sleep. */
  predicate CanLockChan(s: State, c: nat, w: nat)
  {
    c < |s.cpus| && s.cpus[c].pc == Running && s.cpus[c].op == NoOp && w !in s.lkHolder
  }

  function DoLockChan(s: State, c: nat, w: nat): (r: State)
    requires CanLockChan(s, c, w)
  {
    SetPc(s, c, SleepHeld(w)).(lkHolder := s.lkHolder[w := c])
  }

  /** spinlock_release without sleeping. */
  predicate CanUnlockChan(s: State, c: nat)
  {
    c < |s.cpus| && s.cpus[c].pc.SleepHeld? && s.cpus[c].op == NoOp
  }

  function DoUnlockChan(s: State, c: nat): (r: State)
    requires CanUnlockChan(s, c)
  {
    SetPc(s, c, Running).(lkHolder := s.lkHolder - {s.cpus[c].pc.w})
  }

  /** Entry of thread_switch up to locking the run queue.  A thread does not exit in the middle
      of thread_fork. */
  predicate CanSwitchLock(s: State, c: nat, kind: Kind)
  {
    && c < |s.cpus| && s.cpus[c].op == NoOp && s.cpus[c].rqHolder == None
    && (kind == ToZombie ==> List(s, Born(s.cpus[c].cur)) == [])
    && (if kind.ToSleep? then s.cpus[c].pc == SleepHeld(kind.w) else s.cpus[c].pc == Running)
  }

  function DoSwitchLock(s: State, c: nat, kind: Kind): (r: State)
    requires CanSwitchLock(s, c, kind)
  {
    SetCpu(s, c, s.cpus[c].(pc := Locked(kind), rqHolder := Some(c)))
  }

  /** Yielding with an empty run queue returns at once. */
  predicate CanNothingToDo(s: State, c: nat)
  {
    c < |s.cpus| && s.cpus[c].pc == Locked(ToReady) && List(s, Queue(c)) == []
  }

  function DoNothingToDo(s: State, c: nat): (r: State)
    requires CanNothingToDo(s, c)
  {
    SetCpu(s, c, s.cpus[c].(pc := Running, rqHolder := None))
  }

  /** The switch on newstate, case S_READY: thread_make_runnable with the lock held. */
  predicate CanPlaceReady(s: State, c: nat)
  {
    c < |s.cpus| && s.cpus[c].pc == Locked(ToReady) && s.cpus[c].cur in s.threads && List(s, Queue(c)) != []
  }

  function DoPlaceReady(s: State, c: nat): (r: State)
    requires CanPlaceReady(s, c)
  {
    var t := s.cpus[c].cur;
    SetPc(AddTail(SetState(s, t, Ready), Queue(c), t), c, Placed(ToReady))
  }

  /** Case S_SLEEP: onto the channel, then the channel lock is released while the run queue
      lock is still held and t_state is not yet S_SLEEP. */
  predicate CanPlaceSleep(s: State, c: nat)
  {
    c < |s.cpus| && s.cpus[c].pc.Locked? && s.cpus[c].pc.k.ToSleep? && s.cpus[c].cur in s.threads
  }

  function DoPlaceSleep(s: State, c: nat): (r: State)
    requires CanPlaceSleep(s, c)
  {
    var w, t := s.cpus[c].pc.k.w, s.cpus[c].cur;
    SetPc(AddTail(s, Chan(w), t), c, Placed(ToSleep(w))).(lkHolder := s.lkHolder - {w})
  }

  /** Case S_ZOMBIE. */
  predicate CanPlaceZombie(s: State, c: nat)
  {
    c < |s.cpus| && s.cpus[c].pc == Locked(ToZombie) && s.cpus[c].cur in s.threads
  }

  function DoPlaceZombie(s: State, c: nat): (r: State)
    requires CanPlaceZombie(s, c)
  {
    SetPc(AddTail(s, Zombies(c), s.cpus[c].cur), c, Placed(ToZombie))
  }

  /** `cur->t_state = newstate`, then c_isidle is set. */
  predicate CanWriteState(s: State, c: nat)
  {
    c < |s.cpus| && s.cpus[c].pc.Placed? && s.cpus[c].cur in s.threads
  }

  function DoWriteState(s: State, c: nat): (r: State)
    requires CanWriteState(s, c)
  {
    var k := s.cpus[c];
    SetCpu(SetState(s, k.cur, StateOf(k.pc.k)), c, k.(pc := Choosing, isIdle := true))
  }

  /** threadlist_remhead found a thread. */
  predicate CanPick(s: State, c: nat)
  {
    c < |s.cpus| && s.cpus[c].pc == Choosing && List(s, Queue(c)) != [] && Head(s, Queue(c)) in s.threads
  }

  function DoPick(s: State, c: nat): (r: State)
    requires CanPick(s, c)
  {
    var t := Head(s, Queue(c));
    SetCpu(AddTail(RemHead(s, Queue(c)), Hand(c), t), c, s.cpus[c].(pc := Picked, isIdle := false))
  }

  /** The run queue is empty: unlock it and call cpu_idle. */
  predicate CanGoIdle(s: State, c: nat)
  {
    c < |s.cpus| && s.cpus[c].pc == Choosing && List(s, Queue(c)) == []
  }

  function DoGoIdle(s: State, c: nat): (r: State)
    requires CanGoIdle(s, c)
  {
    SetCpu(s, c, s.cpus[c].(pc := Idle, rqHolder := None))
  }

  /** cpu_idle returns, because of an interrupt or for no reason. */
  predicate CanIdleReturn(s: State, c: nat)
  {
    c < |s.cpus| && s.cpus[c].pc == Idle && s.cpus[c].op == NoOp
  }

  function DoIdleReturn(s: State, c: nat): (r: State)
    requires CanIdleReturn(s, c)
  {
    SetCpu(s, c, s.cpus[c].(pc := Unidling, ipi := false))
  }

  predicate CanRelock(s: State, c: nat)
  {
    c < |s.cpus| && s.cpus[c].pc == Unidling && s.cpus[c].rqHolder == None
  }

  function DoRelock(s: State, c: nat): (r: State)
    requires CanRelock(s, c)
  {
    SetCpu(s, c, s.cpus[c].(pc := Choosing, rqHolder := Some(c)))
  }

  /** switchframe_switch: the CPU moves to the stack of the next thread. */
  predicate CanSwitchFrame(s: State, c: nat)
  {
    c < |s.cpus| && s.cpus[c].pc == Picked && List(s, Hand(c)) != [] && Head(s, Hand(c)) in s.threads
  }

  function DoSwitchFrame(s: State, c: nat): (r: State)
    requires CanSwitchFrame(s, c)
  {
    SetCpu(RemHead(s, Hand(c)), c, s.cpus[c].(pc := Switched, cur := Head(s, Hand(c))))
  }

  /** `cur->t_state = S_RUN` and release of the run queue lock, in thread_switch or
      thread_startup. */
  predicate CanFinish(s: State, c: nat)
  {
    c < |s.cpus| && s.cpus[c].pc == Switched && s.cpus[c].cur in s.threads
  }

  function DoFinish(s: State, c: nat): (r: State)
    requires CanFinish(s, c)
  {
    SetCpu(SetState(s, s.cpus[c].cur, Run), c, s.cpus[c].(pc := Exorcising, rqHolder := None))
  }

  /** One turn of exorcise: thread_destroy on the first zombie. */
  predicate CanExorcise(s: State, c: nat)
  {
    c < |s.cpus| && s.cpus[c].pc == Exorcising && List(s, Zombies(c)) != [] && Head(s, Zombies(c)) in s.threads
  }

  function DoExorcise(s: State, c: nat): (r: State)
    requires CanExorcise(s, c)
  {
    var s1 := RemHead(s, Zombies(c));
    s1.(threads := s1.threads - {Head(s, Zombies(c))})
  }

  predicate CanExorciseDone(s: State, c: nat)
  {
    c < |s.cpus| && s.cpus[c].pc == Exorcising && List(s, Zombies(c)) == []
  }

  function DoExorciseDone(s: State, c: nat): (r: State)
    requires CanExorciseDone(s, c)
  {
    SetPc(s, c, Running)
  }

  // ---- Wakeups and forks ----

  /** The caller of wchan_wakeone or wchan_wakeall takes the channel lock, or has it already and
      will sleep or unlock with it later. */
  predicate CanWakeStart(s: State, c: nat, w: nat)
  {
    c < |s.cpus| && MayStartOp(s.cpus[c]) && (w !in s.lkHolder || s.cpus[c].pc == SleepHeld(w))
  }

  function DoWakeStart(s: State, c: nat, w: nat, all: bool): (r: State)
    requires CanWakeStart(s, c, w)
  {
    StartOp(s, c, Grab(w, all)).(lkHolder := s.lkHolder[w := c])
  }

  /** threadlist_remhead on the channel; wakeone takes one thread, wakeall every thread. */
  predicate CanWakeGrab(s: State, c: nat)
  {
    && c < |s.cpus| && s.cpus[c].op.Grab?
    && List(s, Chan(s.cpus[c].op.w)) != [] && Head(s, Chan(s.cpus[c].op.w)) in s.threads
    && (s.cpus[c].op.all || List(s, Hand(c)) == [])
  }

  function DoWakeGrab(s: State, c: nat): (r: State)
    requires CanWakeGrab(s, c)
  {
    var l := Chan(s.cpus[c].op.w);
    AddTail(RemHead(s, l), Hand(c), Head(s, l))
  }

  predicate CanWakeGrabbed(s: State, c: nat)
  {
    && c < |s.cpus| && s.cpus[c].op.Grab?
    && (List(s, Chan(s.cpus[c].op.w)) == [] || (!s.cpus[c].op.all && List(s, Hand(c)) != []))
  }

  function DoWakeGrabbed(s: State, c: nat): (r: State)
    requires CanWakeGrabbed(s, c)
  {
    SetOp(s, c, Put(Some(s.cpus[c].op.w)))
  }

  /** thread_fork creates a thread and gives it the t_cpu of its parent. */
  predicate CanFork(s: State, c: nat, t: nat)
  {
    && c < |s.cpus| && s.cpus[c].pc == Running && s.cpus[c].op == NoOp && t !in s.threads
    && List(s, Born(s.cpus[c].cur)) == []
  }

  function DoFork(s: State, c: nat, t: nat): (r: State)
    requires CanFork(s, c, t)
  {
    AddTail(s.(threads := s.threads[t := Thread(Ready, c, Off)]), Born(s.cpus[c].cur), t)
  }

  /** The parent, which may have been switched out and migrated since, calls
      thread_make_runnable. */
  predicate CanForkPut(s: State, c: nat)
  {
    && c < |s.cpus| && s.cpus[c].pc == Running && s.cpus[c].op == NoOp
    && List(s, Born(s.cpus[c].cur)) != [] && Head(s, Born(s.cpus[c].cur)) in s.threads
  }

  function DoForkPut(s: State, c: nat): (r: State)
    requires CanForkPut(s, c)
  {
    var l := Born(s.cpus[c].cur);
    SetOp(AddTail(RemHead(s, l), Hand(c), Head(s, l)), c, Put(None))
  }

  /** thread_make_runnable reads t_cpu before it has any run queue lock. */
  predicate CanPutRead(s: State, c: nat)
  {
    c < |s.cpus| && s.cpus[c].op.Put? && List(s, Hand(c)) != [] && Head(s, Hand(c)) in s.threads
  }

  function DoPutRead(s: State, c: nat): (r: State)
    requires CanPutRead(s, c)
  {
    SetOp(s, c, PutWait(s.cpus[c].op.src, s.threads[Head(s, Hand(c))].cpu))
  }

  predicate CanPutLock(s: State, c: nat)
  {
    && c < |s.cpus| && s.cpus[c].op.PutWait?
    && s.cpus[c].op.target < |s.cpus| && s.cpus[s.cpus[c].op.target].rqHolder == None
  }

  function DoPutLock(s: State, c: nat): (r: State)
    requires CanPutLock(s, c)
  {
    var op := s.cpus[c].op;
    SetRq(SetOp(s, c, PutLocked(op.src, op.target)), op.target, Some(c))
  }

  /** The locked part of thread_make_runnable: S_READY, addtail, and the unidle interrupt. */
  predicate CanPutEnqueue(s: State, c: nat)
  {
    && c < |s.cpus| && s.cpus[c].op.PutLocked? && s.cpus[c].op.target < |s.cpus|
    && List(s, Hand(c)) != [] && Head(s, Hand(c)) in s.threads
  }

  function DoPutEnqueue(s: State, c: nat): (r: State)
    requires CanPutEnqueue(s, c)
  {
    var op, t := s.cpus[c].op, Head(s, Hand(c));
    var s1 := AddTail(SetState(RemHead(s, Hand(c)), t, Ready), Queue(op.target), t);
    var s2 := Unidle(s1, c, op.target);
    SetRq(SetOp(s2, c, Put(op.src)), op.target, None)
  }

  /** Nothing left to make runnable: a wakeup releases the channel lock that it took. */
  predicate CanPutDone(s: State, c: nat)
  {
    c < |s.cpus| && s.cpus[c].op.Put? && List(s, Hand(c)) == []
  }

  function DoPutDone(s: State, c: nat): (r: State)
    requires CanPutDone(s, c)
  {
    var src := s.cpus[c].op.src;
    SetOp(s, c, NoOp).(lkHolder := if src == None || s.cpus[c].pc == SleepHeld(src.value) then s.lkHolder
                                   else s.lkHolder - {src.value})
  }

  // ---- thread_consider_migration ----

  predicate CanMigrateStart(s: State, c: nat)
  {
    c < |s.cpus| && MayStartOp(s.cpus[c])
  }

  function DoMigrateStart(s: State, c: nat): (r: State)
    requires CanMigrateStart(s, c)
  {
    StartOp(s, c, Count(0, 0, 0))
  }

  /** Reads tl_count of CPU i under its run queue lock. */
  predicate CanMigrateCount(s: State, c: nat)
  {
    c < |s.cpus| && s.cpus[c].op.Count? && s.cpus[c].op.i < |s.cpus| && s.cpus[s.cpus[c].op.i].rqHolder == None
  }

  function DoMigrateCount(s: State, c: nat): (r: State)
    requires CanMigrateCount(s, c)
  {
    var op := s.cpus[c].op;
    var len := |List(s, Queue(op.i))|;
    SetOp(s, c, Count(op.i + 1, if op.i == c then len else op.mine, op.total + len))
  }

  predicate CanMigrateDecide(s: State, c: nat)
  {
    c < |s.cpus| && s.cpus[c].op.Count? && s.cpus[c].op.i == |s.cpus|
  }

  function DoMigrateDecide(s: State, c: nat): (r: State)
    requires CanMigrateDecide(s, c)
  {
    var op, share := s.cpus[c].op, OneShare(s.cpus[c].op.total, |s.cpus|);
    SetOp(s, c, if op.mine < share then NoOp else Take(op.mine - share, share))
  }

  predicate CanTakeLock(s: State, c: nat)
  {
    c < |s.cpus| && s.cpus[c].op.Take? && s.cpus[c].rqHolder == None
  }

  function DoTakeLock(s: State, c: nat): (r: State)
    requires CanTakeLock(s, c)
  {
    var k := s.cpus[c];
    SetCpu(s, c, k.(op := TakeLocked(k.op.left, 0, k.op.share), rqHolder := Some(c)))
  }

  /** `t = threadlist_remtail(&curcpu->c_runqueue); threadlist_addhead(&victims, t)`; the
      code does not check for NULL. */
  predicate CanTakeOne(s: State, c: nat)
  {
    && c < |s.cpus| && s.cpus[c].op.TakeLocked? && s.cpus[c].op.taken < s.cpus[c].op.left
    && List(s, Queue(c)) != [] && List(s, Queue(c))[|List(s, Queue(c))| - 1] in s.threads
  }

  function DoTakeOne(s: State, c: nat): (r: State)
    requires CanTakeOne(s, c)
  {
    var op, q := s.cpus[c].op, List(s, Queue(c));
    SetOp(AddHead(RemTail(s, Queue(c)), Hand(c), q[|q| - 1]), c, TakeLocked(op.left, op.taken + 1, op.share))
  }

  predicate CanTakeDone(s: State, c: nat)
  {
    c < |s.cpus| && s.cpus[c].op.TakeLocked? && s.cpus[c].op.taken == s.cpus[c].op.left
  }

  function DoTakeDone(s: State, c: nat): (r: State)
    requires CanTakeDone(s, c)
  {
    var k := s.cpus[c];
    SetCpu(s, c, k.(op := Send(0, k.op.left, k.op.share), rqHolder := None))
  }

  predicate CanSendLock(s: State, c: nat)
  {
    && c < |s.cpus| && s.cpus[c].op.Send? && s.cpus[c].op.left > 0
    && s.cpus[c].op.i < |s.cpus| && s.cpus[c].op.i != c && s.cpus[s.cpus[c].op.i].rqHolder == None
  }

  function DoSendLock(s: State, c: nat): (r: State)
    requires CanSendLock(s, c)
  {
    var op := s.cpus[c].op;
    SetRq(SetOp(s, c, SendLocked(op.i, op.left, op.share)), op.i, Some(c))
  }

  predicate CanSendSkip(s: State, c: nat)
  {
    c < |s.cpus| && s.cpus[c].op.Send? && s.cpus[c].op.left > 0 && s.cpus[c].op.i == c
  }

  function DoSendSkip(s: State, c: nat): (r: State)
    requires CanSendSkip(s, c)
  {
    var op := s.cpus[c].op;
    SetOp(s, c, Send(op.i + 1, op.left, op.share))
  }

  /** One turn of the sending loop: the current thread goes back to the end of the victims,
      any other thread to the receiver. */
  predicate CanSendOne(s: State, c: nat)
  {
    && c < |s.cpus| && s.cpus[c].op.SendLocked? && s.cpus[c].op.left > 0
    && s.cpus[c].op.i < |s.cpus| && |List(s, Queue(s.cpus[c].op.i))| < s.cpus[c].op.share
    && List(s, Hand(c)) != [] && Head(s, Hand(c)) in s.threads
  }

  function DoSendOne(s: State, c: nat): (r: State)
    requires CanSendOne(s, c)
  {
    if Head(s, Hand(c)) == s.cpus[c].cur then DoKeepCurrent(s, c) else DoMigrate(s, c)
  }

  function DoKeepCurrent(s: State, c: nat): (r: State)
    requires CanSendOne(s, c)
  {
    var op, t := s.cpus[c].op, Head(s, Hand(c));
    SetOp(AddTail(RemHead(s, Hand(c)), Hand(c), t), c, SendLocked(op.i, op.left - 1, op.share))
  }

  function DoMigrate(s: State, c: nat): (r: State)
    requires CanSendOne(s, c)
  {
    var op, t := s.cpus[c].op, Head(s, Hand(c));
    var s1 := RemHead(s, Hand(c));
    var s2 := AddTail(s1.(threads := s1.threads[t := s1.threads[t].(cpu := op.i)]), Queue(op.i), t);
    SetOp(Unidle(s2, c, op.i), c, SendLocked(op.i, op.left - 1, op.share))
  }

  predicate CanSendUnlock(s: State, c: nat)
  {
    && c < |s.cpus| && s.cpus[c].op.SendLocked? && s.cpus[c].op.i < |s.cpus|
    && (s.cpus[c].op.left == 0 || |List(s, Queue(s.cpus[c].op.i))| >= s.cpus[c].op.share)
  }

  function DoSendUnlock(s: State, c: nat): (r: State)
    requires CanSendUnlock(s, c)
  {
    var op := s.cpus[c].op;
    SetRq(SetOp(s, c, Send(op.i + 1, op.left, op.share)), op.i, None)
  }

  predicate CanSendDone(s: State, c: nat)
  {
    c < |s.cpus| && s.cpus[c].op.Send? && (s.cpus[c].op.left == 0 || s.cpus[c].op.i >= |s.cpus|)
  }

  function DoSendDone(s: State, c: nat): (r: State)
    requires CanSendDone(s, c)
  {
    SetOp(s, c, Back)
  }

  /** Leftover victims go back on the CPU's own run queue. */
  predicate CanBackLock(s: State, c: nat)
  {
    c < |s.cpus| && s.cpus[c].op.Back? && List(s, Hand(c)) != [] && s.cpus[c].rqHolder == None
  }

  function DoBackLock(s: State, c: nat): (r: State)
    requires CanBackLock(s, c)
  {
    SetCpu(s, c, s.cpus[c].(op := BackLocked, rqHolder := Some(c)))
  }

  predicate CanBackOne(s: State, c: nat)
  {
    c < |s.cpus| && s.cpus[c].op.BackLocked? && List(s, Hand(c)) != [] && Head(s, Hand(c)) in s.threads
  }

  function DoBackOne(s: State, c: nat): (r: State)
    requires CanBackOne(s, c)
  {
    AddTail(RemHead(s, Hand(c)), Queue(c), Head(s, Hand(c)))
  }

  predicate CanBackDone(s: State, c: nat)
  {
    c < |s.cpus| && (s.cpus[c].op.Back? || s.cpus[c].op.BackLocked?) && List(s, Hand(c)) == []
  }

  function DoBackDone(s: State, c: nat): (r: State)
    requires CanBackDone(s, c)
  {
    var k := s.cpus[c];
    SetCpu(s, c, k.(op := NoOp, rqHolder := if k.op.BackLocked? then None else k.rqHolder))
  }

  // ---- Steps ----

  datatype SwitchStep =
    | LockChan(c: nat, w: nat)
    | UnlockChan(c: nat)
    | SwitchLock(c: nat, k: Kind)
    | NothingToDo(c: nat)
    | PlaceReady(c: nat)
    | PlaceSleep(c: nat)
    | PlaceZombie(c: nat)
    | WriteState(c: nat)
    | Pick(c: nat)
    | GoIdle(c: nat)
    | IdleReturn(c: nat)
    | Relock(c: nat)
    | SwitchFrame(c: nat)
    | Finish(c: nat)
    | Exorcise(c: nat)
    | ExorciseDone(c: nat)

  datatype WakeStep =
    | WakeStart(c: nat, w: nat, all: bool)
    | WakeGrab(c: nat)
    | WakeGrabbed(c: nat)
    | Fork(c: nat, t: nat)
    | ForkPut(c: nat)
    | PutRead(c: nat)
    | PutLock(c: nat)
    | PutEnqueue(c: nat)
    | PutDone(c: nat)

  datatype MigrateStep =
    | MigrateStart(c: nat)
    | MigrateCount(c: nat)
    | MigrateDecide(c: nat)
    | TakeLock(c: nat)
    | TakeOne(c: nat)
    | TakeDone(c: nat)
    | SendLock(c: nat)
    | SendSkip(c: nat)
    | SendOne(c: nat)
    | SendUnlock(c: nat)
    | SendDone(c: nat)
    | BackLock(c: nat)
    | BackOne(c: nat)
    | BackDone(c: nat)

  datatype Step = Switching(sw: SwitchStep) | Waking(wk: WakeStep) | Migrating(mg: MigrateStep)

  predicate CanSwitch(s: State, st: SwitchStep)
  {
    match st
    case LockChan(c, w) => CanLockChan(s, c, w)
    case UnlockChan(c) => CanUnlockChan(s, c)
    case SwitchLock(c, k) => CanSwitchLock(s, c, k)
    case NothingToDo(c) => CanNothingToDo(s, c)
    case PlaceReady(c) => CanPlaceReady(s, c)
    case PlaceSleep(c) => CanPlaceSleep(s, c)
    case PlaceZombie(c) => CanPlaceZombie(s, c)
    case WriteState(c) => CanWriteState(s, c)
    case Pick(c) => CanPick(s, c)
    case GoIdle(c) => CanGoIdle(s, c)
    case IdleReturn(c) => CanIdleReturn(s, c)
    case Relock(c) => CanRelock(s, c)
    case SwitchFrame(c) => CanSwitchFrame(s, c)
    case Finish(c) => CanFinish(s, c)
    case Exorcise(c) => CanExorcise(s, c)
    case ExorciseDone(c) => CanExorciseDone(s, c)
  }

  function DoSwitchStep(s: State, st: SwitchStep): (r: State)
    requires CanSwitch(s, st)
  {
    match st
    case LockChan(c, w) => DoLockChan(s, c, w)
    case UnlockChan(c) => DoUnlockChan(s, c)
    case SwitchLock(c, k) => DoSwitchLock(s, c, k)
    case NothingToDo(c) => DoNothingToDo(s, c)
    case PlaceReady(c) => DoPlaceReady(s, c)
    case PlaceSleep(c) => DoPlaceSleep(s, c)
    case PlaceZombie(c) => DoPlaceZombie(s, c)
    case WriteState(c) => DoWriteState(s, c)
    case Pick(c) => DoPick(s, c)
    case GoIdle(c) => DoGoIdle(s, c)
    case IdleReturn(c) => DoIdleReturn(s, c)
    case Relock(c) => DoRelock(s, c)
    case SwitchFrame(c) => DoSwitchFrame(s, c)
    case Finish(c) => DoFinish(s, c)
    case Exorcise(c) => DoExorcise(s, c)
    case ExorciseDone(c) => DoExorciseDone(s, c)
  }

  predicate CanWake(s: State, st: WakeStep)
  {
    match st
    case WakeStart(c, w, _) => CanWakeStart(s, c, w)
    case WakeGrab(c) => CanWakeGrab(s, c)
    case WakeGrabbed(c) => CanWakeGrabbed(s, c)
    case Fork(c, t) => CanFork(s, c, t)
    case ForkPut(c) => CanForkPut(s, c)
    case PutRead(c) => CanPutRead(s, c)
    case PutLock(c) => CanPutLock(s, c)
    case PutEnqueue(c) => CanPutEnqueue(s, c)
    case PutDone(c) => CanPutDone(s, c)
  }

  function DoWakeStep(s: State, st: WakeStep): (r: State)
    requires CanWake(s, st)
  {
    match st
    case WakeStart(c, w, all) => DoWakeStart(s, c, w, all)
    case WakeGrab(c) => DoWakeGrab(s, c)
    case WakeGrabbed(c) => DoWakeGrabbed(s, c)
    case Fork(c, t) => DoFork(s, c, t)
    case ForkPut(c) => DoForkPut(s, c)
    case PutRead(c) => DoPutRead(s, c)
    case PutLock(c) => DoPutLock(s, c)
    case PutEnqueue(c) => DoPutEnqueue(s, c)
    case PutDone(c) => DoPutDone(s, c)
  }

  predicate CanMigrate(s: State, st: MigrateStep)
  {
    match st
    case MigrateStart(c) => CanMigrateStart(s, c)
    case MigrateCount(c) => CanMigrateCount(s, c)
    case MigrateDecide(c) => CanMigrateDecide(s, c)
    case TakeLock(c) => CanTakeLock(s, c)
    case TakeOne(c) => CanTakeOne(s, c)
    case TakeDone(c) => CanTakeDone(s, c)
    case SendLock(c) => CanSendLock(s, c)
    case SendSkip(c) => CanSendSkip(s, c)
    case SendOne(c) => CanSendOne(s, c)
    case SendUnlock(c) => CanSendUnlock(s, c)
    case SendDone(c) => CanSendDone(s, c)
    case BackLock(c) => CanBackLock(s, c)
    case BackOne(c) => CanBackOne(s, c)
    case BackDone(c) => CanBackDone(s, c)
  }

  function DoMigrateStep(s: State, st: MigrateStep): (r: State)
    requires CanMigrate(s, st)
  {
    match st
    case MigrateStart(c) => DoMigrateStart(s, c)
    case MigrateCount(c) => DoMigrateCount(s, c)
    case MigrateDecide(c) => DoMigrateDecide(s, c)
    case TakeLock(c) => DoTakeLock(s, c)
    case TakeOne(c) => DoTakeOne(s, c)
    case TakeDone(c) => DoTakeDone(s, c)
    case SendLock(c) => DoSendLock(s, c)
    case SendSkip(c) => DoSendSkip(s, c)
    case SendOne(c) => DoSendOne(s, c)
    case SendUnlock(c) => DoSendUnlock(s, c)
    case SendDone(c) => DoSendDone(s, c)
    case BackLock(c) => DoBackLock(s, c)
    case BackOne(c) => DoBackOne(s, c)
    case BackDone(c) => DoBackDone(s, c)
  }

  predicate Enabled(s: State, st: Step)
  {
    match st
    case Switching(sw) => CanSwitch(s, sw)
    case Waking(wk) => CanWake(s, wk)
    case Migrating(mg) => CanMigrate(s, mg)
  }

  function Apply(s: State, st: Step): (r: State)
    requires Enabled(s, st)
  {
    match st
    case Switching(sw) => DoSwitchStep(s, sw)
    case Waking(wk) => DoWakeStep(s, wk)
    case Migrating(mg) => DoMigrateStep(s, mg)
  }

  // ---- Initial states: every CPU runs its boot thread, which cpu_create leaves in S_READY ----

  ghost predicate Init(s: State)
  {
    && |s.cpus| > 0
    && (forall c :: 0 <= c < |s.cpus| ==> s.cpus[c] == Cpu(c, Running, NoOp, false, false, None))
    && (forall t :: t in s.threads <==> 0 <= t < |s.cpus|)
    && (forall t :: t in s.threads ==> s.threads[t] == Thread(Ready, t, Off))
    && s.lists == map[] && s.lkHolder == map[]
  }
}
