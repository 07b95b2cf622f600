/** Every step of the thread system keeps the invariant.

    A step that changes one CPU only is proved by frame lemmas.  For a step X that moves one
    thread there are lemmas that only that thread and CPU change (XMoved), that the other CPUs'
    operations are undisturbed (XFrame), that the other threads do not depend on what changed
    (XView), that the thread itself is right (XThread), that the current threads (XCur) and the
    CPU's own operation (XSelf) are right, and the same for lists (XLists) and locks (XLocks);
    XInv puts them together. */
module ThreadSteps {
  import opened Common
  import opened ThreadSystem
  import opened ThreadSafety

  lemma LockChanInv(s: State, c: nat, w: nat)
    requires Inv(s) && CanLockChan(s, c, w)
    ensures Inv(DoLockChan(s, c, w))
  {
    hide Inv, Lists, AllThreads, AllCurs, AllOps, RqLocks, LkLocks;
    var s' := DoLockChan(s, c, w);
    InvAt(s, c);
    RqSame(s, s');
    LkAcquire(s, s', c, w);
    CpuOnly(s, s', c);
  }

  lemma UnlockChanInv(s: State, c: nat)
    requires Inv(s) && CanUnlockChan(s, c)
    ensures Inv(DoUnlockChan(s, c))
  {
    hide Inv, Lists, AllThreads, AllCurs, AllOps, RqLocks, LkLocks;
    var s' := DoUnlockChan(s, c);
    InvAt(s, c);
    RqSame(s, s');
    LkRelease(s, s', c, s.cpus[c].pc.w);
    CpuOnly(s, s', c);
  }

  lemma SwitchLockInv(s: State, c: nat, k: Kind)
    requires Inv(s) && CanSwitchLock(s, c, k)
    ensures Inv(DoSwitchLock(s, c, k))
  {
    hide Inv, Lists, AllThreads, AllCurs, AllOps, RqLocks, LkLocks;
    var s' := DoSwitchLock(s, c, k);
    InvAt(s, c);
    RqAcquire(s, s', c, c);
    LkSame(s, s');
    CpuOnly(s, s', c);
  }

  lemma NothingToDoInv(s: State, c: nat)
    requires Inv(s) && CanNothingToDo(s, c)
    ensures Inv(DoNothingToDo(s, c))
  {
    hide Inv, Lists, AllThreads, AllCurs, AllOps, RqLocks, LkLocks;
    var s' := DoNothingToDo(s, c);
    InvAt(s, c);
    RqRelease(s, s', c, c);
    LkSame(s, s');
    CpuOnly(s, s', c);
  }

  lemma GoIdleInv(s: State, c: nat)
    requires Inv(s) && CanGoIdle(s, c)
    ensures Inv(DoGoIdle(s, c))
  {
    hide Inv, Lists, AllThreads, AllCurs, AllOps, RqLocks, LkLocks;
    var s' := DoGoIdle(s, c);
    InvAt(s, c);
    RqRelease(s, s', c, c);
    LkSame(s, s');
    CpuOnly(s, s', c);
  }

  lemma IdleReturnInv(s: State, c: nat)
    requires Inv(s) && CanIdleReturn(s, c)
    ensures Inv(DoIdleReturn(s, c))
  {
    hide Inv, Lists, AllThreads, AllCurs, AllOps, RqLocks, LkLocks;
    var s' := DoIdleReturn(s, c);
    InvAt(s, c);
    RqSame(s, s');
    LkSame(s, s');
    CpuOnly(s, s', c);
  }

  lemma RelockInv(s: State, c: nat)
    requires Inv(s) && CanRelock(s, c)
    ensures Inv(DoRelock(s, c))
  {
    hide Inv, Lists, AllThreads, AllCurs, AllOps, RqLocks, LkLocks;
    var s' := DoRelock(s, c);
    InvAt(s, c);
    RqAcquire(s, s', c, c);
    LkSame(s, s');
    CpuOnly(s, s', c);
  }

  lemma ExorciseDoneInv(s: State, c: nat)
    requires Inv(s) && CanExorciseDone(s, c)
    ensures Inv(DoExorciseDone(s, c))
  {
    hide Inv, Lists, AllThreads, AllCurs, AllOps, RqLocks, LkLocks;
    var s' := DoExorciseDone(s, c);
    InvAt(s, c);
    RqSame(s, s');
    LkSame(s, s');
    CpuOnly(s, s', c);
  }

  lemma WakeStartInv(s: State, c: nat, w: nat, all: bool)
    requires Inv(s) && CanWakeStart(s, c, w)
    ensures Inv(DoWakeStart(s, c, w, all))
  {
    hide Inv, Lists, AllThreads, AllCurs, AllOps, RqLocks, LkLocks;
    var s' := DoWakeStart(s, c, w, all);
    InvAt(s, c);
    RqSame(s, s');
    if w in s.lkHolder {
      assert s'.lkHolder == s.lkHolder;
      LkSame(s, s');
    } else {
      LkAcquire(s, s', c, w);
    }
    CpuOnly(s, s', c);
  }

  lemma WakeGrabbedInv(s: State, c: nat)
    requires Inv(s) && CanWakeGrabbed(s, c)
    ensures Inv(DoWakeGrabbed(s, c))
  {
    hide Inv, Lists, AllThreads, AllCurs, AllOps, RqLocks, LkLocks;
    var s' := DoWakeGrabbed(s, c);
    InvAt(s, c);
    RqSame(s, s');
    LkSame(s, s');
    CpuOnly(s, s', c);
  }

  lemma PutReadInv(s: State, c: nat)
    requires Inv(s) && CanPutRead(s, c)
    ensures Inv(DoPutRead(s, c))
  {
    hide Inv, Lists, AllThreads, AllCurs, AllOps, RqLocks, LkLocks;
    var s' := DoPutRead(s, c);
    InvAt(s, c);
    ThreadAt(s, Head(s, Hand(c)));
    RqSame(s, s');
    LkSame(s, s');
    CpuOnly(s, s', c);
  }

  lemma PutLockInv(s: State, c: nat)
    requires Inv(s) && CanPutLock(s, c)
    ensures Inv(DoPutLock(s, c))
  {
    hide Inv, Lists, AllThreads, AllCurs, AllOps, RqLocks, LkLocks, RqHeld, LkHeld;
    var s' := DoPutLock(s, c);
    InvAt(s, c);
    PutLockLocks(s, c);
    CpuOnly(s, s', c);
  }

  lemma PutLockLocks(s: State, c: nat)
    requires RqLocks(s) && LkLocks(s) && CanPutLock(s, c) && OpOk(s, c)
    ensures RqLocks(DoPutLock(s, c)) && LkLocks(DoPutLock(s, c))
  {
    hide RqLocks, LkLocks;
    var s' := DoPutLock(s, c);
    RqAcquire(s, s', c, s.cpus[c].op.target);
    LkSame(s, s');
  }

  lemma PutDoneInv(s: State, c: nat)
    requires Inv(s) && CanPutDone(s, c)
    ensures Inv(DoPutDone(s, c))
  {
    hide Inv, Lists, AllThreads, AllCurs, AllOps, RqLocks, LkLocks;
    var s' := DoPutDone(s, c);
    InvAt(s, c);
    RqSame(s, s');
    if s.cpus[c].op.src.Some? && s.cpus[c].pc != SleepHeld(s.cpus[c].op.src.value) {
      LkRelease(s, s', c, s.cpus[c].op.src.value);
    } else {
      LkSame(s, s');
    }
    CpuOnly(s, s', c);
  }

  lemma MigrateStartInv(s: State, c: nat)
    requires Inv(s) && CanMigrateStart(s, c)
    ensures Inv(DoMigrateStart(s, c))
  {
    hide Inv, Lists, AllThreads, AllCurs, AllOps, RqLocks, LkLocks;
    var s' := DoMigrateStart(s, c);
    InvAt(s, c);
    RqSame(s, s');
    LkSame(s, s');
    CpuOnly(s, s', c);
  }

  lemma MigrateCountInv(s: State, c: nat)
    requires Inv(s) && CanMigrateCount(s, c)
    ensures Inv(DoMigrateCount(s, c))
  {
    hide Inv, Lists, AllThreads, AllCurs, AllOps, RqLocks, LkLocks;
    var s' := DoMigrateCount(s, c);
    InvAt(s, c);
    RqSame(s, s');
    LkSame(s, s');
    CpuOnly(s, s', c);
  }

  lemma MigrateDecideInv(s: State, c: nat)
    requires Inv(s) && CanMigrateDecide(s, c)
    ensures Inv(DoMigrateDecide(s, c))
  {
    hide Inv, Lists, AllThreads, AllCurs, AllOps, RqLocks, LkLocks;
    var s' := DoMigrateDecide(s, c);
    InvAt(s, c);
    RqSame(s, s');
    LkSame(s, s');
    CpuOnly(s, s', c);
  }

  lemma TakeLockInv(s: State, c: nat)
    requires Inv(s) && CanTakeLock(s, c)
    ensures Inv(DoTakeLock(s, c))
  {
    hide Inv, Lists, AllThreads, AllCurs, AllOps, RqLocks, LkLocks;
    var s' := DoTakeLock(s, c);
    InvAt(s, c);
    RqAcquire(s, s', c, c);
    LkSame(s, s');
    CpuOnly(s, s', c);
  }

  lemma TakeDoneInv(s: State, c: nat)
    requires Inv(s) && CanTakeDone(s, c)
    ensures Inv(DoTakeDone(s, c))
  {
    hide Inv, Lists, AllThreads, AllCurs, AllOps, RqLocks, LkLocks;
    var s' := DoTakeDone(s, c);
    InvAt(s, c);
    RqRelease(s, s', c, c);
    LkSame(s, s');
    CpuOnly(s, s', c);
  }

  lemma SendLockInv(s: State, c: nat)
    requires Inv(s) && CanSendLock(s, c)
    ensures Inv(DoSendLock(s, c))
  {
    hide Inv, Lists, AllThreads, AllCurs, AllOps, RqLocks, LkLocks, RqHeld, LkHeld;
    var s' := DoSendLock(s, c);
    InvAt(s, c);
    SendLockLocks(s, c);
    CpuOnly(s, s', c);
  }

  lemma SendLockLocks(s: State, c: nat)
    requires RqLocks(s) && LkLocks(s) && CanSendLock(s, c) && OpOk(s, c)
    ensures RqLocks(DoSendLock(s, c)) && LkLocks(DoSendLock(s, c))
  {
    hide RqLocks, LkLocks;
    var s' := DoSendLock(s, c);
    RqAcquire(s, s', c, s.cpus[c].op.i);
    LkSame(s, s');
  }

  lemma SendSkipInv(s: State, c: nat)
    requires Inv(s) && CanSendSkip(s, c)
    ensures Inv(DoSendSkip(s, c))
  {
    hide Inv, Lists, AllThreads, AllCurs, AllOps, RqLocks, LkLocks;
    var s' := DoSendSkip(s, c);
    InvAt(s, c);
    RqSame(s, s');
    LkSame(s, s');
    CpuOnly(s, s', c);
  }

  lemma SendUnlockInv(s: State, c: nat)
    requires Inv(s) && CanSendUnlock(s, c)
    ensures Inv(DoSendUnlock(s, c))
  {
    hide Inv, Lists, AllThreads, AllCurs, AllOps, RqLocks, LkLocks, RqHeld, LkHeld;
    var s' := DoSendUnlock(s, c);
    InvAt(s, c);
    SendUnlockLocks(s, c);
    CpuOnly(s, s', c);
  }

  lemma SendUnlockLocks(s: State, c: nat)
    requires RqLocks(s) && LkLocks(s) && CanSendUnlock(s, c) && OpOk(s, c)
    ensures RqLocks(DoSendUnlock(s, c)) && LkLocks(DoSendUnlock(s, c))
  {
    hide RqLocks, LkLocks;
    var s' := DoSendUnlock(s, c);
    RqRelease(s, s', c, s.cpus[c].op.i);
    LkSame(s, s');
  }

  lemma SendDoneInv(s: State, c: nat)
    requires Inv(s) && CanSendDone(s, c)
    ensures Inv(DoSendDone(s, c))
  {
    hide Inv, Lists, AllThreads, AllCurs, AllOps, RqLocks, LkLocks;
    var s' := DoSendDone(s, c);
    InvAt(s, c);
    RqSame(s, s');
    LkSame(s, s');
    CpuOnly(s, s', c);
  }

  lemma BackLockInv(s: State, c: nat)
    requires Inv(s) && CanBackLock(s, c)
    ensures Inv(DoBackLock(s, c))
  {
    hide Inv, Lists, AllThreads, AllCurs, AllOps, RqLocks, LkLocks;
    var s' := DoBackLock(s, c);
    InvAt(s, c);
    RqAcquire(s, s', c, c);
    LkSame(s, s');
    CpuOnly(s, s', c);
  }

  lemma BackDoneInv(s: State, c: nat)
    requires Inv(s) && CanBackDone(s, c)
    ensures Inv(DoBackDone(s, c))
  {
    hide Inv, Lists, AllThreads, AllCurs, AllOps, RqLocks, LkLocks;
    var s' := DoBackDone(s, c);
    InvAt(s, c);
    if s.cpus[c].op.BackLocked? {
      RqRelease(s, s', c, c);
    } else {
      RqSame(s, s');
    }
    LkSame(s, s');
    CpuOnly(s, s', c);
  }

  /** Head of one list to the tail of another. */
  function Move(s: State, l: ListId, l': ListId): (r: State)
    requires List(s, l) != [] && Head(s, l) in s.threads
  {
    AddTail(RemHead(s, l), l', Head(s, l))
  }

  lemma MoveLists(s: State, l: ListId, l': ListId)
    requires Lists(s) && List(s, l) != []
    ensures Head(s, l) in s.threads && Lists(Move(s, l, l'))
  {
    RemHeadLists(s, l);
    AddTailLists(RemHead(s, l), l', Head(s, l));
  }

  lemma PlaceReadyMoved(s: State, c: nat)
    requires CanPlaceReady(s, c)
    ensures Moved(s, DoPlaceReady(s, c), c, s.cpus[c].cur)
  {
  }

  lemma PlaceReadyFrame(s: State, c: nat)
    requires Inv(s) && CanPlaceReady(s, c)
    ensures var s' := DoPlaceReady(s, c);
            |s'.cpus| == |s.cpus| && forall x :: 0 <= x < |s.cpus| && x != c ==> OpFrame(s, s', x)
  {
    hide Inv, OpFrame;
    var s' := DoPlaceReady(s, c);
    assert forall x :: 0 <= x < |s.cpus| && x != c ==> s'.cpus[x] == s.cpus[x];
    assert forall x :: x != c ==> List(s', Hand(x)) == List(s, Hand(x)) && List(s', Queue(x)) == List(s, Queue(x));
    assert forall t :: t in s.threads ==> t in s'.threads && s'.threads[t].cpu == s.threads[t].cpu;
    hide DoPlaceReady, List;
    QuietFrame(s, s', c);
  }

  lemma PlaceReadyView(s: State, c: nat)
    requires Inv(s) && CanPlaceReady(s, c)
    ensures var s' := DoPlaceReady(s, c); |s'.cpus| == |s.cpus| && ViewKept(s, s', c, s.cpus[c].cur)
  {
    hide Inv, RqLocks, LkLocks, AllThreads, Lists, RqHeld, LkHeld;
    InvAt(s, c);
  }

  lemma PlaceReadyThread(s: State, c: nat)
    requires Inv(s) && CanPlaceReady(s, c)
    ensures var s', m := DoPlaceReady(s, c), s.cpus[c].cur; m in s'.threads && ThreadOk(s', m)
  {
    hide Inv, RqLocks, LkLocks, AllThreads, Lists, RqHeld, LkHeld;
    var s', m := DoPlaceReady(s, c), s.cpus[c].cur;
    InvAt(s, c);
    ThreadAt(s, m);
  }

  lemma PlaceReadyCur(s: State, c: nat)
    requires Inv(s) && CanPlaceReady(s, c)
    ensures var s' := DoPlaceReady(s, c); |s'.cpus| == |s.cpus| && CurOk(s', c)
    ensures forall x :: 0 <= x < |s.cpus| && x != c ==> s.cpus[x].cur != s.cpus[c].cur
  {
    hide Inv, RqLocks, LkLocks, Lists, AllThreads, AllOps, AllCurs, RqHeld, LkHeld;
    InvAt(s, c);
    ThreadAt(s, s.cpus[c].cur);
    OnlyHere(s, c, s.cpus[c].cur);
  }

  lemma PlaceReadySelf(s: State, c: nat)
    requires Inv(s) && CanPlaceReady(s, c)
    ensures var s' := DoPlaceReady(s, c); |s'.cpus| == |s.cpus| && OpOk(s', c)
  {
    var s' := DoPlaceReady(s, c);
    InvAt(s, c);
    hide Inv, RqLocks, LkLocks, Lists, AllThreads, AllOps, AllCurs, CurOk, RqHeld, LkHeld;
  }

  lemma PlaceReadyLists(s: State, c: nat)
    requires Inv(s) && CanPlaceReady(s, c)
    ensures Lists(DoPlaceReady(s, c))
  {
    var s' := DoPlaceReady(s, c);
    InvAt(s, c);
    hide Inv, Lists, AllThreads, AllCurs, AllOps, RqLocks, LkLocks, OpOk, ThreadOk;
    var t := s.cpus[c].cur;
    SameLists(s, SetState(s, t, Ready));
    AddTailLists(SetState(s, t, Ready), Queue(c), t);
    SameLists(AddTail(SetState(s, t, Ready), Queue(c), t), s');
  }

  lemma PlaceReadyLocks(s: State, c: nat)
    requires RqLocks(s) && LkLocks(s) && CanPlaceReady(s, c) && OpOk(s, c)
    ensures RqLocks(DoPlaceReady(s, c)) && LkLocks(DoPlaceReady(s, c))
  {
    hide RqLocks, LkLocks;
    var s' := DoPlaceReady(s, c);
    assert MovesOnly(s, s', c);
    LocksSame(s, s', c);
  }

  lemma PlaceReadyInv(s: State, c: nat)
    requires Inv(s) && CanPlaceReady(s, c)
    ensures Inv(DoPlaceReady(s, c))
  {
    var s' := DoPlaceReady(s, c);
    PlaceReadyMoved(s, c);
    PlaceReadyFrame(s, c);
    PlaceReadyView(s, c);
    PlaceReadyThread(s, c);
    PlaceReadyCur(s, c);
    PlaceReadySelf(s, c);
    PlaceReadyLists(s, c);
    PlaceReadyLocks(s, c);
    hide *;
    MovedInv(s, s', c, s.cpus[c].cur);
  }

  lemma PlaceSleepMoved(s: State, c: nat)
    requires CanPlaceSleep(s, c)
    ensures Moved(s, DoPlaceSleep(s, c), c, s.cpus[c].cur)
  {
  }

  lemma PlaceSleepFrame(s: State, c: nat)
    requires Inv(s) && CanPlaceSleep(s, c)
    ensures var s' := DoPlaceSleep(s, c);
            |s'.cpus| == |s.cpus| && forall x :: 0 <= x < |s.cpus| && x != c ==> OpFrame(s, s', x)
  {
    hide Inv, OpFrame;
    var s' := DoPlaceSleep(s, c);
    assert forall x :: 0 <= x < |s.cpus| && x != c ==> s'.cpus[x] == s.cpus[x];
    assert forall x :: x != c ==> List(s', Hand(x)) == List(s, Hand(x)) && List(s', Queue(x)) == List(s, Queue(x));
    assert forall t :: t in s.threads ==> t in s'.threads && s'.threads[t].cpu == s.threads[t].cpu;
    hide DoPlaceSleep, List;
    QuietFrame(s, s', c);
  }

  lemma PlaceSleepView(s: State, c: nat)
    requires Inv(s) && CanPlaceSleep(s, c)
    ensures var s' := DoPlaceSleep(s, c); |s'.cpus| == |s.cpus| && ViewKept(s, s', c, s.cpus[c].cur)
  {
    hide Inv, RqLocks, LkLocks, AllThreads, Lists, RqHeld, LkHeld;
    InvAt(s, c);
  }

  lemma PlaceSleepThread(s: State, c: nat)
    requires Inv(s) && CanPlaceSleep(s, c)
    ensures var s', m := DoPlaceSleep(s, c), s.cpus[c].cur; m in s'.threads && ThreadOk(s', m)
  {
    hide Inv, RqLocks, LkLocks, AllThreads, Lists, RqHeld, LkHeld;
    var s', m := DoPlaceSleep(s, c), s.cpus[c].cur;
    InvAt(s, c);
    ThreadAt(s, m);
  }

  lemma PlaceSleepCur(s: State, c: nat)
    requires Inv(s) && CanPlaceSleep(s, c)
    ensures var s' := DoPlaceSleep(s, c); |s'.cpus| == |s.cpus| && CurOk(s', c)
    ensures forall x :: 0 <= x < |s.cpus| && x != c ==> s.cpus[x].cur != s.cpus[c].cur
  {
    hide Inv, RqLocks, LkLocks, Lists, AllThreads, AllOps, AllCurs, RqHeld, LkHeld;
    InvAt(s, c);
    ThreadAt(s, s.cpus[c].cur);
    OnlyHere(s, c, s.cpus[c].cur);
  }

  lemma PlaceSleepSelf(s: State, c: nat)
    requires Inv(s) && CanPlaceSleep(s, c)
    ensures var s' := DoPlaceSleep(s, c); |s'.cpus| == |s.cpus| && OpOk(s', c)
  {
    var s' := DoPlaceSleep(s, c);
    InvAt(s, c);
    hide Inv, RqLocks, LkLocks, Lists, AllThreads, AllOps, AllCurs, CurOk, RqHeld, LkHeld;
  }

  lemma PlaceSleepLists(s: State, c: nat)
    requires Inv(s) && CanPlaceSleep(s, c)
    ensures Lists(DoPlaceSleep(s, c))
  {
    var s' := DoPlaceSleep(s, c);
    InvAt(s, c);
    hide Inv, Lists, AllThreads, AllCurs, AllOps, RqLocks, LkLocks, OpOk, ThreadOk;
    var t, w := s.cpus[c].cur, s.cpus[c].pc.k.w;
    AddTailLists(s, Chan(w), t);
    SameLists(AddTail(s, Chan(w), t), s');
  }

  lemma PlaceSleepLocks(s: State, c: nat)
    requires RqLocks(s) && LkLocks(s) && CanPlaceSleep(s, c) && OpOk(s, c)
    ensures RqLocks(DoPlaceSleep(s, c)) && LkLocks(DoPlaceSleep(s, c))
  {
    hide RqLocks, LkLocks;
    var s' := DoPlaceSleep(s, c);
    RqSame(s, s');
    LkRelease(s, s', c, s.cpus[c].pc.k.w);
  }

  lemma PlaceSleepInv(s: State, c: nat)
    requires Inv(s) && CanPlaceSleep(s, c)
    ensures Inv(DoPlaceSleep(s, c))
  {
    var s' := DoPlaceSleep(s, c);
    PlaceSleepMoved(s, c);
    PlaceSleepFrame(s, c);
    PlaceSleepView(s, c);
    PlaceSleepThread(s, c);
    PlaceSleepCur(s, c);
    PlaceSleepSelf(s, c);
    PlaceSleepLists(s, c);
    PlaceSleepLocks(s, c);
    hide *;
    MovedInv(s, s', c, s.cpus[c].cur);
  }

  lemma PlaceZombieMoved(s: State, c: nat)
    requires CanPlaceZombie(s, c)
    ensures Moved(s, DoPlaceZombie(s, c), c, s.cpus[c].cur)
  {
  }

  lemma PlaceZombieFrame(s: State, c: nat)
    requires Inv(s) && CanPlaceZombie(s, c)
    ensures var s' := DoPlaceZombie(s, c);
            |s'.cpus| == |s.cpus| && forall x :: 0 <= x < |s.cpus| && x != c ==> OpFrame(s, s', x)
  {
    hide Inv, OpFrame;
    var s' := DoPlaceZombie(s, c);
    assert forall x :: 0 <= x < |s.cpus| && x != c ==> s'.cpus[x] == s.cpus[x];
    assert forall x :: x != c ==> List(s', Hand(x)) == List(s, Hand(x)) && List(s', Queue(x)) == List(s, Queue(x));
    assert forall t :: t in s.threads ==> t in s'.threads && s'.threads[t].cpu == s.threads[t].cpu;
    hide DoPlaceZombie, List;
    QuietFrame(s, s', c);
  }

  lemma PlaceZombieView(s: State, c: nat)
    requires Inv(s) && CanPlaceZombie(s, c)
    ensures var s' := DoPlaceZombie(s, c); |s'.cpus| == |s.cpus| && ViewKept(s, s', c, s.cpus[c].cur)
  {
    hide Inv, RqLocks, LkLocks, AllThreads, Lists, RqHeld, LkHeld;
    InvAt(s, c);
  }

  lemma PlaceZombieThread(s: State, c: nat)
    requires Inv(s) && CanPlaceZombie(s, c)
    ensures var s', m := DoPlaceZombie(s, c), s.cpus[c].cur; m in s'.threads && ThreadOk(s', m)
  {
    hide Inv, RqLocks, LkLocks, AllThreads, Lists, RqHeld, LkHeld;
    var s', m := DoPlaceZombie(s, c), s.cpus[c].cur;
    InvAt(s, c);
    ThreadAt(s, m);
  }

  lemma PlaceZombieCur(s: State, c: nat)
    requires Inv(s) && CanPlaceZombie(s, c)
    ensures var s' := DoPlaceZombie(s, c); |s'.cpus| == |s.cpus| && CurOk(s', c)
    ensures forall x :: 0 <= x < |s.cpus| && x != c ==> s.cpus[x].cur != s.cpus[c].cur
  {
    hide Inv, RqLocks, LkLocks, Lists, AllThreads, AllOps, AllCurs, RqHeld, LkHeld;
    InvAt(s, c);
    ThreadAt(s, s.cpus[c].cur);
    OnlyHere(s, c, s.cpus[c].cur);
  }

  lemma PlaceZombieSelf(s: State, c: nat)
    requires Inv(s) && CanPlaceZombie(s, c)
    ensures var s' := DoPlaceZombie(s, c); |s'.cpus| == |s.cpus| && OpOk(s', c)
  {
    var s' := DoPlaceZombie(s, c);
    InvAt(s, c);
    hide Inv, RqLocks, LkLocks, Lists, AllThreads, AllOps, AllCurs, CurOk, RqHeld, LkHeld;
  }

  lemma PlaceZombieLists(s: State, c: nat)
    requires Inv(s) && CanPlaceZombie(s, c)
    ensures Lists(DoPlaceZombie(s, c))
  {
    var s' := DoPlaceZombie(s, c);
    InvAt(s, c);
    hide Inv, Lists, AllThreads, AllCurs, AllOps, RqLocks, LkLocks, OpOk, ThreadOk;
    AddTailLists(s, Zombies(c), s.cpus[c].cur);
    SameLists(AddTail(s, Zombies(c), s.cpus[c].cur), s');
  }

  lemma PlaceZombieLocks(s: State, c: nat)
    requires RqLocks(s) && LkLocks(s) && CanPlaceZombie(s, c) && OpOk(s, c)
    ensures RqLocks(DoPlaceZombie(s, c)) && LkLocks(DoPlaceZombie(s, c))
  {
    hide RqLocks, LkLocks;
    var s' := DoPlaceZombie(s, c);
    assert MovesOnly(s, s', c);
    LocksSame(s, s', c);
  }

  lemma PlaceZombieInv(s: State, c: nat)
    requires Inv(s) && CanPlaceZombie(s, c)
    ensures Inv(DoPlaceZombie(s, c))
  {
    var s' := DoPlaceZombie(s, c);
    PlaceZombieMoved(s, c);
    PlaceZombieFrame(s, c);
    PlaceZombieView(s, c);
    PlaceZombieThread(s, c);
    PlaceZombieCur(s, c);
    PlaceZombieSelf(s, c);
    PlaceZombieLists(s, c);
    PlaceZombieLocks(s, c);
    hide *;
    MovedInv(s, s', c, s.cpus[c].cur);
  }

  lemma WriteStateMoved(s: State, c: nat)
    requires CanWriteState(s, c)
    ensures Moved(s, DoWriteState(s, c), c, s.cpus[c].cur)
  {
  }

  lemma WriteStateFrame(s: State, c: nat)
    requires Inv(s) && CanWriteState(s, c)
    ensures var s' := DoWriteState(s, c);
            |s'.cpus| == |s.cpus| && forall x :: 0 <= x < |s.cpus| && x != c ==> OpFrame(s, s', x)
  {
    hide Inv, OpFrame;
    var s' := DoWriteState(s, c);
    assert forall x :: 0 <= x < |s.cpus| && x != c ==> s'.cpus[x] == s.cpus[x];
    assert forall x :: x != c ==> List(s', Hand(x)) == List(s, Hand(x)) && List(s', Queue(x)) == List(s, Queue(x));
    assert forall t :: t in s.threads ==> t in s'.threads && s'.threads[t].cpu == s.threads[t].cpu;
    hide DoWriteState, List;
    QuietFrame(s, s', c);
  }

  lemma WriteStateView(s: State, c: nat)
    requires Inv(s) && CanWriteState(s, c)
    ensures var s' := DoWriteState(s, c); |s'.cpus| == |s.cpus| && ViewKept(s, s', c, s.cpus[c].cur)
  {
    hide Inv, RqLocks, LkLocks, AllThreads, Lists, RqHeld, LkHeld;
    InvAt(s, c);
  }

  lemma WriteStateThread(s: State, c: nat)
    requires Inv(s) && CanWriteState(s, c)
    ensures var s', m := DoWriteState(s, c), s.cpus[c].cur; m in s'.threads && ThreadOk(s', m)
  {
    hide Inv, RqLocks, LkLocks, AllThreads, Lists, RqHeld, LkHeld;
    var s', m := DoWriteState(s, c), s.cpus[c].cur;
    InvAt(s, c);
    ThreadAt(s, m);
  }

  lemma WriteStateCur(s: State, c: nat)
    requires Inv(s) && CanWriteState(s, c)
    ensures var s' := DoWriteState(s, c); |s'.cpus| == |s.cpus| && CurOk(s', c)
    ensures forall x :: 0 <= x < |s.cpus| && x != c ==> s.cpus[x].cur != s.cpus[c].cur
  {
    hide Inv, RqLocks, LkLocks, Lists, AllThreads, AllOps, AllCurs, RqHeld, LkHeld;
    InvAt(s, c);
    ThreadAt(s, s.cpus[c].cur);
    OnlyHere(s, c, s.cpus[c].cur);
  }

  lemma WriteStateSelf(s: State, c: nat)
    requires Inv(s) && CanWriteState(s, c)
    ensures var s' := DoWriteState(s, c); |s'.cpus| == |s.cpus| && OpOk(s', c)
  {
    var s' := DoWriteState(s, c);
    InvAt(s, c);
    hide Inv, RqLocks, LkLocks, Lists, AllThreads, AllOps, AllCurs, CurOk, RqHeld, LkHeld;
  }

  lemma WriteStateLists(s: State, c: nat)
    requires Inv(s) && CanWriteState(s, c)
    ensures Lists(DoWriteState(s, c))
  {
    var s' := DoWriteState(s, c);
    InvAt(s, c);
    hide Inv, Lists, AllThreads, AllCurs, AllOps, RqLocks, LkLocks, OpOk, ThreadOk;
    SameLists(s, s');
  }

  lemma WriteStateLocks(s: State, c: nat)
    requires RqLocks(s) && LkLocks(s) && CanWriteState(s, c) && OpOk(s, c)
    ensures RqLocks(DoWriteState(s, c)) && LkLocks(DoWriteState(s, c))
  {
    hide RqLocks, LkLocks;
    var s' := DoWriteState(s, c);
    assert MovesOnly(s, s', c);
    LocksSame(s, s', c);
  }

  lemma WriteStateInv(s: State, c: nat)
    requires Inv(s) && CanWriteState(s, c)
    ensures Inv(DoWriteState(s, c))
  {
    var s' := DoWriteState(s, c);
    WriteStateMoved(s, c);
    WriteStateFrame(s, c);
    WriteStateView(s, c);
    WriteStateThread(s, c);
    WriteStateCur(s, c);
    WriteStateSelf(s, c);
    WriteStateLists(s, c);
    WriteStateLocks(s, c);
    hide *;
    MovedInv(s, s', c, s.cpus[c].cur);
  }

  lemma PickMoved(s: State, c: nat)
    requires CanPick(s, c)
    ensures Moved(s, DoPick(s, c), c, Head(s, Queue(c)))
  {
  }

  lemma PickFrame(s: State, c: nat)
    requires Inv(s) && CanPick(s, c)
    ensures var s' := DoPick(s, c);
            |s'.cpus| == |s.cpus| && forall x :: 0 <= x < |s.cpus| && x != c ==> OpFrame(s, s', x)
  {
    hide Inv, OpFrame;
    var s' := DoPick(s, c);
    assert forall x :: 0 <= x < |s.cpus| && x != c ==> s'.cpus[x] == s.cpus[x];
    assert forall x :: x != c ==> List(s', Hand(x)) == List(s, Hand(x)) && List(s', Queue(x)) == List(s, Queue(x));
    assert forall t :: t in s.threads ==> t in s'.threads && s'.threads[t].cpu == s.threads[t].cpu;
    hide DoPick, List;
    QuietFrame(s, s', c);
  }

  lemma PickView(s: State, c: nat)
    requires Inv(s) && CanPick(s, c)
    ensures var s' := DoPick(s, c); |s'.cpus| == |s.cpus| && ViewKept(s, s', c, Head(s, Queue(c)))
  {
    hide Inv, RqLocks, LkLocks, AllThreads, Lists, RqHeld, LkHeld;
    InvAt(s, c);
    RemHeadLists(s, Queue(c));
  }

  lemma PickThread(s: State, c: nat)
    requires Inv(s) && CanPick(s, c)
    ensures var s', m := DoPick(s, c), Head(s, Queue(c)); m in s'.threads && ThreadOk(s', m)
  {
    hide Inv, RqLocks, LkLocks, AllThreads, Lists, RqHeld, LkHeld;
    var s', m := DoPick(s, c), Head(s, Queue(c));
    InvAt(s, c);
    RemHeadLists(s, Queue(c));
    ThreadAt(s, m);
  }

  lemma PickCur(s: State, c: nat)
    requires Inv(s) && CanPick(s, c)
    ensures var s' := DoPick(s, c); |s'.cpus| == |s.cpus| && CurOk(s', c)
    ensures forall x :: 0 <= x < |s.cpus| && x != c ==> s.cpus[x].cur != Head(s, Queue(c))
  {
    hide Inv, RqLocks, LkLocks, Lists, AllThreads, AllOps, AllCurs, RqHeld, LkHeld;
    InvAt(s, c);
    RemHeadLists(s, Queue(c));
    ThreadAt(s, Head(s, Queue(c)));
    OnlyHere(s, c, Head(s, Queue(c)));
  }

  lemma PickSelf(s: State, c: nat)
    requires Inv(s) && CanPick(s, c)
    ensures var s' := DoPick(s, c); |s'.cpus| == |s.cpus| && OpOk(s', c)
  {
    var s' := DoPick(s, c);
    InvAt(s, c);
    hide Inv, RqLocks, LkLocks, Lists, AllThreads, AllOps, AllCurs, CurOk, RqHeld, LkHeld;
  }

  lemma PickLists(s: State, c: nat)
    requires Inv(s) && CanPick(s, c)
    ensures Lists(DoPick(s, c))
  {
    var s' := DoPick(s, c);
    InvAt(s, c);
    hide Inv, Lists, AllThreads, AllCurs, AllOps, RqLocks, LkLocks, OpOk, ThreadOk;
    MoveLists(s, Queue(c), Hand(c));
    SameLists(Move(s, Queue(c), Hand(c)), s');
  }

  lemma PickLocks(s: State, c: nat)
    requires RqLocks(s) && LkLocks(s) && CanPick(s, c) && OpOk(s, c)
    ensures RqLocks(DoPick(s, c)) && LkLocks(DoPick(s, c))
  {
    hide RqLocks, LkLocks;
    var s' := DoPick(s, c);
    assert MovesOnly(s, s', c);
    LocksSame(s, s', c);
  }

  lemma PickInv(s: State, c: nat)
    requires Inv(s) && CanPick(s, c)
    ensures Inv(DoPick(s, c))
  {
    var s' := DoPick(s, c);
    PickMoved(s, c);
    PickFrame(s, c);
    PickView(s, c);
    PickThread(s, c);
    PickCur(s, c);
    PickSelf(s, c);
    PickLists(s, c);
    PickLocks(s, c);
    hide *;
    MovedInv(s, s', c, Head(s, Queue(c)));
  }

  lemma SwitchFrameMoved(s: State, c: nat)
    requires CanSwitchFrame(s, c)
    ensures Moved(s, DoSwitchFrame(s, c), c, Head(s, Hand(c)))
  {
  }

  lemma SwitchFrameFrame(s: State, c: nat)
    requires Inv(s) && CanSwitchFrame(s, c)
    ensures var s' := DoSwitchFrame(s, c);
            |s'.cpus| == |s.cpus| && forall x :: 0 <= x < |s.cpus| && x != c ==> OpFrame(s, s', x)
  {
    hide Inv, OpFrame;
    var s' := DoSwitchFrame(s, c);
    assert forall x :: 0 <= x < |s.cpus| && x != c ==> s'.cpus[x] == s.cpus[x];
    assert forall x :: x != c ==> List(s', Hand(x)) == List(s, Hand(x)) && List(s', Queue(x)) == List(s, Queue(x));
    assert forall t :: t in s.threads ==> t in s'.threads && s'.threads[t].cpu == s.threads[t].cpu;
    hide DoSwitchFrame, List;
    QuietFrame(s, s', c);
  }

  lemma SwitchFrameView(s: State, c: nat)
    requires Inv(s) && CanSwitchFrame(s, c)
    ensures var s' := DoSwitchFrame(s, c); |s'.cpus| == |s.cpus| && ViewKept(s, s', c, Head(s, Hand(c)))
  {
    hide Inv, RqLocks, LkLocks, AllThreads, Lists, RqHeld, LkHeld;
    InvAt(s, c);
    RemHeadLists(s, Hand(c));
  }

  lemma SwitchFrameThread(s: State, c: nat)
    requires Inv(s) && CanSwitchFrame(s, c)
    ensures var s', m := DoSwitchFrame(s, c), Head(s, Hand(c)); m in s'.threads && ThreadOk(s', m)
  {
    hide Inv, RqLocks, LkLocks, AllThreads, Lists, RqHeld, LkHeld;
    var s', m := DoSwitchFrame(s, c), Head(s, Hand(c));
    InvAt(s, c);
    RemHeadLists(s, Hand(c));
    ThreadAt(s, m);
    assert s'.threads[m] == Thread(Ready, c, Off) && |s'.cpus| == |s.cpus|;
    assert ViewOf(s'.cpus[c]).cur == m && ViewOf(s'.cpus[c]).offList;
    hide DoSwitchFrame, ViewOf;
  }

  lemma SwitchFrameCur(s: State, c: nat)
    requires Inv(s) && CanSwitchFrame(s, c)
    ensures var s' := DoSwitchFrame(s, c); |s'.cpus| == |s.cpus| && CurOk(s', c)
    ensures forall x :: 0 <= x < |s.cpus| && x != c ==> s.cpus[x].cur != Head(s, Hand(c))
  {
    hide Inv, RqLocks, LkLocks, Lists, AllThreads, AllOps, AllCurs, RqHeld, LkHeld;
    InvAt(s, c);
    RemHeadLists(s, Hand(c));
    ThreadAt(s, Head(s, Hand(c)));
    OnlyHere(s, c, Head(s, Hand(c)));
  }

  lemma SwitchFrameSelf(s: State, c: nat)
    requires Inv(s) && CanSwitchFrame(s, c)
    ensures var s' := DoSwitchFrame(s, c); |s'.cpus| == |s.cpus| && OpOk(s', c)
  {
    var s' := DoSwitchFrame(s, c);
    InvAt(s, c);
    hide Inv, RqLocks, LkLocks, Lists, AllThreads, AllOps, AllCurs, CurOk, RqHeld, LkHeld;
  }

  lemma SwitchFrameLists(s: State, c: nat)
    requires Inv(s) && CanSwitchFrame(s, c)
    ensures Lists(DoSwitchFrame(s, c))
  {
    var s' := DoSwitchFrame(s, c);
    InvAt(s, c);
    hide Inv, Lists, AllThreads, AllCurs, AllOps, RqLocks, LkLocks, OpOk, ThreadOk;
    RemHeadLists(s, Hand(c));
    SameLists(RemHead(s, Hand(c)), s');
  }

  lemma SwitchFrameLocks(s: State, c: nat)
    requires RqLocks(s) && LkLocks(s) && CanSwitchFrame(s, c) && OpOk(s, c)
    ensures RqLocks(DoSwitchFrame(s, c)) && LkLocks(DoSwitchFrame(s, c))
  {
    hide RqLocks, LkLocks;
    var s' := DoSwitchFrame(s, c);
    assert MovesOnly(s, s', c);
    LocksSame(s, s', c);
  }

  lemma SwitchFrameInv(s: State, c: nat)
    requires Inv(s) && CanSwitchFrame(s, c)
    ensures Inv(DoSwitchFrame(s, c))
  {
    var s' := DoSwitchFrame(s, c);
    SwitchFrameMoved(s, c);
    SwitchFrameFrame(s, c);
    SwitchFrameView(s, c);
    SwitchFrameThread(s, c);
    SwitchFrameCur(s, c);
    SwitchFrameSelf(s, c);
    SwitchFrameLists(s, c);
    SwitchFrameLocks(s, c);
    hide *;
    MovedInv(s, s', c, Head(s, Hand(c)));
  }

  lemma FinishMoved(s: State, c: nat)
    requires CanFinish(s, c)
    ensures Moved(s, DoFinish(s, c), c, s.cpus[c].cur)
  {
  }

  lemma FinishFrame(s: State, c: nat)
    requires Inv(s) && CanFinish(s, c)
    ensures var s' := DoFinish(s, c);
            |s'.cpus| == |s.cpus| && forall x :: 0 <= x < |s.cpus| && x != c ==> OpFrame(s, s', x)
  {
    hide Inv, OpFrame;
    var s' := DoFinish(s, c);
    assert forall x :: 0 <= x < |s.cpus| && x != c ==> s'.cpus[x] == s.cpus[x];
    assert forall x :: x != c ==> List(s', Hand(x)) == List(s, Hand(x)) && List(s', Queue(x)) == List(s, Queue(x));
    assert forall t :: t in s.threads ==> t in s'.threads && s'.threads[t].cpu == s.threads[t].cpu;
    hide DoFinish, List;
    QuietFrame(s, s', c);
  }

  lemma FinishView(s: State, c: nat)
    requires Inv(s) && CanFinish(s, c)
    ensures var s' := DoFinish(s, c); |s'.cpus| == |s.cpus| && ViewKept(s, s', c, s.cpus[c].cur)
  {
    hide Inv, RqLocks, LkLocks, AllThreads, Lists, RqHeld, LkHeld;
    InvAt(s, c);
  }

  lemma FinishThread(s: State, c: nat)
    requires Inv(s) && CanFinish(s, c)
    ensures var s', m := DoFinish(s, c), s.cpus[c].cur; m in s'.threads && ThreadOk(s', m)
  {
    hide Inv, RqLocks, LkLocks, AllThreads, Lists, RqHeld, LkHeld;
    var s', m := DoFinish(s, c), s.cpus[c].cur;
    InvAt(s, c);
    ThreadAt(s, m);
  }

  lemma FinishCur(s: State, c: nat)
    requires Inv(s) && CanFinish(s, c)
    ensures var s' := DoFinish(s, c); |s'.cpus| == |s.cpus| && CurOk(s', c)
    ensures forall x :: 0 <= x < |s.cpus| && x != c ==> s.cpus[x].cur != s.cpus[c].cur
  {
    hide Inv, RqLocks, LkLocks, Lists, AllThreads, AllOps, AllCurs, RqHeld, LkHeld;
    InvAt(s, c);
    ThreadAt(s, s.cpus[c].cur);
    OnlyHere(s, c, s.cpus[c].cur);
  }

  lemma FinishSelf(s: State, c: nat)
    requires Inv(s) && CanFinish(s, c)
    ensures var s' := DoFinish(s, c); |s'.cpus| == |s.cpus| && OpOk(s', c)
  {
    var s' := DoFinish(s, c);
    InvAt(s, c);
    hide Inv, RqLocks, LkLocks, Lists, AllThreads, AllOps, AllCurs, CurOk, RqHeld, LkHeld;
  }

  lemma FinishLists(s: State, c: nat)
    requires Inv(s) && CanFinish(s, c)
    ensures Lists(DoFinish(s, c))
  {
    var s' := DoFinish(s, c);
    InvAt(s, c);
    hide Inv, Lists, AllThreads, AllCurs, AllOps, RqLocks, LkLocks, OpOk, ThreadOk;
    SameLists(s, s');
  }

  lemma FinishLocks(s: State, c: nat)
    requires RqLocks(s) && LkLocks(s) && CanFinish(s, c) && OpOk(s, c)
    ensures RqLocks(DoFinish(s, c)) && LkLocks(DoFinish(s, c))
  {
    hide RqLocks, LkLocks;
    var s' := DoFinish(s, c);
    RqRelease(s, s', c, c);
    LkSame(s, s');
  }

  lemma FinishInv(s: State, c: nat)
    requires Inv(s) && CanFinish(s, c)
    ensures Inv(DoFinish(s, c))
  {
    var s' := DoFinish(s, c);
    FinishMoved(s, c);
    FinishFrame(s, c);
    FinishView(s, c);
    FinishThread(s, c);
    FinishCur(s, c);
    FinishSelf(s, c);
    FinishLists(s, c);
    FinishLocks(s, c);
    hide *;
    MovedInv(s, s', c, s.cpus[c].cur);
  }

  lemma WakeGrabMoved(s: State, c: nat)
    requires CanWakeGrab(s, c)
    ensures Moved(s, DoWakeGrab(s, c), c, Head(s, Chan(s.cpus[c].op.w)))
  {
  }

  lemma WakeGrabFrame(s: State, c: nat)
    requires Inv(s) && CanWakeGrab(s, c)
    ensures var s' := DoWakeGrab(s, c);
            |s'.cpus| == |s.cpus| && forall x :: 0 <= x < |s.cpus| && x != c ==> OpFrame(s, s', x)
  {
    hide Inv, OpFrame;
    var s' := DoWakeGrab(s, c);
    assert forall x :: 0 <= x < |s.cpus| && x != c ==> s'.cpus[x] == s.cpus[x];
    assert forall x :: x != c ==> List(s', Hand(x)) == List(s, Hand(x)) && List(s', Queue(x)) == List(s, Queue(x));
    assert forall t :: t in s.threads ==> t in s'.threads && s'.threads[t].cpu == s.threads[t].cpu;
    hide DoWakeGrab, List;
    QuietFrame(s, s', c);
  }

  lemma WakeGrabView(s: State, c: nat)
    requires Inv(s) && CanWakeGrab(s, c)
    ensures var s' := DoWakeGrab(s, c); |s'.cpus| == |s.cpus| && ViewKept(s, s', c, Head(s, Chan(s.cpus[c].op.w)))
  {
    hide Inv, RqLocks, LkLocks, AllThreads, Lists, RqHeld, LkHeld;
    InvAt(s, c);
    RemHeadLists(s, Chan(s.cpus[c].op.w));
  }

  lemma WakeGrabThread(s: State, c: nat)
    requires Inv(s) && CanWakeGrab(s, c)
    ensures var s', m := DoWakeGrab(s, c), Head(s, Chan(s.cpus[c].op.w)); m in s'.threads && ThreadOk(s', m)
  {
    hide Inv, RqLocks, LkLocks, AllThreads, Lists, RqHeld, LkHeld;
    var s', m := DoWakeGrab(s, c), Head(s, Chan(s.cpus[c].op.w));
    InvAt(s, c);
    RemHeadLists(s, Chan(s.cpus[c].op.w));
    ThreadAt(s, m);
  }

  lemma WakeGrabCur(s: State, c: nat)
    requires Inv(s) && CanWakeGrab(s, c)
    ensures var s' := DoWakeGrab(s, c);
            && |s'.cpus| == |s.cpus| && CurOk(s', c)
            && forall x :: 0 <= x < |s.cpus| && x != c && s.cpus[x].cur == Head(s, Chan(s.cpus[c].op.w)) ==>
                 CurOk(s', x)
  {
    hide Inv, RqLocks, LkLocks, Lists, AllThreads, AllOps, AllCurs, OpOk, RqHeld, LkHeld;
    var s' := DoWakeGrab(s, c);
    InvAt(s, c);
    RemHeadLists(s, Chan(s.cpus[c].op.w));
    forall x | 0 <= x < |s.cpus| && x != c && s.cpus[x].cur == Head(s, Chan(s.cpus[c].op.w)) ensures CurOk(s', x) {
      InvAt(s, x);
    }
  }

  lemma WakeGrabSelf(s: State, c: nat)
    requires Inv(s) && CanWakeGrab(s, c)
    ensures var s' := DoWakeGrab(s, c); |s'.cpus| == |s.cpus| && OpOk(s', c)
  {
    var s' := DoWakeGrab(s, c);
    InvAt(s, c);
    hide Inv, RqLocks, LkLocks, Lists, AllThreads, AllOps, AllCurs, CurOk, RqHeld, LkHeld;
  }

  lemma WakeGrabLists(s: State, c: nat)
    requires Inv(s) && CanWakeGrab(s, c)
    ensures Lists(DoWakeGrab(s, c))
  {
    var s' := DoWakeGrab(s, c);
    InvAt(s, c);
    hide Inv, Lists, AllThreads, AllCurs, AllOps, RqLocks, LkLocks, OpOk, ThreadOk;
    MoveLists(s, Chan(s.cpus[c].op.w), Hand(c));
  }

  lemma WakeGrabLocks(s: State, c: nat)
    requires RqLocks(s) && LkLocks(s) && CanWakeGrab(s, c) && OpOk(s, c)
    ensures RqLocks(DoWakeGrab(s, c)) && LkLocks(DoWakeGrab(s, c))
  {
    hide RqLocks, LkLocks;
    var s' := DoWakeGrab(s, c);
    assert MovesOnly(s, s', c);
    LocksSame(s, s', c);
  }

  lemma WakeGrabInv(s: State, c: nat)
    requires Inv(s) && CanWakeGrab(s, c)
    ensures Inv(DoWakeGrab(s, c))
  {
    var s' := DoWakeGrab(s, c);
    WakeGrabMoved(s, c);
    WakeGrabFrame(s, c);
    WakeGrabView(s, c);
    WakeGrabThread(s, c);
    WakeGrabCur(s, c);
    WakeGrabSelf(s, c);
    WakeGrabLists(s, c);
    WakeGrabLocks(s, c);
    hide *;
    MovedInv(s, s', c, Head(s, Chan(s.cpus[c].op.w)));
  }

  lemma BackOneMoved(s: State, c: nat)
    requires CanBackOne(s, c)
    ensures Moved(s, DoBackOne(s, c), c, Head(s, Hand(c)))
  {
  }

  lemma BackOneFrame(s: State, c: nat)
    requires Inv(s) && CanBackOne(s, c)
    ensures var s' := DoBackOne(s, c);
            |s'.cpus| == |s.cpus| && forall x :: 0 <= x < |s.cpus| && x != c ==> OpFrame(s, s', x)
  {
    hide Inv, OpFrame;
    var s' := DoBackOne(s, c);
    assert forall x :: 0 <= x < |s.cpus| && x != c ==> s'.cpus[x] == s.cpus[x];
    assert forall x :: x != c ==> List(s', Hand(x)) == List(s, Hand(x)) && List(s', Queue(x)) == List(s, Queue(x));
    assert forall t :: t in s.threads ==> t in s'.threads && s'.threads[t].cpu == s.threads[t].cpu;
    hide DoBackOne, List;
    QuietFrame(s, s', c);
  }

  lemma BackOneView(s: State, c: nat)
    requires Inv(s) && CanBackOne(s, c)
    ensures var s' := DoBackOne(s, c); |s'.cpus| == |s.cpus| && ViewKept(s, s', c, Head(s, Hand(c)))
  {
    hide Inv, RqLocks, LkLocks, AllThreads, Lists, RqHeld, LkHeld;
    InvAt(s, c);
    RemHeadLists(s, Hand(c));
  }

  lemma BackOneThread(s: State, c: nat)
    requires Inv(s) && CanBackOne(s, c)
    ensures var s', m := DoBackOne(s, c), Head(s, Hand(c)); m in s'.threads && ThreadOk(s', m)
  {
    hide Inv, RqLocks, LkLocks, AllThreads, Lists, RqHeld, LkHeld;
    var s', m := DoBackOne(s, c), Head(s, Hand(c));
    InvAt(s, c);
    RemHeadLists(s, Hand(c));
    ThreadAt(s, m);
  }

  lemma BackOneCur(s: State, c: nat)
    requires Inv(s) && CanBackOne(s, c)
    ensures var s' := DoBackOne(s, c); |s'.cpus| == |s.cpus| && CurOk(s', c)
    ensures forall x :: 0 <= x < |s.cpus| && x != c ==> s.cpus[x].cur != Head(s, Hand(c))
  {
    hide Inv, RqLocks, LkLocks, Lists, AllThreads, AllOps, AllCurs, RqHeld, LkHeld;
    InvAt(s, c);
    RemHeadLists(s, Hand(c));
    ThreadAt(s, Head(s, Hand(c)));
    OnlyHere(s, c, Head(s, Hand(c)));
  }

  lemma BackOneSelf(s: State, c: nat)
    requires Inv(s) && CanBackOne(s, c)
    ensures var s' := DoBackOne(s, c); |s'.cpus| == |s.cpus| && OpOk(s', c)
  {
    var s' := DoBackOne(s, c);
    InvAt(s, c);
    hide Inv, RqLocks, LkLocks, Lists, AllThreads, AllOps, AllCurs, CurOk, RqHeld, LkHeld;
  }

  lemma BackOneLists(s: State, c: nat)
    requires Inv(s) && CanBackOne(s, c)
    ensures Lists(DoBackOne(s, c))
  {
    var s' := DoBackOne(s, c);
    InvAt(s, c);
    hide Inv, Lists, AllThreads, AllCurs, AllOps, RqLocks, LkLocks, OpOk, ThreadOk;
    MoveLists(s, Hand(c), Queue(c));
  }

  lemma BackOneLocks(s: State, c: nat)
    requires RqLocks(s) && LkLocks(s) && CanBackOne(s, c) && OpOk(s, c)
    ensures RqLocks(DoBackOne(s, c)) && LkLocks(DoBackOne(s, c))
  {
    hide RqLocks, LkLocks;
    var s' := DoBackOne(s, c);
    assert MovesOnly(s, s', c);
    LocksSame(s, s', c);
  }

  lemma BackOneInv(s: State, c: nat)
    requires Inv(s) && CanBackOne(s, c)
    ensures Inv(DoBackOne(s, c))
  {
    var s' := DoBackOne(s, c);
    BackOneMoved(s, c);
    BackOneFrame(s, c);
    BackOneView(s, c);
    BackOneThread(s, c);
    BackOneCur(s, c);
    BackOneSelf(s, c);
    BackOneLists(s, c);
    BackOneLocks(s, c);
    hide *;
    MovedInv(s, s', c, Head(s, Hand(c)));
  }

  // ---- Destroying and creating threads ----

  /** exorcise never destroys the current thread of any CPU. */
  lemma ExorciseSafe(s: State, c: nat)
    requires Inv(s) && CanExorcise(s, c)
    ensures forall x :: 0 <= x < |s.cpus| ==> s.cpus[x].cur != Head(s, Zombies(c))
    ensures s.threads[Head(s, Zombies(c))].state == Zombie
    ensures forall x :: Head(s, Zombies(c)) !in List(s, Hand(x))
  {
    InvAt(s, c);
    ZombieHead(s, c);
    hide RqLocks, LkLocks, AllOps, AllThreads, Lists, OpOk;
    CurApart(s, c, Head(s, Zombies(c)));
  }

  lemma ZombieHead(s: State, c: nat)
    requires Lists(s) && AllThreads(s) && CanExorcise(s, c)
    ensures var z := Head(s, Zombies(c));
            && s.threads[z] == Thread(Zombie, c, On(Zombies(c))) && forall x :: z !in List(s, Hand(x))
  {
    RemHeadLists(s, Zombies(c));
    assert ThreadOk(s, Head(s, Zombies(c)));
    assert forall x :: Head(s, Zombies(c)) !in List(s, Hand(x));
    hide Lists, AllThreads;
  }

  lemma ExorciseFrame(s: State, c: nat)
    requires Inv(s) && CanExorcise(s, c)
    ensures var s', z := DoExorcise(s, c), Head(s, Zombies(c));
            && Moved(s, s', c, z) && ViewKept(s, s', c, z) && s'.cpus == s.cpus
            && forall x :: 0 <= x < |s.cpus| ==> OpFrame(s, s', x)
  {
    ExorciseSafe(s, c);
    hide Inv;
  }

  lemma ExorciseInv(s: State, c: nat)
    requires Inv(s) && CanExorcise(s, c)
    ensures Inv(DoExorcise(s, c))
  {
    hide Lists, AllThreads, AllCurs, AllOps, RqLocks, LkLocks, CurOk, OpOk, ThreadOk, Moved, OpFrame, ViewKept;
    var s', z := DoExorcise(s, c), Head(s, Zombies(c));
    InvAt(s, c);
    ExorciseSafe(s, c);
    ExorciseFrame(s, c);
    RemHeadLists(s, Zombies(c));
    DestroyLists(RemHead(s, Zombies(c)), z);
    LocksSame(s, s', c);
    hide DoExorcise;
    ThreadsStable(s, s', c, z);
    ExorciseCpus(s, s', c, z);
  }

  lemma ExorciseCpus(s: State, s': State, c: nat, z: nat)
    requires Inv(s) && Moved(s, s', c, z) && s'.cpus == s.cpus
    requires forall x :: 0 <= x < |s.cpus| ==> OpFrame(s, s', x)
    requires forall x :: 0 <= x < |s.cpus| ==> s.cpus[x].cur != z
    ensures AllCurs(s') && AllOps(s')
  {
    hide RqLocks, LkLocks, Lists, AllThreads;
    OpStable(s, s', c);
    hide OpOk, OpFrame;
    OpsStable(s, s', c);
    CursStable(s, s', c, z) by {
      assert CurOk(s, c);
    }
  }

  lemma ForkCpu(s: State, c: nat, t: nat)
    requires Inv(s) && CanFork(s, c, t)
    ensures var s' := DoFork(s, c, t); |s'.cpus| == |s.cpus| && ThreadOk(s', t) && CurOk(s', c) && OpOk(s', c)
    ensures forall x :: 0 <= x < |s.cpus| ==> s.cpus[x].cur != t
  {
    InvAt(s, c);
    hide RqLocks, LkLocks, Lists, AllThreads, AllOps;
    forall x | 0 <= x < |s.cpus| ensures s.cpus[x].cur != t {
      assert CurOk(s, x);
    }
  }

  lemma ForkLists(s: State, c: nat, t: nat)
    requires Inv(s) && CanFork(s, c, t)
    ensures Lists(DoFork(s, c, t))
  {
    var s1 := s.(threads := s.threads[t := Thread(Ready, c, Off)]);
    InvAt(s, c);
    hide Inv, Lists, AllThreads, AllCurs, AllOps, RqLocks, LkLocks, OpOk, CurOk;
    CreateLists(s, t, Thread(Ready, c, Off));
    AddTailLists(s1, Born(s.cpus[c].cur), t);
  }

  lemma ForkFrame(s: State, c: nat, t: nat)
    requires Inv(s) && CanFork(s, c, t)
    ensures var s' := DoFork(s, c, t);
            && Moved(s, s', c, t) && ViewKept(s, s', c, t)
            && forall x :: 0 <= x < |s.cpus| && x != c ==> OpFrame(s, s', x)
  {
    InvAt(s, c);
    hide Inv, Lists, AllThreads, AllCurs, AllOps, RqLocks, LkLocks, CurOk, OpOk, ThreadOk;
  }

  lemma ForkLocks(s: State, c: nat, t: nat)
    requires RqLocks(s) && LkLocks(s) && CanFork(s, c, t)
    ensures RqLocks(DoFork(s, c, t)) && LkLocks(DoFork(s, c, t))
  {
    hide RqLocks, LkLocks;
    LocksSame(s, DoFork(s, c, t), c);
  }

  lemma ForkInv(s: State, c: nat, t: nat)
    requires Inv(s) && CanFork(s, c, t)
    ensures Inv(DoFork(s, c, t))
  {
    var s' := DoFork(s, c, t);
    InvAt(s, c);
    ForkCpu(s, c, t);
    ForkLists(s, c, t);
    ForkFrame(s, c, t);
    ForkLocks(s, c, t);
    hide *;
    MovedInv(s, s', c, t);
  }

  /** A thread in the private list of a CPU is in no other private list. */
  lemma HandApart(s: State, c: nat)
    requires Lists(s) && List(s, Hand(c)) != []
    ensures forall x :: x != c ==> Head(s, Hand(c)) !in List(s, Hand(x))
  {
    RemHeadLists(s, Hand(c));
  }

  // ---- Making threads runnable, on this CPU or another ----

  /** The CPU whose run queue is locked by another is not inside thread_switch with a thread
      in transit. */
  lemma TargetSettled(s: State, c: nat)
    requires Inv(s) && c < |s.cpus| && s.cpus[c].op.PutLocked?
    ensures s.cpus[c].op.target < |s.cpus| && !s.cpus[s.cpus[c].op.target].pc.Placed?
    ensures s.cpus[c].op.target in RqHeld(s.cpus[c], c)
  {
    InvAt(s, c);
    var x := s.cpus[c].op.target;
    hide Lists, AllThreads, LkLocks, AllOps, AllCurs;
    assert x in RqHeld(s.cpus[c], c);
    assert x in RqHeld(s.cpus[x], x) ==> x == c;
  }

  lemma PutEnqueueEffect(s: State, c: nat)
    requires CanPutEnqueue(s, c)
    ensures var s', x, t := DoPutEnqueue(s, c), s.cpus[c].op.target, Head(s, Hand(c));
            && s'.threads.Keys == s.threads.Keys
            && (forall u :: u in s.threads ==> s'.threads[u].cpu == s.threads[u].cpu)
            && List(s', Hand(c)) == List(s, Hand(c))[1..] && List(s', Queue(x)) == List(s, Queue(x)) + [t]
            && (forall l :: l != Hand(c) && l != Queue(x) ==> List(s', l) == List(s, l))
            && |s'.cpus| == |s.cpus|
            && s'.cpus[c] == s.cpus[c].(op := Put(s.cpus[c].op.src), rqHolder := s'.cpus[c].rqHolder)
            && (forall y :: 0 <= y < |s.cpus| && y != c ==>
                 && s'.cpus[y] == s.cpus[y].(ipi := s'.cpus[y].ipi, rqHolder := s'.cpus[y].rqHolder)
                 && (s.cpus[y].ipi ==> s'.cpus[y].ipi))
            && (forall y :: 0 <= y < |s.cpus| ==> s'.cpus[y].rqHolder == if y == x then None else s.cpus[y].rqHolder)
            && s'.lkHolder == s.lkHolder
            && (x != c && s.cpus[x].isIdle ==> s'.cpus[x].ipi)
  {
  }

  lemma PutEnqueueRq(s: State, s': State, c: nat)
    requires RqLocks(s) && c < |s.cpus| == |s'.cpus| && s.cpus[c].op.PutLocked? && s.cpus[c].op.target < |s.cpus|
    requires s'.cpus[c] == s.cpus[c].(op := Put(s.cpus[c].op.src), rqHolder := s'.cpus[c].rqHolder)
    requires forall y :: 0 <= y < |s.cpus| && y != c ==>
      s'.cpus[y] == s.cpus[y].(ipi := s'.cpus[y].ipi, rqHolder := s'.cpus[y].rqHolder)
    requires forall y :: 0 <= y < |s.cpus| ==>
      s'.cpus[y].rqHolder == if y == s.cpus[c].op.target then None else s.cpus[y].rqHolder
    requires OpOk(s, c)
    ensures RqLocks(s')
  {
    var k := s.cpus[c];
    assert !(k.pc.Locked? || k.pc.Placed? || k.pc == Choosing || k.pc == Picked || k.pc == Switched);
    assert RqHeld(k, c) == {k.op.target};
    assert RqHeld(s'.cpus[c], c) == {};
    hide RqLocks, OpOk;
    RqRelease(s, s', c, k.op.target);
  }

  lemma PutEnqueueLk(s: State, s': State, c: nat)
    requires LkLocks(s) && c < |s.cpus| == |s'.cpus| && s.cpus[c].op.PutLocked? && s'.lkHolder == s.lkHolder
    requires s'.cpus[c] == s.cpus[c].(op := Put(s.cpus[c].op.src), rqHolder := s'.cpus[c].rqHolder)
    requires forall y :: 0 <= y < |s.cpus| && y != c ==>
      s'.cpus[y] == s.cpus[y].(ipi := s'.cpus[y].ipi, rqHolder := s'.cpus[y].rqHolder)
    ensures LkLocks(s')
  {
    hide LkLocks;
    LkSame(s, s');
  }

  lemma PutEnqueueMoved(s: State, c: nat)
    requires CanPutEnqueue(s, c)
    ensures Moved(s, DoPutEnqueue(s, c), c, Head(s, Hand(c)))
  {
  }

  lemma PutEnqueueFrame(s: State, c: nat)
    requires Inv(s) && CanPutEnqueue(s, c)
    ensures var s' := DoPutEnqueue(s, c);
            |s'.cpus| == |s.cpus| && forall x :: 0 <= x < |s.cpus| && x != c ==> OpFrame(s, s', x)
  {
    hide Inv, Lists, AllThreads, AllCurs, AllOps, RqLocks, LkLocks, CurOk, DoPutEnqueue;
    var s' := DoPutEnqueue(s, c);
    InvAt(s, c);
    TargetSettled(s, c);
    RemHeadLists(s, Hand(c));
    PutEnqueueEffect(s, c);
  }

  lemma PutEnqueueView(s: State, c: nat)
    requires Inv(s) && CanPutEnqueue(s, c)
    ensures var s' := DoPutEnqueue(s, c); |s'.cpus| == |s.cpus| && ViewKept(s, s', c, Head(s, Hand(c)))
  {
    hide Inv, RqLocks, LkLocks, AllThreads, Lists, RqHeld, LkHeld;
    InvAt(s, c);
    TargetSettled(s, c);
    RemHeadLists(s, Hand(c));
  }

  lemma PutEnqueueThread(s: State, c: nat)
    requires Inv(s) && CanPutEnqueue(s, c)
    ensures var s', m := DoPutEnqueue(s, c), Head(s, Hand(c)); m in s'.threads && ThreadOk(s', m)
  {
    hide Inv, RqLocks, LkLocks, AllThreads, Lists, RqHeld, LkHeld;
    var s', m := DoPutEnqueue(s, c), Head(s, Hand(c));
    InvAt(s, c);
    TargetSettled(s, c);
    RemHeadLists(s, Hand(c));
    ThreadAt(s, m);
  }

  lemma PutEnqueueCur(s: State, c: nat)
    requires Inv(s) && CanPutEnqueue(s, c)
    ensures var s' := DoPutEnqueue(s, c);
            && |s'.cpus| == |s.cpus| && CurOk(s', c)
            && forall x :: 0 <= x < |s.cpus| && x != c && s.cpus[x].cur == Head(s, Hand(c)) ==> CurOk(s', x)
  {
    var s' := DoPutEnqueue(s, c);
    InvAt(s, c);
    TargetSettled(s, c);
    RemHeadLists(s, Hand(c));
    hide RqLocks, LkLocks, Lists, AllThreads, AllOps, RqHeld, LkHeld;
    forall x | 0 <= x < |s.cpus| && x != c && s.cpus[x].cur == Head(s, Hand(c)) ensures CurOk(s', x) {
      assert CurOk(s, x);
    }
  }

  lemma PutEnqueueSelf(s: State, c: nat)
    requires Inv(s) && CanPutEnqueue(s, c)
    ensures var s' := DoPutEnqueue(s, c); |s'.cpus| == |s.cpus| && OpOk(s', c)
  {
    hide Inv, RqLocks, LkLocks, Lists, AllThreads, AllOps, AllCurs, CurOk, RqHeld, LkHeld, DoPutEnqueue, List;
    var s' := DoPutEnqueue(s, c);
    InvAt(s, c);
    PutEnqueueEffect(s, c);
  }

  lemma PutEnqueueLists(s: State, c: nat)
    requires Inv(s) && CanPutEnqueue(s, c)
    ensures Lists(DoPutEnqueue(s, c))
  {
    var s' := DoPutEnqueue(s, c);
    InvAt(s, c);
    hide Inv, Lists, AllThreads, AllCurs, AllOps, RqLocks, LkLocks, OpOk, ThreadOk;
    var t, x := Head(s, Hand(c)), s.cpus[c].op.target;
    RemHeadLists(s, Hand(c));
    SameLists(RemHead(s, Hand(c)), SetState(RemHead(s, Hand(c)), t, Ready));
    AddTailLists(SetState(RemHead(s, Hand(c)), t, Ready), Queue(x), t);
    SameLists(AddTail(SetState(RemHead(s, Hand(c)), t, Ready), Queue(x), t), s');
  }

  lemma PutEnqueueLocks(s: State, c: nat)
    requires RqLocks(s) && LkLocks(s) && CanPutEnqueue(s, c) && OpOk(s, c)
    ensures RqLocks(DoPutEnqueue(s, c)) && LkLocks(DoPutEnqueue(s, c))
  {
    hide RqLocks, LkLocks, DoPutEnqueue, List;
    var s' := DoPutEnqueue(s, c);
    PutEnqueueEffect(s, c);
    PutEnqueueRq(s, s', c);
    PutEnqueueLk(s, s', c);
  }

  lemma PutEnqueueInv(s: State, c: nat)
    requires Inv(s) && CanPutEnqueue(s, c)
    ensures Inv(DoPutEnqueue(s, c))
  {
    var s' := DoPutEnqueue(s, c);
    PutEnqueueMoved(s, c);
    PutEnqueueFrame(s, c);
    PutEnqueueView(s, c);
    PutEnqueueThread(s, c);
    PutEnqueueCur(s, c);
    PutEnqueueSelf(s, c);
    PutEnqueueLists(s, c);
    PutEnqueueLocks(s, c);
    hide *;
    MovedInv(s, s', c, Head(s, Hand(c)));
  }

  lemma ForkPutMoved(s: State, c: nat)
    requires CanForkPut(s, c)
    ensures Moved(s, DoForkPut(s, c), c, Head(s, Born(s.cpus[c].cur)))
  {
  }

  lemma ForkPutFrame(s: State, c: nat)
    requires Inv(s) && CanForkPut(s, c)
    ensures var s' := DoForkPut(s, c);
            |s'.cpus| == |s.cpus| && forall x :: 0 <= x < |s.cpus| && x != c ==> OpFrame(s, s', x)
  {
    hide Inv, OpFrame;
    var s' := DoForkPut(s, c);
    assert forall x :: 0 <= x < |s.cpus| && x != c ==> s'.cpus[x] == s.cpus[x];
    assert forall x :: x != c ==> List(s', Hand(x)) == List(s, Hand(x)) && List(s', Queue(x)) == List(s, Queue(x));
    assert forall t :: t in s.threads ==> t in s'.threads && s'.threads[t].cpu == s.threads[t].cpu;
    hide DoForkPut, List;
    QuietFrame(s, s', c);
  }

  lemma ForkPutView(s: State, c: nat)
    requires Inv(s) && CanForkPut(s, c)
    ensures var s' := DoForkPut(s, c); |s'.cpus| == |s.cpus| && ViewKept(s, s', c, Head(s, Born(s.cpus[c].cur)))
  {
    hide Inv, RqLocks, LkLocks, AllThreads, Lists, RqHeld, LkHeld;
    InvAt(s, c);
    RemHeadLists(s, Born(s.cpus[c].cur));
  }

  lemma ForkPutThread(s: State, c: nat)
    requires Inv(s) && CanForkPut(s, c)
    ensures var s', m := DoForkPut(s, c), Head(s, Born(s.cpus[c].cur)); m in s'.threads && ThreadOk(s', m)
  {
    hide Inv, RqLocks, LkLocks, AllThreads, Lists, RqHeld, LkHeld;
    var s', m := DoForkPut(s, c), Head(s, Born(s.cpus[c].cur));
    InvAt(s, c);
    RemHeadLists(s, Born(s.cpus[c].cur));
    ThreadAt(s, m);
  }

  lemma ForkPutCur(s: State, c: nat)
    requires Inv(s) && CanForkPut(s, c)
    ensures var s' := DoForkPut(s, c); |s'.cpus| == |s.cpus| && CurOk(s', c)
    ensures forall x :: 0 <= x < |s.cpus| && x != c ==> s.cpus[x].cur != Head(s, Born(s.cpus[c].cur))
  {
    hide Inv, RqLocks, LkLocks, Lists, AllThreads, AllOps, AllCurs, RqHeld, LkHeld;
    InvAt(s, c);
    RemHeadLists(s, Born(s.cpus[c].cur));
    NeverRun(s, Head(s, Born(s.cpus[c].cur)));
  }

  lemma ForkPutSelf(s: State, c: nat)
    requires Inv(s) && CanForkPut(s, c)
    ensures var s' := DoForkPut(s, c); |s'.cpus| == |s.cpus| && OpOk(s', c)
  {
    var s' := DoForkPut(s, c);
    InvAt(s, c);
    hide Inv, RqLocks, LkLocks, Lists, AllThreads, AllOps, AllCurs, CurOk, RqHeld, LkHeld;
  }

  lemma ForkPutLists(s: State, c: nat)
    requires Inv(s) && CanForkPut(s, c)
    ensures Lists(DoForkPut(s, c))
  {
    var s' := DoForkPut(s, c);
    InvAt(s, c);
    hide Inv, Lists, AllThreads, AllCurs, AllOps, RqLocks, LkLocks, OpOk, ThreadOk;
    MoveLists(s, Born(s.cpus[c].cur), Hand(c));
    SameLists(Move(s, Born(s.cpus[c].cur), Hand(c)), s');
  }

  lemma ForkPutLocks(s: State, c: nat)
    requires RqLocks(s) && LkLocks(s) && CanForkPut(s, c) && OpOk(s, c)
    ensures RqLocks(DoForkPut(s, c)) && LkLocks(DoForkPut(s, c))
  {
    hide RqLocks, LkLocks;
    var s' := DoForkPut(s, c);
    assert MovesOnly(s, s', c);
    LocksSame(s, s', c);
  }

  lemma ForkPutInv(s: State, c: nat)
    requires Inv(s) && CanForkPut(s, c)
    ensures Inv(DoForkPut(s, c))
  {
    var s' := DoForkPut(s, c);
    ForkPutMoved(s, c);
    ForkPutFrame(s, c);
    ForkPutView(s, c);
    ForkPutThread(s, c);
    ForkPutCur(s, c);
    ForkPutSelf(s, c);
    ForkPutLists(s, c);
    ForkPutLocks(s, c);
    hide *;
    MovedInv(s, s', c, Head(s, Born(s.cpus[c].cur)));
  }

  // ---- Migration ----

  lemma TakeOneMoved(s: State, c: nat)
    requires CanTakeOne(s, c)
    ensures Moved(s, DoTakeOne(s, c), c, List(s, Queue(c))[|List(s, Queue(c))| - 1])
  {
  }

  lemma TakeOneFrame(s: State, c: nat)
    requires Inv(s) && CanTakeOne(s, c)
    ensures var s' := DoTakeOne(s, c);
            |s'.cpus| == |s.cpus| && forall x :: 0 <= x < |s.cpus| && x != c ==> OpFrame(s, s', x)
  {
    hide Inv, OpFrame;
    var s' := DoTakeOne(s, c);
    assert forall x :: 0 <= x < |s.cpus| && x != c ==> s'.cpus[x] == s.cpus[x];
    assert forall x :: x != c ==> List(s', Hand(x)) == List(s, Hand(x)) && List(s', Queue(x)) == List(s, Queue(x));
    assert forall t :: t in s.threads ==> t in s'.threads && s'.threads[t].cpu == s.threads[t].cpu;
    hide DoTakeOne, List;
    QuietFrame(s, s', c);
  }

  lemma TakeOneView(s: State, c: nat)
    requires Inv(s) && CanTakeOne(s, c)
    ensures var s' := DoTakeOne(s, c);
            |s'.cpus| == |s.cpus| && ViewKept(s, s', c, List(s, Queue(c))[|List(s, Queue(c))| - 1])
  {
    hide Inv, RqLocks, LkLocks, AllThreads, Lists, RqHeld, LkHeld;
    InvAt(s, c);
    RemTailLists(s, Queue(c));
  }

  lemma TakeOneThread(s: State, c: nat)
    requires Inv(s) && CanTakeOne(s, c)
    ensures var s', m := DoTakeOne(s, c), List(s, Queue(c))[|List(s, Queue(c))| - 1]; m in s'.threads && ThreadOk(s', m)
  {
    hide Inv, RqLocks, LkLocks, AllThreads, Lists, RqHeld, LkHeld;
    var s', m := DoTakeOne(s, c), List(s, Queue(c))[|List(s, Queue(c))| - 1];
    InvAt(s, c);
    RemTailLists(s, Queue(c));
    ThreadAt(s, m);
  }

  lemma TakeOneCur(s: State, c: nat)
    requires Inv(s) && CanTakeOne(s, c)
    ensures var s' := DoTakeOne(s, c); |s'.cpus| == |s.cpus| && CurOk(s', c)
    ensures forall x :: 0 <= x < |s.cpus| && x != c ==> s.cpus[x].cur != List(s, Queue(c))[|List(s, Queue(c))| - 1]
  {
    hide Inv, RqLocks, LkLocks, Lists, AllThreads, AllOps, AllCurs, RqHeld, LkHeld;
    InvAt(s, c);
    RemTailLists(s, Queue(c));
    ThreadAt(s, List(s, Queue(c))[|List(s, Queue(c))| - 1]);
    OnlyHere(s, c, List(s, Queue(c))[|List(s, Queue(c))| - 1]);
  }

  lemma TakeOneSelf(s: State, c: nat)
    requires Inv(s) && CanTakeOne(s, c)
    ensures var s' := DoTakeOne(s, c); |s'.cpus| == |s.cpus| && OpOk(s', c)
  {
    var s' := DoTakeOne(s, c);
    InvAt(s, c);
    hide Inv, RqLocks, LkLocks, Lists, AllThreads, AllOps, AllCurs, CurOk, RqHeld, LkHeld;
  }

  lemma TakeOneLists(s: State, c: nat)
    requires Inv(s) && CanTakeOne(s, c)
    ensures Lists(DoTakeOne(s, c))
  {
    var s' := DoTakeOne(s, c);
    InvAt(s, c);
    hide Inv, Lists, AllThreads, AllCurs, AllOps, RqLocks, LkLocks, OpOk, ThreadOk;
    var q := List(s, Queue(c));
    RemTailLists(s, Queue(c));
    AddHeadLists(RemTail(s, Queue(c)), Hand(c), q[|q| - 1]);
    SameLists(AddHead(RemTail(s, Queue(c)), Hand(c), q[|q| - 1]), s');
  }

  lemma TakeOneLocks(s: State, c: nat)
    requires RqLocks(s) && LkLocks(s) && CanTakeOne(s, c) && OpOk(s, c)
    ensures RqLocks(DoTakeOne(s, c)) && LkLocks(DoTakeOne(s, c))
  {
    hide RqLocks, LkLocks;
    var s' := DoTakeOne(s, c);
    assert MovesOnly(s, s', c);
    LocksSame(s, s', c);
  }

  lemma TakeOneInv(s: State, c: nat)
    requires Inv(s) && CanTakeOne(s, c)
    ensures Inv(DoTakeOne(s, c))
  {
    var s' := DoTakeOne(s, c);
    TakeOneMoved(s, c);
    TakeOneFrame(s, c);
    TakeOneView(s, c);
    TakeOneThread(s, c);
    TakeOneCur(s, c);
    TakeOneSelf(s, c);
    TakeOneLists(s, c);
    TakeOneLocks(s, c);
    hide *;
    MovedInv(s, s', c, List(s, Queue(c))[|List(s, Queue(c))| - 1]);
  }

  lemma KeepCurrentMoved(s: State, c: nat)
    requires CanSendOne(s, c)
    ensures Moved(s, DoKeepCurrent(s, c), c, Head(s, Hand(c)))
  {
  }

  lemma KeepCurrentFrame(s: State, c: nat)
    requires Inv(s) && CanSendOne(s, c)
    ensures var s' := DoKeepCurrent(s, c);
            |s'.cpus| == |s.cpus| && forall x :: 0 <= x < |s.cpus| && x != c ==> OpFrame(s, s', x)
  {
    hide Inv, OpFrame;
    var s' := DoKeepCurrent(s, c);
    assert forall x :: 0 <= x < |s.cpus| && x != c ==> s'.cpus[x] == s.cpus[x];
    assert forall x :: x != c ==> List(s', Hand(x)) == List(s, Hand(x)) && List(s', Queue(x)) == List(s, Queue(x));
    assert forall t :: t in s.threads ==> t in s'.threads && s'.threads[t].cpu == s.threads[t].cpu;
    hide DoKeepCurrent, List;
    QuietFrame(s, s', c);
  }

  lemma KeepCurrentView(s: State, c: nat)
    requires Inv(s) && CanSendOne(s, c)
    ensures var s' := DoKeepCurrent(s, c); |s'.cpus| == |s.cpus| && ViewKept(s, s', c, Head(s, Hand(c)))
  {
    hide Inv, RqLocks, LkLocks, AllThreads, Lists, RqHeld, LkHeld;
    InvAt(s, c);
    RemHeadLists(s, Hand(c));
  }

  lemma KeepCurrentThread(s: State, c: nat)
    requires Inv(s) && CanSendOne(s, c)
    ensures var s', m := DoKeepCurrent(s, c), Head(s, Hand(c)); m in s'.threads && ThreadOk(s', m)
  {
    hide Inv, RqLocks, LkLocks, AllThreads, Lists, RqHeld, LkHeld;
    var s', m := DoKeepCurrent(s, c), Head(s, Hand(c));
    InvAt(s, c);
    RemHeadLists(s, Hand(c));
    ThreadAt(s, m);
  }

  lemma KeepCurrentCur(s: State, c: nat)
    requires Inv(s) && CanSendOne(s, c)
    ensures var s' := DoKeepCurrent(s, c); |s'.cpus| == |s.cpus| && CurOk(s', c)
    ensures forall x :: 0 <= x < |s.cpus| && x != c ==> s.cpus[x].cur != Head(s, Hand(c))
  {
    hide Inv, RqLocks, LkLocks, Lists, AllThreads, AllOps, AllCurs, RqHeld, LkHeld;
    InvAt(s, c);
    RemHeadLists(s, Hand(c));
    ThreadAt(s, Head(s, Hand(c)));
    OnlyHere(s, c, Head(s, Hand(c)));
  }

  lemma KeepCurrentSelf(s: State, c: nat)
    requires Inv(s) && CanSendOne(s, c)
    ensures var s' := DoKeepCurrent(s, c); |s'.cpus| == |s.cpus| && OpOk(s', c)
  {
    var s' := DoKeepCurrent(s, c);
    InvAt(s, c);
    hide Inv, RqLocks, LkLocks, Lists, AllThreads, AllOps, AllCurs, CurOk, RqHeld, LkHeld;
  }

  lemma KeepCurrentLists(s: State, c: nat)
    requires Inv(s) && CanSendOne(s, c)
    ensures Lists(DoKeepCurrent(s, c))
  {
    var s' := DoKeepCurrent(s, c);
    InvAt(s, c);
    hide Inv, Lists, AllThreads, AllCurs, AllOps, RqLocks, LkLocks, OpOk, ThreadOk;
    MoveLists(s, Hand(c), Hand(c));
    SameLists(Move(s, Hand(c), Hand(c)), s');
  }

  lemma KeepCurrentLocks(s: State, c: nat)
    requires RqLocks(s) && LkLocks(s) && CanSendOne(s, c) && OpOk(s, c)
    ensures RqLocks(DoKeepCurrent(s, c)) && LkLocks(DoKeepCurrent(s, c))
  {
    hide RqLocks, LkLocks;
    var s' := DoKeepCurrent(s, c);
    assert MovesOnly(s, s', c);
    LocksSame(s, s', c);
  }

  lemma KeepCurrentInv(s: State, c: nat)
    requires Inv(s) && CanSendOne(s, c)
    ensures Inv(DoKeepCurrent(s, c))
  {
    var s' := DoKeepCurrent(s, c);
    KeepCurrentMoved(s, c);
    KeepCurrentFrame(s, c);
    KeepCurrentView(s, c);
    KeepCurrentThread(s, c);
    KeepCurrentCur(s, c);
    KeepCurrentSelf(s, c);
    KeepCurrentLists(s, c);
    KeepCurrentLocks(s, c);
    hide *;
    MovedInv(s, s', c, Head(s, Hand(c)));
  }

  lemma MigrateEffect(s: State, c: nat)
    requires CanSendOne(s, c)
    ensures var s', op, t := DoMigrate(s, c), s.cpus[c].op, Head(s, Hand(c));
            && s'.threads.Keys == s.threads.Keys
            && (forall u :: u in s.threads && u != t ==> s'.threads[u].cpu == s.threads[u].cpu)
            && List(s', Hand(c)) == List(s, Hand(c))[1..] && List(s', Queue(op.i)) == List(s, Queue(op.i)) + [t]
            && (forall l :: l != Hand(c) && l != Queue(op.i) ==> List(s', l) == List(s, l))
            && MovesOnly(s, s', c)
            && s'.cpus[c].(op := NoOp) == s.cpus[c].(op := NoOp)
            && s'.cpus[c].op == SendLocked(op.i, op.left - 1, op.share)
            && (forall y :: 0 <= y < |s.cpus| && y != c && s.cpus[y].ipi ==> s'.cpus[y].ipi)
            && (op.i != c && s.cpus[op.i].isIdle ==> s'.cpus[op.i].ipi)
  {
  }

  lemma MigrateMoved(s: State, c: nat)
    requires CanSendOne(s, c) && Head(s, Hand(c)) != s.cpus[c].cur
    ensures Moved(s, DoMigrate(s, c), c, Head(s, Hand(c)))
  {
  }

  lemma MigrateFrame(s: State, c: nat)
    requires Inv(s) && CanSendOne(s, c) && Head(s, Hand(c)) != s.cpus[c].cur
    ensures var s' := DoMigrate(s, c);
            |s'.cpus| == |s.cpus| && forall x :: 0 <= x < |s.cpus| && x != c ==> OpFrame(s, s', x)
  {
    hide Inv, Lists, AllThreads, AllCurs, AllOps, RqLocks, LkLocks, CurOk, DoMigrate;
    var s' := DoMigrate(s, c);
    InvAt(s, c);
    RemHeadLists(s, Hand(c));
    HandApart(s, c);
    MigrateEffect(s, c);
  }

  lemma MigrateView(s: State, c: nat)
    requires Inv(s) && CanSendOne(s, c) && Head(s, Hand(c)) != s.cpus[c].cur
    ensures var s' := DoMigrate(s, c); |s'.cpus| == |s.cpus| && ViewKept(s, s', c, Head(s, Hand(c)))
  {
    hide Inv, RqLocks, LkLocks, AllThreads, Lists, RqHeld, LkHeld;
    InvAt(s, c);
    RemHeadLists(s, Hand(c));
    HandApart(s, c);
  }

  lemma MigrateThread(s: State, c: nat)
    requires Inv(s) && CanSendOne(s, c) && Head(s, Hand(c)) != s.cpus[c].cur
    ensures var s', m := DoMigrate(s, c), Head(s, Hand(c)); m in s'.threads && ThreadOk(s', m)
  {
    hide Inv, RqLocks, LkLocks, AllThreads, Lists, RqHeld, LkHeld;
    var s', m := DoMigrate(s, c), Head(s, Hand(c));
    InvAt(s, c);
    RemHeadLists(s, Hand(c));
    HandApart(s, c);
    ThreadAt(s, m);
  }

  lemma MigrateCur(s: State, c: nat)
    requires Inv(s) && CanSendOne(s, c) && Head(s, Hand(c)) != s.cpus[c].cur
    ensures var s' := DoMigrate(s, c); |s'.cpus| == |s.cpus| && CurOk(s', c)
    ensures forall x :: 0 <= x < |s.cpus| && x != c ==> s.cpus[x].cur != Head(s, Hand(c))
  {
    hide Inv, RqLocks, LkLocks, Lists, AllThreads, AllOps, AllCurs, RqHeld, LkHeld;
    InvAt(s, c);
    RemHeadLists(s, Hand(c));
    HandApart(s, c);
    ThreadAt(s, Head(s, Hand(c)));
    OnlyHere(s, c, Head(s, Hand(c)));
  }

  lemma MigrateSelf(s: State, c: nat)
    requires Inv(s) && CanSendOne(s, c) && Head(s, Hand(c)) != s.cpus[c].cur
    ensures var s' := DoMigrate(s, c); |s'.cpus| == |s.cpus| && OpOk(s', c)
  {
    hide Inv, RqLocks, LkLocks, Lists, AllThreads, AllOps, AllCurs, CurOk, RqHeld, LkHeld, DoMigrate, List;
    var s' := DoMigrate(s, c);
    InvAt(s, c);
    MigrateEffect(s, c);
  }

  lemma MigrateLists(s: State, c: nat)
    requires Inv(s) && CanSendOne(s, c) && Head(s, Hand(c)) != s.cpus[c].cur
    ensures Lists(DoMigrate(s, c))
  {
    var s' := DoMigrate(s, c);
    InvAt(s, c);
    hide Inv, Lists, AllThreads, AllCurs, AllOps, RqLocks, LkLocks, OpOk, ThreadOk;
    var t, i := Head(s, Hand(c)), s.cpus[c].op.i;
    RemHeadLists(s, Hand(c));
    var s1 := RemHead(s, Hand(c));
    var s2 := s1.(threads := s1.threads[t := s1.threads[t].(cpu := i)]);
    SameLists(s1, s2);
    AddTailLists(s2, Queue(i), t);
    SameLists(AddTail(s2, Queue(i), t), s');
  }

  lemma MigrateLocks(s: State, c: nat)
    requires RqLocks(s) && LkLocks(s) && CanSendOne(s, c) && Head(s, Hand(c)) != s.cpus[c].cur && OpOk(s, c)
    ensures RqLocks(DoMigrate(s, c)) && LkLocks(DoMigrate(s, c))
  {
    hide RqLocks, LkLocks, DoMigrate, List;
    var s' := DoMigrate(s, c);
    MigrateEffect(s, c);
    assert MovesOnly(s, s', c);
    LocksSame(s, s', c);
  }

  lemma MigrateInv(s: State, c: nat)
    requires Inv(s) && CanSendOne(s, c) && Head(s, Hand(c)) != s.cpus[c].cur
    ensures Inv(DoMigrate(s, c))
  {
    var s' := DoMigrate(s, c);
    MigrateMoved(s, c);
    MigrateFrame(s, c);
    MigrateView(s, c);
    MigrateThread(s, c);
    MigrateCur(s, c);
    MigrateSelf(s, c);
    MigrateLists(s, c);
    MigrateLocks(s, c);
    hide *;
    MovedInv(s, s', c, Head(s, Hand(c)));
  }
}
