/** Sleep locks and condition variables of kern/thread/synch.c: one lock and one condition
    variable used by any number of threads, with both spinlocks and both wait channels explicit
    and every access to a shared field a step of its own. */
module SleepLock {
  import opened Common

  /** Where a thread is.  The flag cv says that lock_acquire or lock_release was called by
      cv_wait. */
  datatype Pc =
    | Out                              // does not hold the lock, outside every operation
    | AWant(cv: bool)                  // lock_acquire, wants lk_lock
    | ATest(cv: bool)                  // lk_lock held, about to test available
    | AAsleep(cv: bool)                // on lk_wchan
    | AWoken(cv: bool)                 // off lk_wchan, wants lk_lock
    | ATaken(cv: bool)                 // available cleared, owner not yet written
    | AOwned(cv: bool)                 // owner written, lk_lock still held
    | AUnlocked(cv: bool)              // lk_lock released, second write of owner to come
    | Held                             // lock_acquire has returned
    | RWant(cv: bool)                  // lock_release: owner cleared, wants lk_lock
    | RLocked(cv: bool)                // lk_lock held, about to set available
    | RWake(cv: bool)                  // available set, about to call wakeone
    | RUnlock(cv: bool)                // about to release lk_lock
    | CWant                            // cv_wait, wants cv_lock
    | CLocked                          // cv_lock held, about to call lock_release
    | CSleep                           // lock released, cv_lock held, about to sleep
    | CAsleep                          // on cv_wchan
    | CWoken                           // off cv_wchan, wants cv_lock
    | CRelock                          // cv_lock held again, about to release it
    | SWant(all: bool)                 // cv_signal or cv_broadcast, wants cv_lock
    | SLocked(all: bool)               // cv_lock held
    | SUnlock                          // wakeone or wakeall done, cv_lock held

  /** The lock's available and owner fields, the two spinlocks, the two wait channels.  holder
      records which thread's lock_acquire last cleared available. */
  datatype State = State(available: bool, owner: Option<nat>, holder: Option<nat>, lk: Option<nat>, lkq: seq<nat>,
                         cvl: Option<nat>, cvq: seq<nat>, pc: map<nat, Pc>)

  datatype Step =
    | ACall(t: nat) | AAcquire(t: nat) | ASleep(t: nat) | ATake(t: nat)
    | AOwn(t: nat) | AUnlock(t: nat) | AFinish(t: nat)
    | RClear(t: nat) | RAcquire(t: nat) | RSet(t: nat) | RWakeOne(t: nat) | RRelease(t: nat)
    | CCall(t: nat) | CAcquire(t: nat) | CQueue(t: nat) | CReacquire(t: nat) | CRelease(t: nat)
    | SCall(t: nat, all: bool) | SAcquire(t: nat) | SWakeUp(t: nat) | SRelease(t: nat)

  function Set(s: State, t: nat, pc: Pc): (r: State)
  {
    s.(pc := s.pc[t := pc])
  }

  /** lock_do_i_hold */
  predicate DoIHold(s: State, t: nat)
  {
    s.owner == Some(t)
  }

  /** Spinlocks are free when they are asked for, loop tests have the outcome that the step
      needs, and assertions hold. */
  predicate Enabled(s: State, st: Step)
  {
    && st.t in s.pc
    && var pc := s.pc[st.t];
       match st
       case ACall(_) => pc == Out
       case AAcquire(_) => (pc.AWant? || pc.AWoken?) && s.lk == None
       case ASleep(_) => pc.ATest? && !s.available
       case ATake(_) => pc.ATest? && s.available
       case AOwn(_) => pc.ATaken?
       case AUnlock(_) => pc.AOwned?
       case AFinish(_) => pc.AUnlocked?
       case RClear(t) => (pc == Held || pc == Out || pc == CLocked) && DoIHold(s, t)
       case RAcquire(_) => pc.RWant? && s.lk == None
       case RSet(_) => pc.RLocked?
       case RWakeOne(_) => pc.RWake?
       case RRelease(_) => pc.RUnlock?
       case CCall(_) => pc == Held
       case CAcquire(_) => pc == CWant && s.cvl == None
       case CQueue(_) => pc == CSleep
       case CReacquire(_) => pc == CWoken && s.cvl == None
       case CRelease(_) => pc == CRelock
       case SCall(_, _) => pc == Held
       case SAcquire(_) => pc.SWant? && s.cvl == None
       case SWakeUp(t) => pc.SLocked? && DoIHold(s, t)
       case SRelease(_) => pc == SUnlock
  }

  /** wchan_wakeone on the lock's channel. */
  function WakeLock(s: State): (r: State)
  {
    if s.lkq == [] || s.lkq[0] !in s.pc || !s.pc[s.lkq[0]].AAsleep? then s
    else Set(s, s.lkq[0], AWoken(s.pc[s.lkq[0]].cv)).(lkq := s.lkq[1..])
  }

  /** wchan_wakeone or wchan_wakeall on the condition variable's channel. */
  function WakeCv(s: State, all: bool): (r: State)
  {
    if s.cvq == [] then s
    else
      var n := if all then |s.cvq| else 1;
      s.(cvq := s.cvq[n..], pc := map t | t in s.pc :: if t in s.cvq[..n] then CWoken else s.pc[t])
  }

  function Apply(s: State, st: Step): (r: State)
    requires Enabled(s, st)
  {
    var pc := s.pc[st.t];
    match st
    case ACall(t) => Set(s, t, AWant(false))
    case AAcquire(t) => Set(s, t, ATest(pc.cv)).(lk := Some(t))
    case ASleep(t) => Set(s, t, AAsleep(pc.cv)).(lkq := s.lkq + [t], lk := None)
    case ATake(t) => Set(s, t, ATaken(pc.cv)).(available := false, holder := Some(t))
    case AOwn(t) => Set(s, t, AOwned(pc.cv)).(owner := Some(t))
    case AUnlock(t) => Set(s, t, AUnlocked(pc.cv)).(lk := None)
    case AFinish(t) => Set(s, t, Held).(owner := Some(t))
    case RClear(t) => Set(s, t, RWant(pc == CLocked)).(owner := None)
    case RAcquire(t) => Set(s, t, RLocked(pc.cv)).(lk := Some(t))
    case RSet(t) => Set(s, t, RWake(pc.cv)).(available := true, holder := None)
    case RWakeOne(t) => Set(WakeLock(s), t, RUnlock(pc.cv))
    case RRelease(t) => Set(s, t, if pc.cv then CSleep else Out).(lk := None)
    case CCall(t) => Set(s, t, CWant)
    case CAcquire(t) => Set(s, t, CLocked).(cvl := Some(t))
    case CQueue(t) => Set(s, t, CAsleep).(cvq := s.cvq + [t], cvl := None)
    case CReacquire(t) => Set(s, t, CRelock).(cvl := Some(t))
    case CRelease(t) => Set(s, t, AWant(true)).(cvl := None)
    case SCall(t, all) => Set(s, t, SWant(all))
    case SAcquire(t) => Set(s, t, SLocked(pc.all)).(cvl := Some(t))
    case SWakeUp(t) => Set(WakeCv(s, pc.all), t, SUnlock)
    case SRelease(t) => Set(s, t, Held).(cvl := None)
  }

  /** lock_create sets available and leaves owner as kmalloc found it. */
  ghost predicate Created(s: State)
  {
    && s.available && s.holder == None && s.lk == None && s.cvl == None && s.lkq == [] && s.cvq == []
    && forall t :: t in s.pc ==> s.pc[t] == Out
  }

  /** The leftover value of owner is not a thread. */
  predicate GoodOwner(s: State)
  {
    s.owner == None || s.owner.value !in s.pc
  }

  // ---- Invariant ----

  /** Available was cleared on this thread's account. */
  predicate Holds(pc: Pc)
  {
    || pc.ATaken? || pc.AOwned? || pc.AUnlocked? || InSection(pc) || pc.RWant? || pc.RLocked?
  }

  /** Between the return of lock_acquire and the call of lock_release. */
  predicate InSection(pc: Pc)
  {
    pc == Held || pc == CWant || pc == CLocked || pc.SWant? || pc.SLocked? || pc == SUnlock
  }

  predicate Owns(pc: Pc)
  {
    pc.AOwned? || pc.AUnlocked? || InSection(pc)
  }

  predicate InLk(pc: Pc)
  {
    pc.ATest? || pc.ATaken? || pc.AOwned? || pc.RLocked? || pc.RWake? || pc.RUnlock?
  }

  predicate InCv(pc: Pc)
  {
    || pc == CLocked || pc == CSleep || pc == CRelock || pc.SLocked? || pc == SUnlock
    || ((pc.RWant? || pc.RLocked? || pc.RWake? || pc.RUnlock?) && pc.cv)
  }

  /** Will look at available again, or is about to wake a thread that will. */
  predicate WillLook(pc: Pc)
  {
    pc.AWoken? || pc.ATest? || pc.RWake?
  }

  /** What the fields say about a thread, given where it is. */
  predicate ThreadOk(s: State, t: nat)
    requires t in s.pc
  {
    var pc := s.pc[t];
    && (InLk(pc) <==> s.lk == Some(t))
    && (InCv(pc) <==> s.cvl == Some(t))
    && (Holds(pc) <==> s.holder == Some(t))
  }

  ghost predicate Threads(s: State)
  {
    forall t :: t in s.pc ==> ThreadOk(s, t)
  }

  /** Owner names the thread that has the lock. */
  ghost predicate Owners(s: State)
  {
    forall t :: t in s.pc ==> (Owns(s.pc[t]) <==> s.owner == Some(t))
  }

  ghost predicate Queues(s: State)
  {
    && NoDup(s.lkq) && NoDup(s.cvq)
    && (forall t :: t in s.lkq <==> t in s.pc && s.pc[t].AAsleep?)
    && (forall t :: t in s.cvq <==> t in s.pc && s.pc[t] == CAsleep)
  }

  ghost predicate Looked(s: State)
  {
    exists t :: t in s.pc && WillLook(s.pc[t])
  }

  ghost predicate Inv(s: State)
  {
    && Threads(s) && Queues(s)
    && (s.available <==> s.holder == None)
    && (s.available && s.lkq != [] ==> Looked(s))
  }

  // ---- Preservation ----

  /** lock_release is called only by a thread whose lock_acquire has returned. */
  predicate Polite(s: State, st: Step)
  {
    st.RClear? && st.t in s.pc ==> s.pc[st.t] != Out
  }

  /** A thread that will look at available is still there after a step of t. */
  lemma StillLooked(s: State, s': State, t: nat)
    requires Looked(s)
    requires forall x :: x in s.pc && x != t && WillLook(s.pc[x]) ==> x in s'.pc && s'.pc[x] == s.pc[x]
    requires t in s'.pc && (t in s.pc && WillLook(s.pc[t]) ==> WillLook(s'.pc[t]))
    ensures Looked(s')
  {
    var x :| x in s.pc && WillLook(s.pc[x]);
    assert WillLook(s'.pc[x]);
  }

  /** The locks are the same for every thread but t. */
  ghost predicate SameFor(s: State, s': State, t: nat)
  {
    forall x :: x in s.pc && x != t ==>
      && (s'.lk == Some(x) <==> s.lk == Some(x)) && (s'.cvl == Some(x) <==> s.cvl == Some(x))
      && (s'.holder == Some(x) <==> s.holder == Some(x))
  }

  lemma MoveThreads(s: State, s': State, t: nat)
    requires Threads(s) && t in s.pc && t in s'.pc && s'.pc == s.pc[t := s'.pc[t]]
    requires ThreadOk(s', t) && SameFor(s, s', t)
    ensures Threads(s')
  {
    hide Holds, InLk, InCv;
    forall x | x in s'.pc ensures ThreadOk(s', x) {
      assert ThreadOk(s, x);
    }
  }

  /** Thread t moves, is on no channel before or after, and the fields follow it. */
  lemma MoveInv(s: State, s': State, t: nat)
    requires Inv(s) && t in s.pc && t in s'.pc && s'.pc == s.pc[t := s'.pc[t]]
    requires s'.lkq == s.lkq && s'.cvq == s.cvq
    requires !s.pc[t].AAsleep? && s.pc[t] != CAsleep && !s'.pc[t].AAsleep? && s'.pc[t] != CAsleep
    requires ThreadOk(s', t) && SameFor(s, s', t)
    requires s'.available <==> s'.holder == None
    requires s'.available ==> s.available || WillLook(s'.pc[t])
    requires WillLook(s.pc[t]) ==> WillLook(s'.pc[t]) || !s'.available || s'.lkq == []
    ensures Inv(s')
  {
    hide Threads, ThreadOk;
    MoveThreads(s, s', t);
    assert Queues(s');
    hide Queues;
    if s'.available && s'.lkq != [] {
      if WillLook(s'.pc[t]) {
        assert Looked(s');
      } else {
        StillLooked(s, s', t);
      }
    }
  }

  lemma AppendQueue(q: seq<nat>, t: nat)
    requires NoDup(q) && t !in q
    ensures NoDup(q + [t]) && forall x :: x in q + [t] <==> x in q || x == t
  {
  }

  lemma SplitQueue(q: seq<nat>, n: nat)
    requires n <= |q| && NoDup(q)
    ensures forall x :: x in q <==> x in q[..n] || x in q[n..]
    ensures forall x :: x in q[..n] ==> x !in q[n..]
    ensures NoDup(q[n..])
  {
    assert q == q[..n] + q[n..];
  }

  lemma ASleepInv(s: State, t: nat)
    requires Inv(s) && Enabled(s, ASleep(t))
    ensures Inv(Apply(s, ASleep(t)))
  {
    var s' := Apply(s, ASleep(t));
    assert ThreadOk(s, t);
    MoveThreads(s, s', t);
    hide Threads, ThreadOk, NoDup;
    AppendQueue(s.lkq, t);
  }

  lemma CQueueInv(s: State, t: nat)
    requires Inv(s) && Enabled(s, CQueue(t))
    ensures Inv(Apply(s, CQueue(t)))
  {
    var s' := Apply(s, CQueue(t));
    assert ThreadOk(s, t);
    CQueueLooked(s, t);
    MoveThreads(s, s', t);
    hide Threads, ThreadOk, NoDup, Looked;
    AppendQueue(s.cvq, t);
  }

  lemma CQueueLooked(s: State, t: nat)
    requires Enabled(s, CQueue(t))
    ensures Looked(s) ==> Looked(Apply(s, CQueue(t)))
  {
    if Looked(s) {
      StillLooked(s, Apply(s, CQueue(t)), t);
    }
  }

  lemma LkHead(s: State)
    requires Queues(s) && s.lkq != []
    ensures s.lkq[0] in s.pc && s.pc[s.lkq[0]].AAsleep?
  {
    assert s.lkq[0] in s.lkq;
  }

  /** wchan_wakeone on the lock's channel. */
  lemma WakeLockInv(s: State)
    requires Inv(s) && s.lkq != []
    ensures var s' := WakeLock(s); Inv(s') && s'.lkq[0..] == s.lkq[1..] && Looked(s')
    ensures var s' := WakeLock(s); s' == s.(pc := s'.pc, lkq := s'.lkq)
    ensures var s', w := WakeLock(s), s.lkq[0];
            w in s.pc && s.pc[w].AAsleep? && s'.pc == s.pc[w := AWoken(s.pc[w].cv)]
  {
    var s', w := WakeLock(s), s.lkq[0];
    LkHead(s);
    assert ThreadOk(s, w);
    MoveThreads(s, s', w);
    hide Threads, ThreadOk;
    SplitQueue(s.lkq, 1);
    assert s.lkq[..1] == [w];
    assert WillLook(s'.pc[w]);
  }

  lemma RWakeInv(s: State, t: nat)
    requires Inv(s) && Enabled(s, RWakeOne(t)) && s.lkq != []
    ensures Inv(Apply(s, RWakeOne(t)))
  {
    hide Inv;
    var s1, w := WakeLock(s), s.lkq[0];
    InvFacts(s, t);
    WakeLockInv(s);
    var s' := Apply(s, RWakeOne(t));
    assert s' == Set(s1, t, RUnlock(s.pc[t].cv)) && s1.pc[t] == s.pc[t] && t != w;
    hide Apply, Enabled, WakeLock;
    RWakeMoved(s1, s', t, w);
  }

  lemma RWakeMoved(s1: State, s': State, t: nat, w: nat)
    requires Inv(s1) && t in s1.pc && s1.pc[t].RWake? && s' == Set(s1, t, RUnlock(s1.pc[t].cv))
    requires w in s1.pc && s1.pc[w].AWoken? && t != w
    ensures Inv(s')
  {
    assert ThreadOk(s1, t);
    assert WillLook(s'.pc[w]);
    MoveThreads(s1, s', t);
    hide Threads, ThreadOk;
    SameQueues(s1, s', t);
  }

  lemma SameQueues(s: State, s': State, t: nat)
    requires Queues(s) && s'.lkq == s.lkq && s'.cvq == s.cvq && t in s.pc && t in s'.pc && s'.pc == s.pc[t := s'.pc[t]]
    requires !s.pc[t].AAsleep? && s.pc[t] != CAsleep && !s'.pc[t].AAsleep? && s'.pc[t] != CAsleep
    ensures Queues(s')
  {
  }

  /** wchan_wakeone or wchan_wakeall on the condition variable's channel. */
  lemma WakeCvInv(s: State, all: bool)
    requires Inv(s) && s.cvq != []
    ensures Inv(WakeCv(s, all))
    ensures forall t :: t in s.pc && s.pc[t] != CAsleep ==> t in WakeCv(s, all).pc && WakeCv(s, all).pc[t] == s.pc[t]
  {
    var s', n := WakeCv(s, all), if all then |s.cvq| else 1;
    SplitQueue(s.cvq, n);
    hide NoDup;
    WakeCvThreads(s, all);
    hide Threads;
    hide Looked;
    if Looked(s) {
      var t :| t in s.pc && WillLook(s.pc[t]);
      StillLooked(s, s', t);
    }
  }

  lemma WakeCvThreads(s: State, all: bool)
    requires Threads(s) && Queues(s) && s.cvq != []
    ensures Threads(WakeCv(s, all))
  {
    var s', n := WakeCv(s, all), if all then |s.cvq| else 1;
    assert forall x :: x in s.cvq[..n] ==> x in s.cvq;
    forall x | x in s'.pc ensures ThreadOk(s', x) {
      assert ThreadOk(s, x);
    }
  }

  lemma SWakeInv(s: State, t: nat)
    requires Inv(s) && Enabled(s, SWakeUp(t)) && s.cvq != []
    ensures Inv(Apply(s, SWakeUp(t)))
  {
    hide Inv;
    var s1, s' := WakeCv(s, s.pc[t].all), Apply(s, SWakeUp(t));
    InvFacts(s, t);
    WakeCvInv(s, s.pc[t].all);
    assert s1 == s.(pc := s1.pc, cvq := s1.cvq) && t in s1.pc && s1.pc[t] == s.pc[t];
    assert s' == Set(s1, t, SUnlock);
    hide WakeCv, Apply, Enabled;
    InvFacts(s1, t);
    MoveInv(s1, s', t);
  }

  lemma InvFacts(s: State, t: nat)
    requires Inv(s) && t in s.pc
    ensures ThreadOk(s, t) && (s.available <==> s.holder == None)
  {
  }

  lemma StepInv(s: State, st: Step)
    requires Inv(s) && Enabled(s, st) && Polite(s, st)
    ensures Inv(Apply(s, st))
  {
    if st.ASleep? {
      ASleepInv(s, st.t);
    } else if st.CQueue? {
      CQueueInv(s, st.t);
    } else if st.RWakeOne? && s.lkq != [] {
      RWakeInv(s, st.t);
    } else if st.SWakeUp? && s.cvq != [] {
      SWakeInv(s, st.t);
    } else {
      PlainStepInv(s, st);
    }
  }

  /** A step that wakes nobody and puts nobody to sleep. */
  predicate Plain(s: State, st: Step)
  {
    && Enabled(s, st) && Polite(s, st) && !st.ASleep? && !st.CQueue?
    && !(st.RWakeOne? && s.lkq != []) && !(st.SWakeUp? && s.cvq != [])
  }

  predicate Acquiring(st: Step)
  {
    st.ACall? || st.AAcquire? || st.ASleep? || st.ATake? || st.AOwn? || st.AUnlock? || st.AFinish?
  }

  predicate Releasing(st: Step)
  {
    st.RClear? || st.RAcquire? || st.RSet? || st.RWakeOne? || st.RRelease?
  }

  lemma PlainAcquire(s: State, st: Step)
    requires Plain(s, st) && Acquiring(st) && ThreadOk(s, st.t)
    ensures st.t in Apply(s, st).pc && ThreadOk(Apply(s, st), st.t)
  {
  }

  lemma PlainRelease(s: State, st: Step)
    requires Plain(s, st) && Releasing(st) && ThreadOk(s, st.t)
    ensures st.t in Apply(s, st).pc && ThreadOk(Apply(s, st), st.t)
  {
  }

  lemma PlainCv(s: State, st: Step)
    requires Plain(s, st) && !Acquiring(st) && !Releasing(st) && ThreadOk(s, st.t)
    ensures st.t in Apply(s, st).pc && ThreadOk(Apply(s, st), st.t)
  {
  }

  lemma PlainThread(s: State, st: Step)
    requires Plain(s, st) && ThreadOk(s, st.t)
    ensures st.t in Apply(s, st).pc && ThreadOk(Apply(s, st), st.t)
  {
    hide Plain, ThreadOk;
    if Acquiring(st) {
      PlainAcquire(s, st);
    } else if Releasing(st) {
      PlainRelease(s, st);
    } else {
      PlainCv(s, st);
    }
  }

  lemma PlainSame(s: State, st: Step)
    requires Plain(s, st) && ThreadOk(s, st.t)
    requires st.ATake? ==> s.holder == None
    ensures SameFor(s, Apply(s, st), st.t)
  {
  }

  lemma PlainRest(s: State, st: Step)
    requires Plain(s, st) && ThreadOk(s, st.t) && (s.available <==> s.holder == None)
    ensures var s', t := Apply(s, st), st.t;
            && t in s'.pc && s'.pc == s.pc[t := s'.pc[t]] && s'.lkq == s.lkq && s'.cvq == s.cvq
            && !s.pc[t].AAsleep? && s.pc[t] != CAsleep && !s'.pc[t].AAsleep? && s'.pc[t] != CAsleep
            && (s'.available <==> s'.holder == None)
            && (s'.available ==> s.available || WillLook(s'.pc[t]))
            && (WillLook(s.pc[t]) ==> WillLook(s'.pc[t]) || !s'.available || s'.lkq == [])
  {
  }

  lemma PlainStepInv(s: State, st: Step)
    requires Inv(s) && Plain(s, st)
    ensures Inv(Apply(s, st))
  {
    assert ThreadOk(s, st.t) && (s.available <==> s.holder == None);
    PlainThread(s, st);
    PlainSame(s, st);
    PlainRest(s, st);
    hide Inv, ThreadOk, SameFor, Apply;
    MoveInv(s, Apply(s, st), st.t);
  }

  // ---- Runs ----

  ghost predicate IsRun(states: seq<State>, steps: seq<Step>)
  {
    && |states| == |steps| + 1
    && Created(states[0])
    && forall i :: 0 <= i < |steps| ==> Enabled(states[i], steps[i]) && states[i + 1] == Apply(states[i], steps[i])
  }

  /** Every lock_release is by a thread that has acquired the lock. */
  ghost predicate PoliteRun(states: seq<State>, steps: seq<Step>)
  {
    |states| > |steps| && forall i :: 0 <= i < |steps| ==> Polite(states[i], steps[i])
  }

  lemma {:induction false} RunInv(states: seq<State>, steps: seq<Step>, i: nat)
    requires IsRun(states, steps) && i < |states| && PoliteRun(states, steps)
    ensures Inv(states[i])
  {
    if i > 0 {
      RunInv(states, steps, i - 1);
      hide Inv;
      StepInv(states[i - 1], steps[i - 1]);
    }
  }

  /** At most one thread is between the return of lock_acquire and lock_release, whatever was in
      owner at first. */
  lemma MutualExclusion(states: seq<State>, steps: seq<Step>, i: nat, t: nat, u: nat)
    requires IsRun(states, steps) && i < |states| && PoliteRun(states, steps)
    requires t in states[i].pc && u in states[i].pc && InSection(states[i].pc[t]) && InSection(states[i].pc[u])
    ensures t == u
  {
    RunInv(states, steps, i);
    assert ThreadOk(states[i], t) && ThreadOk(states[i], u);
  }

  // ---- The owner field ----

  /** If owner was right it stays right, and then a thread that has not acquired the lock cannot
      get past the assertion in lock_release. */
  lemma OwnerStep(s: State, st: Step)
    requires Inv(s) && Owners(s) && Enabled(s, st)
    ensures Polite(s, st) && Owners(Apply(s, st))
  {
    var s', t := Apply(s, st), st.t;
    assert ThreadOk(s, t);
    if st.RWakeOne? {
      OwnerWakeLock(s, t);
    } else if st.SWakeUp? {
      OwnerWakeCv(s, t);
    } else {
      assert t in s'.pc && s'.pc == s.pc[t := s'.pc[t]];
      OwnerMoved(s, st);
      forall x | x in s'.pc ensures Owns(s'.pc[x]) <==> s'.owner == Some(x) {
        if x != t {
          OwnerOther(s, st, x);
        }
      }
    }
  }

  /** What the stepping thread does to owner agrees with where it goes. */
  lemma OwnerMoved(s: State, st: Step)
    requires Inv(s) && Owners(s) && Enabled(s, st) && !st.RWakeOne? && !st.SWakeUp?
    ensures st.t in Apply(s, st).pc && (Owns(Apply(s, st).pc[st.t]) <==> Apply(s, st).owner == Some(st.t))
  {
    assert Owns(s.pc[st.t]) <==> s.owner == Some(st.t);
    hide Inv, Owners;
    if Acquiring(st) {
      OwnerAcquiring(s, st);
    } else {
      OwnerElse(s, st);
    }
  }

  lemma OwnerAcquiring(s: State, st: Step)
    requires Enabled(s, st) && Acquiring(st) && (Owns(s.pc[st.t]) <==> s.owner == Some(st.t))
    ensures st.t in Apply(s, st).pc && (Owns(Apply(s, st).pc[st.t]) <==> Apply(s, st).owner == Some(st.t))
  {
  }

  lemma OwnerElse(s: State, st: Step)
    requires Enabled(s, st) && !Acquiring(st) && !st.RWakeOne? && !st.SWakeUp?
    requires Owns(s.pc[st.t]) <==> s.owner == Some(st.t)
    ensures st.t in Apply(s, st).pc && (Owns(Apply(s, st).pc[st.t]) <==> Apply(s, st).owner == Some(st.t))
  {
  }

  lemma OwnerOther(s: State, st: Step, x: nat)
    requires Inv(s) && Owners(s) && Enabled(s, st) && !st.RWakeOne? && !st.SWakeUp? && x in s.pc && x != st.t
    ensures Owns(s.pc[x]) <==> Apply(s, st).owner == Some(x)
  {
    assert ThreadOk(s, st.t) && ThreadOk(s, x);
    assert Owns(s.pc[st.t]) <==> s.owner == Some(st.t);
    assert Owns(s.pc[x]) ==> Holds(s.pc[x]);
    hide Inv, Owners, InLk, InCv;
  }

  lemma OwnerWakeLock(s: State, t: nat)
    requires Inv(s) && Owners(s) && Enabled(s, RWakeOne(t))
    ensures Owners(Apply(s, RWakeOne(t)))
  {
    hide Inv;
  }

  lemma OwnerWakeCv(s: State, t: nat)
    requires Inv(s) && Owners(s) && Enabled(s, SWakeUp(t))
    ensures Owners(Apply(s, SWakeUp(t)))
  {
    var n := if s.pc[t].all then |s.cvq| else 1;
    if s.cvq != [] {
      assert forall x :: x in s.cvq[..n] ==> x in s.cvq;
    }
    hide Threads, NoDup, Looked;
  }

  lemma {:induction false} GoodRun(states: seq<State>, steps: seq<Step>, i: nat)
    requires IsRun(states, steps) && i < |states| && GoodOwner(states[0])
    ensures Inv(states[i]) && Owners(states[i])
  {
    if i > 0 {
      GoodRun(states, steps, i - 1);
      hide Inv, Owners;
      OwnerStep(states[i - 1], steps[i - 1]);
      StepInv(states[i - 1], steps[i - 1]);
    }
  }

  /** With a good leftover owner every run is polite: the assertion sees to it. */
  lemma GoodIsPolite(states: seq<State>, steps: seq<Step>)
    requires IsRun(states, steps) && GoodOwner(states[0])
    ensures PoliteRun(states, steps)
  {
    hide Inv, Owners, Polite, GoodOwner, Created;
    forall i | 0 <= i < |steps| ensures Polite(states[i], steps[i]) {
      GoodRun(states, steps, i);
      OwnerStep(states[i], steps[i]);
    }
  }

  /** lock_do_i_hold is right for a thread that is in the section or outside lock_acquire. */
  predicate Exact(s: State, t: nat)
  {
    t in s.pc && !s.pc[t].AOwned? && !s.pc[t].AUnlocked? ==> (DoIHold(s, t) <==> InSection(s.pc[t]))
  }

  ghost predicate AlwaysExact(states: seq<State>)
  {
    forall i, t {:trigger Exact(states[i], t)} :: 0 <= i < |states| && 0 <= t ==> Exact(states[i], t)
  }

  /** lock_do_i_hold is exact in every state of every run if and only if the value that
      lock_create leaves in owner is not a thread. */
  lemma DoIHoldExact(s: State)
    requires Created(s)
    ensures GoodOwner(s) <==>
      forall states, steps :: IsRun(states, steps) && states[0] == s ==> AlwaysExact(states)
  {
    if GoodOwner(s) {
      forall states: seq<State>, steps: seq<Step> | IsRun(states, steps) && states[0] == s ensures AlwaysExact(states) {
        forall i, t: nat | 0 <= i < |states| ensures Exact(states[i], t) {
          GoodRun(states, steps, i);
        }
      }
    } else {
      assert IsRun([s], []);
      assert !Exact([s][0], s.owner.value);
    }
  }

  // ---- Condition variables ----

  /** In cv_wait, past the point where the lock is free again for others. */
  predicate GaveUp(pc: Pc)
  {
    (pc.RWake? && pc.cv) || (pc.RUnlock? && pc.cv) || pc == CSleep || pc == CAsleep || Back(pc)
  }

  /** In cv_wait, already taken off the channel. */
  predicate Back(pc: Pc)
  {
    pc == CWoken || pc == CRelock
    || ((pc.AWant? || pc.ATest? || pc.AAsleep? || pc.AWoken? || pc.ATaken? || pc.AOwned? || pc.AUnlocked?) && pc.cv)
  }

  /** A signal is never lost: when a thread is about to signal, every thread that has given up
      the lock in cv_wait is on the channel or has been woken already. */
  lemma SignalFindsWaiters(states: seq<State>, steps: seq<Step>, i: nat, u: nat, w: nat)
    requires IsRun(states, steps) && i < |states| && PoliteRun(states, steps)
    requires u in states[i].pc && states[i].pc[u].SLocked? && w in states[i].pc && GaveUp(states[i].pc[w])
    ensures w in states[i].cvq || Back(states[i].pc[w])
  {
    RunInv(states, steps, i);
    assert ThreadOk(states[i], u) && ThreadOk(states[i], w);
  }

  /** The signal itself: the first waiter, or every waiter, is woken and no other thread is. */
  lemma SignalWakes(states: seq<State>, steps: seq<Step>, i: nat, w: nat)
    requires IsRun(states, steps) && i < |steps| && PoliteRun(states, steps) && steps[i].SWakeUp?
    requires w in states[i].pc && w != steps[i].t
    ensures var s, s', all := states[i], states[i + 1], states[i].pc[steps[i].t].all;
            && (w in s.cvq && (all || w == s.cvq[0]) ==> s'.pc[w] == CWoken && w !in s'.cvq)
            && (!(w in s.cvq && (all || w == s.cvq[0])) ==> w in s'.pc && s'.pc[w] == s.pc[w])
  {
    RunInv(states, steps, i);
    var s := states[i];
    var n := if s.pc[steps[i].t].all then |s.cvq| else 1;
    if s.cvq != [] {
      SplitQueue(s.cvq, n);
      assert s.cvq[..1] == [s.cvq[0]];
      assert s.cvq[..|s.cvq|] == s.cvq;
    }
  }

  /** No wakeup on the lock is lost: if a thread sleeps while the lock is available, another is
      going to test available or is about to wake one. */
  lemma LockWakeupNotLost(states: seq<State>, steps: seq<Step>, i: nat, t: nat)
    requires IsRun(states, steps) && i < |states| && PoliteRun(states, steps)
    requires t in states[i].pc && states[i].pc[t].AAsleep? && states[i].available
    ensures exists x :: x in states[i].pc && WillLook(states[i].pc[x])
  {
    RunInv(states, steps, i);
    assert t in states[i].lkq;
  }

  // ---- A leftover owner ----

  ghost predicate Reach(s0: State, s: State)
  {
    exists states, steps :: IsRun(states, steps) && states[0] == s0 && states[|states| - 1] == s
  }

  lemma ReachSelf(s0: State)
    requires Created(s0)
    ensures Reach(s0, s0)
  {
    assert IsRun([s0], []) && [s0][0] == s0 && [s0][|[s0]| - 1] == s0;
  }

  lemma ReachStep(s0: State, s: State, st: Step)
    requires Reach(s0, s) && Enabled(s, st)
    ensures Reach(s0, Apply(s, st))
  {
    var states, steps :| IsRun(states, steps) && states[0] == s0 && states[|states| - 1] == s;
    var states', steps' := states + [Apply(s, st)], steps + [st];
    hide Apply, Enabled, Created;
    forall i | 0 <= i < |steps'|
      ensures Enabled(states'[i], steps'[i]) && states'[i + 1] == Apply(states'[i], steps'[i])
    {
      if i < |steps| {
        assert states'[i] == states[i] && steps'[i] == steps[i];
      } else {
        assert states'[i] == s;
      }
    }
    assert IsRun(states', steps') && states'[|states'| - 1] == Apply(s, st);
  }

  /** A thread in neither operation acquires a lock that nobody holds or waits for. */
  lemma AcquireRun(s0: State, s: State, t: nat) returns (s': State)
    requires Reach(s0, s) && t in s.pc && s.pc[t] == Out && s.available && s.lk == None
    ensures Reach(s0, s') && s' == s.(available := false, holder := Some(t), owner := Some(t), pc := s.pc[t := Held])
  {
    hide Reach;
    s' := TakeRun(s0, s, t);
    s' := OwnRun(s0, s', t);
    assert s.pc[t := ATaken(false)][t := Held] == s.pc[t := Held];
  }

  lemma TakeRun(s0: State, s: State, t: nat) returns (s': State)
    requires Reach(s0, s) && t in s.pc && s.pc[t] == Out && s.available && s.lk == None
    ensures Reach(s0, s')
    ensures s' == s.(available := false, holder := Some(t), lk := Some(t), pc := s.pc[t := ATaken(false)])
  {
    hide Reach;
    var s1 := Apply(s, ACall(t));
    ReachStep(s0, s, ACall(t));
    var s2 := Apply(s1, AAcquire(t));
    ReachStep(s0, s1, AAcquire(t));
    s' := Apply(s2, ATake(t));
    ReachStep(s0, s2, ATake(t));
    assert s'.pc == s.pc[t := ATaken(false)];
  }

  lemma OwnRun(s0: State, s: State, t: nat) returns (s': State)
    requires Reach(s0, s) && t in s.pc && s.pc[t] == ATaken(false) && s.lk == Some(t)
    ensures Reach(s0, s') && s' == s.(owner := Some(t), lk := None, pc := s.pc[t := Held])
  {
    hide Reach;
    var s1 := Apply(s, AOwn(t));
    ReachStep(s0, s, AOwn(t));
    var s2 := Apply(s1, AUnlock(t));
    ReachStep(s0, s1, AUnlock(t));
    s' := Apply(s2, AFinish(t));
    ReachStep(s0, s2, AFinish(t));
    assert s'.pc == s.pc[t := Held];
  }

  /** The rest of lock_release once owner is cleared, with nobody waiting. */
  lemma ReleaseRun(s0: State, s: State, t: nat) returns (s': State)
    requires Reach(s0, s) && t in s.pc && s.pc[t] == RWant(false) && s.lk == None && s.lkq == []
    ensures Reach(s0, s') && s' == s.(available := true, holder := None, pc := s.pc[t := Out])
  {
    hide Reach;
    var s1 := Apply(s, RAcquire(t));
    ReachStep(s0, s, RAcquire(t));
    var s2 := Apply(s1, RSet(t));
    ReachStep(s0, s1, RSet(t));
    var s3 := Apply(s2, RWakeOne(t));
    ReachStep(s0, s2, RWakeOne(t));
    s' := Apply(s3, RRelease(t));
    ReachStep(s0, s3, RRelease(t));
    assert s'.pc == s.pc[t := Out];
  }

  /** If owner happens to name thread g, then g can call lock_release without having acquired the
      lock, get past its assertion while u is taking the lock, and both end up holding it. */
  lemma BothHold(s: State, g: nat, u: nat) returns (s': State)
    requires Created(s) && s.owner == Some(g) && g in s.pc && u in s.pc && g != u
    ensures Reach(s, s') && g in s'.pc && u in s'.pc && s'.pc[g] == Held && s'.pc[u] == Held
  {
    ReachSelf(s);
    hide Reach;
    s' := TakeRun(s, s, u);
    ReachStep(s, s', RClear(g));
    s' := Apply(s', RClear(g));
    s' := OwnRun(s, s', u);
    s' := ReleaseRun(s, s', g);
    s' := AcquireRun(s, s', g);
  }

  ghost predicate Exclusive(s: State)
  {
    forall t, u :: t in s.pc && u in s.pc && InSection(s.pc[t]) && InSection(s.pc[u]) ==> t == u
  }

  /** The lock excludes in every state that can be reached if and only if the value left in
      owner is not a thread, or there is only one thread. */
  lemma ExclusionExact(s: State)
    requires Created(s)
    ensures (GoodOwner(s) || forall t, u :: t in s.pc && u in s.pc ==> t == u)
       <==> (forall s' :: Reach(s, s') ==> Exclusive(s'))
  {
    if GoodOwner(s) {
      forall s' | Reach(s, s') ensures Exclusive(s') {
        var states, steps :| IsRun(states, steps) && states[0] == s && states[|states| - 1] == s';
        GoodIsPolite(states, steps);
        forall t, u | t in s'.pc && u in s'.pc && InSection(s'.pc[t]) && InSection(s'.pc[u]) ensures t == u {
          MutualExclusion(states, steps, |states| - 1, t, u);
        }
      }
    } else if forall t, u :: t in s.pc && u in s.pc ==> t == u {
      forall s' | Reach(s, s') ensures Exclusive(s') {
        var states, steps :| IsRun(states, steps) && states[0] == s && states[|states| - 1] == s';
        SameThreads(states, steps, |states| - 1);
      }
    } else {
      var g := s.owner.value;
      var u :| u in s.pc && u != g;
      var s' := BothHold(s, g, u);
      assert !Exclusive(s');
    }
  }

  lemma {:induction false} SameThreads(states: seq<State>, steps: seq<Step>, i: nat)
    requires IsRun(states, steps) && i < |states|
    ensures states[i].pc.Keys == states[0].pc.Keys
  {
    if i > 0 {
      SameThreads(states, steps, i - 1);
      StepKeys(states[i - 1], steps[i - 1]);
    }
  }

  lemma StepKeys(s: State, st: Step)
    requires Enabled(s, st)
    ensures Apply(s, st).pc.Keys == s.pc.Keys
  {
  }
}
