/** The calls of the lock and condition variable interface in every run: the accesses that a call
    consists of, in order, where its thread is when it returns, and whom a signal wakes. */
module SleepLockCalls {
  import opened Common
  import opened SleepLock

  // ---- The steps of a call ----

  /** In none of the operations. */
  predicate AtRest(pc: Pc)
  {
    pc == Out || pc == Held
  }

  /** n times to sleep on lk_wchan and back. */
  function Rounds(t: nat, n: nat): (r: seq<Step>)
  {
    if n == 0 then [] else Rounds(t, n - 1) + [ASleep(t), AAcquire(t)]
  }

  /** lock_release, called as such or by cv_wait, up to the clearing of owner. */
  function ToRelease(t: nat, cv: bool): (r: seq<Step>)
  {
    if cv then [CCall(t), CAcquire(t), RClear(t)] else [RClear(t)]
  }

  /** lock_acquire, called as such or by cv_wait, up to its first access. */
  function ToAcquire(t: nat, cv: bool): (r: seq<Step>)
  {
    if cv then
      [CCall(t), CAcquire(t), RClear(t), RAcquire(t), RSet(t), RWakeOne(t), RRelease(t), CQueue(t), CReacquire(t),
       CRelease(t)]
    else [ACall(t)]
  }

  /** The own steps with which a thread comes to a point, from the beginning of the call; n is how
      often it has slept on lk_wchan, and all whether it is in cv_broadcast. */
  function Path(pc: Pc, t: nat, n: nat, all: bool): (r: seq<Step>)
  {
    match pc
    case Out => []
    case Held => []
    case AWant(cv) => ToAcquire(t, cv)
    case ATest(cv) => ToAcquire(t, cv) + [AAcquire(t)] + Rounds(t, n)
    case AAsleep(cv) => ToAcquire(t, cv) + [AAcquire(t)] + Rounds(t, n) + [ASleep(t)]
    case AWoken(cv) => ToAcquire(t, cv) + [AAcquire(t)] + Rounds(t, n) + [ASleep(t)]
    case ATaken(cv) => ToAcquire(t, cv) + [AAcquire(t)] + Rounds(t, n) + [ATake(t)]
    case AOwned(cv) => ToAcquire(t, cv) + [AAcquire(t)] + Rounds(t, n) + [ATake(t), AOwn(t)]
    case AUnlocked(cv) => ToAcquire(t, cv) + [AAcquire(t)] + Rounds(t, n) + [ATake(t), AOwn(t), AUnlock(t)]
    case RWant(cv) => ToRelease(t, cv)
    case RLocked(cv) => ToRelease(t, cv) + [RAcquire(t)]
    case RWake(cv) => ToRelease(t, cv) + [RAcquire(t), RSet(t)]
    case RUnlock(cv) => ToRelease(t, cv) + [RAcquire(t), RSet(t), RWakeOne(t)]
    case CWant => [CCall(t)]
    case CLocked => [CCall(t), CAcquire(t)]
    case CSleep => ToRelease(t, true) + [RAcquire(t), RSet(t), RWakeOne(t), RRelease(t)]
    case CAsleep => ToRelease(t, true) + [RAcquire(t), RSet(t), RWakeOne(t), RRelease(t), CQueue(t)]
    case CWoken => ToRelease(t, true) + [RAcquire(t), RSet(t), RWakeOne(t), RRelease(t), CQueue(t)]
    case CRelock => ToRelease(t, true) + [RAcquire(t), RSet(t), RWakeOne(t), RRelease(t), CQueue(t), CReacquire(t)]
    case SWant(b) => [SCall(t, b)]
    case SLocked(b) => [SCall(t, b), SAcquire(t)]
    case SUnlock => [SCall(t, all), SAcquire(t), SWakeUp(t)]
  }

  /** The steps of thread t among steps[a..b]. */
  function Mine(steps: seq<Step>, t: nat, a: nat, b: nat): (r: seq<Step>)
    requires a <= b <= |steps|
    decreases b
  {
    if a == b then [] else Mine(steps, t, a, b - 1) + (if steps[b - 1].t == t then [steps[b - 1]] else [])
  }

  /** Another thread's step moves a thread only if it sleeps, and then only by waking it. */
  lemma OthersMove(s: State, st: Step, x: nat)
    requires Inv(s) && Enabled(s, st) && st.t != x && x in s.pc
    ensures x in Apply(s, st).pc
    ensures var pc, pc' := s.pc[x], Apply(s, st).pc[x];
            || pc' == pc || (pc.AAsleep? && pc' == AWoken(pc.cv)) || (pc == CAsleep && pc' == CWoken)
  {
    if st.SWakeUp? && s.cvq != [] {
      var n := if s.pc[st.t].all then |s.cvq| else 1;
      assert forall y :: y in s.cvq[..n] ==> y in s.cvq;
    }
    hide Threads, Looked, NoDup;
  }

  lemma OthersPath(s: State, st: Step, x: nat, n: nat, all: bool)
    requires Inv(s) && Enabled(s, st) && st.t != x && x in s.pc
    ensures x in Apply(s, st).pc && AtRest(Apply(s, st).pc[x]) == AtRest(s.pc[x])
    ensures Path(Apply(s, st).pc[x], x, n, all) == Path(s.pc[x], x, n, all)
  {
    OthersMove(s, st, x);
    SamePath(s.pc[x], Apply(s, st).pc[x], x, n, all);
    hide *;
  }

  lemma SamePath(pc: Pc, pc': Pc, x: nat, n: nat, all: bool)
    requires pc' == pc || (pc.AAsleep? && pc' == AWoken(pc.cv)) || (pc == CAsleep && pc' == CWoken)
    ensures AtRest(pc') == AtRest(pc) && Path(pc', x, n, all) == Path(pc, x, n, all)
  {
    hide Rounds, ToAcquire, ToRelease;
  }

  /** Where a step of its own leads a thread. */
  predicate Leads(pc: Pc, st: Step, pc': Pc)
  {
    match st
    case ACall(_) => pc == Out && pc' == AWant(false)
    case AAcquire(_) => (pc.AWant? || pc.AWoken?) && pc' == ATest(pc.cv)
    case ASleep(_) => pc.ATest? && pc' == AAsleep(pc.cv)
    case ATake(_) => pc.ATest? && pc' == ATaken(pc.cv)
    case AOwn(_) => pc.ATaken? && pc' == AOwned(pc.cv)
    case AUnlock(_) => pc.AOwned? && pc' == AUnlocked(pc.cv)
    case AFinish(_) => pc.AUnlocked? && pc' == Held
    case RClear(_) => (AtRest(pc) || pc == CLocked) && pc' == RWant(pc == CLocked)
    case RAcquire(_) => pc.RWant? && pc' == RLocked(pc.cv)
    case RSet(_) => pc.RLocked? && pc' == RWake(pc.cv)
    case RWakeOne(_) => pc.RWake? && pc' == RUnlock(pc.cv)
    case RRelease(_) => pc.RUnlock? && pc' == if pc.cv then CSleep else Out
    case CCall(_) => pc == Held && pc' == CWant
    case CAcquire(_) => pc == CWant && pc' == CLocked
    case CQueue(_) => pc == CSleep && pc' == CAsleep
    case CReacquire(_) => pc == CWoken && pc' == CRelock
    case CRelease(_) => pc == CRelock && pc' == AWant(true)
    case SCall(_, all) => pc == Held && pc' == SWant(all)
    case SAcquire(_) => pc.SWant? && pc' == SLocked(pc.all)
    case SWakeUp(_) => pc.SLocked? && pc' == SUnlock
    case SRelease(_) => pc == SUnlock && pc' == Held
  }

  lemma OwnLeads(s: State, st: Step)
    requires Enabled(s, st)
    ensures st.t in Apply(s, st).pc && Leads(s.pc[st.t], st, Apply(s, st).pc[st.t])
  {
    hide WakeLock, WakeCv, Leads;
    if Acquiring(st) {
      AcquireLeads(s, st);
    } else if Releasing(st) {
      ReleaseLeads(s, st);
    } else {
      CvLeads(s, st);
    }
  }

  lemma AcquireLeads(s: State, st: Step)
    requires Enabled(s, st) && Acquiring(st)
    ensures st.t in Apply(s, st).pc && Leads(s.pc[st.t], st, Apply(s, st).pc[st.t])
  {
  }

  lemma ReleaseLeads(s: State, st: Step)
    requires Enabled(s, st) && Releasing(st)
    ensures st.t in Apply(s, st).pc && Leads(s.pc[st.t], st, Apply(s, st).pc[st.t])
  {
    hide WakeLock;
  }

  lemma CvLeads(s: State, st: Step)
    requires Enabled(s, st) && !Acquiring(st) && !Releasing(st)
    ensures st.t in Apply(s, st).pc && Leads(s.pc[st.t], st, Apply(s, st).pc[st.t])
  {
    hide WakeCv;
  }

  lemma RoundAgain(t: nat, n: nat, cv: bool)
    ensures ToAcquire(t, cv) + [AAcquire(t)] + Rounds(t, n) + [ASleep(t)] + [AAcquire(t)]
         == ToAcquire(t, cv) + [AAcquire(t)] + Rounds(t, n + 1)
    ensures Rounds(t, 0) == []
  {
    hide ToAcquire;
  }

  /** A step inside a call goes on along the path, or the call returns. */
  lemma PathStep(pc: Pc, st: Step, pc': Pc, n: nat, all: bool) returns (n': nat, all': bool)
    requires Leads(pc, st, pc') && !AtRest(pc)
    ensures !AtRest(pc') ==> Path(pc', st.t, n', all') == Path(pc, st.t, n, all) + [st]
  {
    hide Leads, Path;
    n', all' := n, all;
    if Acquiring(st) {
      n' := AcquirePath(pc, st, pc', n, all);
    } else if Releasing(st) {
      ReleasePath(pc, st, pc', n, all);
    } else {
      all' := CvPath(pc, st, pc', n, all);
    }
  }

  lemma AcquirePath(pc: Pc, st: Step, pc': Pc, n: nat, all: bool) returns (n': nat)
    requires Leads(pc, st, pc') && Acquiring(st) && !AtRest(pc)
    ensures !AtRest(pc') ==> Path(pc', st.t, n', all) == Path(pc, st.t, n, all) + [st]
  {
    hide ToAcquire, ToRelease;
    n' := if pc.AWoken? then n + 1 else if pc.AWant? then 0 else n;
    if st.AAcquire? {
      RoundAgain(st.t, n, pc.cv);
    }
    hide Rounds;
  }

  lemma ReleasePath(pc: Pc, st: Step, pc': Pc, n: nat, all: bool)
    requires Leads(pc, st, pc') && Releasing(st) && !AtRest(pc)
    ensures !AtRest(pc') ==> Path(pc', st.t, n, all) == Path(pc, st.t, n, all) + [st]
  {
    hide ToAcquire, Rounds;
  }

  lemma CvPath(pc: Pc, st: Step, pc': Pc, n: nat, all: bool) returns (all': bool)
    requires Leads(pc, st, pc') && !Acquiring(st) && !Releasing(st) && !AtRest(pc)
    ensures !AtRest(pc') ==> Path(pc', st.t, n, all') == Path(pc, st.t, n, all) + [st]
  {
    hide Rounds;
    all' := if pc.SLocked? then pc.all else all;
  }

  /** The first step of a call is the path to where the thread is then. */
  lemma CallPath(pc: Pc, st: Step, pc': Pc)
    requires Leads(pc, st, pc') && AtRest(pc)
    ensures !AtRest(pc') && Path(pc', st.t, 0, false) == [st]
  {
  }

  // ---- Calls in runs ----

  lemma RunStep(states: seq<State>, steps: seq<Step>, i: nat)
    requires IsRun(states, steps) && i < |steps|
    ensures |states| == |steps| + 1
    ensures Enabled(states[i], steps[i]) && states[i + 1] == Apply(states[i], steps[i])
  {
    hide Enabled, Apply, Created;
  }

  /** Thread t calls an operation with steps[i], and is in it in states[i + 1..j]. */
  ghost predicate InCall(states: seq<State>, steps: seq<Step>, i: nat, j: nat, t: nat)
  {
    && i < j <= |steps| < |states| && steps[i].t == t && t in states[i].pc && AtRest(states[i].pc[t])
    && forall k :: i < k < j ==> t in states[k].pc && !AtRest(states[k].pc[t])
  }

  lemma {:induction false} PathRun(states: seq<State>, steps: seq<Step>, i: nat, k: nat, t: nat)
    returns (n: nat, all: bool)
    requires IsRun(states, steps) && PoliteRun(states, steps) && InCall(states, steps, i, k + 1, t) && i < k
    ensures t in states[k].pc && Path(states[k].pc[t], t, n, all) == Mine(steps, t, i, k)
    decreases k
  {
    hide IsRun, PoliteRun, Inv, Enabled, Apply, Path, Leads;
    RunStep(states, steps, k - 1);
    if k == i + 1 {
      n, all := 0, false;
      OwnLeads(states[i], steps[i]);
      CallPath(states[i].pc[t], steps[i], states[k].pc[t]);
      assert Mine(steps, t, i, i) == [];
    } else {
      n, all := PathRun(states, steps, i, k - 1, t);
      RunInv(states, steps, k - 1);
      if steps[k - 1].t == t {
        OwnLeads(states[k - 1], steps[k - 1]);
        n, all := PathStep(states[k - 1].pc[t], steps[k - 1], states[k].pc[t], n, all);
      } else {
        OthersPath(states[k - 1], steps[k - 1], t, n, all);
      }
    }
  }

  /** The last step of a call, and the whole path. */
  lemma LastStep(pc: Pc, st: Step, pc': Pc, n: nat, all: bool)
    requires Leads(pc, st, pc') && !AtRest(pc) && AtRest(pc')
    ensures var path, t := Path(pc, st.t, n, all) + [st], st.t;
            || (pc' == Held && st == AFinish(t) && path == Acquisition(t, n, false))
            || (pc' == Held && st == AFinish(t) && path == Acquisition(t, n, true))
            || (pc' == Out && path == [RClear(t), RAcquire(t), RSet(t), RWakeOne(t), RRelease(t)])
            || (pc' == Held && path == [SCall(t, all), SAcquire(t), SWakeUp(t), SRelease(t)])
  {
    hide Rounds, ToAcquire;
    assert st.AFinish? || st.SRelease? || (st.RRelease? && !pc.cv);
  }

  /** All of lock_acquire, called as such or by cv_wait. */
  function Acquisition(t: nat, n: nat, cv: bool): (r: seq<Step>)
  {
    ToAcquire(t, cv) + [AAcquire(t)] + Rounds(t, n) + [ATake(t), AOwn(t), AUnlock(t), AFinish(t)]
  }

  /** What a call consists of.  lock_acquire takes the lock once, after any number of sleeps, and
      returns with the lock held.  lock_release gives it up and wakes one sleeper.  cv_wait gives up
      the lock with cv_lock held, joins the channel, and once woken acquires the lock again, so it
      returns with the lock held.  cv_signal and cv_broadcast wake and keep the lock. */
  ghost predicate Complete(call: Step, mine: seq<Step>, pc: Pc, t: nat, n: nat)
  {
    match call
    case ACall(_) =>
      pc == Held && mine == [ACall(t), AAcquire(t)] + Rounds(t, n) + [ATake(t), AOwn(t), AUnlock(t), AFinish(t)]
    case RClear(_) => pc == Out && mine == [RClear(t), RAcquire(t), RSet(t), RWakeOne(t), RRelease(t)]
    case CCall(_) =>
      && pc == Held
      && mine == [CCall(t), CAcquire(t), RClear(t), RAcquire(t), RSet(t), RWakeOne(t), RRelease(t), CQueue(t),
                  CReacquire(t), CRelease(t), AAcquire(t)]
                 + Rounds(t, n) + [ATake(t), AOwn(t), AUnlock(t), AFinish(t)]
    case SCall(_, all) => pc == Held && mine == [SCall(t, all), SAcquire(t), SWakeUp(t), SRelease(t)]
    case _ => false
  }

  lemma CompletePath(call: Step, mine: seq<Step>, pc: Pc, t: nat, n: nat, all: bool)
    requires mine != [] && mine[0] == call
    requires || (pc == Held && mine == Acquisition(t, n, false)) || (pc == Held && mine == Acquisition(t, n, true))
             || (pc == Out && mine == [RClear(t), RAcquire(t), RSet(t), RWakeOne(t), RRelease(t)])
             || (pc == Held && mine == [SCall(t, all), SAcquire(t), SWakeUp(t), SRelease(t)])
    ensures Complete(call, mine, pc, t, n)
  {
    hide Rounds;
  }

  lemma {:induction false} MineFirst(steps: seq<Step>, t: nat, a: nat, b: nat)
    requires a < b <= |steps| && steps[a].t == t
    ensures Mine(steps, t, a, b) != [] && Mine(steps, t, a, b)[0] == steps[a]
    decreases b
  {
    if b > a + 1 {
      MineFirst(steps, t, a, b - 1);
    } else {
      assert Mine(steps, t, a, a) == [];
    }
  }

  /** From the call of an operation to its return, whatever all other threads do in between: its
      accesses in order, and where the thread is afterwards.  With the lock acquired it is the holder,
      the lock is not available, and lock_do_i_hold says so. */
  lemma CallReturns(states: seq<State>, steps: seq<Step>, i: nat, j: nat, t: nat) returns (n: nat)
    requires IsRun(states, steps) && PoliteRun(states, steps) && InCall(states, steps, i, j, t)
    requires t in states[j].pc && AtRest(states[j].pc[t])
    ensures Complete(steps[i], Mine(steps, t, i, j), states[j].pc[t], t, n)
    ensures steps[i].ACall? || steps[i].CCall? ==>
              states[j].holder == Some(t) && !states[j].available && DoIHold(states[j], t)
  {
    hide IsRun, PoliteRun, Inv, Enabled, Apply, Path, Complete, Acquisition, Leads;
    RunStep(states, steps, i);
    RunStep(states, steps, j - 1);
    OwnLeads(states[i], steps[i]);
    CallPath(states[i].pc[t], steps[i], states[i + 1].pc[t]);
    assert j > i + 1;
    var all;
    n, all := PathRun(states, steps, i, j - 1, t);
    RunInv(states, steps, j - 1);
    if steps[j - 1].t != t {
      OthersPath(states[j - 1], steps[j - 1], t, n, all);
    }
    OwnLeads(states[j - 1], steps[j - 1]);
    LastStep(states[j - 1].pc[t], steps[j - 1], states[j].pc[t], n, all);
    FinishOwns(states[j - 1], steps[j - 1]);
    MineFirst(steps, t, i, j);
    CompletePath(steps[i], Mine(steps, t, i, j), states[j].pc[t], t, n, all);
    RunInv(states, steps, j);
    HolderHolds(states[j], t);
    AcquisitionFirst(t, n);
  }

  lemma FinishOwns(s: State, st: Step)
    requires Enabled(s, st)
    ensures st.AFinish? ==> Apply(s, st).owner == Some(st.t)
  {
  }

  lemma AcquisitionFirst(t: nat, n: nat)
    ensures Acquisition(t, n, false)[0] == ACall(t) && Acquisition(t, n, true)[0] == CCall(t)
  {
  }

  lemma HolderHolds(s: State, t: nat)
    requires Inv(s) && t in s.pc
    ensures s.pc[t] == Held ==> s.holder == Some(t) && !s.available
  {
    InvFacts(s, t);
  }

  // ---- Signals ----

  /** steps[j] is the first step st after steps[i]. */
  ghost predicate NextAt(steps: seq<Step>, i: nat, j: nat, st: Step)
  {
    i < j < |steps| && steps[j] == st && forall k :: i < k < j ==> steps[k] != st
  }

  lemma {:induction false} SignalRun(states: seq<State>, steps: seq<Step>, i: nat, k: nat, t: nat, all: bool)
    requires IsRun(states, steps) && PoliteRun(states, steps) && i < k <= |steps| < |states|
    requires steps[i] == SCall(t, all) && forall m :: i < m < k ==> steps[m] != SWakeUp(t)
    ensures t in states[k].pc && (states[k].pc[t] == SWant(all) || states[k].pc[t] == SLocked(all))
    decreases k
  {
    hide IsRun, PoliteRun, Inv;
    RunStep(states, steps, k - 1);
    if k > i + 1 {
      SignalRun(states, steps, i, k - 1, t, all);
      RunInv(states, steps, k - 1);
      if steps[k - 1].t != t {
        hide Enabled, Apply;
        OthersMove(states[k - 1], steps[k - 1], t);
      }
    }
  }

  /** From the call: cv_broadcast wakes every thread on the channel, cv_signal exactly the first, and
      no thread that is not on the channel is touched. */
  lemma CallWakes(states: seq<State>, steps: seq<Step>, i: nat, j: nat, t: nat, all: bool, w: nat)
    requires IsRun(states, steps) && PoliteRun(states, steps) && i < |steps| < |states| && steps[i] == SCall(t, all)
    requires NextAt(steps, i, j, SWakeUp(t)) && w in states[j].pc && w != t
    ensures w in states[j + 1].pc
    ensures var q := states[j].cvq;
            if all then
              && states[j + 1].cvq == []
              && states[j + 1].pc[w] == if w in q then CWoken else states[j].pc[w]
            else
              && states[j + 1].cvq == (if q == [] then [] else q[1..])
              && states[j + 1].pc[w] == if q != [] && w == q[0] then CWoken else states[j].pc[w]
  {
    hide IsRun, PoliteRun, Inv;
    SignalRun(states, steps, i, j, t, all);
    RunStep(states, steps, j);
    RunInv(states, steps, j);
    SignalEffect(states[j], t, all);
  }

  lemma SignalEffect(s: State, t: nat, all: bool)
    requires Inv(s) && Enabled(s, SWakeUp(t)) && s.pc[t] == SLocked(all)
    ensures var s' := Apply(s, SWakeUp(t));
            && s'.cvq == (if all || s.cvq == [] then [] else s.cvq[1..])
            && forall w :: w in s.pc && w != t ==>
                 && w in s'.pc
                 && s'.pc[w] == if w in s.cvq && (all || w == s.cvq[0]) then CWoken else s.pc[w]
  {
    if s.cvq != [] {
      assert s.cvq[..1] == [s.cvq[0]] && s.cvq[..|s.cvq|] == s.cvq;
    }
    hide Inv;
  }

  // ---- The order of the channels ----

  /** Both channels are first in, first out; lock_release wakes the thread that has slept longest. */
  lemma ChannelOrder(s: State, st: Step)
    requires Inv(s) && Enabled(s, st)
    ensures var s' := Apply(s, st);
            if st.ASleep? then s'.lkq == s.lkq + [st.t]
            else if st.RWakeOne? && s.lkq != [] then
              s'.lkq == s.lkq[1..] && s.lkq[0] in s'.pc && s'.pc[s.lkq[0]].AWoken?
            else s'.lkq == s.lkq
    ensures var s' := Apply(s, st);
            if st.CQueue? then s'.cvq == s.cvq + [st.t]
            else st.SWakeUp? || s'.cvq == s.cvq
  {
    if s.lkq != [] {
      LkHead(s);
    }
    hide Inv;
  }

  // ---- No deadlock ----

  /** On one of the two channels. */
  predicate Sleeps(pc: Pc)
  {
    pc.AAsleep? || pc == CAsleep
  }

  /** The next access of a thread that is not asleep; between two calls, the one it can make. */
  function Next(s: State, t: nat): (st: Step)
    requires t in s.pc && !Sleeps(s.pc[t])
  {
    match s.pc[t]
    case Out => ACall(t)
    case AWant(_) => AAcquire(t)
    case AWoken(_) => AAcquire(t)
    case ATest(_) => if s.available then ATake(t) else ASleep(t)
    case ATaken(_) => AOwn(t)
    case AOwned(_) => AUnlock(t)
    case AUnlocked(_) => AFinish(t)
    case Held => RClear(t)
    case RWant(_) => RAcquire(t)
    case RLocked(_) => RSet(t)
    case RWake(_) => RWakeOne(t)
    case RUnlock(_) => RRelease(t)
    case CWant => CAcquire(t)
    case CLocked => RClear(t)
    case CSleep => CQueue(t)
    case CWoken => CReacquire(t)
    case CRelock => CRelease(t)
    case SWant(_) => SAcquire(t)
    case SLocked(_) => SWakeUp(t)
    case SUnlock => SRelease(t)
  }

  /** The holder of the spinlock that a thread is waiting for. */
  function WaitsFor(s: State, t: nat): (u: Option<nat>)
    requires t in s.pc
  {
    match s.pc[t]
    case AWant(_) => s.lk
    case AWoken(_) => s.lk
    case RWant(_) => s.lk
    case CWant => s.cvl
    case CWoken => s.cvl
    case SWant(_) => s.cvl
    case _ => None
  }

  predicate CanStep(s: State, t: nat)
  {
    t in s.pc && !Sleeps(s.pc[t]) && Enabled(s, Next(s, t))
  }

  /** A spinlock is held by a thread. */
  predicate HeldByThreads(s: State)
  {
    (s.lk.Some? ==> s.lk.value in s.pc) && (s.cvl.Some? ==> s.cvl.value in s.pc)
  }

  lemma {:induction false} HeldByThreadsRun(states: seq<State>, steps: seq<Step>, i: nat)
    requires IsRun(states, steps) && i < |states|
    ensures HeldByThreads(states[i])
  {
    if i > 0 {
      HeldByThreadsRun(states, steps, i - 1);
      RunStep(states, steps, i - 1);
      StepKeys(states[i - 1], steps[i - 1]);
      HeldStep(states[i - 1], steps[i - 1]);
    }
  }

  lemma HeldStep(s: State, st: Step)
    requires HeldByThreads(s) && Enabled(s, st) && Apply(s, st).pc.Keys == s.pc.Keys
    ensures HeldByThreads(Apply(s, st))
  {
    assert forall x :: x in Apply(s, st).pc <==> x in Apply(s, st).pc.Keys;
  }

  lemma NextEnabled(s: State, t: nat)
    requires t in s.pc && !Sleeps(s.pc[t]) && WaitsFor(s, t) == None && (Owns(s.pc[t]) ==> s.owner == Some(t))
    ensures Enabled(s, Next(s, t))
  {
  }

  lemma FreeSteps(s: State, t: nat)
    requires Inv(s) && Owners(s) && t in s.pc && !Sleeps(s.pc[t]) && WaitsFor(s, t) == None
    ensures CanStep(s, t)
  {
    assert Owns(s.pc[t]) ==> s.owner == Some(t);
    hide Inv, Owners;
    NextEnabled(s, t);
  }

  lemma LkHolderSteps(s: State)
    requires Inv(s) && Owners(s) && HeldByThreads(s) && s.lk.Some?
    ensures CanStep(s, s.lk.value)
  {
    InvFacts(s, s.lk.value);
    FreeSteps(s, s.lk.value);
  }

  lemma CvHolderSteps(s: State)
    requires Inv(s) && Owners(s) && HeldByThreads(s) && s.cvl.Some?
    ensures var u := s.cvl.value;
            u in s.pc && (CanStep(s, u) || (WaitsFor(s, u).Some? && CanStep(s, WaitsFor(s, u).value)))
  {
    var u := s.cvl.value;
    InvFacts(s, u);
    if WaitsFor(s, u) == None {
      FreeSteps(s, u);
    } else {
      LkHolderSteps(s);
    }
  }

  /** With a good leftover owner a thread that is not asleep can always go on, or it waits for a
      spinlock, and its holder can go on or waits for lk_lock, whose holder can. */
  lemma NoDeadlock(states: seq<State>, steps: seq<Step>, i: nat, t: nat)
    requires IsRun(states, steps) && GoodOwner(states[0]) && i < |states|
    requires t in states[i].pc && !Sleeps(states[i].pc[t])
    ensures var s := states[i];
            || CanStep(s, t)
            || (&& WaitsFor(s, t).Some? && WaitsFor(s, t).value in s.pc
                && var u := WaitsFor(s, t).value;
                   CanStep(s, u) || (WaitsFor(s, u).Some? && CanStep(s, WaitsFor(s, u).value)))
  {
    hide IsRun, Inv, Owners, CanStep;
    var s := states[i];
    GoodRun(states, steps, i);
    HeldByThreadsRun(states, steps, i);
    if WaitsFor(s, t) == None {
      FreeSteps(s, t);
    } else if WaitsFor(s, t) == s.lk {
      LkHolderSteps(s);
    } else {
      CvHolderSteps(s);
    }
  }
}
