/** What every interleaving of the thread system keeps. */
module ThreadSafety {
  import opened Common
  import opened ThreadSystem

  // ---- The invariant ----

  /** A thread is on a list exactly when its list node says so, and at most once. */
  ghost predicate Lists(s: State)
  {
    && (forall l :: NoDup(List(s, l)))
    && (forall l, t :: t in List(s, l) <==> t in s.threads && s.threads[t].loc == On(l))
  }

  /** The current thread runs on this CPU and is on no list. */
  predicate OffList(pc: Pc)
  {
    pc == Running || pc.SleepHeld? || pc.Locked? || pc == Switched || pc == Exorcising
  }

  /** What the threads in the private list of a CPU are: none, taken off a channel, just created,
      or ready threads that belong to this CPU. */
  datatype HandKind = NoHand | Woken | Created | Owned

  function HandKindOf(k: Cpu): (h: HandKind)
  {
    if k.op.Grab? then Woken
    else if k.op.Put? || k.op.PutWait? || k.op.PutLocked? then (if k.op.src.Some? then Woken else Created)
    else if k.pc == Picked || k.op.TakeLocked? || k.op.Send? || k.op.SendLocked?
            || k.op.Back? || k.op.BackLocked? then Owned
    else NoHand
  }

  /** The part of a CPU that its threads depend on. */
  datatype View = View(cur: nat, offList: bool, sleeping: bool, dying: bool, hand: HandKind)

  function ViewOf(k: Cpu): (v: View)
  {
    View(k.cur, OffList(k.pc), k.pc.Placed? && k.pc.k.ToSleep?, k.pc == Placed(ToZombie), HandKindOf(k))
  }

  /** Asleep, or about to write S_SLEEP with the run queue locked. */
  ghost predicate Asleep(s: State, t: nat)
    requires t in s.threads && s.threads[t].cpu < |s.cpus|
  {
    var r := s.threads[t];
    r.state == Sleep || (ViewOf(s.cpus[r.cpu]).cur == t && ViewOf(s.cpus[r.cpu]).sleeping)
  }

  ghost predicate Dead(s: State, t: nat)
    requires t in s.threads && s.threads[t].cpu < |s.cpus|
  {
    var r := s.threads[t];
    r.state == Zombie || (ViewOf(s.cpus[r.cpu]).cur == t && ViewOf(s.cpus[r.cpu]).dying)
  }

  /** Created and never run. */
  ghost predicate NewThread(s: State, t: nat)
    requires t in s.threads && s.threads[t].cpu < |s.cpus|
  {
    s.threads[t].state == Ready && ViewOf(s.cpus[s.threads[t].cpu]).cur != t
  }

  ghost predicate ThreadOk(s: State, t: nat)
    requires t in s.threads
  {
    var r := s.threads[t];
    && r.cpu < |s.cpus|
    && match r.loc
       case Off => ViewOf(s.cpus[r.cpu]).cur == t && ViewOf(s.cpus[r.cpu]).offList
       case On(Queue(c)) => c == r.cpu && r.state == Ready
       case On(Chan(_)) => Asleep(s, t)
       case On(Zombies(c)) => c == r.cpu && Dead(s, t)
       case On(Born(_)) => NewThread(s, t)
       case On(Hand(c)) =>
         && c < |s.cpus|
         && (match ViewOf(s.cpus[c]).hand
             case NoHand => false
             case Woken => Asleep(s, t)
             case Created => NewThread(s, t)
             case Owned => r.state == Ready && r.cpu == c)
  }

  ghost predicate CurOk(s: State, c: nat)
    requires c < |s.cpus|
  {
    var k := s.cpus[c];
    && k.cur in s.threads && s.threads[k.cur].cpu == c
    && var r := s.threads[k.cur];
       if OffList(k.pc) then
         r.loc == Off && (if k.pc == Switched then r.state == Ready else r.state == Run || r.state == Ready)
       else if k.pc.Placed? then
         match k.pc.k
         case ToReady => r.loc == On(Queue(c))
         case ToSleep(_) => r.loc.On? && (r.loc.l.Chan? || r.loc.l.Hand?)
         case ToZombie => r.loc == On(Zombies(c))
       else r.loc.On?
  }

  ghost predicate OpOk(s: State, c: nat)
    requires c < |s.cpus|
  {
    var k := s.cpus[c];
    && (k.op != NoOp ==> k.pc == Running || k.pc.SleepHeld? || k.pc == Idle)
    && (k.isIdle <==> k.pc == Choosing || k.pc == Idle || k.pc == Unidling)
    && (k.pc == Picked ==> |List(s, Hand(c))| == 1)
    && (k.pc == Idle && (k.op != NoOp || List(s, Queue(c)) != []) ==> k.ipi)
    && match k.op
       case PutWait(_, target) => HandTarget(s, c, target)
       case PutLocked(_, target) => HandTarget(s, c, target)
       case Count(i, mine, total) => i <= |s.cpus| && mine <= |List(s, Queue(c))| && mine <= total
       case Take(left, _) => left <= |List(s, Queue(c))|
       case TakeLocked(left, taken, _) => taken <= left <= taken + |List(s, Queue(c))| && |List(s, Hand(c))| == taken
       case Send(_, left, _) => left <= |List(s, Hand(c))|
       case SendLocked(i, left, _) => left <= |List(s, Hand(c))| && i != c
       case _ => true
  }

  /** The run queue that a wakeup is waiting for is still that of the thread it holds. */
  ghost predicate HandTarget(s: State, c: nat, target: nat)
  {
    && target < |s.cpus|
    && List(s, Hand(c)) != [] && Head(s, Hand(c)) in s.threads
    && s.threads[Head(s, Hand(c))].cpu == target
  }

  /** The run queue locks that CPU c holds at its present point. */
  function RqHeld(k: Cpu, c: nat): (r: set<nat>)
  {
    (if k.pc.Locked? || k.pc.Placed? || k.pc == Choosing || k.pc == Picked || k.pc == Switched
        || k.op.TakeLocked? || k.op.BackLocked? then {c} else {})
    + (if k.op.PutLocked? then {k.op.target} else if k.op.SendLocked? then {k.op.i} else {})
  }

  /** The lock words agree with what the CPUs think they hold. */
  ghost predicate RqLocks(s: State)
  {
    && (forall c, x {:trigger x in RqHeld(s.cpus[c], c)} :: 0 <= c < |s.cpus| && 0 <= x ==>
         (x in RqHeld(s.cpus[c], c) <==> x < |s.cpus| && s.cpus[x].rqHolder == Some(c)))
    && (forall x :: 0 <= x < |s.cpus| && s.cpus[x].rqHolder.Some? ==> s.cpus[x].rqHolder.value < |s.cpus|)
  }

  /** The wait channel locks that a CPU holds at its present point. */
  function LkHeld(k: Cpu): (r: set<nat>)
  {
    (if k.pc.SleepHeld? then {k.pc.w} else if k.pc.Locked? && k.pc.k.ToSleep? then {k.pc.k.w} else {})
    + (if k.op.Grab? then {k.op.w}
       else if (k.op.Put? || k.op.PutWait? || k.op.PutLocked?) && k.op.src.Some? then {k.op.src.value} else {})
  }

  ghost predicate LkLocks(s: State)
  {
    && (forall c, w :: 0 <= c < |s.cpus| && 0 <= w ==>
         (w in LkHeld(s.cpus[c]) <==> w in s.lkHolder && s.lkHolder[w] == c))
    && (forall w :: w in s.lkHolder ==> s.lkHolder[w] < |s.cpus|)
  }

  ghost predicate AllThreads(s: State)
  {
    forall t :: t in s.threads ==> ThreadOk(s, t)
  }

  ghost predicate AllCurs(s: State)
  {
    forall c :: 0 <= c < |s.cpus| ==> CurOk(s, c)
  }

  ghost predicate AllOps(s: State)
  {
    forall c :: 0 <= c < |s.cpus| ==> OpOk(s, c)
  }

  ghost predicate Inv(s: State)
  {
    && Lists(s)
    && AllThreads(s)
    && AllCurs(s)
    && AllOps(s)
    && RqLocks(s)
    && LkLocks(s)
    && |s.cpus| > 0
  }

  lemma InitInv(s: State)
    requires Init(s)
    ensures Inv(s)
  {
  }

  // ---- List operations keep the lists right ----

  lemma RemHeadLists(s: State, l: ListId)
    requires Lists(s) && List(s, l) != []
    ensures Head(s, l) in s.threads && s.threads[Head(s, l)].loc == On(l)
    ensures Lists(RemHead(s, l))
  {
    var q, t, s' := List(s, l), Head(s, l), RemHead(s, l);
    assert t in q;
    assert NoDup(q);
    forall l' ensures NoDup(List(s', l')) {
      assert NoDup(List(s, l'));
    }
    assert forall x :: x in q <==> x == t || x in q[1..];
    assert t !in q[1..];
    forall l', x ensures x in List(s', l') <==> x in s'.threads && s'.threads[x].loc == On(l') {
      assert x in List(s, l') <==> x in s.threads && s.threads[x].loc == On(l');
    }
  }

  lemma RemTailLists(s: State, l: ListId)
    requires Lists(s) && List(s, l) != []
    ensures var q := List(s, l); q[|q| - 1] in s.threads && s.threads[q[|q| - 1]].loc == On(l)
    ensures Lists(RemTail(s, l))
  {
    var q := List(s, l);
    var n, t := |q| - 1, q[|q| - 1];
    assert t in q;
    var s' := RemTail(s, l);
    assert NoDup(q);
    forall l' ensures NoDup(List(s', l')) {
      assert NoDup(List(s, l'));
    }
    assert q == q[..n] + [t];
    assert t !in q[..n];
    forall l', x ensures x in List(s', l') <==> x in s'.threads && s'.threads[x].loc == On(l') {
      assert x in List(s, l') <==> x in s.threads && s.threads[x].loc == On(l');
    }
  }

  lemma AddTailLists(s: State, l: ListId, t: nat)
    requires Lists(s) && t in s.threads && s.threads[t].loc == Off
    ensures Lists(AddTail(s, l, t))
  {
    var s' := AddTail(s, l, t);
    forall l' ensures NoDup(List(s', l')) {
      assert NoDup(List(s, l'));
      assert t !in List(s, l');
    }
    forall l', x ensures x in List(s', l') <==> x in s'.threads && s'.threads[x].loc == On(l') {
      assert x in List(s, l') <==> x in s.threads && s.threads[x].loc == On(l');
    }
  }

  lemma AddHeadLists(s: State, l: ListId, t: nat)
    requires Lists(s) && t in s.threads && s.threads[t].loc == Off
    ensures Lists(AddHead(s, l, t))
  {
    var s' := AddHead(s, l, t);
    forall l' ensures NoDup(List(s', l')) {
      assert NoDup(List(s, l'));
      assert t !in List(s, l');
    }
    forall l', x ensures x in List(s', l') <==> x in s'.threads && s'.threads[x].loc == On(l') {
      assert x in List(s, l') <==> x in s.threads && s.threads[x].loc == On(l');
    }
  }

  /** A thread that is on no list can be destroyed. */
  lemma DestroyLists(s: State, t: nat)
    requires Lists(s) && t in s.threads && s.threads[t].loc == Off
    ensures Lists(s.(threads := s.threads - {t}))
  {
    var s' := s.(threads := s.threads - {t});
    forall l ensures List(s', l) == List(s, l) {
    }
  }

  /** A new thread is on no list. */
  lemma CreateLists(s: State, t: nat, r: Thread)
    requires Lists(s) && t !in s.threads && r.loc == Off
    ensures Lists(s.(threads := s.threads[t := r]))
  {
    var s' := s.(threads := s.threads[t := r]);
    forall l ensures List(s', l) == List(s, l) {
    }
  }

  /** Lists depend only on the lists and on where the threads are. */
  lemma SameLists(s: State, s': State)
    requires Lists(s) && s'.lists == s.lists && s'.threads.Keys == s.threads.Keys
    requires forall t :: t in s.threads ==> s'.threads[t].loc == s.threads[t].loc
    ensures Lists(s')
  {
    forall l ensures List(s', l) == List(s, l) {
    }
  }

  // ---- Steps that change no thread and no list ----

  /** The views agree, except that a CPU with nothing in its private list may change what
      that list is for. */
  ghost predicate SameView(s: State, k: Cpu, k': Cpu, c: nat)
  {
    ViewOf(k') == ViewOf(k) || (ViewOf(k').(hand := NoHand) == ViewOf(k).(hand := NoHand) && List(s, Hand(c)) == [])
  }

  lemma ViewFrame(s: State, s': State)
    requires Lists(s) && AllThreads(s) && s'.threads == s.threads && |s'.cpus| == |s.cpus|
    requires forall c :: 0 <= c < |s.cpus| ==> SameView(s, s.cpus[c], s'.cpus[c], c)
    ensures AllThreads(s')
  {
    hide ViewOf;
    forall t | t in s'.threads ensures ThreadOk(s', t) {
      assert ThreadOk(s, t);
      var r := s.threads[t];
      assert SameView(s, s.cpus[r.cpu], s'.cpus[r.cpu], r.cpu);
      if r.loc.On? && r.loc.l.Hand? {
        assert t in List(s, r.loc.l);
        assert SameView(s, s.cpus[r.loc.l.c], s'.cpus[r.loc.l.c], r.loc.l.c);
      }
    }
  }

  /** Only CPU c changes, apart from lock words. */
  lemma CpuOnly(s: State, s': State, c: nat)
    requires Inv(s) && c < |s.cpus| == |s'.cpus| && s'.threads == s.threads && s'.lists == s.lists
    requires forall x :: 0 <= x < |s.cpus| && x != c ==> s'.cpus[x] == s.cpus[x].(rqHolder := s'.cpus[x].rqHolder)
    requires SameView(s, s.cpus[c], s'.cpus[c], c)
    requires CurOk(s', c) && OpOk(s', c) && RqLocks(s') && LkLocks(s')
    ensures Inv(s')
  {
    SameLists(s, s');
    ViewFrame(s, s');
    CursFrame(s, s', c);
    OpsFrame(s, s', c);
  }

  lemma CursFrame(s: State, s': State, c: nat)
    requires AllCurs(s) && c < |s.cpus| == |s'.cpus| && s'.threads == s.threads
    requires forall x :: 0 <= x < |s.cpus| && x != c ==> s'.cpus[x] == s.cpus[x].(rqHolder := s'.cpus[x].rqHolder)
    requires CurOk(s', c)
    ensures AllCurs(s')
  {
    forall x | 0 <= x < |s'.cpus| ensures CurOk(s', x) {
      assert CurOk(s, x);
    }
  }

  lemma OpsFrame(s: State, s': State, c: nat)
    requires AllOps(s) && c < |s.cpus| == |s'.cpus| && s'.threads == s.threads && s'.lists == s.lists
    requires forall x :: 0 <= x < |s.cpus| && x != c ==> s'.cpus[x] == s.cpus[x].(rqHolder := s'.cpus[x].rqHolder)
    requires OpOk(s', c)
    ensures AllOps(s')
  {
    forall x | 0 <= x < |s'.cpus| ensures OpOk(s', x) {
      assert OpOk(s, x);
    }
  }

  // ---- Steps that move one thread ----

  /** Only thread m and CPU c change, apart from pending interrupts and lock words. */
  ghost predicate Moved(s: State, s': State, c: nat, m: nat)
  {
    && c < |s.cpus| == |s'.cpus|
    && (forall x :: 0 <= x < |s.cpus| && x != c ==>
         s'.cpus[x] == s.cpus[x].(ipi := s'.cpus[x].ipi, rqHolder := s'.cpus[x].rqHolder))
    && (forall t :: t != m ==> (t in s'.threads <==> t in s.threads))
    && (forall t :: t in s.threads && t != m ==> s'.threads[t] == s.threads[t])
  }

  /** The threads other than m do not depend on what changed at CPU c. */
  ghost predicate ViewKept(s: State, s': State, c: nat, m: nat)
    requires c < |s.cpus| == |s'.cpus|
  {
    var v, v' := ViewOf(s.cpus[c]), ViewOf(s'.cpus[c]);
    && (v.cur != m && (v.offList || v.sleeping || v.dying) ==> v'.(hand := v.hand) == v)
    && (v'.hand == v.hand || forall t :: t in List(s, Hand(c)) ==> t == m)
    && (v'.cur == v.cur || v'.cur == m)
  }

  lemma OtherViews(s: State, s': State, c: nat, m: nat)
    requires Moved(s, s', c, m)
    ensures forall x :: 0 <= x < |s.cpus| && x != c ==> ViewOf(s'.cpus[x]) == ViewOf(s.cpus[x])
  {
  }

  lemma ThreadStable(s: State, s': State, c: nat, m: nat, t: nat)
    requires Lists(s) && AllThreads(s) && Moved(s, s', c, m) && ViewKept(s, s', c, m)
    requires t in s.threads && t != m
    ensures ThreadOk(s', t)
  {
    OtherViews(s, s', c, m);
    var r := s.threads[t];
    assert s'.threads[t] == r;
    assert r.loc.On? ==> t in List(s, r.loc.l);
    assert ThreadOk(s, t) && r.cpu < |s.cpus|;
    var v, v' := ViewOf(s.cpus[r.cpu]), ViewOf(s'.cpus[r.cpu]);
    assert v.cur != t ==> v'.cur != t;
    assert v.cur == t && (v.offList || v.sleeping || v.dying) ==> v'.(hand := v.hand) == v;
    if r.loc.On? && r.loc.l.Hand? {
      assert ViewOf(s'.cpus[r.loc.l.c]).hand == ViewOf(s.cpus[r.loc.l.c]).hand;
    }
    hide ViewOf, Lists, AllThreads, Moved, ViewKept;
  }

  lemma ThreadsStable(s: State, s': State, c: nat, m: nat)
    requires Lists(s) && AllThreads(s) && Moved(s, s', c, m) && ViewKept(s, s', c, m)
    requires m in s'.threads ==> ThreadOk(s', m)
    ensures AllThreads(s')
  {
    hide Lists, ViewKept, ThreadOk;
    forall t | t in s'.threads ensures ThreadOk(s', t) {
      if t != m {
        ThreadStable(s, s', c, m, t);
      }
    }
  }

  /** No other CPU runs a thread that belongs to CPU c. */
  lemma CurApart(s: State, c: nat, m: nat)
    requires AllCurs(s) && m in s.threads && s.threads[m].cpu == c
    ensures forall x :: 0 <= x < |s.cpus| && x != c ==> s.cpus[x].cur != m
  {
    forall x | 0 <= x < |s.cpus| && x != c ensures s.cpus[x].cur != m {
      assert CurOk(s, x);
    }
  }

  lemma OnlyHere(s: State, c: nat, m: nat)
    requires Inv(s) && m in s.threads && s.threads[m].cpu == c
    ensures forall x :: 0 <= x < |s.cpus| && x != c ==> s.cpus[x].cur != m
  {
    hide Lists, AllThreads, AllCurs, AllOps, RqLocks, LkLocks;
    CurApart(s, c, m);
  }

  /** No CPU is on a thread that is being forked. */
  lemma NeverRun(s: State, m: nat)
    requires Inv(s) && m in s.threads && s.threads[m].loc.On? && s.threads[m].loc.l.Born?
    ensures s.threads[m].cpu < |s.cpus| && NewThread(s, m)
    ensures forall x :: 0 <= x < |s.cpus| ==> s.cpus[x].cur != m
  {
    assert ThreadOk(s, m);
    hide Lists, AllThreads, AllOps, RqLocks, LkLocks;
    forall x | 0 <= x < |s.cpus| ensures s.cpus[x].cur != m {
      assert CurOk(s, x);
    }
  }

  lemma CursStable(s: State, s': State, c: nat, m: nat)
    requires AllCurs(s) && Moved(s, s', c, m) && CurOk(s', c)
    requires forall x :: 0 <= x < |s.cpus| && x != c && s.cpus[x].cur == m ==> CurOk(s', x)
    ensures AllCurs(s')
  {
    forall x | 0 <= x < |s'.cpus| ensures CurOk(s', x) {
      assert CurOk(s, x);
    }
  }

  /** The position and private list of CPU x are undisturbed, and its run queue can only grow. */
  ghost predicate OpFrame(s: State, s': State, x: nat)
    requires x < |s.cpus| == |s'.cpus|
  {
    var k, k' := s.cpus[x], s'.cpus[x];
    && k'.pc == k.pc && k'.op == k.op && k'.isIdle == k.isIdle && (k.ipi ==> k'.ipi)
    && List(s', Hand(x)) == List(s, Hand(x)) && |List(s, Queue(x))| <= |List(s', Queue(x))|
    && (k.isIdle && List(s', Queue(x)) != List(s, Queue(x)) ==> k'.ipi)
    && (forall t :: t in List(s, Hand(x)) && t in s.threads ==>
          t in s'.threads && s'.threads[t].cpu == s.threads[t].cpu)
  }

  /** A step that leaves the other CPUs and their lists alone. */
  lemma QuietFrame(s: State, s': State, c: nat)
    requires c < |s.cpus| == |s'.cpus| && forall x :: 0 <= x < |s.cpus| && x != c ==> s'.cpus[x] == s.cpus[x]
    requires forall x :: x != c ==> List(s', Hand(x)) == List(s, Hand(x)) && List(s', Queue(x)) == List(s, Queue(x))
    requires forall t :: t in s.threads ==> t in s'.threads && s'.threads[t].cpu == s.threads[t].cpu
    ensures forall x :: 0 <= x < |s.cpus| && x != c ==> OpFrame(s, s', x)
  {
    hide List;
  }

  lemma OpStable(s: State, s': State, x: nat)
    requires x < |s.cpus| == |s'.cpus| && OpOk(s, x) && OpFrame(s, s', x)
    ensures OpOk(s', x)
  {
    FirstIn(List(s, Hand(x)));
  }

  lemma OpsStable(s: State, s': State, c: nat)
    requires AllOps(s) && c < |s.cpus| == |s'.cpus| && OpOk(s', c)
    requires forall x :: 0 <= x < |s.cpus| && x != c ==> OpFrame(s, s', x)
    ensures AllOps(s')
  {
    hide OpOk, OpFrame;
    forall x | 0 <= x < |s'.cpus| ensures OpOk(s', x) {
      if x != c {
        OpStable(s, s', x);
      }
    }
  }

  /** A step of CPU c that moves one thread keeps the invariant if it keeps these parts of it. */
  lemma MovedInv(s: State, s': State, c: nat, m: nat)
    requires Inv(s) && Moved(s, s', c, m) && ViewKept(s, s', c, m) && (m in s'.threads ==> ThreadOk(s', m))
    requires CurOk(s', c) && forall x :: 0 <= x < |s.cpus| && x != c && s.cpus[x].cur == m ==> CurOk(s', x)
    requires OpOk(s', c) && forall x :: 0 <= x < |s.cpus| && x != c ==> OpFrame(s, s', x)
    requires Lists(s') && RqLocks(s') && LkLocks(s')
    ensures Inv(s')
  {
    hide Lists, AllThreads, AllCurs, AllOps, RqLocks, LkLocks, CurOk, OpOk, ThreadOk, OpFrame, ViewKept;
    ThreadsStable(s, s', c, m);
    CursStable(s, s', c, m);
    OpsStable(s, s', c);
  }

  /** Only CPU c moves, and no other CPU's locks change hands. */
  ghost predicate MovesOnly(s: State, s': State, c: nat)
  {
    && c < |s.cpus| == |s'.cpus|
    && (forall x :: 0 <= x < |s.cpus| && x != c ==> s'.cpus[x] == s.cpus[x].(ipi := s'.cpus[x].ipi))
    && s'.cpus[c].rqHolder == s.cpus[c].rqHolder
    && s'.lkHolder == s.lkHolder
  }

  lemma LocksSame(s: State, s': State, c: nat)
    requires RqLocks(s) && LkLocks(s) && MovesOnly(s, s', c)
    requires RqHeld(s'.cpus[c], c) == RqHeld(s.cpus[c], c) && LkHeld(s'.cpus[c]) == LkHeld(s.cpus[c])
    ensures RqLocks(s') && LkLocks(s')
  {
    forall x | 0 <= x < |s.cpus|
      ensures RqHeld(s'.cpus[x], x) == RqHeld(s.cpus[x], x) && LkHeld(s'.cpus[x]) == LkHeld(s.cpus[x])
    {
    }
    hide RqHeld, LkHeld, RqLocks, LkLocks;
    RqSame(s, s');
    LkSame(s, s');
  }

  lemma EmptyHand(s: State, c: nat)
    requires Lists(s) && AllThreads(s) && c < |s.cpus| && HandKindOf(s.cpus[c]) == NoHand
    ensures List(s, Hand(c)) == []
  {
    forall t ensures t !in List(s, Hand(c)) {
      assert t in s.threads ==> ThreadOk(s, t);
    }
    FirstIn(List(s, Hand(c)));
  }

  lemma FirstIn(q: seq<nat>)
    ensures q == [] || q[0] in q
  {
  }

  lemma InvAt(s: State, c: nat)
    requires Inv(s) && c < |s.cpus|
    ensures CurOk(s, c) && OpOk(s, c) && Lists(s) && AllThreads(s) && RqLocks(s) && LkLocks(s)
    ensures HandKindOf(s.cpus[c]) == NoHand ==> List(s, Hand(c)) == []
    ensures s.cpus[c].pc.SleepHeld? ==> s.cpus[c].pc.w in s.lkHolder && s.lkHolder[s.cpus[c].pc.w] == c
  {
    assert s.cpus[c].pc.SleepHeld? ==> s.cpus[c].pc.w in LkHeld(s.cpus[c]);
    if HandKindOf(s.cpus[c]) == NoHand {
      EmptyHand(s, c);
    }
  }

  lemma ThreadAt(s: State, t: nat)
    requires Inv(s) && t in s.threads
    ensures ThreadOk(s, t)
  {
  }

  // ---- Locks ----

  lemma RqSame(s: State, s': State)
    requires RqLocks(s) && |s'.cpus| == |s.cpus|
    requires forall x :: 0 <= x < |s.cpus| ==>
      RqHeld(s'.cpus[x], x) == RqHeld(s.cpus[x], x) && s'.cpus[x].rqHolder == s.cpus[x].rqHolder
    ensures RqLocks(s')
  {
    hide RqHeld;
  }

  /** c takes the run queue lock of x. */
  lemma RqAcquire(s: State, s': State, c: nat, x: nat)
    requires RqLocks(s) && |s'.cpus| == |s.cpus| && c < |s.cpus| && x < |s.cpus| && s.cpus[x].rqHolder == None
    requires forall y :: 0 <= y < |s.cpus| && y != c ==> RqHeld(s'.cpus[y], y) == RqHeld(s.cpus[y], y)
    requires forall y :: 0 <= y < |s.cpus| && y != x ==> s'.cpus[y].rqHolder == s.cpus[y].rqHolder
    requires RqHeld(s'.cpus[c], c) == RqHeld(s.cpus[c], c) + {x} && s'.cpus[x].rqHolder == Some(c)
    ensures RqLocks(s')
  {
    hide RqHeld;
    forall y, z | 0 <= y < |s.cpus| && 0 <= z
      ensures z in RqHeld(s'.cpus[y], y) <==> z < |s.cpus| && s'.cpus[z].rqHolder == Some(y)
    {
      assert z in RqHeld(s.cpus[y], y) <==> z < |s.cpus| && s.cpus[z].rqHolder == Some(y);
    }
  }

  /** c gives up the run queue lock of x. */
  lemma RqRelease(s: State, s': State, c: nat, x: nat)
    requires RqLocks(s) && |s'.cpus| == |s.cpus| && c < |s.cpus| && x < |s.cpus| && x in RqHeld(s.cpus[c], c)
    requires forall y :: 0 <= y < |s.cpus| && y != c ==> RqHeld(s'.cpus[y], y) == RqHeld(s.cpus[y], y)
    requires forall y :: 0 <= y < |s.cpus| && y != x ==> s'.cpus[y].rqHolder == s.cpus[y].rqHolder
    requires RqHeld(s'.cpus[c], c) == RqHeld(s.cpus[c], c) - {x} && s'.cpus[x].rqHolder == None
    ensures RqLocks(s')
  {
    hide RqHeld;
    forall y, z | 0 <= y < |s.cpus| && 0 <= z
      ensures z in RqHeld(s'.cpus[y], y) <==> z < |s.cpus| && s'.cpus[z].rqHolder == Some(y)
    {
      assert z in RqHeld(s.cpus[y], y) <==> z < |s.cpus| && s.cpus[z].rqHolder == Some(y);
    }
  }

  lemma LkSame(s: State, s': State)
    requires LkLocks(s) && |s'.cpus| == |s.cpus| && s'.lkHolder == s.lkHolder
    requires forall x :: 0 <= x < |s.cpus| ==> LkHeld(s'.cpus[x]) == LkHeld(s.cpus[x])
    ensures LkLocks(s')
  {
    hide LkHeld;
  }

  lemma LkAcquire(s: State, s': State, c: nat, w: nat)
    requires LkLocks(s) && |s'.cpus| == |s.cpus| && c < |s.cpus|
    requires w !in s.lkHolder && s'.lkHolder == s.lkHolder[w := c]
    requires forall x :: 0 <= x < |s.cpus| && x != c ==> LkHeld(s'.cpus[x]) == LkHeld(s.cpus[x])
    requires LkHeld(s'.cpus[c]) == LkHeld(s.cpus[c]) + {w}
    ensures LkLocks(s')
  {
    hide LkHeld;
    forall x, v | 0 <= x < |s.cpus| && 0 <= v
      ensures v in LkHeld(s'.cpus[x]) <==> v in s'.lkHolder && s'.lkHolder[v] == x
    {
      assert v in LkHeld(s.cpus[x]) <==> v in s.lkHolder && s.lkHolder[v] == x;
    }
  }

  lemma LkRelease(s: State, s': State, c: nat, w: nat)
    requires LkLocks(s) && |s'.cpus| == |s.cpus| && c < |s.cpus|
    requires w in LkHeld(s.cpus[c]) && s'.lkHolder == s.lkHolder - {w}
    requires forall x :: 0 <= x < |s.cpus| && x != c ==> LkHeld(s'.cpus[x]) == LkHeld(s.cpus[x])
    requires LkHeld(s'.cpus[c]) == LkHeld(s.cpus[c]) - {w}
    ensures LkLocks(s')
  {
    hide LkHeld;
    forall x, v | 0 <= x < |s.cpus| && 0 <= v
      ensures v in LkHeld(s'.cpus[x]) <==> v in s'.lkHolder && s'.lkHolder[v] == x
    {
      assert v in LkHeld(s.cpus[x]) <==> v in s.lkHolder && s.lkHolder[v] == x;
    }
  }
}
