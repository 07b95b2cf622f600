/** Interrupt priority and spinlock accounting: kern/thread/spl.c, kern/thread/spinlock.c, and
    the hand-over of the run queue lock in kern/thread/thread.c. */
module Spl {
  import opened Common

  const IPL_NONE: nat := 0
  const IPL_HIGH: nat := 1

  /** The interrupt fields of struct thread, its t_cpu, and thread_switch's local variable spl. */
  class Thread {
    var curspl: nat
    var iplCount: nat
    var saved: nat
    var cpu: Cpu?

    /** thread_create: interrupts are off and that counts once. */
    constructor ()
      ensures curspl == IPL_HIGH && iplCount == 1 && saved == IPL_NONE && cpu == null
    {
      curspl, iplCount, saved, cpu := IPL_HIGH, 1, IPL_NONE, null;
    }
  }

  /** struct spinlock: the lock word and the CPU that holds it. */
  class Spinlock {
    var word: bool
    var holder: Cpu?

    /** spinlock_init */
    constructor ()
      ensures !word && holder == null
    {
      word, holder := false, null;
    }
  }

  /** One CPU with its current thread. */
  class Cpu {
    var irqOff: bool
    var spinlocks: nat
    var cur: Thread
    ghost var held: set<Spinlock>
    ghost var parked: set<Thread>

    /** cpu_create */
    constructor (t: Thread)
      requires t.curspl == IPL_HIGH && t.iplCount == 1 && t.saved <= IPL_HIGH
      modifies t`cpu
      ensures Balanced() && cur == t && held == {} && parked == {}
    {
      irqOff, spinlocks, cur, held, parked := true, 0, t, {}, {};
      new;
      t.cpu := this;
    }

    /** The count is the spinlocks held plus one if t_curspl is high, interrupts are off exactly
        while it is positive, and every thread of this CPU that is not running carries 2. */
    ghost predicate Balanced()
      reads this, cur, held, parked
    {
      && cur.curspl <= IPL_HIGH && cur.saved <= IPL_HIGH
      && cur.iplCount == spinlocks + cur.curspl
      && (irqOff <==> cur.iplCount > 0)
      && spinlocks == |held|
      && (forall l :: l in held ==> l.word && l.holder == this)
      && cur !in parked && cur.cpu == this
      && (forall t :: t in parked ==> t.iplCount == 2 && t.curspl == IPL_HIGH && t.saved <= IPL_HIGH && t.cpu == this)
    }

    /** The parts of Balanced that raising and lowering rely on. */
    ghost predicate Off()
      reads this, cur
    {
      irqOff <==> cur.iplCount > 0
    }

    /** splraise from IPL_NONE to IPL_HIGH */
    method SplRaise()
      requires Off()
      modifies `irqOff, cur`iplCount
      ensures Off() && irqOff && cur.iplCount == old(cur.iplCount) + 1
    {
      if cur.iplCount == 0 {
        irqOff := true;
      }
      cur.iplCount := cur.iplCount + 1;
    }

    /** spllower from IPL_HIGH to IPL_NONE */
    method SplLower()
      requires Off() && cur.iplCount > 0
      modifies `irqOff, cur`iplCount
      ensures Off() && cur.iplCount == old(cur.iplCount) - 1
    {
      cur.iplCount := cur.iplCount - 1;
      if cur.iplCount == 0 {
        irqOff := false;
      }
    }

    /** splx; splhigh is splx(IPL_HIGH) and spl0 is splx(IPL_NONE). */
    method Splx(spl: nat) returns (ret: nat)
      requires Balanced() && spl <= IPL_HIGH
      modifies `irqOff, cur`iplCount, cur`curspl
      ensures Balanced() && ret == old(cur.curspl) && cur.curspl == spl
    {
      if cur.curspl < spl {
        assert cur.curspl == IPL_NONE && spl == IPL_HIGH;
        SplRaise();
        ret := cur.curspl;
        cur.curspl := spl;
      } else if cur.curspl > spl {
        ret := cur.curspl;
        cur.curspl := spl;
        assert ret == IPL_HIGH && spl == IPL_NONE;
        SplLower();
      } else {
        ret := spl;
      }
    }

    /** Only this CPU writes itself into a lock's holder field. */
    ghost predicate Knows(l: Spinlock)
      reads this, l
    {
      l.holder == this ==> l in held
    }

    /** spinlock_acquire, at the moment its test-and-set finds the lock free; false is the panic
        for taking a lock twice. */
    method Acquire(l: Spinlock) returns (ok: bool)
      requires Balanced() && Knows(l) && (l.word ==> l in held)
      modifies `irqOff, `spinlocks, `held, cur`iplCount, l
      ensures irqOff && (ok <==> l !in old(held))
      ensures ok ==> Balanced() && Knows(l) && held == old(held) + {l}
      ensures !ok ==> l.word == old(l.word) && l.holder == old(l.holder)
    {
      SplRaise();
      if l.holder == this {
        return false;
      }
      spinlocks := spinlocks + 1;
      l.word := true;
      l.holder := this;
      held := held + {l};
      ok := true;
    }

    /** spinlock_release; false is the assertion that this CPU holds the lock. */
    method Release(l: Spinlock) returns (ok: bool)
      requires Balanced() && Knows(l)
      modifies `irqOff, `spinlocks, `held, cur`iplCount, l
      ensures Balanced() && Knows(l)
      ensures ok <==> l in old(held)
      ensures held == old(held) - {l} && (ok ==> !l.word)
      ensures !ok ==> l.word == old(l.word) && l.holder == old(l.holder) && cur.iplCount == old(cur.iplCount)
    {
      if l.holder != this {
        return false;
      }
      assert l in held;
      assert spinlocks > 0;
      spinlocks := spinlocks - 1;
      l.holder := null;
      l.word := false;
      held := held - {l};
      SplLower();
      ok := true;
    }

    /** spinlock_do_i_hold */
    method DoIHold(l: Spinlock) returns (b: bool)
      requires Balanced() && Knows(l)
      ensures b <==> l in held
    {
      b := l.holder == this;
    }

    // ---- Threads come and go ----

    /** thread_fork: the new thread will come out of thread_switch holding the run queue lock. */
    method Fork() returns (t: Thread)
      requires Balanced()
      modifies `parked
      ensures Balanced() && fresh(t) && parked == old(parked) + {t}
      ensures t.iplCount == 2
    {
      t := new Thread();
      t.iplCount := t.iplCount + 1;
      t.cpu := this;
      parked := parked + {t};
    }

    /** thread_switch when it returns at once: the CPU is idle, or a yield finds the run queue
        empty. */
    method SwitchNothing(rq: Spinlock, isIdle: bool)
      requires Balanced() && Knows(rq) && rq !in held && !rq.word
      modifies `irqOff, `spinlocks, `held, cur`iplCount, cur`curspl, rq
      ensures Balanced() && Knows(rq) && held == old(held) && cur == old(cur) && !rq.word
      ensures cur.curspl == old(cur.curspl) && cur.iplCount == old(cur.iplCount) && irqOff == old(irqOff)
    {
      var spl := Splx(IPL_HIGH);
      if !isIdle {
        var _ := Acquire(rq);
        var _ := Release(rq);
      }
      var _ := Splx(spl);
    }

    /** thread_switch up to the idle loop: interrupts off, run queue locked, and the lock the
        caller slept with released.  The thread that is about to go carries 2. */
    method SwitchStart(rq: Spinlock, lk: Spinlock?)
      requires Balanced() && Knows(rq) && rq !in held && !rq.word
      requires lk != null ==> lk != rq && Knows(lk)
      requires held == if lk == null then {} else {lk}
      modifies `irqOff, `spinlocks, `held, cur`iplCount, cur`curspl, cur`saved, rq, lk
      ensures Waiting(rq) && cur == old(cur) && cur.saved == old(cur.curspl) && (lk != null ==> !lk.word)
    {
      cur.saved := Splx(IPL_HIGH);
      var _ := Acquire(rq);
      if lk != null {
        var _ := Release(lk);
      }
    }

    /** In the idle loop with the run queue locked: that is the only lock, and it counts for the
        thread that is still current. */
    ghost predicate Waiting(rq: Spinlock)
      reads this, cur, held, parked, rq
    {
      Balanced() && Knows(rq) && held == {rq} && cur.curspl == IPL_HIGH && cur.iplCount == 2 && irqOff
    }

    /** The run queue is empty: it is unlocked for cpu_idle.  Interrupts stay off, because the
        level is high. */
    method IdleUnlock(rq: Spinlock)
      requires Waiting(rq)
      modifies `irqOff, `spinlocks, `held, cur`iplCount, rq
      ensures Balanced() && Knows(rq) && held == {} && !rq.word && cur == old(cur)
      ensures cur.curspl == IPL_HIGH && cur.iplCount == 1 && irqOff
    {
      var _ := Release(rq);
    }

    /** cpu_idle has returned and the run queue is locked again. */
    method IdleLock(rq: Spinlock)
      requires Balanced() && Knows(rq) && held == {} && !rq.word && cur.curspl == IPL_HIGH
      modifies `irqOff, `spinlocks, `held, cur`iplCount, rq
      ensures Waiting(rq) && cur == old(cur)
    {
      var _ := Acquire(rq);
    }

    /** The context switch, to any thread of this CPU: one that has run here, one that has been
        forked or migrated here, or the current thread itself when it has been woken while its
        CPU was idle.  The thread that goes carries 2 and so does the one that comes, so the
        count is right for the lock that is now held on its behalf. */
    method SwitchTo(rq: Spinlock, next: Thread)
      requires Waiting(rq) && (next == cur || next in parked)
      modifies `parked, `cur
      ensures Waiting(rq) && cur == next && parked + {cur} == old(parked) + {old(cur)}
      ensures old(cur).iplCount == 2
    {
      if next != cur {
        parked := parked - {next} + {cur};
        cur := next;
      }
    }

    /** The rest of thread_switch, and the start of thread_startup, on the stack of the thread
        that has come: release the run queue and restore its own priority level. */
    method SwitchIn(rq: Spinlock)
      requires Waiting(rq)
      modifies `irqOff, `spinlocks, `held, cur`iplCount, cur`curspl, rq
      ensures Balanced() && Knows(rq) && held == {} && cur == old(cur) && !rq.word
      ensures cur.curspl == old(cur.saved) && (irqOff <==> cur.curspl == IPL_HIGH)
    {
      var _ := Release(rq);
      var _ := Splx(cur.saved);
    }

    /** A whole thread_switch: queue, idle any number of times, switch, and come out of it on the
        stack of the next thread. */
    method Switch(rq: Spinlock, lk: Spinlock?, idles: nat, next: Thread)
      requires Balanced() && Knows(rq) && rq !in held && !rq.word && (lk != null ==> lk != rq && Knows(lk))
      requires held == (if lk == null then {} else {lk}) && (next == cur || next in parked)
      modifies this, cur, next`iplCount, next`curspl, rq, lk
      ensures Balanced() && Knows(rq) && cur == next && held == {}
      ensures parked + {next} == old(parked) + {old(cur)}
      ensures next != old(cur) ==> old(cur) in parked && next.curspl == old(next.saved)
      ensures next == old(cur) ==> next.curspl == old(next.curspl)
    {
      hide Balanced;
      SwitchStart(rq, lk);
      for k := 0 to idles
        invariant Waiting(rq) && cur == old(cur) && parked == old(parked) && cur.saved == old(cur.curspl)
      {
        IdleUnlock(rq);
        IdleLock(rq);
      }
      SwitchTo(rq, next);
      SwitchIn(rq);
    }
  }

  // ---- Several CPUs ----

  /** Every CPU has its account right. */
  ghost predicate System(cpus: set<Cpu>)
    reads cpus, set c | c in cpus :: c.cur, set c, l | c in cpus && l in c.held :: l
    reads set c, t | c in cpus && t in c.parked :: t
  {
    forall c :: c in cpus ==> c.Balanced()
  }

  /** No thread is on two CPUs and no lock is held by two, since a thread has one t_cpu and a
      lock one holder. */
  lemma Apart(cpus: set<Cpu>, c: Cpu, d: Cpu)
    requires System(cpus) && c in cpus && d in cpus && c != d
    ensures c.cur != d.cur && c.held !! d.held && c.parked !! d.parked && c.cur !in d.parked
  {
  }

  /** thread_consider_migration gives a thread that is not running to another CPU. */
  method Migrate(ghost cpus: set<Cpu>, from: Cpu, to: Cpu, t: Thread)
    requires System(cpus) && from in cpus && to in cpus && from != to && t in from.parked
    modifies t`cpu, from`parked, to`parked
    ensures System(cpus) && t.cpu == to && t.iplCount == old(t.iplCount) == 2
    ensures from.parked == old(from.parked) - {t} && to.parked == old(to.parked) + {t}
  {
    t.cpu := to;
    from.parked := from.parked - {t};
    to.parked := to.parked + {t};
  }

  /** A thread_switch on one CPU leaves every CPU with its account right. */
  method SwitchOne(ghost cpus: set<Cpu>, c: Cpu, rq: Spinlock, lk: Spinlock?, idles: nat, next: Thread)
    requires System(cpus) && c in cpus
    requires c.Knows(rq) && rq !in c.held && !rq.word && (lk != null ==> lk != rq && c.Knows(lk))
    requires c.held == (if lk == null then {} else {lk}) && (next == c.cur || next in c.parked)
    modifies c, c.cur, next, rq, lk
    ensures System(cpus) && c.Knows(rq) && c.cur == next && c.held == {}
    ensures c.parked + {next} == old(c.parked) + {old(c.cur)}
    ensures next != old(c.cur) ==> old(c.cur) in c.parked && next.curspl == old(next.saved)
    ensures next == old(c.cur) ==> next.curspl == old(next.curspl)
  {
    forall d | d in cpus && d != c
      ensures d.cur != c.cur && d.cur != next && c.cur !in d.parked && next !in d.parked
      ensures rq !in d.held && lk !in d.held
    {
      Apart(cpus, d, c);
    }
    c.Switch(rq, lk, idles, next);
  }

  /** A thread that another CPU has given away runs here with its account right. */
  method MigrateAndRun(ghost cpus: set<Cpu>, from: Cpu, to: Cpu, t: Thread, rq: Spinlock)
    requires System(cpus) && from in cpus && to in cpus && from != to && t in from.parked
    requires to.Knows(rq) && !rq.word && to.held == {}
    modifies t, from`parked, to, to.cur, rq
    ensures System(cpus) && to.cur == t && t.curspl == old(t.saved) && t.iplCount == t.curspl
    ensures old(to.cur) in to.parked && old(to.cur).iplCount == 2
  {
    Apart(cpus, from, to);
    Migrate(cpus, from, to, t);
    SwitchOne(cpus, to, rq, null, 0, t);
  }

  // ---- Any sequence of calls ----

  /** A call that a thread can make, with spinlocks by number. */
  datatype Call = SplxTo(spl: nat) | Lock(i: nat) | Unlock(i: nat)

  ghost predicate AllKnown(c: Cpu, locks: seq<Spinlock>)
    reads c, locks
  {
    && (forall i, j :: 0 <= i < j < |locks| ==> locks[i] != locks[j])
    && (forall i :: 0 <= i < |locks| ==> c.Knows(locks[i]) && (locks[i].word ==> locks[i] in c.held))
  }

  /** What a sequence of calls means: the spinlocks held and the priority level at the end, or
      nothing if a lock is taken twice or released without being held. */
  function Meaning(held: set<nat>, spl: nat, calls: seq<Call>): (r: Option<(set<nat>, nat)>)
    decreases |calls|
  {
    if calls == [] then Some((held, spl))
    else
      match calls[0]
      case SplxTo(spl') => Meaning(held, spl', calls[1..])
      case Lock(i) => if i in held then None else Meaning(held + {i}, spl, calls[1..])
      case Unlock(i) => if i in held then Meaning(held - {i}, spl, calls[1..]) else None
  }

  ghost function HeldNumbers(c: Cpu, locks: seq<Spinlock>): (r: set<nat>)
    reads c
  {
    set i: nat | i < |locks| && locks[i] in c.held
  }

  predicate CallOk(call: Call, n: nat)
  {
    match call
    case SplxTo(spl) => spl <= IPL_HIGH
    case Lock(j) => j < n
    case Unlock(j) => j < n
  }

  /** A numbered spinlock is taken. */
  method LockOne(c: Cpu, locks: seq<Spinlock>, j: nat) returns (ok: bool)
    requires c.Balanced() && AllKnown(c, locks) && j < |locks|
    modifies c`irqOff, c`spinlocks, c`held, c.cur`iplCount, locks
    ensures ok <==> j !in old(HeldNumbers(c, locks))
    ensures ok ==> HeldNumbers(c, locks) == old(HeldNumbers(c, locks)) + {j} && c.Balanced() && AllKnown(c, locks)
  {
    hide Cpu.Balanced;
    ok := c.Acquire(locks[j]);
  }

  /** A numbered spinlock is released. */
  method UnlockOne(c: Cpu, locks: seq<Spinlock>, j: nat) returns (ok: bool)
    requires c.Balanced() && AllKnown(c, locks) && j < |locks|
    modifies c`irqOff, c`spinlocks, c`held, c.cur`iplCount, locks
    ensures ok <==> j in old(HeldNumbers(c, locks))
    ensures ok ==> HeldNumbers(c, locks) == old(HeldNumbers(c, locks)) - {j} && c.Balanced() && AllKnown(c, locks)
  {
    hide Cpu.Balanced;
    ok := c.Release(locks[j]);
  }

  /** One call. */
  method PerformOne(c: Cpu, locks: seq<Spinlock>, call: Call) returns (ok: bool)
    requires c.Balanced() && AllKnown(c, locks) && CallOk(call, |locks|)
    modifies c`irqOff, c`spinlocks, c`held, c.cur`iplCount, c.cur`curspl, locks
    ensures var held := old(HeldNumbers(c, locks));
            match call
            case SplxTo(spl) => ok && HeldNumbers(c, locks) == held && c.cur.curspl == spl
            case Lock(j) =>
              && (ok <==> j !in held)
              && (ok ==> HeldNumbers(c, locks) == held + {j} && c.cur.curspl == old(c.cur.curspl))
            case Unlock(j) =>
              && (ok <==> j in held)
              && (ok ==> HeldNumbers(c, locks) == held - {j} && c.cur.curspl == old(c.cur.curspl))
    ensures ok ==> c.Balanced() && AllKnown(c, locks)
  {
    match call
    case SplxTo(spl) =>
      var _ := c.Splx(spl);
      ok := true;
    case Lock(j) =>
      ok := LockOne(c, locks, j);
    case Unlock(j) =>
      ok := UnlockOne(c, locks, j);
  }

  /** Every sequence of splx, spinlock_acquire and spinlock_release calls, nested or not, keeps
      the account: at the end interrupts are off exactly if a spinlock is held or the level is
      high. */
  method Perform(c: Cpu, locks: seq<Spinlock>, calls: seq<Call>) returns (ok: bool)
    requires c.Balanced() && AllKnown(c, locks)
    requires forall i :: 0 <= i < |calls| ==> CallOk(calls[i], |locks|)
    modifies c`irqOff, c`spinlocks, c`held, c.cur`iplCount, c.cur`curspl, locks
    ensures ok <==> old(Meaning(HeldNumbers(c, locks), c.cur.curspl, calls)).Some?
    ensures ok ==>
      && c.Balanced() && AllKnown(c, locks)
      && old(Meaning(HeldNumbers(c, locks), c.cur.curspl, calls)).value == (HeldNumbers(c, locks), c.cur.curspl)
  {
    ghost var m := Meaning(HeldNumbers(c, locks), c.cur.curspl, calls);
    for i := 0 to |calls|
      invariant c.Balanced() && AllKnown(c, locks) && c.cur == old(c.cur)
      invariant m == Meaning(HeldNumbers(c, locks), c.cur.curspl, calls[i..])
    {
      assert calls[i..][0] == calls[i] && calls[i..][1..] == calls[i + 1..];
      hide AllKnown, HeldNumbers;
      ok := PerformOne(c, locks, calls[i]);
      if !ok {
        return;
      }
    }
    assert calls[|calls|..] == [];
    ok := true;
  }
}
