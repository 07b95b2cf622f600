/** What thread_consider_migration does to the run queues while all other CPUs are running: from
    the lengths it saw it computes one share, takes what it has above that from the end of its
    own queue, gives it to CPUs that are below one share, and puts the rest back. */
module ThreadMigration {
  import opened Common
  import opened ThreadSystem
  import opened ThreadSafety
  import opened ThreadSteps
  import opened ThreadForks
  import opened ThreadFrames
  import opened ThreadRuns
  import opened ThreadOrder

  /** The steps that a CPU can take in thread_consider_migration. */
  lemma OwnStep(s: State, st: Step, c: nat)
    requires Inv(s) && c < |s.cpus| && Enabled(s, st) && Actor(st) == c
    ensures var op := s.cpus[c].op;
            && (op.Count? ==> st == Migrating(MigrateCount(c)) || st == Migrating(MigrateDecide(c)))
            && (op.Take? ==> st == Migrating(TakeLock(c)))
            && (op.TakeLocked? ==> st == Migrating(TakeOne(c)) || st == Migrating(TakeDone(c)))
            && (op.Send? ==>
                 st == Migrating(SendLock(c)) || st == Migrating(SendSkip(c)) || st == Migrating(SendDone(c)))
            && (op.SendLocked? ==> st == Migrating(SendOne(c)) || st == Migrating(SendUnlock(c)))
            && (op.Back? ==> st == Migrating(BackLock(c)) || st == Migrating(BackDone(c)))
            && (op.BackLocked? ==> st == Migrating(BackOne(c)) || st == Migrating(BackDone(c)))
  {
    OpAt(s, c);
    hide Inv, List;
  }

  // ---- Counting ----

  function Total(v: seq<nat>): (n: nat)
  {
    if v == [] then 0 else Total(v[..|v| - 1]) + v[|v| - 1]
  }

  /** The lengths of the run queues of CPU 0, CPU 1 and so on as CPU c saw them in steps[a..b], each
      at the moment it looked. */
  function Seen(states: seq<State>, steps: seq<Step>, c: nat, a: nat, b: nat): (v: seq<nat>)
    requires a <= b <= |steps| < |states|
    decreases b
  {
    if a == b then []
    else
      var v := Seen(states, steps, c, a, b - 1);
      if steps[b - 1] == Migrating(MigrateCount(c)) then v + [|List(states[b - 1], Queue(|v|))|] else v
  }

  ghost predicate Counting(s: State, c: nat, v: seq<nat>)
  {
    && c < |s.cpus| && s.cpus[c].op.Count? && s.cpus[c].op.i == |v| <= |s.cpus| && s.cpus[c].op.total == Total(v)
    && s.cpus[c].op.mine == (if c < |v| then v[c] else 0)
  }

  lemma CountStart(s: State, c: nat)
    requires Enabled(s, Migrating(MigrateStart(c)))
    ensures Counting(Apply(s, Migrating(MigrateStart(c))), c, [])
  {
    hide List;
  }

  lemma CountOne(s: State, c: nat, v: seq<nat>)
    requires Counting(s, c, v) && Enabled(s, Migrating(MigrateCount(c)))
    ensures Counting(Apply(s, Migrating(MigrateCount(c))), c, v + [|List(s, Queue(|v|))|])
  {
    hide List;
    var v' := v + [|List(s, Queue(|v|))|];
    assert v'[..|v'| - 1] == v;
  }

  lemma CountStep(s: State, st: Step, c: nat, v: seq<nat>)
    requires Inv(s) && Counting(s, c, v) && Enabled(s, st) && st != Migrating(MigrateDecide(c))
    ensures Counting(Apply(s, st), c, if st == Migrating(MigrateCount(c)) then v + [|List(s, Queue(|v|))|] else v)
  {
    if Actor(st) == c {
      OwnStep(s, st, c);
      CountOne(s, c, v);
    } else {
      hide Inv, Enabled, Apply, List;
      OthersLeave(s, st, c);
    }
  }

  lemma {:induction false} CountRun(states: seq<State>, steps: seq<Step>, i: nat, k: nat, c: nat)
    requires IsRun(states, steps) && i < k <= |steps| < |states| && steps[i] == Migrating(MigrateStart(c))
    requires NoneBetween(steps, i, k, Migrating(MigrateDecide(c)))
    ensures Counting(states[k], c, Seen(states, steps, c, i + 1, k))
    decreases k
  {
    hide IsRun, Inv, Counting, Enabled, Apply, List;
    RunStep(states, steps, k - 1);
    if k == i + 1 {
      CountStart(states[i], c);
    } else {
      CountRun(states, steps, i, k - 1, c);
      RunInv(states, steps, k - 1);
      CountStep(states[k - 1], steps[k - 1], c, Seen(states, steps, c, i + 1, k - 1));
    }
  }

  /** CPU c has decided to give away so many threads, with that many as one share. */
  ghost predicate Planned(s: State, c: nat, excess: nat, share: nat)
  {
    c < |s.cpus| && s.cpus[c].op == Take(excess, share)
  }

  /** One share is the average length of the queues as they were seen, rounded up.  With less than
      that the CPU is done. */
  lemma Decides(states: seq<State>, steps: seq<Step>, i: nat, j: nat, c: nat) returns (share: nat)
    requires IsRun(states, steps) && i < |steps| < |states| && steps[i] == Migrating(MigrateStart(c))
    requires NextAt(steps, i, j, Migrating(MigrateDecide(c)))
    ensures var v, n := Seen(states, steps, c, i + 1, j), |states[j].cpus|;
            && |v| == n == |states[j + 1].cpus| && c < n && Total(v) <= share * n < Total(v) + n
            && (v[c] < share ==> states[j + 1].cpus[c].op == NoOp)
            && (v[c] >= share ==> Planned(states[j + 1], c, v[c] - share, share))
  {
    hide IsRun, Enabled, Apply, List, Seen, Total, Counting;
    CountRun(states, steps, i, j, c);
    RunStep(states, steps, j);
    share := DecideStep(states[j], c, Seen(states, steps, c, i + 1, j));
  }

  lemma DecideStep(s: State, c: nat, v: seq<nat>) returns (share: nat)
    requires Counting(s, c, v) && Enabled(s, Migrating(MigrateDecide(c)))
    ensures var s', n := Apply(s, Migrating(MigrateDecide(c))), |s.cpus|;
            && |v| == n == |s'.cpus| && c < n && Total(v) <= share * n < Total(v) + n
            && (v[c] < share ==> s'.cpus[c].op == NoOp)
            && (v[c] >= share ==> Planned(s', c, v[c] - share, share))
  {
    hide List, Total;
    share := OneShare(Total(v), |s.cpus|);
    Rounded(Total(v), |s.cpus|);
    hide OneShare;
  }

  lemma Rounded(a: nat, b: nat)
    requires b > 0
    ensures a <= OneShare(a, b) * b < a + b
  {
    var q := (a + b - 1) / b;
    assert q * b + (a + b - 1) % b == a + b - 1;
  }

  // ---- Taking victims ----

  lemma PlanStep(s: State, st: Step, c: nat, excess: nat, share: nat)
    requires Inv(s) && Planned(s, c, excess, share) && Enabled(s, st) && st != Migrating(TakeLock(c))
    ensures Planned(Apply(s, st), c, excess, share)
  {
    if Actor(st) == c {
      OwnStep(s, st, c);
    } else {
      hide Inv, Enabled, Apply, List;
      OthersLeave(s, st, c);
    }
  }

  lemma {:induction false} PlanRun(states: seq<State>, steps: seq<Step>, j: nat, k: nat, c: nat, excess: nat,
                                   share: nat)
    requires IsRun(states, steps) && j < k <= |steps| < |states| && Planned(states[j + 1], c, excess, share)
    requires NoneBetween(steps, j, k, Migrating(TakeLock(c)))
    ensures Planned(states[k], c, excess, share)
    decreases k
  {
    hide IsRun, Inv, Enabled, Apply, List, Planned;
    if k > j + 1 {
      PlanRun(states, steps, j, k - 1, c, excess, share);
      RunStep(states, steps, k - 1);
      RunInv(states, steps, k - 1);
      PlanStep(states[k - 1], steps[k - 1], c, excess, share);
    }
  }

  /** CPU c has its own queue locked, which held q, and has taken some threads from its end. */
  ghost predicate Taking(s: State, c: nat, excess: nat, share: nat, q: seq<nat>)
  {
    && c < |s.cpus| && s.cpus[c].op.TakeLocked? && s.cpus[c].op.left == excess && s.cpus[c].op.share == share
    && s.cpus[c].op.taken == |List(s, Hand(c))| && List(s, Queue(c)) + List(s, Hand(c)) == q
  }

  lemma TakeStart(s: State, c: nat, excess: nat, share: nat)
    requires Inv(s) && Planned(s, c, excess, share) && Enabled(s, Migrating(TakeLock(c)))
    ensures Taking(Apply(s, Migrating(TakeLock(c))), c, excess, share, List(s, Queue(c)))
  {
    InvAt(s, c);
    hide Inv;
  }

  lemma TakeVictim(s: State, c: nat, excess: nat, share: nat, q: seq<nat>)
    requires Taking(s, c, excess, share, q) && CanTakeOne(s, c)
    ensures Taking(DoTakeOne(s, c), c, excess, share, q)
  {
    var l, h := List(s, Queue(c)), List(s, Hand(c));
    assert l[..|l| - 1] + ([l[|l| - 1]] + h) == l + h;
  }

  lemma TakeStep(s: State, st: Step, c: nat, excess: nat, share: nat, q: seq<nat>)
    requires Inv(s) && Taking(s, c, excess, share, q) && Enabled(s, st) && st != Migrating(TakeDone(c))
    ensures Taking(Apply(s, st), c, excess, share, q)
  {
    if Actor(st) == c {
      OwnStep(s, st, c);
      hide Inv;
      TakeVictim(s, c, excess, share, q);
    } else {
      assert c in RqHeld(s.cpus[c], c);
      hide Inv, Enabled, Apply, List, RqHeld;
      OthersLeave(s, st, c);
      LockProtects(s, st, c, c);
    }
  }

  lemma {:induction false} TakeRun(states: seq<State>, steps: seq<Step>, m: nat, k: nat, c: nat, excess: nat,
                                   share: nat)
    requires IsRun(states, steps) && m < k <= |steps| < |states| && Planned(states[m], c, excess, share)
    requires steps[m] == Migrating(TakeLock(c)) && NoneBetween(steps, m, k, Migrating(TakeDone(c)))
    ensures Taking(states[k], c, excess, share, List(states[m], Queue(c)))
    decreases k
  {
    hide IsRun, Inv, Enabled, Apply, List, Planned, Taking;
    RunStep(states, steps, k - 1);
    RunInv(states, steps, k - 1);
    if k == m + 1 {
      TakeStart(states[m], c, excess, share);
    } else {
      TakeRun(states, steps, m, k - 1, c, excess, share);
      TakeStep(states[k - 1], steps[k - 1], c, excess, share, List(states[m], Queue(c)));
    }
  }

  // ---- Sending them ----

  /** How many turns of the sending loop CPU c makes in steps[a..b]. */
  function Turns(steps: seq<Step>, c: nat, a: nat, b: nat): (n: nat)
    requires a <= b <= |steps|
    decreases b
  {
    if a == b then 0 else Turns(steps, c, a, b - 1) + (if steps[b - 1] == Migrating(SendOne(c)) then 1 else 0)
  }

  /** At some point in states[a..b] the queue of CPU r is at one share. */
  ghost predicate FullAt(states: seq<State>, a: nat, b: nat, r: nat, share: nat)
  {
    exists n :: a <= n < b <= |states| && |List(states[n], Queue(r))| >= share
  }

  /** The CPUs below i, other than c, had all reached one share. */
  ghost predicate Passed(states: seq<State>, a: nat, b: nat, c: nat, i: nat, share: nat)
  {
    forall r :: 0 <= r < i && r != c ==> FullAt(states, a, b, r, share)
  }

  /** CPU c is in the sending loop: so many threads of its plan are left, and if any are, it has
      come past full queues only. */
  ghost predicate Sending(states: seq<State>, a: nat, k: nat, c: nat, left: nat, share: nat)
  {
    && k < |states| && c < |states[k].cpus|
    && var op := states[k].cpus[c].op;
       && (op.Send? || op.SendLocked?) && op.left == left && op.share == share
       && (left > 0 ==> Passed(states, a, k + 1, c, op.i, share))
  }

  /** One turn of the sending loop: the first thread in hand goes to a CPU with less than one share
      and belongs to it from then on, or it is the current thread and goes behind the others. */
  ghost predicate TurnTaken(s: State, s': State, c: nat, share: nat)
  {
    && c < |s.cpus| && List(s, Hand(c)) != []
    && var hand := List(s, Hand(c));
       if hand[0] == s.cpus[c].cur then
         List(s', Hand(c)) == hand[1..] + [hand[0]] && forall r :: List(s', Queue(r)) == List(s, Queue(r))
       else
         && List(s', Hand(c)) == hand[1..]
         && exists r :: r != c && GoesTo(s, s', hand[0], r, share)
  }

  ghost predicate GoesTo(s: State, s': State, t: nat, r: nat, share: nat)
  {
    && |List(s, Queue(r))| < share && List(s', Queue(r)) == List(s, Queue(r)) + [t]
    && t in s'.threads && s'.threads[t].cpu == r
    && forall x :: x != r ==> List(s', Queue(x)) == List(s, Queue(x))
  }

  lemma TurnIs(s: State, c: nat)
    requires Inv(s) && CanSendOne(s, c)
    ensures TurnTaken(s, DoSendOne(s, c), c, s.cpus[c].op.share)
  {
    InvAt(s, c);
    hide Inv, Lists, AllThreads, RqLocks, LkLocks, CurOk;
    if Head(s, Hand(c)) != s.cpus[c].cur {
      TurnMigrates(s, c);
    }
  }

  lemma TurnMigrates(s: State, c: nat)
    requires CanSendOne(s, c) && s.cpus[c].op.i != c
    ensures List(DoMigrate(s, c), Hand(c)) == List(s, Hand(c))[1..]
    ensures GoesTo(s, DoMigrate(s, c), List(s, Hand(c))[0], s.cpus[c].op.i, s.cpus[c].op.share)
  {
  }

  lemma PassedLater(states: seq<State>, a: nat, b: nat, b': nat, c: nat, i: nat, share: nat)
    requires Passed(states, a, b, c, i, share) && b <= b' <= |states|
    ensures Passed(states, a, b', c, i, share)
  {
    hide List;
    forall r | 0 <= r < i && r != c ensures FullAt(states, a, b', r, share) {
      assert FullAt(states, a, b, r, share);
    }
  }

  /** What the CPU's own step does to its place in the loop. */
  lemma SendOwn(s: State, st: Step, c: nat)
    requires Inv(s) && c < |s.cpus| && (s.cpus[c].op.Send? || s.cpus[c].op.SendLocked?)
    requires Enabled(s, st) && Actor(st) == c && st != Migrating(SendDone(c))
    ensures var op, s' := s.cpus[c].op, Apply(s, st);
            && c < |s'.cpus| && (s'.cpus[c].op.Send? || s'.cpus[c].op.SendLocked?) && s'.cpus[c].op.share == op.share
            && (st == Migrating(SendOne(c)) ==>
                  op.left > 0 && s'.cpus[c].op.left == op.left - 1 && s'.cpus[c].op.i == op.i)
            && (st != Migrating(SendOne(c)) ==> s'.cpus[c].op.left == op.left)
            && (s'.cpus[c].op.i == op.i || (s'.cpus[c].op.i == op.i + 1
                 && (op.left > 0 ==> op.i == c || |List(s, Queue(op.i))| >= op.share)))
  {
    OwnStep(s, st, c);
    hide Inv;
    if st == Migrating(SendOne(c)) {
      SendsOne(s, c);
      OneMore(s, c);
    } else {
      hide List;
    }
  }

  lemma OneMore(s: State, c: nat)
    requires CanSendOne(s, c)
    ensures DoSendOne(s, c).cpus[c].op == SendLocked(s.cpus[c].op.i, s.cpus[c].op.left - 1, s.cpus[c].op.share)
  {
    hide List;
  }

  lemma SendStep(states: seq<State>, st: Step, a: nat, k: nat, c: nat, left: nat, share: nat)
    requires a <= k && k + 1 < |states| && Inv(states[k]) && Sending(states, a, k, c, left, share)
    requires Enabled(states[k], st) && states[k + 1] == Apply(states[k], st) && st != Migrating(SendDone(c))
    ensures st == Migrating(SendOne(c)) ==> left > 0
    ensures Sending(states, a, k + 1, c, if st == Migrating(SendOne(c)) then left - 1 else left, share)
  {
    hide Inv, Enabled, Apply, List, Passed;
    var op := states[k].cpus[c].op;
    if Actor(st) == c {
      SendOwn(states[k], st, c);
    } else {
      OthersLeave(states[k], st, c);
    }
    if left > 0 {
      PassedLater(states, a, k + 1, k + 2, c, op.i, share);
      PassedOne(states, a, k, c, op.i, share);
    }
  }

  lemma PassedOne(states: seq<State>, a: nat, k: nat, c: nat, i: nat, share: nat)
    requires a <= k && k + 1 < |states| && Passed(states, a, k + 2, c, i, share)
    ensures i == c || |List(states[k], Queue(i))| >= share ==> Passed(states, a, k + 2, c, i + 1, share)
  {
    hide List;
    if i == c || |List(states[k], Queue(i))| >= share {
      var b := k + 2;
      forall r | 0 <= r < i + 1 && r != c ensures FullAt(states, a, b, r, share) {
        assert r < i ==> FullAt(states, a, b, r, share);
      }
    }
  }

  lemma {:induction false} SendRun(states: seq<State>, steps: seq<Step>, k: nat, e: nat, c: nat, excess: nat,
                                   share: nat)
    requires IsRun(states, steps) && k < e <= |steps| < |states| && Sending(states, k + 1, k + 1, c, excess, share)
    requires NoneBetween(steps, k, e, Migrating(SendDone(c)))
    ensures Turns(steps, c, k + 1, e) <= excess
    ensures Sending(states, k + 1, e, c, excess - Turns(steps, c, k + 1, e), share)
    decreases e
  {
    hide IsRun, Inv, Enabled, Apply, List, Sending;
    if e > k + 1 {
      SendRun(states, steps, k, e - 1, c, excess, share);
      RunStep(states, steps, e - 1);
      RunInv(states, steps, e - 1);
      SendStep(states, steps[e - 1], k + 1, e - 1, c, excess - Turns(steps, c, k + 1, e - 1), share);
    }
  }

  lemma TakeEnd(states: seq<State>, k: nat, c: nat, excess: nat, share: nat, q: seq<nat>)
    requires k + 1 < |states| && Taking(states[k], c, excess, share, q) && Enabled(states[k], Migrating(TakeDone(c)))
    requires states[k + 1] == Apply(states[k], Migrating(TakeDone(c)))
    ensures excess <= |q|
    ensures List(states[k + 1], Hand(c)) == q[|q| - excess..] && List(states[k + 1], Queue(c)) == q[..|q| - excess]
    ensures Sending(states, k + 1, k + 1, c, excess, share)
  {
    assert states[k + 1].lists == states[k].lists;
  }

  lemma SendEnd(states: seq<State>, a: nat, e: nat, c: nat, left: nat, share: nat)
    requires Sending(states, a, e, c, left, share) && Enabled(states[e], Migrating(SendDone(c)))
    ensures left == 0 || Passed(states, a, e + 1, c, |states[e].cpus|, share)
  {
    hide List;
  }

  // ---- The whole of it ----

  /** The points that CPU c comes past when it has threads to give away: it begins, decides, locks
      its own queue, has the victims, and has done with sending. */
  ghost predicate Comes(steps: seq<Step>, i: nat, j: nat, m: nat, k: nat, e: nat, c: nat)
  {
    && i < |steps| && steps[i] == Migrating(MigrateStart(c)) && NextAt(steps, i, j, Migrating(MigrateDecide(c)))
    && NextAt(steps, j, m, Migrating(TakeLock(c))) && NoneBetween(steps, j, m, Migrating(MigrateStart(c)))
    && NextAt(steps, m, k, Migrating(TakeDone(c))) && NextAt(steps, k, e, Migrating(SendDone(c)))
  }

  /** While all other CPUs are running: the victims are the end of the own queue, as many as the
      queue was seen to be above one share; in each turn one of them goes to a CPU below one share;
      and the CPU stops only after as many turns, or once every other CPU has been seen at one
      share. */
  lemma MigratesExcess(states: seq<State>, steps: seq<Step>, i: nat, j: nat, m: nat, k: nat, e: nat, c: nat)
    returns (share: nat)
    requires IsRun(states, steps) && |steps| < |states| && Comes(steps, i, j, m, k, e, c)
    ensures var v, n := Seen(states, steps, c, i + 1, j), |states[j].cpus|;
            |v| == n && c < n && Total(v) <= share * n < Total(v) + n && v[c] >= share
    ensures var excess, q := Seen(states, steps, c, i + 1, j)[c] - share, List(states[m], Queue(c));
            && excess <= |q| && List(states[k + 1], Hand(c)) == q[|q| - excess..]
            && List(states[k + 1], Queue(c)) == q[..|q| - excess]
            && Turns(steps, c, k + 1, e) <= excess
            && (forall x :: k < x < e && steps[x] == Migrating(SendOne(c)) ==>
                  TurnTaken(states[x], states[x + 1], c, share))
            && (Turns(steps, c, k + 1, e) < excess ==> Passed(states, k + 1, e + 1, c, |states[e].cpus|, share))
  {
    hide IsRun, Inv, Enabled, Apply, List, Seen, Total, Planned, Taking, Sending, Turns, TurnTaken, Passed;
    share := Decides(states, steps, i, j, c);
    var v := Seen(states, steps, c, i + 1, j);
    if v[c] < share {
      DoneRun(states, steps, j, m, c);
      RunStep(states, steps, m);
      NotTaking(states[m], c);
    }
    var excess := v[c] - share;
    PlanRun(states, steps, j, m, c, excess, share);
    TakeRun(states, steps, m, k, c, excess, share);
    RunStep(states, steps, k);
    TakeEnd(states, k, c, excess, share, List(states[m], Queue(c)));
    SendRun(states, steps, k, e, c, excess, share);
    RunStep(states, steps, e);
    SendEnd(states, k + 1, e, c, excess - Turns(steps, c, k + 1, e), share);
    forall x | k < x < e && steps[x] == Migrating(SendOne(c)) ensures TurnTaken(states[x], states[x + 1], c, share) {
      SendRun(states, steps, k, x, c, excess, share);
      RunStep(states, steps, x);
      RunInv(states, steps, x);
      TurnAt(states, k + 1, x, c, excess - Turns(steps, c, k + 1, x), share);
    }
  }

  lemma TurnAt(states: seq<State>, a: nat, x: nat, c: nat, left: nat, share: nat)
    requires x + 1 < |states| && Inv(states[x]) && Sending(states, a, x, c, left, share)
    requires Enabled(states[x], Migrating(SendOne(c))) && states[x + 1] == Apply(states[x], Migrating(SendOne(c)))
    ensures TurnTaken(states[x], states[x + 1], c, share)
  {
    hide Inv, TurnTaken, Passed;
    TurnIs(states[x], c);
  }

  /** CPU c is not in thread_consider_migration. */
  ghost predicate NotIn(s: State, c: nat)
  {
    c < |s.cpus| && (s.cpus[c].op == NoOp || s.cpus[c].op.Grab? || s.cpus[c].op.Put? || s.cpus[c].op.PutWait?
                     || s.cpus[c].op.PutLocked?)
  }

  lemma NotInStep(s: State, st: Step, c: nat)
    requires NotIn(s, c) && Enabled(s, st) && st != Migrating(MigrateStart(c))
    ensures NotIn(Apply(s, st), c)
  {
    if Actor(st) != c {
      hide Enabled, Apply, List;
      OthersLeave(s, st, c);
    } else {
      hide NotIn, List, DoSwitchStep, DoWakeStep, DoMigrateStep, CanSwitch, CanWake, CanMigrate;
      match st
      case Switching(sw) => NotInSwitch(s, sw, c);
      case Waking(wk) => NotInWake(s, wk, c);
      case Migrating(mg) => NotInMigrate(s, mg, c);
    }
  }

  lemma NotInSwitch(s: State, st: SwitchStep, c: nat)
    requires NotIn(s, c) && CanSwitch(s, st) && st.c == c
    ensures NotIn(DoSwitchStep(s, st), c)
  {
    hide List;
  }

  lemma NotInWake(s: State, st: WakeStep, c: nat)
    requires NotIn(s, c) && CanWake(s, st) && st.c == c
    ensures NotIn(DoWakeStep(s, st), c)
  {
    hide List;
  }

  lemma NotInMigrate(s: State, st: MigrateStep, c: nat)
    requires NotIn(s, c) && CanMigrate(s, st) && st.c == c
    ensures st == MigrateStart(c)
  {
    hide List, DoMigrateStep;
  }

  lemma {:induction false} DoneRun(states: seq<State>, steps: seq<Step>, j: nat, k: nat, c: nat)
    requires IsRun(states, steps) && j < k <= |steps| < |states| && NotIn(states[j + 1], c)
    requires NoneBetween(steps, j, k, Migrating(MigrateStart(c)))
    ensures NotIn(states[k], c)
    decreases k
  {
    hide IsRun, Enabled, Apply, NotIn;
    if k > j + 1 {
      DoneRun(states, steps, j, k - 1, c);
      RunStep(states, steps, k - 1);
      NotInStep(states[k - 1], steps[k - 1], c);
    }
  }

  lemma NotTaking(s: State, c: nat)
    requires NotIn(s, c)
    ensures !Enabled(s, Migrating(TakeLock(c)))
  {
  }

  // ---- Leftovers ----

  /** CPU c puts threads back: those it has put back are behind q, the others are in its hands. */
  ghost predicate PuttingBack(s: State, c: nat, q: seq<nat>)
  {
    c < |s.cpus| && s.cpus[c].op.BackLocked? && List(s, Queue(c)) + List(s, Hand(c)) == q
  }

  lemma BackStart(s: State, c: nat)
    requires Enabled(s, Migrating(BackLock(c)))
    ensures PuttingBack(Apply(s, Migrating(BackLock(c))), c, List(s, Queue(c)) + List(s, Hand(c)))
  {
  }

  lemma BackThread(s: State, c: nat, q: seq<nat>)
    requires PuttingBack(s, c, q) && CanBackOne(s, c)
    ensures PuttingBack(DoBackOne(s, c), c, q)
  {
    var l, h := List(s, Queue(c)), List(s, Hand(c));
    assert (l + [h[0]]) + h[1..] == l + h;
  }

  lemma BackStep(s: State, st: Step, c: nat, q: seq<nat>)
    requires Inv(s) && PuttingBack(s, c, q) && Enabled(s, st) && st != Migrating(BackDone(c))
    ensures PuttingBack(Apply(s, st), c, q)
  {
    if Actor(st) == c {
      OwnStep(s, st, c);
      hide Inv;
      BackThread(s, c, q);
    } else {
      assert c in RqHeld(s.cpus[c], c);
      hide Inv, Enabled, Apply, List, RqHeld;
      OthersLeave(s, st, c);
      LockProtects(s, st, c, c);
    }
  }

  lemma {:induction false} BackRun(states: seq<State>, steps: seq<Step>, g: nat, k: nat, c: nat)
    requires IsRun(states, steps) && g < k <= |steps| < |states| && steps[g] == Migrating(BackLock(c))
    requires NoneBetween(steps, g, k, Migrating(BackDone(c)))
    ensures PuttingBack(states[k], c, List(states[g], Queue(c)) + List(states[g], Hand(c)))
    decreases k
  {
    hide IsRun, Inv, Enabled, Apply, List, PuttingBack;
    RunStep(states, steps, k - 1);
    if k == g + 1 {
      BackStart(states[g], c);
    } else {
      BackRun(states, steps, g, k - 1, c);
      RunInv(states, steps, k - 1);
      BackStep(states[k - 1], steps[k - 1], c, List(states[g], Queue(c)) + List(states[g], Hand(c)));
    }
  }

  /** The victims that nobody took go back to the end of the own queue, in order, and none is
      left. */
  lemma PutsBack(states: seq<State>, steps: seq<Step>, g: nat, f: nat, c: nat)
    requires IsRun(states, steps) && g < |steps| < |states| && steps[g] == Migrating(BackLock(c))
    requires NextAt(steps, g, f, Migrating(BackDone(c)))
    ensures List(states[f + 1], Queue(c)) == List(states[g], Queue(c)) + List(states[g], Hand(c))
    ensures List(states[f + 1], Hand(c)) == []
  {
    hide IsRun;
    BackRun(states, steps, g, f, c);
    RunStep(states, steps, f);
    assert states[f + 1].lists == states[f].lists;
  }
}
