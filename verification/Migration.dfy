/** thread_consider_migration of kern/thread/thread.c when nothing else touches the run queues
    while it works. */
module Migration {
  import opened Common
  import Words

  // ---- Counting ----

  /** Number of threads on the first i run queues. */
  function Total(queues: seq<seq<nat>>, i: nat): (n: nat)
    requires i <= |queues|
  {
    if i == 0 then 0 else Total(queues, i - 1) + |queues[i - 1]|
  }

  /** DIVROUNDUP */
  function DivRoundUp(a: nat, b: nat): (r: nat)
    requires b > 0
    ensures a <= r * b < a + b
  {
    Words.DivMod(a + b - 1, b);
    (a + b - 1) / b
  }

  /** How many threads the CPUs from i on, other than me, can take before they are at one
      share. */
  function Room(queues: seq<seq<nat>>, me: nat, share: nat, i: nat): (n: nat)
    requires i <= |queues|
    decreases |queues| - i
  {
    if i == |queues| then 0
    else (if i != me && |queues[i]| < share then share - |queues[i]| else 0) + Room(queues, me, share, i + 1)
  }

  /** All threads on all run queues. */
  function Items(queues: seq<seq<nat>>): (m: multiset<nat>)
  {
    if queues == [] then multiset{} else multiset(queues[0]) + Items(queues[1..])
  }

  lemma Regroup(a: multiset<nat>, t: multiset<nat>, t': multiset<nat>, x: multiset<nat>, y: multiset<nat>)
    requires t' + x == t + y
    ensures a + t' + x == a + t + y
  {
    assert a + t' + x == a + (t' + x);
    assert a + t + y == a + (t + y);
  }

  lemma {:induction false} ItemsUpdate(queues: seq<seq<nat>>, i: nat, l: seq<nat>)
    requires i < |queues|
    ensures Items(queues[i := l]) + multiset(queues[i]) == Items(queues) + multiset(l)
  {
    if i == 0 {
      assert queues[0 := l][1..] == queues[1..];
    } else {
      assert queues[i := l][1..] == queues[1..][i - 1 := l];
      ItemsUpdate(queues[1..], i - 1, l);
      Regroup(multiset(queues[0]), Items(queues[1..]), Items(queues[1..][i - 1 := l]),
              multiset(queues[i]), multiset(l));
    }
  }

  /** The room from i on does not depend on the queues before i or on the queue of me. */
  lemma {:induction false} RoomFrame(q: seq<seq<nat>>, q': seq<seq<nat>>, me: nat, share: nat, i: nat)
    requires i <= |q| == |q'| && forall c :: i <= c < |q| && c != me ==> q'[c] == q[c]
    ensures Room(q', me, share, i) == Room(q, me, share, i)
    decreases |q| - i
  {
    if i < |q| {
      RoomFrame(q, q', me, share, i + 1);
    }
  }

  /** The other CPUs have room for everything above one share: with n CPUs, n shares hold all
      the threads. */
  lemma {:induction false} RoomFrom(queues: seq<seq<nat>>, me: nat, share: nat, i: nat)
    requires i <= |queues|
    ensures Room(queues, me, share, i) + Total(queues, |queues|) + (if i <= me < |queues| then share else 0)
         >= Total(queues, i) + share * (|queues| - i) + (if i <= me < |queues| then |queues[me]| else 0)
    decreases |queues| - i
  {
    if i < |queues| {
      RoomFrom(queues, me, share, i + 1);
      assert Total(queues, i + 1) == Total(queues, i) + |queues[i]|;
      assert share * (|queues| - i) == share * (|queues| - (i + 1)) + share;
    }
  }

  lemma RoomEnough(queues: seq<seq<nat>>, me: nat, share: nat)
    requires me < |queues| && Total(queues, |queues|) <= share * |queues|
    ensures Room(queues, me, share, 0) + share >= |queues[me]|
  {
    RoomFrom(queues, me, share, 0);
  }

  // ---- The victims ----

  /** The victims that are left when the first k have been looked at: the current thread was
      moved to the end. */
  function Left(victims: seq<nat>, k: nat, cur: nat): (l: seq<nat>)
    requires k <= |victims|
  {
    victims[k..] + (if cur in victims[..k] then [cur] else [])
  }

  lemma LeftStep(victims: seq<nat>, k: nat, cur: nat)
    requires k < |victims| && NoDup(victims)
    ensures Left(victims, k, cur) != [] && Left(victims, k, cur)[0] == victims[k]
    ensures Left(victims, k + 1, cur) == Left(victims, k, cur)[1..] + (if victims[k] == cur then [cur] else [])
  {
    assert victims[..k + 1] == victims[..k] + [victims[k]];
  }

  /** A CPU's run queue after it received threads: what it had, then what it got; it was filled
      to one share at most. */
  predicate Received(before: seq<nat>, after: seq<nat>, share: nat)
  {
    before <= after && (after == before || |after| <= share)
  }

  /** A thread that CPU c got is among the victims looked at, is not the current thread, and has
      t_cpu set to c. */
  predicate SentTo(before: seq<nat>, after: seq<nat>, cpu: map<nat, nat>, cur: nat, done: seq<nat>, c: nat, t: nat)
  {
    t in after && t !in before ==> t != cur && t in done && t in cpu && cpu[t] == c
  }

  ghost predicate Sent(queues: seq<seq<nat>>, q: seq<seq<nat>>, cpu: map<nat, nat>, me: nat, cur: nat, done: seq<nat>)
    requires |q| == |queues|
  {
    forall c: nat, t: nat :: c < |q| && c != me ==> SentTo(queues[c], q[c], cpu, cur, done, c, t)
  }

  /** What is true between two threads of the sending loop. */
  ghost predicate Sending(queues: seq<seq<nat>>, q: seq<seq<nat>>, cpu: map<nat, nat>, me: nat, cur: nat, share: nat,
                          victims: seq<nat>, left: seq<nat>, k: nat)
    requires me < |queues|
  {
    && |q| == |queues| && k <= |victims| && left == Left(victims, k, cur)
    && Items(q) + multiset(left) == Items(queues)
    && share <= |queues[me]| && q[me] == queues[me][..share] && victims == queues[me][share..]
    && (forall c :: 0 <= c < |q| && c != me ==> Received(queues[c], q[c], share))
    && Sent(queues, q, cpu, me, cur, victims[..k])
  }

  lemma SendCurrent(queues: seq<seq<nat>>, q: seq<seq<nat>>, cpu: map<nat, nat>, me: nat, cur: nat, share: nat,
                    victims: seq<nat>, left: seq<nat>, k: nat)
    requires me < |queues| && Sending(queues, q, cpu, me, cur, share, victims, left, k)
    requires NoDup(victims) && k < |victims| && victims[k] == cur
    ensures left != [] && left[0] == cur
    ensures Sending(queues, q, cpu, me, cur, share, victims, left[1..] + [cur], k + 1)
  {
    LeftStep(victims, k, cur);
    assert left == [cur] + left[1..];
    assert multiset(left) == multiset(left[1..] + [cur]);
    assert victims[..k + 1] == victims[..k] + [cur];
    hide Left, Items, Received, NoDup, Sent;
    SentGrow(queues, q, cpu, me, cur, victims[..k], cur);
  }

  lemma SentGrow(queues: seq<seq<nat>>, q: seq<seq<nat>>, cpu: map<nat, nat>, me: nat, cur: nat, done: seq<nat>, t: nat)
    requires |q| == |queues| && Sent(queues, q, cpu, me, cur, done)
    ensures Sent(queues, q, cpu, me, cur, done + [t])
  {
    forall c: nat, x: nat | c < |q| && c != me ensures SentTo(queues[c], q[c], cpu, cur, done + [t], c, x) {
      assert SentTo(queues[c], q[c], cpu, cur, done, c, x);
    }
  }

  lemma SentOne(queues: seq<seq<nat>>, q: seq<seq<nat>>, cpu: map<nat, nat>, me: nat, cur: nat, done: seq<nat>,
                i: nat, t: nat)
    requires |q| == |queues| && Sent(queues, q, cpu, me, cur, done) && i < |q| && i != me && t !in done && t != cur
    ensures Sent(queues, q[i := q[i] + [t]], cpu[t := i], me, cur, done + [t])
  {
    var q', cpu' := q[i := q[i] + [t]], cpu[t := i];
    forall c: nat, x: nat | c < |q'| && c != me ensures SentTo(queues[c], q'[c], cpu', cur, done + [t], c, x) {
      assert SentTo(queues[c], q[c], cpu, cur, done, c, x);
    }
  }

  lemma SendOther(queues: seq<seq<nat>>, q: seq<seq<nat>>, cpu: map<nat, nat>, me: nat, cur: nat, share: nat,
                  victims: seq<nat>, left: seq<nat>, k: nat, i: nat)
    requires me < |queues| && Sending(queues, q, cpu, me, cur, share, victims, left, k)
    requires NoDup(victims) && k < |victims| && victims[k] != cur
    requires i < |queues| && i != me && |q[i]| < share
    ensures left != [] && left[0] == victims[k]
    ensures Sending(queues, q[i := q[i] + [victims[k]]], cpu[victims[k] := i], me, cur, share, victims,
                    left[1..], k + 1)
  {
    var t := victims[k];
    LeftStep(victims, k, cur);
    assert left == [t] + left[1..];
    SendItems(queues, q, left, i);
    assert victims[..k + 1] == victims[..k] + [t] && t !in victims[..k];
    hide Left, Items, NoDup, Sent;
    SentOne(queues, q, cpu, me, cur, victims[..k], i, t);
  }

  lemma SendItems(queues: seq<seq<nat>>, q: seq<seq<nat>>, left: seq<nat>, i: nat)
    requires i < |q| && left != [] && Items(q) + multiset(left) == Items(queues)
    ensures Items(q[i := q[i] + [left[0]]]) + multiset(left[1..]) == Items(queues)
  {
    var t := left[0];
    ItemsAppend(q, i, [t]);
    assert left == [t] + left[1..];
    assert multiset(left) == multiset{t} + multiset(left[1..]);
    assert Items(q[i := q[i] + [t]]) == Items(q) + multiset{t};
  }

  lemma ItemsAppend(q: seq<seq<nat>>, i: nat, l: seq<nat>)
    requires i < |q|
    ensures Items(q[i := q[i] + l]) == Items(q) + multiset(l)
  {
    ItemsUpdate(q, i, q[i] + l);
    hide Items;
    Cancel(Items(q), Items(q[i := q[i] + l]), multiset(q[i]), multiset(l));
  }

  lemma Cancel(a: multiset<nat>, b: multiset<nat>, x: multiset<nat>, y: multiset<nat>)
    requires a + (x + y) == b + x
    ensures a + y == b
  {
    forall t ensures (a + y)[t] == b[t] {
      assert (a + (x + y))[t] == (b + x)[t];
    }
  }

  // ---- The operation ----

  /** What thread_consider_migration leaves behind. */
  ghost predicate Migrated(queues: seq<seq<nat>>, q: seq<seq<nat>>, cpuOf: map<nat, nat>, cpu: map<nat, nat>, me: nat,
                           cur: nat)
    requires me < |queues|
  {
    var share := DivRoundUp(Total(queues, |queues|), |queues|);
    if |queues[me]| < share then q == queues && cpu == cpuOf
    else
      var victims := queues[me][share..];
      && |q| == |queues| && Items(q) == Items(queues)
      && q[me] == queues[me][..share] + (if cur in victims then [cur] else [])
      && (forall c :: 0 <= c < |q| && c != me ==> Received(queues[c], q[c], share))
      && Sent(queues, q, cpu, me, cur, victims) && Unsent(cpuOf, cpu, cur, victims)
  }

  /** t_cpu changes for no other thread than the victims that were looked at, and not for the
      current thread. */
  ghost predicate Unsent(cpuOf: map<nat, nat>, cpu: map<nat, nat>, cur: nat, done: seq<nat>)
  {
    && (forall t :: t in cpuOf ==> t in cpu)
    && (forall t :: t in cpu && (t == cur || t !in done) ==> t in cpuOf && cpu[t] == cpuOf[t])
  }

  lemma UnsentMore(cpuOf: map<nat, nat>, cpu: map<nat, nat>, cur: nat, victims: seq<nat>, k: nat, i: nat)
    requires k < |victims| && Unsent(cpuOf, cpu, cur, victims[..k])
    ensures Unsent(cpuOf, if victims[k] == cur then cpu else cpu[victims[k] := i], cur, victims[..k + 1])
  {
    assert victims[..k + 1] == victims[..k] + [victims[k]];
  }

  /** thread_consider_migration on CPU me, whose current thread is cur. */
  method ConsiderMigration(queues: seq<seq<nat>>, cpuOf: map<nat, nat>, me: nat, cur: nat)
    returns (q: seq<seq<nat>>, cpu: map<nat, nat>)
    requires me < |queues| && NoDup(queues[me])
    ensures Migrated(queues, q, cpuOf, cpu, me, cur)
  {
    hide Sending, Items, Room, Left, Total, Sent, NoDup, Unsent;
    q, cpu := queues, cpuOf;
    var mine, total := CountThreads(queues, me);
    var share := DivRoundUp(total, |queues|);
    if mine < share {
      return;
    }
    var toSend := mine - share;
    var own, left := TakeVictims(queues[me], toSend);
    ghost var victims := left;
    ItemsUpdate(queues, me, own);
    NoDupTail(queues[me], share);
    q := queues[me := own];
    StartSending(queues, q, cpu, me, cur, share, victims);
    UnsentNone(cpuOf, cur);
    ghost var k := 0;
    var i := 0;
    while i < |queues| && toSend > 0
      invariant i <= |queues| == |q| && 0 <= k <= |victims| && toSend == |victims| - k
      invariant Sending(queues, q, cpu, me, cur, share, victims, left, k) && Unsent(cpuOf, cpu, cur, victims[..k])
      invariant toSend <= Room(q, me, share, i)
    {
      if i != me {
        q, cpu, left, toSend, k := SendTo(queues, q, cpuOf, cpu, me, cur, share, victims, left, toSend, k, i);
      } else {
        RoomNext(q, me, share, i);
      }
      i := i + 1;
    }
    assert Room(q, me, share, |queues|) == 0 by {
      NoRoom(q, me, share);
    }
    assert k == |victims| && victims[..k] == victims;
    ghost var q1 := q;
    SendingDone(queues, q1, cpu, me, cur, share, victims, left);
    q := PutBack(q, me, left);
  }

  lemma UnsentNone(cpuOf: map<nat, nat>, cur: nat)
    ensures Unsent(cpuOf, cpuOf, cur, [])
  {
  }

  lemma NoDupTail(q: seq<nat>, n: nat)
    requires NoDup(q) && n <= |q|
    ensures NoDup(q[n..])
  {
  }

  lemma NoRoom(q: seq<seq<nat>>, me: nat, share: nat)
    ensures Room(q, me, share, |q|) == 0
  {
  }

  /** When the sending is over, all that can be left is the current thread. */
  lemma SendingDone(queues: seq<seq<nat>>, q: seq<seq<nat>>, cpu: map<nat, nat>, me: nat, cur: nat, share: nat,
                    victims: seq<nat>, left: seq<nat>)
    requires me < |queues| && Sending(queues, q, cpu, me, cur, share, victims, left, |victims|)
    ensures |q| == |queues| && share <= |queues[me]| && q[me] == queues[me][..share] && victims == queues[me][share..]
    ensures forall c :: 0 <= c < |q| && c != me ==> Received(queues[c], q[c], share)
    ensures Sent(queues, q[me := q[me] + left], cpu, me, cur, victims)
    ensures left == (if cur in victims then [cur] else []) && Items(q[me := q[me] + left]) == Items(queues)
  {
    assert victims[..|victims|] == victims && victims[|victims|..] == [];
    ItemsAppend(q, me, left);
    hide Items;
  }

  /** The counting loop. */
  method CountThreads(queues: seq<seq<nat>>, me: nat) returns (mine: nat, total: nat)
    requires me < |queues|
    ensures mine == |queues[me]| && total == Total(queues, |queues|)
  {
    mine, total := 0, 0;
    for i := 0 to |queues|
      invariant total == Total(queues, i) && (i > me ==> mine == |queues[me]|)
    {
      total := total + |queues[i]|;
      if i == me {
        mine := |queues[i]|;
      }
    }
  }

  /** Taking the victims from the tail of the CPU's own queue. */
  method TakeVictims(queue: seq<nat>, n: nat) returns (own: seq<nat>, victims: seq<nat>)
    requires n <= |queue|
    ensures own == queue[..|queue| - n] && victims == queue[|queue| - n..]
  {
    own, victims := queue, [];
    for i := 0 to n
      invariant own == queue[..|queue| - i] && victims == queue[|queue| - i..]
    {
      var t := own[|own| - 1];
      own, victims := own[..|own| - 1], [t] + victims;
    }
  }

  lemma StartSending(queues: seq<seq<nat>>, q: seq<seq<nat>>, cpu: map<nat, nat>, me: nat, cur: nat, share: nat,
                     victims: seq<nat>)
    requires me < |queues| && share <= |queues[me]| && q == queues[me := queues[me][..share]]
             && victims == queues[me][share..]
    requires Total(queues, |queues|) <= share * |queues|
    requires Items(q) + multiset(queues[me]) == Items(queues) + multiset(queues[me][..share])
    ensures Sending(queues, q, cpu, me, cur, share, victims, victims, 0)
    ensures |victims| <= Room(q, me, share, 0)
  {
    assert Items(q) + multiset(victims) == Items(queues) by {
      assert queues[me] == queues[me][..share] + victims;
      Cancel(Items(q), Items(queues), multiset(queues[me][..share]), multiset(victims));
    }
    assert Left(victims, 0, cur) == victims;
    assert |victims| <= Room(q, me, share, 0) by {
      RoomEnough(queues, me, share);
      RoomFrame(queues, q, me, share, 0);
    }
    hide Items, Left, Room, Total;
  }

  /** The inner loop: threads go to CPU i until it has one share or none are left to send. */
  method SendTo(ghost queues: seq<seq<nat>>, q0: seq<seq<nat>>, ghost cpuOf: map<nat, nat>, cpu0: map<nat, nat>,
                ghost me: nat, cur: nat, share: nat, ghost victims: seq<nat>, left0: seq<nat>, toSend0: nat,
                ghost k0: nat, i: nat)
    returns (q: seq<seq<nat>>, cpu: map<nat, nat>, left: seq<nat>, toSend: nat, ghost k: nat)
    requires me < |queues| && Sending(queues, q0, cpu0, me, cur, share, victims, left0, k0) && NoDup(victims)
    requires i < |queues| && i != me && toSend0 == |victims| - k0 && toSend0 <= Room(q0, me, share, i)
    requires 0 <= k0 <= |victims| && Unsent(cpuOf, cpu0, cur, victims[..k0])
    ensures Sending(queues, q, cpu, me, cur, share, victims, left, k) && 0 <= k <= |victims| && toSend == |victims| - k
    ensures |q| == |queues| && toSend <= Room(q, me, share, i + 1)
    ensures Unsent(cpuOf, cpu, cur, victims[..k])
  {
    hide Sending, Left, Room, NoDup, Unsent;
    q, cpu, left, toSend, k := q0, cpu0, left0, toSend0, k0;
    SendingShape(queues, q, cpu, me, cur, share, victims, left, k);
    while |q[i]| < share && toSend > 0
      invariant |q| == |queues| && 0 <= k <= |victims| && toSend == |victims| - k
      invariant Sending(queues, q, cpu, me, cur, share, victims, left, k)
      invariant toSend <= Room(q, me, share, i) && Unsent(cpuOf, cpu, cur, victims[..k])
      decreases toSend
    {
      UnsentMore(cpuOf, cpu, cur, victims, k, i);
      if victims[k] == cur {
        SendCurrent(queues, q, cpu, me, cur, share, victims, left, k);
      } else {
        SendOther(queues, q, cpu, me, cur, share, victims, left, k, i);
        RoomSend(q, me, share, i, victims[k]);
      }
      var t := left[0];
      left := left[1..];
      if t == cur {
        left := left + [t];
      } else {
        cpu := cpu[t := i];
        q := q[i := q[i] + [t]];
      }
      toSend, k := toSend - 1, k + 1;
    }
    RoomNext(q, me, share, i);
  }

  lemma SendingShape(queues: seq<seq<nat>>, q: seq<seq<nat>>, cpu: map<nat, nat>, me: nat, cur: nat, share: nat,
                     victims: seq<nat>, left: seq<nat>, k: nat)
    requires me < |queues| && Sending(queues, q, cpu, me, cur, share, victims, left, k)
    ensures |q| == |queues| && k <= |victims|
  {
  }

  /** Giving CPU i one more thread uses up one place. */
  lemma RoomSend(q: seq<seq<nat>>, me: nat, share: nat, i: nat, t: nat)
    requires i < |q| && i != me && |q[i]| < share
    ensures Room(q[i := q[i] + [t]], me, share, i) + 1 == Room(q, me, share, i)
  {
    RoomFrame(q, q[i := q[i] + [t]], me, share, i + 1);
  }

  lemma RoomNext(q: seq<seq<nat>>, me: nat, share: nat, i: nat)
    requires i < |q|
    ensures i == me || |q[i]| >= share ==> Room(q, me, share, i) == Room(q, me, share, i + 1)
  {
  }

  /** Leftover victims go back on the CPU's own queue. */
  method PutBack(q0: seq<seq<nat>>, me: nat, left0: seq<nat>) returns (q: seq<seq<nat>>)
    requires me < |q0|
    ensures q == q0[me := q0[me] + left0]
  {
    q := q0;
    var left := left0;
    while left != []
      invariant |q| == |q0| && q == q0[me := q[me]] && q[me] + left == q0[me] + left0
      decreases |left|
    {
      assert left == [left[0]] + left[1..];
      q := q[me := q[me] + [left[0]]];
      left := left[1..];
    }
    assert q[me] + left == q[me];
  }
}
