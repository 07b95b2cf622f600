/** kern/vm/coremap.c: the table of physical frames and the choice of frames to evict. */
module Coremap {
  import opened Common

  datatype Status = FREE | CLEAN | DIRTY | FIXED

  /** coremap_entry_t; the owner's address is not set here. */
  datatype Entry = Entry(status: Status, paddr: int, size: nat)

  const PAGE_SIZE: nat := 4096
  const ENTRY_SIZE: nat := 16

  function PagesFor(bytes: nat): (n: nat)
    ensures n * PAGE_SIZE >= bytes && (n == 0 || (n - 1) * PAGE_SIZE < bytes)
  {
    if bytes % PAGE_SIZE == 0 then bytes / PAGE_SIZE else bytes / PAGE_SIZE + 1
  }

  // ---- Specification of the scan ----

  /** The frames from lo up to hi that are not FIXED, in order. */
  function Evictable(frames: seq<Entry>, lo: nat, hi: nat): (r: seq<nat>)
    requires lo <= hi <= |frames|
    decreases hi - lo
  {
    if lo == hi then []
    else (if frames[lo].status == FIXED then [] else [lo]) + Evictable(frames, lo + 1, hi)
  }

  lemma {:induction false} EvictableMembers(frames: seq<Entry>, lo: nat, hi: nat, i: nat)
    requires lo <= hi <= |frames|
    ensures i in Evictable(frames, lo, hi) <==> lo <= i < hi && frames[i].status != FIXED
    decreases hi - lo
  {
    if lo < hi {
      EvictableMembers(frames, lo + 1, hi, i);
    }
  }

  /** Each frame appears once: the list is strictly increasing. */
  lemma {:induction false} EvictableSorted(frames: seq<Entry>, lo: nat, hi: nat)
    requires lo <= hi <= |frames|
    ensures forall i, j :: 0 <= i < j < |Evictable(frames, lo, hi)| ==>
              Evictable(frames, lo, hi)[i] < Evictable(frames, lo, hi)[j]
    decreases hi - lo
  {
    if lo < hi {
      EvictableSorted(frames, lo + 1, hi);
      var r := Evictable(frames, lo + 1, hi);
      forall i | 0 <= i < |r| ensures lo < r[i] {
        EvictableMembers(frames, lo + 1, hi, r[i]);
        assert r[i] in r;
      }
    }
  }

  lemma {:induction false} EvictableSplit(frames: seq<Entry>, lo: nat, mid: nat, hi: nat)
    requires lo <= mid <= hi <= |frames|
    ensures Evictable(frames, lo, hi) == Evictable(frames, lo, mid) + Evictable(frames, mid, hi)
    decreases mid - lo
  {
    if lo < mid {
      EvictableSplit(frames, lo + 1, mid, hi);
    }
  }

  /** All frames between are FIXED. */
  predicate AllFixed(frames: seq<Entry>, lo: nat, hi: nat)
    requires hi <= |frames|
  {
    forall i :: lo <= i < hi ==> frames[i].status == FIXED
  }

  lemma {:induction false} NoneEvictable(frames: seq<Entry>, lo: nat, hi: nat)
    requires lo <= hi <= |frames|
    ensures Evictable(frames, lo, hi) == [] <==> AllFixed(frames, lo, hi)
    decreases hi - lo
  {
    if lo < hi {
      NoneEvictable(frames, lo + 1, hi);
    }
  }

  /** v is the first frame that is not FIXED, going round from the remembered position: at or
      after start, or failing that from first on. */
  predicate FirstRound(frames: seq<Entry>, first: nat, start: nat, v: nat)
    requires first <= start <= |frames|
  {
    && first <= v < |frames| && frames[v].status != FIXED
    && if start <= v then AllFixed(frames, start, v)
       else AllFixed(frames, start, |frames|) && AllFixed(frames, first, v)
  }

  /** The frames in the order in which the scan comes to them from start on. */
  function Round(frames: seq<Entry>, first: nat, start: nat): (r: seq<nat>)
    requires first <= start <= |frames|
  {
    Evictable(frames, start, |frames|) + Evictable(frames, first, start)
  }

  /** The next victim is the head of the round, and the round from behind it is the same round
      turned by one. */
  lemma RoundTurns(frames: seq<Entry>, first: nat, start: nat, v: nat)
    requires first <= start <= |frames| && FirstRound(frames, first, start, v)
    ensures Round(frames, first, start) != [] && Round(frames, first, start)[0] == v
    ensures Round(frames, first, v + 1) == Round(frames, first, start)[1..] + [v]
  {
    hide Evictable, AllFixed;
    if start <= v {
      RoundAhead(frames, first, start, v);
    } else {
      RoundBehind(frames, first, start, v);
    }
  }

  lemma RoundAhead(frames: seq<Entry>, first: nat, start: nat, v: nat)
    requires first <= start <= v < |frames| && frames[v].status != FIXED && AllFixed(frames, start, v)
    ensures Evictable(frames, start, |frames|) == [v] + Evictable(frames, v + 1, |frames|)
    ensures Evictable(frames, first, v + 1) == Evictable(frames, first, start) + [v]
  {
    EvictableSplit(frames, start, v, |frames|);
    EvictableSplit(frames, first, start, v + 1);
    EvictableSplit(frames, start, v, v + 1);
    NoneEvictable(frames, start, v);
    assert Evictable(frames, v, v + 1) == [v];
    hide AllFixed;
  }

  lemma RoundBehind(frames: seq<Entry>, first: nat, start: nat, v: nat)
    requires first <= v < start <= |frames| && frames[v].status != FIXED
    requires AllFixed(frames, start, |frames|) && AllFixed(frames, first, v)
    ensures Evictable(frames, start, |frames|) == []
            && Evictable(frames, first, start) == [v] + Evictable(frames, v + 1, start)
    ensures Evictable(frames, v + 1, |frames|) == Evictable(frames, v + 1, start)
            && Evictable(frames, first, v + 1) == [v]
  {
    NoneEvictable(frames, start, |frames|);
    NoneEvictable(frames, first, v);
    EvictableSplit(frames, first, v, start);
    EvictableSplit(frames, v + 1, start, |frames|);
    EvictableSplit(frames, first, v, v + 1);
    assert Evictable(frames, v, v + 1) == [v];
    hide AllFixed;
  }

  // ---- The coremap ----

  class Coremap {
    var frames: array<Entry>
    var firstFreeFrame: nat
    var nextVictim: nat

    /** The remembered position is the beginning, or just behind a victim. */
    ghost predicate Valid()
      reads this, frames
    {
      && 0 < firstFreeFrame <= frames.Length
      && (nextVictim == 0 || firstFreeFrame < nextVictim <= frames.Length)
      && AllFixed(frames[..], 0, firstFreeFrame)
    }

    /** Where the scan starts. */
    function Start(): (s: nat)
      requires Valid()
      reads this, frames
      ensures firstFreeFrame <= s <= frames.Length
    {
      if nextVictim == 0 || nextVictim >= frames.Length then firstFreeFrame else nextVictim
    }

    constructor ()
      ensures nextVictim == 0 && fresh(frames)
    {
      frames := new Entry[0];
      firstFreeFrame, nextVictim := 0, 0;
    }

    /** coremap_init; false is the panic for too little memory.  The frames of the kernel and
        of the coremap itself are FIXED and all others CLEAN. */
    method Init(ramsize: nat, kernelsize: nat) returns (ok: bool)
      requires kernelsize > 0
      modifies this
      ensures var n, k, c := ramsize / PAGE_SIZE, PagesFor(kernelsize), PagesFor(ramsize / PAGE_SIZE * ENTRY_SIZE);
              && (ok <==> k + c <= n)
              && (ok ==>
                   && Valid() && fresh(frames) && frames.Length == n && firstFreeFrame == k + c
                   && (forall i :: 0 <= i < k ==> frames[i] == Entry(FIXED, i * PAGE_SIZE, k))
                   && (forall i :: k <= i < k + c ==> frames[i] == Entry(FIXED, PAGE_SIZE * k, c))
                   && (forall i :: k + c <= i < n ==> frames[i] == Entry(CLEAN, -1, 0)))
    {
      var ramsizepages := ramsize / PAGE_SIZE;
      var kernelpages := PagesFor(kernelsize);
      var coremapPages := PagesFor(ramsizepages * ENTRY_SIZE);
      if kernelpages + coremapPages > ramsizepages {
        return false;
      }
      var paddr := PAGE_SIZE * kernelpages;
      var f := new Entry[ramsizepages];
      var i := 0;
      while i < kernelpages
        invariant 0 <= i <= kernelpages
        invariant forall j :: 0 <= j < i ==> f[j] == Entry(FIXED, j * PAGE_SIZE, kernelpages)
      {
        f[i] := Entry(FIXED, i * PAGE_SIZE, kernelpages);
        i := i + 1;
      }
      while i < kernelpages + coremapPages
        invariant kernelpages <= i <= kernelpages + coremapPages
        invariant forall j :: 0 <= j < kernelpages ==> f[j] == Entry(FIXED, j * PAGE_SIZE, kernelpages)
        invariant forall j :: kernelpages <= j < i ==> f[j] == Entry(FIXED, paddr, coremapPages)
      {
        f[i] := Entry(FIXED, paddr, coremapPages);
        i := i + 1;
      }
      var first := i;
      while i < ramsizepages
        invariant first <= i <= ramsizepages
        invariant forall j :: 0 <= j < kernelpages ==> f[j] == Entry(FIXED, j * PAGE_SIZE, kernelpages)
        invariant forall j :: kernelpages <= j < first ==> f[j] == Entry(FIXED, paddr, coremapPages)
        invariant forall j :: first <= j < i ==> f[j] == Entry(CLEAN, -1, 0)
      {
        f[i] := Entry(CLEAN, -1, 0);
        i := i + 1;
      }
      frames, firstFreeFrame, nextVictim := f, first, 0;
      ok := true;
    }

    /** The for loop of coremap_victim_selection for one victim: on from i to behind the first
        frame that is not FIXED, or to the end. */
    method Scan(i0: nat) returns (i: nat, victimsfound: nat, sawFixed: bool)
      requires i0 <= frames.Length
      ensures i0 <= i <= frames.Length && victimsfound <= 1
      ensures victimsfound == 1 ==> i0 < i && frames[i - 1].status != FIXED && AllFixed(frames[..], i0, i - 1)
      ensures victimsfound == 0 ==> i == frames.Length && AllFixed(frames[..], i0, i) && (sawFixed <==> i0 < i)
    {
      i, victimsfound, sawFixed := i0, 0, false;
      while i < frames.Length && victimsfound < 1
        invariant i0 <= i <= frames.Length && victimsfound <= 1
        invariant victimsfound == 1 ==> i0 < i && frames[i - 1].status != FIXED && AllFixed(frames[..], i0, i - 1)
        invariant victimsfound == 0 ==> AllFixed(frames[..], i0, i) && (sawFixed <==> i0 < i)
        decreases frames.Length - i, 1 - victimsfound
      {
        victimsfound := victimsfound + 1;
        if frames[i].status == FIXED {
          sawFixed := true;
          victimsfound := 0;
        }
        i := i + 1;
      }
    }

    /** coremap_victim_selection(1); None is a panic or a failed assertion. */
    method SelectVictim() returns (v: Option<nat>)
      requires Valid()
      modifies `nextVictim
      ensures v.None? <==> AllFixed(frames[..], firstFreeFrame, frames.Length)
      ensures v.Some? ==>
        && Valid() && FirstRound(frames[..], firstFreeFrame, old(Start()), v.value) && nextVictim == v.value + 1
    {
      ghost var start := Start();
      if nextVictim == 0 {
        nextVictim := firstFreeFrame;
      }
      if nextVictim >= frames.Length {
        nextVictim := firstFreeFrame;
      }
      var victim: nat, found, i, iteration, victimsfound := nextVictim, false, nextVictim, 0, 0;
      while !found
        invariant iteration <= 1 && victimsfound <= 1
        invariant !found ==> victimsfound == 0
        invariant !found && iteration == 0 ==> i == start
        invariant !found && iteration == 1 ==>
          i == firstFreeFrame && start < frames.Length && AllFixed(frames[..], start, frames.Length)
        invariant found && victimsfound == 1 ==> FirstRound(frames[..], firstFreeFrame, start, victim)
        invariant found && victimsfound == 0 ==> firstFreeFrame == frames.Length
        decreases !found, 1 - iteration
      {
        found := true;
        var sawFixed;
        i, victimsfound, sawFixed := Scan(i);
        if sawFixed {
          found := false;
        }
        if victimsfound == 1 {
          victim := i - 1;
          found := true;
        }
        if i >= frames.Length {
          i := firstFreeFrame;
          iteration := iteration + 1;
          if iteration >= 2 {
            return None;
          }
        }
      }
      if victimsfound != 1 {
        return None;
      }
      nextVictim := victim + 1;
      v := Some(victim);
    }

    /** As many calls as there are evictable frames, with the statuses unchanged in between:
        each such frame is chosen once, in the order of the round. */
    method SelectAll(k: nat) returns (victims: seq<nat>)
      requires Valid() && k == |Evictable(frames[..], firstFreeFrame, frames.Length)|
      modifies `nextVictim
      ensures Valid() && victims == Round(frames[..], firstFreeFrame, old(Start()))
    {
      hide Round, Evictable, AllFixed, FirstRound;
      ghost var f, first, round := frames[..], firstFreeFrame, Round(frames[..], firstFreeFrame, Start());
      RoundLength(f, first, Start());
      NoneEvictable(f, first, |f|);
      assert round[0..] + round[..0] == round;
      victims := [];
      for i := 0 to k
        invariant frames[..] == f && Valid() && victims == round[..i]
        invariant Round(f, first, Start()) == round[i..] + round[..i]
      {
        ghost var start := Start();
        var v := SelectVictim();
        NextRound(f, first, start, v.value, round, i);
        victims := victims + [v.value];
      }
    }
  }

  /** After i of the victims have been chosen, the next is number i of the round. */
  lemma NextRound(frames: seq<Entry>, first: nat, start: nat, v: nat, round: seq<nat>, i: nat)
    requires first <= start <= |frames| && FirstRound(frames, first, start, v)
    requires i < |round| && Round(frames, first, start) == round[i..] + round[..i]
    ensures v == round[i] && first <= v < |frames|
    ensures Round(frames, first, if v + 1 >= |frames| then first else v + 1) == round[i + 1..] + round[..i + 1]
  {
    RoundTurns(frames, first, start, v);
    RoundWraps(frames, first, v);
    TurnOne(round, i);
  }

  lemma RoundLength(frames: seq<Entry>, first: nat, start: nat)
    requires first <= start <= |frames|
    ensures |Round(frames, first, start)| == |Evictable(frames, first, |frames|)|
  {
    EvictableSplit(frames, first, start, |frames|);
  }

  /** Starting behind the last frame is starting at the first one again. */
  lemma RoundWraps(frames: seq<Entry>, first: nat, v: nat)
    requires first <= v < |frames|
    ensures v + 1 == |frames| ==> Round(frames, first, v + 1) == Round(frames, first, first)
  {
  }

  lemma TurnOne(r: seq<nat>, i: nat)
    requires i < |r|
    ensures (r[i..] + r[..i])[0] == r[i]
    ensures (r[i..] + r[..i])[1..] + [r[i]] == r[i + 1..] + r[..i + 1]
  {
  }
}
