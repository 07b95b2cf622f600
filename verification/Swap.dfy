/** kern/vm/swapfile.c: pages written to and read back from slots of the swap file. */
module Swap {
  import opened Common

  const PAGE_SIZE: nat := 4096
  const SWAPSLOTS: nat := 2304

  type Byte = b: nat | b < 256
  type Page = s: seq<Byte> | |s| == PAGE_SIZE witness seq(PAGE_SIZE, _ => 0)

  /** The bytes of the file at a slot. */
  function Slot(file: seq<Byte>, i: nat): (p: Page)
    requires (i + 1) * PAGE_SIZE <= |file|
  {
    file[i * PAGE_SIZE..(i + 1) * PAGE_SIZE]
  }

  /** VOP_WRITE of one page at a byte position. */
  function WriteAt(file: seq<Byte>, pos: nat, page: Page): (file': seq<Byte>)
    requires pos + PAGE_SIZE <= |file|
    ensures |file'| == |file|
  {
    file[..pos] + page + file[pos + PAGE_SIZE..]
  }

  lemma WriteHere(file: seq<Byte>, i: nat, page: Page)
    requires (i + 1) * PAGE_SIZE <= |file|
    ensures Slot(WriteAt(file, i * PAGE_SIZE, page), i) == page
  {
    var file' := WriteAt(file, i * PAGE_SIZE, page);
    assert file'[i * PAGE_SIZE..(i + 1) * PAGE_SIZE] == page;
  }

  /** Writing one slot leaves every other slot alone. */
  lemma WriteElsewhere(file: seq<Byte>, i: nat, page: Page, j: nat)
    requires (i + 1) * PAGE_SIZE <= |file| && (j + 1) * PAGE_SIZE <= |file| && i != j
    ensures Slot(WriteAt(file, i * PAGE_SIZE, page), j) == Slot(file, j)
  {
    var file' := WriteAt(file, i * PAGE_SIZE, page);
    forall k | 0 <= k < PAGE_SIZE ensures Slot(file', j)[k] == Slot(file, j)[k] {
      var x := j * PAGE_SIZE + k;
      assert Slot(file', j)[k] == file'[x] && Slot(file, j)[k] == file[x];
      assert x < i * PAGE_SIZE || x >= i * PAGE_SIZE + PAGE_SIZE;
      assert x < i * PAGE_SIZE ==> file'[x] == file[x];
      assert x >= i * PAGE_SIZE + PAGE_SIZE ==>
          file'[x] == file[i * PAGE_SIZE + PAGE_SIZE..][x - (i * PAGE_SIZE + PAGE_SIZE)];
    }
  }

  /** How many slots are marked empty. */
  function Free(empty: seq<bool>): (n: nat)
  {
    if empty == [] then 0 else Free(empty[..|empty| - 1]) + (if empty[|empty| - 1] then 1 else 0)
  }

  lemma {:induction false} FreeUpdate(empty: seq<bool>, i: nat, b: bool)
    requires i < |empty|
    ensures Free(empty[i := b]) == Free(empty) + (if b then 1 else 0) - (if empty[i] then 1 else 0)
  {
    var n := |empty| - 1;
    if i == n {
      assert empty[i := b][..n] == empty[..n];
    } else {
      assert empty[i := b][..n] == empty[..n][i := b];
      FreeUpdate(empty[..n], i, b);
    }
  }

  lemma {:induction false} SomeFree(empty: seq<bool>)
    requires Free(empty) > 0
    ensures exists i :: 0 <= i < |empty| && empty[i]
  {
    if !empty[|empty| - 1] {
      SomeFree(empty[..|empty| - 1]);
      var i :| 0 <= i < |empty[..|empty| - 1]| && empty[..|empty| - 1][i];
      assert empty[i];
    }
  }

  class SwapFile {
    var empty: seq<bool>
    var file: seq<Byte>

    /** The slots that pages hold, with the bytes they were given. */
    ghost var held: map<nat, Page>

    /** No held slot is marked empty, and each has the bytes of its page. */
    ghost predicate Valid()
      reads this
    {
      && |empty| == SWAPSLOTS && |file| == SWAPSLOTS * PAGE_SIZE
      && forall i :: i in held ==> i < SWAPSLOTS && !empty[i] && Slot(file, i) == held[i]
    }

    /** swap_init */
    constructor (file: seq<Byte>)
      requires |file| == SWAPSLOTS * PAGE_SIZE
      ensures Valid() && held == map[] && forall i :: 0 <= i < SWAPSLOTS ==> empty[i]
    {
      this.file := file;
      empty := seq(SWAPSLOTS, _ => true);
      held := map[];
    }

    /** swap_out: ioOk is whether the write succeeds.  None is the panic for a full file;
        Some(-1) is a failed write, after which the slot stays marked. */
    method SwapOut(page: Page, ioOk: bool) returns (r: Option<int>)
      requires Valid()
      modifies this
      ensures Valid()
      ensures r == None <==> forall i :: 0 <= i < SWAPSLOTS ==> !old(empty[i])
      ensures r.Some? && ioOk ==>
        && 0 <= r.value < SWAPSLOTS && r.value !in old(held) && held == old(held)[r.value := page]
        && old(empty[r.value]) && (forall i :: 0 <= i < r.value ==> !old(empty[i]))
        && empty == old(empty)[r.value := false]
      ensures r.Some? && !ioOk ==>
        && r.value == -1
        && exists i :: 0 <= i < SWAPSLOTS && old(empty[i]) && (forall j :: 0 <= j < i ==> !old(empty[j]))
             && empty == old(empty)[i := false]
      ensures r == None || !ioOk ==> held == old(held)
      ensures r == None ==> empty == old(empty)
      ensures r.Some? ==> Free(empty) == Free(old(empty)) - 1
    {
      var index := -1;
      var i := 0;
      while i < SWAPSLOTS
        invariant 0 <= i <= SWAPSLOTS && index == -1
        invariant forall j :: 0 <= j < i ==> !empty[j]
      {
        if empty[i] {
          index := i;
          break;
        }
        i := i + 1;
      }
      if index == -1 {
        return None;
      }
      if ioOk {
        ghost var before := file;
        file := WriteAt(file, index * PAGE_SIZE, page);
        WriteHere(before, index, page);
        forall j | j in held ensures Slot(file, j) == held[j] {
          WriteElsewhere(before, index, page, j);
        }
        held := held[index := page];
      }
      empty := empty[index := false];
      FreeUpdate(old(empty), index, false);
      return Some(if ioOk then index else -1);
    }

    /** swap_in of a held slot: the bytes that its swap_out wrote come back and the slot is
        free; after a failed read it is still held. */
    method SwapIn(index: nat, ioOk: bool) returns (r: Option<Page>)
      requires Valid() && index in held
      modifies this
      ensures Valid()
      ensures ioOk ==> r == Some(old(held[index])) && held == old(held) - {index} && empty == old(empty)[index := true]
      ensures !ioOk ==> r == None && held == old(held) && empty == old(empty)
      ensures ioOk ==> Free(empty) == Free(old(empty)) + 1
    {
      if !ioOk {
        return None;
      }
      r := Some(Slot(file, index));
      empty := empty[index := true];
      FreeUpdate(old(empty), index, true);
      held := held - {index};
    }

    /** swap_unmark; false is the assertion that the slot is in use. */
    method Unmark(index: nat) returns (ok: bool)
      requires Valid() && index < SWAPSLOTS
      modifies this
      ensures Valid()
      ensures ok <==> !old(empty[index])
      ensures ok ==> held == old(held) - {index} && empty == old(empty)[index := true]
      ensures !ok ==> held == old(held) && empty == old(empty)
      ensures ok ==> Free(empty) == Free(old(empty)) + 1
    {
      ok := !empty[index];
      if ok {
        FreeUpdate(empty, index, true);
        empty := empty[index := true];
        held := held - {index};
      }
    }
  }

  // ---- Runs ----

  /** What the rest of the kernel does meanwhile: it swaps out pages of its own, and reads back
      or drops one of the pages it has out. */
  datatype Request = Out(page: Page) | In(k: nat) | Drop(k: nat)

  /** The slots of other pages: no two are the same and none is this page's. */
  ghost predicate Others(s: SwapFile, slots: seq<nat>, mine: nat)
    reads s
  {
    NoDup(slots) && mine !in slots && forall k :: 0 <= k < |slots| ==> slots[k] in s.held
  }

  /** How many of the requests swap a page out. */
  function Outs(q: seq<Request>): (n: nat)
  {
    if q == [] then 0 else Outs(q[..|q| - 1]) + (if q[|q| - 1].Out? then 1 else 0)
  }

  /** A page that is swapped out and, after any sequence of other requests, swapped in again is
      the same page, whatever slots were used and reused in between.  It comes back at least if
      there were slots for all pages that go out; None means that the swap file was full. */
  method OutAndIn(s: SwapFile, page: Page, between: seq<Request>) returns (r: Option<Page>)
    requires s.Valid()
    modifies s
    ensures s.Valid()
    ensures r.Some? ==> r.value == page
    ensures old(Free(s.empty)) > Outs(between) ==> r.Some?
  {
    if Free(s.empty) > 0 {
      SomeFree(s.empty);
    }
    var out := s.SwapOut(page, true);
    if out == None {
      return None;
    }
    var mine: nat := out.value;
    var slots: seq<nat> := [];
    for i := 0 to |between|
      invariant s.Valid() && mine in s.held && s.held[mine] == page && Others(s, slots, mine)
      invariant old(Free(s.empty)) <= Free(s.empty) + 1 + Outs(between[..i])
    {
      var full;
      MoreOuts(between, i);
      slots, full := ServeOne(s, between[i], slots, mine);
      if full {
        return None;
      }
    }
    r := s.SwapIn(mine, true);
  }

  lemma {:induction false} MoreOuts(q: seq<Request>, i: nat)
    requires i < |q|
    ensures Outs(q[..i + 1]) == Outs(q[..i]) + (if q[i].Out? then 1 else 0) && Outs(q[..i + 1]) <= Outs(q)
    decreases |q| - i
  {
    assert q[..i + 1][..i] == q[..i];
    if i + 1 < |q| {
      MoreOuts(q, i + 1);
    } else {
      assert q[..i + 1] == q;
    }
  }

  /** One request of another page. */
  method ServeOne(s: SwapFile, q: Request, slots0: seq<nat>, ghost mine: nat) returns (slots: seq<nat>, full: bool)
    requires s.Valid() && mine in s.held && Others(s, slots0, mine)
    modifies s
    ensures s.Valid() && mine in s.held && s.held[mine] == old(s.held[mine])
    ensures !full ==> Others(s, slots, mine) && Free(s.empty) + (if q.Out? then 1 else 0) >= old(Free(s.empty))
    ensures full ==> q.Out? && old(Free(s.empty)) == 0
  {
    slots, full := slots0, false;
    match q
    case Out(p) =>
      if Free(s.empty) > 0 {
        SomeFree(s.empty);
      }
      var r := s.SwapOut(p, true);
      if r == None {
        full := true;
      } else {
        slots := slots + [r.value];
      }
    case In(k) =>
      if k < |slots| {
        assert slots[k] in slots;
        var p := s.SwapIn(slots[k], true);
        slots := slots[..k] + slots[k + 1..];
      }
    case Drop(k) =>
      if k < |slots| {
        assert slots[k] in slots;
        var ok := s.Unmark(slots[k]);
        assert ok;
        slots := slots[..k] + slots[k + 1..];
      }
  }
}
