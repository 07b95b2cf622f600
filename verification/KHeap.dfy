/** kern/vm/kmalloc.c: the subpage allocator and the whole-page path beside it.  Each method is
    one region run under kmalloc_spinlock, so what holds before and after every method holds
    at every point where the code drops the lock. */
module KHeap {
  import opened Common
  import opened KHeapModel
  import opened KHeapSteps
  import opened KHeapPages
  import Words

  /** What kfree does with a pointer. */
  datatype FreeResult = Freed | NotOurs | Panicked

  /** The smallest block size, from size i on, that holds a request. */
  function TypeFrom(sz: nat, i: nat): (k: nat)
    requires i < NSIZES && sz <= 2048 && forall j :: 0 <= j < i ==> Size(j) < sz
    ensures i <= k < NSIZES && sz <= Size(k) && forall j :: 0 <= j < k ==> Size(j) < sz
    decreases NSIZES - i
  {
    if sz <= Size(i) then i else assert Size(7) == 2048; TypeFrom(sz, i + 1)
  }

  /** The block size that a request gets. */
  function TypeOf(sz: nat): (k: nat)
    requires sz <= 2048
    ensures k < NSIZES && sz <= Size(k) && forall j :: 0 <= j < k ==> Size(j) < sz
  {
    TypeFrom(sz, 0)
  }

  /** blocktype: the index of the smallest block size that holds the request; None is the
      panic. */
  method BlockType(sz: nat) returns (r: Option<nat>)
    ensures r.None? <==> sz > 2048
    ensures r.Some? ==> r.value < NSIZES && sz <= Size(r.value) && forall i :: 0 <= i < r.value ==> Size(i) < sz
    ensures r.Some? ==> r.value == TypeOf(sz)
  {
    for i := 0 to NSIZES
      invariant forall j :: 0 <= j < i ==> Size(j) < sz
    {
      if sz <= Size(i) {
        assert sz <= 2048;
        hide TypeOf;
        assert TypeOf(sz) == i by {
          var k := TypeOf(sz);
          assert !(i < k) && !(k < i);
        }
        return Some(i);
      }
    }
    assert Size(7) < sz;
    r := None;
  }

  /** The number of pages that kmalloc asks for, in 32-bit arithmetic. */
  function NPages(sz: nat): (n: nat)
    requires sz < LIMIT
  {
    ((sz + PAGE_SIZE - 1) % LIMIT) / PAGE_SIZE
  }

  /** The rounding up wraps for the last 4095 sizes, and is enough exactly for the others. */
  lemma NPagesEnough(sz: nat)
    requires sz < LIMIT
    ensures PAGE_SIZE * NPages(sz) >= sz <==> sz <= LIMIT - PAGE_SIZE
    ensures sz > LIMIT - PAGE_SIZE ==> NPages(sz) == 0
    ensures 0 < sz <= LIMIT - PAGE_SIZE ==> NPages(sz) > 0
  {
  }

  /** The heap at boot: no pagerefs, no heap pages. */
  ghost function EmptyHeap(): (h: Heap)
  {
    var none: seq<nat> := [];
    Heap(seq(NROOTS, i => Root(0, seq(8, j => seq(32, b => false)), 0)), map[], [0, 0, 0, 0, 0, 0, 0, 0], 0, map[],
         [none, none, none, none, none, none, none, none], none, map[], map[], map[], map[], {})
  }

  lemma EmptyValid()
    ensures Valid(EmptyHeap()) && Quiet(EmptyHeap())
  {
    NoBits(32);
    NoWords(8, seq(32, b => false));
  }

  class KHeap {
    var roots: seq<Root>
    var refs: map<nat, PageRef>
    var sizebases: seq<nat>
    var allbase: nat
    var mem: map<nat, nat>

    ghost var sizeLists: seq<seq<nat>>
    ghost var allList: seq<nat>
    ghost var free: map<nat, seq<nat>>
    ghost var live: map<nat, nat>
    ghost var big: map<nat, nat>
    ghost var owner: map<nat, Owner>
    ghost var reserved: set<(nat, nat)>

    ghost function View(): (h: Heap)
      reads this
    {
      Heap(roots, refs, sizebases, allbase, mem, sizeLists, allList, free, live, big, owner, reserved)
    }

    /** Boot: no pagerefs, no heap pages. */
    constructor ()
      ensures View() == EmptyHeap() && Valid(View()) && Quiet(View())
      ensures live == map[] && owner == map[] && allList == []
      ensures |roots| == NROOTS && forall w :: 0 <= w < NROOTS ==> roots[w].page == 0 && roots[w].numinuse == 0
    {
      var word := seq(32, i => false);
      roots := seq(NROOTS, i => Root(0, seq(8, j => word), 0));
      refs, sizebases, allbase, mem := map[], [0, 0, 0, 0, 0, 0, 0, 0], 0, map[];
      sizeLists, allList, free, live := [[], [], [], [], [], [], [], []], [], map[], map[];
      big, owner, reserved := map[], map[], {};
      new;
      assert roots == EmptyHeap().roots;
      EmptyValid();
    }

    // ---- Allocating from a page ----

    /** The part of subpage_kmalloc at doalloc. */
    method DoAlloc(pr: nat) returns (ret: nat)
      requires Inv(View()) && pr in allList && pr in refs && refs[pr].nfree > 0
      modifies `refs, `free, `live
      ensures Took(old(View()), View(), pr, ret)
    {
      ghost var h := View();
      FreeHead(h, pr);
      ghost var fl := free[pr];
      hide Inv, PageOk, FreeList, Size, Took;
      var r;
      ret, r := PopHead(refs[pr], mem, fl);
      live := live[ret := Size(Blk(r))];
      free := free[pr := fl[1..]];
      refs := refs[pr := r];
      assert View() == TakeBlock(h, pr);
      TookBlock(h, pr);
    }

    /** The walk of subpage_kmalloc along the pages of one block size: the first page with a
        free block gives one. */
    method TryAlloc(k: nat) returns (ret: nat, ghost pr: nat)
      requires Valid(View()) && k < NSIZES
      modifies `refs, `free, `live
      ensures Tried(old(View()), View(), k, pr, ret)
    {
      hide Valid, Took, Inv;
      ghost var h := View();
      ValidInv(h);
      SizeList(h, k);
      var p := FindRoom(refs, sizebases[k], sizeLists[k]);
      pr, ret := p, 0;
      if p != 0 {
        ret := DoAlloc(p);
        TookValid(h, View(), p, ret);
      }
    }

    // ---- Pagerefs ----

    /** allocpageref up to the point where it has marked a bit. */
    method ReservePageref() returns (r: Option<(nat, nat)>)
      requires Valid(View())
      modifies `roots, `reserved
      ensures Reserved(old(View()), View(), r)
    {
      ghost var h := View();
      RootShapes(h);
      hide Valid, Reserved;
      for w := 0 to NROOTS
        invariant View() == h
        invariant forall x :: 0 <= x < w ==> roots[x].numinuse >= NREFS
      {
        if roots[w].numinuse < NREFS {
          var j := FindClear(roots[w]);
          roots := roots[w := FlipBit(roots[w], j, true)];
          reserved := reserved + {(w, j)};
          ReservedBit(h, w, j);
          return Some((w, j));
        }
      }
      ReservedNone(h);
      r := None;
    }

    /** The end of allocpagerefpage, with the lock held again: va is what alloc_kpages gave.
        Somebody else may have given the root its page in the meantime; then va goes back. */
    method InstallRootPage(w: nat, va: nat) returns (giveBack: bool)
      requires Valid(View()) && w < NROOTS
      requires va != 0 ==> va in owner && owner[va] == InTransit && va + PAGE_SIZE <= LIMIT
      modifies `roots, `owner
      ensures Installed(old(View()), View(), w, va, giveBack)
    {
      hide Valid;
      ghost var h := View();
      ValidRoots(h);
      giveBack := va != 0 && roots[w].page != 0;
      if va != 0 && roots[w].page == 0 {
        InstallValid(h, w, va);
        owner := owner[va := RootPage(w)];
        roots := roots[w := roots[w].(page := va)];
      }
    }

    /** The new pageref goes to the front of both lists. */
    method LinkPage(pr: nat, prpage: nat, k: nat, ghost slot: (nat, nat), mem': map<nat, nat>)
      requires k < NSIZES && |sizebases| == NSIZES == |sizeLists| && prpage % PAGE_SIZE == 0
      modifies `refs, `sizebases, `allbase, `mem, `sizeLists, `allList, `free, `owner, `reserved
      ensures View() == AddPage(old(View()), pr, prpage, k, slot, mem')
    {
      var n := NBlocks(k);
      hide MkPab, At, NBlocks, FullList;
      refs := refs[pr := PageRef(sizebases[k], allbase, MkPab(prpage, k), At(prpage, k, n - 1) - prpage, n)];
      sizeLists, sizebases := sizeLists[k := [pr] + sizeLists[k]], sizebases[k := pr];
      allList, allbase := [pr] + allList, pr;
      mem := mem';
      free, owner, reserved := free[pr := FullList(prpage, k, n)], owner[prpage := HeapPage(pr)], reserved - {slot};
    }

    /** The rest of subpage_kmalloc once it has a page and a pageref for it: thread the free
        list, put the pageref on both lists, and allocate. */
    method SetUpPage(pr: nat, prpage: nat, k: nat, ghost slot: (nat, nat)) returns (ret: nat)
      requires Valid(View()) && CanSetUp(View(), pr, prpage, k, slot)
      modifies `refs, `sizebases, `allbase, `mem, `sizeLists, `allList, `free, `live, `owner, `reserved
      ensures SetUp(old(View()), View(), pr, prpage, k, slot, ret)
      ensures SetsUp(old(View()), View(), pr, prpage, k, slot, ret)
    {
      ghost var h := View();
      SetUpStart(h, pr, prpage, k, slot);
      hide Valid, Inv, SetUp, CanSetUp, Took, Threaded, SetsUp;
      var mem' := ThreadFreeList(mem, prpage, k);
      AddedRef(h, pr, prpage, k, slot, mem');
      hide AddPage;
      LinkPage(pr, prpage, k, slot, mem');
      ghost var h1 := View();
      ret := DoAlloc(pr);
      SetUpDone(h, h1, View(), pr, prpage, k, slot, mem', ret);
    }

    // ---- Freeing ----

    /** remove_lists */
    method RemoveLists(pr: nat, k: nat)
      requires Inv(View()) && pr in allList && pr in refs && k == Blk(refs[pr])
      modifies `refs, `sizebases, `allbase, `sizeLists, `allList, `owner, `reserved
      ensures OnLists(old(View()), pr) && View() == UnlinkPage(old(View()), pr)
      ensures Unlisted(old(View()), View(), pr)
    {
      hide Inv, Unlisted, Blk, CutSame, CutAll, HeadSame, HeadAll, SameChain, AllChain, NoDup, Without, PageOk, RefOk;
      ghost var h := View();
      RemoveStart(h, pr);
      UnlinkPageOk(h, pr);
      ghost var h' := UnlinkPage(h, pr);
      var refs1, head := UnlinkSame(refs, sizebases[k], pr, sizeLists[k]);
      UnlinkRest(h, pr);
      refs, allbase := UnlinkAll(refs1, allbase, pr, allList);
      sizebases := sizebases[k := head];
      sizeLists, allList, owner, reserved := h'.sizeLists, h'.allList, h'.owner, h'.reserved;
    }

    /** freepageref; false is the assertion that a root without a page has no bits set. */
    method FreePageref(p: nat, ghost slot: (nat, nat)) returns (ok: bool)
      requires Inv(View()) && slot in reserved && Slot(roots, p, slot.0, slot.1)
      modifies `roots, `reserved
      ensures PagerefFreed(old(View()), View(), slot, ok)
    {
      hide Inv, PagerefFreed, RootOk;
      ghost var h := View();
      RootShapesInv(h);
      UnreserveInv(h, slot.0, slot.1);
      for w := 0 to NROOTS
        invariant View() == h && w <= slot.0
        invariant forall x :: 0 <= x < w ==> roots[x].page != 0 || roots[x].numinuse == 0
      {
        var page := roots[w].page;
        if page == 0 {
          if roots[w].numinuse != 0 {
            PagerefPanic(h, slot, w);
            return false;
          }
        } else {
          SlotRoot(h, p, slot.0, slot.1, w);
          if page <= p && (p - page) / REF_SIZE < NREFS {
            var j := (p - page) / REF_SIZE;
            assert roots[w].words[j / 32][j % 32] && roots[w].numinuse > 0;
            roots := roots[w := FlipBit(roots[w], j, false)];
            reserved := reserved - {slot};
            PagerefDone(h, slot);
            return true;
          }
        }
      }
      assert false;
    }

    /** The middle of subpage_kfree: overwrite the block and link it in front of the free
        list of its page. */
    method PushBlock(pr: nat, ptr: nat)
      requires Inv(View()) && OnPage(View(), pr, ptr)
      modifies `refs, `mem, `free, `live
      ensures Pushed(old(View()), View(), pr, ptr)
    {
      hide Inv, Pushed, OnPage, Size, Blk, PageOf, Linked, FreeList, IsBlock;
      ghost var h := View();
      PushStart(h, pr, ptr);
      var r;
      r, mem := PushHead(refs[pr], mem, ptr, free[pr]);
      ghost var h' := PutBlock(h, pr, ptr, mem);
      PushDone(h, pr, ptr, mem);
      assert h'.refs == refs[pr := r];
      free, live := h'.free, h'.live;
      hide PutBlock;
      refs := refs[pr := r];
      assert View() == h';
    }

    /** subpage_kfree for a pointer that is a live block, or that is on no heap page, or that is
        not where a block starts, or that is the block freed last on its page.  A page that
        becomes wholly free leaves the lists and is returned for free_kpages. */
    method SubpageKfree(ptr: nat) returns (r: FreeResult, page: nat)
      requires Valid(View()) && NotDoubleFree(View(), ptr)
      modifies `refs, `mem, `free, `live, `sizebases, `allbase, `sizeLists, `allList, `owner, `reserved, `roots
      ensures KfreeDone(old(View()), View(), ptr, r, page)
      ensures r == Freed ==> Frees(old(View()), View(), ptr, page)
    {
      ghost var h := View();
      ValidInv(h);
      hide Inv, Valid, KfreeDone, Pushed, NotDoubleFree, Frees, UnlinkPage, OnLists;
      page := 0;
      var pr := FindPage(refs, allbase, ptr, h);
      if pr == 0 {
        KfreeNotOurs(h, ptr);
        return NotOurs, 0;
      }
      var k := Blk(refs[pr]);
      if !IsBlock(PageAddr(refs[pr]), k, ptr) {
        KfreeMisplaced(h, pr, ptr);
        return Panicked, 0;
      }
      page := PageAddr(refs[pr]);
      if AtHead(refs[pr], ptr) {
        KfreeTwice(h, pr, ptr);
        return Panicked, 0;
      }
      KfreeStart(h, pr, ptr);
      PushBlock(pr, ptr);
      ghost var h1 := View();
      PushedBlock(h, h1, pr, ptr);
      if refs[pr].nfree == NBlocks(k) {
        RemoveLists(pr, k);
        ghost var h2 := View();
        UnlistedSlot(h1, h2, pr);
        var ok := FreePageref(pr, (h1.owner[PageOf(pr)].w, SlotIndex(pr)));
        KfreeWhole(h, h1, h2, View(), pr, ptr, (h1.owner[PageOf(pr)].w, SlotIndex(pr)), ok);
        if ok {
          FreesWhole(h, h1, h2, View(), pr, ptr);
        }
        return (if ok then Freed else Panicked), page;
      }
      KfreePart(h, h1, pr, ptr);
      FreesPart(h, h1, pr, ptr);
      return Freed, 0;
    }

    // ---- Pages to and from the page allocator ----

    /** alloc_kpages(1) gave va. */
    ghost method TakeFresh(va: nat)
      requires Valid(View()) && FreshPage(View(), va)
      modifies `owner
      ensures Valid(View()) && owner == old(owner)[va := InTransit]
    {
      hide Valid, FreshPage;
      GrantValid(View(), va);
      owner := owner[va := InTransit];
    }

    /** free_kpages(va) for a page in the caller's hands. */
    ghost method GiveBack(va: nat)
      requires Valid(View()) && va in owner && owner[va] == InTransit
      modifies `owner
      ensures Valid(View()) && owner == old(owner) - {va}
    {
      hide Valid;
      ReleaseValid(View(), va);
      owner := owner - {va};
    }

    // ---- kmalloc and kfree, run by one thread ----

    /** allocpagerefpage for a root that has no page. */
    method GetRootPage(w: nat, rootVa: nat)
      requires Valid(View()) && w < |roots| == NROOTS && roots[w].page == 0
      requires rootVa != 0 ==> FreshPage(View(), rootVa)
      modifies `roots, `owner
      ensures Valid(View()) && roots == old(roots)[w := old(roots[w]).(page := rootVa)]
      ensures owner == if rootVa == 0 then old(owner) else old(owner)[rootVa := RootPage(w)]
    {
      hide Inv, Valid, Installed;
      if rootVa != 0 {
        TakeFresh(rootVa);
      }
      ghost var h := View();
      var back := InstallRootPage(w, rootVa);
      InstalledFacts(h, View(), w, rootVa, back);
    }

    /** allocpageref, run by one thread. */
    method AllocPageref(rootVa: nat) returns (s: Option<(nat, nat)>)
      requires Valid(View()) && (rootVa != 0 ==> FreshPage(View(), rootVa))
      modifies `roots, `reserved, `owner
      ensures Pageref(old(View()), View(), rootVa, s)
    {
      hide Inv, Valid, Reserved, Pageref;
      ghost var h := View();
      s := ReservePageref();
      ghost var h1 := View();
      ReservedFacts(h, h1, s);
      if s.None? {
        PagerefNone(h, rootVa);
        return;
      }
      var (w, _) := s.value;
      if roots[w].page == 0 {
        GetRootPage(w, rootVa);
        PagerefPage(h, h1, View(), rootVa, s.value);
        if roots[w].page == 0 {
          return None;
        }
      } else {
        PagerefMarked(h, h1, rootVa, s.value);
      }
    }

    /** subpage_kmalloc when no page of the right size has room; prpage and rootVa are what
        alloc_kpages gives if it is asked for a heap page and for a page of pagerefs. */
    method AllocFresh(k: nat, prpage: nat, rootVa: nat) returns (ret: nat)
      requires Valid(View()) && k < NSIZES
      requires prpage != 0 ==> FreshPage(View(), prpage)
      requires rootVa != 0 ==> FreshPage(View(), rootVa) && rootVa != prpage
      modifies `roots, `refs, `sizebases, `allbase, `mem, `sizeLists, `allList, `free, `live, `owner, `reserved
      ensures Valid(View()) && big == old(big)
      ensures ret == 0 ==> live == old(live)
      ensures ret != 0 ==> ret !in old(live) && live == old(live)[ret := Size(k)]
      ensures ret != 0 <==> prpage != 0 && RootFor(old(roots), rootVa)
      ensures Grown(old(View()), View(), prpage, rootVa, ret)
    {
      hide Inv, Valid, SetUp, SetsUp, Pageref, Grown;
      ghost var h := View();
      ValidRoots(h);
      ret := 0;
      if prpage == 0 {
        GrownNot(h, prpage, rootVa);
        GrownExactly(h, View(), prpage, rootVa, ret);
        return;
      }
      TakeFresh(prpage);
      ghost var h1 := View();
      var s := AllocPageref(rootVa);
      ghost var h2 := View();
      PagerefFacts(h1, h2, rootVa, s);
      if s.None? {
        GiveBack(prpage);
        GrownNoPage(h, h1, h2, View(), prpage, rootVa);
        GrownExactly(h, View(), prpage, rootVa, ret);
        return;
      }
      var (w, j) := s.value;
      ret := SetUpPage(roots[w].page + REF_SIZE * j, prpage, k, (w, j));
      SetUpFacts(h2, View(), roots[w].page + REF_SIZE * j, prpage, k, (w, j), ret);
      GrownBlock(h, h1, h2, View(), prpage, rootVa, k, s, ret);
      GrownExactly(h, View(), prpage, rootVa, ret);
    }

    /** kmalloc; va and rootVa are what alloc_kpages gives if it is asked for the block or its page
        and for a page of pagerefs.  From half a page on the answer is what alloc_kpages gives,
        enough pages exactly if rounding up does not wrap.  A smaller request gets a block of the
        smallest size that holds it, exactly if a page of that size has room or a page can be had
        and the first root that is not full has a page or gets one. */
    method Kmalloc(sz: nat, va: nat, rootVa: nat) returns (ret: nat)
      requires Valid(View()) && sz < LIMIT
      requires sz < 2048 && va != 0 ==> FreshPage(View(), va)
      requires sz < 2048 && rootVa != 0 ==> FreshPage(View(), rootVa) && rootVa != va
      requires sz >= 2048 && va != 0 && NPages(sz) > 0 ==> FreshPages(View(), va, NPages(sz))
      modifies `roots, `refs, `sizebases, `allbase, `mem, `sizeLists, `allList, `free, `live, `big, `owner, `reserved
      ensures Valid(View())
      ensures ret == 0 ==> live == old(live)
      ensures ret != 0 && sz <= LIMIT - PAGE_SIZE ==>
                ret !in old(live) && ret in live && live[ret] >= sz && live == old(live)[ret := live[ret]]
      ensures sz >= 2048 ==> ret == va
      ensures sz >= 2048 && va != 0 && NPages(sz) > 0 ==> BigAdded(old(View()), View(), va, NPages(sz))
      ensures sz >= 2048 && (va == 0 || NPages(sz) == 0) ==> View() == old(View())
      ensures sz < 2048 ==> (ret != 0 <==> RoomFor(old(View()), sz) || (va != 0 && RootFor(old(roots), rootVa)))
      ensures sz < 2048 && ret != 0 ==> Fits(sz, live[ret])
      ensures sz < 2048 && RoomFor(old(View()), sz) ==> FromRoom(old(View()), View(), sz, ret)
      ensures sz < 2048 && !RoomFor(old(View()), sz) ==> Grown(old(View()), View(), va, rootVa, ret)
      ensures Quiet(old(View())) && rootVa != 0 ==> Quiet(View())
      ensures forall w :: Lost(old(View()), w) ==> Lost(View(), w)
    {
      NPagesEnough(sz);
      hide Inv, Valid, Tried, NPages, Took, FreshPages, Grown, Quiet, BigAdded, RoomFor, RootFor, FromRoom, Fits;
      ghost var h := View();
      if sz >= 2048 {
        var npages := NPages(sz);
        ret := va;
        if va != 0 && npages > 0 {
          KmallocPages(va, npages);
        }
        QuietRoots(h, View());
        return;
      }
      var k := BlockType(sz);
      FitsType(sz);
      ghost var pr;
      ret, pr := TryAlloc(k.value);
      TriedFacts(h, View(), k.value, pr, ret);
      TriedExactly(h, View(), sz, pr, ret);
      if ret == 0 {
        ret := AllocFresh(k.value, va, rootVa);
        GrownFacts(h, View(), va, rootVa, ret);
      } else {
        QuietRoots(h, View());
      }
    }

    /** The whole-page path of kmalloc, when alloc_kpages succeeds. */
    ghost method KmallocPages(va: nat, n: nat)
      requires Valid(View()) && FreshPages(View(), va, n)
      modifies `live, `big, `owner
      ensures Valid(View()) && va !in old(live) && live == old(live)[va := PAGE_SIZE * n]
      ensures va !in old(big) && big == old(big)[va := n] && BigAdded(old(View()), View(), va, n)
    {
      hide Valid, FreshPages, BigAdded;
      ghost var h' := AddBig(View(), va, n);
      owner, big, live := h'.owner, h'.big, h'.live;
    }

    /** kfree of a live block or of NULL.  It panics exactly if the block is stuck, and
        otherwise exactly the block is no longer live. */
    method Kfree(ptr: nat) returns (r: FreeResult)
      requires Valid(View()) && (ptr == 0 || ptr in live)
      modifies `roots, `refs, `sizebases, `allbase, `mem, `sizeLists, `allList, `free, `live, `big, `owner, `reserved
      ensures r == Panicked <==> ptr != 0 && Stuck(old(View()), ptr)
      ensures r != Panicked ==> Valid(View()) && live == old(live) - {ptr}
      ensures r != Panicked ==> forall w :: Lost(old(View()), w) ==> Lost(View(), w)
      ensures Quiet(old(View())) ==> r != Panicked && Quiet(View())
    {
      hide Inv, Valid, KfreeDone, NotDoubleFree, Stuck, Quiet;
      ghost var h := View();
      ValidInv(h);
      NeverNull(h);
      if ptr == 0 {
        return Freed;
      }
      NotDouble(h, ptr);
      var page;
      r, page := SubpageKfree(ptr);
      KfreeFacts(h, View(), ptr, r, page);
      if Quiet(h) {
        QuietNotStuck(h, ptr);
      }
      ghost var h1 := View();
      if r == NotOurs {
        assert ptr % PAGE_SIZE == 0;
        FreePages(ptr);
      } else if r == Freed && page != 0 {
        GiveBack(page);
      }
      QuietRoots(h1, View());
    }

    /** free_kpages for a block of whole pages. */
    ghost method FreePages(va: nat)
      requires Valid(View()) && va in big
      modifies `live, `big, `owner
      ensures Valid(View()) && live == old(live) - {va} && big == old(big) - {va}
      ensures BigRemoved(old(View()), View(), va)
    {
      hide Valid, BigRemoved;
      ghost var h' := RemoveBig(View(), va);
      owner, big, live := h'.owner, h'.big, h'.live;
    }

    /** The owner of a live block writes an aligned word in it.  The word is wholly inside the
        block. */
    method UserWrite(ghost a: nat, x: nat, v: nat)
      requires Valid(View()) && a in live && a <= x < a + live[a] && x % 4 == 0
      modifies `mem
      ensures Valid(View()) && mem == old(mem)[x := v] && x + 4 <= a + live[a]
    {
      hide Valid;
      WordFits(View(), a, x);
      WriteValid(View(), a, x, v);
      mem := mem[x := v];
    }
  }

  /** The first i pages of a list have no free block. */
  ghost predicate FullTo(refs: map<nat, PageRef>, l: seq<nat>, i: nat)
  {
    i <= |l| && forall j :: 0 <= j < i ==> l[j] in refs && refs[l[j]].nfree == 0
  }

  /** All pages before p have no free block; if p is 0, none has one. */
  ghost predicate FullUpTo(refs: map<nat, PageRef>, l: seq<nat>, p: nat)
  {
    exists i: nat :: FullTo(refs, l, i) && p == (if i < |l| then l[i] else 0)
  }

  /** The walk along the pages of one size: the first with a free block, or none has one. */
  method FindRoom(refs: map<nat, PageRef>, head: nat, ghost l: seq<nat>) returns (p: nat)
    requires head == First(l)
    requires forall i :: 0 <= i < |l| ==> l[i] in refs && l[i] != 0 && refs[l[i]].nextSame == After(l, i)
    ensures FullUpTo(refs, l, p)
    ensures p != 0 ==> p in refs && refs[p].nfree > 0
  {
    p := head;
    ghost var i := 0;
    while p != 0
      invariant FullTo(refs, l, i) && p == (if i < |l| then l[i] else 0)
      decreases |l| - i
    {
      assert p in refs && refs[p].nextSame == After(l, i);
      if refs[p].nfree > 0 {
        return;
      }
      p := refs[p].nextSame;
      i := i + 1;
    }
  }

  /** Overwriting a block and linking it to the old head; the check that it is not the head
      holds. */
  method PushHead(r: PageRef, mem: map<nat, nat>, ptr: nat, ghost fl: seq<nat>)
    returns (r': PageRef, mem': map<nat, nat>)
    requires FreeList(r, fl, mem) && IsBlock(PageAddr(r), Blk(r), ptr) && ptr !in fl && 0 < PageAddr(r)
    ensures r' == r.(nfree := r.nfree + 1, flo := ptr - PageAddr(r))
    ensures Linked(mem, mem', ptr, Size(Blk(r)), First(fl))
  {
    if fl != [] {
      assert fl[0] in fl && IsBlock(PageAddr(r), Blk(r), fl[0]);
    }
    mem' := FillDeadbeef(mem, ptr, Size(Blk(r)));
    if r.flo == INVALID_OFFSET {
      mem' := mem'[ptr := 0];
    } else {
      var next := PageAddr(r) + r.flo;
      assert next != ptr;
      mem' := mem'[ptr := next];
    }
    r' := r.(nfree := r.nfree + 1, flo := ptr - PageAddr(r));
  }

  /** The search of subpage_kfree along all heap pages. */
  method FindPage(refs: map<nat, PageRef>, allbase: nat, ptr: nat, ghost h: Heap) returns (pr: nat)
    requires Inv(h) && h.refs == refs && h.allbase == allbase
    ensures if pr == 0 then
              forall p :: p in h.allList ==> p in refs && !(PageAddr(refs[p]) <= ptr < PageAddr(refs[p]) + PAGE_SIZE)
            else
              && pr in h.allList && pr in refs && Blk(refs[pr]) < NSIZES
              && PageAddr(refs[pr]) <= ptr < PageAddr(refs[pr]) + PAGE_SIZE
  {
    hide Inv, PageOf;
    ghost var l, i := h.allList, 0;
    AllListLinks(h);
    pr := allbase;
    while pr != 0
      invariant 0 <= i <= |l| && pr == (if i < |l| then l[i] else 0)
      invariant forall j :: 0 <= j < i ==> !(PageAddr(refs[l[j]]) <= ptr < PageAddr(refs[l[j]]) + PAGE_SIZE)
      decreases |l| - i
    {
      assert Blk(refs[pr]) < NSIZES && refs[pr].nextAll == After(l, i);
      if PageAddr(refs[pr]) <= ptr < PageAddr(refs[pr]) + PAGE_SIZE {
        return;
      }
      pr := refs[pr].nextAll;
      i := i + 1;
    }
  }

  /** fill_deadbeef */
  method FillDeadbeef(mem: map<nat, nat>, a: nat, n: nat) returns (mem': map<nat, nat>)
    ensures forall x :: x in mem && !(a <= x < a + n) ==> x in mem' && mem'[x] == mem[x]
    ensures forall i :: 0 <= i < n / 4 ==> a + 4 * i in mem' && mem'[a + 4 * i] == 0xdeadbeef
  {
    mem' := mem;
    for i := 0 to n / 4
      invariant forall x :: x in mem && !(a <= x < a + n) ==> x in mem' && mem'[x] == mem[x]
      invariant forall j :: 0 <= j < i ==> a + 4 * j in mem' && mem'[a + 4 * j] == 0xdeadbeef
    {
      mem' := mem'[a + 4 * i := 0xdeadbeef];
    }
  }

  /** One of the two loops of remove_lists: a pageref leaves the list of its block size. */
  method UnlinkSame(refs: map<nat, PageRef>, head: nat, pr: nat, ghost l: seq<nat>)
    returns (refs': map<nat, PageRef>, head': nat)
    requires SameChain(refs, head, l) && NoDup(l) && pr in l
    ensures refs' == CutSame(refs, l, pr) && head' == HeadSame(refs, head, l, pr)
    ensures SameChain(refs', head', Without(l, pr))
  {
    CutSameOk(refs, head, l, pr);
    hide Without;
    refs', head' := refs, head;
    var prev, cur := 0, head;
    ghost var i, at := 0, Position(l, pr);
    while cur != pr
      invariant 0 <= i <= at && cur == l[i] && prev == (if i == 0 then 0 else l[i - 1])
      decreases |l| - i
    {
      assert cur in refs && refs[cur].nextSame == After(l, i);
      prev := cur;
      cur := refs[cur].nextSame;
      i := i + 1;
    }
    assert i == at && pr in refs;
    if prev == 0 {
      assert i == 0;
      head' := refs[pr].nextSame;
    } else {
      refs' := refs[prev := refs[prev].(nextSame := refs[pr].nextSame)];
    }
  }

  /** The other loop: it leaves the list of all pagerefs. */
  method UnlinkAll(refs: map<nat, PageRef>, head: nat, pr: nat, ghost l: seq<nat>)
    returns (refs': map<nat, PageRef>, head': nat)
    requires AllChain(refs, head, l) && NoDup(l) && pr in l
    ensures refs' == CutAll(refs, l, pr) && head' == HeadAll(refs, head, l, pr)
    ensures AllChain(refs', head', Without(l, pr))
  {
    CutAllOk(refs, head, l, pr);
    hide Without;
    refs', head' := refs, head;
    var prev, cur := 0, head;
    ghost var i, at := 0, Position(l, pr);
    while cur != pr
      invariant 0 <= i <= at && cur == l[i] && prev == (if i == 0 then 0 else l[i - 1])
      decreases |l| - i
    {
      assert cur in refs && refs[cur].nextAll == After(l, i);
      prev := cur;
      cur := refs[cur].nextAll;
      i := i + 1;
    }
    assert i == at && pr in refs;
    if prev == 0 {
      assert i == 0;
      head' := refs[pr].nextAll;
    } else {
      refs' := refs[prev := refs[prev].(nextAll := refs[pr].nextAll)];
    }
  }

  /** The loop of subpage_kmalloc that links the blocks of a fresh page, each to the one
      before it. */
  method ThreadFreeList(mem: map<nat, nat>, prpage: nat, k: nat) returns (mem': map<nat, nat>)
    requires k < NSIZES && prpage % PAGE_SIZE == 0
    ensures Threaded(mem, mem', prpage, k)
  {
    assert At(prpage, k, 0) == prpage;
    hide Size, NBlocks;
    var n := NBlocks(k);
    mem' := mem[prpage := 0];
    var i := 1;
    while i < n
      invariant 1 <= i <= n
      invariant forall x :: x in mem && !(prpage <= x < prpage + PAGE_SIZE) ==> x in mem' && mem'[x] == mem[x]
      invariant forall t: nat :: t < i ==> BackLink(mem', prpage, k, t)
    {
      var fl := At(prpage, k, i);
      LaterBlock(prpage, k, i);
      hide At;
      ghost var before := mem';
      mem' := mem'[fl := At(prpage, k, i - 1)];
      forall t: nat | t < i + 1 ensures BackLink(mem', prpage, k, t) {
        assert t < i ==> BackLink(before, prpage, k, t) && At(prpage, k, t) != fl;
      }
      i := i + 1;
    }
    hide At;
    ghost var fl := FullList(prpage, k, n);
    forall j | 0 <= j < n ensures fl[j] in mem' && mem'[fl[j]] == After(fl, j) {
      var t := n - 1 - j;
      assert fl[j] == At(prpage, k, t);
      assert j + 1 < n ==> fl[j + 1] == At(prpage, k, t - 1);
      assert BackLink(mem', prpage, k, t);
    }
  }

  /** Block t of the page links to the block before it, and the first to none. */
  predicate BackLink(mem: map<nat, nat>, page: nat, k: nat, t: nat)
    requires k < NSIZES
  {
    At(page, k, t) in mem && mem[At(page, k, t)] == if t == 0 then 0 else At(page, k, t - 1)
  }

  lemma LaterBlock(page: nat, k: nat, i: nat)
    requires k < NSIZES && i < NBlocks(k)
    ensures page <= At(page, k, i) < page + PAGE_SIZE
    ensures forall t: nat :: t < i ==> At(page, k, t) != At(page, k, i)
  {
    BlockAt(page, k, i);
    forall t: nat | t < i ensures At(page, k, t) != At(page, k, i) {
      AtMonotone(page, k, t, i);
    }
  }

  /** The search of allocpageref through one root's bitmap; a root that is not full has a
      clear bit, so the assertion after the loops is not reached. */
  method FindClear(root: Root) returns (j: nat)
    requires RootOk(root) && root.numinuse < NREFS
    ensures j < NREFS && !root.words[j / 32][j % 32]
    ensures forall x :: 0 <= x < j ==> root.words[x / 32][x % 32]
  {
    for i := 0 to 8
      invariant forall x :: 0 <= x < 32 * i ==> root.words[x / 32][x % 32]
      invariant forall x :: 0 <= x < i ==> BitCount(root.words[x]) == 32
    {
      FullWord(root.words[i]);
      if root.words[i] != seq(32, _ => true) {
        for b := 0 to 32
          invariant forall x :: 0 <= x < b ==> root.words[i][x]
        {
          if !root.words[i][b] {
            j := i * 32 + b;
            return;
          }
        }
        assert false;
      }
    }
    FullWords(root.words);
  }

  // ---- What the regions do, as relations between heaps ----

  /** The first free block of pr's page became live, and nothing else changed. */
  ghost predicate Took(h: Heap, h': Heap, pr: nat, ret: nat)
  {
    && CanTake(h, pr) && h' == TakeBlock(h, pr) && Inv(h')
    && ret == h.free[pr][0] && ret !in h.live && ret != 0
  }

  lemma TookBlock(h: Heap, pr: nat)
    requires Inv(h) && pr in h.allList && pr in h.refs && h.refs[pr].nfree > 0
    ensures CanTake(h, pr) && Took(h, TakeBlock(h, pr), pr, h.free[pr][0])
  {
    FreeHead(h, pr);
    assert IsBlock(PageAddr(h.refs[pr]), Blk(h.refs[pr]), h.free[pr][0]);
    TakeInv(h, pr);
    hide Inv;
  }

  /** Following freelist_offset to the first free block and the link in it to the next; the
      code's three assertions hold. */
  method PopHead(r: PageRef, mem: map<nat, nat>, ghost fl: seq<nat>) returns (ret: nat, r': PageRef)
    requires FreeList(r, fl, mem) && fl != [] && 0 < PageAddr(r)
    ensures ret == fl[0] && ret != 0 && r' == PoppedRef(r, fl) && FreeList(r', fl[1..], mem)
  {
    TakeFreeList(r, fl, mem);
    assert IsBlock(PageAddr(r), Blk(r), fl[0]);
    assert |fl| > 1 ==> IsBlock(PageAddr(r), Blk(r), fl[1]);
    assert mem[fl[0]] == After(fl, 0);
    assert r.flo < PAGE_SIZE;
    var prpage := PageAddr(r);
    var fla := prpage + r.flo;
    ret := fla;
    var next := mem[fla];
    var nfree := r.nfree - 1;
    if next != 0 {
      assert nfree > 0 && 0 <= next - prpage < PAGE_SIZE;
      r' := r.(nfree := nfree, flo := next - prpage);
    } else {
      assert nfree == 0;
      r' := r.(nfree := nfree, flo := INVALID_OFFSET);
    }
  }

  /** What subpage_kmalloc relies on when it follows freelist_offset. */
  lemma FreeHead(h: Heap, pr: nat)
    requires Inv(h) && pr in h.allList && pr in h.refs && h.refs[pr].nfree > 0
    ensures PageOk(h, pr) && CanTake(h, pr) && 0 < PageAddr(h.refs[pr])
    ensures FreeList(h.refs[pr], h.free[pr], h.mem) && h.free[pr][0] !in h.live
  {
    assert PageOk(h, pr);
    TakePage(h, pr);
  }

  ghost predicate Tried(h: Heap, h': Heap, k: nat, pr: nat, ret: nat)
    requires k < NSIZES
  {
    && Valid(h') && |h.sizeLists| == NSIZES
    && if ret == 0 then h' == h && FullUpTo(h.refs, h.sizeLists[k], 0)
       else
         && pr in h.sizeLists[k] && pr in h.allList && pr in h.refs && Blk(h.refs[pr]) == k
         && FullUpTo(h.refs, h.sizeLists[k], pr) && Took(h, h', pr, ret)
  }

  lemma ValidInv(h: Heap)
    requires Valid(h)
    ensures Inv(h)
  {
  }

  lemma SizeList(h: Heap, k: nat)
    requires Inv(h) && k < NSIZES
    ensures |h.sizeLists| == NSIZES == |h.sizebases| && h.sizebases[k] == First(h.sizeLists[k])
    ensures var l := h.sizeLists[k]; forall i :: 0 <= i < |l| ==>
              && l[i] in h.refs && l[i] != 0 && l[i] in h.allList
              && Blk(h.refs[l[i]]) == k && h.refs[l[i]].nextSame == After(l, i)
  {
    var l := h.sizeLists[k];
    assert SameChain(h.refs, h.sizebases[k], l);
    forall i | 0 <= i < |l| ensures l[i] in h.allList && Blk(h.refs[l[i]]) == k {
      assert l[i] in l;
    }
  }

  lemma AllListLinks(h: Heap)
    requires Inv(h)
    ensures var l := h.allList;
            && h.allbase == First(l)
            && forall i :: 0 <= i < |l| ==>
                 l[i] in h.refs && l[i] != 0 && Blk(h.refs[l[i]]) < NSIZES && h.refs[l[i]].nextAll == After(l, i)
  {
    hide Pages, Lives, Owners, Roots, Refs;
    assert forall i :: 0 <= i < |h.allList| ==> h.allList[i] in h.allList;
  }

  lemma TookValid(h: Heap, h': Heap, pr: nat, ret: nat)
    requires Valid(h) && Took(h, h', pr, ret) && pr in h.allList
    ensures Valid(h') && ret != 0
  {
    hide Inv;
  }

  /** All bits before bit j are set. */
  predicate SetBelow(roots: seq<Root>, w: nat, j: nat)
  {
    forall x :: 0 <= x < j ==> BitSet(roots, w, x)
  }

  /** The first clear bit of the first root with room is now set and counted; None means that
      every root is full. */
  ghost predicate Reserved(h: Heap, h': Heap, r: Option<(nat, nat)>)
  {
    && Valid(h')
    && match r
       case None => h' == h && FirstRoom(h.roots) == |h.roots| == NROOTS
       case Some(s) =>
         && s.0 == FirstRoom(h.roots) < NROOTS == |h.roots| && s.1 < NREFS && Shaped(h.roots[s.0].words)
         && !BitSet(h.roots, s.0, s.1) && SetBelow(h.roots, s.0, s.1)
         && s !in h.reserved && h' == Reserve(h, s.0, s.1)
  }

  lemma RootShapes(h: Heap)
    requires Roots(h)
    ensures |h.roots| == NROOTS && forall w :: 0 <= w < NROOTS ==> RootOk(h.roots[w]) && Shaped(h.roots[w].words)
  {
  }

  lemma RootShapesInv(h: Heap)
    requires Inv(h)
    ensures |h.roots| == NROOTS && forall w :: 0 <= w < NROOTS ==> Shaped(h.roots[w].words)
  {
    RootShapes(h);
  }

  /** The first root that is not full, or the number of roots if there is none. */
  function FirstRoom(roots: seq<Root>): (w: nat)
    ensures w <= |roots|
    ensures forall x :: 0 <= x < w ==> roots[x].numinuse >= NREFS
    ensures w < |roots| ==> roots[w].numinuse < NREFS
  {
    if roots == [] || roots[0].numinuse < NREFS then 0 else 1 + FirstRoom(roots[1..])
  }

  lemma ReservedBit(h: Heap, w: nat, j: nat)
    requires forall x :: 0 <= x < w && x < |h.roots| ==> h.roots[x].numinuse >= NREFS
    requires w < |h.roots| ==> h.roots[w].numinuse < NREFS
    requires Valid(h) && w < NROOTS && j < NREFS && Shaped(h.roots[w].words) && !BitSet(h.roots, w, j)
    requires SetBelow(h.roots, w, j)
    ensures Reserved(h, Reserve(h, w, j), Some((w, j)))
  {
    RootShapes(h);
    ReserveInv(h, w, j);
    hide Inv, SetBelow;
  }

  lemma ReservedNone(h: Heap)
    requires Valid(h) && forall w :: 0 <= w < |h.roots| ==> h.roots[w].numinuse >= NREFS
    ensures Reserved(h, h, None)
  {
  }

  /** Afterwards the root has a page if it had one or if va was given; va is given back
      exactly when it was not needed. */
  ghost predicate Installed(h: Heap, h': Heap, w: nat, va: nat, giveBack: bool)
    requires w < NROOTS
  {
    && Valid(h') && |h.roots| == NROOTS
    && (giveBack <==> va != 0 && h.roots[w].page != 0)
    && h' == if va != 0 && h.roots[w].page == 0 then Install(h, w, va) else h
  }

  /** A reserved pageref and a page in the caller's hands. */
  ghost predicate CanSetUp(h: Heap, pr: nat, page: nat, k: nat, slot: (nat, nat))
  {
    && k < NSIZES && slot in h.reserved && Slot(h.roots, pr, slot.0, slot.1)
    && page in h.owner && h.owner[page] == InTransit && 0 < page && page + PAGE_SIZE <= LIMIT
  }

  /** The page is on the lists with one block live: the last one. */
  ghost predicate SetUp(h: Heap, h': Heap, pr: nat, page: nat, k: nat, slot: (nat, nat), ret: nat)
  {
    && Valid(h') && k < NSIZES && ret != 0 && ret !in h.live
    && ret == At(page, k, NBlocks(k) - 1)
    && h'.live == h.live[ret := Size(k)] && h'.big == h.big && h'.roots == h.roots
    && h'.owner == h.owner[page := HeapPage(pr)] && h'.reserved == h.reserved - {slot}
    && h'.allList == [pr] + h.allList && pr !in h.allList
  }

  lemma AddReady(h: Heap, pr: nat, page: nat, k: nat, slot: (nat, nat), mem': map<nat, nat>)
    requires Inv(h) && CanSetUp(h, pr, page, k, slot) && Threaded(h.mem, mem', page, k)
    ensures page % PAGE_SIZE == 0 && CanAdd(h, pr, page, k, slot, mem')
  {
    assert OwnerOk(h, page);
    SlotOwner(h, pr, slot.0, slot.1);
    assert pr in h.allList ==> RefOk(h, pr);
    hide Inv, FullList, After, Size;
  }

  lemma SetUpStart(h: Heap, pr: nat, page: nat, k: nat, slot: (nat, nat))
    requires Inv(h) && CanSetUp(h, pr, page, k, slot)
    ensures k < NSIZES && |h.sizebases| == NSIZES == |h.sizeLists| && page % PAGE_SIZE == 0
  {
    assert OwnerOk(h, page);
  }

  lemma AddedRef(h: Heap, pr: nat, page: nat, k: nat, slot: (nat, nat), mem': map<nat, nat>)
    requires Valid(h) && CanSetUp(h, pr, page, k, slot) && Threaded(h.mem, mem', page, k)
    ensures k < NSIZES && |h.sizebases| == NSIZES == |h.sizeLists| && page % PAGE_SIZE == 0
    ensures CanAdd(h, pr, page, k, slot, mem')
    ensures var h1 := AddPage(h, pr, page, k, slot, mem');
            Inv(h1) && pr in h1.allList && pr in h1.refs && h1.refs[pr].nfree > 0
  {
    SetUpStart(h, pr, page, k, slot);
    AddReady(h, pr, page, k, slot, mem');
    hide Inv, FullList, CanAdd, Threaded;
    AddInv(h, pr, page, k, slot, mem');
  }

  lemma SetUpDone(h: Heap, h1: Heap, h': Heap, pr: nat, page: nat, k: nat, slot: (nat, nat),
                  mem': map<nat, nat>, ret: nat)
    requires Valid(h) && CanAdd(h, pr, page, k, slot, mem') && h1 == AddPage(h, pr, page, k, slot, mem')
    requires Took(h1, h', pr, ret)
    ensures SetUp(h, h', pr, page, k, slot, ret) && SetsUp(h, h', pr, page, k, slot, ret)
  {
    SetUpStartLists(h);
    AddThreaded(h, pr, page, k, slot, mem');
    hide Inv, Size, At, FullList, NoneWhollyFree, CanAdd, Threaded;
    SetUpFree(h, h1, h', pr, page, k, slot, mem', ret);
    FullListFirst(h, pr, page, k, slot, mem');
  }

  lemma AddThreaded(h: Heap, pr: nat, page: nat, k: nat, slot: (nat, nat), mem': map<nat, nat>)
    requires CanAdd(h, pr, page, k, slot, mem')
    ensures k < NSIZES && page % PAGE_SIZE == 0 && Threaded(h.mem, mem', page, k)
  {
  }

  /** The steps that set up a page keep the heap valid. */
  lemma SetsUpDone(h: Heap, h': Heap, pr: nat, page: nat, k: nat, slot: (nat, nat), ret: nat)
    requires Valid(h) && CanSetUp(h, pr, page, k, slot) && SetsUp(h, h', pr, page, k, slot, ret)
    ensures SetUp(h, h', pr, page, k, slot, ret)
  {
    hide Valid, Inv, SetUp, CanSetUp, Took, Threaded, AddPage, CanAdd;
    AddedRef(h, pr, page, k, slot, h'.mem);
    var h1 := AddPage(h, pr, page, k, slot, h'.mem);
    TookBlock(h1, pr);
    SetUpDone(h, h1, h', pr, page, k, slot, h'.mem, ret);
  }

  lemma SetUpStartLists(h: Heap)
    requires Inv(h)
    ensures |h.sizebases| == NSIZES == |h.sizeLists|
  {
  }

  lemma FullListFirst(h: Heap, pr: nat, page: nat, k: nat, slot: (nat, nat), mem': map<nat, nat>)
    requires CanAdd(h, pr, page, k, slot, mem')
    ensures k < NSIZES && page % PAGE_SIZE == 0 && pr !in h.allList
    ensures FullList(page, k, NBlocks(k))[0] == At(page, k, NBlocks(k) - 1)
  {
    FullListOk(page, k);
  }

  /** The fresh page has given one block, so it is not wholly free. */
  lemma SetUpFree(h: Heap, h1: Heap, h': Heap, pr: nat, page: nat, k: nat, slot: (nat, nat), mem': map<nat, nat>,
                  ret: nat)
    requires NoneWhollyFree(h) && CanAdd(h, pr, page, k, slot, mem') && |h.sizebases| == NSIZES == |h.sizeLists|
    requires h1 == AddPage(h, pr, page, k, slot, mem') && Took(h1, h', pr, ret)
    ensures NoneWhollyFree(h') && Blk(h1.refs[pr]) == k
  {
    hide Inv, Size, At, FullList;
    assert Blk(Refilled(h, page, k)) == k;
    forall p | p in h'.allList
      ensures p in h'.refs && Blk(h'.refs[p]) < NSIZES && h'.refs[p].nfree < NBlocks(Blk(h'.refs[p]))
    {
      assert p != pr ==> p in h.allList && h'.refs[p] == h.refs[p];
    }
  }

  lemma UnlinkedSame(refs: map<nat, PageRef>, refs': map<nat, PageRef>, head: nat, head': nat, l: seq<nat>, i: nat)
    requires SameChain(refs, head, l) && NoDup(l) && i < |l|
    requires if i == 0 then refs' == refs && head' == After(l, 0)
             else head' == head && refs' == refs[l[i - 1] := refs[l[i - 1]].(nextSame := After(l, i))]
    ensures SameChain(refs', head', l[..i] + l[i + 1..])
  {
    var l' := l[..i] + l[i + 1..];
    forall j | 0 <= j < |l'| ensures l'[j] in refs' && l'[j] != 0 && refs'[l'[j]].nextSame == After(l', j) {
      var k := if j < i then j else j + 1;
      assert l'[j] == l[k] && l[k] in refs && l[k] != 0 && refs[l[k]].nextSame == After(l, k);
      assert j + 1 < |l'| ==> l'[j + 1] == if j + 1 < i then l[j + 1] else l[j + 2];
      if k + 1 != i {
        assert i > 0 ==> l[k] != l[i - 1];
      }
    }
  }

  lemma UnlinkedAll(refs: map<nat, PageRef>, refs': map<nat, PageRef>, head: nat, head': nat, l: seq<nat>, i: nat)
    requires AllChain(refs, head, l) && NoDup(l) && i < |l|
    requires if i == 0 then refs' == refs && head' == After(l, 0)
             else head' == head && refs' == refs[l[i - 1] := refs[l[i - 1]].(nextAll := After(l, i))]
    ensures AllChain(refs', head', l[..i] + l[i + 1..])
  {
    var l' := l[..i] + l[i + 1..];
    forall j | 0 <= j < |l'| ensures l'[j] in refs' && l'[j] != 0 && refs'[l'[j]].nextAll == After(l', j) {
      var k := if j < i then j else j + 1;
      assert l'[j] == l[k] && l[k] in refs && l[k] != 0 && refs[l[k]].nextAll == After(l, k);
      assert j + 1 < |l'| ==> l'[j + 1] == if j + 1 < i then l[j + 1] else l[j + 2];
      if k + 1 != i {
        assert i > 0 ==> l[k] != l[i - 1];
      }
    }
  }

  lemma RemoveStart(h: Heap, pr: nat)
    requires Inv(h) && pr in h.allList && pr in h.refs
    ensures PageOk(h, pr) && RefOk(h, pr) && |h.sizeLists| == NSIZES == |h.sizebases| && Blk(h.refs[pr]) < NSIZES
    ensures PageOf(pr) in h.owner && h.owner[PageOf(pr)].RootPage?
    ensures var k := Blk(h.refs[pr]);
            && SameChain(h.refs, h.sizebases[k], h.sizeLists[k]) && NoDup(h.sizeLists[k]) && pr in h.sizeLists[k]
            && AllChain(h.refs, h.allbase, h.allList) && NoDup(h.allList)
  {
    assert PageOk(h, pr) && RefOk(h, pr);
  }

  /** The link writes take p out of the list and change no other field. */
  lemma CutSameOk(refs: map<nat, PageRef>, head: nat, l: seq<nat>, p: nat)
    requires SameChain(refs, head, l) && NoDup(l) && p in l
    ensures var refs' := CutSame(refs, l, p);
            && SameChain(refs', HeadSame(refs, head, l, p), Without(l, p))
            && (forall q :: q in refs ==> q in refs' && refs'[q] == refs[q].(nextSame := refs'[q].nextSame))
            && (forall q :: q in refs && q !in l ==> refs'[q] == refs[q])
  {
    var i := Position(l, p);
    assert p in refs && refs[p].nextSame == After(l, i) && (i > 0 ==> l[i - 1] in refs && l[i - 1] in l);
    WithoutAt(l, i);
    UnlinkedSame(refs, CutSame(refs, l, p), head, HeadSame(refs, head, l, p), l, i);
    hide SameChain, NoDup, Without;
  }

  lemma CutAllOk(refs: map<nat, PageRef>, head: nat, l: seq<nat>, p: nat)
    requires AllChain(refs, head, l) && NoDup(l) && p in l
    ensures var refs' := CutAll(refs, l, p);
            && AllChain(refs', HeadAll(refs, head, l, p), Without(l, p))
            && (forall q :: q in refs ==> q in refs' && refs'[q] == refs[q].(nextAll := refs'[q].nextAll))
  {
    var i := Position(l, p);
    assert p in refs && refs[p].nextAll == After(l, i) && (i > 0 ==> l[i - 1] in refs);
    WithoutAt(l, i);
    UnlinkedAll(refs, CutAll(refs, l, p), head, HeadAll(refs, head, l, p), l, i);
    hide AllChain, NoDup, Without;
  }

  /** The first loop leaves the other list as it was. */
  lemma UnlinkRest(h: Heap, pr: nat)
    requires Inv(h) && OnLists(h, pr)
    ensures AllChain(CutSame(h.refs, h.sizeLists[Blk(h.refs[pr])], pr), h.allbase, h.allList) && NoDup(h.allList)
  {
    RemoveStart(h, pr);
    hide Inv, NoDup, CutSame, SameChain, PageOk, RefOk, PageOf;
    CutSameOk(h.refs, h.sizebases[Blk(h.refs[pr])], h.sizeLists[Blk(h.refs[pr])], pr);
  }

  /** remove_lists leaves both lists consistent. */
  lemma UnlinkPageOk(h: Heap, pr: nat)
    requires Inv(h) && pr in h.allList && pr in h.refs
    ensures OnLists(h, pr) && Unlisted(h, UnlinkPage(h, pr), pr)
  {
    RemoveStart(h, pr);
    hide Inv, Unlisted, SameChain, AllChain, NoDup, Without, CutSame, CutAll, HeadSame, HeadAll, Blk, PageOk, RefOk;
    var k := Blk(h.refs[pr]);
    var refs1 := CutSame(h.refs, h.sizeLists[k], pr);
    CutSameOk(h.refs, h.sizebases[k], h.sizeLists[k], pr);
    UnlinkRest(h, pr);
    CutAllOk(refs1, h.allbase, h.allList, pr);
    RemoveDone(h, pr, refs1, UnlinkPage(h, pr));
  }

  lemma RemoveDone(h: Heap, pr: nat, refs1: map<nat, PageRef>, h': Heap)
    requires Inv(h) && PageOk(h, pr) && RefOk(h, pr) && OnLists(h, pr) && h' == UnlinkPage(h, pr)
    requires refs1 == CutSame(h.refs, h.sizeLists[Blk(h.refs[pr])], pr)
    requires SameChain(refs1, h'.sizebases[Blk(h.refs[pr])], Without(h.sizeLists[Blk(h.refs[pr])], pr))
    requires forall q :: q in h.refs ==> q in refs1 && refs1[q] == h.refs[q].(nextSame := refs1[q].nextSame)
    requires forall q :: q in h.refs && q !in h.sizeLists[Blk(h.refs[pr])] ==> refs1[q] == h.refs[q]
    requires AllChain(h'.refs, h'.allbase, Without(h.allList, pr))
    requires forall q :: q in refs1 ==> q in h'.refs && h'.refs[q] == refs1[q].(nextAll := h'.refs[q].nextAll)
    ensures Unlisted(h, h', pr)
  {
    hide CutSame, CutAll, HeadSame, HeadAll, Without, SameChain, AllChain, PageOf, SlotIndex;
    RemoveChains(h, pr, refs1, h'.sizebases[Blk(h.refs[pr])], h'.refs, h');
    hide Inv, PageOk, RefOk;
  }

  /** The lists of the other sizes keep their links. */
  lemma RemoveChains(h: Heap, pr: nat, refs1: map<nat, PageRef>, head: nat, refs2: map<nat, PageRef>, h': Heap)
    requires Lists(h) && pr in h.refs && Blk(h.refs[pr]) < NSIZES
    requires h'.sizebases == h.sizebases[Blk(h.refs[pr]) := head]
    requires h'.sizeLists == h.sizeLists[Blk(h.refs[pr]) := Without(h.sizeLists[Blk(h.refs[pr])], pr)]
    requires SameChain(refs1, head, Without(h.sizeLists[Blk(h.refs[pr])], pr))
    requires forall q :: q in h.refs ==> q in refs1
    requires forall q :: q in h.refs && q !in h.sizeLists[Blk(h.refs[pr])] ==> refs1[q] == h.refs[q]
    requires forall q :: q in refs1 ==> q in refs2 && refs2[q] == refs1[q].(nextAll := refs2[q].nextAll)
    ensures forall i :: 0 <= i < NSIZES ==> SameChain(refs2, h'.sizebases[i], h'.sizeLists[i])
  {
    var k := Blk(h.refs[pr]);
    hide Without, AllChain, NoDup;
    forall i | 0 <= i < NSIZES ensures SameChain(refs2, h'.sizebases[i], h'.sizeLists[i]) {
      assert SameChain(h.refs, h.sizebases[i], h.sizeLists[i]);
      if i == k {
        hide Lists, SameChain;
        ChainFrame(refs1, refs2, head, Without(h.sizeLists[k], pr));
      } else {
        assert forall q :: q in h.sizeLists[i] ==> q in h.refs && q !in h.sizeLists[k];
        hide Lists, SameChain;
        ChainFrame(h.refs, refs2, h.sizebases[i], h.sizeLists[i]);
      }
    }
  }

  /** The slot's bit is cleared; the assertion fails exactly when an earlier root has bits set
      but no page yet. */
  ghost predicate PagerefFreed(h: Heap, h': Heap, slot: (nat, nat), ok: bool)
  {
    && |h.roots| == NROOTS
    && (ok <==> forall x :: 0 <= x < slot.0 && x < NROOTS ==> h.roots[x].page != 0 || h.roots[x].numinuse == 0)
    && if ok then
         && slot.0 < NROOTS && slot.1 < NREFS && Shaped(h.roots[slot.0].words) && h.roots[slot.0].numinuse > 0
         && h' == Unreserve(h, slot.0, slot.1) && Inv(h')
       else h' == h
  }

  lemma PagerefPanic(h: Heap, slot: (nat, nat), w: nat)
    requires |h.roots| == NROOTS && w < NROOTS && w <= slot.0 && h.roots[w].page == 0 && h.roots[w].numinuse != 0
    requires slot.0 < NROOTS && h.roots[slot.0].page != 0
    ensures PagerefFreed(h, h, slot, false)
  {
  }

  lemma PagerefDone(h: Heap, slot: (nat, nat))
    requires Inv(h) && slot in h.reserved
    requires forall x :: 0 <= x < slot.0 && x < NROOTS && x < |h.roots| ==>
               h.roots[x].page != 0 || h.roots[x].numinuse == 0
    ensures |h.roots| == NROOTS && slot.0 < NROOTS && slot.1 < NREFS && Shaped(h.roots[slot.0].words)
            && h.roots[slot.0].numinuse > 0
    ensures PagerefFreed(h, Unreserve(h, slot.0, slot.1), slot, true)
  {
    UnreserveInv(h, slot.0, slot.1);
    RootShapes(h);
    hide Inv;
  }

  /** A pageref lies in exactly one root's page. */
  lemma SlotRoot(h: Heap, p: nat, w: nat, j: nat, x: nat)
    requires Inv(h) && Slot(h.roots, p, w, j) && x < NROOTS && h.roots[x].page != 0
    ensures h.roots[x].page <= p && (p - h.roots[x].page) / REF_SIZE < NREFS <==> x == w
    ensures x == w ==> (p - h.roots[x].page) / REF_SIZE == j
  {
    SlotOwner(h, p, w, j);
    RootShapes(h);
    var page := h.roots[x].page;
    if page <= p < page + PAGE_SIZE {
      PageOfUnique(page, p);
    }
  }

  /** ptr is a live block on the page of pr. */
  ghost predicate OnPage(h: Heap, pr: nat, ptr: nat)
  {
    && pr in h.allList && PageOk(h, pr) && ptr in h.live
    && IsBlock(PageAddr(h.refs[pr]), Blk(h.refs[pr]), ptr)
  }

  /** The block is free again and everything else is as before. */
  ghost predicate Pushed(h: Heap, h': Heap, pr: nat, ptr: nat)
  {
    && OnPage(h, pr, ptr) && h' == PutBlock(h, pr, ptr, h'.mem) && Inv(h')
    && Linked(h.mem, h'.mem, ptr, Size(Blk(h.refs[pr])), First(h.free[pr]))
    && h.refs[pr].nfree < NBlocks(Blk(h.refs[pr]))
  }

  lemma PushStart(h: Heap, pr: nat, ptr: nat)
    requires Inv(h) && OnPage(h, pr, ptr)
    ensures pr in h.refs && pr in h.free && Blk(h.refs[pr]) < NSIZES && 0 < PageAddr(h.refs[pr]) <= ptr
    ensures FreeList(h.refs[pr], h.free[pr], h.mem) && IsBlock(PageAddr(h.refs[pr]), Blk(h.refs[pr]), ptr)
            && ptr !in h.free[pr]
  {
    hide Inv;
  }

  lemma PushDone(h: Heap, pr: nat, ptr: nat, mem': map<nat, nat>)
    requires Inv(h) && OnPage(h, pr, ptr)
    requires Linked(h.mem, mem', ptr, Size(Blk(h.refs[pr])), First(h.free[pr]))
    ensures Pushed(h, PutBlock(h, pr, ptr, mem'), pr, ptr)
  {
    hide Inv, Linked;
    PutInv(h, pr, ptr, mem');
  }

  /** kfree is not given a block that is already free, unless it is the first of its free list,
      which the code checks. */
  ghost predicate NotDoubleFree(h: Heap, ptr: nat)
  {
    forall p :: p in h.allList && p in h.refs && Blk(h.refs[p]) < NSIZES ==>
      IsBlock(PageAddr(h.refs[p]), Blk(h.refs[p]), ptr) ==> ptr in h.live || AtHead(h.refs[p], ptr)
  }

  /** ptr is the first free block of its page. */
  predicate AtHead(r: PageRef, ptr: nat)
  {
    r.flo != INVALID_OFFSET && ptr == PageAddr(r) + r.flo
  }

  /** ptr is the only live block of its page, and the pageref of that page is in root w. */
  ghost predicate Alone(h: Heap, ptr: nat, w: nat)
  {
    && PageOf(ptr) in h.owner && h.owner[PageOf(ptr)].HeapPage?
    && var pr := h.owner[PageOf(ptr)].pr;
       && pr in h.refs && Blk(h.refs[pr]) < NSIZES && LiveOn(h, pr) == {ptr}
       && PageOf(pr) in h.owner && h.owner[PageOf(pr)] == RootPage(w)
  }

  /** Freeing ptr gives its page back, and freepageref comes past a root with bits set but no
      page before it finds the pageref. */
  ghost predicate Stuck(h: Heap, ptr: nat)
  {
    exists w, x :: 0 <= x < w && Alone(h, ptr, w) && Pageless(h.roots, x)
  }

  /** What other threads rely on: slots they have reserved stay reserved, pages in their hands
      stay there, and a root that has a page keeps it. */
  ghost predicate Kept(h: Heap, h': Heap, slots: set<(nat, nat)>, pages: set<nat>)
  {
    && |h'.roots| == |h.roots|
    && (forall w :: 0 <= w < |h.roots| && h.roots[w].page != 0 ==> h'.roots[w].page == h.roots[w].page)
    && (forall s :: s in h.reserved && s !in slots ==> s in h'.reserved)
    && (forall p :: p in h.owner && h.owner[p] == InTransit && p !in pages ==>
          p in h'.owner && h'.owner[p] == InTransit)
  }

  /** A full root that never got its page: no pageref will come from it. */
  predicate Lost(h: Heap, w: nat)
  {
    w < |h.roots| && h.roots[w].page == 0 && h.roots[w].numinuse >= NREFS
  }

  ghost predicate OnHeapPage(h: Heap, ptr: nat)
  {
    exists p :: p in h.allList && p in h.refs && PageAddr(h.refs[p]) <= ptr < PageAddr(h.refs[p]) + PAGE_SIZE
  }

  /** What kfree achieves.  A live block ceases to be live and no other block is touched; only
      a live block of whole pages is not ours; and freeing a live block panics exactly if it is
      stuck. */
  ghost predicate KfreeDone(h: Heap, h': Heap, ptr: nat, r: FreeResult, page: nat)
  {
    && (r == Freed ==>
         && ptr in h.live && h'.live == h.live - {ptr} && h'.big == h.big && Valid(h') && (Quiet(h) ==> Quiet(h'))
         && Kept(h, h', {}, {}) && (forall w :: Lost(h, w) ==> Lost(h', w))
         && (page != 0 ==> InHand(h', page) && page in h.owner && h.owner[page] != InTransit))
    && (r == NotOurs ==> h' == h && (ptr in h.live ==> ptr in h.big))
    && (r == NotOurs <==> !OnHeapPage(h, ptr))
    && (ptr in h.live ==> (r == Panicked <==> Stuck(h, ptr)))
    && (ptr in h.big ==> r == NotOurs)
  }

  /** A page that its holder got from alloc_kpages and that is not yet, or no longer, in use. */
  ghost predicate InHand(h: Heap, page: nat)
  {
    page in h.owner && h.owner[page] == InTransit && 0 < page && page + PAGE_SIZE <= LIMIT
  }

  lemma KfreeNotOurs(h: Heap, ptr: nat)
    requires Inv(h)
    requires forall p :: p in h.allList ==>
               p in h.refs && !(PageAddr(h.refs[p]) <= ptr < PageAddr(h.refs[p]) + PAGE_SIZE)
    ensures KfreeDone(h, h, ptr, NotOurs, 0)
  {
    NotOnHeap(h, ptr);
    hide Inv, Pageless, Valid, LiveOn, PageOf;
  }

  lemma NotOnHeap(h: Heap, ptr: nat)
    requires Inv(h)
    requires forall p :: p in h.allList ==>
               p in h.refs && !(PageAddr(h.refs[p]) <= ptr < PageAddr(h.refs[p]) + PAGE_SIZE)
    ensures ptr in h.live ==> ptr in h.big && PageOf(ptr) in h.owner && !h.owner[PageOf(ptr)].HeapPage?
  {
    assert ptr in h.live ==> LiveOk(h, ptr);
    hide Inv;
  }

  /** A live pointer on a heap page is a block of that page. */
  lemma LiveBlock(h: Heap, pr: nat, ptr: nat)
    requires Inv(h) && pr in h.allList && pr in h.refs && Blk(h.refs[pr]) < NSIZES
    requires PageAddr(h.refs[pr]) <= ptr < PageAddr(h.refs[pr]) + PAGE_SIZE
    ensures PageOk(h, pr) && ptr !in h.big
    ensures ptr in h.live ==> IsBlock(PageAddr(h.refs[pr]), Blk(h.refs[pr]), ptr)
  {
    assert PageOk(h, pr);
    PageOfUnique(PageAddr(h.refs[pr]), ptr);
    assert ptr in h.live ==> LiveOk(h, ptr);
    assert ptr in h.big ==> BigOk(h, ptr);
    hide Inv;
  }

  lemma KfreeMisplaced(h: Heap, pr: nat, ptr: nat)
    requires Inv(h) && pr in h.allList && pr in h.refs && Blk(h.refs[pr]) < NSIZES
    requires PageAddr(h.refs[pr]) <= ptr < PageAddr(h.refs[pr]) + PAGE_SIZE
    requires !IsBlock(PageAddr(h.refs[pr]), Blk(h.refs[pr]), ptr)
    ensures KfreeDone(h, h, ptr, Panicked, 0)
  {
    hide Inv, IsBlock, PageOk, KfreeDone;
    LiveBlock(h, pr, ptr);
    KfreePanics(h, ptr);
  }

  lemma KfreePanics(h: Heap, ptr: nat)
    requires ptr !in h.live && ptr !in h.big && OnHeapPage(h, ptr)
    ensures KfreeDone(h, h, ptr, Panicked, 0)
  {
    hide OnHeapPage, Valid, Kept, Quiet, Stuck;
  }

  /** The check of the list head finds only blocks that are free already. */
  lemma KfreeTwice(h: Heap, pr: nat, ptr: nat)
    requires Inv(h) && pr in h.allList && pr in h.refs && Blk(h.refs[pr]) < NSIZES
    requires PageAddr(h.refs[pr]) <= ptr < PageAddr(h.refs[pr]) + PAGE_SIZE && AtHead(h.refs[pr], ptr)
    ensures ptr !in h.live && KfreeDone(h, h, ptr, Panicked, 0)
  {
    hide Inv, IsBlock, PageOk, KfreeDone;
    LiveBlock(h, pr, ptr);
    HeadNotLive(h, pr, ptr);
    KfreePanics(h, ptr);
  }

  lemma HeadNotLive(h: Heap, pr: nat, ptr: nat)
    requires PageOk(h, pr) && AtHead(h.refs[pr], ptr)
    ensures ptr !in h.live
  {
    hide PageOf, Size;
    var fl := h.free[pr];
    assert fl != [] && ptr == fl[0] && ptr in fl && IsBlock(PageAddr(h.refs[pr]), Blk(h.refs[pr]), fl[0]);
  }

  /** Freeing a block that is free but not the first of its list is not noticed.  The links then
      run in a circle: no list of blocks is what they stand for. */
  lemma DoubleFreeBreaks(h: Heap, pr: nat, ptr: nat, mem': map<nat, nat>, fl': seq<nat>)
    requires PageOk(h, pr) && ptr in h.free[pr] && ptr != h.free[pr][0]
    requires Linked(h.mem, mem', ptr, Size(Blk(h.refs[pr])), First(h.free[pr]))
    ensures var r := h.refs[pr]; !FreeList(r.(nfree := r.nfree + 1, flo := ptr - PageAddr(r)), fl', mem')
  {
    var r, fl := h.refs[pr], h.free[pr];
    var i :| 0 <= i < |fl| && fl[i] == ptr;
    hide Size, PageOf, FreeList, Linked;
    forall j | 0 <= j < i ensures fl[j] in mem' && mem'[fl[j]] == fl[j + 1] && fl[j] != 0 {
      LinkKept(r, fl, h.mem, mem', i, j);
    }
    FirstLink(r, fl, h.mem, mem', i);
    NoCircle(r.(nfree := r.nfree + 1, flo := ptr - PageAddr(r)), fl', mem', fl, i);
  }

  lemma FirstLink(r: PageRef, fl: seq<nat>, mem: map<nat, nat>, mem': map<nat, nat>, i: nat)
    requires FreeList(r, fl, mem) && 0 < i < |fl| && Linked(mem, mem', fl[i], Size(Blk(r)), First(fl))
    ensures fl[i] in mem' && mem'[fl[i]] == fl[0] && PageAddr(r) <= fl[i] < PageAddr(r) + PAGE_SIZE
  {
    hide Size, PageOf;
    assert IsBlock(PageAddr(r), Blk(r), fl[i]);
  }

  /** Overwriting one block leaves the links in the others. */
  lemma LinkKept(r: PageRef, fl: seq<nat>, mem: map<nat, nat>, mem': map<nat, nat>, i: nat, j: nat)
    requires FreeList(r, fl, mem) && 0 < PageAddr(r) && j < i < |fl|
             && Linked(mem, mem', fl[i], Size(Blk(r)), First(fl))
    ensures fl[j] in mem' && mem'[fl[j]] == fl[j + 1] && fl[j] != 0
  {
    hide Size, PageOf;
    var page, k, a, b := PageAddr(r), Blk(r), fl[j], fl[i];
    assert IsBlock(page, k, a) && IsBlock(page, k, b) && a in mem && mem[a] == fl[j + 1] && a != b;
    hide FreeList;
    if a < b {
      BlockGap(page, k, a, b);
    } else {
      BlockGap(page, k, b, a);
    }
    hide IsBlock;
  }

  /** Following the links from block i leads through the blocks before it. */
  lemma {:induction false} Circle(r': PageRef, fl': seq<nat>, mem': map<nat, nat>, fl: seq<nat>, i: nat, k: nat)
    requires FreeList(r', fl', mem') && k < i < |fl| && PageAddr(r') <= fl[i] < PageAddr(r') + PAGE_SIZE
    requires r'.flo == fl[i] - PageAddr(r') && fl[i] in mem' && mem'[fl[i]] == fl[0]
    requires forall j :: 0 <= j < i ==> fl[j] in mem' && mem'[fl[j]] == fl[j + 1] && fl[j] != 0
    ensures k + 1 < |fl'| && fl'[0] == fl[i] && fl'[k + 1] == fl[k]
  {
    hide PageOf, IsBlock, NoDup;
    if k == 0 {
      assert fl' != [] && fl'[0] == fl[i];
      assert mem'[fl'[0]] == After(fl', 0);
    } else {
      Circle(r', fl', mem', fl, i, k - 1);
      assert mem'[fl[k - 1]] == fl[k - 1 + 1] && fl[k] != 0;
      assert mem'[fl'[k]] == After(fl', k);
    }
  }

  lemma NoCircle(r': PageRef, fl': seq<nat>, mem': map<nat, nat>, fl: seq<nat>, i: nat)
    requires 0 < i < |fl| && PageAddr(r') <= fl[i] < PageAddr(r') + PAGE_SIZE && 0 < PageAddr(r')
    requires r'.flo == fl[i] - PageAddr(r') && fl[i] in mem' && mem'[fl[i]] == fl[0]
    requires forall j :: 0 <= j < i ==> fl[j] in mem' && mem'[fl[j]] == fl[j + 1] && fl[j] != 0
    ensures !FreeList(r', fl', mem')
  {
    hide PageOf, IsBlock;
    if FreeList(r', fl', mem') {
      Circle(r', fl', mem', fl, i, i - 1);
    }
  }

  lemma KfreeStart(h: Heap, pr: nat, ptr: nat)
    requires Inv(h) && NotDoubleFree(h, ptr) && pr in h.allList && pr in h.refs && Blk(h.refs[pr]) < NSIZES
    requires PageAddr(h.refs[pr]) <= ptr < PageAddr(h.refs[pr]) + PAGE_SIZE
    requires IsBlock(PageAddr(h.refs[pr]), Blk(h.refs[pr]), ptr) && !AtHead(h.refs[pr], ptr)
    ensures OnPage(h, pr, ptr)
  {
    LiveBlock(h, pr, ptr);
    hide Inv, IsBlock, PageOf, PageOk;
  }

  /** What a push changes, field by field. */
  ghost predicate PushStep(h: Heap, h1: Heap, pr: nat, ptr: nat)
  {
    && pr in h.refs && pr in h.allList && Blk(h.refs[pr]) < NSIZES && ptr in h.live && ptr !in h.big
    && pr in h1.refs
    && h1 == h.(refs := h.refs[pr := h1.refs[pr]], free := h1.free, live := h.live - {ptr}, mem := h1.mem)
    && h1.refs[pr] == h.refs[pr].(nfree := h.refs[pr].nfree + 1, flo := h1.refs[pr].flo)
    && h.refs[pr].nfree < NBlocks(Blk(h.refs[pr]))
  }

  lemma PushedBlock(h: Heap, h1: Heap, pr: nat, ptr: nat)
    requires Inv(h) && Pushed(h, h1, pr, ptr)
    ensures Inv(h1) && PushStep(h, h1, pr, ptr)
  {
    LiveBlock(h, pr, ptr);
    hide Inv, PageOk;
  }

  lemma UnlistedSlot(h1: Heap, h2: Heap, pr: nat)
    requires Inv(h1) && Unlisted(h1, h2, pr) && h1.refs[pr].nfree == NBlocks(Blk(h1.refs[pr]))
    ensures PageOf(pr) in h1.owner && h1.owner[PageOf(pr)].RootPage?
    ensures var slot := (h1.owner[PageOf(pr)].w, SlotIndex(pr));
            slot in h2.reserved && Slot(h2.roots, pr, slot.0, slot.1)
    ensures Inv(h2) && forall x :: x in h2.allList <==> x in h1.allList && x != pr
  {
    UnlistInv(h1, h2, pr);
    hide Inv, Lists, Pages;
  }

  /** The last live block of a page is the one whose freeing makes the page wholly free. */
  lemma LastBlock(h: Heap, pr: nat, ptr: nat)
    requires Inv(h) && OnPage(h, pr, ptr)
    ensures PageOf(ptr) == PageAddr(h.refs[pr]) && PageOf(ptr) in h.owner && h.owner[PageOf(ptr)] == HeapPage(pr)
    ensures PageOf(pr) in h.owner && h.owner[PageOf(pr)].RootPage?
    ensures LiveOn(h, pr) == {ptr} <==> h.refs[pr].nfree + 1 == NBlocks(Blk(h.refs[pr]))
  {
    assert RefOk(h, pr);
    PageOfUnique(PageAddr(h.refs[pr]), ptr);
    PageAccount(h, pr);
    hide Inv, PageOf, NBlocks, Size;
    OneElement(LiveOn(h, pr), ptr);
  }

  lemma OneElement(s: set<nat>, x: nat)
    requires x in s
    ensures s == {x} <==> |s| == 1
  {
    if |s| == 1 {
      var rest := s - {x};
      assert |rest| == 0;
      assert s == {x} + rest;
    }
  }

  /** When freeing a block on the page of pr panics. */
  lemma StuckMeans(h: Heap, pr: nat, ptr: nat, w: nat)
    requires pr in h.refs && Blk(h.refs[pr]) < NSIZES && PageOf(ptr) in h.owner && h.owner[PageOf(ptr)] == HeapPage(pr)
    requires PageOf(pr) in h.owner && h.owner[PageOf(pr)] == RootPage(w)
    ensures Stuck(h, ptr) <==> LiveOn(h, pr) == {ptr} && exists x :: 0 <= x < w && Pageless(h.roots, x)
  {
    hide PageOf, Pageless, LiveOn;
    assert Alone(h, ptr, w) <==> LiveOn(h, pr) == {ptr};
    forall v | Alone(h, ptr, v) ensures v == w {
    }
  }

  lemma KfreePart(h: Heap, h1: Heap, pr: nat, ptr: nat)
    requires Valid(h) && OnPage(h, pr, ptr) && Inv(h1) && PushStep(h, h1, pr, ptr)
    requires h1.refs[pr].nfree != NBlocks(Blk(h.refs[pr]))
    ensures KfreeDone(h, h1, ptr, Freed, 0)
  {
    hide Inv, NBlocks, PageOk, IsBlock, LiveOn, Stuck, PageOf;
    LastBlock(h, pr, ptr);
    StuckMeans(h, pr, ptr, h.owner[PageOf(pr)].w);
    assert NoneWhollyFree(h1);
    OnHeap(h, pr, ptr);
  }

  lemma OnHeap(h: Heap, pr: nat, ptr: nat)
    requires OnPage(h, pr, ptr)
    ensures OnHeapPage(h, ptr)
  {
  }

  lemma KfreeWhole(h: Heap, h1: Heap, h2: Heap, h': Heap, pr: nat, ptr: nat, slot: (nat, nat), ok: bool)
    requires Valid(h) && OnPage(h, pr, ptr) && PushStep(h, h1, pr, ptr) && Inv(h1) && Unlisted(h1, h2, pr)
    requires forall x :: x in h2.allList <==> x in h1.allList && x != pr
    requires h1.refs[pr].nfree == NBlocks(Blk(h.refs[pr]))
    requires PageOf(pr) in h1.owner && h1.owner[PageOf(pr)].RootPage? && slot == (h1.owner[PageOf(pr)].w, SlotIndex(pr))
    requires PagerefFreed(h2, h', slot, ok)
    ensures KfreeDone(h, h', ptr, if ok then Freed else Panicked, PageAddr(h.refs[pr]))
  {
    hide Inv, NBlocks, PageOk, IsBlock, LiveOn, Stuck, PageOf, PagerefFreed, Unlisted, Kept, NoneWhollyFree, Quiet;
    LastBlock(h, pr, ptr);
    StuckMeans(h, pr, ptr, slot.0);
    OnHeap(h, pr, ptr);
    UnlistedRest(h1, h2, pr);
    PagerefStuck(h2, h', slot, ok);
    if ok {
      WholeKept(h, h1, h2, h', pr, ptr, slot);
      WholeRest(h, h1, h2, h', pr, ptr, slot);
    }
  }

  lemma PagerefStuck(h: Heap, h': Heap, slot: (nat, nat), ok: bool)
    requires PagerefFreed(h, h', slot, ok)
    ensures !ok <==> exists x :: 0 <= x < slot.0 && Pageless(h.roots, x)
    ensures ok ==> Inv(h')
  {
    hide Inv;
    if !ok {
      var x :| 0 <= x < slot.0 && x < NROOTS && h.roots[x].page == 0 && h.roots[x].numinuse != 0;
      assert Pageless(h.roots, x);
    }
  }

  lemma WholeKept(h: Heap, h1: Heap, h2: Heap, h': Heap, pr: nat, ptr: nat, slot: (nat, nat))
    requires PushStep(h, h1, pr, ptr) && Unlisted(h1, h2, pr) && PagerefFreed(h2, h', slot, true)
    requires PageOf(pr) in h1.owner && h1.owner[PageOf(pr)].RootPage? && slot == (h1.owner[PageOf(pr)].w, SlotIndex(pr))
    ensures Kept(h, h', {}, {}) && forall w :: Lost(h, w) ==> Lost(h', w)
    ensures h'.live == h.live - {ptr} && h'.big == h.big
    ensures PageAddr(h.refs[pr]) in h.owner && h.owner[PageAddr(h.refs[pr])] == HeapPage(pr)
            && InHand(h', PageAddr(h.refs[pr]))
  {
    hide Inv, FreeList, Partition, BitSet, SlotIndex, PageOf, AllChain, SameChain, Without, NBlocks;
    assert slot !in h.reserved && h.roots[slot.0].page != 0;
  }

  lemma WholeRest(h: Heap, h1: Heap, h2: Heap, h': Heap, pr: nat, ptr: nat, slot: (nat, nat))
    requires NoneWhollyFree(h) && PushStep(h, h1, pr, ptr) && Unlisted(h1, h2, pr) && PagerefFreed(h2, h', slot, true)
    requires forall x :: x in h2.allList <==> x in h1.allList && x != pr
    ensures NoneWhollyFree(h') && (Quiet(h) ==> Quiet(h'))
  {
    UnlistedRest(h1, h2, pr);
    QuietRoots(h, h2);
    if Quiet(h2) {
      QuietKept(h2, h', slot);
    }
    hide Inv, PageOf, NBlocks, Unlisted, FlipBit, BitSet, Size, Quiet;
    forall p | p in h'.allList
      ensures p in h'.refs && Blk(h'.refs[p]) < NSIZES && h'.refs[p].nfree < NBlocks(Blk(h'.refs[p]))
    {
      assert p in h.allList && p in h.refs && h1.refs[p] == h.refs[p];
      assert Blk(h2.refs[p]) == Blk(h.refs[p]);
    }
  }

  /** The steps of subpage_kfree for a block on a heap page. */
  ghost predicate Frees(h: Heap, h': Heap, ptr: nat, page: nat)
  {
    && PageOf(ptr) in h.owner && h.owner[PageOf(ptr)].HeapPage?
    && FreesOn(h, h', h.owner[PageOf(ptr)].pr, ptr, page)
  }

  lemma FreesPart(h: Heap, h1: Heap, pr: nat, ptr: nat)
    requires Inv(h) && Pushed(h, h1, pr, ptr) && h1.refs[pr].nfree != NBlocks(Blk(h.refs[pr]))
    ensures Frees(h, h1, ptr, 0)
  {
    hide Inv, NBlocks, Linked, Partition, Size;
    PageOfUnique(PageAddr(h.refs[pr]), ptr);
    assert Blk(h.refs[pr]) < NSIZES;
    hide PageOf, FreeList;
  }

  lemma FreesWhole(h: Heap, h1: Heap, h2: Heap, h': Heap, pr: nat, ptr: nat)
    requires Inv(h) && Pushed(h, h1, pr, ptr) && h1.refs[pr].nfree == NBlocks(Blk(h.refs[pr]))
    requires OnLists(h1, pr) && h2 == UnlinkPage(h1, pr)
    requires PagerefFreed(h2, h', (h1.owner[PageOf(pr)].w, SlotIndex(pr)), true)
    requires PageOf(pr) != PageAddr(h1.refs[pr])
    ensures Frees(h, h', ptr, PageAddr(h.refs[pr]))
  {
    hide Inv, NBlocks, Linked, FreeList, Partition, Size, CutSame, CutAll, HeadSame, HeadAll, Without;
    PageOfUnique(PageAddr(h.refs[pr]), ptr);
    hide PageOf, FlipBit, SlotIndex;
    assert h2.owner == h1.owner[PageAddr(h1.refs[pr]) := InTransit] && h2.mem == h1.mem && h'.mem == h1.mem;
  }

  lemma QuietKept(h: Heap, h': Heap, slot: (nat, nat))
    requires PagerefFreed(h, h', slot, true) && Quiet(h)
    ensures Quiet(h')
  {
  }

  lemma QuietRoots(h: Heap, h': Heap)
    requires h'.roots == h.roots
    ensures Quiet(h) <==> Quiet(h')
  {
  }

  lemma UnlistedRest(h1: Heap, h2: Heap, pr: nat)
    requires Unlisted(h1, h2, pr)
    ensures h2.roots == h1.roots && h2.live == h1.live && h2.big == h1.big
    ensures PageAddr(h1.refs[pr]) in h2.owner && h2.owner[PageAddr(h1.refs[pr])] == InTransit
    ensures forall q :: q in h1.refs ==>
              q in h2.refs && h2.refs[q].pab == h1.refs[q].pab && h2.refs[q].nfree == h1.refs[q].nfree
  {
    hide PageOk, RefOk, Without, AllChain, SameChain, PageOf, SlotIndex;
  }

  /** One fresh page. */
  ghost predicate FreshPage(h: Heap, va: nat)
    ensures FreshPage(h, va) <==> FreshPages(h, va, 1)
  {
    FreshOne(h, va);
    0 < va && va % PAGE_SIZE == 0 && va + PAGE_SIZE <= LIMIT && va !in h.owner
  }

  lemma FreshOne(h: Heap, va: nat)
    ensures FreshPages(h, va, 1) <==> 0 < va && va % PAGE_SIZE == 0 && va + PAGE_SIZE <= LIMIT && va !in h.owner
  {
    assert forall p :: p % PAGE_SIZE == 0 && va % PAGE_SIZE == 0 && va <= p < va + PAGE_SIZE * 1 ==> p == va;
    assert va <= va < va + PAGE_SIZE * 1;
  }

  ghost function BigOwner(owner: map<nat, Owner>, va: nat, n: nat): (o: map<nat, Owner>)
    ensures forall p :: p in o <==> p in owner || (0 <= p && InRange(va, n, p))
    ensures forall p :: p in o ==> o[p] == if InRange(va, n, p) then BigBlock(va) else owner[p]
  {
    var range := set p: nat | va <= p < va + PAGE_SIZE * n && InRange(va, n, p);
    map p | p in owner.Keys + range :: if InRange(va, n, p) then BigBlock(va) else owner[p]
  }

  lemma ReservedFacts(h: Heap, h': Heap, r: Option<(nat, nat)>)
    requires Reserved(h, h', r)
    ensures Valid(h')
    ensures r.None? ==> h' == h && FirstRoom(h.roots) == NROOTS == |h.roots|
    ensures r.Some? ==>
              && r.value.0 < NROOTS == |h'.roots| == |h.roots|
              && h'.roots[r.value.0].page == h.roots[r.value.0].page && h'.owner == h.owner
  {
    hide Valid;
  }

  lemma InstalledFacts(h: Heap, h': Heap, w: nat, va: nat, back: bool)
    requires w < NROOTS && Installed(h, h', w, va, back) && h.roots[w].page == 0
    ensures Valid(h') && h' == if va == 0 then h else Install(h, w, va)
  {
    hide Valid;
  }

  lemma SetUpFacts(h: Heap, h': Heap, pr: nat, page: nat, k: nat, slot: (nat, nat), ret: nat)
    requires k < NSIZES && SetUp(h, h', pr, page, k, slot, ret)
    ensures Valid(h') && ret != 0 && ret !in h.live && h'.live == h.live[ret := Size(k)]
    ensures h'.roots == h.roots
  {
    hide Valid;
  }

  lemma TriedFacts(h: Heap, h': Heap, k: nat, pr: nat, ret: nat)
    requires k < NSIZES && Tried(h, h', k, pr, ret)
    ensures Valid(h')
    ensures if ret == 0 then h' == h
            else ret !in h.live && h'.live == h.live[ret := Size(k)] && h'.owner == h.owner && h'.roots == h.roots
    ensures ret != 0 ==> h.allList != []
  {
    hide Valid, Inv;
  }

  lemma KfreeFacts(h: Heap, h': Heap, ptr: nat, r: FreeResult, page: nat)
    requires KfreeDone(h, h', ptr, r, page) && ptr in h.live && Inv(h)
    ensures r == Freed ==> Valid(h') && h'.live == h.live - {ptr} && (Quiet(h) ==> Quiet(h'))
    ensures r == Freed && page != 0 ==> page in h'.owner && h'.owner[page] == InTransit
    ensures r == NotOurs ==> h' == h && ptr in h.big && ptr % PAGE_SIZE == 0
    ensures r == Panicked <==> Stuck(h, ptr)
    ensures r == Freed ==> forall w :: Lost(h, w) ==> Lost(h', w)
  {
    assert ptr in h.big ==> BigOk(h, ptr);
    hide Valid, Inv, Stuck;
  }

  /** If no root has bits set without a page, nothing is stuck. */
  lemma QuietNotStuck(h: Heap, ptr: nat)
    requires Quiet(h)
    ensures !Stuck(h, ptr)
  {
  }

  // ---- What a fresh page costs in pagerefs ----

  /** The first root with room has one bit more, and the page for pagerefs if it had none.  There
      is a block exactly if that root has a page then, and it is alone on its page. */
  ghost predicate Grown(h: Heap, h': Heap, page: nat, rootVa: nat, ret: nat)
  {
    && |h.roots| == NROOTS == |h'.roots|
    && var w := FirstRoom(h.roots);
       if page == 0 || w == NROOTS then ret == 0 && h' == h
       else
         && h'.roots == h.roots[w := h'.roots[w]] && h'.roots[w].numinuse == h.roots[w].numinuse + 1
         && h'.roots[w].page == (if h.roots[w].page == 0 then rootVa else h.roots[w].page)
         && (ret == 0 <==> h'.roots[w].page == 0)
         && if ret == 0 then h' == h.(roots := h'.roots, reserved := h'.reserved) else Alone(h', ret, w)
  }

  /** The size of the smallest blocks that hold a request. */
  predicate Fits(sz: nat, n: nat)
  {
    exists k :: 0 <= k < NSIZES && n == Size(k) && sz <= n && forall j :: 0 <= j < k ==> Size(j) < sz
  }

  lemma FitsType(sz: nat)
    requires sz <= 2048
    ensures Fits(sz, Size(TypeOf(sz)))
  {
    hide TypeOf, Size;
  }

  /** A page of the smallest size that holds the request has a free block. */
  ghost predicate RoomFor(h: Heap, sz: nat)
  {
    exists p :: p in h.allList && p in h.refs && Blk(h.refs[p]) < NSIZES
             && Fits(sz, Size(Blk(h.refs[p]))) && h.refs[p].nfree > 0
  }

  /** The first root that is not full has a page or gets one. */
  predicate RootFor(roots: seq<Root>, rootVa: nat)
  {
    exists w :: 0 <= w < |roots| && roots[w].numinuse < NREFS && (roots[w].page != 0 || rootVa != 0)
             && forall x :: 0 <= x < w ==> roots[x].numinuse >= NREFS
  }

  /** The block is the first free one of the first page of its size with room, and the heap has
      changed by that block only. */
  ghost predicate FromRoom(h: Heap, h': Heap, sz: nat, ret: nat)
  {
    exists pr :: pr in h.allList && CanTake(h, pr) && h' == TakeBlock(h, pr) && ret == h.free[pr][0]
              && Fits(sz, Size(Blk(h.refs[pr])))
              && Blk(h.refs[pr]) < |h.sizeLists| && FullUpTo(h.refs, h.sizeLists[Blk(h.refs[pr])], pr)
  }

  lemma FitsOnce(sz: nat, k: nat)
    requires sz <= 2048 && k < NSIZES && Fits(sz, Size(k))
    ensures k == TypeOf(sz)
  {
    var i :| 0 <= i < NSIZES && Size(k) == Size(i) && sz <= Size(k) && forall j :: 0 <= j < i ==> Size(j) < sz;
    assert i == k;
    hide Size;
  }

  lemma TriedExactly(h: Heap, h': Heap, sz: nat, pr: nat, ret: nat)
    requires Valid(h) && sz <= 2048 && Tried(h, h', TypeOf(sz), pr, ret)
    ensures ret != 0 <==> RoomFor(h, sz)
    ensures ret != 0 ==> FromRoom(h, h', sz, ret)
  {
    FitsType(sz);
    ValidInv(h);
    hide Valid, TypeOf, Fits, Size;
    if ret == 0 {
      forall p | p in h.allList && p in h.refs && Blk(h.refs[p]) < NSIZES && Fits(sz, Size(Blk(h.refs[p])))
        ensures h.refs[p].nfree == 0
      {
        FitsOnce(sz, Blk(h.refs[p]));
        NoneFree(h, p);
      }
    } else {
      hide Inv;
    }
  }

  lemma NoneFree(h: Heap, p: nat)
    requires Inv(h) && p in h.allList && p in h.refs && Blk(h.refs[p]) < NSIZES == |h.sizeLists|
    requires FullUpTo(h.refs, h.sizeLists[Blk(h.refs[p])], 0)
    ensures h.refs[p].nfree == 0
  {
    var l := h.sizeLists[Blk(h.refs[p])];
    assert p in l;
    SizeList(h, Blk(h.refs[p]));
    hide Inv;
    var i: nat :| FullTo(h.refs, l, i) && 0 == (if i < |l| then l[i] else 0);
    assert i == |l|;
  }

  lemma GrownExactly(h: Heap, h': Heap, page: nat, rootVa: nat, ret: nat)
    requires Grown(h, h', page, rootVa, ret)
    ensures ret != 0 <==> page != 0 && RootFor(h.roots, rootVa)
  {
    hide Alone;
    var w := FirstRoom(h.roots);
    hide FirstRoom;
    if RootFor(h.roots, rootVa) {
      var x :| 0 <= x < |h.roots| && h.roots[x].numinuse < NREFS && (h.roots[x].page != 0 || rootVa != 0)
            && forall y :: 0 <= y < x ==> h.roots[y].numinuse >= NREFS;
      assert !(x < w) && !(w < x);
    }
  }

  lemma InstallValid(h: Heap, w: nat, va: nat)
    requires Valid(h) && w < NROOTS == |h.roots| && h.roots[w].page == 0 && InHand(h, va)
    ensures Valid(Install(h, w, va))
  {
    hide Inv;
    InstallInv(h, w, va);
  }


  lemma ValidRoots(h: Heap)
    requires Valid(h)
    ensures |h.roots| == NROOTS
  {
  }

  lemma GrownNot(h: Heap, page: nat, rootVa: nat)
    requires |h.roots| == NROOTS && (page == 0 || FirstRoom(h.roots) == NROOTS)
    ensures Grown(h, h, page, rootVa, 0)
  {
  }

  /** The first root with room has one bit more, and rootVa as its page if it had none; there is
      a pageref exactly if it has a page then. */
  ghost predicate Pageref(h: Heap, h': Heap, rootVa: nat, s: Option<(nat, nat)>)
  {
    && Valid(h') && |h.roots| == NROOTS == |h'.roots|
    && var w := FirstRoom(h.roots);
       if w == NROOTS then s == None && h' == h
       else
         && h'.roots == h.roots[w := h'.roots[w]] && h'.roots[w].numinuse == h.roots[w].numinuse + 1
         && h'.roots[w].page == (if h.roots[w].page == 0 then rootVa else h.roots[w].page)
         && h' == h.(roots := h'.roots, reserved := h'.reserved,
                     owner := if h.roots[w].page == 0 && rootVa != 0 then h.owner[rootVa := RootPage(w)] else h.owner)
         && (s == None <==> h'.roots[w].page == 0)
         && (s.Some? ==> s.value.0 == w && s.value.1 < NREFS && s.value in h'.reserved)
  }

  lemma PagerefNone(h: Heap, rootVa: nat)
    requires Valid(h) && FirstRoom(h.roots) == NROOTS == |h.roots|
    ensures Pageref(h, h, rootVa, None)
  {
    hide Valid;
  }

  lemma PagerefMarked(h: Heap, h': Heap, rootVa: nat, s: (nat, nat))
    requires Reserved(h, h', Some(s)) && h.roots[s.0].page != 0
    ensures Pageref(h, h', rootVa, Some(s))
  {
    hide Valid;
  }

  lemma PagerefPage(h: Heap, h1: Heap, h': Heap, rootVa: nat, s: (nat, nat))
    requires Reserved(h, h1, Some(s)) && Valid(h') && h.roots[s.0].page == 0
    requires h' == h1.(roots := h1.roots[s.0 := h1.roots[s.0].(page := rootVa)],
                       owner := if rootVa == 0 then h1.owner else h1.owner[rootVa := RootPage(s.0)])
    ensures Pageref(h, h', rootVa, if rootVa == 0 then None else Some(s))
  {
    hide Valid;
  }

  lemma PagerefFacts(h: Heap, h': Heap, rootVa: nat, s: Option<(nat, nat)>)
    requires Pageref(h, h', rootVa, s)
    ensures Valid(h') && h' == h.(roots := h'.roots, reserved := h'.reserved, owner := h'.owner)
    ensures forall p :: p in h.owner && p != rootVa ==> p in h'.owner && h'.owner[p] == h.owner[p]
    ensures s.Some? ==>
              && s.value in h'.reserved && s.value.0 < |h'.roots|
              && Slot(h'.roots, h'.roots[s.value.0].page + REF_SIZE * s.value.1, s.value.0, s.value.1)
  {
    hide Valid;
  }

  lemma GrownNoPage(h: Heap, h1: Heap, h2: Heap, h': Heap, page: nat, rootVa: nat)
    requires page != 0 && page !in h.owner && h1 == h.(owner := h.owner[page := InTransit])
    requires Pageref(h1, h2, rootVa, None) && h' == h2.(owner := h2.owner - {page})
    ensures Grown(h, h', page, rootVa, 0)
  {
    hide Valid, Alone, FirstRoom, LiveOn;
    GivenBack(h.owner, page);
    PagerefNot(h1, h2, rootVa);
    hide Pageref;
  }

  lemma GivenBack(owner: map<nat, Owner>, page: nat)
    requires page !in owner
    ensures owner[page := InTransit] - {page} == owner
  {
  }

  lemma PagerefNot(h: Heap, h': Heap, rootVa: nat)
    requires Pageref(h, h', rootVa, None)
    ensures |h.roots| == NROOTS == |h'.roots| && h'.owner == h.owner
    ensures h' == h.(roots := h'.roots, reserved := h'.reserved)
    ensures var w := FirstRoom(h.roots);
            if w == NROOTS then h' == h
            else
              && h'.roots == h.roots[w := h'.roots[w]] && h'.roots[w].numinuse == h.roots[w].numinuse + 1
              && h.roots[w].page == 0 == rootVa && h'.roots[w].page == 0
  {
    hide Valid;
  }

  lemma GrownBlock(h: Heap, h1: Heap, h2: Heap, h': Heap, page: nat, rootVa: nat, k: nat, s: Option<(nat, nat)>,
                   ret: nat)
    requires page != 0 && rootVa != page && h1 == h.(owner := h.owner[page := InTransit])
    requires Pageref(h1, h2, rootVa, s) && s.Some? && k < NSIZES
    requires SetUp(h2, h', h2.roots[s.value.0].page + REF_SIZE * s.value.1, page, k, s.value, ret)
    ensures Grown(h, h', page, rootVa, ret)
  {
    hide Valid, Alone, FirstRoom, At, NBlocks, Size;
    SetUpAlone(h2, h', page, k, s.value, ret);
  }

  lemma SetUpAlone(h: Heap, h': Heap, page: nat, k: nat, slot: (nat, nat), ret: nat)
    requires k < NSIZES && slot.0 < |h.roots| && slot.1 < NREFS && Valid(h) && page in h.owner
             && h.owner[page] == InTransit
    requires h.roots[slot.0].page != 0
    requires SetUp(h, h', h.roots[slot.0].page + REF_SIZE * slot.1, page, k, slot, ret)
    ensures Alone(h', ret, slot.0)
  {
    hide Valid, LiveOn, IsBlock, PageOf, At, NBlocks;
    var pr := h.roots[slot.0].page + REF_SIZE * slot.1;
    RootOwner(h, pr, slot.0, slot.1);
    NoneOnPage(h, page);
    PageNow(h', page, pr, ret);
    LastOnPage(page, k);
    OnlyOne(h, h', page, pr, ret);
  }

  lemma RootOwner(h: Heap, pr: nat, w: nat, j: nat)
    requires Valid(h) && Slot(h.roots, pr, w, j)
    ensures PageOf(pr) in h.owner && h.owner[PageOf(pr)] == RootPage(w)
  {
    SlotOwner(h, pr, w, j);
  }

  /** No live block is on a page in somebody's hands. */
  lemma NoneOnPage(h: Heap, page: nat)
    requires Valid(h) && page in h.owner && h.owner[page] == InTransit
    ensures forall a :: a in h.live ==> PageOf(a) != page
  {
    hide Lists, Pages, Owners, Roots, Refs, PageOf;
    forall a | a in h.live ensures PageOf(a) != page {
      assert LiveOk(h, a);
    }
  }

  lemma PageNow(h: Heap, page: nat, pr: nat, ret: nat)
    requires Valid(h) && page in h.owner && h.owner[page] == HeapPage(pr) && ret in h.live
    ensures page % PAGE_SIZE == 0 && pr in h.refs && Blk(h.refs[pr]) < NSIZES && PageAddr(h.refs[pr]) == page
    ensures PageOf(ret) in h.owner
    ensures h.owner[PageOf(ret)] == HeapPage(pr) ==> PageOf(ret) == page && IsBlock(page, Blk(h.refs[pr]), ret)
  {
    assert OwnerOk(h, page) && LiveOk(h, ret);
    hide Size, PageOf;
  }

  lemma LastOnPage(page: nat, k: nat)
    requires page % PAGE_SIZE == 0 && k < NSIZES
    ensures PageOf(At(page, k, NBlocks(k) - 1)) == page
  {
    BlockAt(page, k, NBlocks(k) - 1);
    hide At, Size, NBlocks;
    PageOfUnique(page, At(page, k, NBlocks(k) - 1));
  }

  lemma OnlyOne(h: Heap, h': Heap, page: nat, pr: nat, ret: nat)
    requires page % PAGE_SIZE == 0 && pr in h'.refs && Blk(h'.refs[pr]) < NSIZES && PageAddr(h'.refs[pr]) == page
    requires h'.live.Keys == h.live.Keys + {ret} && IsBlock(page, Blk(h'.refs[pr]), ret)
    requires forall a :: a in h.live ==> PageOf(a) != page
    ensures LiveOn(h', pr) == {ret}
  {
    hide Size;
    forall a | a in h'.live && IsBlock(page, Blk(h'.refs[pr]), a) ensures a == ret {
      PageOfUnique(page, a);
    }
  }

  lemma GrownFacts(h: Heap, h': Heap, page: nat, rootVa: nat, ret: nat)
    requires Grown(h, h', page, rootVa, ret)
    ensures forall w :: Lost(h, w) ==> Lost(h', w)
    ensures Quiet(h) && rootVa != 0 ==> Quiet(h')
  {
    hide Alone;
  }

  /** A root whose page could not be had fills up with bits that nothing uses; the pagerefs then
      come from the next root, and freeing the only block of a page fails.  No other thread is
      needed, and the root stays as it is. */
  method FreeFails() returns (r: FreeResult)
    ensures r == Panicked
  {
    hide Valid, Inv, Grown, Stuck, Alone, FreshPages;
    var heap := new KHeap();
    for i := 0 to NREFS
      invariant fresh(heap) && Valid(heap.View()) && heap.owner == map[] && heap.allList == [] && heap.live == map[]
      invariant |heap.roots| == NROOTS && heap.roots[0].page == 0 && heap.roots[0].numinuse == i
      invariant forall w :: 0 < w < NROOTS ==> heap.roots[w].page == 0 && heap.roots[w].numinuse == 0
    {
      ghost var h := heap.View();
      var p := heap.Kmalloc(16, PAGE_SIZE, 0);
      GrownBit(h, heap.View(), PAGE_SIZE, p);
    }
    ghost var h := heap.View();
    var p := heap.Kmalloc(16, PAGE_SIZE, 2 * PAGE_SIZE);
    GrownStuck(h, heap.View(), PAGE_SIZE, 2 * PAGE_SIZE, p);
    r := heap.Kfree(p);
  }

  lemma GrownBit(h: Heap, h': Heap, page: nat, ret: nat)
    requires Grown(h, h', page, 0, ret) && page != 0 && h.roots[0].numinuse < NREFS && h.roots[0].page == 0
    ensures ret == 0 && |h'.roots| == NROOTS && h' == h.(roots := h'.roots, reserved := h'.reserved)
    ensures h'.roots[0].page == 0 && h'.roots[0].numinuse == h.roots[0].numinuse + 1
    ensures forall w :: 0 < w < NROOTS ==> h'.roots[w] == h.roots[w]
  {
    hide Alone;
  }

  lemma GrownStuck(h: Heap, h': Heap, page: nat, rootVa: nat, ret: nat)
    requires Grown(h, h', page, rootVa, ret) && page != 0 && rootVa != 0
    requires h.roots[0].numinuse >= NREFS && h.roots[0].page == 0 && h.roots[1].numinuse == 0
    ensures ret != 0 && Stuck(h', ret)
  {
    assert FirstRoom(h.roots) == 1;
    assert h'.roots[1].page != 0;
    hide Alone;
    assert Pageless(h'.roots, 0);
  }

  /** NULL is never a live block. */
  lemma NeverNull(h: Heap)
    requires Inv(h)
    ensures 0 !in h.live
  {
    hide Lists, Roots, Refs;
    forall a | a in h.live ensures a > 0 {
      assert LiveOk(h, a);
      if h.owner[PageOf(a)].HeapPage? {
        assert PageOk(h, h.owner[PageOf(a)].pr);
      } else {
        assert BigOk(h, a);
      }
    }
  }

  lemma GrantValid(h: Heap, va: nat)
    requires Valid(h) && FreshPage(h, va)
    ensures Valid(Grant(h, va))
  {
    hide Inv, FreshPages;
    GrantInv(h, va);
  }

  lemma ReleaseValid(h: Heap, va: nat)
    requires Valid(h) && va in h.owner && h.owner[va] == InTransit
    ensures Valid(Release(h, va))
  {
    hide Inv;
    ReleaseInv(h, va);
  }

  lemma AddBig(h: Heap, va: nat, n: nat) returns (h': Heap)
    requires Valid(h) && FreshPages(h, va, n)
    ensures Valid(h') && va !in h.live && va !in h.big && BigAdded(h, h', va, n)
    ensures h' == h.(owner := h'.owner, big := h.big[va := n], live := h.live[va := PAGE_SIZE * n])
  {
    h' := h.(owner := BigOwner(h.owner, va, n), big := h.big[va := n], live := h.live[va := PAGE_SIZE * n]);
    hide Inv, BigOwner, InRange;
    assert BigAdded(h, h', va, n);
    BigAddInv(h, h', va, n);
  }

  lemma RemoveBig(h: Heap, va: nat) returns (h': Heap)
    requires Valid(h) && va in h.big
    ensures Valid(h') && h' == h.(owner := h'.owner, big := h.big - {va}, live := h.live - {va})
    ensures BigRemoved(h, h', va)
  {
    hide Inv, InRange, NoneWhollyFree;
    h' := h.(owner := map p | p in h.owner && !InRange(va, h.big[va], p) :: h.owner[p],
             big := h.big - {va}, live := h.live - {va});
    assert BigRemoved(h, h', va);
    BigRemoveInv(h, h', va);
    SameFree(h, h');
  }

  lemma SameFree(h: Heap, h': Heap)
    requires NoneWhollyFree(h) && h'.allList == h.allList && h'.refs == h.refs
    ensures NoneWhollyFree(h')
  {
  }

  /** Blocks begin and end at multiples of four. */
  lemma WordFits(h: Heap, a: nat, x: nat)
    requires Valid(h) && a in h.live && a <= x < a + h.live[a] && x % 4 == 0
    ensures x + 4 <= a + h.live[a]
  {
    hide Valid, PageOf, IsBlock, Size;
    LiveIsOk(h, a);
    if h.owner[PageOf(a)].HeapPage? {
      var k := Blk(h.refs[h.owner[PageOf(a)].pr]);
      SizeFour(k);
      BlockFour(PageOf(a), k, a);
    } else {
      PagesFour(a, h.big[a]);
    }
    WordInside(a, h.live[a], x);
  }

  lemma LiveIsOk(h: Heap, a: nat)
    requires Valid(h) && a in h.live
    ensures LiveOk(h, a) && (a in h.big ==> a % PAGE_SIZE == 0)
  {
    assert LiveOk(h, a);
    assert a in h.big ==> BigOk(h, a);
    hide Inv;
  }

  lemma SizeFour(k: nat)
    requires k < NSIZES
    ensures Size(k) % 4 == 0
  {
  }

  lemma BlockFour(page: nat, k: nat, a: nat)
    requires k < NSIZES && page % PAGE_SIZE == 0 && IsBlock(page, k, a) && Size(k) % 4 == 0
    ensures a % 4 == 0
  {
    hide Size;
    var n := Size(k);
    Words.DivMod(a - page, n);
    Words.MulPositive((a - page) / n, n);
    FourDivides((a - page) / n, n, a - page);
    SumFour(page, a - page);
  }

  lemma SumFour(page: nat, d: nat)
    requires page % PAGE_SIZE == 0 && d % 4 == 0
    ensures (page + d) % 4 == 0
  {
  }

  lemma PagesFour(a: nat, n: nat)
    requires a % PAGE_SIZE == 0
    ensures a % 4 == 0 && (PAGE_SIZE * n) % 4 == 0
  {
  }

  lemma FourDivides(q: nat, n: nat, d: nat)
    requires d == q * n && n % 4 == 0
    ensures d % 4 == 0
  {
    var m := n / 4;
    assert n == m * 4;
    assert q * n == (q * m) * 4;
    Words.DivUnique(d, 4, q * m, 0);
  }

  lemma WordInside(a: nat, n: nat, x: nat)
    requires a % 4 == 0 && n % 4 == 0 && x % 4 == 0 && x < a + n
    ensures x + 4 <= a + n
  {
  }

  lemma WriteValid(h: Heap, a: nat, x: nat, v: nat)
    requires Valid(h) && a in h.live && a <= x < a + h.live[a]
    ensures Valid(h.(mem := h.mem[x := v]))
  {
    hide Inv;
    WriteInv(h, a, x, v);
  }

  lemma NotDouble(h: Heap, ptr: nat)
    requires Inv(h) && ptr in h.live
    ensures NotDoubleFree(h, ptr)
  {
  }

  lemma {:induction false} NoBits(n: nat)
    ensures BitCount(seq(n, i => false)) == 0
  {
    if n > 0 {
      assert seq(n, i => false)[1..] == seq(n - 1, i => false);
      NoBits(n - 1);
    }
  }

  lemma {:induction false} NoWords(n: nat, w: seq<bool>)
    requires BitCount(w) == 0
    ensures WordCount(seq(n, i => w)) == 0
  {
    if n > 0 {
      assert seq(n, i => w)[1..] == seq(n - 1, i => w);
      NoWords(n - 1, w);
    }
  }
}
