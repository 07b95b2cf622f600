/** kmalloc and kfree by any number of threads: between the regions that run under
    kmalloc_spinlock other threads may run theirs, in any order.  A step is what a region does to
    the heap and no more; that the heap stays valid is proved. */
module KHeapRuns {
  import opened Common
  import opened KHeapModel
  import opened KHeapSteps
  import opened KHeapPages
  import opened KHeap

  /** Where a thread is while it does not hold the lock, and what it has in its hands. */
  datatype Pc =
    | Outside                                                 // in no heap function, or before its first region
    | GotPage(sz: nat, page: nat)                             // has a page for blocks, wants a pageref
    | NeedRoot(sz: nat, page: nat, slot: (nat, nat))          // has marked a bit in a root without a page
    | GotRoot(sz: nat, page: nat, slot: (nat, nat), va: nat)  // alloc_kpages has given va, or 0
    | Surplus(sz: nat, page: nat, slot: (nat, nat), va: nat)  // the root has a page by now; va goes back
    | HasRoot(sz: nat, page: nat, slot: (nat, nat))           // va has gone back
    | Returning(page: nat)                                    // about to call free_kpages

  datatype State = State(h: Heap, pcs: map<nat, Pc>)

  function PcOf(s: State, t: nat): (pc: Pc)
  {
    if t in s.pcs then s.pcs[t] else Outside
  }

  // ---- What a thread holds ----

  function SlotsOf(pc: Pc): (r: set<(nat, nat)>)
  {
    if pc.NeedRoot? || pc.GotRoot? || pc.Surplus? || pc.HasRoot? then {pc.slot} else {}
  }

  function PagesOf(pc: Pc): (r: set<nat>)
  {
    (if pc.Outside? then {} else {pc.page}) + (if (pc.GotRoot? && pc.va != 0) || pc.Surplus? then {pc.va} else {})
  }

  /** In the middle of subpage_kmalloc. */
  predicate Allocating(pc: Pc)
  {
    pc.GotPage? || pc.NeedRoot? || pc.GotRoot? || pc.Surplus? || pc.HasRoot?
  }

  ghost predicate Holds(h: Heap, pc: Pc)
  {
    && (forall s :: s in SlotsOf(pc) ==> s in h.reserved && s.0 < |h.roots| && s.1 < NREFS)
    && (forall p :: p in PagesOf(pc) ==> InHand(h, p))
    && (Allocating(pc) ==> pc.sz < 2048)
    && (pc.Surplus? || pc.HasRoot? ==> h.roots[pc.slot.0].page != 0)
    && (pc.GotRoot? || pc.Surplus? ==> pc.va != pc.page)
  }

  /** Two threads have nothing in common. */
  ghost predicate ApartFrom(a: Pc, b: Pc)
  {
    SlotsOf(a) !! SlotsOf(b) && PagesOf(a) !! PagesOf(b)
  }

  ghost predicate RunInv(s: State)
  {
    && Valid(s.h)
    && (forall t: nat :: Holds(s.h, PcOf(s, t)))
    && (forall t: nat, u: nat :: t != u ==> ApartFrom(PcOf(s, t), PcOf(s, u)))
  }

  // ---- Regions ----

  datatype Step =
    | Try(sz: nat, pr: nat, ret: nat)             // the walk along the pages of one size
    | TakePage(sz: nat, page: nat)                // alloc_kpages for blocks
    | Mark(slot: Option<(nat, nat)>, ret: nat)    // allocpageref, and the rest if the root has a page
    | TakeRoot(va: nat)                           // alloc_kpages in allocpagerefpage
    | Fill(ret: nat)                              // allocpagerefpage after it, and the rest
    | GiveSurplus                                 // free_kpages in allocpagerefpage
    | Finish(ret: nat)                            // the rest of subpage_kmalloc
    | GivePage                                    // free_kpages
    | Free(ptr: nat, page: nat)                   // subpage_kfree
    | TakeBig(sz: nat, va: nat)                   // the whole-page path of kmalloc
    | FreeBig(ptr: nat)                           // the whole-page path of kfree
    | Write(a: nat, x: nat, v: nat)               // the owner of a block writes to it

  /** The pageref of a slot. */
  function RefAt(h: Heap, slot: (nat, nat)): (p: nat)
    requires slot.0 < |h.roots|
  {
    h.roots[slot.0].page + REF_SIZE * slot.1
  }

  /** Where the thread must be, and what alloc_kpages and the callers of kmalloc and kfree
      promise. */
  ghost predicate Ready(h: Heap, pc: Pc, st: Step)
  {
    match st
    case Try(sz, _, _) => pc.Outside? && sz < 2048
    case TakePage(sz, page) => pc.Outside? && sz < 2048 && FreshPage(h, page)
    case Mark(_, _) => pc.GotPage? && pc.sz < 2048
    case TakeRoot(va) => pc.NeedRoot? && (va != 0 ==> FreshPage(h, va))
    case Fill(_) => pc.GotRoot? && pc.sz < 2048
    case GiveSurplus => pc.Surplus?
    case Finish(_) => pc.HasRoot? && pc.sz < 2048
    case GivePage => pc.Returning?
    case Free(ptr, _) => pc.Outside? && ptr in h.live && ptr !in h.big
    case TakeBig(sz, va) => pc.Outside? && 2048 <= sz < LIMIT && NPages(sz) > 0 && FreshPages(h, va, NPages(sz))
    case FreeBig(ptr) => pc.Outside? && ptr in h.big
    case Write(a, x, _) => pc.Outside? && a in h.live && a <= x < a + h.live[a] && x % 4 == 0
  }

  /** What the region does to the heap, and where it leaves the thread. */
  ghost predicate Does(h: Heap, pc: Pc, st: Step, h': Heap, pc': Pc)
    requires Ready(h, pc, st)
  {
    match st
    case Try(sz, pr, ret) => pc' == Outside && Tries(h, h', TypeOf(sz), pr, ret)
    case TakePage(sz, page) => pc' == GotPage(sz, page) && h' == Grant(h, page)
    case Mark(slot, ret) => Marks(h, pc, slot, ret, h', pc')
    case TakeRoot(va) => pc' == GotRoot(pc.sz, pc.page, pc.slot, va) && h' == if va == 0 then h else Grant(h, va)
    case Fill(ret) => Fills(h, pc, ret, h', pc')
    case GiveSurplus => pc' == HasRoot(pc.sz, pc.page, pc.slot) && h' == KHeapPages.Release(h, pc.va)
    case Finish(ret) => pc' == Outside && SetsUpFor(h, pc, pc.slot, ret, h')
    case GivePage => pc' == Outside && h' == KHeapPages.Release(h, pc.page)
    case Free(ptr, page) => Frees(h, h', ptr, page) && pc' == if page == 0 then Outside else Returning(page)
    case TakeBig(sz, va) => pc' == Outside && BigAdded(h, h', va, NPages(sz))
    case FreeBig(ptr) => pc' == Outside && BigRemoved(h, h', ptr)
    case Write(a, x, v) => pc' == Outside && h' == h.(mem := h.mem[x := v])
  }

  /** The first page of the size that has room gives its first free block, or none has room. */
  ghost predicate Tries(h: Heap, h': Heap, k: nat, pr: nat, ret: nat)
  {
    && k < |h.sizeLists|
    && if ret == 0 then FullUpTo(h.refs, h.sizeLists[k], 0) && h' == h
       else
         && pr in h.sizeLists[k] && FullUpTo(h.refs, h.sizeLists[k], pr) && CanTake(h, pr)
         && h' == TakeBlock(h, pr) && ret == h.free[pr][0]
  }

  ghost predicate SetsUpFor(h: Heap, pc: Pc, slot: (nat, nat), ret: nat, h': Heap)
    requires Allocating(pc) && pc.sz < 2048
  {
    slot.0 < |h.roots| && SetsUp(h, h', RefAt(h, slot), pc.page, TypeOf(pc.sz), slot, ret)
  }

  /** allocpageref marks the first clear bit of the first root with room.  If that root has a page
      the lock is not dropped before the page is set up. */
  ghost predicate Marks(h: Heap, pc: Pc, slot: Option<(nat, nat)>, ret: nat, h': Heap, pc': Pc)
    requires pc.GotPage? && pc.sz < 2048
  {
    match slot
    case None => FirstRoom(h.roots) == |h.roots| && h' == h && pc' == Returning(pc.page)
    case Some(s) =>
      && s.0 == FirstRoom(h.roots) < |h.roots| && s.1 < NREFS
      && Shaped(h.roots[s.0].words) && !BitSet(h.roots, s.0, s.1) && SetBelow(h.roots, s.0, s.1)
      && if h.roots[s.0].page == 0 then h' == Reserve(h, s.0, s.1) && pc' == NeedRoot(pc.sz, pc.page, s)
         else pc' == Outside && SetsUpFor(Reserve(h, s.0, s.1), pc, s, ret, h')
  }

  /** allocpagerefpage with the lock held again: va becomes the page of the root, unless somebody
      else has given it one or there is no va. */
  ghost predicate Fills(h: Heap, pc: Pc, ret: nat, h': Heap, pc': Pc)
    requires pc.GotRoot? && pc.sz < 2048
  {
    && pc.slot.0 < |h.roots|
    && var root := h.roots[pc.slot.0];
       if pc.va != 0 && root.page != 0 then h' == h && pc' == Surplus(pc.sz, pc.page, pc.slot, pc.va)
       else if pc.va == 0 && root.page == 0 then h' == h && pc' == Returning(pc.page)
       else pc' == Outside && SetsUpFor(if pc.va == 0 then h else Install(h, pc.slot.0, pc.va), pc, pc.slot, ret, h')
  }

  // ---- One region against all other threads ----

  /** The heap is valid, others keep what they have, and what the thread has now it had before or
      nobody had. */
  ghost predicate NewHolds(h: Heap, pc: Pc, h': Heap, pc': Pc)
  {
    && Valid(h') && Kept(h, h', SlotsOf(pc), PagesOf(pc)) && Holds(h', pc')
    && (forall s :: s in SlotsOf(pc') ==> s in SlotsOf(pc) || s !in h.reserved)
    && (forall p :: p in PagesOf(pc') ==> p in PagesOf(pc) || !InHand(h, p))
  }

  lemma OthersKeep(h: Heap, pc: Pc, h': Heap, pc': Pc, other: Pc)
    requires NewHolds(h, pc, h', pc') && Holds(h, other) && ApartFrom(pc, other)
    ensures Holds(h', other) && ApartFrom(pc', other)
  {
    hide Valid, SlotsOf, PagesOf;
    assert forall s :: s in SlotsOf(other) ==> s in h.reserved && s !in SlotsOf(pc);
    assert forall p :: p in PagesOf(other) ==> InHand(h, p) && p !in PagesOf(pc);
    assert other.Surplus? || other.HasRoot? ==> other.slot in SlotsOf(other) by { SlotHeld(other); }
  }

  lemma SlotHeld(pc: Pc)
    ensures pc.NeedRoot? || pc.GotRoot? || pc.Surplus? || pc.HasRoot? ==> pc.slot in SlotsOf(pc)
    ensures !pc.Outside? ==> pc.page in PagesOf(pc)
    ensures (pc.GotRoot? && pc.va != 0) || pc.Surplus? ==> pc.va in PagesOf(pc)
  {
  }

  lemma StepKeeps(s: State, t: nat, h': Heap, pc': Pc)
    requires RunInv(s) && NewHolds(s.h, PcOf(s, t), h', pc')
    ensures RunInv(State(h', s.pcs[t := pc']))
  {
    var s' := State(h', s.pcs[t := pc']);
    assert forall u: nat :: PcOf(s', u) == if u == t then pc' else PcOf(s, u);
    hide Valid, NewHolds, Holds, ApartFrom, PcOf;
    assert Valid(h') && Holds(h', pc') by { NewValid(s.h, PcOf(s, t), h', pc'); }
    forall u: nat | u != t ensures Holds(h', PcOf(s, u)) && ApartFrom(pc', PcOf(s, u)) && ApartFrom(PcOf(s, u), pc') {
      OthersKeep(s.h, PcOf(s, t), h', pc', PcOf(s, u));
      Symmetric(pc', PcOf(s, u));
    }
  }

  lemma NewValid(h: Heap, pc: Pc, h': Heap, pc': Pc)
    requires NewHolds(h, pc, h', pc')
    ensures Valid(h') && Holds(h', pc')
  {
  }

  lemma Symmetric(a: Pc, b: Pc)
    requires ApartFrom(a, b)
    ensures ApartFrom(b, a)
  {
  }

  // ---- Each region keeps the heap valid ----

  lemma TakesValid(h: Heap, k: nat, pr: nat)
    requires Valid(h) && k < |h.sizeLists| && pr in h.sizeLists[k] && CanTake(h, pr)
    ensures Took(h, TakeBlock(h, pr), pr, h.free[pr][0]) && Valid(TakeBlock(h, pr))
  {
    assert pr in h.allList;
    hide Inv;
    TookBlock(h, pr);
    TookValid(h, TakeBlock(h, pr), pr, h.free[pr][0]);
  }

  lemma TryKeeps(h: Heap, h': Heap, k: nat, pr: nat, ret: nat)
    requires Valid(h) && Tries(h, h', k, pr, ret)
    ensures NewHolds(h, Outside, h', Outside)
  {
    hide Valid, Took, Size, PoppedRef;
    if ret != 0 {
      TakesValid(h, k, pr);
    }
  }

  lemma GrantKeeps(h: Heap, pc: Pc, pc': Pc, page: nat)
    requires Valid(h) && Holds(h, pc) && FreshPage(h, page)
    requires SlotsOf(pc') == SlotsOf(pc) && PagesOf(pc') == PagesOf(pc) + {page}
    requires pc'.GotPage? || (pc.NeedRoot? && pc' == GotRoot(pc.sz, pc.page, pc.slot, page))
    requires pc'.GotPage? ==> pc'.sz < 2048
    ensures NewHolds(h, pc, Grant(h, page), pc')
  {
    hide Valid, SlotsOf, PagesOf, FreshPages;
    GrantValid(h, page);
    SlotHeld(pc);
  }

  lemma ReleaseKeeps(h: Heap, pc: Pc, pc': Pc, page: nat)
    requires Valid(h) && Holds(h, pc) && page in PagesOf(pc)
    requires SlotsOf(pc') == SlotsOf(pc) && PagesOf(pc') == PagesOf(pc) - {page}
    requires pc' == Outside || (pc.Surplus? && pc' == HasRoot(pc.sz, pc.page, pc.slot))
    ensures NewHolds(h, pc, KHeapPages.Release(h, page), pc')
  {
    hide Valid, SlotsOf, PagesOf;
    ReleaseValid(h, page);
    SlotHeld(pc);
  }

  /** Setting up a page from a heap h1 that the same region has made of h. */
  lemma SetUpKeeps(h: Heap, pc: Pc, h1: Heap, h': Heap, slot: (nat, nat), ret: nat)
    requires Allocating(pc) && pc.sz < 2048 && Valid(h1) && Kept(h, h1, SlotsOf(pc), PagesOf(pc))
    requires slot in SlotsOf(pc) || slot !in h.reserved
    requires SetsUpFor(h1, pc, slot, ret, h') && CanSetUp(h1, RefAt(h1, slot), pc.page, TypeOf(pc.sz), slot)
    ensures NewHolds(h, pc, h', Outside)
  {
    hide Valid, CanSetUp, SetsUp, SetUp;
    SetsUpDone(h1, h', RefAt(h1, slot), pc.page, TypeOf(pc.sz), slot, ret);
    SetUpKept(h, pc, h1, h', RefAt(h1, slot), TypeOf(pc.sz), slot, ret);
  }

  lemma SetUpKept(h: Heap, pc: Pc, h1: Heap, h': Heap, pr: nat, k: nat, slot: (nat, nat), ret: nat)
    requires !pc.Outside? && Kept(h, h1, SlotsOf(pc), PagesOf(pc)) && (slot in SlotsOf(pc) || slot !in h.reserved)
    requires SetUp(h1, h', pr, pc.page, k, slot, ret)
    ensures NewHolds(h, pc, h', Outside)
  {
    hide Valid, At, NBlocks, Size;
    SlotHeld(pc);
  }

  /** In the region that marks a bit of a root with a page, setting up is allowed. */
  lemma MarkedCanSetUp(h: Heap, pc: Pc, s: (nat, nat))
    requires Valid(h) && Holds(h, pc) && pc.GotPage? && s.0 < |h.roots| && s.1 < NREFS && Shaped(h.roots[s.0].words)
    requires !BitSet(h.roots, s.0, s.1)
    ensures Valid(Reserve(h, s.0, s.1)) && s !in h.reserved
    ensures h.roots[s.0].page != 0 ==>
      CanSetUp(Reserve(h, s.0, s.1), RefAt(Reserve(h, s.0, s.1), s), pc.page, TypeOf(pc.sz), s)
  {
    ValidRoots(h);
    ReserveValid(h, s.0, s.1);
    SlotHeld(pc);
    hide Valid, BitSet, Shaped;
  }

  lemma ReserveValid(h: Heap, w: nat, j: nat)
    requires Valid(h) && w < NROOTS == |h.roots| && j < NREFS && Shaped(h.roots[w].words) && !BitSet(h.roots, w, j)
    ensures Valid(Reserve(h, w, j)) && (w, j) !in h.reserved
  {
    hide Inv;
    ReserveInv(h, w, j);
  }

  lemma ReserveKept(h: Heap, pc: Pc, s: (nat, nat))
    requires s.0 < |h.roots| && s.1 < NREFS && Shaped(h.roots[s.0].words)
    ensures Kept(h, Reserve(h, s.0, s.1), SlotsOf(pc), PagesOf(pc))
  {
    hide SlotsOf, PagesOf;
  }

  lemma MarkKeeps(h: Heap, pc: Pc, slot: Option<(nat, nat)>, ret: nat, h': Heap, pc': Pc)
    requires Valid(h) && pc.GotPage? && pc.sz < 2048 && Holds(h, pc) && Marks(h, pc, slot, ret, h', pc')
    ensures NewHolds(h, pc, h', pc')
  {
    if slot.None? {
      hide Valid, FirstRoom;
      return;
    }
    var s := slot.value;
    MarkedCanSetUp(h, pc, s);
    ReserveKept(h, pc, s);
    hide Valid, SetsUpFor, Kept, Holds, CanSetUp, FirstRoom, BitSet;
    if h.roots[s.0].page == 0 {
      MarkedHolds(h, pc, s);
    } else {
      SetUpKeeps(h, pc, Reserve(h, s.0, s.1), h', s, ret);
    }
  }

  lemma MarkedHolds(h: Heap, pc: Pc, s: (nat, nat))
    requires pc.GotPage? && Holds(h, pc) && s.0 < |h.roots| && s.1 < NREFS && Shaped(h.roots[s.0].words)
    requires Valid(Reserve(h, s.0, s.1)) && s !in h.reserved && Kept(h, Reserve(h, s.0, s.1), SlotsOf(pc), PagesOf(pc))
    ensures NewHolds(h, pc, Reserve(h, s.0, s.1), NeedRoot(pc.sz, pc.page, s))
  {
    hide Valid, Kept;
    SlotHeld(pc);
  }

  /** In the region that gives the root its page, or finds that it has one, setting up is
      allowed. */
  lemma FilledCanSetUp(h: Heap, pc: Pc)
    requires Valid(h) && Holds(h, pc) && pc.GotRoot? && (pc.va == 0 <==> h.roots[pc.slot.0].page != 0)
    ensures pc.slot.0 < |h.roots|
    ensures var h1 := if pc.va == 0 then h else Install(h, pc.slot.0, pc.va);
            && Valid(h1) && Kept(h, h1, SlotsOf(pc), PagesOf(pc))
            && CanSetUp(h1, RefAt(h1, pc.slot), pc.page, TypeOf(pc.sz), pc.slot)
  {
    hide Valid, TypeOf, Size;
    SlotHeld(pc);
    ValidRoots(h);
    if pc.va != 0 {
      InstallValid(h, pc.slot.0, pc.va);
    }
  }

  lemma FillKeeps(h: Heap, pc: Pc, ret: nat, h': Heap, pc': Pc)
    requires Valid(h) && pc.GotRoot? && pc.sz < 2048 && Holds(h, pc) && Fills(h, pc, ret, h', pc')
    ensures NewHolds(h, pc, h', pc')
  {
    SlotHeld(pc);
    if pc' == Outside {
      FilledCanSetUp(h, pc);
      hide Valid, SetsUpFor, Kept, Holds, CanSetUp;
      SetUpKeeps(h, pc, if pc.va == 0 then h else Install(h, pc.slot.0, pc.va), h', pc.slot, ret);
    } else {
      hide Valid;
      assert PagesOf(pc') <= PagesOf(pc) && SlotsOf(pc') <= SlotsOf(pc);
    }
  }

  lemma FinishKeeps(h: Heap, pc: Pc, ret: nat, h': Heap)
    requires Valid(h) && pc.HasRoot? && pc.sz < 2048 && Holds(h, pc) && SetsUpFor(h, pc, pc.slot, ret, h')
    ensures NewHolds(h, pc, h', Outside)
  {
    SlotHeld(pc);
    hide Valid, SetsUp;
    SetUpKeeps(h, pc, h, h', pc.slot, ret);
  }

  /** The steps of subpage_kfree keep the heap valid and free exactly the block. */
  lemma FreesDone(h: Heap, h': Heap, ptr: nat, page: nat)
    requires Valid(h) && ptr in h.live && ptr !in h.big && Frees(h, h', ptr, page)
    ensures KfreeDone(h, h', ptr, Freed, page)
  {
    var pr := h.owner[PageOf(ptr)].pr;
    LivePage(h, ptr);
    hide Valid, Inv, KfreeDone, Pushed, UnlinkPage, OnLists, OnPage, ClearsBit, Unlisted, Linked, NBlocks, Size;
    ValidInv(h);
    PushDone(h, pr, ptr, h'.mem);
    var h1 := PutBlock(h, pr, ptr, h'.mem);
    PushedBlock(h, h1, pr, ptr);
    if h1.refs[pr].nfree != NBlocks(Blk(h.refs[pr])) {
      KfreePart(h, h1, pr, ptr);
    } else {
      UnlinkPageOk(h1, pr);
      var h2 := UnlinkPage(h1, pr);
      UnlistedSlot(h1, h2, pr);
      ClearsBitDone(h1, h2, h', pr);
      KfreeWhole(h, h1, h2, h', pr, ptr, (h1.owner[PageOf(pr)].w, SlotIndex(pr)), true);
    }
  }

  lemma LivePage(h: Heap, ptr: nat)
    requires Valid(h) && ptr in h.live && ptr !in h.big
    requires PageOf(ptr) in h.owner && h.owner[PageOf(ptr)].HeapPage?
    ensures OnPage(h, h.owner[PageOf(ptr)].pr, ptr) && h.owner[PageOf(ptr)].pr in h.allList
  {
    assert LiveOk(h, ptr);
    assert PageOk(h, h.owner[PageOf(ptr)].pr);
    hide Inv;
  }

  lemma ClearsBitDone(h1: Heap, h2: Heap, h': Heap, pr: nat)
    requires Inv(h2) && OnLists(h1, pr) && h2 == UnlinkPage(h1, pr) && ClearsBit(h2, h', pr)
    requires var slot := (h1.owner[PageOf(pr)].w, SlotIndex(pr));
             slot in h2.reserved && Slot(h2.roots, pr, slot.0, slot.1)
    ensures PagerefFreed(h2, h', (h1.owner[PageOf(pr)].w, SlotIndex(pr)), true)
  {
    hide Inv, PageOf, SlotIndex, CutSame, CutAll, HeadSame, HeadAll, Without, FlipBit;
    assert h2.owner[PageOf(pr)] == h1.owner[PageOf(pr)];
    forall x | 0 <= x < h1.owner[PageOf(pr)].w && x < |h2.roots|
      ensures h2.roots[x].page != 0 || h2.roots[x].numinuse == 0
    {
      assert !Pageless(h2.roots, x);
    }
    PagerefDone(h2, (h1.owner[PageOf(pr)].w, SlotIndex(pr)));
  }

  lemma FreeKeeps(h: Heap, h': Heap, ptr: nat, page: nat)
    requires Valid(h) && ptr in h.live && ptr !in h.big && Frees(h, h', ptr, page)
    ensures NewHolds(h, Outside, h', if page == 0 then Outside else Returning(page))
  {
    hide Valid, Stuck, Quiet, Frees;
    FreesDone(h, h', ptr, page);
  }

  lemma BigKeeps(h: Heap, h': Heap, va: nat, n: nat)
    requires Valid(h) && FreshPages(h, va, n) && BigAdded(h, h', va, n)
    ensures NewHolds(h, Outside, h', Outside)
  {
    hide Valid, BigAdded, FreshPages;
    BigAddValid(h, h', va, n);
    BigAddKept(h, h', va, n);
  }

  lemma BigAddKept(h: Heap, h': Heap, va: nat, n: nat)
    requires Valid(h) && FreshPages(h, va, n) && BigAdded(h, h', va, n)
    ensures Kept(h, h', {}, {})
  {
    hide Lists, Pages, Lives, Owners, Roots, Refs, NoneWhollyFree, InRange, FreshPages;
    BigFresh(h, va, n);
  }

  lemma BigAddValid(h: Heap, h': Heap, va: nat, n: nat)
    requires Valid(h) && FreshPages(h, va, n) && BigAdded(h, h', va, n)
    ensures Valid(h') && va !in h.live
  {
    hide Inv, FreshPages, InRange;
    BigAddInv(h, h', va, n);
  }

  lemma BigFreeKeeps(h: Heap, h': Heap, va: nat)
    requires Valid(h) && va in h.big && BigRemoved(h, h', va)
    ensures NewHolds(h, Outside, h', Outside)
  {
    hide Valid, BigRemoved;
    BigRemoveValid(h, h', va);
    BigFreeKept(h, h', va);
  }

  lemma BigRemoveValid(h: Heap, h': Heap, va: nat)
    requires Valid(h) && BigRemoved(h, h', va)
    ensures Valid(h')
  {
    hide Inv, InRange, NoneWhollyFree;
    BigRemoveInv(h, h', va);
    SameFree(h, h');
  }

  lemma BigFreeKept(h: Heap, h': Heap, va: nat)
    requires Valid(h) && BigRemoved(h, h', va)
    ensures Kept(h, h', {}, {})
  {
    hide Lists, Pages, Lives, Owners, Roots, Refs, NoneWhollyFree, InRange;
    BigRange(h, va);
  }

  lemma WriteKeeps(h: Heap, a: nat, x: nat, v: nat)
    requires Valid(h) && a in h.live && a <= x < a + h.live[a]
    ensures NewHolds(h, Outside, h.(mem := h.mem[x := v]), Outside)
  {
    hide Valid;
    WriteValid(h, a, x, v);
  }

  lemma NoRootKeeps(h: Heap, pc: Pc)
    requires Valid(h) && Holds(h, pc) && pc.NeedRoot?
    ensures NewHolds(h, pc, h, GotRoot(pc.sz, pc.page, pc.slot, 0))
  {
    hide Valid;
  }

  lemma HeldApart(h: Heap, pc: Pc)
    requires Holds(h, pc) && pc.Surplus?
    ensures pc.va != pc.page
  {
  }

  /** Whatever region a thread runs, the heap is valid after it and no other thread loses what it
      holds. */
  lemma RegionKeeps(h: Heap, pc: Pc, st: Step, h': Heap, pc': Pc)
    requires Valid(h) && Holds(h, pc) && Ready(h, pc, st) && Does(h, pc, st, h', pc')
    ensures NewHolds(h, pc, h', pc')
  {
    hide Valid, Holds, NewHolds, Tries, Marks, Fills, SetsUpFor, Frees, BigAdded, BigRemoved, FreshPages, NPages;
    match st
    case Try(sz, pr, ret) => TryKeeps(h, h', TypeOf(sz), pr, ret);
    case TakePage(sz, page) => GrantKeeps(h, pc, pc', page);
    case Mark(slot, ret) => MarkKeeps(h, pc, slot, ret, h', pc');
    case TakeRoot(va) =>
      if va == 0 {
        NoRootKeeps(h, pc);
      } else {
        GrantKeeps(h, pc, pc', va);
      }
    case Fill(ret) => FillKeeps(h, pc, ret, h', pc');
    case GiveSurplus =>
      HeldApart(h, pc);
      ReleaseKeeps(h, pc, pc', pc.va);
    case Finish(ret) => FinishKeeps(h, pc, ret, h');
    case GivePage => ReleaseKeeps(h, pc, pc', pc.page);
    case Free(ptr, page) => FreeKeeps(h, h', ptr, page);
    case TakeBig(sz, va) => BigKeeps(h, h', va, NPages(sz));
    case FreeBig(ptr) => BigFreeKeeps(h, h', ptr);
    case Write(a, x, v) => WriteKeeps(h, a, x, v);
  }

  // ---- Runs ----

  /** Some thread runs one region. */
  ghost predicate Next(s: State, s': State, t: nat, st: Step)
  {
    && Ready(s.h, PcOf(s, t), st)
    && Does(s.h, PcOf(s, t), st, s'.h, PcOf(s', t)) && s'.pcs == s.pcs[t := PcOf(s', t)]
  }

  /** From the heap at boot, with no thread in it. */
  ghost predicate IsRun(states: seq<State>, threads: seq<nat>, steps: seq<Step>)
  {
    && |states| == |steps| + 1 == |threads| + 1 && states[0] == State(EmptyHeap(), map[])
    && forall i :: 0 <= i < |steps| ==> Next(states[i], states[i + 1], threads[i], steps[i])
  }

  lemma NextInv(s: State, s': State, t: nat, st: Step)
    requires RunInv(s) && Next(s, s', t, st)
    ensures RunInv(s')
  {
    var pc, pc' := PcOf(s, t), PcOf(s', t);
    assert Valid(s.h) && Holds(s.h, pc);
    hide RunInv, Valid, Holds, Ready, Does, PcOf;
    RegionKeeps(s.h, pc, st, s'.h, pc');
    StepKeeps(s, t, s'.h, pc');
    assert s' == State(s'.h, s.pcs[t := pc']);
  }

  /** In every interleaving the heap is valid whenever the lock is free, and every thread still
      has what it had in its hands. */
  lemma {:induction false} AnyRun(states: seq<State>, threads: seq<nat>, steps: seq<Step>, i: nat)
    requires IsRun(states, threads, steps) && i < |states|
    ensures RunInv(states[i])
  {
    hide RunInv, Next, Valid;
    if i == 0 {
      EmptyValid();
      hide EmptyHeap;
      StartInv(states[0]);
    } else {
      AnyRun(states, threads, steps, i - 1);
      NextInv(states[i - 1], states[i], threads[i - 1], steps[i - 1]);
    }
  }

  lemma StartInv(s: State)
    requires Valid(s.h) && s.pcs == map[]
    ensures RunInv(s)
  {
    hide Valid;
  }

  /** What the regions that a thread can run next require of the heap: the pages it left with are
      its own, a root in which it saw a page still has it, and wherever one of its regions comes
      to set up its page, what SetUpPage requires is met. */
  ghost predicate CanGoOn(h: Heap, pc: Pc)
  {
    && (!pc.Outside? ==> InHand(h, pc.page))
    && ((pc.GotRoot? && pc.va != 0) || pc.Surplus? ==> InHand(h, pc.va))
    && (pc.GotPage? ==> pc.sz < 2048)
    && (pc.GotPage? ==>
         forall s: (nat, nat) :: SlotClear(h, s) ==>
           CanSetUp(Reserve(h, s.0, s.1), RefAt(Reserve(h, s.0, s.1), s), pc.page, TypeOf(pc.sz), s))
    && (pc.GotRoot? ==> pc.sz < 2048 && pc.slot.0 < |h.roots|)
    && (pc.GotRoot? && (pc.va == 0 <==> h.roots[pc.slot.0].page != 0) ==>
         var h1 := if pc.va == 0 then h else Install(h, pc.slot.0, pc.va);
         CanSetUp(h1, RefAt(h1, pc.slot), pc.page, TypeOf(pc.sz), pc.slot))
    && (pc.Surplus? || pc.HasRoot? ==> pc.sz < 2048 && pc.slot.0 < |h.roots| && h.roots[pc.slot.0].page != 0)
    && (pc.HasRoot? ==> CanSetUp(h, RefAt(h, pc.slot), pc.page, TypeOf(pc.sz), pc.slot))
  }

  /** A clear bit of a root that has a page. */
  ghost predicate SlotClear(h: Heap, s: (nat, nat))
  {
    && s.0 < |h.roots| && s.1 < NREFS && Shaped(h.roots[s.0].words)
    && !BitSet(h.roots, s.0, s.1) && h.roots[s.0].page != 0
  }

  lemma HoldsMeans(h: Heap, pc: Pc)
    requires Valid(h) && Holds(h, pc)
    ensures CanGoOn(h, pc)
  {
    SlotHeld(pc);
    hide Valid, BitSet, Shaped, CanSetUp, Kept;
    if pc.GotPage? {
      forall s: (nat, nat) | SlotClear(h, s)
        ensures CanSetUp(Reserve(h, s.0, s.1), RefAt(Reserve(h, s.0, s.1), s), pc.page, TypeOf(pc.sz), s)
      {
        MarkedCanSetUp(h, pc, s);
      }
    } else if pc.GotRoot? && (pc.va == 0 <==> h.roots[pc.slot.0].page != 0) {
      FilledCanSetUp(h, pc);
    } else if pc.HasRoot? {
      assert CanSetUp(h, RefAt(h, pc.slot), pc.page, TypeOf(pc.sz), pc.slot) by { RootCanSetUp(h, pc); }
    }
  }

  lemma RootCanSetUp(h: Heap, pc: Pc)
    requires Holds(h, pc) && pc.HasRoot?
    ensures pc.slot.0 < |h.roots| && CanSetUp(h, RefAt(h, pc.slot), pc.page, TypeOf(pc.sz), pc.slot)
  {
    SlotHeld(pc);
  }

  /** So in every interleaving a thread that comes back under the lock can go on. */
  lemma AlwaysCanGoOn(states: seq<State>, threads: seq<nat>, steps: seq<Step>, i: nat, t: nat)
    requires IsRun(states, threads, steps) && i < |states|
    ensures CanGoOn(states[i].h, PcOf(states[i], t))
  {
    hide Valid, Next, Holds, CanGoOn, EmptyHeap;
    AnyRun(states, threads, steps, i);
    HoldsMeans(states[i].h, PcOf(states[i], t));
  }

  /** Live blocks never overlap, whoever allocated them. */
  lemma BlocksApart(states: seq<State>, threads: seq<nat>, steps: seq<Step>, i: nat, a: nat, b: nat)
    requires IsRun(states, threads, steps) && i < |states|
    requires a in states[i].h.live && b in states[i].h.live && a < b
    ensures a + states[i].h.live[a] <= b
  {
    hide Next, EmptyHeap;
    AnyRun(states, threads, steps, i);
    LiveDisjoint(states[i].h, a, b);
  }

  // ---- The blocks handed out ----

  /** The request that a step answers with a block, and the block. */
  function Answer(pc: Pc, st: Step, pc': Pc): (r: Option<(nat, nat)>)
  {
    match st
    case Try(sz, _, ret) => if ret != 0 then Some((sz, ret)) else None
    case Mark(_, ret) => if pc.GotPage? && pc' == Outside then Some((pc.sz, ret)) else None
    case Fill(ret) => if pc.GotRoot? && pc' == Outside then Some((pc.sz, ret)) else None
    case Finish(ret) => if pc.HasRoot? then Some((pc.sz, ret)) else None
    case TakeBig(sz, va) => Some((sz, va))
    case _ => None
  }

  /** The block that a step frees. */
  function FreedBy(st: Step): (r: Option<nat>)
  {
    if st.Free? || st.FreeBig? then Some(st.ptr) else None
  }

  /** The live blocks change only by the block that is handed out, which is new and at least as
      large as requested, and by the block that is freed. */
  ghost predicate Accounted(live: map<nat, nat>, live': map<nat, nat>, answer: Option<(nat, nat)>, freed: Option<nat>)
  {
    match answer
    case Some(r) =>
      && r.1 !in live && r.1 in live' && live'[r.1] >= r.0
      && live' == live[r.1 := live'[r.1]] && freed == None
    case None => live' == if freed.Some? then live - {freed.value} else live
  }

  lemma SetUpAccount(h: Heap, h': Heap, pc: Pc, slot: (nat, nat), ret: nat)
    requires Allocating(pc) && pc.sz < 2048 && Valid(h) && SetsUpFor(h, pc, slot, ret, h')
    requires CanSetUp(h, RefAt(h, slot), pc.page, TypeOf(pc.sz), slot)
    ensures Accounted(h.live, h'.live, Some((pc.sz, ret)), None)
  {
    hide Valid, CanSetUp, SetsUp;
    SetsUpDone(h, h', RefAt(h, slot), pc.page, TypeOf(pc.sz), slot, ret);
  }

  lemma MarkAccount(h: Heap, pc: Pc, slot: Option<(nat, nat)>, ret: nat, h': Heap, pc': Pc)
    requires Valid(h) && pc.GotPage? && pc.sz < 2048 && Holds(h, pc) && Marks(h, pc, slot, ret, h', pc')
    ensures Accounted(h.live, h'.live, if pc' == Outside then Some((pc.sz, ret)) else None, None)
  {
    hide Valid, Holds, FirstRoom, BitSet, SetsUpFor, CanSetUp;
    if slot.Some? && h.roots[slot.value.0].page != 0 {
      var s := slot.value;
      MarkedCanSetUp(h, pc, s);
      SetUpAccount(Reserve(h, s.0, s.1), h', pc, s, ret);
    }
  }

  lemma FillAccount(h: Heap, pc: Pc, ret: nat, h': Heap, pc': Pc)
    requires Valid(h) && pc.GotRoot? && pc.sz < 2048 && Holds(h, pc) && Fills(h, pc, ret, h', pc')
    ensures Accounted(h.live, h'.live, if pc' == Outside then Some((pc.sz, ret)) else None, None)
  {
    hide Valid, Holds, SetsUpFor, CanSetUp, Kept;
    if pc' == Outside {
      FilledCanSetUp(h, pc);
      SetUpAccount(if pc.va == 0 then h else Install(h, pc.slot.0, pc.va), h', pc, pc.slot, ret);
    }
  }

  lemma FinishAccount(h: Heap, pc: Pc, ret: nat, h': Heap)
    requires Valid(h) && pc.HasRoot? && pc.sz < 2048 && Holds(h, pc) && SetsUpFor(h, pc, pc.slot, ret, h')
    ensures Accounted(h.live, h'.live, Some((pc.sz, ret)), None)
  {
    hide Valid, Holds, SetsUpFor, CanSetUp;
    RootCanSetUp(h, pc);
    SetUpAccount(h, h', pc, pc.slot, ret);
  }

  lemma TryAccount(h: Heap, h': Heap, sz: nat, pr: nat, ret: nat)
    requires Valid(h) && sz < 2048 && Tries(h, h', TypeOf(sz), pr, ret)
    ensures Accounted(h.live, h'.live, if ret != 0 then Some((sz, ret)) else None, None)
  {
    if ret != 0 {
      assert Blk(h.refs[pr]) == TypeOf(sz);
      TakesValid(h, TypeOf(sz), pr);
    }
    hide Valid, Inv;
  }

  lemma BigAccount(h: Heap, h': Heap, sz: nat, va: nat)
    requires Valid(h) && 2048 <= sz < LIMIT && NPages(sz) > 0 && FreshPages(h, va, NPages(sz))
             && BigAdded(h, h', va, NPages(sz))
    ensures Accounted(h.live, h'.live, Some((sz, va)), None)
  {
    NPagesEnough(sz);
    hide Valid, NPages, FreshPages;
    BigAddValid(h, h', va, NPages(sz));
  }

  lemma FreeAccount(h: Heap, h': Heap, ptr: nat, page: nat)
    requires Valid(h) && ptr in h.live && ptr !in h.big && Frees(h, h', ptr, page)
    ensures Accounted(h.live, h'.live, None, Some(ptr))
  {
    hide Valid, Frees, Kept, Quiet, Stuck;
    FreesDone(h, h', ptr, page);
  }

  lemma RegionAccount(h: Heap, pc: Pc, st: Step, h': Heap, pc': Pc)
    requires Valid(h) && Holds(h, pc) && Ready(h, pc, st) && Does(h, pc, st, h', pc')
    ensures Accounted(h.live, h'.live, Answer(pc, st, pc'), FreedBy(st))
  {
    hide Valid, Holds, Accounted, Tries, Marks, Fills, SetsUpFor, Frees, FreshPages, NPages;
    match st
    case Try(sz, pr, ret) => TryAccount(h, h', sz, pr, ret);
    case Mark(slot, ret) => MarkAccount(h, pc, slot, ret, h', pc');
    case Fill(ret) => FillAccount(h, pc, ret, h', pc');
    case Finish(ret) => FinishAccount(h, pc, ret, h');
    case Free(ptr, page) => FreeAccount(h, h', ptr, page);
    case TakeBig(sz, va) => BigAccount(h, h', sz, va);
    case FreeBig(ptr) => SameAccount(h.live, h'.live, Some(ptr));
    case TakePage(_, _) => SameAccount(h.live, h'.live, None);
    case TakeRoot(_) => SameAccount(h.live, h'.live, None);
    case GiveSurplus => SameAccount(h.live, h'.live, None);
    case GivePage => SameAccount(h.live, h'.live, None);
    case Write(_, _, _) => SameAccount(h.live, h'.live, None);
  }

  lemma SameAccount(live: map<nat, nat>, live': map<nat, nat>, freed: Option<nat>)
    requires live' == if freed.Some? then live - {freed.value} else live
    ensures Accounted(live, live', None, freed)
  {
  }

  /** In every interleaving: a request that is answered gets a new block at least as large, and no
      step changes the live blocks otherwise, except that a kfree ends its block. */
  lemma HandsOut(states: seq<State>, threads: seq<nat>, steps: seq<Step>, i: nat)
    requires IsRun(states, threads, steps) && i < |steps|
    ensures var pc, pc' := PcOf(states[i], threads[i]), PcOf(states[i + 1], threads[i]);
            Accounted(states[i].h.live, states[i + 1].h.live, Answer(pc, steps[i], pc'), FreedBy(steps[i]))
  {
    var s, s', t, st := states[i], states[i + 1], threads[i], steps[i];
    AnyRun(states, threads, steps, i);
    assert Next(s, s', t, st) && Valid(s.h) && Holds(s.h, PcOf(s, t));
    hide RunInv, Valid, Holds, Ready, Does, PcOf, Accounted, EmptyHeap, IsRun;
    RegionAccount(s.h, PcOf(s, t), st, s'.h, PcOf(s', t));
  }

  /** When subpage_kmalloc fails, whatever other threads did before.  In allocpageref it gives its
      page back exactly if every root is full, and has its block exactly if the first root that is
      not full has a page.  With the lock held again in allocpagerefpage it gives its page back
      exactly if alloc_kpages gave nothing and the root still has no page, and it has a page too
      many exactly if somebody else gave the root its page. */
  lemma FailsExactly(states: seq<State>, threads: seq<nat>, steps: seq<Step>, i: nat)
    requires IsRun(states, threads, steps) && i < |steps|
    ensures var roots, pc, pc' := states[i].h.roots, PcOf(states[i], threads[i]), PcOf(states[i + 1], threads[i]);
            match steps[i]
            case Mark(_, _) =>
              && pc.GotPage?
              && (pc' == Returning(pc.page) <==> forall w :: 0 <= w < |roots| ==> roots[w].numinuse >= NREFS)
              && (pc' == Outside <==> RootFor(roots, 0))
            case Fill(_) =>
              && pc.GotRoot? && pc.slot.0 < |roots|
              && (pc' == Returning(pc.page) <==> pc.va == 0 && roots[pc.slot.0].page == 0)
              && (pc'.Surplus? <==> pc.va != 0 && roots[pc.slot.0].page != 0)
              && (pc' == Outside <==> (pc.va == 0 <==> roots[pc.slot.0].page != 0))
            case Finish(_) => pc.HasRoot? && pc' == Outside
            case _ => true
  {
    var s, s', t := states[i], states[i + 1], threads[i];
    assert Next(s, s', t, steps[i]);
    hide IsRun, SetsUpFor, RootFor, FirstRoom, PcOf, TypeOf;
    if steps[i].Mark? {
      MarkFails(s.h, PcOf(s, t), steps[i].slot, steps[i].ret, s'.h, PcOf(s', t));
    }
  }

  lemma MarkFails(h: Heap, pc: Pc, slot: Option<(nat, nat)>, ret: nat, h': Heap, pc': Pc)
    requires pc.GotPage? && pc.sz < 2048 && Marks(h, pc, slot, ret, h', pc')
    ensures pc' == Returning(pc.page) <==> forall w :: 0 <= w < |h.roots| ==> h.roots[w].numinuse >= NREFS
    ensures pc' == Outside <==> RootFor(h.roots, 0)
  {
    hide SetsUpFor;
    var w := FirstRoom(h.roots);
    hide FirstRoom;
    if RootFor(h.roots, 0) {
      var x :| 0 <= x < |h.roots| && h.roots[x].numinuse < NREFS && h.roots[x].page != 0
            && forall y :: 0 <= y < x ==> h.roots[y].numinuse >= NREFS;
      assert !(x < w) && !(w < x);
    }
  }

  /** A block stays live with its size until it is freed, whatever all threads do. */
  lemma {:induction false} BlockStays(states: seq<State>, threads: seq<nat>, steps: seq<Step>, i: nat, j: nat, a: nat)
    requires IsRun(states, threads, steps) && i <= j < |states| && a in states[i].h.live
    requires forall x :: i <= x < j ==> FreedBy(steps[x]) != Some(a)
    ensures a in states[j].h.live && states[j].h.live[a] == states[i].h.live[a]
    decreases j
  {
    hide IsRun, FreedBy, Answer;
    if i < j {
      BlockStays(states, threads, steps, i, j - 1, a);
      assert |states| == |steps| + 1 by { RunLength(states, threads, steps); }
      HandsOut(states, threads, steps, j - 1);
    }
  }

  lemma RunLength(states: seq<State>, threads: seq<nat>, steps: seq<Step>)
    requires IsRun(states, threads, steps)
    ensures |states| == |steps| + 1 == |threads| + 1
  {
  }

  // ---- The methods of the heap take these steps ----

  method RunTry(heap: KHeap, sz: nat) returns (ghost st: Step)
    requires Valid(heap.View()) && sz < 2048
    modifies heap
    ensures st.Try? && st.sz == sz && Ready(old(heap.View()), Outside, st)
    ensures Does(old(heap.View()), Outside, st, heap.View(), Outside)
  {
    hide Valid, Tried;
    ghost var h := heap.View();
    var k := BlockType(sz);
    ghost var pr;
    var ret;
    ret, pr := heap.TryAlloc(k.value);
    st := Try(sz, pr, ret);
    TriedTries(h, heap.View(), k.value, pr, ret);
  }

  lemma TriedTries(h: Heap, h': Heap, k: nat, pr: nat, ret: nat)
    requires k < NSIZES && Tried(h, h', k, pr, ret)
    ensures Tries(h, h', k, pr, ret)
  {
    hide Valid, Inv;
  }

  method RunMark(heap: KHeap, pc: Pc) returns (pc': Pc, ghost st: Step)
    requires Valid(heap.View()) && Holds(heap.View(), pc) && pc.GotPage?
    modifies heap
    ensures st.Mark? && Ready(old(heap.View()), pc, st) && Does(old(heap.View()), pc, st, heap.View(), pc')
  {
    hide Valid, Holds, SetUp, SetsUp, CanSetUp, FirstRoom;
    ghost var h := heap.View();
    HoldsSize(h, pc);
    var s := heap.ReservePageref();
    if s.None? {
      pc', st := Returning(pc.page), Mark(None, 0);
      return;
    }
    var (w, j) := s.value;
    MarkedCanSetUp(h, pc, s.value);
    if heap.roots[w].page == 0 {
      pc', st := NeedRoot(pc.sz, pc.page, s.value), Mark(s, 0);
      return;
    }
    var k := BlockType(pc.sz);
    var ret := heap.SetUpPage(heap.roots[w].page + REF_SIZE * j, pc.page, k.value, s.value);
    pc', st := Outside, Mark(s, ret);
  }

  lemma HoldsSize(h: Heap, pc: Pc)
    requires Holds(h, pc) && Allocating(pc)
    ensures pc.sz < 2048
    ensures !pc.GotPage? ==> pc.slot.0 < |h.roots|
  {
    SlotHeld(pc);
  }

  method RunFill(heap: KHeap, pc: Pc) returns (pc': Pc, ghost st: Step)
    requires Valid(heap.View()) && Holds(heap.View(), pc) && pc.GotRoot?
    modifies heap
    ensures st.Fill? && Ready(old(heap.View()), pc, st) && Does(old(heap.View()), pc, st, heap.View(), pc')
  {
    hide Valid, SetUp, SetsUp, CanSetUp, Kept;
    ghost var h := heap.View();
    HoldsSize(h, pc);
    SlotHeld(pc);
    ValidRoots(h);
    var w, j := pc.slot.0, pc.slot.1;
    if pc.va == 0 <==> heap.roots[w].page != 0 {
      FilledCanSetUp(h, pc);
    }
    var back := heap.InstallRootPage(w, pc.va);
    if back {
      pc', st := Surplus(pc.sz, pc.page, pc.slot, pc.va), Fill(0);
      return;
    }
    if heap.roots[w].page == 0 {
      pc', st := Returning(pc.page), Fill(0);
      return;
    }
    var k := BlockType(pc.sz);
    var ret := heap.SetUpPage(heap.roots[w].page + REF_SIZE * j, pc.page, k.value, pc.slot);
    pc', st := Outside, Fill(ret);
  }

  method RunFinish(heap: KHeap, pc: Pc) returns (ghost st: Step)
    requires Valid(heap.View()) && Holds(heap.View(), pc) && pc.HasRoot?
    modifies heap
    ensures st.Finish? && Ready(old(heap.View()), pc, st) && Does(old(heap.View()), pc, st, heap.View(), Outside)
  {
    hide Valid, Holds, SetUp, SetsUp, CanSetUp;
    ghost var h := heap.View();
    HoldsSize(h, pc);
    RootCanSetUp(h, pc);
    var k := BlockType(pc.sz);
    var ret := heap.SetUpPage(heap.roots[pc.slot.0].page + REF_SIZE * pc.slot.1, pc.page, k.value, pc.slot);
    st := Finish(ret);
  }

  lemma KfreeOurs(h: Heap, h': Heap, ptr: nat, r: FreeResult, page: nat)
    requires KfreeDone(h, h', ptr, r, page) && ptr in h.live && ptr !in h.big
    ensures r != NotOurs && (r == Panicked <==> Stuck(h, ptr))
  {
    hide Valid, Stuck, Kept, Quiet, OnHeapPage;
  }

  /** subpage_kfree of a block on a heap page, unless it panics. */
  method RunFree(heap: KHeap, ptr: nat) returns (r: FreeResult, pc': Pc, ghost st: Step)
    requires Valid(heap.View()) && ptr in heap.live && ptr !in heap.big
    modifies heap
    ensures r != NotOurs && (r == Panicked <==> Stuck(old(heap.View()), ptr))
    ensures st.Free? && st.ptr == ptr && Ready(old(heap.View()), Outside, st)
    ensures r == Freed ==> Does(old(heap.View()), Outside, st, heap.View(), pc')
  {
    hide Valid, Inv, Frees, NotDoubleFree, Stuck, KfreeDone;
    ghost var h := heap.View();
    ValidInv(h);
    NotDouble(h, ptr);
    var page;
    r, page := heap.SubpageKfree(ptr);
    KfreeOurs(h, heap.View(), ptr, r, page);
    pc', st := if page == 0 then Outside else Returning(page), Free(ptr, page);
  }

  /** alloc_kpages, for blocks or for pagerefs. */
  ghost method RunTake(heap: KHeap, pc: Pc, st: Step) returns (pc': Pc)
    requires Valid(heap.View()) && (st.TakePage? || st.TakeRoot?) && Ready(heap.View(), pc, st)
    modifies heap
    ensures Does(old(heap.View()), pc, st, heap.View(), pc')
  {
    hide Valid, FreshPages;
    if st.TakePage? {
      heap.TakeFresh(st.page);
      pc' := GotPage(st.sz, st.page);
    } else {
      if st.va != 0 {
        heap.TakeFresh(st.va);
      }
      pc' := GotRoot(pc.sz, pc.page, pc.slot, st.va);
    }
  }

  /** free_kpages. */
  ghost method RunGive(heap: KHeap, pc: Pc) returns (pc': Pc, st: Step)
    requires Valid(heap.View()) && Holds(heap.View(), pc) && (pc.Surplus? || pc.Returning?)
    modifies heap
    ensures Ready(old(heap.View()), pc, st) && Does(old(heap.View()), pc, st, heap.View(), pc')
  {
    hide Valid;
    SlotHeld(pc);
    if pc.Surplus? {
      heap.GiveBack(pc.va);
      pc', st := HasRoot(pc.sz, pc.page, pc.slot), GiveSurplus;
    } else {
      heap.GiveBack(pc.page);
      pc', st := Outside, GivePage;
    }
  }

  /** The whole-page paths, and writes by the owners of blocks. */
  method RunOther(heap: KHeap, st: Step)
    requires Valid(heap.View()) && (st.TakeBig? || st.FreeBig? || st.Write?) && Ready(heap.View(), Outside, st)
    modifies heap
    ensures Does(old(heap.View()), Outside, st, heap.View(), Outside)
  {
    hide Valid, FreshPages, BigAdded, BigRemoved, NPages;
    if st.TakeBig? {
      heap.KmallocPages(st.va, NPages(st.sz));
    } else if st.FreeBig? {
      heap.FreePages(st.ptr);
    } else {
      heap.UserWrite(st.a, st.x, st.v);
    }
  }
}
