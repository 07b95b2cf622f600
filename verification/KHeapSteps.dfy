/** Every locked region of kern/vm/kmalloc.c keeps the heap invariant. */
module KHeapSteps {
  import opened Common
  import opened KHeapModel
  import Words

  // ---- Frames ----

  /** Links and block types are the same. */
  ghost predicate SameLinks(refs: map<nat, PageRef>, refs': map<nat, PageRef>)
  {
    forall p :: p in refs ==>
      && p in refs'
      && refs'[p].nextSame == refs[p].nextSame && refs'[p].nextAll == refs[p].nextAll && refs'[p].pab == refs[p].pab
  }

  lemma ListsFrame(h: Heap, h': Heap)
    requires Lists(h) && SameLinks(h.refs, h'.refs)
    requires h'.sizebases == h.sizebases && h'.allbase == h.allbase
    requires h'.sizeLists == h.sizeLists && h'.allList == h.allList
    ensures Lists(h')
  {
    ChainsFrame(h, h');
    MembersFrame(h, h');
    hide AllChain, SameChain, NoDup, SameLinks;
  }

  lemma ChainsFrame(h: Heap, h': Heap)
    requires Lists(h) && SameLinks(h.refs, h'.refs)
    ensures AllChain(h'.refs, h.allbase, h.allList)
    ensures forall k :: 0 <= k < NSIZES ==> SameChain(h'.refs, h.sizebases[k], h.sizeLists[k])
  {
    AllChainFrame(h.refs, h'.refs, h.allbase, h.allList);
    hide AllChain, NoDup;
    forall k | 0 <= k < NSIZES ensures SameChain(h'.refs, h.sizebases[k], h.sizeLists[k]) {
      assert SameChain(h.refs, h.sizebases[k], h.sizeLists[k]);
      hide Lists, SameChain;
      ChainFrame(h.refs, h'.refs, h.sizebases[k], h.sizeLists[k]);
    }
  }

  lemma AllChainFrame(refs: map<nat, PageRef>, refs': map<nat, PageRef>, head: nat, l: seq<nat>)
    requires AllChain(refs, head, l) && SameLinks(refs, refs')
    ensures AllChain(refs', head, l)
  {
    forall i | 0 <= i < |l| ensures l[i] in refs' && l[i] != 0 && refs'[l[i]].nextAll == After(l, i) {
      assert l[i] in refs;
    }
  }

  lemma MembersFrame(h: Heap, h': Heap)
    requires Lists(h) && SameLinks(h.refs, h'.refs)
    ensures forall k, p :: 0 <= k < NSIZES && p in h.sizeLists[k] ==>
      p in h.allList && p in h'.refs && Blk(h'.refs[p]) == k
    ensures forall p :: p in h.allList ==>
      p in h'.refs && Blk(h'.refs[p]) < NSIZES && p in h.sizeLists[Blk(h'.refs[p])]
  {
    hide AllChain, SameChain, NoDup;
    forall k, p | 0 <= k < NSIZES && p in h.sizeLists[k]
      ensures p in h.allList && p in h'.refs && Blk(h'.refs[p]) == k
    {
      assert p in h.refs && Blk(h.refs[p]) == k;
    }
    forall p | p in h.allList ensures p in h'.refs && Blk(h'.refs[p]) < NSIZES && p in h.sizeLists[Blk(h'.refs[p])] {
      assert p in h.refs && Blk(h'.refs[p]) == Blk(h.refs[p]);
    }
  }

  lemma PageFrame(h: Heap, h': Heap, q: nat)
    requires PageOk(h, q) && q in h'.refs && q in h'.free
    requires h'.refs[q] == h.refs[q].(nextSame := h'.refs[q].nextSame, nextAll := h'.refs[q].nextAll)
    requires h'.free[q] == h.free[q]
    requires PageAddr(h.refs[q]) in h'.owner && h'.owner[PageAddr(h.refs[q])] == HeapPage(q)
    requires forall i :: 0 <= i < |h.free[q]| ==>
      h.free[q][i] in h'.mem && h'.mem[h.free[q][i]] == h.mem[h.free[q][i]]
    requires forall a :: PageOf(a) == PageAddr(h.refs[q]) ==> (a in h'.live <==> a in h.live)
    ensures PageOk(h', q)
  {
    var r := h.refs[q];
    forall a | IsBlock(PageAddr(r), Blk(r), a) ensures a in h'.live <==> a !in h.free[q] {
      PageOfUnique(PageAddr(r), a);
    }
  }

  lemma LiveFrame(h: Heap, h': Heap, a: nat)
    requires a in h.live && LiveOk(h, a) && a in h'.live && h'.live[a] == h.live[a]
    requires PageOf(a) in h'.owner && h'.owner[PageOf(a)] == h.owner[PageOf(a)]
    requires h.owner[PageOf(a)].HeapPage? ==>
      var p := h.owner[PageOf(a)].pr; p in h'.allList && p in h'.refs && h'.refs[p].pab == h.refs[p].pab
    requires h.owner[PageOf(a)].BigBlock? && a in h.big ==> a in h'.big && h'.big[a] == h.big[a]
    ensures LiveOk(h', a)
  {
  }

  /** Owners, bitmaps and pagerefs do not depend on free lists, live subpage blocks or memory. */
  lemma OwnersFrame(h: Heap, h': Heap)
    requires Owners(h) && SameLinks(h.refs, h'.refs)
    requires h'.owner == h.owner && h'.big == h.big && h'.allList == h.allList && h'.roots == h.roots
    requires forall b :: b in h.big && b in h.live ==> b in h'.live
    ensures Owners(h')
  {
    forall p | p in h'.owner ensures OwnerOk(h', p) {
      assert OwnerOk(h, p);
    }
    forall b | b in h'.big ensures BigOk(h', b) {
      assert BigOk(h, b);
    }
  }

  lemma RootsFrame(h: Heap, h': Heap)
    requires Roots(h) && Refs(h)
    requires h'.owner == h.owner && h'.allList == h.allList && h'.roots == h.roots && h'.reserved == h.reserved
    ensures Roots(h') && Refs(h')
  {
    forall p | p in h'.allList ensures RefOk(h', p) {
      assert RefOk(h, p);
    }
  }

  // ---- Taking a block off a page's free list ----

  /** Listed pagerefs have different pages. */
  lemma PagesApart(h: Heap, p: nat, q: nat)
    requires Pages(h) && p in h.allList && q in h.allList && p != q
    ensures PageOk(h, p) && PageOk(h, q)
    ensures PageAddr(h.refs[p]) != PageAddr(h.refs[q])
  {
    assert PageOk(h, p) && PageOk(h, q);
  }

  predicate CanTake(h: Heap, p: nat)
  {
    p in h.refs && p in h.free && h.free[p] != [] && Blk(h.refs[p]) < NSIZES && h.refs[p].nfree > 0
  }

  /** A pageref after its first free block is gone. */
  function PoppedRef(r: PageRef, fl: seq<nat>): (r': PageRef)
    requires r.nfree > 0
  {
    r.(nfree := r.nfree - 1, flo := if |fl| > 1 && PageAddr(r) <= fl[1] then fl[1] - PageAddr(r) else INVALID_OFFSET)
  }

  function TakeBlock(h: Heap, p: nat): (h': Heap)
    requires CanTake(h, p)
  {
    h.(refs := h.refs[p := PoppedRef(h.refs[p], h.free[p])],
       free := h.free[p := h.free[p][1..]],
       live := h.live[h.free[p][0] := Size(Blk(h.refs[p]))])
  }

  /** The free list of a page without its first block. */
  lemma TakeFreeList(r: PageRef, fl: seq<nat>, mem: map<nat, nat>)
    requires FreeList(r, fl, mem) && fl != []
    ensures FreeList(PoppedRef(r, fl), fl[1..], mem)
    ensures fl[0] !in fl[1..]
  {
    var gl := fl[1..];
    assert |fl| > 1 ==> IsBlock(PageAddr(r), Blk(r), fl[1]);
    assert forall i :: 0 <= i < |gl| ==> gl[i] == fl[i + 1] && After(gl, i) == After(fl, i + 1);
  }

  lemma TakePage(h: Heap, p: nat)
    requires Inv(h) && p in h.allList && p in h.free && h.free[p] != []
    ensures PageOk(h, p)
    ensures PageOk(TakeBlock(h, p), p)
    ensures PageOf(h.free[p][0]) == PageAddr(h.refs[p]) && h.free[p][0] !in h.live
  {
    assert PageOk(h, p);
    var r, fl := h.refs[p], h.free[p];
    TakeFreeList(r, fl, h.mem);
    PageOfUnique(PageAddr(r), fl[0]);
    assert fl[0] in fl;
    var h' := TakeBlock(h, p);
    forall a | IsBlock(PageAddr(r), Blk(r), a) ensures a in h'.live <==> a !in fl[1..] {
      assert a in fl <==> a == fl[0] || a in fl[1..];
    }
  }

  lemma TakePages(h: Heap, p: nat)
    requires Inv(h) && p in h.allList && PageOk(h, p) && h.free[p] != []
    ensures Pages(TakeBlock(h, p))
  {
    TakePage(h, p);
    var h' := TakeBlock(h, p);
    hide Lists, Lives, Owners, Roots, Refs;
    forall q | q in h'.allList ensures PageOk(h', q) {
      if q != p {
        PagesApart(h, p, q);
        hide PageOk;
        PageFrame(h, h', q);
      }
    }
  }

  lemma TakeLives(h: Heap, p: nat)
    requires Inv(h) && p in h.allList && PageOk(h, p) && h.free[p] != []
    ensures Lives(TakeBlock(h, p))
  {
    TakePage(h, p);
    var h' := TakeBlock(h, p);
    hide Lists, Owners, Roots, Refs, Pages;
    assert LiveOk(h', h.free[p][0]);
    forall a | a in h'.live ensures LiveOk(h', a) {
      if a != h.free[p][0] {
        assert LiveOk(h, a);
        hide LiveOk, PageOf;
        LiveFrame(h, h', a);
      }
    }
  }

  lemma TakeInv(h: Heap, p: nat)
    requires Inv(h) && p in h.allList && PageOk(h, p) && h.free[p] != []
    ensures Inv(TakeBlock(h, p))
  {
    TakePages(h, p);
    TakeLives(h, p);
    TakeFrame(h, p);
    hide Pages, Lives, Lists, Owners, Roots, Refs, PageOk, Size;
  }

  lemma TakeFrame(h: Heap, p: nat)
    requires Inv(h) && p in h.allList && PageOk(h, p) && h.free[p] != []
    ensures var h' := TakeBlock(h, p); Lists(h') && Owners(h') && Roots(h') && Refs(h')
  {
    hide Pages, Lives, Lists, Owners, Roots, Refs, PageOf, Partition, Size, NoDup, IsBlock;
    var h' := TakeBlock(h, p);
    ListsFrame(h, h');
    OwnersFrame(h, h');
    RootsFrame(h, h');
  }

  // ---- Putting a block back ----

  /** Memory changed only inside the block at a, which now links to the old list. */
  ghost predicate Linked(mem: map<nat, nat>, mem': map<nat, nat>, a: nat, n: nat, next: nat)
  {
    && a in mem' && mem'[a] == next
    && forall x :: x in mem && !(a <= x < a + n) ==> x in mem' && mem'[x] == mem[x]
  }

  function PutBlock(h: Heap, p: nat, a: nat, mem': map<nat, nat>): (h': Heap)
    requires p in h.refs && p in h.free && PageAddr(h.refs[p]) <= a
  {
    var r := h.refs[p];
    h.(refs := h.refs[p := r.(nfree := r.nfree + 1, flo := a - PageAddr(r))],
       free := h.free[p := [a] + h.free[p]],
       live := h.live - {a}, mem := mem')
  }

  /** What a caller of kfree passes: a live block on the page of p. */
  ghost predicate CanPut(h: Heap, p: nat, a: nat, mem': map<nat, nat>)
  {
    && p in h.allList && PageOk(h, p) && a in h.live
    && IsBlock(PageAddr(h.refs[p]), Blk(h.refs[p]), a)
    && Linked(h.mem, mem', a, Size(Blk(h.refs[p])), First(h.free[p]))
  }

  /** Writing inside a block leaves the links in the other blocks of the page alone. */
  lemma LinkElsewhere(r: PageRef, fl: seq<nat>, mem: map<nat, nat>, a: nat, mem': map<nat, nat>, next: nat)
    requires FreeList(r, fl, mem) && IsBlock(PageAddr(r), Blk(r), a) && a !in fl
    requires Linked(mem, mem', a, Size(Blk(r)), next)
    ensures forall i :: 0 <= i < |fl| ==> fl[i] in mem' && mem'[fl[i]] == mem[fl[i]]
  {
    hide Size, PageOf;
    forall i | 0 <= i < |fl| ensures fl[i] in mem' && mem'[fl[i]] == mem[fl[i]] {
      assert fl[i] in fl;
      if fl[i] < a {
        BlockGap(PageAddr(r), Blk(r), fl[i], a);
      } else {
        BlockGap(PageAddr(r), Blk(r), a, fl[i]);
      }
    }
  }

  lemma PutFreeList(r: PageRef, fl: seq<nat>, mem: map<nat, nat>, a: nat, mem': map<nat, nat>)
    requires FreeList(r, fl, mem) && IsBlock(PageAddr(r), Blk(r), a) && a !in fl
    requires Linked(mem, mem', a, Size(Blk(r)), First(fl))
    ensures FreeList(r.(nfree := r.nfree + 1, flo := a - PageAddr(r)), [a] + fl, mem')
    ensures |fl| < NBlocks(Blk(r))
  {
    var gl := [a] + fl;
    hide Size, PageOf, NBlocks;
    assert forall i :: 0 <= i < |gl| ==> gl[i] in mem' && mem'[gl[i]] == After(gl, i) by {
      LinkElsewhere(r, fl, mem, a, mem', First(fl));
      PushLinks(fl, mem, a, mem');
    }
    hide Linked, After;
    assert NoDup(gl) && forall i :: 0 <= i < |gl| ==> IsBlock(PageAddr(r), Blk(r), gl[i]);
    hide IsBlock, NoDup;
    FreeCount(PageAddr(r), Blk(r), gl);
  }

  lemma PushLinks(fl: seq<nat>, mem: map<nat, nat>, a: nat, mem': map<nat, nat>)
    requires forall i :: 0 <= i < |fl| ==> fl[i] in mem && mem[fl[i]] == After(fl, i)
    requires forall i :: 0 <= i < |fl| ==> fl[i] in mem' && mem'[fl[i]] == mem[fl[i]]
    requires a in mem' && mem'[a] == First(fl)
    ensures var gl := [a] + fl; forall i :: 0 <= i < |gl| ==> gl[i] in mem' && mem'[gl[i]] == After(gl, i)
  {
    var gl := [a] + fl;
    forall i | 0 <= i < |gl| ensures gl[i] in mem' && mem'[gl[i]] == After(gl, i) {
      assert i > 0 ==> gl[i] == fl[i - 1] && After(gl, i) == After(fl, i - 1);
    }
  }

  lemma PutPage(h: Heap, p: nat, a: nat, mem': map<nat, nat>)
    requires CanPut(h, p, a, mem')
    ensures PageOk(PutBlock(h, p, a, mem'), p)
    ensures h.refs[p].nfree < NBlocks(Blk(h.refs[p]))
  {
    PutFreeList(h.refs[p], h.free[p], h.mem, a, mem');
    hide FreeList, PageOf, Size, IsBlock;
  }

  lemma PutOther(h: Heap, p: nat, a: nat, mem': map<nat, nat>, q: nat)
    requires Pages(h) && CanPut(h, p, a, mem') && q in h.allList && q != p
    ensures PageOk(PutBlock(h, p, a, mem'), q)
  {
    var r := h.refs[p];
    PagesApart(h, p, q);
    PageOfUnique(PageAddr(r), a);
    BlockFits(PageAddr(r), Blk(r), a);
    hide FreeList, PageOf, Partition, Size, IsBlock;
    OtherPage(h.refs[q], h.free[q], h.mem, PageAddr(r), a, Size(Blk(r)));
    hide PageOk, Pages;
    PageFrame(h, PutBlock(h, p, a, mem'), q);
  }

  lemma PutPages(h: Heap, p: nat, a: nat, mem': map<nat, nat>)
    requires Pages(h) && CanPut(h, p, a, mem')
    ensures Pages(PutBlock(h, p, a, mem'))
  {
    var h' := PutBlock(h, p, a, mem');
    forall q | q in h'.allList ensures PageOk(h', q) {
      hide CanPut, PageOk;
      if q == p {
        PutPage(h, p, a, mem');
      } else {
        PutOther(h, p, a, mem', q);
      }
    }
  }

  lemma PageGap(p: nat, q: nat)
    requires p % PAGE_SIZE == 0 && q % PAGE_SIZE == 0 && p != q
    ensures p + PAGE_SIZE <= q || q + PAGE_SIZE <= p
  {
  }

  /** The free blocks of another page are outside a block of this one. */
  lemma OtherPage(r: PageRef, fl: seq<nat>, mem: map<nat, nat>, page: nat, a: nat, n: nat)
    requires FreeList(r, fl, mem) && PageAddr(r) != page && page % PAGE_SIZE == 0
    requires page <= a && a + n <= page + PAGE_SIZE
    ensures forall i :: 0 <= i < |fl| ==> fl[i] in mem && !(a <= fl[i] < a + n)
  {
    PageGap(page, PageAddr(r));
    hide PageOf, Size;
    assert forall i :: 0 <= i < |fl| ==> IsBlock(PageAddr(r), Blk(r), fl[i]);
  }

  lemma PutInv(h: Heap, p: nat, a: nat, mem': map<nat, nat>)
    requires Inv(h) && CanPut(h, p, a, mem')
    ensures Inv(PutBlock(h, p, a, mem'))
    ensures h.refs[p].nfree < NBlocks(Blk(h.refs[p]))
  {
    PutPage(h, p, a, mem');
    PutPages(h, p, a, mem');
    PutLives(h, p, a, mem');
    PutFrame(h, p, a, mem');
    hide Pages, Lives, Lists, Owners, Roots, Refs, PageOk;
  }

  lemma PutFrame(h: Heap, p: nat, a: nat, mem': map<nat, nat>)
    requires Inv(h) && CanPut(h, p, a, mem') && a !in h.big
    ensures var h' := PutBlock(h, p, a, mem'); Lists(h') && Owners(h') && Roots(h') && Refs(h')
  {
    hide Pages, Lives, Lists, Owners, Roots, Refs, PageOf, FreeList, Partition, Linked;
    var h' := PutBlock(h, p, a, mem');
    ListsFrame(h, h');
    OwnersFrame(h, h');
    RootsFrame(h, h');
  }

  lemma PutLives(h: Heap, p: nat, a: nat, mem': map<nat, nat>)
    requires Inv(h) && CanPut(h, p, a, mem')
    ensures Lives(PutBlock(h, p, a, mem')) && a !in h.big
  {
    PutNotBig(h, p, a, mem');
    hide Lists, Owners, Roots, Refs, Pages, FreeList, Partition, Linked, IsBlock, PageOf, Size;
    var h' := PutBlock(h, p, a, mem');
    forall x | x in h'.live ensures LiveOk(h', x) {
      assert LiveOk(h, x);
      hide LiveOk, Lives;
      LiveFrame(h, h', x);
    }
  }

  lemma PutNotBig(h: Heap, p: nat, a: nat, mem': map<nat, nat>)
    requires Inv(h) && CanPut(h, p, a, mem')
    ensures a !in h.big
  {
    PageOfUnique(PageAddr(h.refs[p]), a);
    hide Lists, Lives, Roots, Refs, Pages, FreeList, Partition, Linked;
    assert a in h.big ==> BigOk(h, a);
  }

  // ---- A fresh page ----

  /** The free list that subpage_kmalloc builds: from the last block down to the first. */
  function FullList(page: nat, k: nat, n: nat): (fl: seq<nat>)
    requires k < NSIZES
    ensures |fl| == n
  {
    seq(n, i requires 0 <= i < n => At(page, k, n - 1 - i))
  }

  function Refilled(h: Heap, page: nat, k: nat): (r: PageRef)
    requires k < NSIZES && |h.sizebases| == NSIZES && page % PAGE_SIZE == 0
  {
    var n := NBlocks(k);
    PageRef(h.sizebases[k], h.allbase, MkPab(page, k), At(page, k, n - 1) - page, n)
  }

  function AddPage(h: Heap, p: nat, page: nat, k: nat, slot: (nat, nat), mem': map<nat, nat>): (h': Heap)
    requires k < NSIZES && |h.sizebases| == NSIZES == |h.sizeLists| && page % PAGE_SIZE == 0
  {
    h.(refs := h.refs[p := Refilled(h, page, k)],
       sizebases := h.sizebases[k := p], sizeLists := h.sizeLists[k := [p] + h.sizeLists[k]],
       allbase := p, allList := [p] + h.allList,
       free := h.free[p := FullList(page, k, NBlocks(k))],
       owner := h.owner[page := HeapPage(p)], reserved := h.reserved - {slot}, mem := mem')
  }

  /** A pageref that was reserved for this page, and a page that was handed out for it, with
      its free list written. */
  ghost predicate CanAdd(h: Heap, p: nat, page: nat, k: nat, slot: (nat, nat), mem': map<nat, nat>)
  {
    && k < NSIZES && p != 0 && p !in h.allList
    && slot in h.reserved && Slot(h.roots, p, slot.0, slot.1)
    && page in h.owner && h.owner[page] == InTransit && 0 < page && page % PAGE_SIZE == 0 && page + PAGE_SIZE <= LIMIT
    && (forall x :: x in h.mem && !(page <= x < page + PAGE_SIZE) ==> x in mem' && mem'[x] == h.mem[x])
    && var fl := FullList(page, k, NBlocks(k));
       forall i :: 0 <= i < |fl| ==> fl[i] in mem' && mem'[fl[i]] == After(fl, i)
  }

  lemma AddLists(h: Heap, p: nat, page: nat, k: nat, slot: (nat, nat), mem': map<nat, nat>)
    requires Inv(h) && CanAdd(h, p, page, k, slot, mem')
    ensures Lists(AddPage(h, p, page, k, slot, mem'))
  {
    var h' := AddPage(h, p, page, k, slot, mem');
    assert Blk(h'.refs[p]) == k;
    hide Pages, Lives, Owners, Roots, Refs, FullList, Size, NBlocks, At, After, Slot, Blk, MkPab;
    AddToLists(h, h', p, k);
  }

  /** h' is h with p in front of the list of size k and of the list of all pagerefs. */
  ghost predicate Listed(h: Heap, h': Heap, p: nat, k: nat)
  {
    && |h.sizebases| == NSIZES == |h.sizeLists| && k < NSIZES && p !in h.allList && p != 0
    && p in h'.refs && h'.refs[p].nextSame == h.sizebases[k] && h'.refs[p].nextAll == h.allbase
    && (forall q :: q in h.refs && q != p ==> q in h'.refs && h'.refs[q] == h.refs[q])
    && h'.sizebases == h.sizebases[k := p] && h'.sizeLists == h.sizeLists[k := [p] + h.sizeLists[k]]
    && h'.allbase == p && h'.allList == [p] + h.allList
  }

  lemma AddToLists(h: Heap, h': Heap, p: nat, k: nat)
    requires Lists(h) && Listed(h, h', p, k) && Blk(h'.refs[p]) == k
    ensures Lists(h')
  {
    hide AllChain, SameChain, NoDup, Blk;
    AddChains(h, h', p, k);
    AddMembers(h, h', p, k);
    AddNoDup(h, h', p, k);
  }

  lemma AddNoDup(h: Heap, h': Heap, p: nat, k: nat)
    requires Lists(h) && Listed(h, h', p, k)
    ensures NoDup(h'.allList)
  {
    assert NoDup(h.allList) && p !in h.allList;
    hide Lists, AllChain, SameChain;
  }

  lemma AddMembers(h: Heap, h': Heap, p: nat, k: nat)
    requires Lists(h) && Listed(h, h', p, k) && Blk(h'.refs[p]) == k
    ensures forall i, q :: 0 <= i < NSIZES && q in h'.sizeLists[i] ==>
              q in h'.allList && q in h'.refs && Blk(h'.refs[q]) == i
    ensures forall q :: q in h'.allList ==>
              q in h'.refs && Blk(h'.refs[q]) < NSIZES && q in h'.sizeLists[Blk(h'.refs[q])]
  {
    hide AllChain, SameChain, NoDup, Blk;
    forall i, q | 0 <= i < NSIZES && q in h'.sizeLists[i]
      ensures q in h'.allList && q in h'.refs && Blk(h'.refs[q]) == i
    {
      assert q == p || q in h.sizeLists[i];
    }
    forall q | q in h'.allList ensures q in h'.refs && Blk(h'.refs[q]) < NSIZES && q in h'.sizeLists[Blk(h'.refs[q])] {
      assert q == p || q in h.allList;
    }
  }

  lemma AddChains(h: Heap, h': Heap, p: nat, k: nat)
    requires Lists(h) && Listed(h, h', p, k)
    ensures AllChain(h'.refs, h'.allbase, h'.allList)
    ensures forall i :: 0 <= i < NSIZES ==>
              SameChain(h'.refs, h'.sizebases[i], h'.sizeLists[i]) && NoDup(h'.sizeLists[i])
  {
    PushAll(h.refs, h'.refs, h.allbase, h.allList, p);
    hide AllChain, SameChain, NoDup, Lists, Listed;
    forall i | 0 <= i < NSIZES ensures SameChain(h'.refs, h'.sizebases[i], h'.sizeLists[i]) && NoDup(h'.sizeLists[i]) {
      AddChain(h, h', p, k, i);
    }
  }

  lemma AddChain(h: Heap, h': Heap, p: nat, k: nat, i: nat)
    requires Lists(h) && Listed(h, h', p, k) && i < NSIZES
    ensures |h'.sizebases| == NSIZES == |h'.sizeLists|
    ensures SameChain(h'.refs, h'.sizebases[i], h'.sizeLists[i]) && NoDup(h'.sizeLists[i])
  {
    assert SameChain(h.refs, h.sizebases[i], h.sizeLists[i]) && NoDup(h.sizeLists[i]) && p !in h.sizeLists[i];
    hide Lists, SameChain;
    if i == k {
      PushSame(h.refs, h'.refs, h.sizebases[i], h.sizeLists[i], p);
    } else {
      ChainFrame(h.refs, h'.refs, h.sizebases[i], h.sizeLists[i]);
    }
  }

  lemma PushAll(refs: map<nat, PageRef>, refs': map<nat, PageRef>, head: nat, l: seq<nat>, p: nat)
    requires AllChain(refs, head, l) && p !in l && p != 0 && p in refs' && refs'[p].nextAll == head
    requires forall q :: q in refs && q != p ==> q in refs' && refs'[q] == refs[q]
    ensures AllChain(refs', p, [p] + l)
  {
    var l' := [p] + l;
    forall j | 0 <= j < |l'| ensures l'[j] in refs' && l'[j] != 0 && refs'[l'[j]].nextAll == After(l', j) {
      if j > 0 {
        assert l'[j] == l[j - 1] && l[j - 1] in l && After(l', j) == After(l, j - 1);
      }
    }
  }

  lemma PushSame(refs: map<nat, PageRef>, refs': map<nat, PageRef>, head: nat, l: seq<nat>, p: nat)
    requires SameChain(refs, head, l) && p !in l && p != 0 && p in refs' && refs'[p].nextSame == head
    requires forall q :: q in refs && q != p ==> q in refs' && refs'[q] == refs[q]
    ensures SameChain(refs', p, [p] + l)
  {
    var l' := [p] + l;
    forall j | 0 <= j < |l'| ensures l'[j] in refs' && l'[j] != 0 && refs'[l'[j]].nextSame == After(l', j) {
      if j > 0 {
        assert l'[j] == l[j - 1] && l[j - 1] in l && After(l', j) == After(l, j - 1);
      }
    }
  }

  lemma ChainFrame(refs: map<nat, PageRef>, refs': map<nat, PageRef>, head: nat, l: seq<nat>)
    requires SameChain(refs, head, l)
    requires forall q :: q in refs && q in l ==> q in refs' && refs'[q].nextSame == refs[q].nextSame
    ensures SameChain(refs', head, l)
  {
  }

  /** The fresh page: every block is free, in the order the loop links them. */
  lemma FullListOk(page: nat, k: nat)
    requires k < NSIZES && page % PAGE_SIZE == 0
    ensures var n := NBlocks(k); var fl := FullList(page, k, n);
            && n >= 2 && NoDup(fl) && fl[0] == At(page, k, n - 1)
            && forall i :: 0 <= i < n ==> IsBlock(page, k, fl[i])
  {
    SizeDivides(k);
    var n := NBlocks(k);
    var fl := FullList(page, k, n);
    hide Size;
    forall i | 0 <= i < n ensures IsBlock(page, k, fl[i]) {
      BlockAt(page, k, n - 1 - i);
    }
    forall i, j | 0 <= i < j < n ensures fl[i] != fl[j] {
      AtMonotone(page, k, n - 1 - j, n - 1 - i);
    }
  }

  lemma AtMonotone(page: nat, k: nat, i: nat, j: nat)
    requires k < NSIZES && i < j
    ensures At(page, k, i) < At(page, k, j)
  {
    hide Size;
    Words.MulLe(i + 1, j, Size(k));
    assert (i + 1) * Size(k) == i * Size(k) + Size(k);
  }

  /** Nothing is live on a page that is in somebody's hands. */
  lemma TransitEmpty(h: Heap, page: nat)
    requires Lives(h) && page % PAGE_SIZE == 0 && page in h.owner && h.owner[page] == InTransit
    ensures forall a :: page <= a < page + PAGE_SIZE ==> a !in h.live
  {
    forall a | page <= a < page + PAGE_SIZE ensures a !in h.live {
      PageOfUnique(page, a);
      assert a in h.live ==> LiveOk(h, a);
    }
  }

  lemma AddFreePage(h: Heap, p: nat, page: nat, k: nat, slot: (nat, nat), mem': map<nat, nat>)
    requires Inv(h) && CanAdd(h, p, page, k, slot, mem')
    ensures PageOk(AddPage(h, p, page, k, slot, mem'), p)
  {
    var h' := AddPage(h, p, page, k, slot, mem');
    hide FullList, Size, Lists, Pages, Lives, Owners, Roots, Refs, PageOf, At, NoDup;
    var r, fl := h'.refs[p], h'.free[p];
    FullListOk(page, k);
    FreeCount(page, k, fl);
    TransitEmpty(h, page);
    assert PageAddr(r) == page && Blk(r) == k;
    assert FreeList(r, fl, mem');
    hide FreeList;
    assert Partition(r, fl, h'.live);
  }

  lemma AddOther(h: Heap, p: nat, page: nat, k: nat, slot: (nat, nat), mem': map<nat, nat>, q: nat)
    requires Inv(h) && CanAdd(h, p, page, k, slot, mem') && q in h.allList
    ensures PageOk(AddPage(h, p, page, k, slot, mem'), q)
  {
    assert PageOk(h, q);
    hide Inv, FreeList, Partition, Size, FullList;
    OtherPage(h.refs[q], h.free[q], h.mem, page, page, PAGE_SIZE);
    hide PageOf;
    PageFrame(h, AddPage(h, p, page, k, slot, mem'), q);
  }

  lemma AddPages(h: Heap, p: nat, page: nat, k: nat, slot: (nat, nat), mem': map<nat, nat>)
    requires Inv(h) && CanAdd(h, p, page, k, slot, mem')
    ensures Pages(AddPage(h, p, page, k, slot, mem'))
  {
    var h' := AddPage(h, p, page, k, slot, mem');
    hide Inv, PageOk, Size, FullList;
    AddFreePage(h, p, page, k, slot, mem');
    forall q | q in h'.allList ensures PageOk(h', q) {
      if q != p {
        AddOther(h, p, page, k, slot, mem', q);
      }
    }
  }

  lemma AddLives(h: Heap, p: nat, page: nat, k: nat, slot: (nat, nat), mem': map<nat, nat>)
    requires Inv(h) && CanAdd(h, p, page, k, slot, mem')
    ensures Lives(AddPage(h, p, page, k, slot, mem'))
  {
    var h' := AddPage(h, p, page, k, slot, mem');
    hide Lists, Pages, Owners, Roots, Refs, Size, FullList;
    forall a | a in h'.live ensures LiveOk(h', a) {
      assert LiveOk(h, a);
      hide PageOf, Lives;
      LiveFrame(h, h', a);
    }
  }

  lemma AddOwners(h: Heap, p: nat, page: nat, k: nat, slot: (nat, nat), mem': map<nat, nat>)
    requires Inv(h) && CanAdd(h, p, page, k, slot, mem')
    ensures Owners(AddPage(h, p, page, k, slot, mem'))
  {
    var h' := AddPage(h, p, page, k, slot, mem');
    hide Lists, Pages, Lives, Roots, Refs, Owners, Size, FullList, After, Slot, NBlocks, At;
    assert PageAddr(h'.refs[p]) == page;
    hide PageOf;
    AddOwner(h, h', p, page);
    AddBigs(h, h', page);
    BothOwners(h');
  }

  lemma BothOwners(h: Heap)
    requires (forall p :: p in h.owner ==> OwnerOk(h, p)) && (forall b :: b in h.big ==> BigOk(h, b))
    ensures Owners(h)
  {
  }

  lemma AddOwner(h: Heap, h': Heap, p: nat, page: nat)
    requires Owners(h) && p !in h.allList && page % PAGE_SIZE == 0
    requires h'.owner == h.owner[page := HeapPage(p)] && h'.roots == h.roots && h'.big == h.big
    requires p in h'.allList && p in h'.refs && PageAddr(h'.refs[p]) == page
    requires forall q :: q in h.allList ==> q in h'.allList
    requires forall q :: q in h.refs && q != p ==> q in h'.refs && h'.refs[q] == h.refs[q]
    ensures forall x :: x in h'.owner ==> OwnerOk(h', x)
  {
    hide PageOf, BigOk;
    forall x | x in h'.owner ensures OwnerOk(h', x) {
      assert x != page ==> OwnerOk(h, x);
    }
  }

  lemma AddBigs(h: Heap, h': Heap, page: nat)
    requires Owners(h) && page in h.owner && h.owner[page] == InTransit && h'.big == h.big && h'.live == h.live
    requires forall x :: x in h.owner && x != page ==> x in h'.owner && h'.owner[x] == h.owner[x]
    ensures forall b :: b in h'.big ==> BigOk(h', b)
  {
    hide OwnerOk;
    forall b | b in h'.big ensures BigOk(h', b) {
      assert BigOk(h, b);
    }
  }

  lemma AddRoots(h: Heap, p: nat, page: nat, k: nat, slot: (nat, nat), mem': map<nat, nat>)
    requires Inv(h) && CanAdd(h, p, page, k, slot, mem')
    ensures Roots(AddPage(h, p, page, k, slot, mem'))
  {
    hide Lists, Pages, Lives, Owners, Size, FullList, RootOk, Refs;
  }

  lemma AddRefs(h: Heap, p: nat, page: nat, k: nat, slot: (nat, nat), mem': map<nat, nat>)
    requires Inv(h) && CanAdd(h, p, page, k, slot, mem')
    ensures Refs(AddPage(h, p, page, k, slot, mem'))
  {
    SlotOwner(h, p, slot.0, slot.1);
    hide Lists, Pages, Lives, Owners, Size, FullList, BitSet, Roots, Refs, PageOf, SlotIndex, At, After, NBlocks, MkPab;
    AddRef(h, AddPage(h, p, page, k, slot, mem'), p, page, slot);
  }

  lemma AddRef(h: Heap, h': Heap, p: nat, page: nat, slot: (nat, nat))
    requires Refs(h) && Slot(h.roots, p, slot.0, slot.1) && slot in h.reserved && page in h.owner
             && h.owner[page] == InTransit
    requires PageOf(p) in h.owner && h.owner[PageOf(p)] == RootPage(slot.0) && SlotIndex(p) == slot.1
    requires h'.roots == h.roots && h'.allList == [p] + h.allList
    requires h'.owner == h.owner[page := HeapPage(p)] && h'.reserved == h.reserved - {slot}
    ensures Refs(h')
  {
    hide BitSet, PageOf, SlotIndex, Slot;
    forall q | q in h'.allList ensures RefOk(h', q) {
      assert q == p || q in h.allList;
      assert q != p ==> RefOk(h, q);
    }
  }

  /** The page and index of a pageref are those of its slot. */
  lemma SlotOwner(h: Heap, p: nat, w: nat, j: nat)
    requires Roots(h) && Slot(h.roots, p, w, j)
    ensures PageOf(p) in h.owner && h.owner[PageOf(p)] == RootPage(w) && SlotIndex(p) == j && p != 0
  {
    assert RootOk(h.roots[w]);
    PageOfUnique(h.roots[w].page, p);
  }

  lemma AddInv(h: Heap, p: nat, page: nat, k: nat, slot: (nat, nat), mem': map<nat, nat>)
    requires Inv(h) && CanAdd(h, p, page, k, slot, mem')
    ensures Inv(AddPage(h, p, page, k, slot, mem'))
  {
    AddLists(h, p, page, k, slot, mem');
    AddPages(h, p, page, k, slot, mem');
    AddLives(h, p, page, k, slot, mem');
    AddOwners(h, p, page, k, slot, mem');
    AddRoots(h, p, page, k, slot, mem');
    AddRefs(h, p, page, k, slot, mem');
    hide AddPage, CanAdd, Lists, Pages, Lives, Owners, Roots, Refs;
  }

  // ---- Counting the blocks of a page ----

  function Elems(q: seq<nat>): (s: set<nat>)
  {
    set a | a in q
  }

  lemma {:induction false} DistinctCount(q: seq<nat>)
    requires NoDup(q)
    ensures |Elems(q)| == |q|
  {
    if q != [] {
      var r := q[1..];
      assert forall i :: 0 <= i < |r| ==> r[i] == q[i + 1];
      assert q[0] !in r;
      DistinctCount(r);
      assert q == [q[0]] + r;
      assert Elems(q) == Elems(r) + {q[0]};
    }
  }

  /** The live blocks of a page. */
  ghost function LiveOn(h: Heap, p: nat): (s: set<nat>)
    requires p in h.refs && Blk(h.refs[p]) < NSIZES
  {
    set a | a in h.live && IsBlock(PageAddr(h.refs[p]), Blk(h.refs[p]), a)
  }

  /** Free and live blocks account for the whole page: nfree and the live blocks add up to the
      number of blocks, and no block is both. */
  lemma PageAccount(h: Heap, p: nat)
    requires PageOk(h, p)
    ensures h.refs[p].nfree + |LiveOn(h, p)| == NBlocks(Blk(h.refs[p]))
    ensures forall a :: a in h.free[p] ==> a !in h.live
  {
    var r, fl := h.refs[p], h.free[p];
    var every := AllBlocks(PageAddr(r), Blk(r));
    DistinctCount(fl);
    FreeAndLive(r, fl, h.mem, h.live, LiveOn(h, p), every);
  }

  lemma FreeAndLive(r: PageRef, fl: seq<nat>, mem: map<nat, nat>, live: map<nat, nat>, on: set<nat>, every: set<nat>)
    requires FreeList(r, fl, mem) && Partition(r, fl, live)
    requires forall a :: a in on <==> a in live && IsBlock(PageAddr(r), Blk(r), a)
    requires forall a :: a in every <==> 0 <= a && IsBlock(PageAddr(r), Blk(r), a)
    ensures every == Elems(fl) + on && Elems(fl) !! on && |every| == |Elems(fl)| + |on|
    ensures forall a :: a in fl ==> a !in live
  {
    forall a | a in fl ensures a in every && a !in live {
      var i :| 0 <= i < |fl| && fl[i] == a;
      assert IsBlock(PageAddr(r), Blk(r), fl[i]);
    }
    hide IsBlock, FreeList, PageOf;
  }

  /** The blocks of a page, as a set of the right size. */
  lemma AllBlocks(page: nat, k: nat) returns (every: set<nat>)
    requires k < NSIZES && page % PAGE_SIZE == 0
    ensures |every| == NBlocks(k) && forall a :: a in every <==> 0 <= a && IsBlock(page, k, a)
  {
    var all := FullList(page, k, NBlocks(k));
    FullListOk(page, k);
    FreeCount(page, k, all);
    DistinctCount(all);
    every := Elems(all);
    hide IsBlock, FullList;
    assert forall a :: a in all ==> IsBlock(page, k, a);
  }
}
