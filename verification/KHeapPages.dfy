/** Taking heap pages off the lists, pageref bitmaps, whole-page blocks and writes by the
    owners of blocks all keep the heap invariant. */
module KHeapPages {
  import opened Common
  import opened KHeapModel
  import opened KHeapSteps

  // ---- A wholly free page leaves the lists ----

  function Without(q: seq<nat>, p: nat): (r: seq<nat>)
  {
    if q == [] then [] else if q[0] == p then q[1..] else [q[0]] + Without(q[1..], p)
  }

  lemma {:induction false} WithoutAt(q: seq<nat>, i: nat)
    requires NoDup(q) && i < |q|
    ensures Without(q, q[i]) == q[..i] + q[i + 1..]
  {
    if i > 0 {
      assert q[0] != q[i];
      WithoutAt(q[1..], i - 1);
      assert q[1..][..i - 1] == q[1..i];
      assert q[..i] == [q[0]] + q[1..i];
    }
  }

  lemma WithoutMembers(q: seq<nat>, p: nat)
    requires NoDup(q) && p in q
    ensures NoDup(Without(q, p))
    ensures forall x :: x in Without(q, p) <==> x in q && x != p
  {
    var i :| 0 <= i < |q| && q[i] == p;
    WithoutAt(q, i);
    hide Without;
    var r := Without(q, p);
    assert forall j :: 0 <= j < |r| ==> r[j] == if j < i then q[j] else q[j + 1];
    forall x ensures x in r <==> x in q && x != p {
      if x in q && x != p {
        var j :| 0 <= j < |q| && q[j] == x;
        assert r[if j < i then j else j - 1] == x;
      }
    }
  }

  /** h' is h without p on its lists; its page is back in the hands of the caller, and its
      bit is still set. */
  ghost predicate Unlisted(h: Heap, h': Heap, p: nat)
  {
    && p in h.allList && PageOk(h, p) && RefOk(h, p) && |h.sizeLists| == NSIZES == |h'.sizebases|
    && var k := Blk(h.refs[p]);
       && h' == h.(refs := h'.refs, sizebases := h'.sizebases, allbase := h'.allbase,
                   sizeLists := h.sizeLists[k := Without(h.sizeLists[k], p)], allList := Without(h.allList, p),
                   owner := h.owner[PageAddr(h.refs[p]) := InTransit],
                   reserved := h.reserved + {(h.owner[PageOf(p)].w, SlotIndex(p))})
       && AllChain(h'.refs, h'.allbase, h'.allList)
       && (forall i :: 0 <= i < NSIZES ==> SameChain(h'.refs, h'.sizebases[i], h'.sizeLists[i]))
       && (forall q :: q in h.refs ==>
            q in h'.refs && h'.refs[q] == h.refs[q].(nextSame := h'.refs[q].nextSame, nextAll := h'.refs[q].nextAll))
  }

  lemma UnlistMembers(h: Heap, h': Heap, p: nat)
    requires Lists(h) && Unlisted(h, h', p)
    ensures |h'.sizeLists| == NSIZES == |h'.sizebases|
    ensures NoDup(h'.allList) && forall x :: x in h'.allList <==> x in h.allList && x != p
    ensures forall i :: 0 <= i < NSIZES ==> NoDup(h'.sizeLists[i])
    ensures forall i, x :: 0 <= i < NSIZES ==> (x in h'.sizeLists[i] <==> x in h.sizeLists[i] && x != p)
  {
    var k := Blk(h.refs[p]);
    hide PageOk, RefOk, Without, AllChain, SameChain;
    WithoutMembers(h.allList, p);
    WithoutMembers(h.sizeLists[k], p);
    assert h'.sizeLists == h.sizeLists[k := Without(h.sizeLists[k], p)] && h'.allList == Without(h.allList, p);
    hide Unlisted, NoDup;
  }

  lemma UnlistLinks(h: Heap, h': Heap, p: nat)
    requires Unlisted(h, h', p)
    ensures AllChain(h'.refs, h'.allbase, h'.allList) && |h'.sizeLists| == NSIZES == |h'.sizebases|
    ensures forall i :: 0 <= i < NSIZES ==> SameChain(h'.refs, h'.sizebases[i], h'.sizeLists[i])
    ensures forall q :: q in h.refs ==> q in h'.refs && h'.refs[q].pab == h.refs[q].pab
  {
    assert Blk(h.refs[p]) < NSIZES;
    hide PageOk, RefOk, Without, AllChain, SameChain, PageOf, SlotIndex;
  }

  lemma UnlistLists(h: Heap, h': Heap, p: nat)
    requires Lists(h) && Unlisted(h, h', p)
    ensures Lists(h')
    ensures forall x :: x in h'.allList <==> x in h.allList && x != p
  {
    hide Unlisted, NoDup, AllChain, SameChain;
    UnlistMembers(h, h', p);
    UnlistLinks(h, h', p);
    forall q | q in h'.allList
      ensures q in h'.refs && Blk(h'.refs[q]) < NSIZES && q in h'.sizeLists[Blk(h'.refs[q])]
    {
      assert q in h.refs && Blk(h.refs[q]) < NSIZES && q in h.sizeLists[Blk(h.refs[q])];
    }
    forall i, q | 0 <= i < NSIZES && q in h'.sizeLists[i]
      ensures q in h'.allList && q in h'.refs && Blk(h'.refs[q]) == i
    {
      assert q in h.sizeLists[i];
    }
  }

  /** No live block is left on a page whose blocks are all free. */
  lemma NoneLive(h: Heap, p: nat)
    requires PageOk(h, p) && h.refs[p].nfree == NBlocks(Blk(h.refs[p])) && Lives(h)
    ensures forall a :: a in h.live ==> h.owner[PageOf(a)] != HeapPage(p)
  {
    var r := h.refs[p];
    FreeCount(PageAddr(r), Blk(r), h.free[p]);
    forall a | a in h.live ensures h.owner[PageOf(a)] != HeapPage(p) {
      assert LiveOk(h, a);
    }
  }

  lemma UnlistPages(h: Heap, h': Heap, p: nat)
    requires Inv(h) && Unlisted(h, h', p) && Lists(h')
    requires forall x :: x in h'.allList <==> x in h.allList && x != p
    ensures Pages(h')
  {
    hide Lists, Lives, Owners, Roots, Refs, RefOk, Without, AllChain, SameChain;
    forall q | q in h'.allList ensures PageOk(h', q) {
      PagesApart(h, p, q);
      hide FreeList, Partition, PageOf;
      PageFrame(h, h', q);
    }
  }

  lemma UnlistLives(h: Heap, h': Heap, p: nat)
    requires Inv(h) && Unlisted(h, h', p)
    requires h.refs[p].nfree == NBlocks(Blk(h.refs[p]))
    requires forall x :: x in h'.allList <==> x in h.allList && x != p
    ensures Lives(h')
  {
    NoneLive(h, p);
    hide Lists, Pages, Owners, Roots, Refs, RefOk, Without, AllChain, SameChain, Size;
    forall a | a in h'.live ensures LiveOk(h', a) {
      assert LiveOk(h, a);
      assert PageOf(a) != PageAddr(h.refs[p]);
      hide PageOf, Lives, PageOk;
      LiveFrame(h, h', a);
    }
  }

  lemma UnlistOwners(h: Heap, h': Heap, p: nat)
    requires Inv(h) && Unlisted(h, h', p)
    requires forall x :: x in h'.allList <==> x in h.allList && x != p
    ensures Owners(h')
  {
    hide Lists, Pages, Lives, Roots, Refs, RefOk, Without, AllChain, SameChain, FreeList, Partition;
    forall x | x in h'.owner ensures OwnerOk(h', x) {
      assert OwnerOk(h, x);
    }
    forall b | b in h'.big ensures BigOk(h', b) {
      assert BigOk(h, b);
    }
  }

  lemma UnlistRefs(h: Heap, h': Heap, p: nat)
    requires Inv(h) && Unlisted(h, h', p)
    requires forall x :: x in h'.allList <==> x in h.allList && x != p
    ensures Roots(h') && Refs(h')
  {
    hide Lists, Pages, Lives, Owners, Without, AllChain, SameChain, FreeList, Partition, RootOk, BitSet;
    assert Roots(h');
    forall q | q in h'.allList ensures RefOk(h', q) {
      assert RefOk(h, q);
      SameSlot(h, p, q);
    }
  }

  /** Different pagerefs have different slots. */
  lemma SameSlot(h: Heap, p: nat, q: nat)
    requires RefOk(h, p) && RefOk(h, q) && p != q
    ensures (h.owner[PageOf(p)].w, SlotIndex(p)) != (h.owner[PageOf(q)].w, SlotIndex(q))
  {
  }

  lemma UnlistInv(h: Heap, h': Heap, p: nat)
    requires Inv(h) && Unlisted(h, h', p)
    requires h.refs[p].nfree == NBlocks(Blk(h.refs[p]))
    ensures Inv(h')
    ensures forall x :: x in h'.allList <==> x in h.allList && x != p
  {
    UnlistLists(h, h', p);
    UnlistPages(h, h', p);
    UnlistLives(h, h', p);
    UnlistOwners(h, h', p);
    UnlistRefs(h, h', p);
    hide Unlisted, Lists, Pages, Lives, Owners, Roots, Refs;
  }

  // ---- Bitmaps ----

  lemma {:induction false} BitCountUpdate(w: seq<bool>, i: nat, v: bool)
    requires i < |w| && w[i] != v
    ensures BitCount(w[i := v]) == BitCount(w) + (if v then 1 else -1)
  {
    if i == 0 {
      assert w[0 := v][1..] == w[1..];
    } else {
      assert w[i := v][1..] == w[1..][i - 1 := v];
      BitCountUpdate(w[1..], i - 1, v);
    }
  }

  lemma {:induction false} WordCountUpdate(ws: seq<seq<bool>>, i: nat, w: seq<bool>)
    requires i < |ws|
    ensures WordCount(ws[i := w]) == WordCount(ws) - BitCount(ws[i]) + BitCount(w)
  {
    if i == 0 {
      assert ws[0 := w][1..] == ws[1..];
    } else {
      assert ws[i := w][1..] == ws[1..][i - 1 := w];
      WordCountUpdate(ws[1..], i - 1, w);
    }
  }

  /** A word is full exactly when it has 32 bits set, so a word that is not full has room. */
  lemma {:induction false} FullWord(w: seq<bool>)
    ensures BitCount(w) == |w| <==> forall j :: 0 <= j < |w| ==> w[j]
  {
    if w != [] {
      FullWord(w[1..]);
      assert forall j :: 0 < j < |w| ==> w[j] == w[1..][j - 1];
      assert (forall j :: 0 <= j < |w| ==> w[j]) ==> forall j :: 0 <= j < |w[1..]| ==> w[1..][j] == w[j + 1];
    }
  }

  /** If every word is full the count is the number of bits. */
  lemma {:induction false} FullWords(ws: seq<seq<bool>>)
    requires forall i :: 0 <= i < |ws| ==> |ws[i]| == 32 && BitCount(ws[i]) == 32
    ensures WordCount(ws) == 32 * |ws|
  {
    if ws != [] {
      FullWords(ws[1..]);
    }
  }

  function FlipBit(r: Root, j: nat, v: bool): (r': Root)
    requires Shaped(r.words) && j < NREFS && (v || r.numinuse > 0)
  {
    r.(words := r.words[j / 32 := r.words[j / 32][j % 32 := v]],
       numinuse := if v then r.numinuse + 1 else r.numinuse - 1)
  }

  lemma FlipBitOk(r: Root, j: nat, v: bool)
    requires RootOk(r) && j < NREFS && r.words[j / 32][j % 32] != v
    ensures v || r.numinuse > 0
    ensures RootOk(FlipBit(r, j, v))
  {
    var w := r.words[j / 32];
    BitCountUpdate(w, j % 32, v);
    WordCountUpdate(r.words, j / 32, w[j % 32 := v]);
  }

  /** One bit changes, the count follows it, and nothing else in the roots changes. */
  lemma FlipEffect(roots: seq<Root>, w: nat, j: nat, v: bool)
    requires w < |roots| && RootOk(roots[w]) && j < NREFS && BitSet(roots, w, j) != v
    ensures v || roots[w].numinuse > 0
    ensures var roots' := roots[w := FlipBit(roots[w], j, v)];
            && (forall x :: 0 <= x < |roots| ==> roots'[x].page == roots[x].page)
            && RootOk(roots'[w])
            && BitSet(roots', w, j) == v
            && (forall x: nat, y: nat :: (x, y) != (w, j) ==> BitSet(roots', x, y) == BitSet(roots, x, y))
  {
    FlipBitOk(roots[w], j, v);
    var roots' := roots[w := FlipBit(roots[w], j, v)];
    forall x: nat, y: nat | (x, y) != (w, j) ensures BitSet(roots', x, y) == BitSet(roots, x, y) {
      if x == w && y < NREFS {
        assert y / 32 != j / 32 || y % 32 != j % 32;
      }
    }
  }

  /** allocpageref marks a bit. */
  function Reserve(h: Heap, w: nat, j: nat): (h': Heap)
    requires w < |h.roots| && Shaped(h.roots[w].words) && j < NREFS
  {
    h.(roots := h.roots[w := FlipBit(h.roots[w], j, true)], reserved := h.reserved + {(w, j)})
  }

  /** freepageref clears it. */
  function Unreserve(h: Heap, w: nat, j: nat): (h': Heap)
    requires w < |h.roots| && Shaped(h.roots[w].words) && j < NREFS && h.roots[w].numinuse > 0
  {
    h.(roots := h.roots[w := FlipBit(h.roots[w], j, false)], reserved := h.reserved - {(w, j)})
  }

  /** Pages, lists and blocks do not depend on the bitmaps. */
  lemma BitsOnly(h: Heap, h': Heap)
    requires Inv(h) && h' == h.(roots := h'.roots, reserved := h'.reserved) && |h'.roots| == |h.roots|
    requires forall w :: 0 <= w < |h.roots| ==> h'.roots[w].page == h.roots[w].page
    requires Roots(h') && Refs(h')
    ensures Inv(h')
  {
    hide Roots, Refs;
    BlocksFrame(h, h');
    forall p | p in h'.owner ensures OwnerOk(h', p) {
      assert OwnerOk(h, p);
    }
    forall b | b in h'.big ensures BigOk(h', b) {
      assert BigOk(h, b);
    }
    hide Pages, Lives, Lists;
    ListsFrame(h, h');
  }

  lemma BlocksFrame(h: Heap, h': Heap)
    requires Pages(h) && Lives(h) && h' == h.(roots := h'.roots, reserved := h'.reserved)
    ensures Pages(h') && Lives(h')
  {
    forall p | p in h'.allList ensures PageOk(h', p) {
      assert PageOk(h, p);
    }
    forall a | a in h'.live ensures LiveOk(h', a) {
      assert LiveOk(h, a);
    }
  }

  /** The listed pagerefs do not use the bit that changes. */
  lemma FlipRefs(h: Heap, h': Heap, w: nat, j: nat)
    requires Refs(h) && h' == h.(roots := h'.roots, reserved := h'.reserved) && |h'.roots| == |h.roots|
    requires forall x :: 0 <= x < |h.roots| ==> h'.roots[x].page == h.roots[x].page
    requires forall x: nat, y: nat :: (x, y) != (w, j) ==> BitSet(h'.roots, x, y) == BitSet(h.roots, x, y)
    requires if BitSet(h'.roots, w, j) then !BitSet(h.roots, w, j) && h'.reserved == h.reserved + {(w, j)}
             else (w, j) in h.reserved && h'.reserved == h.reserved - {(w, j)}
    ensures Refs(h')
  {
    hide BitSet, SlotIndex, PageOf;
    forall p | p in h'.allList ensures RefOk(h', p) {
      assert RefOk(h, p);
    }
  }

  lemma ReserveInv(h: Heap, w: nat, j: nat)
    requires Inv(h) && w < NROOTS && j < NREFS && Shaped(h.roots[w].words) && !BitSet(h.roots, w, j)
    ensures Inv(Reserve(h, w, j)) && (w, j) !in h.reserved
  {
    var h' := Reserve(h, w, j);
    FlipEffect(h.roots, w, j, true);
    assert (w, j) in h.reserved ==> BitSet(h.roots, w, j);
    hide Lists, Pages, Lives, Owners, RootOk, FlipBit, BitSet, Refs;
    assert Roots(h');
    FlipRefs(h, h', w, j);
    hide Roots;
    BitsOnly(h, h');
  }

  lemma UnreserveInv(h: Heap, w: nat, j: nat)
    requires Inv(h) && (w, j) in h.reserved
    ensures w < NROOTS && j < NREFS && Shaped(h.roots[w].words) && h.roots[w].numinuse > 0 && BitSet(h.roots, w, j)
    ensures Inv(Unreserve(h, w, j))
  {
    assert BitSet(h.roots, w, j) && RootOk(h.roots[w]);
    FlipEffect(h.roots, w, j, false);
    var h' := Unreserve(h, w, j);
    hide Lists, Pages, Lives, Owners, RootOk, FlipBit, BitSet, Refs;
    assert Roots(h');
    FlipRefs(h, h', w, j);
    hide Roots;
    BitsOnly(h, h');
  }

  // ---- Pages handed out and given back ----

  /** What alloc_kpages(n) promises: n whole pages that nobody holds. */
  ghost predicate FreshPages(h: Heap, va: nat, n: nat)
  {
    && 0 < va && va % PAGE_SIZE == 0 && 0 < n && va + PAGE_SIZE * n <= LIMIT
    && forall p :: p % PAGE_SIZE == 0 && va <= p < va + PAGE_SIZE * n ==> p !in h.owner
  }

  function Grant(h: Heap, va: nat): (h': Heap)
  {
    h.(owner := h.owner[va := InTransit])
  }

  function Release(h: Heap, va: nat): (h': Heap)
  {
    h.(owner := h.owner - {va})
  }

  /** A page that is handed out or given back changes nothing else. */
  lemma TransitOnly(h: Heap, h': Heap, va: nat)
    requires Inv(h) && h' == h.(owner := h'.owner)
    requires va % PAGE_SIZE == 0 && (va !in h.owner || h.owner[va] == InTransit)
    requires va in h'.owner ==> h'.owner[va] == InTransit
    requires forall p :: p != va ==> (p in h.owner <==> p in h'.owner) && (p in h.owner ==> h'.owner[p] == h.owner[p])
    ensures Inv(h')
  {
    TransitPages(h, h', va);
    TransitOwners(h, h', va);
    hide Pages, Lives, Owners, Roots, Refs;
    ListsFrame(h, h');
  }

  lemma TransitPages(h: Heap, h': Heap, va: nat)
    requires Inv(h) && h' == h.(owner := h'.owner)
    requires va !in h.owner || h.owner[va] == InTransit
    requires forall p :: p != va ==> (p in h.owner <==> p in h'.owner) && (p in h.owner ==> h'.owner[p] == h.owner[p])
    ensures Pages(h') && Lives(h') && Refs(h') && Roots(h')
  {
    hide Lists, Owners, RootOk, FreeList, Partition, BitSet;
    forall p | p in h'.allList ensures PageOk(h', p) && RefOk(h', p) {
      assert PageOk(h, p) && RefOk(h, p);
    }
    forall a | a in h'.live ensures LiveOk(h', a) {
      assert LiveOk(h, a);
    }
  }

  lemma TransitOwners(h: Heap, h': Heap, va: nat)
    requires Owners(h) && h' == h.(owner := h'.owner)
    requires va % PAGE_SIZE == 0 && (va !in h.owner || h.owner[va] == InTransit)
    requires va in h'.owner ==> h'.owner[va] == InTransit
    requires forall p :: p != va ==> (p in h.owner <==> p in h'.owner) && (p in h.owner ==> h'.owner[p] == h.owner[p])
    ensures Owners(h')
  {
    forall p | p in h'.owner ensures OwnerOk(h', p) {
      assert p != va ==> OwnerOk(h, p);
    }
    forall b | b in h'.big ensures BigOk(h', b) {
      assert BigOk(h, b);
    }
  }

  lemma GrantInv(h: Heap, va: nat)
    requires Inv(h) && FreshPages(h, va, 1)
    ensures Inv(Grant(h, va))
  {
    hide Inv;
    assert va <= va < va + PAGE_SIZE * 1;
    TransitOnly(h, Grant(h, va), va);
  }

  lemma ReleaseInv(h: Heap, va: nat)
    requires Inv(h) && va in h.owner && h.owner[va] == InTransit
    ensures Inv(Release(h, va))
  {
    assert OwnerOk(h, va);
    hide Inv;
    TransitOnly(h, Release(h, va), va);
  }

  /** A page becomes a root's page of pagerefs. */
  function Install(h: Heap, w: nat, va: nat): (h': Heap)
    requires w < |h.roots|
  {
    h.(roots := h.roots[w := h.roots[w].(page := va)], owner := h.owner[va := RootPage(w)])
  }

  lemma InstallInv(h: Heap, w: nat, va: nat)
    requires Inv(h) && w < NROOTS && h.roots[w].page == 0
    requires 0 < va && va + PAGE_SIZE <= LIMIT && va in h.owner && h.owner[va] == InTransit
    ensures Inv(Install(h, w, va))
  {
    var h' := Install(h, w, va);
    InstallOwners(h, w, va);
    InstallRefs(h, w, va);
    InstallBlocks(h, w, va);
    hide Owners, Roots, Refs, Pages, Lives, Lists;
    ListsFrame(h, h');
  }

  lemma InstallBlocks(h: Heap, w: nat, va: nat)
    requires Pages(h) && Lives(h) && w < |h.roots| && va in h.owner && h.owner[va] == InTransit
    ensures Pages(Install(h, w, va)) && Lives(Install(h, w, va))
  {
    var h' := Install(h, w, va);
    hide FreeList, Partition;
    forall p | p in h'.allList ensures PageOk(h', p) {
      assert PageOk(h, p);
    }
    forall a | a in h'.live ensures LiveOk(h', a) {
      assert LiveOk(h, a);
    }
  }

  lemma InstallRefs(h: Heap, w: nat, va: nat)
    requires Roots(h) && Refs(h) && w < NROOTS && h.roots[w].page == 0
    requires 0 < va && va + PAGE_SIZE <= LIMIT && va % PAGE_SIZE == 0 && va in h.owner && h.owner[va] == InTransit
    ensures Roots(Install(h, w, va)) && Refs(Install(h, w, va))
  {
    var h' := Install(h, w, va);
    assert forall x :: 0 <= x < NROOTS ==> RootOk(h'.roots[x]) by {
      assert forall x :: 0 <= x < NROOTS ==> RootOk(h.roots[x]);
    }
    assert forall x: nat, y: nat :: BitSet(h'.roots, x, y) == BitSet(h.roots, x, y);
    hide BitSet, RootOk;
    forall p | p in h'.allList ensures RefOk(h', p) {
      assert RefOk(h, p);
    }
  }

  lemma InstallOwners(h: Heap, w: nat, va: nat)
    requires Owners(h) && Roots(h) && w < NROOTS && h.roots[w].page == 0
    requires 0 < va && va in h.owner && h.owner[va] == InTransit
    ensures va % PAGE_SIZE == 0 && Owners(Install(h, w, va))
  {
    var h' := Install(h, w, va);
    hide RootOk;
    assert OwnerOk(h, va);
    forall p | p in h'.owner ensures OwnerOk(h', p) {
      assert OwnerOk(h, p);
    }
    forall b | b in h'.big ensures BigOk(h', b) {
      assert BigOk(h, b);
    }
  }

  // ---- Blocks of whole pages ----

  predicate InRange(va: nat, n: nat, p: nat)
  {
    p % PAGE_SIZE == 0 && va <= p < va + PAGE_SIZE * n
  }

  /** h' is h with the pages of a new block of n pages at va owned by that block. */
  ghost predicate BigAdded(h: Heap, h': Heap, va: nat, n: nat)
  {
    && n > 0 && h' == h.(owner := h'.owner, big := h.big[va := n], live := h.live[va := PAGE_SIZE * n])
    && (forall p :: p in h'.owner <==> p in h.owner || (0 <= p && InRange(va, n, p)))
    && (forall p :: p in h'.owner ==> h'.owner[p] == if InRange(va, n, p) then BigBlock(va) else h.owner[p])
  }

  lemma BigFresh(h: Heap, va: nat, n: nat)
    requires Lives(h) && Owners(h) && FreshPages(h, va, n)
    ensures va !in h.live && va !in h.big && va !in h.owner && InRange(va, n, va)
    ensures forall p :: p in h.owner ==> !InRange(va, n, p)
  {
    PageOfUnique(va, va);
    assert va <= va < va + PAGE_SIZE * n;
    assert va in h.live ==> LiveOk(h, va);
    assert va in h.big ==> BigOk(h, va);
    hide Lives, Owners;
  }

  lemma BigAddInv(h: Heap, h': Heap, va: nat, n: nat)
    requires Inv(h) && FreshPages(h, va, n) && BigAdded(h, h', va, n)
    ensures Inv(h') && va !in h.live && va !in h.big
  {
    hide Pages, Lives, Owners, Roots, Refs, Lists, FreshPages, InRange;
    BigFresh(h, va, n);
    BigAddOwners(h, h', va, n);
    BigAddBigs(h, h', va, n);
    assert Owners(h') by { BothOwners(h'); }
    assert forall p :: p in h.owner ==> p in h'.owner && h'.owner[p] == h.owner[p];
    assert va % PAGE_SIZE == 0 by { FreshAligned(h, va, n); }
    assert h'.owner[va] == BigBlock(va);
    BigAddPages(h, h', va);
    BigAddRefs(h, h');
    ListsFrame(h, h');
  }

  lemma FreshAligned(h: Heap, va: nat, n: nat)
    requires FreshPages(h, va, n)
    ensures 0 < va && va % PAGE_SIZE == 0
  {
  }

  lemma BigAddOwners(h: Heap, h': Heap, va: nat, n: nat)
    requires Lives(h) && Owners(h) && FreshPages(h, va, n) && BigAdded(h, h', va, n)
    ensures forall p :: p in h'.owner ==> OwnerOk(h', p)
  {
    BigFresh(h, va, n);
    hide Lives, Owners, FreshPages, PageOf;
    forall p | p in h'.owner ensures OwnerOk(h', p) {
      BigAddOwner(h, h', va, n, p);
    }
  }

  lemma BigAddOwner(h: Heap, h': Heap, va: nat, n: nat, p: nat)
    requires Owners(h) && BigAdded(h, h', va, n) && va !in h.big && p in h'.owner
    ensures OwnerOk(h', p)
  {
    if InRange(va, n, p) {
      hide Owners, PageOf;
      assert h'.owner[p] == BigBlock(va);
    } else {
      assert OwnerOk(h, p);
      hide Owners, PageOf, InRange;
    }
  }

  lemma BigAddBigs(h: Heap, h': Heap, va: nat, n: nat)
    requires Lives(h) && Owners(h) && FreshPages(h, va, n) && BigAdded(h, h', va, n)
    ensures forall b :: b in h'.big ==> BigOk(h', b)
  {
    BigFresh(h, va, n);
    BigAddNew(h, h', va, n);
    hide Lives, FreshPages, PageOf, OwnerOk, InRange;
    forall b | b in h'.big ensures BigOk(h', b) {
      if b != va {
        assert BigOk(h, b);
      }
    }
  }

  lemma BigAddNew(h: Heap, h': Heap, va: nat, n: nat)
    requires FreshPages(h, va, n) && BigAdded(h, h', va, n)
    ensures BigOk(h', va)
  {
  }

  lemma BigAddPages(h: Heap, h': Heap, va: nat)
    requires Pages(h) && Lives(h) && va % PAGE_SIZE == 0
    requires h' == h.(owner := h'.owner, big := h'.big, live := h'.live)
    requires forall p :: p in h.owner ==> p in h'.owner && h'.owner[p] == h.owner[p]
    requires va !in h.owner && va !in h.big && va in h'.big && va in h'.live
    requires va in h'.owner && h'.owner[va] == BigBlock(va) && h'.live[va] == PAGE_SIZE * h'.big[va]
    requires forall a :: a in h'.live && a != va ==> a in h.live && h'.live[a] == h.live[a]
    requires forall a :: a in h.live ==> a in h'.live
    requires forall a :: a in h.big ==> a in h'.big && h'.big[a] == h.big[a]
    ensures Pages(h') && Lives(h')
  {
    PageOfUnique(va, va);
    hide FreeList, IsBlock, Partition, PageOf;
    forall p | p in h'.allList ensures PageOk(h', p) {
      assert PageOk(h, p);
      FreeListMem(h.refs[p], h.free[p], h.mem);
      PageFrame(h, h', p);
    }
    assert Pages(h');
    hide Pages;
    forall a | a in h'.live ensures LiveOk(h', a) {
      assert a != va ==> LiveOk(h, a);
    }
  }

  lemma BigAddRefs(h: Heap, h': Heap)
    requires Roots(h) && Refs(h) && h' == h.(owner := h'.owner, big := h'.big, live := h'.live)
    requires forall p :: p in h.owner && h.owner[p].RootPage? ==> p in h'.owner && h'.owner[p] == h.owner[p]
    ensures Roots(h') && Refs(h')
  {
    hide RootOk, BitSet, PageOf, SlotIndex;
    forall p | p in h'.allList ensures RefOk(h', p) {
      assert RefOk(h, p);
    }
  }

  lemma FreeListMem(r: PageRef, fl: seq<nat>, mem: map<nat, nat>)
    requires FreeList(r, fl, mem)
    ensures forall i :: 0 <= i < |fl| ==> fl[i] in mem
  {
  }

  /** h' is h without the block at va and without its pages. */
  ghost predicate BigRemoved(h: Heap, h': Heap, va: nat)
  {
    && va in h.big && h' == h.(owner := h'.owner, big := h.big - {va}, live := h.live - {va})
    && (forall p :: p in h'.owner <==> p in h.owner && !InRange(va, h.big[va], p))
    && (forall p :: p in h'.owner ==> h'.owner[p] == h.owner[p])
  }

  lemma BigRange(h: Heap, va: nat)
    requires Owners(h) && va in h.big
    ensures 0 < va && va % PAGE_SIZE == 0 && va in h.owner && va in h.live
    ensures forall p: nat :: p in h.owner && h.owner[p] == BigBlock(va) <==> InRange(va, h.big[va], p)
  {
    assert BigOk(h, va);
    assert InRange(va, h.big[va], va);
    forall p: nat ensures p in h.owner && h.owner[p] == BigBlock(va) <==> InRange(va, h.big[va], p) {
      assert p in h.owner ==> OwnerOk(h, p);
    }
  }

  lemma BigRemoveInv(h: Heap, h': Heap, va: nat)
    requires Inv(h) && BigRemoved(h, h', va)
    ensures Inv(h')
  {
    BigRange(h, va);
    hide InRange;
    BigRemoveOwners(h, h', va);
    hide Owners, Lists, Roots, Refs;
    BigRemovePages(h, h', va);
    hide Pages, Lives;
    BigAddRefs(h, h');
    ListsFrame(h, h');
  }

  lemma BigRemoveOwners(h: Heap, h': Heap, va: nat)
    requires Owners(h) && BigRemoved(h, h', va)
    ensures Owners(h')
  {
    BigRange(h, va);
    hide InRange;
    forall p | p in h'.owner ensures OwnerOk(h', p) {
      assert OwnerOk(h, p);
    }
    hide OwnerOk;
    forall b | b in h'.big ensures BigOk(h', b) {
      assert BigOk(h, b);
    }
  }

  lemma BigRemovePages(h: Heap, h': Heap, va: nat)
    requires Pages(h) && Lives(h) && va % PAGE_SIZE == 0 && va in h.owner && h.owner[va] == BigBlock(va)
    requires h' == h.(owner := h'.owner, big := h.big - {va}, live := h.live - {va})
    requires forall p :: p in h.owner && h.owner[p] != BigBlock(va) ==> p in h'.owner && h'.owner[p] == h.owner[p]
    ensures Pages(h') && Lives(h')
  {
    PageOfUnique(va, va);
    hide FreeList, IsBlock, Partition, PageOf;
    forall p | p in h'.allList ensures PageOk(h', p) {
      assert PageOk(h, p);
      FreeListMem(h.refs[p], h.free[p], h.mem);
      PageFrame(h, h', p);
    }
    assert Pages(h');
    hide Pages;
    forall a | a in h'.live ensures LiveOk(h', a) {
      assert LiveOk(h, a);
    }
  }

  // ---- The owner of a block writes to it ----

  /** Where a byte of a live block lies: on the heap page of its block, or on a page of its
      big block. */
  lemma ByteOwner(h: Heap, a: nat, x: nat)
    requires Lives(h) && Owners(h) && a in h.live && a <= x < a + h.live[a]
    ensures LiveOk(h, a)
    ensures PageOf(x) in h.owner && h.owner[PageOf(x)] == h.owner[PageOf(a)]
    ensures h.owner[PageOf(a)].HeapPage? ==> PageOf(x) == PageOf(a)
  {
    assert LiveOk(h, a);
    if h.owner[PageOf(a)].HeapPage? {
      BlockFits(PageOf(a), Blk(h.refs[h.owner[PageOf(a)].pr]), a);
      hide Size;
      PageOfUnique(PageOf(a), x);
    } else {
      assert BigOk(h, a);
      BigByte(a, h.live[a], x);
    }
  }

  lemma BigByte(b: nat, n: nat, x: nat)
    requires b % PAGE_SIZE == 0 && b <= x < b + n
    ensures b <= PageOf(x) < b + n && PageOf(b) == b
  {
  }

  /** No byte of a live block is a link of a free list. */
  lemma WriteApart(h: Heap, a: nat, x: nat, p: nat, i: nat)
    requires Lives(h) && Owners(h) && a in h.live && a <= x < a + h.live[a] && p in h.allList
    requires PageOk(h, p) && i < |h.free[p]|
    ensures h.free[p][i] != x
  {
    ByteOwner(h, a, x);
    var r, y := h.refs[p], h.free[p][i];
    assert y in h.free[p] && IsBlock(PageAddr(r), Blk(r), y);
    PageOfUnique(PageAddr(r), y);
    hide Lives, Owners, FreeList, PageOf, Size;
    if h.owner[PageOf(a)] == HeapPage(p) {
      SamePageApart(h.refs[p], h.free[p], h.live, a, y);
    }
  }

  lemma SamePageApart(r: PageRef, fl: seq<nat>, live: map<nat, nat>, a: nat, y: nat)
    requires Blk(r) < NSIZES && Partition(r, fl, live) && a in live && live[a] == Size(Blk(r))
    requires IsBlock(PageAddr(r), Blk(r), a) && IsBlock(PageAddr(r), Blk(r), y) && y in fl
    ensures y < a || a + live[a] <= y
  {
    hide Size, PageOf;
    assert a != y;
    if a < y {
      BlockGap(PageAddr(r), Blk(r), a, y);
    }
  }

  /** A write inside a live block touches no free list. */
  lemma WriteInv(h: Heap, a: nat, x: nat, v: nat)
    requires Inv(h) && a in h.live && a <= x < a + h.live[a]
    ensures Inv(h.(mem := h.mem[x := v]))
  {
    var h' := h.(mem := h.mem[x := v]);
    WritePages(h, a, x, v);
    WriteLives(h, x, v);
    hide Lists, Owners, Roots, Refs, Pages, Lives;
    ListsFrame(h, h');
    OwnersFrame(h, h');
    RootsFrame(h, h');
  }

  lemma WritePages(h: Heap, a: nat, x: nat, v: nat)
    requires Pages(h) && Lives(h) && Owners(h) && a in h.live && a <= x < a + h.live[a]
    ensures Pages(h.(mem := h.mem[x := v]))
  {
    var h' := h.(mem := h.mem[x := v]);
    hide Lives, Owners;
    forall p | p in h'.allList ensures PageOk(h', p) {
      assert PageOk(h, p);
      forall i | 0 <= i < |h.free[p]| ensures h.free[p][i] != x {
        WriteApart(h, a, x, p, i);
      }
      hide Pages, Partition;
    }
  }

  lemma WriteLives(h: Heap, x: nat, v: nat)
    requires Lives(h)
    ensures Lives(h.(mem := h.mem[x := v]))
  {
    var h' := h.(mem := h.mem[x := v]);
    forall y | y in h'.live ensures LiveOk(h', y) {
      assert LiveOk(h, y);
    }
  }

  // ---- What the regions do to the heap, step by step ----

  /** Where p is in a list. */
  function Position(l: seq<nat>, p: nat): (i: nat)
    requires p in l
    ensures i < |l| && l[i] == p
  {
    if l[0] == p then 0 else 1 + Position(l[1..], p)
  }

  /** The link write of the first loop of remove_lists, unless p is at the head. */
  function CutSame(refs: map<nat, PageRef>, l: seq<nat>, p: nat): (refs': map<nat, PageRef>)
    requires p in l
  {
    var i := Position(l, p);
    if i == 0 || p !in refs || l[i - 1] !in refs then refs
    else refs[l[i - 1] := refs[l[i - 1]].(nextSame := refs[p].nextSame)]
  }

  /** The list head after it. */
  function HeadSame(refs: map<nat, PageRef>, head: nat, l: seq<nat>, p: nat): (head': nat)
    requires p in l
  {
    if Position(l, p) == 0 && p in refs then refs[p].nextSame else head
  }

  /** The same for the second loop. */
  function CutAll(refs: map<nat, PageRef>, l: seq<nat>, p: nat): (refs': map<nat, PageRef>)
    requires p in l
  {
    var i := Position(l, p);
    if i == 0 || p !in refs || l[i - 1] !in refs then refs
    else refs[l[i - 1] := refs[l[i - 1]].(nextAll := refs[p].nextAll)]
  }

  function HeadAll(refs: map<nat, PageRef>, head: nat, l: seq<nat>, p: nat): (head': nat)
    requires p in l
  {
    if Position(l, p) == 0 && p in refs then refs[p].nextAll else head
  }

  /** p is on both lists and lies in a pageref page. */
  predicate OnLists(h: Heap, p: nat)
  {
    && p in h.allList && p in h.refs && Blk(h.refs[p]) < NSIZES == |h.sizeLists| == |h.sizebases|
    && p in h.sizeLists[Blk(h.refs[p])] && PageOf(p) in h.owner && h.owner[PageOf(p)].RootPage?
  }

  /** remove_lists: the link writes, and what they stand for. */
  function UnlinkPage(h: Heap, p: nat): (h': Heap)
    requires OnLists(h, p)
  {
    var k := Blk(h.refs[p]);
    var refs1 := CutSame(h.refs, h.sizeLists[k], p);
    h.(refs := CutAll(refs1, h.allList, p),
       sizebases := h.sizebases[k := HeadSame(h.refs, h.sizebases[k], h.sizeLists[k], p)],
       allbase := HeadAll(refs1, h.allbase, h.allList, p),
       sizeLists := h.sizeLists[k := Without(h.sizeLists[k], p)], allList := Without(h.allList, p),
       owner := h.owner[PageAddr(h.refs[p]) := InTransit],
       reserved := h.reserved + {(h.owner[PageOf(p)].w, SlotIndex(p))})
  }

  /** Root x has bits set but no page. */
  predicate Pageless(roots: seq<Root>, x: nat)
  {
    x < |roots| && roots[x].page == 0 && roots[x].numinuse != 0
  }

  /** The loop that links the blocks of a fresh page writes only to that page, and links each
      block to the one before it. */
  ghost predicate Threaded(mem: map<nat, nat>, mem': map<nat, nat>, page: nat, k: nat)
    requires k < NSIZES
  {
    && (forall x :: x in mem && !(page <= x < page + PAGE_SIZE) ==> x in mem' && mem'[x] == mem[x])
    && var fl := FullList(page, k, NBlocks(k));
       forall i :: 0 <= i < |fl| ==> fl[i] in mem' && mem'[fl[i]] == After(fl, i)
  }

  /** The end of subpage_kmalloc: thread the free list, list the page, take the first block. */
  ghost predicate SetsUp(h: Heap, h': Heap, pr: nat, page: nat, k: nat, slot: (nat, nat), ret: nat)
  {
    && k < NSIZES == |h.sizebases| == |h.sizeLists| && page % PAGE_SIZE == 0 && Threaded(h.mem, h'.mem, page, k)
    && var h1 := AddPage(h, pr, page, k, slot, h'.mem);
       CanTake(h1, pr) && h' == TakeBlock(h1, pr) && ret == h1.free[pr][0]
  }

  /** subpage_kfree of a block on the page of pr: overwrite and link the block; if the page is
      wholly free, take it off the lists and clear its pageref's bit. */
  ghost predicate FreesOn(h: Heap, h': Heap, pr: nat, ptr: nat, page: nat)
  {
    && pr in h.refs && pr in h.free && Blk(h.refs[pr]) < NSIZES && PageAddr(h.refs[pr]) <= ptr
    && Linked(h.mem, h'.mem, ptr, Size(Blk(h.refs[pr])), First(h.free[pr]))
    && var h1 := PutBlock(h, pr, ptr, h'.mem);
       if h1.refs[pr].nfree != NBlocks(Blk(h.refs[pr])) then page == 0 && h' == h1
       else page == PageAddr(h.refs[pr]) && OnLists(h1, pr) && ClearsBit(UnlinkPage(h1, pr), h', pr)
  }

  /** freepageref, when it does not stop at a root with bits set but no page. */
  ghost predicate ClearsBit(h: Heap, h': Heap, pr: nat)
  {
    && PageOf(pr) in h.owner && h.owner[PageOf(pr)].RootPage?
    && var w, j := h.owner[PageOf(pr)].w, SlotIndex(pr);
       && w < |h.roots| && Shaped(h.roots[w].words) && h.roots[w].numinuse > 0
       && (forall x :: 0 <= x < w ==> !Pageless(h.roots, x))
       && h' == Unreserve(h, w, j)
  }

  // ---- What holds whenever the lock is free ----

  /** allbase is the union of the size lists and each pageref is in the list of its own block
      type only; pages are distinct and never wholly free; each count is the number of set
      bits; and the bit of every listed pageref is set. */
  lemma ValidMeans(h: Heap)
    requires Valid(h)
    ensures |h.sizeLists| == NSIZES
    ensures forall p :: p in h.allList <==> exists k :: 0 <= k < NSIZES && p in h.sizeLists[k]
    ensures forall p, k :: p in h.allList && 0 <= k < NSIZES ==>
      p in h.refs && Blk(h.refs[p]) < NSIZES && (p in h.sizeLists[k] <==> k == Blk(h.refs[p]))
    ensures forall p, q :: p in h.allList && q in h.allList && p != q ==> PageAddr(h.refs[p]) != PageAddr(h.refs[q])
    ensures forall p :: p in h.allList ==> h.refs[p].nfree < NBlocks(Blk(h.refs[p])) && LiveOn(h, p) != {}
    ensures forall w :: 0 <= w < |h.roots| ==> h.roots[w].numinuse == WordCount(h.roots[w].words)
    ensures forall p :: p in h.allList ==> exists w, j :: Slot(h.roots, p, w, j) && BitSet(h.roots, w, j)
  {
    hide Lives, Owners;
    forall p | p in h.allList
      ensures LiveOn(h, p) != {} && exists w, j :: Slot(h.roots, p, w, j) && BitSet(h.roots, w, j)
    {
      assert PageOk(h, p) && RefOk(h, p);
      PageAccount(h, p);
      assert Slot(h.roots, p, h.owner[PageOf(p)].w, SlotIndex(p));
    }
    forall p, q | p in h.allList && q in h.allList && p != q ensures PageAddr(h.refs[p]) != PageAddr(h.refs[q]) {
      PagesApart(h, p, q);
    }
    assert forall w :: 0 <= w < |h.roots| ==> RootOk(h.roots[w]);
    hide Pages, Roots, Refs;
  }
}
