/** The kernel heap of kern/vm/kmalloc.c as a value: the words the code keeps, beside what they
    stand for, and what holds of them whenever kmalloc_spinlock is free. */
module KHeapModel {
  import opened Common
  import Words

  const PAGE_SIZE: nat := 4096
  const NSIZES: nat := 8
  const INVALID_OFFSET: nat := 0xffff
  const NROOTS: nat := 16
  const NREFS: nat := 256
  const REF_SIZE: nat := 16
  const LIMIT: nat := 0x1_0000_0000

  /** sizes[] */
  function Size(k: nat): (n: nat)
    requires k < NSIZES
    ensures 16 <= n <= 2048
  {
    [16, 32, 64, 128, 256, 512, 1024, 2048][k]
  }

  /** How many blocks of a size fit on a page. */
  function NBlocks(k: nat): (n: nat)
    requires k < NSIZES
    ensures n >= 2
  {
    PAGE_SIZE / Size(k)
  }

  /** struct pageref; addresses are numbers and 0 is NULL. */
  datatype PageRef = PageRef(nextSame: nat, nextAll: nat, pab: nat, flo: nat, nfree: nat)

  /** PR_PAGEADDR, PR_BLOCKTYPE and MKPAB */
  function PageOf(a: nat): (p: nat)
    ensures p <= a < p + PAGE_SIZE && p % PAGE_SIZE == 0
  {
    a - a % PAGE_SIZE
  }

  function PageAddr(r: PageRef): (p: nat)
  {
    PageOf(r.pab)
  }

  function Blk(r: PageRef): (k: nat)
  {
    r.pab % PAGE_SIZE
  }

  function MkPab(page: nat, k: nat): (pab: nat)
    requires page % PAGE_SIZE == 0 && k < PAGE_SIZE
    ensures PageOf(pab) == page && pab % PAGE_SIZE == k
  {
    page + k
  }

  /** struct kheap_root; a bitmap word is its 32 bits. */
  datatype Root = Root(page: nat, words: seq<seq<bool>>, numinuse: nat)

  /** Who holds a page that alloc_kpages handed out. */
  datatype Owner = HeapPage(pr: nat) | BigBlock(base: nat) | RootPage(w: nat) | InTransit

  datatype Heap = Heap(
    // what the code keeps
    roots: seq<Root>, refs: map<nat, PageRef>, sizebases: seq<nat>, allbase: nat, mem: map<nat, nat>,
    // what it stands for
    sizeLists: seq<seq<nat>>, allList: seq<nat>, free: map<nat, seq<nat>>,
    live: map<nat, nat>, big: map<nat, nat>, owner: map<nat, Owner>, reserved: set<(nat, nat)>)

  // ---- Lists ----

  function First(q: seq<nat>): (a: nat)
  {
    if q == [] then 0 else q[0]
  }

  function After(q: seq<nat>, i: nat): (a: nat)
    requires i < |q|
  {
    if i + 1 < |q| then q[i + 1] else 0
  }

  ghost predicate SameChain(refs: map<nat, PageRef>, head: nat, q: seq<nat>)
  {
    && head == First(q)
    && forall i :: 0 <= i < |q| ==> q[i] in refs && q[i] != 0 && refs[q[i]].nextSame == After(q, i)
  }

  ghost predicate AllChain(refs: map<nat, PageRef>, head: nat, q: seq<nat>)
  {
    && head == First(q)
    && forall i :: 0 <= i < |q| ==> q[i] in refs && q[i] != 0 && refs[q[i]].nextAll == After(q, i)
  }

  /** allbase holds exactly the union of the size lists, each pageref in the list of its own
      block type. */
  ghost predicate Lists(h: Heap)
  {
    && |h.sizeLists| == NSIZES == |h.sizebases|
    && AllChain(h.refs, h.allbase, h.allList)
    && NoDup(h.allList)
    && (forall k :: 0 <= k < NSIZES ==> SameChain(h.refs, h.sizebases[k], h.sizeLists[k]) && NoDup(h.sizeLists[k]))
    && (forall k, p :: 0 <= k < NSIZES && p in h.sizeLists[k] ==> p in h.allList && p in h.refs && Blk(h.refs[p]) == k)
    && (forall p :: p in h.allList ==>
         p in h.refs && Blk(h.refs[p]) < NSIZES && p in h.sizeLists[Blk(h.refs[p])])
  }

  // ---- Heap pages ----

  predicate IsBlock(page: nat, k: nat, a: nat)
    requires k < NSIZES
  {
    page <= a < page + PAGE_SIZE && (a - page) % Size(k) == 0
  }

  /** The free list threaded through the blocks: acyclic, block-aligned, nfree long. */
  ghost predicate FreeList(r: PageRef, fl: seq<nat>, mem: map<nat, nat>)
  {
    && Blk(r) < NSIZES
    && |fl| == r.nfree
    && r.flo == (if fl == [] then INVALID_OFFSET else (fl[0] - PageAddr(r)) as int)
    && NoDup(fl)
    && (forall i :: 0 <= i < |fl| ==> IsBlock(PageAddr(r), Blk(r), fl[i]))
    && (forall i :: 0 <= i < |fl| ==> fl[i] in mem && mem[fl[i]] == After(fl, i))
  }

  /** The free blocks and the live blocks of a page make up the page. */
  ghost predicate Partition(r: PageRef, fl: seq<nat>, live: map<nat, nat>)
    requires Blk(r) < NSIZES
  {
    forall a :: IsBlock(PageAddr(r), Blk(r), a) ==> (a in live <==> a !in fl)
  }

  ghost predicate PageOk(h: Heap, p: nat)
  {
    && p in h.refs && p in h.free
    && var r := h.refs[p];
       && 0 < PageAddr(r) && PageAddr(r) + PAGE_SIZE <= LIMIT
       && FreeList(r, h.free[p], h.mem)
       && Partition(r, h.free[p], h.live)
       && PageAddr(r) in h.owner && h.owner[PageAddr(r)] == HeapPage(p)
  }

  ghost predicate Pages(h: Heap)
  {
    forall p :: p in h.allList ==> PageOk(h, p)
  }

  /** No page on the lists is wholly free. */
  ghost predicate NoneWhollyFree(h: Heap)
  {
    forall p :: p in h.allList ==> p in h.refs && Blk(h.refs[p]) < NSIZES && h.refs[p].nfree < NBlocks(Blk(h.refs[p]))
  }

  // ---- Live blocks and page ownership ----

  ghost predicate LiveOk(h: Heap, a: nat)
    requires a in h.live
  {
    && PageOf(a) in h.owner
    && match h.owner[PageOf(a)]
       case HeapPage(p) =>
         && p in h.allList && p in h.refs && Blk(h.refs[p]) < NSIZES && PageAddr(h.refs[p]) == PageOf(a)
         && IsBlock(PageOf(a), Blk(h.refs[p]), a) && h.live[a] == Size(Blk(h.refs[p]))
       case BigBlock(b) => a == b && b in h.big && h.live[a] == PAGE_SIZE * h.big[b]
       case _ => false
  }

  ghost predicate Lives(h: Heap)
  {
    forall a :: a in h.live ==> LiveOk(h, a)
  }

  ghost predicate BigOk(h: Heap, b: nat)
    requires b in h.big
  {
    && 0 < b && b % PAGE_SIZE == 0 && 0 < h.big[b] && b + PAGE_SIZE * h.big[b] <= LIMIT && b in h.live
    && forall p :: p % PAGE_SIZE == 0 && b <= p < b + PAGE_SIZE * h.big[b] ==> p in h.owner && h.owner[p] == BigBlock(b)
  }

  ghost predicate OwnerOk(h: Heap, p: nat)
    requires p in h.owner
  {
    && p % PAGE_SIZE == 0
    && match h.owner[p]
       case HeapPage(q) => q in h.allList && q in h.refs && PageAddr(h.refs[q]) == p
       case BigBlock(b) => b in h.big && b <= p < b + PAGE_SIZE * h.big[b]
       case RootPage(w) => 0 < p && w < |h.roots| && h.roots[w].page == p
       case InTransit => true
  }

  ghost predicate Owners(h: Heap)
  {
    && (forall p :: p in h.owner ==> OwnerOk(h, p))
    && (forall b :: b in h.big ==> BigOk(h, b))
  }

  // ---- Pageref pages and their bitmaps ----

  function BitCount(w: seq<bool>): (n: nat)
    ensures n <= |w|
  {
    if w == [] then 0 else (if w[0] then 1 else 0) + BitCount(w[1..])
  }

  function WordCount(ws: seq<seq<bool>>): (n: nat)
  {
    if ws == [] then 0 else BitCount(ws[0]) + WordCount(ws[1..])
  }

  predicate Shaped(ws: seq<seq<bool>>)
  {
    |ws| == 8 && forall i :: 0 <= i < 8 ==> |ws[i]| == 32
  }

  /** numinuse equals the number of set bits. */
  predicate RootOk(r: Root)
  {
    Shaped(r.words) && r.numinuse == WordCount(r.words) && r.page % PAGE_SIZE == 0 && r.page + PAGE_SIZE <= LIMIT
  }

  ghost predicate Roots(h: Heap)
  {
    && |h.roots| == NROOTS
    && (forall w :: 0 <= w < NROOTS ==> RootOk(h.roots[w]))
    && (forall w :: 0 <= w < NROOTS && h.roots[w].page != 0 ==>
         h.roots[w].page in h.owner && h.owner[h.roots[w].page] == RootPage(w))
  }

  predicate BitSet(roots: seq<Root>, w: nat, j: nat)
  {
    w < |roots| && Shaped(roots[w].words) && j < NREFS && roots[w].words[j / 32][j % 32]
  }

  /** The pageref at index j of root w. */
  predicate Slot(roots: seq<Root>, p: nat, w: nat, j: nat)
  {
    w < |roots| && j < NREFS && roots[w].page != 0 && p == roots[w].page + REF_SIZE * j
  }

  /** The root that a pageref address lies in. */
  function SlotIndex(p: nat): (j: nat)
    ensures j < NREFS
  {
    (p % PAGE_SIZE) / REF_SIZE
  }

  /** Every listed pageref lies in a pageref page and its bit is set, and it is not one that
      an allocation in progress has reserved. */
  ghost predicate RefOk(h: Heap, p: nat)
  {
    && PageOf(p) in h.owner && h.owner[PageOf(p)].RootPage?
    && var w := h.owner[PageOf(p)].w;
       Slot(h.roots, p, w, SlotIndex(p)) && BitSet(h.roots, w, SlotIndex(p)) && (w, SlotIndex(p)) !in h.reserved
  }

  ghost predicate Refs(h: Heap)
  {
    && (forall p :: p in h.allList ==> RefOk(h, p))
    && (forall w, j :: (w, j) in h.reserved ==> BitSet(h.roots, w, j))
  }

  // ---- The invariant ----

  /** What holds of the heap also between putting a fresh page on the lists and taking its
      first block. */
  ghost predicate Inv(h: Heap)
  {
    Lists(h) && Pages(h) && Lives(h) && Owners(h) && Roots(h) && Refs(h)
  }

  ghost predicate Valid(h: Heap)
  {
    Inv(h) && NoneWhollyFree(h)
  }

  /** No root has bits set without a page. */
  ghost predicate Quiet(h: Heap)
  {
    forall w :: 0 <= w < |h.roots| && h.roots[w].page == 0 ==> h.roots[w].numinuse == 0
  }

  // ---- Arithmetic of blocks ----

  lemma PageOfUnique(p: nat, a: nat)
    requires p % PAGE_SIZE == 0 && p <= a < p + PAGE_SIZE
    ensures PageOf(a) == p
  {
  }

  lemma MultipleGap(n: nat, d: nat, e: nat)
    requires n > 0 && d % n == 0 && e % n == 0 && d < e
    ensures d + n <= e
  {
    Words.DivMod(d, n);
    Words.DivMod(e, n);
    var x, y := d / n, e / n;
    Words.MulLtCancel(x, y, n);
    Words.MulLe(x + 1, y, n);
    assert (x + 1) * n == x * n + n;
  }

  lemma SizeDivides(k: nat)
    requires k < NSIZES
    ensures PAGE_SIZE % Size(k) == 0 && NBlocks(k) * Size(k) == PAGE_SIZE
  {
  }

  /** Blocks of one size tile the page. */
  lemma BlockFits(page: nat, k: nat, a: nat)
    requires k < NSIZES && IsBlock(page, k, a)
    ensures a + Size(k) <= page + PAGE_SIZE
  {
    SizeDivides(k);
    hide Size;
    MultipleGap(Size(k), a - page, PAGE_SIZE);
  }

  lemma BlockGap(page: nat, k: nat, a: nat, b: nat)
    requires k < NSIZES && IsBlock(page, k, a) && IsBlock(page, k, b) && a < b
    ensures a + Size(k) <= b
  {
    hide Size;
    MultipleGap(Size(k), a - page, b - page);
  }

  /** The address of block i of a page. */
  function At(page: nat, k: nat, i: nat): (a: nat)
    requires k < NSIZES
  {
    Words.MulPositive(i, Size(k));
    page + i * Size(k)
  }

  lemma BlockAt(page: nat, k: nat, i: nat)
    requires k < NSIZES && i < NBlocks(k)
    ensures IsBlock(page, k, At(page, k, i))
  {
    SizeDivides(k);
    hide Size;
    var n := Size(k);
    Words.DivUnique(i * n, n, i, 0);
    Words.MulLe(i + 1, NBlocks(k), n);
    assert (i + 1) * n == i * n + n;
  }

  // ---- What the invariant means ----

  lemma PageOrder(a: nat, b: nat)
    requires a < b
    ensures PageOf(a) == PageOf(b) || PageOf(a) + PAGE_SIZE <= PageOf(b)
  {
  }

  /** Live blocks never overlap. */
  lemma LiveDisjoint(h: Heap, a: nat, b: nat)
    requires Lives(h) && Owners(h) && a in h.live && b in h.live && a < b
    ensures a + h.live[a] <= b
  {
    PageOrder(a, b);
    assert LiveOk(h, a) && LiveOk(h, b);
    if h.owner[PageOf(a)].HeapPage? {
      var k := Blk(h.refs[h.owner[PageOf(a)].pr]);
      hide PageOf, Size, Blk;
      BlockFits(PageOf(a), k, a);
      if PageOf(a) == PageOf(b) {
        BlockGap(PageOf(a), k, a, b);
      }
    } else {
      BigApart(h, a, PageOf(b));
    }
  }

  lemma BigApart(h: Heap, b: nat, p: nat)
    requires b in h.big && BigOk(h, b) && p % PAGE_SIZE == 0 && p in h.owner && h.owner[p] != BigBlock(b)
    ensures p < b || b + PAGE_SIZE * h.big[b] <= p
  {
  }

  // ---- Counting blocks ----

  lemma {:induction false} Pigeonhole(q: seq<nat>, n: nat)
    requires NoDup(q) && forall i :: 0 <= i < |q| ==> q[i] < n
    ensures |q| <= n
    ensures |q| == n ==> forall x :: 0 <= x < n ==> x in q
  {
    if q != [] {
      assert q[0] < n;
      if n - 1 in q {
        var i :| 0 <= i < |q| && q[i] == n - 1;
        var r := q[..i] + q[i + 1..];
        assert forall j :: 0 <= j < |r| ==> r[j] == if j < i then q[j] else q[j + 1];
        Pigeonhole(r, n - 1);
        forall x | 0 <= x < n && |q| == n ensures x in q {
          assert x == n - 1 || x in r;
        }
      } else {
        Pigeonhole(q, n - 1);
      }
    }
  }

  /** The position of a block on its page. */
  function Index(page: nat, k: nat, a: nat): (i: nat)
    requires k < NSIZES && page <= a
  {
    (a - page) / Size(k)
  }

  lemma IndexOf(page: nat, k: nat, a: nat)
    requires k < NSIZES && IsBlock(page, k, a)
    ensures Index(page, k, a) < NBlocks(k) && a == At(page, k, Index(page, k, a))
  {
    SizeDivides(k);
    hide Size;
    var n := Size(k);
    Words.DivMod(a - page, n);
    Words.MulLtCancel((a - page) / n, NBlocks(k), n);
  }

  /** A page has room for every free list, and a free list as long as the page is the page. */
  lemma FreeCount(page: nat, k: nat, fl: seq<nat>)
    requires k < NSIZES && NoDup(fl) && forall i :: 0 <= i < |fl| ==> IsBlock(page, k, fl[i])
    ensures |fl| <= NBlocks(k)
    ensures |fl| == NBlocks(k) ==> forall a :: IsBlock(page, k, a) ==> a in fl
  {
    var n := NBlocks(k);
    var q := seq(|fl|, i requires 0 <= i < |fl| => Index(page, k, fl[i]));
    forall i | 0 <= i < |fl| ensures q[i] < n && fl[i] == At(page, k, q[i]) {
      IndexOf(page, k, fl[i]);
    }
    hide At, Size;
    Pigeonhole(q, n);
    if |fl| == n {
      forall a | IsBlock(page, k, a) ensures a in fl {
        IndexOf(page, k, a);
        assert Index(page, k, a) in q;
        var i :| 0 <= i < |q| && q[i] == Index(page, k, a);
      }
    }
  }
}
