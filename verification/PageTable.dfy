/** kern/vm/pt.c: a page table as a circular list with a sentinel. */
module PageTable {
  import opened Common
  import Swap

  const PAGE_SIZE: nat := 4096
  const LIMIT: nat := 0x1_0000_0000
  const LAST_PAGE: nat := 0xFFFF_F000

  /** vaddr & PAGE_FRAME */
  function PageOf(vaddr: nat): (p: nat)
    ensures p % PAGE_SIZE == 0 && p <= vaddr < p + PAGE_SIZE
  {
    vaddr - vaddr % PAGE_SIZE
  }

  /** ptentry_t without its link. */
  datatype Entry = Entry(vaddr: nat, ppage: nat, swapped: bool, swapIndex: nat)

  class Node {
    var entry: Entry
    var next: Node?

    constructor (entry: Entry, next: Node?)
      ensures this.entry == entry && this.next == next
    {
      this.entry, this.next := entry, next;
    }
  }

  // ---- Specification: a map from virtual page to its newest entry ----

  function Lookup(entries: seq<Entry>, page: nat): (r: Option<Entry>)
  {
    if entries == [] then None
    else if entries[0].vaddr == page then Some(entries[0])
    else Lookup(entries[1..], page)
  }

  /** The map that a page table stands for. */
  function AsMap(entries: seq<Entry>): (m: map<nat, Entry>)
  {
    if entries == [] then map[] else AsMap(entries[1..])[entries[0].vaddr := entries[0]]
  }

  lemma {:induction false} LookupIsMap(entries: seq<Entry>, page: nat)
    ensures Lookup(entries, page) == if page in AsMap(entries) then Some(AsMap(entries)[page]) else None
  {
    if entries != [] {
      LookupIsMap(entries[1..], page);
    }
  }

  lemma AsMapPush(e: Entry, entries: seq<Entry>)
    ensures AsMap([e] + entries) == AsMap(entries)[e.vaddr := e]
  {
    assert ([e] + entries)[1..] == entries;
  }

  /** The comparison in pt_search, in 32-bit arithmetic. */
  predicate Covers(e: Entry, vaddr: nat)
  {
    e.vaddr <= vaddr && vaddr < (e.vaddr + PAGE_SIZE) % LIMIT
  }

  /** It recognises the addresses of the entry's page, except on the last page of the address
      space, where the end of the page wraps to zero. */
  lemma CoversPage(e: Entry, vaddr: nat)
    requires vaddr < LIMIT && e.vaddr < LIMIT && e.vaddr % PAGE_SIZE == 0
    ensures Covers(e, vaddr) <==> PageOf(vaddr) == e.vaddr && e.vaddr != LAST_PAGE
  {
  }

  /** What is released when a page table goes: a frame or a swap slot for each entry. */
  datatype Released = Frame(paddr: nat) | Slot(index: nat)

  function Resource(e: Entry): (r: Released)
  {
    if e.swapped then Slot(e.swapIndex) else Frame(e.ppage * PAGE_SIZE)
  }

  /** The swap slots of the entries, in order. */
  function Slots(entries: seq<Entry>): (s: seq<nat>)
  {
    if entries == [] then []
    else (if entries[0].swapped then [entries[0].swapIndex] else []) + Slots(entries[1..])
  }

  function SlotSet(entries: seq<Entry>): (s: set<nat>)
  {
    set i | i in Slots(entries)
  }

  // ---- The list ----

  /** The node behind number i: the next one, or the sentinel. */
  function After(nodes: seq<Node>, i: nat, nil: Node): (n: Node)
    requires i < |nodes|
  {
    if i + 1 < |nodes| then nodes[i + 1] else nil
  }

  class Table {
    var nil: Node
    var npages: nat
    ghost var nodes: seq<Node>

    ghost function Repr(): (r: set<Node>)
      reads this
    {
      {nil} + set n | n in nodes
    }

    /** The links go from the sentinel through the nodes back to the sentinel. */
    ghost predicate Valid()
      reads this, Repr()
    {
      && nil !in nodes
      && (forall i, j :: 0 <= i < j < |nodes| ==> nodes[i] != nodes[j])
      && nil.next == (if nodes == [] then nil else nodes[0])
      && (forall i :: 0 <= i < |nodes| ==> nodes[i].next == After(nodes, i, nil))
      && npages == |nodes|
      && (forall i :: 0 <= i < |nodes| ==> nodes[i].entry.vaddr < LIMIT && nodes[i].entry.vaddr % PAGE_SIZE == 0)
    }

    ghost function Entries(): (e: seq<Entry>)
      reads this, Repr()
    {
      seq(|nodes|, i requires 0 <= i < |nodes| reads this, Repr() =>
        assert nodes[i] in Repr(); nodes[i].entry)
    }

    /** pt_init */
    constructor ()
      ensures Valid() && Entries() == [] && fresh(Repr())
    {
      var n := new Node(Entry(0, 0, false, 0), null);
      n.next := n;
      nil, npages, nodes := n, 0, [];
    }

    /** pt_search finds the newest entry for the page of vaddr, and nothing on the last page. */
    method Search(vaddr: nat) returns (r: Node?)
      requires Valid() && vaddr < LIMIT
      ensures r == null <==> PageOf(vaddr) == LAST_PAGE || Lookup(Entries(), PageOf(vaddr)) == None
      ensures r != null ==> r in nodes && Lookup(Entries(), PageOf(vaddr)) == Some(r.entry)
    {
      ghost var i := 0;
      var pte := nil.next;
      while pte != nil
        invariant 0 <= i <= |nodes| && pte == (if i < |nodes| then nodes[i] else nil)
        invariant PageOf(vaddr) != LAST_PAGE ==>
                    Lookup(Entries(), PageOf(vaddr)) == Lookup(Entries()[i..], PageOf(vaddr))
        decreases |nodes| - i
      {
        assert nodes[i].next == After(nodes, i, nil);
        CoversPage(pte.entry, vaddr);
        assert Entries()[i..][0] == pte.entry && Entries()[i..][1..] == Entries()[i + 1..];
        if Covers(pte.entry, vaddr) {
          return pte;
        }
        pte := pte.next;
        i := i + 1;
      }
      r := null;
    }

    /** pt_add puts a new entry in front, and tells the coremap the address of the page. */
    method Add(paddr: nat, vaddr: nat, coremap: array<nat>) returns (ppindex: nat)
      requires Valid() && vaddr < LIMIT && paddr / PAGE_SIZE < coremap.Length
      modifies this, nil, coremap
      ensures Valid() && ppindex == paddr / PAGE_SIZE && fresh(Repr() - old(Repr()))
      ensures Entries() == [Entry(PageOf(vaddr), ppindex, false, 0)] + old(Entries())
      ensures coremap[..] == old(coremap[..])[ppindex := PageOf(vaddr)]
      ensures AsMap(Entries()) == old(AsMap(Entries()))[PageOf(vaddr) := Entry(PageOf(vaddr), ppindex, false, 0)]
    {
      hide AsMap, PageOf, After;
      ghost var before := Entries();
      ppindex := paddr / PAGE_SIZE;
      var n := new Node(Entry(PageOf(vaddr), ppindex, false, 0), null);
      coremap[ppindex] := PageOf(vaddr);
      PutFirst(n);
      AsMapPush(n.entry, before);
    }

    /** The new node becomes the first of the list. */
    method PutFirst(n: Node)
      requires Valid() && n !in Repr() && n.entry.vaddr < LIMIT && n.entry.vaddr % PAGE_SIZE == 0
      modifies this, nil, n`next
      ensures Valid() && Entries() == [n.entry] + old(Entries()) && nil == old(nil) && nodes == [n] + old(nodes)
    {
      hide PageOf;
      n.next := nil.next;
      nil.next := n;
      npages := npages + 1;
      nodes := [n] + nodes;
    }

    /** pt_destroy: walks the list once, and gives back the frame or the swap slot of each entry
        exactly once.  The slots are in use and no two entries have the same one, so the
        assertion in swap_unmark holds. */
    method Destroy(swap: Swap.SwapFile) returns (released: seq<Released>)
      requires Valid() && swap.Valid() && SlotsHeld(Entries(), swap.held)
      modifies this, Repr(), swap
      ensures |released| == |old(Entries())|
      ensures forall i :: 0 <= i < |released| ==> released[i] == Resource(old(Entries())[i])
      ensures swap.Valid() && swap.held == old(swap.held) - old(SlotSet(Entries()))
    {
      hide SlotsHeld, Resource, Slots, SlotSet;
      ghost var es, held := Entries(), swap.held;
      NoSlots();
      released := [];
      var q := nil.next;
      ghost var k := 0;
      assert es[..0] == [] && es[0..] == es;
      while q != nil
        invariant 0 <= k <= |es| && Valid() && Entries() == es[k..]
        invariant Repr() <= old(Repr()) && nil == old(nil) && q == nil.next
        invariant |released| == k && forall i :: 0 <= i < k ==> released[i] == Resource(es[i])
        invariant swap.Valid() && swap.held == held - SlotSet(es[..k])
        decreases |es| - k
      {
        var r := ReleaseFirst(swap, q, es, k, held);
        released := released + [r];
        k := k + 1;
        q := nil.next;
      }
      assert es[..k] == es;
    }

    /** One turn of the loop: the first entry is released and unlinked. */
    method ReleaseFirst(swap: Swap.SwapFile, q: Node, ghost es: seq<Entry>, ghost k: nat,
                        ghost held: map<nat, Swap.Page>)
      returns (r: Released)
      requires Valid() && swap.Valid() && q == nil.next && q != nil
      requires k <= |es| && Entries() == es[k..] && SlotsHeld(es, held) && swap.held == held - SlotSet(es[..k])
      modifies this, nil, swap
      ensures k < |es| && r == Resource(es[k])
      ensures Valid() && Entries() == es[k + 1..] && nil == old(nil) && Repr() <= old(Repr())
      ensures swap.Valid() && swap.held == held - SlotSet(es[..k + 1])
    {
      hide SlotsHeld, Resource, Slots, SlotSet;
      assert q == nodes[0] && q in Repr();
      assert q.entry == Entries()[0] == es[k..][0] == es[k];
      assert es[k..][1..] == es[k + 1..];
      r := ReleaseEntry(swap, q.entry, es, k, held);
      UnlinkFirst(q);
    }

    /** `p->next = q->next` with p the sentinel. */
    method UnlinkFirst(q: Node)
      requires Valid() && nodes != [] && q == nodes[0]
      modifies this, nil
      ensures Valid() && nil == old(nil) && nodes == old(nodes)[1..] && Entries() == old(Entries())[1..]
      ensures Repr() <= old(Repr())
    {
      nil.next := q.next;
      nodes := nodes[1..];
      npages := npages - 1;
    }
  }

  lemma NoSlots()
    ensures SlotSet([]) == {}
  {
  }

  /** The release of one entry: swap_unmark or freeuserppage. */
  method ReleaseEntry(swap: Swap.SwapFile, e: Entry, ghost es: seq<Entry>, ghost k: nat,
                      ghost held: map<nat, Swap.Page>)
    returns (r: Released)
    requires swap.Valid() && SlotsHeld(es, held) && k < |es| && e == es[k]
    requires swap.held == held - SlotSet(es[..k])
    modifies swap
    ensures swap.Valid() && r == Resource(e)
    ensures swap.held == held - SlotSet(es[..k + 1])
  {
    hide SlotsHeld, Slots;
    SlotsStep(es, k);
    if e.swapped {
      SlotOnce(es, k, held);
      assert e.swapIndex in swap.held;
      var ok := swap.Unmark(e.swapIndex);
      assert ok;
      r := Slot(e.swapIndex);
    } else {
      r := Frame(e.ppage * PAGE_SIZE);
    }
  }

  /** The slots of the entries are in use, and no two entries have the same one. */
  ghost predicate SlotsHeld(es: seq<Entry>, held: map<nat, Swap.Page>)
  {
    && (forall i, j :: 0 <= i < j < |Slots(es)| ==> Slots(es)[i] != Slots(es)[j])
    && (forall i :: 0 <= i < |Slots(es)| ==> Slots(es)[i] in held)
  }

  lemma SlotOnce(es: seq<Entry>, k: nat, held: map<nat, Swap.Page>)
    requires SlotsHeld(es, held) && k < |es| && es[k].swapped
    ensures es[k].swapIndex in held && es[k].swapIndex !in Slots(es[..k])
  {
    assert es == es[..k] + es[k..];
    SlotsConcat(es[..k], es[k..]);
    SlotsStep(es, k);
    var p := |Slots(es[..k])|;
    assert Slots(es)[p] == es[k].swapIndex;
    assert forall i :: 0 <= i < p ==> Slots(es[..k])[i] == Slots(es)[i];
  }

  lemma {:induction false} SlotsConcat(a: seq<Entry>, b: seq<Entry>)
    ensures Slots(a + b) == Slots(a) + Slots(b)
  {
    if a == [] {
      assert a + b == b;
    } else {
      assert (a + b)[1..] == a[1..] + b;
      SlotsConcat(a[1..], b);
      var first := if a[0].swapped then [a[0].swapIndex] else [];
      assert first + Slots(a[1..]) + Slots(b) == first + (Slots(a[1..]) + Slots(b));
    }
  }

  lemma SlotsStep(es: seq<Entry>, k: nat)
    requires k < |es|
    ensures Slots(es[..k + 1]) == Slots(es[..k]) + (if es[k].swapped then [es[k].swapIndex] else [])
    ensures Slots(es[k..]) == (if es[k].swapped then [es[k].swapIndex] else []) + Slots(es[k + 1..])
  {
    assert es[..k + 1] == es[..k] + [es[k]];
    SlotsConcat(es[..k], [es[k]]);
    assert es[k..][1..] == es[k + 1..];
  }

  // ---- From pt_add to pt_destroy ----

  lemma {:induction false} NoneSwapped(es: seq<Entry>)
    requires forall i :: 0 <= i < |es| ==> !es[i].swapped
    ensures Slots(es) == []
  {
    if es != [] {
      NoneSwapped(es[1..]);
    }
  }

  lemma FrameBack(paddr: nat)
    ensures paddr / PAGE_SIZE * PAGE_SIZE == PageOf(paddr)
  {
  }

  /** What was added, newest first. */
  ghost predicate Holds(es: seq<Entry>, adds: seq<(nat, nat)>)
  {
    && |es| == |adds|
    && forall i :: 0 <= i < |adds| ==>
         es[|adds| - 1 - i] == Entry(PageOf(adds[i].1), adds[i].0 / PAGE_SIZE, false, 0)
  }

  lemma HoldsMore(es: seq<Entry>, adds: seq<(nat, nat)>, k: nat)
    requires k < |adds| && Holds(es, adds[..k])
    ensures Holds([Entry(PageOf(adds[k].1), adds[k].0 / PAGE_SIZE, false, 0)] + es, adds[..k + 1])
  {
    hide PageOf;
    assert forall i :: 0 <= i < k ==> adds[..k + 1][i] == adds[..k][i];
  }

  /** A new page table with an entry for each pair of a frame and an address. */
  method AddAll(adds: seq<(nat, nat)>, coremap: array<nat>) returns (table: Table)
    requires forall i :: 0 <= i < |adds| ==> adds[i].1 < LIMIT && adds[i].0 / PAGE_SIZE < coremap.Length
    modifies coremap
    ensures fresh(table) && fresh(table.Repr()) && table.Valid() && Holds(table.Entries(), adds)
  {
    hide Holds, AsMap, PageOf;
    table := new Table();
    HoldsNone(adds);
    for k := 0 to |adds|
      invariant fresh(table) && fresh(table.Repr()) && table.Valid() && Holds(table.Entries(), adds[..k])
    {
      HoldsMore(table.Entries(), adds, k);
      var _ := table.Add(adds[k].0, adds[k].1, coremap);
    }
    assert adds[..|adds|] == adds;
  }

  lemma HoldsNone(adds: seq<(nat, nat)>)
    ensures Holds([], adds[..0])
  {
  }

  lemma FramesBack(es: seq<Entry>, adds: seq<(nat, nat)>, released: seq<Released>)
    requires Holds(es, adds) && |released| == |es| && forall i :: 0 <= i < |es| ==> released[i] == Resource(es[i])
    ensures forall i :: 0 <= i < |adds| ==> released[|adds| - 1 - i] == Frame(PageOf(adds[i].0))
  {
    hide PageOf;
    forall i | 0 <= i < |adds| ensures released[|adds| - 1 - i] == Frame(PageOf(adds[i].0)) {
      FrameBack(adds[i].0);
    }
  }

  lemma NoSlotsHeld(es: seq<Entry>, adds: seq<(nat, nat)>, held: map<nat, Swap.Page>)
    requires Holds(es, adds)
    ensures SlotsHeld(es, held) && SlotSet(es) == {}
  {
    forall i | 0 <= i < |es| ensures !es[i].swapped {
      var k := |adds| - 1 - i;
      assert es[|adds| - 1 - k].ppage == adds[k].0 / PAGE_SIZE;
    }
    NoneSwapped(es);
  }

  /** The frames that were given to pt_add are the frames that pt_destroy gives back, each once, the
      last one first. */
  method AddAndDestroy(adds: seq<(nat, nat)>, swap: Swap.SwapFile, coremap: array<nat>)
    returns (released: seq<Released>)
    requires swap.Valid()
    requires forall i :: 0 <= i < |adds| ==> adds[i].1 < LIMIT && adds[i].0 / PAGE_SIZE < coremap.Length
    modifies swap, coremap
    ensures |released| == |adds|
    ensures forall i :: 0 <= i < |adds| && adds[i].0 % PAGE_SIZE == 0 ==>
              released[|adds| - 1 - i] == Frame(adds[i].0)
    ensures forall i :: 0 <= i < |adds| ==> released[|adds| - 1 - i] == Frame(PageOf(adds[i].0))
    ensures swap.Valid() && swap.held == old(swap.held)
  {
    hide Slots, SlotSet, SlotsHeld, Resource;
    var table := AddAll(adds, coremap);
    ghost var es := table.Entries();
    NoSlotsHeld(es, adds, swap.held);
    released := table.Destroy(swap);
    FramesBack(es, adds, released);
  }
}
