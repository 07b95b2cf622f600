/** uiomove and uiomovezeros of kern/lib/uio.c: moving bytes between one kernel buffer and a
    vector of buffers. */
module Uio {
  import opened Memory
  import Words

  /** struct iovec */
  datatype Iovec = Iovec(base: nat, len: nat)

  datatype Direction = UIO_READ | UIO_WRITE

  /** size_t holds one of this many values. */
  const WORD: nat := 0x1_0000_0000

  /** How a call ends: it returns with an honest resid, it returns after resid has wrapped
      around zero, or it panics because there is no buffer left. */
  datatype Outcome = Done | Wrapped | OutOfBuffers

  // ---- Specification ----

  /** Total length of the buffers. */
  function Total(iovs: seq<Iovec>): (n: nat)
  {
    if iovs == [] then 0 else iovs[0].len + Total(iovs[1..])
  }

  predicate InBounds(iovs: seq<Iovec>, size: nat)
  {
    forall i :: 0 <= i < |iovs| ==> iovs[i].base + iovs[i].len <= size
  }

  /** The first of the buffers with k bytes used up. */
  function UseUp(iovs: seq<Iovec>, k: nat): (r: seq<Iovec>)
    requires iovs != [] && k <= iovs[0].len
  {
    [Iovec(iovs[0].base + k, iovs[0].len - k)] + iovs[1..]
  }

  /** The buffers that are left after n bytes: used up buffers are dropped only when the next
      byte is wanted, as the code does. */
  function Advance(iovs: seq<Iovec>, n: nat): (r: seq<Iovec>)
    requires n <= Total(iovs)
    decreases |iovs| + n
  {
    if n == 0 then iovs
    else if iovs[0].len == 0 then Advance(iovs[1..], n)
    else
      var k := if iovs[0].len < n then iovs[0].len else n;
      Advance(UseUp(iovs, k), n - k)
  }

  /** Memory after n bytes have been moved, one simultaneous copy for each piece. */
  function Move(m: seq<nat>, iovs: seq<Iovec>, ptr: nat, n: nat, rw: Direction): (m': seq<nat>)
    requires n <= Total(iovs) && InBounds(iovs, |m|) && ptr + n <= |m|
    ensures |m'| == |m|
    decreases |iovs| + n
  {
    if n == 0 then m
    else if iovs[0].len == 0 then Move(m, iovs[1..], ptr, n, rw)
    else
      var k := if iovs[0].len < n then iovs[0].len else n;
      var m1 := if rw == UIO_READ then Copied(m, iovs[0].base, ptr, k) else Copied(m, ptr, iovs[0].base, k);
      Move(m1, UseUp(iovs, k), ptr + k, n - k, rw)
  }

  // ---- How much is moved ----

  /** resid is where some buffer ends, or zero. */
  ghost predicate AtBoundary(iovs: seq<Iovec>, resid: int)
  {
    exists i :: 0 <= i <= |iovs| && Total(iovs[..i]) == resid
  }

  /** The bytes that a call moves.  The loop looks at resid only between two pieces, so it stops
      at resid only where a buffer ends there. */
  ghost function Amount(iovs: seq<Iovec>, resid: int, n: nat): (k: nat)
    ensures k <= n && k <= Total(iovs)
  {
    if 0 <= resid <= n && AtBoundary(iovs, resid) then PrefixTotal(iovs, resid); resid
    else if n <= Total(iovs) then n
    else Total(iovs)
  }

  /** What becomes of a call for n bytes that moves k. */
  function OutcomeOf(k: nat, resid: nat, n: nat): (r: Outcome)
  {
    if k < n && k != resid then OutOfBuffers else if k > resid then Wrapped else Done
  }

  lemma {:induction false} PrefixTotal(iovs: seq<Iovec>, resid: int)
    requires AtBoundary(iovs, resid)
    ensures 0 <= resid <= Total(iovs)
  {
    var i :| 0 <= i <= |iovs| && Total(iovs[..i]) == resid;
    TotalAppend(iovs[..i], iovs[i..]);
    assert iovs[..i] + iovs[i..] == iovs;
  }

  lemma {:induction false} TotalAppend(a: seq<Iovec>, b: seq<Iovec>)
    ensures Total(a + b) == Total(a) + Total(b)
  {
    if a == [] {
      assert a + b == b;
    } else {
      assert (a + b)[1..] == a[1..] + b;
      TotalAppend(a[1..], b);
    }
  }

  /** uiomove neither panics nor wraps resid exactly if n is no more than resid and the buffers
      allow, or if the buffers reach as far as resid and one of them ends there. */
  lemma UiomoveExact(iovs: seq<Iovec>, resid: nat, n: nat)
    ensures OutcomeOf(Amount(iovs, resid, n), resid, n) == Done <==>
      (n <= resid && n <= Total(iovs)) || (resid <= Total(iovs) && AtBoundary(iovs, resid))
    ensures OutcomeOf(Amount(iovs, resid, n), resid, n) == Wrapped
            <==> resid < n <= Total(iovs) && !AtBoundary(iovs, resid)
    ensures OutcomeOf(Amount(iovs, resid, n), resid, n) == OutOfBuffers <==> n > Total(iovs) && !AtBoundary(iovs, resid)
  {
    if AtBoundary(iovs, resid) {
      PrefixTotal(iovs, resid);
    }
    WholeTotal(iovs);
  }

  /** All the buffers together end at a boundary. */
  lemma WholeTotal(iovs: seq<Iovec>)
    ensures AtBoundary(iovs, Total(iovs)) && AtBoundary(iovs, 0)
  {
    assert iovs[..|iovs|] == iovs && Total(iovs[..0]) == 0;
  }

  /** One buffer of four bytes, of which two are meant to be used, and a request for three: three
      bytes are moved and resid wraps. */
  lemma WrapsAt()
    ensures Amount([Iovec(0, 4)], 2, 3) == 3 && OutcomeOf(3, 2, 3) == Wrapped
  {
    var iovs := [Iovec(0, 4)];
    assert Total(iovs) == 4 by {
      assert iovs[1..] == [];
    }
    forall i | 0 <= i <= |iovs| ensures Total(iovs[..i]) != 2 {
      assert i == 1 ==> iovs[..i] == iovs;
    }
  }

  /** An empty first buffer does not matter. */
  lemma AmountSkip(iovs: seq<Iovec>, r: int, n: nat)
    requires iovs != [] && iovs[0].len == 0
    ensures Amount(iovs, r, n) == Amount(iovs[1..], r, n)
  {
    BoundaryRest(iovs, iovs[1..], r);
    if r == 0 {
      WholeTotal(iovs);
      WholeTotal(iovs[1..]);
    }
  }

  /** Past the first buffer the boundaries are those of the rest. */
  lemma BoundaryRest(iovs: seq<Iovec>, rest: seq<Iovec>, r: int)
    requires iovs != [] && rest == iovs[1..]
    ensures AtBoundary(iovs, r) <==> r == 0 || AtBoundary(rest, r - iovs[0].len)
  {
    hide AtBoundary;
    BoundaryDown(iovs, rest, r);
    BoundaryUp(iovs, rest, r);
    WholeTotal(iovs);
  }

  lemma BoundaryDown(iovs: seq<Iovec>, rest: seq<Iovec>, r: int)
    requires iovs != [] && rest == iovs[1..]
    ensures AtBoundary(iovs, r) ==> r == 0 || AtBoundary(rest, r - iovs[0].len)
  {
    if AtBoundary(iovs, r) && r != 0 {
      var i :| 0 <= i <= |iovs| && Total(iovs[..i]) == r;
      assert i > 0 && iovs[..i][1..] == rest[..i - 1];
    }
  }

  lemma BoundaryUp(iovs: seq<Iovec>, rest: seq<Iovec>, r: int)
    requires iovs != [] && rest == iovs[1..]
    ensures AtBoundary(rest, r - iovs[0].len) ==> AtBoundary(iovs, r)
  {
    if AtBoundary(rest, r - iovs[0].len) {
      var i :| 0 <= i <= |rest| && Total(rest[..i]) == r - iovs[0].len;
      assert iovs[..i + 1][1..] == rest[..i];
    }
  }

  /** A piece of the first buffer leaves the rest of the amount to move. */
  lemma AmountPiece(iovs: seq<Iovec>, r: int, n: nat)
    requires iovs != [] && iovs[0].len > 0 && r != 0 && n > 0
    ensures var k := PieceSize(iovs, n); Amount(iovs, r, n) == k + Amount(UseUp(iovs, k), r - k, n - k)
  {
    var k := PieceSize(iovs, n);
    var u := UseUp(iovs, k);
    UseUpTotal(iovs, k);
    assert u[1..] == iovs[1..];
    hide AtBoundary, Total;
    BoundaryRest(iovs, iovs[1..], r);
    BoundaryRest(u, iovs[1..], r - k);
    if AtBoundary(iovs[1..], r - iovs[0].len) {
      PrefixTotal(iovs[1..], r - iovs[0].len);
    }
    WholeTotal(iovs[1..]);
  }

  // ---- The operation ----

  class Uio {
    var iovs: seq<Iovec>
    var resid: nat
    var offset: int
    const rw: Direction

    constructor (iovs: seq<Iovec>, resid: nat, offset: int, rw: Direction)
      ensures this.iovs == iovs && this.resid == resid && this.offset == offset && this.rw == rw
    {
      this.iovs, this.resid, this.offset, this.rw := iovs, resid, offset, rw;
    }

    /** What is still to be done: bring memory to m' and the buffers to rest.  r is what resid
        would be if it did not wrap. */
    ghost predicate ToDo(mem: seq<nat>, ptr: nat, r: int, n: nat, m': seq<nat>, rest: seq<Iovec>)
      reads this
    {
      var k := Amount(iovs, r, n);
      && -(WORD as int) < r < WORD && n < WORD && n < WORD + r && resid == (if r < 0 then r + WORD else r)
      && InBounds(iovs, |mem|) && ptr + n <= |mem|
      && Move(mem, iovs, ptr, k, rw) == m' && (Advance(iovs, k) == rest || (k == 0 && n > 0 && r != 0))
    }

    /** The body of the loop when the first buffer has room: one copy, and the accounting in
        32 bits. */
    method MovePiece(mem: array<nat>, ptr: nat, ghost r: int, n: nat, ghost m': seq<nat>, ghost rest: seq<Iovec>)
      returns (size: nat)
      requires ToDo(mem[..], ptr, r, n, m', rest) && n > 0 && resid > 0 && iovs != [] && iovs[0].len > 0
      modifies this, mem
      ensures 0 < size <= n && size == PieceSize(old(iovs), n) && |iovs| == |old(iovs)|
      ensures ToDo(mem[..], ptr + size, r - size, n - size, m', rest)
      ensures Amount(old(iovs), r, n) == size + Amount(iovs, r - size, n - size)
      ensures offset == old(offset) + size && Total(iovs) == Total(old(iovs)) - size
    {
      hide Move, Advance, Total, InBounds, Copied, Amount;
      var iov := iovs[0];
      size := iov.len;
      if size > n {
        size := n;
      }
      AmountPiece(iovs, r, n);
      FirstPiece(mem[..], iovs, ptr, Amount(iovs, r, n), size, rw);
      if rw == UIO_READ {
        Memmove(mem, iov.base, ptr, size);
      } else {
        Memmove(mem, ptr, iov.base, size);
      }
      iovs := UseUp(iovs, size);
      resid := (resid - size) % WORD;
      offset := offset + size;
      WordMinus(r, size, old(resid), resid);
    }

    /** uiomove, for every n and resid.  It moves the bytes in order across any number of
        buffers, and whether it returns, wraps resid or panics is decided by UiomoveExact. */
    method Uiomove(mem: array<nat>, ptr0: nat, n0: nat) returns (r: Outcome)
      requires resid < WORD && n0 < WORD && iovs != [] && ptr0 + n0 <= mem.Length && InBounds(iovs, mem.Length)
      modifies this, mem
      ensures InBounds(iovs, mem.Length)
      ensures var k := Amount(old(iovs), old(resid), n0);
              && r == OutcomeOf(k, old(resid), n0)
              && mem[..] == Move(old(mem[..]), old(iovs), ptr0, k, rw)
              && (r != OutOfBuffers ==> iovs == Advance(old(iovs), k) && iovs != [])
              && resid == (old(resid) - k) % WORD && offset == old(offset) + k && Total(iovs) == Total(old(iovs)) - k
    {
      hide Move, Advance, Total, InBounds, Amount;
      var ptr: nat, n: nat, wrapped := ptr0, n0, false;
      ghost var k: nat, t: int := Amount(iovs, resid, n0), resid;
      ghost var m', rest := Move(mem[..], iovs, ptr, k, rw), Advance(iovs, k);
      while n > 0 && resid > 0
        invariant iovs != [] && ToDo(mem[..], ptr, t, n, m', rest)
        invariant n0 - n == old(resid) - t == offset - old(offset) && n <= n0
        invariant k == n0 - n + Amount(iovs, t, n) && wrapped == (t < 0)
        invariant Total(iovs) + (n0 - n) == Total(old(iovs))
        decreases n + |iovs|
      {
        if iovs[0].len == 0 {
          AmountSkip(iovs, t, n);
          SkipEmpty(mem[..], iovs, ptr, Amount(iovs, t, n), rw);
          iovs := iovs[1..];
          if |iovs| == 0 {
            NothingLeft(mem[..], ptr, t, n, rw);
            return OutOfBuffers;
          }
          continue;
        }
        var was := resid;
        var size := MovePiece(mem, ptr, t, n, m', rest);
        wrapped := wrapped || size > was;
        ptr, n, t := ptr + size, n - size, t - size;
      }
      StopsHere(iovs, t, n);
      Nothing(mem[..], iovs, ptr, rw);
      r := if wrapped then Wrapped else Done;
    }

    /** uiomovezeros, with the sixteen zero bytes at address z.  The next bytes of the buffers
        become zero and nothing else changes, whatever overlaps. */
    method Uiomovezeros(mem: array<nat>, z: nat, n0: nat) returns (r: Outcome)
      requires rw == UIO_READ && resid < WORD && n0 < WORD && iovs != [] && InBounds(iovs, mem.Length)
      requires ZerosAt(mem[..], z)
      modifies this, mem
      ensures InBounds(iovs, mem.Length)
      ensures var k := ZeroAmount(old(iovs), old(resid), n0);
              && r == OutcomeOf(k, old(resid), n0)
              && Zeroed(old(mem[..]), mem[..], Cells(old(iovs), k))
              && (r != OutOfBuffers ==> iovs == Advance(old(iovs), k))
              && resid == (old(resid) - k) % WORD && offset == old(offset) + k
    {
      hide Move, Advance, Total, InBounds, Cells, Zeroed, Amount, ZeroAmount, ZerosAt, Zeroing;
      var n: nat, wrapped := n0, false;
      ghost var z0 := Start(mem[..], iovs, resid, n0);
      ghost var t: int := resid;
      ZerosStart(z0, z);
      while n > 0
        invariant Zeroing(z0, mem[..], iovs, resid, offset - old(offset), z, t, n) && wrapped == (t < 0)
        decreases n
      {
        var amt := 16;
        if amt > n {
          amt := n;
        }
        ZerosFit(z0, mem[..], iovs, resid, offset - old(offset), z, t, n);
        ghost var m1, iovs1, d, resid1 := mem[..], iovs, offset - old(offset), resid;
        r := Uiomove(mem, z, amt);
        ZerosStep(z0, m1, iovs1, resid1, d, z, t, n, amt, r, mem[..], iovs, resid);
        if r == OutOfBuffers {
          return;
        }
        wrapped := wrapped || r == Wrapped;
        t, n := t - (offset - old(offset) - d), n - amt;
      }
      ZerosEnd(z0, mem[..], iovs, resid, offset - old(offset), z, t);
      r := if wrapped then Wrapped else Done;
    }
  }

  /** If anything is left to move there is a buffer. */
  lemma NotEmpty(iovs: seq<Iovec>)
    ensures Total(iovs) > 0 ==> iovs != []
  {
  }

  /** The first buffer and the piece taken from it. */
  lemma FirstPiece(m: seq<nat>, iovs: seq<Iovec>, ptr: nat, n: nat, k: nat, rw: Direction)
    requires n <= Total(iovs) && InBounds(iovs, |m|) && ptr + n <= |m| && iovs != [] && 0 < k <= iovs[0].len && k <= n
    requires k == iovs[0].len || k == n
    ensures iovs[0].base + iovs[0].len <= |m|
    ensures var m1 := if rw == UIO_READ then Copied(m, iovs[0].base, ptr, k) else Copied(m, ptr, iovs[0].base, k);
            && Total(UseUp(iovs, k)) == Total(iovs) - k && InBounds(UseUp(iovs, k), |m|)
            && Move(m, iovs, ptr, n, rw) == Move(m1, UseUp(iovs, k), ptr + k, n - k, rw)
            && Advance(iovs, n) == Advance(UseUp(iovs, k), n - k)
  {
    hide Move, Advance, Total, InBounds, Copied, UseUp;
    FirstBuffer(m, iovs, ptr, n, rw);
    Piece(m, iovs, ptr, n, rw);
  }

  lemma SkipEmpty(m: seq<nat>, iovs: seq<Iovec>, ptr: nat, n: nat, rw: Direction)
    requires n <= Total(iovs) && InBounds(iovs, |m|) && ptr + n <= |m| && iovs != [] && iovs[0].len == 0
    ensures Total(iovs[1..]) == Total(iovs) && InBounds(iovs[1..], |m|)
    ensures Move(m, iovs, ptr, n, rw) == Move(m, iovs[1..], ptr, n, rw)
    ensures n > 0 ==> Advance(iovs, n) == Advance(iovs[1..], n)
  {
  }

  lemma NothingLeft(m: seq<nat>, ptr: nat, r: int, n: nat, rw: Direction)
    requires ptr + n <= |m| && r != 0
    ensures Total([]) == 0 && InBounds([], |m|) && Amount([], r, n) == 0 && Move(m, [], ptr, 0, rw) == m
  {
    if AtBoundary([], r) {
      PrefixTotal([], r);
    }
  }

  lemma StopsHere(iovs: seq<Iovec>, r: int, n: nat)
    requires r == 0 || n == 0
    ensures Amount(iovs, r, n) == 0
  {
    WholeTotal(iovs);
  }

  /** Subtracting in 32 bits. */
  lemma WordMinus(r: int, size: nat, was: nat, now: nat)
    requires -(WORD as int) < r - size && r < WORD && size < WORD && was == (if r < 0 then r + WORD else r)
    requires now == (was - size) % WORD
    ensures now == if r - size < 0 then r - size + WORD else r - size
  {
  }

  /** An empty first buffer changes nothing. */
  lemma FirstBuffer(m: seq<nat>, iovs: seq<Iovec>, ptr: nat, n: nat, rw: Direction)
    requires 0 < n <= Total(iovs) && InBounds(iovs, |m|) && ptr + n <= |m| && iovs != []
    ensures iovs[0].base + iovs[0].len <= |m| && iovs[0].len <= Total(iovs)
    ensures iovs[0].len == 0 ==>
      && Total(iovs[1..]) == Total(iovs) && InBounds(iovs[1..], |m|)
      && Move(m, iovs, ptr, n, rw) == Move(m, iovs[1..], ptr, n, rw) && Advance(iovs, n) == Advance(iovs[1..], n)
  {
  }

  /** One piece: as much of the first buffer as is wanted. */
  lemma Piece(m: seq<nat>, iovs: seq<Iovec>, ptr: nat, n: nat, rw: Direction)
    requires 0 < n <= Total(iovs) && InBounds(iovs, |m|) && ptr + n <= |m| && iovs != [] && iovs[0].len > 0
    ensures var k := if iovs[0].len < n then iovs[0].len else n;
            var m1 := if rw == UIO_READ then Copied(m, iovs[0].base, ptr, k) else Copied(m, ptr, iovs[0].base, k);
            && Total(UseUp(iovs, k)) == Total(iovs) - k && InBounds(UseUp(iovs, k), |m|)
            && Move(m, iovs, ptr, n, rw) == Move(m1, UseUp(iovs, k), ptr + k, n - k, rw)
            && Advance(iovs, n) == Advance(UseUp(iovs, k), n - k)
  {
    var k := if iovs[0].len < n then iovs[0].len else n;
    assert UseUp(iovs, k)[1..] == iovs[1..];
  }

  lemma Nothing(m: seq<nat>, iovs: seq<Iovec>, ptr: nat, rw: Direction)
    requires InBounds(iovs, |m|) && ptr <= |m|
    ensures Move(m, iovs, ptr, 0, rw) == m && Advance(iovs, 0) == iovs
  {
  }

  // ---- What a move means, byte by byte ----

  function Range(base: nat, k: nat): (r: seq<nat>)
    ensures |r| == k
  {
    seq(k, i requires 0 <= i < k => base + i)
  }

  /** The addresses of the first n bytes of the buffers, in order. */
  function Cells(iovs: seq<Iovec>, n: nat): (c: seq<nat>)
    requires n <= Total(iovs)
    ensures |c| == n
    decreases |iovs| + n
  {
    if n == 0 then []
    else if iovs[0].len == 0 then Cells(iovs[1..], n)
    else
      var k := if iovs[0].len < n then iovs[0].len else n;
      Range(iovs[0].base, k) + Cells(UseUp(iovs, k), n - k)
  }

  /** No byte is in the buffers twice. */
  ghost predicate Distinct(c: seq<nat>)
  {
    forall i, j :: 0 <= i < j < |c| ==> c[i] != c[j]
  }

  /** No byte is in the kernel buffer at ptr. */
  ghost predicate Outside(c: seq<nat>, ptr: nat, n: nat)
  {
    forall i :: 0 <= i < |c| ==> !(ptr <= c[i] < ptr + n)
  }

  /** m' is m with byte j of the kernel buffer at address c[j]. */
  ghost predicate Scattered(m: seq<nat>, m': seq<nat>, c: seq<nat>, ptr: nat)
    requires ptr + |c| <= |m|
  {
    && |m'| == |m|
    && (forall j :: 0 <= j < |c| ==> c[j] < |m| && m'[c[j]] == m[ptr + j])
    && (forall a :: 0 <= a < |m| && a !in c ==> m'[a] == m[a])
  }

  /** m' is m with the byte from address c[j] at place j of the kernel buffer. */
  ghost predicate Gathered(m: seq<nat>, m': seq<nat>, c: seq<nat>, ptr: nat)
    requires ptr + |c| <= |m|
  {
    && |m'| == |m|
    && (forall j :: 0 <= j < |c| ==> c[j] < |m| && m'[ptr + j] == m[c[j]])
    && (forall a :: 0 <= a < |m| && !(ptr <= a < ptr + |c|) ==> m'[a] == m[a])
  }

  /** The cells of an empty first buffer, and of a first piece. */
  lemma CellsStep(iovs: seq<Iovec>, n: nat)
    requires 0 < n <= Total(iovs) && iovs != []
    ensures iovs[0].len == 0 ==> n <= Total(iovs[1..]) && Cells(iovs, n) == Cells(iovs[1..], n)
    ensures iovs[0].len > 0 ==>
      var k := if iovs[0].len < n then iovs[0].len else n;
      n - k <= Total(UseUp(iovs, k)) && Cells(iovs, n) == Range(iovs[0].base, k) + Cells(UseUp(iovs, k), n - k)
  {
    if iovs[0].len > 0 {
      UseUpTotal(iovs, if iovs[0].len < n then iovs[0].len else n);
    }
  }

  /** The first piece of a move, and what it leaves to do. */
  function PieceSize(iovs: seq<Iovec>, n: nat): (k: nat)
    requires iovs != []
    ensures k <= n && k <= iovs[0].len
  {
    if iovs[0].len < n then iovs[0].len else n
  }

  lemma MoveNone(m: seq<nat>, iovs: seq<Iovec>, ptr: nat)
    requires InBounds(iovs, |m|) && ptr <= |m|
    ensures Scattered(m, Move(m, iovs, ptr, 0, UIO_READ), Cells(iovs, 0), ptr)
    ensures Gathered(m, Move(m, iovs, ptr, 0, UIO_WRITE), Cells(iovs, 0), ptr)
  {
  }

  lemma {:induction false} ReadScatters(m: seq<nat>, iovs: seq<Iovec>, ptr: nat, n: nat)
    requires n <= Total(iovs) && InBounds(iovs, |m|) && ptr + n <= |m|
    requires Distinct(Cells(iovs, n)) && Outside(Cells(iovs, n), ptr, n)
    ensures Scattered(m, Move(m, iovs, ptr, n, UIO_READ), Cells(iovs, n), ptr)
    decreases |iovs| + n
  {
    hide Move, Cells, Total, InBounds, Advance, Distinct, Outside, Scattered, Copied;
    if n == 0 {
      MoveNone(m, iovs, ptr);
      return;
    }
    NotEmpty(iovs);
    FirstBuffer(m, iovs, ptr, n, UIO_READ);
    if iovs[0].len == 0 {
      CellsStep(iovs, n);
      ReadScatters(m, iovs[1..], ptr, n);
    } else {
      var k := PieceSize(iovs, n);
      ReadBefore(m, iovs, ptr, n);
      ReadScatters(Copied(m, iovs[0].base, ptr, k), UseUp(iovs, k), ptr + k, n - k);
      ReadAfter(m, iovs, ptr, n);
    }
  }

  lemma ReadBefore(m: seq<nat>, iovs: seq<Iovec>, ptr: nat, n: nat)
    requires 0 < n <= Total(iovs) && InBounds(iovs, |m|) && ptr + n <= |m| && iovs != [] && iovs[0].len > 0
    requires Distinct(Cells(iovs, n)) && Outside(Cells(iovs, n), ptr, n)
    ensures var k := PieceSize(iovs, n); var u := UseUp(iovs, k);
            && 0 < k && iovs[0].base + k <= |m| && n - k <= Total(u) && InBounds(u, |m|)
            && Distinct(Cells(u, n - k)) && Outside(Cells(u, n - k), ptr + k, n - k)
  {
    hide Move, Cells, Total, InBounds, Advance, Distinct, Outside, Copied;
    FirstBuffer(m, iovs, ptr, n, UIO_READ);
    CellsStep(iovs, n);
    Piece(m, iovs, ptr, n, UIO_READ);
    var k := PieceSize(iovs, n);
    SplitCells(Range(iovs[0].base, k), Cells(UseUp(iovs, k), n - k), ptr, n);
  }

  lemma ReadAfter(m: seq<nat>, iovs: seq<Iovec>, ptr: nat, n: nat)
    requires 0 < n <= Total(iovs) && InBounds(iovs, |m|) && ptr + n <= |m| && iovs != [] && iovs[0].len > 0
    requires Distinct(Cells(iovs, n)) && Outside(Cells(iovs, n), ptr, n)
    requires var k := PieceSize(iovs, n); var u := UseUp(iovs, k);
             && iovs[0].base + k <= |m| && n - k <= Total(u) && InBounds(u, |m|)
             && var m1 := Copied(m, iovs[0].base, ptr, k);
                Scattered(m1, Move(m1, u, ptr + k, n - k, UIO_READ), Cells(u, n - k), ptr + k)
    ensures Scattered(m, Move(m, iovs, ptr, n, UIO_READ), Cells(iovs, n), ptr)
  {
    hide Move, Cells, Total, InBounds, Advance, Distinct, Outside, Scattered, Copied, Range, UseUp;
    var k, base := PieceSize(iovs, n), iovs[0].base;
    var u, m1 := UseUp(iovs, k), Copied(m, base, ptr, k);
    CellsStep(iovs, n);
    Piece(m, iovs, ptr, n, UIO_READ);
    SplitCells(Range(base, k), Cells(u, n - k), ptr, n);
    ScatterPiece(m, m1, Move(m1, u, ptr + k, n - k, UIO_READ), base, k, Cells(u, n - k), ptr);
  }

  lemma RangeMembers(base: nat, k: nat)
    ensures forall a :: base <= a < base + k ==> a in Range(base, k)
  {
    forall a | base <= a < base + k ensures a in Range(base, k) {
      assert Range(base, k)[a - base] == a;
    }
  }

  lemma SplitCells(r: seq<nat>, c: seq<nat>, ptr: nat, n: nat)
    requires Distinct(r + c) && Outside(r + c, ptr, n) && |r| <= n
    ensures Distinct(c) && Outside(r, ptr, n) && Outside(c, ptr + |r|, n - |r|) && Outside(c, ptr, n)
    ensures forall i, j :: 0 <= i < |r| && 0 <= j < |c| ==> r[i] != c[j]
  {
    assert forall i :: 0 <= i < |r| ==> (r + c)[i] == r[i];
    assert forall j :: 0 <= j < |c| ==> (r + c)[|r| + j] == c[j];
  }

  lemma ScatterPiece(m: seq<nat>, m1: seq<nat>, m': seq<nat>, base: nat, k: nat, c: seq<nat>, ptr: nat)
    requires base + k <= |m| && ptr + k + |c| <= |m| && m1 == Copied(m, base, ptr, k)
    requires Scattered(m1, m', c, ptr + k)
    requires Outside(Range(base, k), ptr, k + |c|)
    requires forall i, j :: 0 <= i < k && 0 <= j < |c| ==> Range(base, k)[i] != c[j]
    ensures Scattered(m, m', Range(base, k) + c, ptr)
  {
    var r := Range(base, k);
    var all := r + c;
    RangeMembers(base, k);
    forall j | 0 <= j < |all| ensures all[j] < |m| && m'[all[j]] == m[ptr + j] {
      if j < k {
        assert all[j] == r[j] == base + j;
        assert r[j] !in c;
        CopiedAt(m, base, ptr, k, base + j);
      } else {
        assert all[j] == c[j - k];
        assert m'[c[j - k]] == m1[ptr + k + (j - k)];
        assert ptr + j !in r;
        CopiedAt(m, base, ptr, k, ptr + j);
      }
    }
    forall a | 0 <= a < |m| && a !in all ensures m'[a] == m[a] {
      assert a !in r && a !in c;
      CopiedAt(m, base, ptr, k, a);
    }
  }

  lemma {:induction false} WriteGathers(m: seq<nat>, iovs: seq<Iovec>, ptr: nat, n: nat)
    requires n <= Total(iovs) && InBounds(iovs, |m|) && ptr + n <= |m| && Outside(Cells(iovs, n), ptr, n)
    ensures Gathered(m, Move(m, iovs, ptr, n, UIO_WRITE), Cells(iovs, n), ptr)
    decreases |iovs| + n
  {
    hide Move, Cells, Total, InBounds, Advance, Outside, Gathered, Copied;
    if n == 0 {
      MoveNone(m, iovs, ptr);
      return;
    }
    NotEmpty(iovs);
    FirstBuffer(m, iovs, ptr, n, UIO_WRITE);
    CellsStep(iovs, n);
    if iovs[0].len == 0 {
      WriteGathers(m, iovs[1..], ptr, n);
    } else {
      var k, base := PieceSize(iovs, n), iovs[0].base;
      var u, m1 := UseUp(iovs, k), Copied(m, ptr, base, k);
      Piece(m, iovs, ptr, n, UIO_WRITE);
      OutsideParts(Range(base, k), Cells(u, n - k), ptr, n);
      WriteGathers(m1, u, ptr + k, n - k);
      GatherPiece(m, m1, Move(m1, u, ptr + k, n - k, UIO_WRITE), base, k, Cells(u, n - k), ptr);
    }
  }

  lemma OutsideParts(r: seq<nat>, c: seq<nat>, ptr: nat, n: nat)
    requires Outside(r + c, ptr, n) && |r| <= n
    ensures Outside(c, ptr, n) && Outside(c, ptr + |r|, n - |r|)
  {
    assert forall j :: 0 <= j < |c| ==> (r + c)[|r| + j] == c[j];
  }

  lemma GatherPiece(m: seq<nat>, m1: seq<nat>, m': seq<nat>, base: nat, k: nat, c: seq<nat>, ptr: nat)
    requires base + k <= |m| && ptr + k + |c| <= |m| && m1 == Copied(m, ptr, base, k)
    requires Gathered(m1, m', c, ptr + k) && Outside(c, ptr, k + |c|)
    ensures Gathered(m, m', Range(base, k) + c, ptr)
  {
    var all := Range(base, k) + c;
    forall j | 0 <= j < |all| ensures all[j] < |m| && m'[ptr + j] == m[all[j]] {
      if j < k {
        assert all[j] == base + j;
        CopiedAt(m, ptr, base, k, ptr + j);
      } else {
        assert all[j] == c[j - k];
        assert m'[ptr + k + (j - k)] == m1[c[j - k]];
        CopiedAt(m, ptr, base, k, c[j - k]);
      }
    }
    forall a | 0 <= a < |m| && !(ptr <= a < ptr + |all|) ensures m'[a] == m[a] {
      CopiedAt(m, ptr, base, k, a);
    }
  }

  // ---- Zeros ----

  ghost predicate Zeroed(m: seq<nat>, m': seq<nat>, c: seq<nat>)
  {
    && |m'| == |m|
    && (forall j :: 0 <= j < |c| ==> c[j] < |m| && m'[c[j]] == 0)
    && (forall a :: 0 <= a < |m| && a !in c ==> m'[a] == m[a])
  }

  /** The static array of sixteen zeros. */
  ghost predicate ZerosAt(m: seq<nat>, z: nat)
  {
    z + 16 <= |m| && forall i :: z <= i < z + 16 ==> m[i] == 0
  }

  lemma ZeroedMore(m: seq<nat>, m1: seq<nat>, m2: seq<nat>, c: seq<nat>, c1: seq<nat>)
    requires Zeroed(m, m1, c) && Zeroed(m1, m2, c1)
    ensures Zeroed(m, m2, c + c1)
  {
    var all := c + c1;
    forall j | 0 <= j < |all| ensures all[j] < |m| && m2[all[j]] == 0 {
      if j < |c| {
        assert all[j] == c[j];
      } else {
        assert all[j] == c1[j - |c|];
      }
    }
    forall a | 0 <= a < |m| && a !in all ensures m2[a] == m[a] {
      assert a !in c && a !in c1;
    }
  }

  lemma ZeroPiece(m: seq<nat>, base: nat, ptr: nat, k: nat, z: nat)
    requires ZerosAt(m, z) && z <= ptr && ptr + k <= z + 16 && base + k <= |m|
    ensures Zeroed(m, Copied(m, base, ptr, k), Range(base, k)) && ZerosAt(Copied(m, base, ptr, k), z)
  {
    var r, m' := Range(base, k), Copied(m, base, ptr, k);
    RangeMembers(base, k);
    forall j | 0 <= j < k ensures r[j] < |m| && m'[r[j]] == 0 {
      CopiedAt(m, base, ptr, k, base + j);
    }
    forall a | 0 <= a < |m| && a !in r ensures m'[a] == m[a] {
      CopiedAt(m, base, ptr, k, a);
    }
    forall i | z <= i < z + 16 ensures m'[i] == 0 {
      CopiedAt(m, base, ptr, k, i);
    }
  }

  /** Moving zeros makes the cells zero, and the zeros stay zeros even if they are among the
      cells. */
  lemma {:induction false} ZeroMove(m: seq<nat>, iovs: seq<Iovec>, ptr: nat, n: nat, z: nat)
    requires n <= Total(iovs) && InBounds(iovs, |m|) && ZerosAt(m, z) && z <= ptr && ptr + n <= z + 16
    ensures Zeroed(m, Move(m, iovs, ptr, n, UIO_READ), Cells(iovs, n)) && ZerosAt(Move(m, iovs, ptr, n, UIO_READ), z)
    decreases |iovs| + n
  {
    hide Move, Cells, Total, InBounds, Advance, Zeroed, ZerosAt, Copied;
    ZerosWithin(m, z);
    if n == 0 {
      ZeroMoveNone(m, iovs, ptr);
      return;
    }
    NotEmpty(iovs);
    FirstBuffer(m, iovs, ptr, n, UIO_READ);
    CellsStep(iovs, n);
    if iovs[0].len == 0 {
      ZeroMove(m, iovs[1..], ptr, n, z);
    } else {
      var k := PieceSize(iovs, n);
      var u, m1 := UseUp(iovs, k), Copied(m, iovs[0].base, ptr, k);
      Piece(m, iovs, ptr, n, UIO_READ);
      ZeroPiece(m, iovs[0].base, ptr, k, z);
      ZeroMove(m1, u, ptr + k, n - k, z);
      ZeroedMore(m, m1, Move(m1, u, ptr + k, n - k, UIO_READ), Range(iovs[0].base, k), Cells(u, n - k));
    }
  }

  lemma ZeroMoveNone(m: seq<nat>, iovs: seq<Iovec>, ptr: nat)
    requires InBounds(iovs, |m|) && ptr <= |m|
    ensures Move(m, iovs, ptr, 0, UIO_READ) == m && Zeroed(m, m, Cells(iovs, 0))
  {
  }

  lemma ZerosWithin(m: seq<nat>, z: nat)
    requires ZerosAt(m, z)
    ensures z + 16 <= |m|
  {
  }

  /** The bytes that uiomovezeros zeroes.  It looks at resid also after every sixteen bytes. */
  ghost function ZeroAmount(iovs: seq<Iovec>, resid: int, n: nat): (k: nat)
    ensures k <= n && k <= Total(iovs)
  {
    if 0 <= resid <= n && resid <= Total(iovs) && (resid % 16 == 0 || AtBoundary(iovs, resid)) then resid
    else if n <= Total(iovs) then n
    else Total(iovs)
  }

  /** The exact condition for uiomovezeros. */
  lemma UiomovezerosExact(iovs: seq<Iovec>, resid: nat, n: nat)
    ensures OutcomeOf(ZeroAmount(iovs, resid, n), resid, n) == Done <==>
      || (n <= resid && n <= Total(iovs))
      || (resid <= Total(iovs) && (resid % 16 == 0 || AtBoundary(iovs, resid)))
  {
    WholeTotal(iovs);
  }

  /** One chunk of at most sixteen bytes, and what is left. */
  ghost predicate ChunkOk(iovs: seq<Iovec>, t: int, n: nat, resid: nat, amt: nat)
    requires amt <= n
  {
    var a := Amount(iovs, resid, amt);
    var r := OutcomeOf(a, resid, amt);
    && (r != OutOfBuffers ==> (r == Wrapped <==> t >= 0 && t - a < 0))
    && (t == 0 ==> a == 0)
    && (r == OutOfBuffers ==> ZeroAmount(iovs, t, n) == a && a < n && a != t)
    && (r != OutOfBuffers ==> ZeroAmount(iovs, t, n) == a + ZeroAmount(Advance(iovs, a), t - a, n - amt))
    && (r != OutOfBuffers ==> t - a == 0 || a == amt)
  }

  lemma ZeroAmountStep(iovs: seq<Iovec>, t: int, n: nat)
    requires n > 0 && -(WORD as int) < t < WORD && n < WORD + t
    ensures ChunkOk(iovs, t, n, if t < 0 then t + WORD else t, if n < 16 then n else 16)
  {
    hide ChunkOk;
    if t < 0 {
      ChunkWrapped(iovs, t, n, if n < 16 then n else 16);
    } else if t <= n && t <= 16 {
      ChunkStops(iovs, t, n, if n < 16 then n else 16);
    } else {
      ChunkFull(iovs, t, n, if n < 16 then n else 16);
    }
  }

  /** Once resid has wrapped it is never in the way again. */
  lemma ChunkWrapped(iovs: seq<Iovec>, t: int, n: nat, amt: nat)
    requires 0 < amt <= n && -(WORD as int) < t < 0 && n < WORD + t
    ensures ChunkOk(iovs, t, n, t + WORD, amt)
  {
    var a := Amount(iovs, t + WORD, amt);
    AdvanceTotal(iovs, a);
    hide Total, Advance, AtBoundary;
  }

  lemma ChunkStops(iovs: seq<Iovec>, t: int, n: nat, amt: nat)
    requires 0 <= t <= amt <= n && (amt == n || amt == 16) && 0 < amt <= 16
    ensures ChunkOk(iovs, t, n, t, amt)
  {
    var a := Amount(iovs, t, amt);
    AdvanceTotal(iovs, a);
    WholeTotal(iovs);
    if AtBoundary(iovs, t) {
      PrefixTotal(iovs, t);
    }
    hide Total, Advance, AtBoundary;
    Sixteen(t);
  }

  lemma ChunkFull(iovs: seq<Iovec>, t: int, n: nat, amt: nat)
    requires t > amt && 0 < amt <= n && (amt == n || amt == 16)
    ensures ChunkOk(iovs, t, n, t, amt)
  {
    var a := Amount(iovs, t, amt);
    hide Total, Advance, AtBoundary;
    if a == amt {
      ChunkRest(iovs, t, n, amt);
    }
  }

  lemma ChunkRest(iovs: seq<Iovec>, t: int, n: nat, amt: nat)
    requires t > amt && 0 < amt <= n && (amt == n || amt == 16) && amt <= Total(iovs)
    ensures ZeroAmount(iovs, t, n) == amt + ZeroAmount(Advance(iovs, amt), t - amt, n - amt)
  {
    AdvanceTotal(iovs, amt);
    hide Total, Advance, AtBoundary;
    Sixteen(t);
    BoundaryAdvance(iovs, amt, t);
  }

  lemma Sixteen(t: int)
    ensures (t - 16) % 16 == t % 16 && (0 < t < 16 ==> t % 16 != 0)
  {
  }

  lemma AdvanceTotal(iovs: seq<Iovec>, k: nat)
    requires k <= Total(iovs)
    ensures Total(Advance(iovs, k)) == Total(iovs) - k
  {
    hide Total, Advance;
    CellsSplit(iovs, k, 0);
  }

  /** The boundaries ahead stay where they are. */
  lemma {:induction false} BoundaryAdvance(iovs: seq<Iovec>, k: nat, t: int)
    requires k <= Total(iovs) && t > k
    ensures AtBoundary(iovs, t) <==> AtBoundary(Advance(iovs, k), t - k)
    decreases |iovs| + k
  {
    hide AtBoundary, Total, Advance;
    if k == 0 {
      NoCells(iovs);
      return;
    }
    NotEmpty(iovs);
    AdvanceStep(iovs, k);
    BoundaryRest(iovs, iovs[1..], t);
    if iovs[0].len == 0 {
      BoundaryAdvance(iovs[1..], k, t);
    } else {
      var j := PieceSize(iovs, k);
      var u := UseUp(iovs, j);
      assert u[1..] == iovs[1..];
      BoundaryRest(u, iovs[1..], t - j);
      UseUpTotal(iovs, j);
      BoundaryAdvance(u, k - j, t - j);
    }
  }

  lemma ZeroAmountNone(iovs: seq<Iovec>, t: int)
    ensures ZeroAmount(iovs, t, 0) == 0
  {
  }

  lemma ResidWord(resid: nat, d: nat, t: int, n: nat)
    requires resid < WORD && d <= n < WORD && t == resid - d
    ensures (resid - d) % WORD == if t < 0 then t + WORD else t
  {
  }

  lemma ResidMinus(resid: nat, d: nat, a: nat)
    ensures ((resid - d) % WORD - a) % WORD == (resid - (d + a)) % WORD
  {
    Words.DivMod(resid - d, WORD);
    var q := (resid - d) / WORD;
    var x := (resid - d) % WORD - a;
    Words.DivMod(x, WORD);
    Words.DivUnique(resid - (d + a), WORD, q + x / WORD, x % WORD);
  }

  /** The bytes ahead are those of the buffers that are left. */
  lemma {:induction false} CellsSplit(iovs: seq<Iovec>, a: nat, b: nat)
    requires a + b <= Total(iovs)
    ensures Total(Advance(iovs, a)) == Total(iovs) - a
    ensures Cells(iovs, a + b) == Cells(iovs, a) + Cells(Advance(iovs, a), b)
    ensures Advance(iovs, a + b) == Advance(Advance(iovs, a), b)
    decreases |iovs| + a
  {
    if a > 0 {
      NotEmpty(iovs);
      var len := iovs[0].len;
      if len == 0 {
        CellsSplit(iovs[1..], a, b);
      } else if len < a {
        UseUpTotal(iovs, len);
        CellsSplit(UseUp(iovs, len), a - len, b);
        assert Range(iovs[0].base, len) + Cells(UseUp(iovs, len), a - len) + Cells(Advance(iovs, a), b)
            == Range(iovs[0].base, len) + (Cells(UseUp(iovs, len), a - len) + Cells(Advance(iovs, a), b));
      } else {
        SplitFirst(iovs, a, b);
      }
    }
  }

  lemma UseUpTotal(iovs: seq<Iovec>, k: nat)
    requires iovs != [] && k <= iovs[0].len
    ensures Total(UseUp(iovs, k)) == Total(iovs) - k
  {
    assert UseUp(iovs, k)[1..] == iovs[1..];
  }

  lemma AdvanceStep(iovs: seq<Iovec>, n: nat)
    requires 0 < n <= Total(iovs) && iovs != []
    ensures iovs[0].len == 0 ==> n <= Total(iovs[1..]) && Advance(iovs, n) == Advance(iovs[1..], n)
    ensures iovs[0].len > 0 ==>
      var k := PieceSize(iovs, n);
      n - k <= Total(UseUp(iovs, k)) && Advance(iovs, n) == Advance(UseUp(iovs, k), n - k)
  {
    if iovs[0].len > 0 {
      UseUpTotal(iovs, PieceSize(iovs, n));
    }
  }

  lemma NoCells(iovs: seq<Iovec>)
    ensures Cells(iovs, 0) == [] && Advance(iovs, 0) == iovs
  {
  }

  lemma SplitFirst(iovs: seq<Iovec>, a: nat, b: nat)
    requires iovs != [] && 0 < a <= iovs[0].len && a + b <= Total(iovs)
    ensures Total(Advance(iovs, a)) == Total(iovs) - a
    ensures Cells(iovs, a + b) == Cells(iovs, a) + Cells(Advance(iovs, a), b)
    ensures Advance(iovs, a + b) == Advance(Advance(iovs, a), b)
  {
    hide Cells, Advance, Total;
    var base, u, k := iovs[0].base, UseUp(iovs, a), PieceSize(iovs, a + b);
    UseUpTotal(iovs, a);
    CellsStep(iovs, a);
    AdvanceStep(iovs, a);
    NoCells(u);
    CellsStep(iovs, a + b);
    AdvanceStep(iovs, a + b);
    assert Range(base, k) == Range(base, a) + Range(base + a, k - a);
    if b > 0 {
      CellsStep(u, b);
      AdvanceStep(u, b);
      if iovs[0].len == a {
        assert UseUp(iovs, k) == u;
      } else {
        assert UseUp(u, k - a) == UseUp(iovs, k) && PieceSize(u, b) == k - a;
      }
    } else {
      assert UseUp(iovs, k) == u;
    }
  }

  /** What uiomovezeros started from. */
  datatype Start = Start(m: seq<nat>, iovs: seq<Iovec>, resid: nat, n: nat)

  /** d bytes have been zeroed and n are still asked for; t is what resid would be if it did not
      wrap. */
  ghost predicate Zeroing(s: Start, m: seq<nat>, iovs: seq<Iovec>, resid: nat, d: int, z: nat, t: int, n: nat)
  {
    && s.resid < WORD && s.n < WORD && iovs != [] && InBounds(iovs, |m|) && ZerosAt(m, z)
    && 0 <= d <= Total(s.iovs) && iovs == Advance(s.iovs, d) && Zeroed(s.m, m, Cells(s.iovs, d))
    && d == s.resid - t && d + n <= s.n && (t == 0 || d + n == s.n)
    && ZeroAmount(s.iovs, s.resid, s.n) == d + ZeroAmount(iovs, t, n) && resid == (s.resid - d) % WORD
  }

  lemma ZerosStart(s: Start, z: nat)
    requires s.resid < WORD && s.n < WORD && s.iovs != [] && InBounds(s.iovs, |s.m|) && ZerosAt(s.m, z)
    ensures Zeroing(s, s.m, s.iovs, s.resid, 0, z, s.resid, s.n)
  {
  }

  lemma ZerosFit(s: Start, m: seq<nat>, iovs: seq<Iovec>, resid: nat, d: int, z: nat, t: int, n: nat)
    requires Zeroing(s, m, iovs, resid, d, z, t, n)
    ensures resid < WORD && iovs != [] && z + 16 <= |m| && InBounds(iovs, |m|) && d >= 0
  {
    hide InBounds, ZeroAmount, Zeroed, Cells, Advance, Total;
  }

  lemma ZerosStep(s: Start, m: seq<nat>, iovs: seq<Iovec>, resid: nat, d: nat, z: nat, t: int, n: nat,
                  amt: nat, r: Outcome, m': seq<nat>, iovs': seq<Iovec>, resid': nat)
    requires Zeroing(s, m, iovs, resid, d, z, t, n) && n > 0 && amt == (if n < 16 then n else 16)
    requires InBounds(iovs, |m|) && z + amt <= |m| && InBounds(iovs', |m'|)
    requires var a := Amount(iovs, resid, amt);
             && r == OutcomeOf(a, resid, amt) && m' == Move(m, iovs, z, a, UIO_READ)
             && (r != OutOfBuffers ==> iovs' == Advance(iovs, a) && iovs' != []) && resid' == (resid - a) % WORD
    ensures var a := Amount(iovs, resid, amt);
            && d + a <= Total(s.iovs) && Zeroed(s.m, m', Cells(s.iovs, d + a)) && resid' == (s.resid - (d + a)) % WORD
            && (r != OutOfBuffers ==> (r == Wrapped <==> t >= 0 && t - a < 0))
            && (r == OutOfBuffers ==> ZeroAmount(s.iovs, s.resid, s.n) == d + a && OutcomeOf(d + a, s.resid, s.n) == r)
            && (r != OutOfBuffers ==> Zeroing(s, m', iovs', resid', d + a, z, t - a, n - amt))
  {
    var a := Amount(iovs, resid, amt);
    hide InBounds, ZeroAmount, Zeroed, Cells, Advance, Total, Move, Amount, ZerosAt;
    ResidWord(s.resid, d, t, s.n);
    ResidMinus(s.resid, d, a);
    ZeroAmountStep(iovs, t, n);
    ZerosMore(s, m, iovs, d, z, a);
  }

  lemma ZerosMore(s: Start, m: seq<nat>, iovs: seq<Iovec>, d: nat, z: nat, a: nat)
    requires d <= Total(s.iovs) && iovs == Advance(s.iovs, d) && Zeroed(s.m, m, Cells(s.iovs, d))
    requires a <= 16 && a <= Total(iovs) && InBounds(iovs, |m|) && ZerosAt(m, z)
    ensures z + 16 <= |m| && d + a <= Total(s.iovs) && Advance(iovs, a) == Advance(s.iovs, d + a)
    ensures var m' := Move(m, iovs, z, a, UIO_READ); Zeroed(s.m, m', Cells(s.iovs, d + a)) && ZerosAt(m', z)
  {
    hide Cells, Advance, Move, Total, InBounds, Zeroed, ZerosAt;
    ZerosWithin(m, z);
    AdvanceTotal(s.iovs, d);
    CellsSplit(s.iovs, d, a);
    ZeroMove(m, iovs, z, a, z);
    ZeroedMore(s.m, m, Move(m, iovs, z, a, UIO_READ), Cells(s.iovs, d), Cells(iovs, a));
  }

  lemma ZerosEnd(s: Start, m: seq<nat>, iovs: seq<Iovec>, resid: nat, d: int, z: nat, t: int)
    requires Zeroing(s, m, iovs, resid, d, z, t, 0)
    ensures d >= 0 && InBounds(iovs, |m|) && ZeroAmount(s.iovs, s.resid, s.n) == d && d <= Total(s.iovs)
    ensures Zeroed(s.m, m, Cells(s.iovs, d)) && iovs == Advance(s.iovs, d) && resid == (s.resid - d) % WORD
    ensures OutcomeOf(d, s.resid, s.n) == if t < 0 then Wrapped else Done
  {
    ZeroAmountNone(iovs, t);
    hide InBounds, ZeroAmount, Zeroed, Cells, Advance, Total, ZerosAt;
  }
}
