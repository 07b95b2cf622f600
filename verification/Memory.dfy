/** common/libc/string/memcpy.c and memmove.c on one flat memory of bytes. */
module Memory {

  /** sizeof(long) */
  const LONG: nat := 4

  /** Memory after len bytes at src have been copied to dst all at once. */
  function Copied(m: seq<nat>, dst: nat, src: nat, len: nat): (m': seq<nat>)
    requires dst + len <= |m| && src + len <= |m|
    ensures |m'| == |m|
  {
    m[..dst] + m[src..src + len] + m[dst + len..]
  }

  lemma CopiedAt(m: seq<nat>, dst: nat, src: nat, len: nat, i: nat)
    requires dst + len <= |m| && src + len <= |m| && i < |m|
    ensures Copied(m, dst, src, len)[i] == if dst <= i < dst + len then m[src + (i - dst)] else m[i]
  {
  }

  predicate Aligned(dst: nat, src: nat, len: nat)
  {
    dst % LONG == 0 && src % LONG == 0 && len % LONG == 0
  }

  /** The first n bytes have been copied, everything else is as before. */
  predicate Forward(m: seq<nat>, m': seq<nat>, dst: nat, src: nat, n: nat)
    requires dst + n <= |m| && src + n <= |m|
  {
    && |m'| == |m|
    && (forall k :: dst <= k < dst + n ==> m'[k] == m[src + (k - dst)])
    && (forall k :: 0 <= k < |m| && !(dst <= k < dst + n) ==> m'[k] == m[k])
  }

  lemma ForwardIsCopy(m: seq<nat>, m': seq<nat>, dst: nat, src: nat, n: nat)
    requires dst + n <= |m| && src + n <= |m|
    ensures Forward(m, m', dst, src, n) <==> m' == Copied(m, dst, src, n)
  {
    var c := Copied(m, dst, src, n);
    assert forall k :: 0 <= k < |m| ==> c[k] == if dst <= k < dst + n then m[src + (k - dst)] else m[k];
  }

  /** A step of a forward copy with the destination not above the source. */
  lemma ForwardStep(m: seq<nat>, m': seq<nat>, dst: nat, src: nat, n: nat, w: nat)
    requires dst + n + w <= |m| && src + n + w <= |m| && Forward(m, m', dst, src, n)
    requires dst <= src || src + n + w <= dst
    ensures Forward(m, Copied(m', dst + n, src + n, w), dst, src, n + w)
  {
    var c := Copied(m', dst + n, src + n, w);
    assert forall k :: 0 <= k < |m| ==>
             c[k] == if dst + n <= k < dst + n + w then m'[src + n + (k - (dst + n))] else m'[k];
  }

  /** `d[i] = s[i]` for longs: a whole word is read and then written. */
  method CopyLong(mem: array<nat>, d: nat, s: nat)
    requires d + LONG <= mem.Length && s + LONG <= mem.Length
    modifies mem
    ensures mem[..] == Copied(old(mem[..]), d, s, LONG)
  {
    ghost var m := mem[..];
    var b0, b1, b2, b3 := mem[s], mem[s + 1], mem[s + 2], mem[s + 3];
    mem[d] := b0;
    mem[d + 1] := b1;
    mem[d + 2] := b2;
    mem[d + 3] := b3;
    assert Forward(m, mem[..], d, s, LONG);
    ForwardIsCopy(m, mem[..], d, s, LONG);
  }

  /** `d[i] = s[i]` for chars. */
  method CopyChar(mem: array<nat>, d: nat, s: nat)
    requires d < mem.Length && s < mem.Length
    modifies mem
    ensures mem[..] == Copied(old(mem[..]), d, s, 1)
  {
    ghost var m := mem[..];
    mem[d] := mem[s];
    assert Forward(m, mem[..], d, s, 1);
    ForwardIsCopy(m, mem[..], d, s, 1);
  }

  method ForwardLongs(mem: array<nat>, dst: nat, src: nat, n: nat)
    requires dst + 4 * n <= mem.Length && src + 4 * n <= mem.Length
    requires dst <= src || src + 4 * n <= dst
    modifies mem
    ensures Forward(old(mem[..]), mem[..], dst, src, 4 * n)
  {
    hide Forward, Copied;
    ghost var m := mem[..];
    ForwardNone(m, dst, src);
    for i := 0 to n
      invariant Forward(m, mem[..], dst, src, 4 * i)
    {
      ghost var m1 := mem[..];
      var k := 4 * i;
      ForwardStep(m, m1, dst, src, k, 4);
      CopyLong(mem, dst + k, src + k);
      assert mem[..] == Copied(m1, dst + k, src + k, 4);
    }
  }

  method ForwardChars(mem: array<nat>, dst: nat, src: nat, n: nat)
    requires dst + n <= mem.Length && src + n <= mem.Length
    requires dst <= src || src + n <= dst
    modifies mem
    ensures Forward(old(mem[..]), mem[..], dst, src, n)
  {
    hide Forward, Copied;
    ghost var m := mem[..];
    ForwardNone(m, dst, src);
    for i := 0 to n
      invariant Forward(m, mem[..], dst, src, i)
    {
      ghost var m1 := mem[..];
      ForwardStep(m, m1, dst, src, i, 1);
      CopyChar(mem, dst + i, src + i);
      assert mem[..] == Copied(m1, dst + i, src + i, 1);
    }
  }

  /** memcpy copies forwards, by longs if everything is aligned.  If the destination does not
      overlap the source from above, the result is the copy all at once. */
  method Memcpy(mem: array<nat>, dst: nat, src: nat, len: nat)
    requires dst + len <= mem.Length && src + len <= mem.Length
    requires dst <= src || src + len <= dst
    modifies mem
    ensures mem[..] == Copied(old(mem[..]), dst, src, len)
  {
    ghost var m := mem[..];
    if Aligned(dst, src, len) {
      ForwardLongs(mem, dst, src, len / LONG);
    } else {
      ForwardChars(mem, dst, src, len);
    }
    hide Forward, Copied;
    ForwardIsCopy(m, mem[..], dst, src, len);
  }

  lemma ForwardNone(m: seq<nat>, dst: nat, src: nat)
    requires dst <= |m| && src <= |m|
    ensures Forward(m, m, dst, src, 0)
  {
  }

  /** A step of a backward copy with the destination not below the source. */
  lemma BackwardStep(m: seq<nat>, m': seq<nat>, dst: nat, src: nat, n: nat, w: nat)
    requires w <= src <= dst && dst + n <= |m| && Forward(m, m', dst, src, n)
    ensures Forward(m, Copied(m', dst - w, src - w, w), dst - w, src - w, n + w)
  {
    var c := Copied(m', dst - w, src - w, w);
    assert forall k :: 0 <= k < |m| ==> c[k] == if dst - w <= k < dst then m'[src - w + (k - (dst - w))] else m'[k];
  }

  method BackwardLongs(mem: array<nat>, dst: nat, src: nat, n: nat)
    requires src <= dst && dst + 4 * n <= mem.Length
    modifies mem
    ensures Forward(old(mem[..]), mem[..], dst, src, 4 * n)
  {
    hide Forward, Copied;
    ghost var m := mem[..];
    ForwardNone(m, dst + 4 * n, src + 4 * n);
    var i := n;
    while i > 0
      invariant 0 <= i <= n && Forward(m, mem[..], dst + 4 * i, src + 4 * i, 4 * n - 4 * i)
    {
      ghost var m1 := mem[..];
      i := i - 1;
      var d, s := dst + 4 * i, src + 4 * i;
      BackwardStep(m, m1, d + 4, s + 4, 4 * n - 4 * i - 4, 4);
      CopyLong(mem, d, s);
      assert mem[..] == Copied(m1, d, s, 4);
    }
  }

  method BackwardChars(mem: array<nat>, dst: nat, src: nat, n: nat)
    requires src <= dst && dst + n <= mem.Length
    modifies mem
    ensures Forward(old(mem[..]), mem[..], dst, src, n)
  {
    hide Forward, Copied;
    ghost var m := mem[..];
    ForwardNone(m, dst + n, src + n);
    var i := n;
    while i > 0
      invariant 0 <= i <= n && Forward(m, mem[..], dst + i, src + i, n - i)
    {
      ghost var m1 := mem[..];
      i := i - 1;
      BackwardStep(m, m1, dst + i + 1, src + i + 1, n - i - 1, 1);
      CopyChar(mem, dst + i, src + i);
      assert mem[..] == Copied(m1, dst + i, src + i, 1);
    }
  }

  /** memmove: whatever the overlap, the result is the copy all at once. */
  method Memmove(mem: array<nat>, dst: nat, src: nat, len: nat)
    requires dst + len <= mem.Length && src + len <= mem.Length
    modifies mem
    ensures mem[..] == Copied(old(mem[..]), dst, src, len)
  {
    ghost var m := mem[..];
    if dst < src {
      Memcpy(mem, dst, src, len);
      return;
    }
    if Aligned(dst, src, len) {
      BackwardLongs(mem, dst, src, len / LONG);
    } else {
      BackwardChars(mem, dst, src, len);
    }
    hide Forward, Copied;
    ForwardIsCopy(m, mem[..], dst, src, len);
  }
}
