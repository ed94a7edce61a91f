/**
 * The memory side of the ring queue: the byte buffer, the two byte offsets and
 * the loops that move a buffer of any length in chunks of one element.
 *
 * The semaphores are counters here. A wait returns only when the count is
 * positive, so a method demands the elements or the room it is about to wait
 * for; `QueueProtocol` is about processes that have to wait.
 */
module ByteQueue {
  import opened Modular

  type Bytes = seq<bv8>

  // ---- A ring of `n` slots of `e` bytes, as a value ----

  function SlotOf(buf: Bytes, i: nat, n: nat, e: nat): (slot: Bytes)
    requires i < n && |buf| == Times(n, e)
    ensures |slot| == e
  {
    TimesGrows(i, n, e);
    buf[Times(i, e)..Times(i, e) + e]
  }

  /** The slot `k` places after slot `head`, wrapping around. */
  function Index(head: nat, k: nat, n: nat): (i: nat)
    requires n > 0
    ensures i < n
  {
    Wrap(head + k, n)
  }

  /** The `count` elements from slot `head` on. */
  function Elements(buf: Bytes, head: nat, count: nat, n: nat, e: nat): (c: seq<Bytes>)
    requires head < n && |buf| == Times(n, e)
    ensures |c| == count
    decreases count
  {
    if count == 0 then []
    else [SlotOf(buf, head, n, e)] + Elements(buf, Index(head, 1, n), count - 1, n, e)
  }

  function Overwrite(buf: Bytes, off: nat, piece: Bytes): (r: Bytes)
    requires off + |piece| <= |buf|
    ensures |r| == |buf|
  {
    buf[..off] + piece + buf[off + |piece|..]
  }

  /** Overwriting inside one slot leaves every other slot alone. */
  lemma OverwriteElsewhere(buf: Bytes, j: nat, piece: Bytes, i: nat, n: nat, e: nat)
    requires i < n && j < n && i != j && |buf| == Times(n, e) && |piece| <= e
    ensures Times(j, e) + |piece| <= |buf|
    ensures SlotOf(Overwrite(buf, Times(j, e), piece), i, n, e) == SlotOf(buf, i, n, e)
  {
    TimesGrows(i, n, e);
    TimesGrows(j, n, e);
    if i < j { TimesGrows(i, j, e); } else { TimesGrows(j, i, e); }
  }

  lemma OverwriteHere(buf: Bytes, j: nat, piece: Bytes, n: nat, e: nat)
    requires j < n && |buf| == Times(n, e) && |piece| <= e
    ensures Times(j, e) + |piece| <= |buf|
    ensures SlotOf(Overwrite(buf, Times(j, e), piece), j, n, e) == piece + SlotOf(buf, j, n, e)[|piece|..]
  {
    TimesGrows(j, n, e);
  }

  /** Writing into the first free slot appends one element and keeps the others. */
  lemma {:induction false} WriteAppends(buf: Bytes, head: nat, count: nat, n: nat, e: nat, piece: Bytes)
    requires head < n && |buf| == Times(n, e) && count < n && |piece| <= e
    ensures var tail := Index(head, count, n);
            && Times(tail, e) + |piece| <= |buf|
            && Elements(Overwrite(buf, Times(tail, e), piece), head, count + 1, n, e)
               == Elements(buf, head, count, n, e) + [piece + SlotOf(buf, tail, n, e)[|piece|..]]
    decreases count
  {
    var tail := Index(head, count, n);
    OverwriteHere(buf, tail, piece, n, e);
    if count > 0 {
      WrapApart(head, head + count, n);
      OverwriteElsewhere(buf, tail, piece, head, n, e);
      WrapShift(head + 1, count - 1, n);
      WriteAppends(buf, Index(head, 1, n), count - 1, n, e, piece);
    }
  }

  /** What one write does to the slots and to the offset; returns the bytes the slot keeps. */
  ghost function Appended(
    buf: Bytes, head: nat, count: nat, n: nat, e: nat, last: nat, m: nat, piece: Bytes): (stale: Bytes)
    requires head < n && e > 0 && |buf| == m == Times(n, e) && count < n && |piece| <= e
    requires last == Times(Index(head, count, n), e)
    ensures |stale| == e - |piece| && last + |piece| <= m && last + e <= m
    ensures Elements(Overwrite(buf, last, piece), head, count + 1, n, e)
         == Elements(buf, head, count, n, e) + [piece + stale]
    ensures (last + e) % m == Times(Index(head, count + 1, n), e)
  {
    var tail := Index(head, count, n);
    WriteAppends(buf, head, count, n, e, piece);
    NextOffset(tail, n, e, m);
    WrapShift(head + count, 1, n);
    TimesGrows(tail, n, e);
    SlotOf(buf, tail, n, e)[|piece|..]
  }

  /** What one read does. */
  lemma Dropped(buf: Bytes, head: nat, count: nat, n: nat, e: nat, m: nat)
    requires head < n && e > 0 && |buf| == m == Times(n, e) && 0 < count
    ensures var first, next := Times(head, e), Index(head, 1, n);
            && first + e <= m && Elements(buf, head, count, n, e)[0] == buf[first..first + e]
            && Elements(buf, next, count - 1, n, e) == Elements(buf, head, count, n, e)[1..]
            && (first + e) % m == Times(next, e)
            && Index(next, count - 1, n) == Index(head, count, n)
  {
    NextOffset(head, n, e, m);
    WrapShift(head + 1, count - 1, n);
    TimesGrows(head, n, e);
  }

  // ---- Splitting a buffer into elements ----

  /** How many elements carry `n` bytes. */
  function Chunks(n: nat, e: nat): nat
    requires e > 0
  {
    n / e + (if n % e == 0 then 0 else 1)
  }

  function Flatten(elems: seq<Bytes>): Bytes {
    if elems == [] then [] else elems[0] + Flatten(elems[1..])
  }

  lemma {:induction false} FlattenAppend(elems: seq<Bytes>, more: Bytes)
    ensures Flatten(elems + [more]) == Flatten(elems) + more
  {
    if elems == [] {
      assert [] + [more] == [more] && [more][1..] == [];
    } else {
      FlattenAppend(elems[1..], more);
      assert (elems + [more])[1..] == elems[1..] + [more];
    }
  }

  class Queue {
    const maxNumElems: nat
    const elemSize: nat
    const buffSize: nat
    const shm: array<bv8>
    var firstElem: nat
    var lastElem: nat
    var semNumElems: nat
    var semNumEmpty: nat

    /** The slot the oldest element is in. */
    ghost var head: nat

    ghost predicate Valid()
      reads this
    {
      && maxNumElems > 0 && elemSize > 0
      && shm.Length == buffSize == Times(maxNumElems, elemSize)
      && head < maxNumElems
      && semNumElems + semNumEmpty == maxNumElems
      && firstElem == Times(head, elemSize)
      && lastElem == Times(Index(head, semNumElems, maxNumElems), elemSize)
    }

    /** The elements in the queue, oldest first. */
    ghost function Contents(): (c: seq<Bytes>)
      reads this, shm
      requires Valid()
    {
      Elements(shm[..], head, semNumElems, maxNumElems, elemSize)
    }

    constructor (maxNumElems: nat, elemSize: nat)
      requires maxNumElems > 0 && elemSize > 0
      ensures Valid() && Contents() == [] && fresh(shm)
      ensures this.maxNumElems == maxNumElems && this.elemSize == elemSize && semNumEmpty == maxNumElems
    {
      this.maxNumElems, this.elemSize := maxNumElems, elemSize;
      buffSize := maxNumElems * elemSize;
      shm := new bv8[maxNumElems * elemSize];
      firstElem, lastElem, semNumElems, semNumEmpty, head := 0, 0, 0, maxNumElems, 0;
      new;
      TimesIsProduct(maxNumElems, elemSize);
    }

    /** `_write`: copies at most one element to the end of the queue; `stale` is what the slot keeps. */
    method WriteElem(data: array<bv8>, off: nat, numBytes: nat) returns (ghost stale: Bytes)
      requires Valid() && data != shm && semNumEmpty > 0
      requires numBytes <= elemSize && off + numBytes <= data.Length
      modifies this, shm
      ensures Valid() && semNumEmpty == old(semNumEmpty) - 1
      ensures Contents() == old(Contents()) + [data[off..off + numBytes] + stale]
      ensures |stale| == elemSize - numBytes
    {
      ghost var buf, piece := shm[..], data[off..off + numBytes];
      stale := Appended(buf, head, semNumElems, maxNumElems, elemSize, lastElem, buffSize, piece);
      semNumEmpty := semNumEmpty - 1;
      Memcpy(shm, lastElem, data, off, numBytes);
      assert shm[..] == Overwrite(buf, lastElem, piece);
      lastElem := (lastElem + elemSize) % buffSize;
      semNumElems := semNumElems + 1;
    }

    /** `_read`: copies the oldest element, or its first bytes, out of the queue. */
    method ReadElem(dst: array<bv8>, off: nat, numBytes: nat)
      requires Valid() && dst != shm && semNumElems > 0
      requires numBytes <= elemSize && off + numBytes <= dst.Length
      modifies this, dst
      ensures Valid() && semNumElems == old(semNumElems) - 1
      ensures |old(Contents())[0]| == elemSize && Contents() == old(Contents())[1..]
      ensures dst[..] == Overwrite(old(dst[..]), off, old(Contents())[0][..numBytes])
    {
      ghost var buf := shm[..];
      Dropped(buf, head, semNumElems, maxNumElems, elemSize, buffSize);
      assert buf[firstElem..firstElem + elemSize][..numBytes] == buf[firstElem..firstElem + numBytes];
      semNumElems := semNumElems - 1;
      Memcpy(dst, off, shm, firstElem, numBytes);
      assert shm[..] == buf;
      firstElem := (firstElem + elemSize) % buffSize;
      head := Index(head, 1, maxNumElems);
      semNumEmpty := semNumEmpty + 1;
    }

    /** The loop of `write` over full elements. */
    method WriteFull(data: array<bv8>, nWrites: nat) returns (ghost sent: seq<Bytes>)
      requires Valid() && data != shm && Times(nWrites, elemSize) <= data.Length
      requires semNumEmpty >= nWrites
      modifies this, shm
      ensures Valid() && semNumEmpty == old(semNumEmpty) - nWrites
      ensures |sent| == nWrites && Contents() == old(Contents()) + sent
      ensures Flatten(sent) == data[..Times(nWrites, elemSize)]
    {
      ghost var d := data[..];
      sent := [];
      var i, off := 0, 0;
      while i < nWrites
        invariant 0 <= i <= nWrites && |sent| == i && Valid()
        invariant semNumEmpty == old(semNumEmpty) - i
        invariant Contents() == old(Contents()) + sent
        invariant off == Times(i, elemSize) <= data.Length
        invariant Flatten(sent) == d[..off] && data[..] == d
      {
        FullChunkFits(i, nWrites, elemSize);
        ghost var stale := WriteElem(data, off, elemSize);
        sent := Carried(sent, d, off, d[off..off + elemSize] + stale, elemSize);
        i, off := i + 1, off + elemSize;
      }
    }

    /** `write`: the new elements carry the data, chunk by chunk. */
    method Write(data: array<bv8>, numBytes: nat)
      requires Valid() && data != shm && numBytes <= data.Length
      requires semNumEmpty >= Chunks(numBytes, elemSize)
      modifies this, shm
      ensures Valid()
      ensures |Contents()| == |old(Contents())| + Chunks(numBytes, elemSize)
      ensures Contents()[..|old(Contents())|] == old(Contents())
      ensures data[..numBytes] <= Flatten(Contents()[|old(Contents())|..])
    {
      var nWrites, r := numBytes / elemSize, numBytes % elemSize;
      ghost var had, d := Contents(), data[..];
      Division(numBytes, elemSize);
      ghost var sent := WriteFull(data, nWrites);
      if r != 0 {
        ghost var off := numBytes - r;
        ghost var stale := WriteElem(data, numBytes - r, r);
        sent := Carried(sent, d, off, d[off..numBytes] + stale, r);
      }
      assert Contents() == had + sent;
      assert Contents()[|had|..] == sent;
    }

    /** The loop of `read` over full elements. */
    method ReadFull(dst: array<bv8>, nReads: nat)
      requires Valid() && dst != shm && Times(nReads, elemSize) <= dst.Length
      requires semNumElems >= nReads
      modifies this, dst
      ensures Valid() && semNumElems == old(semNumElems) - nReads
      ensures Contents() == old(Contents())[nReads..]
      ensures dst[..Times(nReads, elemSize)] == Flatten(old(Contents())[..nReads])
      ensures dst[Times(nReads, elemSize)..] == old(dst[Times(nReads, elemSize)..])
    {
      ghost var had, d0, got := Contents(), dst[..], [];
      var i, off := 0, 0;
      while i < nReads
        invariant 0 <= i <= nReads && Valid()
        invariant semNumElems == old(semNumElems) - i && |had| == old(semNumElems)
        invariant Contents() == had[i..]
        invariant off == Times(i, elemSize) <= |d0|
        invariant got == Flatten(had[..i]) && |got| == off && dst[..] == got + d0[off..]
      {
        FullChunkFits(i, nReads, elemSize);
        ReadElem(dst, off, elemSize);
        got := Filled(d0, got, had, i, elemSize);
        i, off := i + 1, off + elemSize;
      }
      assert dst[..off] == got;
    }

    /** `read`: fills the buffer with the bytes the oldest elements carry. */
    method Read(dst: array<bv8>, numBytes: nat)
      requires Valid() && dst != shm && numBytes <= dst.Length
      requires semNumElems >= Chunks(numBytes, elemSize)
      modifies this, dst
      ensures Valid()
      ensures Contents() == old(Contents())[Chunks(numBytes, elemSize)..]
      ensures dst[..numBytes] <= Flatten(old(Contents())[..Chunks(numBytes, elemSize)])
      ensures dst[numBytes..] == old(dst[numBytes..])
    {
      var nReads, r := numBytes / elemSize, numBytes % elemSize;
      ghost var had, d0 := Contents(), dst[..];
      Division(numBytes, elemSize);
      ReadFull(dst, nReads);
      if r != 0 {
        ghost var off := numBytes - r;
        ghost var got := dst[..off];
        assert dst[..] == got + d0[off..];
        ReadElem(dst, numBytes - r, r);
        got := Filled(d0, got, had, nReads, r);
        assert dst[..numBytes] == got;
        assert dst[..] == got + d0[numBytes..];
      }
    }
  }

  lemma FullChunkFits(i: nat, n: nat, e: nat)
    requires i < n
    ensures Times(i, e) + e <= Times(n, e) && Times(i + 1, e) == Times(i, e) + e
  {
    TimesGrows(i, n, e);
  }

  /** One more element carries the next bytes of the data. */
  ghost function Carried(sent: seq<Bytes>, d: Bytes, off: nat, piece: Bytes, n: nat): (more: seq<Bytes>)
    requires off + n <= |d| && n <= |piece| && piece[..n] == d[off..off + n] && Flatten(sent) == d[..off]
    ensures more == sent + [piece]
    ensures d[..off + n] <= Flatten(more)
    ensures n == |piece| ==> Flatten(more) == d[..off + n]
  {
    FlattenAppend(sent, piece);
    assert d[..off + n] == d[..off] + d[off..off + n];
    assert piece[..n] <= piece && piece[..|piece|] == piece;
    sent + [piece]
  }

  /** Copying the first bytes of the next element extends what has been gathered. */
  ghost function Filled(d0: Bytes, got: Bytes, had: seq<Bytes>, i: nat, n: nat): (more: Bytes)
    requires i < |had| && n <= |had[i]| && |got| + n <= |d0| && got == Flatten(had[..i])
    ensures Flatten(had[..i + 1]) == got + had[i] && |more| == |got| + n
    ensures more <= Flatten(had[..i + 1]) && (n == |had[i]| ==> more == Flatten(had[..i + 1]))
    ensures Overwrite(got + d0[|got|..], |got|, had[i][..n]) == more + d0[|got| + n..]
    ensures had[i..][0] == had[i] && had[i..][1..] == had[i + 1..]
  {
    assert had[..i + 1] == had[..i] + [had[i]];
    FlattenAppend(had[..i], had[i]);
    got + had[i][..n]
  }

  method Memcpy(dst: array<bv8>, dstOff: nat, src: array<bv8>, srcOff: nat, n: nat)
    requires dst != src && dstOff + n <= dst.Length && srcOff + n <= src.Length
    modifies dst
    ensures dst[..] == Overwrite(old(dst[..]), dstOff, src[srcOff..srcOff + n])
  {
    var j := 0;
    while j < n
      invariant 0 <= j <= n
      invariant dst[..] == Overwrite(old(dst[..]), dstOff, src[srcOff..srcOff + j])
    {
      dst[dstOff + j] := src[srcOff + j];
      j := j + 1;
    }
  }
}
