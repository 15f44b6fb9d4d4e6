/**
 HeapAllocator: the heap kept in two mutable indices over the free blocks, one by address and
 one by size.
 */
module HeapAllocators {
  import opened Bits
  import opened Blocks
  import opened Heaps

  /** An entry of the size index: (size, address), ordered by size. */
  type SizeIndex = seq<(nat, nat)>

  predicate Sorted(idx: SizeIndex) { forall i, j :: 0 <= i < j < |idx| ==> idx[i].0 <= idx[j].0 }

  predicate Listed(free: BlockMap, idx: SizeIndex, a: nat) { a in free ==> (free[a], a) in idx }

  /** Both indices hold exactly the same blocks, each once. */
  ghost predicate Agree(free: BlockMap, idx: SizeIndex) {
    && Sorted(idx)
    && (forall i, j :: 0 <= i < j < |idx| ==> idx[i] != idx[j])
    && (forall i :: 0 <= i < |idx| ==> idx[i].1 in free && free[idx[i].1] == idx[i].0)
    && (forall a: nat {:trigger Listed(free, idx, a)} :: Listed(free, idx, a))
  }

  lemma AgreeRemove(free: BlockMap, idx: SizeIndex, k: nat)
    requires Agree(free, idx) && k < |idx|
    ensures Agree(free - {idx[k].1}, idx[..k] + idx[k + 1..])
  {
    var idx', free' := idx[..k] + idx[k + 1..], free - {idx[k].1};
    forall i | 0 <= i < |idx'| ensures idx'[i] == idx[if i < k then i else i + 1] {}
    forall a: nat ensures Listed(free', idx', a) {
      if a in free' {
        assert Listed(free, idx, a);
        var i :| 0 <= i < |idx| && idx[i] == (free[a], a);
        assert idx'[if i < k then i else i - 1] == idx[i];
      }
    }
  }

  lemma AgreeInsert(free: BlockMap, idx: SizeIndex, a: nat, n: nat, k: nat)
    requires Agree(free, idx) && a !in free && k <= |idx|
    requires forall j :: 0 <= j < k ==> idx[j].0 <= n
    requires forall j :: k <= j < |idx| ==> idx[j].0 > n
    ensures Agree(free[a := n], idx[..k] + [(n, a)] + idx[k..])
  {
    var idx', free' := idx[..k] + [(n, a)] + idx[k..], free[a := n];
    forall i | 0 <= i < |idx'| && i != k ensures idx'[i] == idx[if i < k then i else i - 1] {}
    assert idx'[k] == (n, a);
    forall b: nat ensures Listed(free', idx', b) {
      if b in free && b != a {
        assert Listed(free, idx, b);
        var i :| 0 <= i < |idx| && idx[i] == (free[b], b);
        assert idx'[if i < k then i else i + 1] == idx[i];
      }
    }
  }

  /** The least key not below a, as std::map::lower_bound finds it. */
  method LowerBound(m: BlockMap, a: nat) returns (found: bool, key: nat)
    ensures found <==> exists k :: k in m && a <= k
    ensures found ==> key in m && a <= key && forall k :: k in m && a <= k ==> key <= k
  {
    var keys := m.Keys;
    found, key := false, 0;
    while keys != {}
      invariant keys <= m.Keys
      invariant !found ==> forall k :: k in m && a <= k ==> k in keys
      invariant found ==> key in m && a <= key && forall k :: k in m && a <= k ==> k in keys || key <= k
      decreases keys
    {
      var k :| k in keys;
      if a <= k && (!found || k < key) { found, key := true, k; }
      keys := keys - {k};
    }
  }

  /** The greatest key below a: std::prev of the lower bound. */
  method Predecessor(m: BlockMap, a: nat) returns (found: bool, key: nat)
    ensures found <==> exists k :: k in m && k < a
    ensures found ==> key in m && key < a && forall k :: k in m && k < a ==> k <= key
  {
    var keys := m.Keys;
    found, key := false, 0;
    while keys != {}
      invariant keys <= m.Keys
      invariant !found ==> forall k :: k in m && k < a ==> k in keys
      invariant found ==> key in m && key < a && forall k :: k in m && k < a ==> k in keys || k <= key
      decreases keys
    {
      var k :| k in keys;
      if k < a && (!found || k > key) { found, key := true, k; }
      keys := keys - {k};
    }
  }

  /** Search the entries of size n for the one of block a. */
  method FindEntry(idx: SizeIndex, n: nat, a: nat) returns (i: nat)
    requires Sorted(idx) && (n, a) in idx
    ensures i < |idx| && idx[i] == (n, a)
  {
    i := 0;
    while idx[i].0 < n
      invariant i < |idx| && (n, a) in idx[i..]
      decreases |idx| - i
    { i := i + 1; }
    while idx[i].1 != a
      invariant i < |idx| && (n, a) in idx[i..] && idx[i].0 == n
      decreases |idx| - i
    { i := i + 1; }
  }

  /** Where a block added at a will start: at the block before it, if that one ends at a. */
  function LeftOf(m: BlockMap, a: nat, hasPrev: bool, prev: nat): (left: nat)
    ensures left == a || (left in m && left < a && left + m[left] == a)
  { if hasPrev && prev in m && prev < a && prev + m[prev] == a then prev else a }

  /** What lower_bound and its predecessor say about the neighbours of [a, a + n). */
  lemma Neighbours(m: BlockMap, a: nat, n: nat, hasPrev: bool, prev: nat, hasNext: bool, next: nat)
    requires Normal(m) && n > 0 && (forall x :: a <= x < a + n ==> !Covers(m, x))
    requires hasPrev <==> exists k :: k in m && k < a
    requires hasPrev ==> prev in m && prev < a && forall k :: k in m && k < a ==> k <= prev
    requires hasNext <==> exists k :: k in m && a <= k
    requires hasNext ==> next in m && a <= next && forall k :: k in m && a <= k ==> next <= k
    ensures Mergeable(m, a, n, LeftOf(m, a, hasPrev, prev))
    ensures a !in m && (a + n in m <==> hasNext && next == a + n)
  {
    assert !Covers(m, a);
    if hasNext { Inside(m, next, next); }
    forall p | p in m && p + m[p] == a ensures p == prev && hasPrev {}
  }

  /** Removing a block and adding back what the allocation does not use cuts just what it uses. */
  lemma CarveCuts(f0: BlockMap, f1: BlockMap, f2: BlockMap, f3: BlockMap, a: nat, n: nat, pad: nat, used: nat)
    requires a in f0 && pad + used <= f0[a] && f1 == f0 - {a} && Normal(f0)
    requires Adds(f1, a, pad, f2) && Adds(f2, a + pad + used, f0[a] - pad - used, f3)
    ensures Cuts(f0, a + pad, used, f3)
  {
    RemoveCuts(f0, a);
    forall x ensures Covers(f3, x) <==> Covers(f0, x) && !(a + pad <= x < a + pad + used) {
      assert Covers(f3, x) <==> Covers(f2, x) || a + pad + used <= x < a + f0[a];
      assert Covers(f2, x) <==> Covers(f1, x) || a <= x < a + pad;
      assert Covers(f1, x) <==> Covers(f0, x) && !(a <= x < a + f0[a]);
      Inside(f0, a, x);
    }
  }

  class HeapAllocator {
    const base: nat
    const size: nat
    var highWaterMark: nat
    var allocations: BlockMap
    var freeBlocks: BlockMap
    var freeBlocksBySize: SizeIndex

    function Now(): Heap
      reads this
    { Heap(base, size, highWaterMark, allocations, freeBlocks) }

    ghost predicate Valid()
      reads this
    { Inv(Now()) && Agree(freeBlocks, freeBlocksBySize) }

    constructor (base: nat, size: nat)
      requires 0 < base && base + size <= LIMIT
      ensures Valid() && Now() == Heap(base, size, base, map[], map[])
    {
      this.base, this.size, highWaterMark := base, size, base;
      allocations, freeBlocks, freeBlocksBySize := map[], map[], [];
    }

    method RemoveFreeBlock(a: nat, n: nat)
      requires Agree(freeBlocks, freeBlocksBySize) && a in freeBlocks && freeBlocks[a] == n
      modifies this`freeBlocks, this`freeBlocksBySize
      ensures freeBlocks == old(freeBlocks) - {a} && Agree(freeBlocks, freeBlocksBySize)
    {
      assert Listed(freeBlocks, freeBlocksBySize, a);
      var i := FindEntry(freeBlocksBySize, n, a);
      AgreeRemove(freeBlocks, freeBlocksBySize, i);
      freeBlocks := freeBlocks - {a};
      freeBlocksBySize := freeBlocksBySize[..i] + freeBlocksBySize[i + 1..];
    }

    method InsertBySize(n: nat, a: nat, ghost free: BlockMap)
      requires Agree(free, freeBlocksBySize) && a !in free
      modifies this`freeBlocksBySize
      ensures Agree(free[a := n], freeBlocksBySize)
    {
      var idx, i := freeBlocksBySize, 0;
      while i < |idx| && idx[i].0 <= n
        invariant 0 <= i <= |idx| && forall j :: 0 <= j < i ==> idx[j].0 <= n
      { i := i + 1; }
      AgreeInsert(free, idx, a, n, i);
      freeBlocksBySize := idx[..i] + [(n, a)] + idx[i..];
    }

    /** Drop the block before a if it ends there, and say where the merged block starts. */
    method TakeLeft(a: nat, n: nat, hasPrev: bool, prev: nat) returns (newAddr: nat, newSize: nat)
      requires Agree(freeBlocks, freeBlocksBySize) && (hasPrev ==> prev in freeBlocks && prev < a)
      modifies this`freeBlocks, this`freeBlocksBySize
      ensures Agree(freeBlocks, freeBlocksBySize)
      ensures newAddr == LeftOf(old(freeBlocks), a, hasPrev, prev)
      ensures newAddr == a ==> newSize == n && freeBlocks == old(freeBlocks)
      ensures newAddr != a ==> newAddr in old(freeBlocks) && newSize == old(freeBlocks)[newAddr] + n
                               && freeBlocks == old(freeBlocks) - {newAddr}
    {
      newAddr, newSize := a, n;
      if hasPrev {
        var prevSize := freeBlocks[prev];
        if prev + prevSize == a {
          RemoveFreeBlock(prev, prevSize);
          newAddr, newSize := prev, prevSize + n;
        }
      }
    }

    /** Drop the block after the new one if it starts there. */
    method TakeRight(newAddr: nat, size0: nat, hasNext: bool, next: nat) returns (newSize: nat)
      requires Agree(freeBlocks, freeBlocksBySize) && (hasNext ==> next in freeBlocks)
      modifies this`freeBlocks, this`freeBlocksBySize
      ensures Agree(freeBlocks, freeBlocksBySize)
      ensures if hasNext && newAddr + size0 == next
              then newSize == size0 + old(freeBlocks)[next] && freeBlocks == old(freeBlocks) - {next}
              else newSize == size0 && freeBlocks == old(freeBlocks)
    {
      newSize := size0;
      if hasNext {
        var nextSize := freeBlocks[next];
        if newAddr + newSize == next {
          RemoveFreeBlock(next, nextSize);
          newSize := newSize + nextSize;
        }
      }
    }

    /** Add a free block, merging it with its neighbours at once. */
    method AddFreeBlock(a: nat, n: nat)
      requires Normal(freeBlocks) && Agree(freeBlocks, freeBlocksBySize) && n > 0
      requires forall x :: a <= x < a + n ==> !Covers(freeBlocks, x)
      modifies this`freeBlocks, this`freeBlocksBySize
      ensures Adds(old(freeBlocks), a, n, freeBlocks) && Agree(freeBlocks, freeBlocksBySize)
    {
      var hasNext, next := LowerBound(freeBlocks, a);
      var hasPrev, prev := Predecessor(freeBlocks, a);
      Neighbours(freeBlocks, a, n, hasPrev, prev, hasNext, next);
      MergedAdds(freeBlocks, a, n, LeftOf(freeBlocks, a, hasPrev, prev));
      Coalesce(a, n, hasPrev, prev, hasNext, next);
    }

    method Coalesce(a: nat, n: nat, hasPrev: bool, prev: nat, hasNext: bool, next: nat)
      requires Agree(freeBlocks, freeBlocksBySize) && n > 0 && a !in freeBlocks
      requires (hasPrev ==> prev in freeBlocks && prev < a) && (hasNext ==> next in freeBlocks && a <= next)
      requires a + n in freeBlocks <==> hasNext && next == a + n
      modifies this`freeBlocks, this`freeBlocksBySize
      ensures freeBlocks == Merged(old(freeBlocks), a, n, LeftOf(old(freeBlocks), a, hasPrev, prev))
      ensures Agree(freeBlocks, freeBlocksBySize)
    {
      var newAddr, newSize := TakeLeft(a, n, hasPrev, prev);
      assert newAddr + newSize == a + n;
      newSize := TakeRight(newAddr, newSize, hasNext, next);
      assert freeBlocks == old(freeBlocks) - {newAddr, a + n};
      InsertBySize(newSize, newAddr, freeBlocks);
      freeBlocks := freeBlocks[newAddr := newSize];
    }

    /** The first entry of the size index, among those of size at least n, that fits. */
    method FindBest(n: nat, al: nat) returns (found: bool, a: nat)
      requires Valid() && n > 0 && PowerOfTwo(al) && 0 < al <= U64
      ensures found ==> Best(Now(), a, n, al)
      ensures !found ==> NoFit(Now(), n, al)
    {
      var idx, i := freeBlocksBySize, 0;
      while i < |idx| && idx[i].0 < n
        invariant 0 <= i <= |idx|
        invariant forall j :: 0 <= j < i ==> idx[j].0 < n
      { i := i + 1; }
      SmallerDoNotFit(Now(), idx, i, n, al);
      while i < |idx|
        invariant 0 <= i <= |idx|
        invariant NoneFits(Now(), idx, i, n, al)
      {
        var blockSize, blockAddr := idx[i].0, idx[i].1;
        var padding := AlignUp(blockAddr, al) - blockAddr;
        if blockSize >= n + padding {
          FirstIsBest(Now(), idx, i, n, al);
          return true, blockAddr;
        }
        i := i + 1;
      }
      NothingFits(Now(), idx, n, al);
      found, a := false, 0;
    }

    method Carve(a: nat, n: nat, al: nat) returns (r: nat)
      requires Valid() && n > 0 && PowerOfTwo(al) && 0 < al <= U64 && Fits(Now(), a, n, al)
      modifies this
      ensures r == AlignUp(a, al) && Carves(old(Now()), a, n, al, Now()) && Agree(freeBlocks, freeBlocksBySize)
    {
      CarveRange(Now(), a, n, al);
      ghost var h, used := Now(), Used(Now(), a, n, al);
      var blockSize := freeBlocks[a];
      r := AlignUp(a, al);
      var padding := r - a;
      RemoveFreeBlock(a, blockSize);
      RemoveCuts(h.free, a);
      ghost var f1 := freeBlocks;
      if padding > 0 {
        AddFreeBlock(a, padding);
      }
      ghost var f2 := freeBlocks;
      assert Adds(f1, a, padding, f2);
      var remaining := blockSize - n - padding;
      if remaining >= 16 {
        AddFreeBlock(r + n, remaining);
      }
      assert Adds(f2, a + padding + used, blockSize - padding - used, freeBlocks);
      CarveCuts(h.free, f1, f2, freeBlocks, a, n, padding, used);
      allocations := allocations[r := n];
    }

    /** Afterwards the heap is valid again exactly if the frontier sum did not overflow. */
    method Allocate(n0: nat, al: nat) returns (r: nat)
      requires Valid() && n0 < U64 && PowerOfTwo(al) && 0 < al <= U64
      modifies this
      ensures Allocates(old(Now()), n0, al, r, Now()) && Agree(freeBlocks, freeBlocksBySize)
      ensures Valid() <==> !Overflows(old(Now()), n0, al)
    {
      var n := if n0 == 0 then 1 else n0;
      var found, a := FindBest(n, al);
      if found {
        r := Carve(a, n, al);
      } else {
        r := AlignUp(highWaterMark, al);
        if Add64(r, n) > base + size {
          r := 0;
        } else {
          highWaterMark := Add64(r, n);
          allocations := allocations[r := n];
        }
      }
      AllocateInv(old(Now()), n0, al, r, Now());
    }

    /** Enough order to give block a back: also what an overflowing allocation leaves. */
    ghost predicate Freeable(a: nat)
      reads this
    {
      && Normal(freeBlocks) && Agree(freeBlocks, freeBlocksBySize)
      && (a in allocations ==> 0 < allocations[a] && forall x :: a <= x < a + allocations[a] ==> !Covers(freeBlocks, x))
    }

    method Free(a: nat)
      requires Freeable(a)
      modifies this
      ensures Frees(old(Now()), a, Now()) && Agree(freeBlocks, freeBlocksBySize)
      ensures old(Valid()) ==> Valid()
    {
      if a != 0 {
        if a in allocations {
          var freedSize := allocations[a];
          allocations := allocations - {a};
          AddFreeBlock(a, freedSize);
        }
      }
      if old(Valid()) { FreeInv(old(Now()), a, Now()); }
    }

    lemma ValidFreeable(a: nat)
      requires Valid()
      ensures Freeable(a)
    {
      if a in allocations {
        forall x | a <= x < a + allocations[a] ensures !Covers(freeBlocks, x) { Inside(allocations, a, x); }
      }
    }

    /** Afterwards the heap is valid again exactly if the allocation made, if any, did not overflow. */
    method Realloc(a: nat, n: nat) returns (r: nat)
      requires Valid() && n < U64
      modifies this
      ensures Reallocs(old(Now()), a, n, r, Now()) && Agree(freeBlocks, freeBlocksBySize)
      ensures Valid() <==> !ReallocOverflows(old(Now()), a, n)
    {
      DefaultAlignment();
      if a == 0 {
        r := Allocate(n, DEFAULT_ALIGNMENT);
      } else if n == 0 {
        ValidFreeable(a);
        Free(a);
        r := 0;
      } else if a !in allocations {
        r := 0;
      } else if n <= allocations[a] {
        r := a;
      } else {
        r := Grow(a, n);
      }
      ReallocInv(old(Now()), a, n, r, Now());
    }

    method Grow(a: nat, n: nat) returns (r: nat)
      requires Valid() && 0 < n < U64 && PowerOfTwo(DEFAULT_ALIGNMENT)
      modifies this
      ensures Agree(freeBlocks, freeBlocksBySize)
      ensures exists h1 :: Allocates(old(Now()), n, DEFAULT_ALIGNMENT, r, h1)
                && if r == 0 then Now() == h1 else Frees(h1, a, Now())
    {
      r := Allocate(n, DEFAULT_ALIGNMENT);
      ghost var h1 := Now();
      if r == 0 { return; }
      StillFreeable(old(Now()), n, DEFAULT_ALIGNMENT, r, h1, a);
      Free(a);
      assert Allocates(old(Now()), n, DEFAULT_ALIGNMENT, r, h1) && Frees(h1, a, Now());
    }
  }

  /** After an allocation, even one that overflows, every live block can be freed. */
  lemma StillFreeable(h: Heap, n: nat, al: nat, r: nat, h1: Heap, a: nat)
    requires Inv(h) && n < U64 && PowerOfTwo(al) && 0 < al <= U64 && Allocates(h, n, al, r, h1)
    ensures Normal(h1.free)
    ensures a in h1.allocs ==> 0 < h1.allocs[a] && forall x :: a <= x < a + h1.allocs[a] ==> !Covers(h1.free, x)
  {
    AllocateInv(h, n, al, r, h1);
    if Overflows(h, n, al) { OverflowPoisons(h, n, al, r, h1); }
    if a in h1.allocs {
      forall x | a <= x < a + h1.allocs[a] ensures !Covers(h1.free, x) {
        Inside(h1.allocs, a, x);
        if a in h.allocs { Inside(h.allocs, a, x); }
      }
    }
  }

  predicate NoneFits(h: Heap, idx: SizeIndex, i: nat, n: nat, al: nat)
    requires 0 < al <= U64 && i <= |idx|
  { forall j :: 0 <= j < i ==> !Fits(h, idx[j].1, n, al) }

  lemma SmallerDoNotFit(h: Heap, idx: SizeIndex, i: nat, n: nat, al: nat)
    requires Inv(h) && Agree(h.free, idx) && PowerOfTwo(al) && 0 < al <= U64 && i <= |idx|
    requires forall j :: 0 <= j < i ==> idx[j].0 < n
    ensures NoneFits(h, idx, i, n, al)
  {
    forall j | 0 <= j < i ensures !Fits(h, idx[j].1, n, al) {
      Inside(h.free, idx[j].1, idx[j].1);
      PowerBound(al);
      AlignUpMeaning(idx[j].1, al);
    }
  }

  lemma NothingFits(h: Heap, idx: SizeIndex, n: nat, al: nat)
    requires Agree(h.free, idx) && 0 < al <= U64 && NoneFits(h, idx, |idx|, n, al)
    ensures NoFit(h, n, al)
  {
    forall b | b in h.free ensures !Fits(h, b, n, al) {
      assert Listed(h.free, idx, b);
      var j :| 0 <= j < |idx| && idx[j] == (h.free[b], b);
    }
  }

  /** Scanning in order of size, the first block that fits is a smallest one. */
  lemma FirstIsBest(h: Heap, idx: SizeIndex, i: nat, n: nat, al: nat)
    requires Agree(h.free, idx) && i < |idx| && 0 < al <= U64 && Fits(h, idx[i].1, n, al)
    requires NoneFits(h, idx, i, n, al)
    ensures Best(h, idx[i].1, n, al)
  {
    forall b | b in h.free && Fits(h, b, n, al) ensures h.free[idx[i].1] <= h.free[b] {
      assert Listed(h.free, idx, b);
      var j :| 0 <= j < |idx| && idx[j] == (h.free[b], b);
      assert j >= i;
    }
  }
}
