/**
 The guest heap as a value: live allocations, free blocks and a bump frontier, and what each
 allocator operation may do to it.
 */
module Heaps {
  import opened AddressMap
  import opened Bits
  import opened Blocks
  import opened Sums

  const LIMIT: nat := 0x8000_0000_0000_0000
  const MIN_REMAINDER: nat := 16
  const DEFAULT_ALIGNMENT: nat := 16

  datatype Heap = Heap(base: nat, size: nat, hwm: nat, allocs: BlockMap, free: BlockMap)

  ghost predicate Within(m: BlockMap, lo: nat, hi: nat) { forall x :: Covers(m, x) ==> lo <= x < hi }

  /** Non-empty, pairwise disjoint blocks between base and the frontier; free space coalesced. */
  ghost predicate Inv(h: Heap) {
    && 0 < h.base <= h.hwm <= h.base + h.size <= LIMIT
    && Disjoint(h.allocs) && Normal(h.free)
    && Within(h.allocs, h.base, h.hwm) && Within(h.free, h.base, h.hwm)
    && (forall x :: !(Covers(h.allocs, x) && Covers(h.free, x)))
  }

  /** Bytes below the frontier that are neither allocated nor free. */
  ghost function Slack(h: Heap): int { h.hwm - h.base - Sum(h.allocs) - Sum(h.free) }

  function AtLeastOne(n: nat): nat { if n == 0 then 1 else n }

  function Padding(a: nat, al: nat): int
    requires 0 < al <= U64
  { AlignUp(a, al) - a }

  /** Free block a can hold n bytes aligned to al. */
  predicate Fits(h: Heap, a: nat, n: nat, al: nat)
    requires 0 < al <= U64
  { a in h.free && h.free[a] >= n + Padding(a, al) }

  /** The frontier test as written, in 64-bit arithmetic. */
  predicate BumpFits(h: Heap, n: nat, al: nat)
    requires 0 < al <= U64
  { Add64(AlignUp(h.hwm, al), n) <= h.base + h.size }

  /** ... which a sum past 2^64 can pass by wrapping around. */
  predicate BumpWraps(h: Heap, n: nat, al: nat)
    requires 0 < al <= U64
  { AlignUp(h.hwm, al) + n >= U64 && BumpFits(h, n, al) }

  /** How much of block a an allocation of n bytes uses up, after its padding. */
  function Used(h: Heap, a: nat, n: nat, al: nat): int
    requires 0 < al <= U64 && a in h.free
  {
    var rest := h.free[a] - n - Padding(a, al);
    if rest >= MIN_REMAINDER then n else n + rest
  }

  /** h' results from carving n bytes out of free block a. */
  ghost predicate Carves(h: Heap, a: nat, n: nat, al: nat, h': Heap)
    requires 0 < al <= U64
  {
    && Fits(h, a, n, al)
    && h' == h.(allocs := h.allocs[AlignUp(a, al) := n], free := h'.free)
    && Used(h, a, n, al) >= 0
    && Cuts(h.free, AlignUp(a, al), Used(h, a, n, al), h'.free)
  }

  /** Best fit: some fitting block that is no larger than any other fitting block. */
  predicate Best(h: Heap, a: nat, n: nat, al: nat)
    requires 0 < al <= U64
  {
    Fits(h, a, n, al) && forall b :: b in h.free && Fits(h, b, n, al) ==> h.free[a] <= h.free[b]
  }

  predicate NoFit(h: Heap, n: nat, al: nat)
    requires 0 < al <= U64
  { forall b :: b in h.free ==> !Fits(h, b, n, al) }

  /** What allocate may do: carve a best fit; else move the frontier; else fail. */
  ghost predicate Allocates(h: Heap, n0: nat, al: nat, r: nat, h': Heap)
    requires 0 < al <= U64
  {
    var n := AtLeastOne(n0);
    || (exists a :: Best(h, a, n, al) && r == AlignUp(a, al) && Carves(h, a, n, al, h'))
    || (NoFit(h, n, al) && BumpFits(h, n, al) && r == AlignUp(h.hwm, al)
        && h' == h.(hwm := Add64(r, n), allocs := h.allocs[r := n]))
    || (NoFit(h, n, al) && !BumpFits(h, n, al) && r == 0 && h' == h)
  }

  /** free: an unknown address, zero included, is ignored. */
  ghost predicate Frees(h: Heap, a: nat, h': Heap) {
    if a in h.allocs && a != 0 then
      h' == h.(allocs := h.allocs - {a}, free := h'.free) && Adds(h.free, a, h.allocs[a], h'.free)
    else h' == h
  }

  ghost predicate Reallocs(h: Heap, a: nat, n: nat, r: nat, h': Heap) {
    if a == 0 then Allocates(h, n, DEFAULT_ALIGNMENT, r, h')
    else if n == 0 then Frees(h, a, h') && r == 0
    else if a !in h.allocs then h' == h && r == 0
    else if n <= h.allocs[a] then h' == h && r == a
    else exists h1 :: Allocates(h, n, DEFAULT_ALIGNMENT, r, h1) && if r == 0 then h' == h1 else Frees(h1, a, h')
  }

  // ------------------------------------------------------------------ allocate

  /** The carved bytes lie in the free block they are carved from. */
  lemma CarveRange(h: Heap, a: nat, n: nat, al: nat)
    requires Inv(h) && PowerOfTwo(al) && 0 < al <= U64 && Fits(h, a, n, al)
    ensures var r := AlignUp(a, al);
            && r % al == 0 && a <= r && n <= Used(h, a, n, al) < n + MIN_REMAINDER
            && r + Used(h, a, n, al) <= a + h.free[a]
            && forall x :: r <= x < r + n ==> Covers(h.free, x)
  {
    Inside(h.free, a, a);
    PowerBound(al);
    AlignUpMeaning(a, al);
    forall x | a <= x < a + h.free[a] ensures Covers(h.free, x) { Inside(h.free, a, x); }
  }

  /** Turning free bytes into an allocation. */
  lemma PlaceInv(h: Heap, r: nat, n: nat, free': BlockMap)
    requires Inv(h) && n > 0 && Normal(free')
    requires forall x :: r <= x < r + n ==> Covers(h.free, x)
    requires forall x :: Covers(free', x) ==> Covers(h.free, x) && !(r <= x < r + n)
    ensures Inv(h.(allocs := h.allocs[r := n], free := free')) && r !in h.allocs && r > 0
  {
    var h' := h.(allocs := h.allocs[r := n], free := free');
    NewBlock(h, r, n);
    assert Covers(h.free, r);
    forall x
      ensures !(Covers(h'.allocs, x) && Covers(h'.free, x))
      ensures Covers(h'.allocs, x) || Covers(h'.free, x) ==> h.base <= x < h.hwm
    {
      assert Covers(h'.allocs, x) <==> Covers(h.allocs, x) || r <= x < r + n;
      assert r <= x < r + n ==> Covers(h.free, x);
    }
  }

  lemma CarveInv(h: Heap, a: nat, n: nat, al: nat, h': Heap)
    requires Inv(h) && PowerOfTwo(al) && n > 0 && 0 < al <= U64 && Carves(h, a, n, al, h')
    ensures Inv(h') && AlignUp(a, al) % al == 0 && AlignUp(a, al) !in h.allocs && AlignUp(a, al) > 0
    ensures Slack(h) <= Slack(h') < Slack(h) + MIN_REMAINDER
  {
    var r := AlignUp(a, al);
    CarveRange(h, a, n, al);
    forall x | Covers(h'.free, x) ensures Covers(h.free, x) && !(r <= x < r + n) {}
    PlaceInv(h, r, n, h'.free);
    SumInsert(h.allocs, r, n);
  }

  /** Moving the frontier past a new block above it. */
  lemma ExtendInv(h: Heap, r: nat, n: nat)
    requires Inv(h) && n > 0 && h.hwm <= r && r + n <= h.base + h.size
    ensures Inv(h.(hwm := r + n, allocs := h.allocs[r := n])) && r !in h.allocs
  {
    var h' := h.(hwm := r + n, allocs := h.allocs[r := n]);
    forall x | r <= x < r + n ensures !Covers(h.allocs, x) && !Covers(h.free, x) {}
    NewBlock(h, r, n);
    forall x
      ensures !(Covers(h'.allocs, x) && Covers(h'.free, x))
      ensures Covers(h'.allocs, x) || Covers(h'.free, x) ==> h.base <= x < h'.hwm
    {
      assert Covers(h'.allocs, x) <==> Covers(h.allocs, x) || r <= x < r + n;
    }
  }

  lemma BumpInv(h: Heap, n: nat, al: nat, h': Heap)
    requires Inv(h) && PowerOfTwo(al) && 0 < n < U64 && 0 < al <= U64 && BumpFits(h, n, al)
    requires var r := AlignUp(h.hwm, al); h' == h.(hwm := Add64(r, n), allocs := h.allocs[r := n])
    ensures AlignUp(h.hwm, al) % al == 0 && AlignUp(h.hwm, al) !in h.allocs && AlignUp(h.hwm, al) > 0
    ensures Inv(h') <==> !BumpWraps(h, n, al)
    ensures !BumpWraps(h, n, al) ==> Slack(h) <= Slack(h') < Slack(h) + al
  {
    var r := AlignUp(h.hwm, al);
    FrontierAligned(h, al);
    SumInsert(h.allocs, r, n);
    Wrap64(r + n);
    if BumpWraps(h, n, al) {
      Inside(h'.allocs, r, r + n - 1);
    } else {
      ExtendInv(h, r, n);
    }
  }

  lemma FrontierAligned(h: Heap, al: nat)
    requires Inv(h) && PowerOfTwo(al) && 0 < al <= U64
    ensures var r := AlignUp(h.hwm, al);
            r % al == 0 && h.hwm <= r < h.hwm + al && r < U64 && r !in h.allocs
  {
    PowerBound(al);
    AlignUpMeaning(h.hwm, al);
    NothingAt(h, AlignUp(h.hwm, al));
  }

  lemma NothingAt(h: Heap, r: nat)
    requires Inv(h) && h.hwm <= r
    ensures r !in h.allocs
  {
    if r in h.allocs { Inside(h.allocs, r, r); }
  }

  /** The one way allocate can break the heap: no block fits and the frontier sum wraps. */
  predicate Overflows(h: Heap, n0: nat, al: nat)
    requires 0 < al <= U64
  { NoFit(h, AtLeastOne(n0), al) && BumpWraps(h, AtLeastOne(n0), al) }

  predicate Aligned(x: nat, al: nat)
    requires al > 0
  { x % al == 0 }

  /** Some n bytes that start at a multiple of al lie in [lo, hi). */
  ghost predicate RoomIn(lo: nat, hi: nat, n: nat, al: nat)
    requires al > 0
  { exists x: nat :: Aligned(x, al) && lo <= x && x + n <= hi }

  /** ... in a free block, or between the frontier and the end of the heap. */
  ghost predicate HasRoom(h: Heap, n: nat, al: nat)
    requires al > 0
  { RoomInFree(h, n, al) || RoomIn(h.hwm, h.base + h.size, n, al) }

  ghost predicate RoomInFree(h: Heap, n: nat, al: nat)
    requires al > 0
  { exists a :: a in h.free && RoomIn(a, a + h.free[a], n, al) }

  lemma FitsMeaning(h: Heap, a: nat, n: nat, al: nat)
    requires Inv(h) && PowerOfTwo(al) && 0 < al <= U64 && a in h.free
    ensures Fits(h, a, n, al) <==> RoomIn(a, a + h.free[a], n, al)
  {
    Inside(h.free, a, a);
    PowerBound(al);
    AlignUpMeaning(a, al);
    if Fits(h, a, n, al) { assert Aligned(AlignUp(a, al), al); }
  }

  lemma BumpMeaning(h: Heap, n: nat, al: nat)
    requires Inv(h) && PowerOfTwo(al) && 0 < al <= U64 && n < U64 && !BumpWraps(h, n, al)
    ensures BumpFits(h, n, al) <==> RoomIn(h.hwm, h.base + h.size, n, al)
  {
    PowerBound(al);
    AlignUpMeaning(h.hwm, al);
    if BumpFits(h, n, al) { assert Aligned(AlignUp(h.hwm, al), al); }
  }

  lemma FreeRoom(h: Heap, n: nat, al: nat)
    requires Inv(h) && PowerOfTwo(al) && 0 < al <= U64
    ensures NoFit(h, n, al) <==> !RoomInFree(h, n, al)
  {
    if NoFit(h, n, al) {
      forall a | a in h.free ensures !RoomIn(a, a + h.free[a], n, al) { FitsMeaning(h, a, n, al); }
    } else {
      var a :| a in h.free && Fits(h, a, n, al);
      FitsMeaning(h, a, n, al);
    }
  }

  /** The two tests find room exactly if there is some, unless the sum wraps. */
  lemma RoomMeaning(h: Heap, n: nat, al: nat)
    requires Inv(h) && PowerOfTwo(al) && 0 < al <= U64 && n < U64 && !(NoFit(h, n, al) && BumpWraps(h, n, al))
    ensures HasRoom(h, n, al) <==> !(NoFit(h, n, al) && !BumpFits(h, n, al))
  {
    FreeRoom(h, n, al);
    if NoFit(h, n, al) { BumpMeaning(h, n, al); }
  }

  /** allocate keeps the heap well formed exactly when it does not overflow; a block it returns is
      aligned, new and disjoint from every live one; it fails only when nothing fits; and it loses
      fewer than 16 bytes when it reuses, fewer than the alignment when it bumps. */
  lemma AllocateInv(h: Heap, n0: nat, al: nat, r: nat, h': Heap)
    requires Inv(h) && PowerOfTwo(al) && n0 < U64 && 0 < al <= U64 && Allocates(h, n0, al, r, h')
    ensures Inv(h') <==> !Overflows(h, n0, al)
    ensures r == 0 <==> NoFit(h, AtLeastOne(n0), al) && !BumpFits(h, AtLeastOne(n0), al)
    ensures !Overflows(h, n0, al) ==> (r == 0 <==> !HasRoom(h, AtLeastOne(n0), al))
    ensures r == 0 ==> h' == h
    ensures r != 0 ==> r % al == 0 && r !in h.allocs && h'.allocs == h.allocs[r := AtLeastOne(n0)]
    ensures Inv(h') && (exists a :: a in h.free && Fits(h, a, AtLeastOne(n0), al)) ==>
              h'.hwm == h.hwm && Slack(h) <= Slack(h') < Slack(h) + MIN_REMAINDER
    ensures Inv(h') && NoFit(h, AtLeastOne(n0), al) ==> Slack(h) <= Slack(h') < Slack(h) + al
  {
    var n := AtLeastOne(n0);
    if a :| Best(h, a, n, al) && r == AlignUp(a, al) && Carves(h, a, n, al, h') {
      CarveInv(h, a, n, al, h');
    } else if BumpFits(h, n, al) {
      BumpInv(h, n, al, h');
    }
    if !Overflows(h, n0, al) { RoomMeaning(h, n, al); }
  }

  /** Free block a is no larger than any other with room. */
  ghost predicate Smallest(h: Heap, a: nat, n: nat, al: nat)
    requires al > 0
  { a in h.free && forall b :: b in h.free && RoomIn(b, b + h.free[b], n, al) ==> h.free[a] <= h.free[b] }

  /** The n bytes at r are the first aligned ones of such a block. */
  ghost predicate TakenFrom(h: Heap, a: nat, n: nat, al: nat, r: nat)
    requires al > 0
  { Smallest(h, a, n, al) && Aligned(r, al) && a <= r < a + al && r + n <= a + h.free[a] }

  lemma BestIsSmallest(h: Heap, a: nat, n: nat, al: nat)
    requires Inv(h) && PowerOfTwo(al) && 0 < al <= U64 && Best(h, a, n, al)
    ensures TakenFrom(h, a, n, al, AlignUp(a, al))
  {
    assert a <= AlignUp(a, al) < a + al && Aligned(AlignUp(a, al), al) by {
      Inside(h.free, a, a);
      PowerBound(al);
      AlignUpMeaning(a, al);
    }
    forall b | b in h.free && RoomIn(b, b + h.free[b], n, al) ensures h.free[a] <= h.free[b] { FitsMeaning(h, b, n, al); }
  }

  /** While a free block fits, the result lies at the first aligned address of a smallest such block. */
  lemma BestFitMeaning(h: Heap, n0: nat, al: nat, r: nat, h': Heap)
    requires Inv(h) && PowerOfTwo(al) && n0 < U64 && 0 < al <= U64 && Allocates(h, n0, al, r, h')
    requires !NoFit(h, AtLeastOne(n0), al)
    ensures exists a :: TakenFrom(h, a, AtLeastOne(n0), al, r)
  {
    var a :| Best(h, a, AtLeastOne(n0), al) && r == AlignUp(a, al);
    BestIsSmallest(h, a, AtLeastOne(n0), al);
  }

  // ------------------------------------------------------------------ free and realloc

  lemma FreeInv(h: Heap, a: nat, h': Heap)
    requires Inv(h) && Frees(h, a, h')
    ensures Inv(h') && Slack(h') == Slack(h) && h'.hwm == h.hwm
    ensures h'.allocs == h.allocs - {a}
  {
    if a in h.allocs && a != 0 {
      SumRemove(h.allocs, a);
      ReleaseInv(h, a, h');
    } else {
      if 0 in h.allocs { Inside(h.allocs, 0, 0); }
      assert h.allocs - {a} == h.allocs;
    }
  }

  lemma ReleaseInv(h: Heap, a: nat, h': Heap)
    requires Inv(h) && a in h.allocs && Adds(h.free, a, h.allocs[a], h'.free)
    requires h' == h.(allocs := h.allocs - {a}, free := h'.free)
    ensures Inv(h')
  {
    forall x
      ensures Covers(h'.allocs, x) ==> Covers(h.allocs, x) && !(a <= x < a + h.allocs[a])
      ensures a <= x < a + h.allocs[a] ==> Covers(h.allocs, x)
    {
      Removed(h.allocs, a, x);
      Inside(h.allocs, a, x);
    }
    forall x
      ensures !(Covers(h'.allocs, x) && Covers(h'.free, x))
      ensures Covers(h'.allocs, x) || Covers(h'.free, x) ==> h.base <= x < h'.hwm
    {
      assert Covers(h'.free, x) <==> Covers(h.free, x) || a <= x < a + h.allocs[a];
      assert a <= x < a + h.allocs[a] ==> Covers(h.allocs, x);
    }
    assert Disjoint(h'.allocs);
  }

  lemma Removed(m: BlockMap, a: nat, x: int)
    requires Disjoint(m) && a in m
    ensures Covers(m - {a}, x) <==> Covers(m, x) && !(a <= x < a + m[a])
  {
    var k := m - {a};
    if Covers(m, x) && !(a <= x < a + m[a]) {
      var b :| b in m && b <= x < b + m[b];
      assert b in k && k[b] == m[b];
    }
    if Covers(k, x) {
      var b :| b in k && b <= x < b + k[b];
      assert b in m && m[b] == k[b];
    }
  }

  /** Does realloc go through an allocation of n bytes? */
  predicate Moves(h: Heap, a: nat, n: nat) { a == 0 || (n != 0 && a in h.allocs && n > h.allocs[a]) }

  lemma DefaultAlignment()
    ensures PowerOfTwo(DEFAULT_ALIGNMENT)
  {
    assert DEFAULT_ALIGNMENT == Pow2(4);
  }

  /** What realloc promises: the result holds n bytes, and no other allocation changes. */
  ghost predicate Regrown(h: Heap, a: nat, n: nat, r: nat, h': Heap) {
    && Inv(h') && Slack(h) <= Slack(h') < Slack(h) + DEFAULT_ALIGNMENT
    && (r != 0 ==> r in h'.allocs && n <= h'.allocs[r])
    && (r != 0 && r != a ==> r !in h.allocs && r % DEFAULT_ALIGNMENT == 0 && a !in h'.allocs)
    && (forall b :: b in h.allocs && b != a ==> b in h'.allocs && h'.allocs[b] == h.allocs[b])
  }

  lemma FreshInv(h: Heap, n: nat, r: nat, h': Heap)
    requires Inv(h) && n < U64 && Allocates(h, n, DEFAULT_ALIGNMENT, r, h') && !Overflows(h, n, DEFAULT_ALIGNMENT)
    ensures Inv(h') && Slack(h) <= Slack(h') < Slack(h) + DEFAULT_ALIGNMENT && 0 !in h'.allocs
    ensures r == 0 ==> h' == h
    ensures r != 0 ==> r !in h.allocs && r % DEFAULT_ALIGNMENT == 0 && h'.allocs == h.allocs[r := AtLeastOne(n)]
  {
    DefaultAlignment();
    AllocateInv(h, n, DEFAULT_ALIGNMENT, r, h');
    if 0 in h'.allocs { Inside(h'.allocs, 0, 0); }
  }

  /** A live block reaches past the frontier. */
  predicate Poisoned(h: Heap, r: nat) { r in h.allocs && h.hwm < r + h.allocs[r] }

  lemma PoisonedBreaks(h: Heap, r: nat)
    requires Poisoned(h, r)
    ensures !Inv(h)
  {
    if Inv(h) {
      Inside(h.allocs, r, r + h.allocs[r] - 1);
      assert false;
    }
  }

  /** What an overflowing allocate leaves: a block past the frontier, the free set as it was. */
  lemma OverflowPoisons(h: Heap, n0: nat, al: nat, r: nat, h': Heap)
    requires Inv(h) && PowerOfTwo(al) && n0 < U64 && 0 < al <= U64 && Allocates(h, n0, al, r, h') && Overflows(h, n0, al)
    ensures r != 0 && r !in h.allocs && h.hwm <= r && Poisoned(h', r)
    ensures h' == h.(hwm := h'.hwm, allocs := h.allocs[r := AtLeastOne(n0)])
  {
    PowerBound(al);
    AlignUpMeaning(h.hwm, al);
    NothingAt(h, AlignUp(h.hwm, al));
    Wrap64(AlignUp(h.hwm, al) + AtLeastOne(n0));
  }

  lemma OverflowMoves(h: Heap, a: nat, n: nat, r: nat, h1: Heap, h': Heap)
    requires Inv(h) && 0 < n < U64 && a in h.allocs && a != 0 && Overflows(h, n, DEFAULT_ALIGNMENT)
    requires Allocates(h, n, DEFAULT_ALIGNMENT, r, h1) && if r == 0 then h' == h1 else Frees(h1, a, h')
    ensures !Inv(h')
  {
    DefaultAlignment();
    OverflowPoisons(h, n, DEFAULT_ALIGNMENT, r, h1);
    PoisonedBreaks(h', r);
  }

  lemma MoveInv(h: Heap, a: nat, n: nat, r: nat, h1: Heap, h': Heap)
    requires Inv(h) && 0 < n < U64 && a in h.allocs && a != 0 && !Overflows(h, n, DEFAULT_ALIGNMENT)
    requires Allocates(h, n, DEFAULT_ALIGNMENT, r, h1) && if r == 0 then h' == h1 else Frees(h1, a, h')
    ensures Regrown(h, a, n, r, h')
  {
    FreshInv(h, n, r, h1);
    if r != 0 { FreeInv(h1, a, h'); }
  }

  /** The one way realloc can break the heap: the allocation it makes overflows. */
  predicate ReallocOverflows(h: Heap, a: nat, n: nat) { Moves(h, a, n) && Overflows(h, n, DEFAULT_ALIGNMENT) }

  /** realloc keeps the heap well formed exactly when the allocation it makes, if any, does not
      overflow; then it keeps its promises. */
  lemma ReallocInv(h: Heap, a: nat, n: nat, r: nat, h': Heap)
    requires Inv(h) && n < U64 && Reallocs(h, a, n, r, h')
    ensures Inv(h') <==> !ReallocOverflows(h, a, n)
    ensures Inv(h') ==> Regrown(h, a, n, r, h')
    ensures a != 0 && a in h.allocs && 0 < n <= h.allocs[a] ==> r == a && h' == h
    ensures Inv(h') && (a == 0 || (a in h.allocs && n > h.allocs[a])) ==>
              (r == 0 <==> !HasRoom(h, AtLeastOne(n), DEFAULT_ALIGNMENT))
  {
    if a == 0 {
      DefaultAlignment();
      AllocateInv(h, n, DEFAULT_ALIGNMENT, r, h');
      if !Overflows(h, n, DEFAULT_ALIGNMENT) { FreshInv(h, n, r, h'); }
    } else if Moves(h, a, n) {
      var h1 :| Allocates(h, n, DEFAULT_ALIGNMENT, r, h1) && if r == 0 then h' == h1 else Frees(h1, a, h');
      DefaultAlignment();
      AllocateInv(h, n, DEFAULT_ALIGNMENT, r, h1);
      if Overflows(h, n, DEFAULT_ALIGNMENT) { OverflowMoves(h, a, n, r, h1, h'); } else { MoveInv(h, a, n, r, h1, h'); }
    } else if n == 0 {
      FreeInv(h, a, h');
    }
  }

  /** Adding a block that no allocation overlaps keeps the allocations disjoint. */
  lemma NewBlock(h: Heap, r: nat, n: nat)
    requires Disjoint(h.allocs) && n > 0 && (forall x :: r <= x < r + n ==> !Covers(h.allocs, x))
    ensures r !in h.allocs && Disjoint(h.allocs[r := n])
    ensures forall x :: Covers(h.allocs[r := n], x) <==> Covers(h.allocs, x) || r <= x < r + n
  {
    var m' := h.allocs[r := n];
    assert !Covers(h.allocs, r);
    forall b | b in h.allocs ensures b + h.allocs[b] <= r || r + n <= b {
      Inside(h.allocs, b, b);
      Inside(h.allocs, b, r);
    }
    forall x ensures Covers(m', x) <==> Covers(h.allocs, x) || r <= x < r + n {
      if Covers(h.allocs, x) {
        var b :| b in h.allocs && b <= x < b + h.allocs[b];
        assert b in m' && m'[b] == h.allocs[b];
      }
      Inside(m', r, x);
    }
  }

  // ------------------------------------------------------------------ runs

  datatype Op = Allocate(n: nat, al: nat) | Free(a: nat) | Realloc(a: nat, n: nat)

  /** The arguments are 64-bit words and an alignment is a power of two. */
  ghost predicate Callable(op: Op) {
    match op
    case Allocate(n, al) => n < U64 && PowerOfTwo(al) && 0 < al <= U64
    case Free(_) => true
    case Realloc(_, n) => n < U64
  }

  ghost predicate Next(h: Heap, op: Op, r: nat, h': Heap)
    requires Callable(op)
  {
    match op
    case Allocate(n, al) => Allocates(h, n, al, r, h')
    case Free(a) => Frees(h, a, h')
    case Realloc(a, n) => Reallocs(h, a, n, r, h')
  }

  predicate Breaks(h: Heap, op: Op)
    requires op.Allocate? ==> 0 < op.al <= U64
  {
    match op
    case Allocate(n, al) => Overflows(h, n, al)
    case Free(_) => false
    case Realloc(a, n) => ReallocOverflows(h, a, n)
  }

  /** The most slack an operation may add. */
  function Loss(op: Op): int {
    match op
    case Allocate(_, al) => if al <= MIN_REMAINDER then MIN_REMAINDER - 1 else al - 1
    case Free(_) => 0
    case Realloc(_, _) => DEFAULT_ALIGNMENT - 1
  }

  ghost predicate IsRun(hs: seq<Heap>, ops: seq<Op>, rs: seq<nat>) {
    && |hs| == |ops| + 1 && |rs| == |ops|
    && 0 < hs[0].base && hs[0].base + hs[0].size <= LIMIT
    && hs[0] == Heap(hs[0].base, hs[0].size, hs[0].base, map[], map[])
    && forall i :: 0 <= i < |ops| ==> Callable(ops[i]) && Next(hs[i], ops[i], rs[i], hs[i + 1])
  }

  lemma StepInv(h: Heap, op: Op, r: nat, h': Heap)
    requires Inv(h) && Callable(op) && Next(h, op, r, h')
    ensures Inv(h') <==> !Breaks(h, op)
    ensures Inv(h') ==> Slack(h) <= Slack(h') <= Slack(h) + Loss(op)
  {
    match op
    case Allocate(n, al) =>
      AllocateInv(h, n, al, r, h');
      if !NoFit(h, AtLeastOne(n), al) { var b :| b in h.free && Fits(h, b, AtLeastOne(n), al); }
    case Free(a) => FreeInv(h, a, h');
    case Realloc(a, n) => ReallocInv(h, a, n, r, h');
  }

  function TotalLoss(ops: seq<Op>, k: nat): int
    requires k <= |ops|
  { if k == 0 then 0 else TotalLoss(ops, k - 1) + Loss(ops[k - 1]) }

  /** No operation before step k overflows. */
  ghost predicate Calm(hs: seq<Heap>, ops: seq<Op>, rs: seq<nat>, k: nat)
    requires IsRun(hs, ops, rs) && k < |hs|
  { forall i :: 0 <= i < k ==> !Breaks(hs[i], ops[i]) }

  lemma {:induction false} CalmRun(hs: seq<Heap>, ops: seq<Op>, rs: seq<nat>, k: nat)
    requires IsRun(hs, ops, rs) && k < |hs| && Calm(hs, ops, rs, k)
    ensures Inv(hs[k]) && 0 <= Slack(hs[k]) <= TotalLoss(ops, k)
  {
    if k > 0 {
      CalmRun(hs, ops, rs, k - 1);
      StepInv(hs[k - 1], ops[k - 1], rs[k - 1], hs[k]);
    }
  }

  /** Up to step k of any run, every heap is well formed exactly if no operation overflowed; and
      then slack, the space in use that is neither allocated nor free, is at least zero and at most
      the sum of the operations' losses. */
  lemma RunInv(hs: seq<Heap>, ops: seq<Op>, rs: seq<nat>, k: nat)
    requires IsRun(hs, ops, rs) && k < |hs|
    ensures (forall i :: 0 <= i <= k ==> Inv(hs[i])) <==> Calm(hs, ops, rs, k)
    ensures Calm(hs, ops, rs, k) ==> 0 <= Slack(hs[k]) <= TotalLoss(ops, k)
  {
    if Calm(hs, ops, rs, k) {
      forall i | 0 <= i <= k ensures Inv(hs[i]) { CalmRun(hs, ops, rs, i); }
      CalmRun(hs, ops, rs, k);
    } else {
      var i :| 0 <= i < k && Breaks(hs[i], ops[i]);
      if Inv(hs[i]) { StepInv(hs[i], ops[i], rs[i], hs[i + 1]); }
    }
  }

  /** The invariant in terms of intervals: blocks are non-empty, inside [base, hwm], pairwise
      disjoint, and two free blocks do not even touch. */
  lemma BlocksApart(h: Heap)
    requires Inv(h)
    ensures forall a :: a in h.allocs ==> h.base <= a < a + h.allocs[a] <= h.hwm
    ensures forall a :: a in h.free ==> h.base <= a < a + h.free[a] <= h.hwm
    ensures forall a, b :: a in h.allocs && b in h.allocs && a != b ==> a + h.allocs[a] <= b || b + h.allocs[b] <= a
    ensures forall a, b :: a in h.free && b in h.free && a != b ==> a + h.free[a] < b || b + h.free[b] < a
    ensures forall a, b :: a in h.allocs && b in h.free ==> a + h.allocs[a] <= b || b + h.free[b] <= a
  {
    forall a | a in h.allocs ensures h.base <= a < a + h.allocs[a] <= h.hwm {
      Inside(h.allocs, a, a);
      Inside(h.allocs, a, a + h.allocs[a] - 1);
    }
    forall a | a in h.free ensures h.base <= a < a + h.free[a] <= h.hwm {
      Inside(h.free, a, a);
      Inside(h.free, a, a + h.free[a] - 1);
    }
    forall a, b | a in h.allocs && b in h.free ensures a + h.allocs[a] <= b || b + h.free[b] <= a {
      var x := if a <= b then b else a;
      Inside(h.allocs, a, x);
      Inside(h.free, b, x);
      assert !(Covers(h.allocs, x) && Covers(h.free, x));
    }
  }

  function EmptyHeap(): Heap { Heap(HEAP_BASE, HEAP_SIZE, HEAP_BASE, map[], map[]) }

  /** A request just short of 2^64 bytes passes the frontier test of the empty guest heap, and
      what allocate returns for it leaves no valid heap. */
  lemma OverflowExample(r: nat, h': Heap)
    requires Allocates(EmptyHeap(), U64 - HEAP_BASE, DEFAULT_ALIGNMENT, r, h')
    ensures Inv(EmptyHeap()) && Overflows(EmptyHeap(), U64 - HEAP_BASE, DEFAULT_ALIGNMENT)
    ensures r == HEAP_BASE && !Inv(h')
  {
    DefaultAlignment();
    AlignUpMeaning(HEAP_BASE, DEFAULT_ALIGNMENT);
    assert HEAP_BASE % DEFAULT_ALIGNMENT == 0;
    AllocateInv(EmptyHeap(), U64 - HEAP_BASE, DEFAULT_ALIGNMENT, r, h');
  }
}
