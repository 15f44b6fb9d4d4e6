/**
 Guest allocation on top of the heap: requests the fixed heap cannot hold get a mapping of
 their own, and realloc copies block contents in 1 MiB chunks.
 */
module GuestMemory {
  import opened AddressMap
  import opened Bits
  import opened Blocks
  import opened Heaps
  import opened HeapAllocators

  const CHUNK: nat := 0x10_0000

  type Byte = x: int | 0 <= x < 256

  /** Guest memory: the byte at each address. */
  type Bytes = nat -> Byte

  /** m with buf written at a. */
  function Write(m: Bytes, a: nat, buf: seq<Byte>): Bytes {
    (x: nat) => if a <= x < a + |buf| then buf[x - a] else m(x)
  }

  function Read(m: Bytes, a: nat, n: nat): seq<Byte> { seq(n, i requires 0 <= i < n => m(a + i)) }

  ghost predicate SameOn(m: Bytes, m': Bytes, a: nat, n: nat) {
    forall x: nat {:trigger m'(x)} :: a <= x < a + n ==> m'(x) == m(x)
  }

  ghost predicate SameOff(m: Bytes, m': Bytes, a: nat, n: nat) {
    forall x: nat {:trigger m'(x)} :: !(a <= x < a + n) ==> m'(x) == m(x)
  }

  /** The n bytes at dst in m' are those at src in m. */
  ghost predicate Copied(m: Bytes, src: nat, m': Bytes, dst: nat, n: nat) {
    forall x: nat {:trigger m'(x)} :: dst <= x < dst + n ==> m'(x) == m(x - dst + src)
  }

  // ------------------------------------------------------------------ live blocks

  /** The bookkeeping: the heap, the mapped blocks and the cursor for the next one. */
  datatype Guest = Guest(heap: Heap, dynamic: BlockMap, cursor: nat)

  function Live(g: Guest): BlockMap { g.heap.allocs + g.dynamic }

  ghost predicate GuestInv(g: Guest) {
    && Inv(g.heap) && g.heap.base + g.heap.size <= DYNAMIC_ALLOC_BASE <= g.cursor < U64
    && Disjoint(g.dynamic) && Within(g.dynamic, DYNAMIC_ALLOC_BASE, g.cursor)
  }

  predicate Apart(a: nat, n: nat, b: nat, k: nat) { a + n <= b || b + k <= a }

  /** Heap blocks lie below every mapped block. */
  lemma Below(g: Guest, a: nat)
    requires GuestInv(g)
    ensures a in g.heap.allocs ==> 0 < a < a + g.heap.allocs[a] <= DYNAMIC_ALLOC_BASE && a !in g.dynamic
    ensures a in g.dynamic ==> DYNAMIC_ALLOC_BASE <= a < a + g.dynamic[a] <= g.cursor && a !in g.heap.allocs
  {
    if a in g.heap.allocs {
      Inside(g.heap.allocs, a, a);
      Inside(g.heap.allocs, a, a + g.heap.allocs[a] - 1);
    }
    if a in g.dynamic {
      Inside(g.dynamic, a, a);
      Inside(g.dynamic, a, a + g.dynamic[a] - 1);
    }
  }

  /** Live blocks, wherever they are, never overlap. */
  lemma LiveApart(g: Guest, a: nat, b: nat)
    requires GuestInv(g) && a in Live(g) && b in Live(g) && a != b
    ensures Apart(a, Live(g)[a], b, Live(g)[b])
  {
    Below(g, a);
    Below(g, b);
  }

  /** r is a new live block of s bytes and nothing else changed. */
  ghost predicate Gains(g: Guest, r: nat, s: nat, g': Guest) {
    GuestInv(g') && r !in Live(g) && Live(g') == Live(g)[r := s]
  }

  ghost predicate Loses(g: Guest, a: nat, g': Guest) {
    GuestInv(g') && Live(g') == Live(g) - {a} && g'.cursor == g.cursor
  }

  lemma PlusInsert(m: BlockMap, k: BlockMap, r: nat, s: nat)
    requires r !in k
    ensures m[r := s] + k == (m + k)[r := s]
  {
  }

  lemma PlusRemove(m: BlockMap, k: BlockMap, a: nat)
    requires a !in k
    ensures (m - {a}) + k == (m + k) - {a}
  {
  }

  lemma HeapGains(g: Guest, n: nat, al: nat, r: nat, h': Heap)
    requires GuestInv(g) && n < U64 && PowerOfTwo(al) && 0 < al <= U64 && r != 0
    requires Allocates(g.heap, n, al, r, h') && !Overflows(g.heap, n, al)
    ensures Gains(g, r, AtLeastOne(n), g.(heap := h')) && r % al == 0
  {
    AllocateInv(g.heap, n, al, r, h');
    var g' := g.(heap := h');
    Below(g', r);
    PlusInsert(g.heap.allocs, g.dynamic, r, AtLeastOne(n));
  }

  // ------------------------------------------------------------------ the mapped fallback

  /** Where the next mapped block goes, and how large it is: 64-bit roundings. */
  function MapAddress(cursor: nat, al: nat): nat
    requires 0 < al <= U64
  { AlignUp(cursor, Max(al, PAGE_SIZE)) }

  function MapSize(size: nat): nat { AlignUp(size, PAGE_SIZE) }

  /** The bookkeeping after a mapping was made for a request. */
  function Mapped(g: Guest, size: nat, al: nat): Guest
    requires 0 < al <= U64
  {
    var r, s := MapAddress(g.cursor, al), MapSize(size);
    g.(dynamic := g.dynamic[r := s], cursor := Add64(r, s))
  }

  /** Neither rounding the cursor up nor moving it past the block reaches 2^64. */
  predicate CursorFits(cursor: nat, size: nat, al: nat)
    requires 0 < al <= U64
  {
    && cursor + Max(al, PAGE_SIZE) <= U64
    && MapAddress(cursor, al) + MapSize(size) < U64
  }

  lemma MapGains(g: Guest, r: nat, s: nat)
    requires GuestInv(g) && g.cursor <= r && 0 < s && r + s < U64
    ensures Gains(g, r, s, g.(dynamic := g.dynamic[r := s], cursor := r + s))
  {
    var g' := g.(dynamic := g.dynamic[r := s], cursor := r + s);
    Below(g, r);
    ExtendDynamic(g.dynamic, g.cursor, r, s);
    assert Live(g') == Live(g)[r := s];
  }

  lemma ExtendDynamic(m: BlockMap, cursor: nat, r: nat, s: nat)
    requires Disjoint(m) && Within(m, DYNAMIC_ALLOC_BASE, cursor) && DYNAMIC_ALLOC_BASE <= cursor <= r && 0 < s
    ensures Disjoint(m[r := s]) && Within(m[r := s], DYNAMIC_ALLOC_BASE, r + s)
  {
    forall b | b in m ensures DYNAMIC_ALLOC_BASE <= b && b + m[b] <= r {
      Inside(m, b, b);
      Inside(m, b, b + m[b] - 1);
    }
  }

  /** A new block reaches past the frontier of the heap, or past the cursor of the mappings. */
  predicate Spoils(g: Guest, g': Guest, r: nat) {
    || (r !in g.heap.allocs && Poisoned(g'.heap, r))
    || (r !in Live(g) && r in g'.dynamic && g'.cursor < r + g'.dynamic[r])
  }

  lemma SpoilsBreaks(g: Guest, g': Guest, r: nat)
    requires Spoils(g, g', r)
    ensures !GuestInv(g')
  {
    if GuestInv(g') {
      if Poisoned(g'.heap, r) { PoisonedBreaks(g'.heap, r); } else { Inside(g'.dynamic, r, r + g'.dynamic[r] - 1); }
      assert false;
    }
  }

  /** A mapped block keeps the bookkeeping valid exactly if the cursor fits; if it does not, the block
      is at address zero, or reaches past the cursor. */
  lemma MapInv(g: Guest, size: nat, al: nat)
    requires GuestInv(g) && PowerOfTwo(al) && 0 < al <= U64 && 0 < size < U64 && 0 < MapSize(size)
    ensures var r, s, g' := MapAddress(g.cursor, al), MapSize(size), Mapped(g, size, al);
            && (GuestInv(g') <==> CursorFits(g.cursor, size, al))
            && (GuestInv(g') ==> Gains(g, r, s, g') && s >= size && r % al == 0 && r != 0)
            && (!GuestInv(g') && r != 0 ==> Spoils(g, g', r))
            && r !in g.dynamic && size <= s < size + PAGE_SIZE && s % PAGE_SIZE == 0 && r % PAGE_SIZE == 0
            && (r != 0 ==> r < g.cursor + Max(al, PAGE_SIZE))
  {
    var r, s, g', d := MapAddress(g.cursor, al), MapSize(size), Mapped(g, size, al), Max(al, PAGE_SIZE);
    PagePower();
    AlignUpMeaning(g.cursor, d);
    AlignUpMeaning(size, PAGE_SIZE);
    PowersDivide(al, d, r);
    PowersDivide(PAGE_SIZE, d, r);
    Below(g, r);
    Wrap64(r + s);
    if CursorFits(g.cursor, size, al) {
      MapGains(g, r, s);
    } else if r == 0 {
      Inside(g'.dynamic, 0, 0);
    } else {
      SpoilsBreaks(g, g', r);
    }
  }

  /** Two calls of posix_memalign with alignment 2^63 on the fresh guest: the heap cannot serve them, the
      second block is recorded at address zero, which is also what it returns, and the cursor falls
      below the heap. */
  lemma CursorExample(g: Guest)
    requires GuestInv(g) && g.heap.free == map[] && g.dynamic == map[] && g.cursor == DYNAMIC_ALLOC_BASE
    ensures HeapFull(g.heap, 8, 0x8000_0000_0000_0000)
    ensures var al := 0x8000_0000_0000_0000;
            var g1 := Mapped(g, 8, al);
            var g2 := Mapped(g1, 8, al);
            && GuestInv(g1) && g1.cursor == al + 0x1000 && MapAddress(g1.cursor, al) == 0
            && 0 in g2.dynamic && g2.cursor == 0x1000 && !GuestInv(g2)
  {
    var al := 0x8000_0000_0000_0000;
    Pow64();
    assert PowerOfTwo(al) by { assert al == Pow2(63); }
    PagePower();
    FirstMultiple(8, PAGE_SIZE);
    FirstMultiple(DYNAMIC_ALLOC_BASE, al);
    FirstMultiple(g.heap.hwm, al);
    var g1 := Mapped(g, 8, al);
    MapInv(g, 8, al);
    AlignUpMeaning(g1.cursor, al);
    MapInv(g1, 8, al);
  }

  /** Rounding up a value in the first span of al. */
  lemma FirstMultiple(x: nat, al: nat)
    requires PowerOfTwo(al) && 0 < x <= al && x + al <= U64
    ensures AlignUp(x, al) == al
  {
    AlignUpMeaning(x, al);
    ModUnique(al, al, 1, 0);
    ModUnique(0, al, 0, 0);
    MultiplesApart(0, AlignUp(x, al), al);
  }

  // ------------------------------------------------------------------ freeing

  lemma HeapLoses(g: Guest, a: nat, h': Heap)
    requires GuestInv(g) && a !in g.dynamic && Frees(g.heap, a, h')
    ensures Loses(g, a, g.(heap := h'))
  {
    FreeInv(g.heap, a, h');
    PlusRemove(g.heap.allocs, g.dynamic, a);
  }

  lemma MapLoses(g: Guest, a: nat)
    requires GuestInv(g) && a in g.dynamic
    ensures Loses(g, a, g.(dynamic := g.dynamic - {a}))
  {
    var g' := g.(dynamic := g.dynamic - {a});
    Below(g, a);
    forall x | Covers(g'.dynamic, x) ensures Covers(g.dynamic, x) {
      var b :| b in g'.dynamic && b <= x < b + g'.dynamic[b];
      assert b in g.dynamic && g.dynamic[b] == g'.dynamic[b];
    }
    assert Live(g') == Live(g) - {a};
  }

  // ------------------------------------------------------------------ memory

  /** Copying one more chunk. */
  lemma CopiedOn(m0: Bytes, src: nat, m: Bytes, dst: nat, n: nat, offset: nat, chunk: nat)
    requires Apart(src, n, dst, n) && offset + chunk <= n
    requires Copied(m0, src, m, dst, offset) && SameOff(m0, m, dst, n)
    ensures Copied(m0, src, Write(m, dst + offset, Read(m, src + offset, chunk)), dst, offset + chunk)
  {
    var m' := Write(m, dst + offset, Read(m, src + offset, chunk));
    forall x: nat | dst <= x < dst + offset + chunk ensures m'(x) == m0(x - dst + src) {
      if x >= dst + offset { assert m'(x) == m(x - dst + src); } else { assert m'(x) == m(x); }
    }
  }

  /** What is up to the host: whether it grants a mapping, and whether the k-th chunk can be read, or
      written. */
  datatype Host = Host(maps: bool, readable: nat -> bool, writable: nat -> bool)

  predicate Chunk(host: Host, k: nat) { host.readable(k) && host.writable(k) }

  /** Every chunk of n bytes can be copied. */
  ghost predicate Copies(host: Host, n: nat) { forall k: nat {:trigger Chunk(host, k)} :: k * CHUNK < n ==> Chunk(host, k) }

  ghost predicate Zeroed(m: Bytes, a: nat, n: nat) { forall x: nat {:trigger m(x)} :: a <= x < a + n ==> m(x) == 0 }

  lemma NextChunk(k: nat, offset: nat, n: nat)
    requires offset == Min(k * CHUNK, n) && offset < n
    ensures offset == k * CHUNK && offset + Min(n - offset, CHUNK) == Min((k + 1) * CHUNK, n)
  {
  }

  /** The chunks below the k-th are all there are. */
  lemma AllChunks(k: nat, n: nat)
    requires n <= k * CHUNK
    ensures forall i: nat :: i * CHUNK < n ==> i < k
  {
  }

  class MemoryManager {
    const heap: HeapAllocator
    var dynamicAllocations: BlockMap
    var nextDynamicAlloc: nat
    var memory: Bytes                 // guest memory, byte by byte

    function Now(): Guest
      reads this, heap
    { Guest(heap.Now(), dynamicAllocations, nextDynamicAlloc) }

    ghost predicate Valid()
      reads this, heap
    { GuestInv(Now()) && heap.Valid() }

    constructor ()
      ensures Valid() && fresh(heap) && forall x: nat :: memory(x) == 0
      ensures Now() == Guest(Heap(HEAP_BASE, HEAP_SIZE, HEAP_BASE, map[], map[]), map[], DYNAMIC_ALLOC_BASE)
    {
      heap := new HeapAllocator(HEAP_BASE, HEAP_SIZE);
      dynamicAllocations, nextDynamicAlloc := map[], DYNAMIC_ALLOC_BASE;
      memory := (x: nat) => 0;
    }

    /** Access can fail at any address: what is mapped is up to the emulated machine. */
    method ReadMemory(a: nat, n: nat, readable: bool) returns (ok: bool, buf: seq<Byte>)
      ensures ok == readable && (ok ==> buf == Read(memory, a, n))
    {
      if !readable { return false, []; }
      ok, buf := true, Read(memory, a, n);
    }

    /** A write that fails may have written part of its range, never anything outside. */
    method WriteMemory(a: nat, buf: seq<Byte>, writable: bool) returns (ok: bool)
      modifies this`memory
      ensures ok == writable && (ok ==> memory == Write(old(memory), a, buf))
      ensures SameOff(old(memory), memory, a, |buf|)
    {
      var written := buf;
      if !writable {
        var partial: seq<Byte> := *;
        if |partial| == |buf| { written := partial; }
      }
      memory := Write(memory, a, written);
      ok := writable;
    }

    /** Mapping a region resets its bytes; the host may refuse, and always refuses an empty one. */
    method Map(a: nat, n: nat, granted: bool) returns (ok: bool)
      modifies this`memory
      ensures ok == (granted && n > 0)
      ensures if ok then SameOff(old(memory), memory, a, n) && Zeroed(memory, a, n) else memory == old(memory)
    {
      if n == 0 { return false; }
      if !granted { return false; }
      var m := memory;
      memory := (x: nat) => if a <= x < a + n then 0 else m(x);
      ok := true;
    }

    /** Succeeds exactly if every chunk can be written. */
    method Zero(a: nat, size: nat, host: Host) returns (ok: bool)
      modifies this`memory
      ensures ok <==> forall k: nat {:trigger host.writable(k)} :: k * CHUNK < size ==> host.writable(k)
      ensures ok ==> Zeroed(memory, a, size)
      ensures SameOff(old(memory), memory, a, size)
    {
      var zeros: seq<Byte> := seq(Min(size, CHUNK), i => 0);
      var offset, k := 0, 0;
      while offset < size
        invariant offset == Min(k * CHUNK, size)
        invariant forall i: nat {:trigger host.writable(i)} :: i < k ==> host.writable(i)
        invariant Zeroed(memory, a, offset) && SameOff(old(memory), memory, a, size)
        decreases size - offset
      {
        NextChunk(k, offset, size);
        var chunk := Min(size - offset, |zeros|);
        var written := WriteMemory(a + offset, zeros[..chunk], host.writable(k));
        if !written { return false; }
        offset, k := offset + chunk, k + 1;
      }
      AllChunks(k, size);
      ok := true;
    }

    /** Copy n bytes, chunk by chunk, at 64-bit addresses: right for blocks that do not overlap and do
        not reach past 2^64.  Succeeds exactly if every chunk can be read and written. */
    method CopyChunks(src: nat, dst: nat, n: nat, host: Host) returns (ok: bool)
      requires src < U64 && dst < U64
      modifies this`memory
      ensures ok <==> Copies(host, n)
      ensures Copyable(src, dst, n) ==> SameOff(old(memory), memory, dst, n)
      ensures Copyable(src, dst, n) && ok ==> Copied(old(memory), src, memory, dst, n)
    {
      var offset, k := 0, 0;
      while offset < n
        invariant offset == Min(k * CHUNK, n)
        invariant forall i: nat {:trigger Chunk(host, i)} :: i < k ==> Chunk(host, i)
        invariant Copyable(src, dst, n) ==>
                    Copied(old(memory), src, memory, dst, offset) && SameOff(old(memory), memory, dst, n)
        decreases n - offset
      {
        NextChunk(k, offset, n);
        var chunk := Min(n - offset, CHUNK);
        var readOk, buf := ReadMemory(Add64(src, offset), chunk, host.readable(k));
        assert Chunk(host, k) ==> readOk;
        if !readOk { return false; }
        ghost var before := memory;
        var written := WriteMemory(Add64(dst, offset), buf, host.writable(k));
        assert Chunk(host, k) <==> written;
        if !written { return false; }
        if Copyable(src, dst, n) { CopiedOn(old(memory), src, before, dst, n, offset, chunk); }
        offset, k := offset + chunk, k + 1;
      }
      AllChunks(k, n);
      ok := true;
    }

    /** A block from the heap, else a mapping of its own.  Afterwards the memory manager is valid exactly
        if the heap did not overflow and the mapping made, if any, did not take the cursor past 2^64;
        then the result is a new aligned block, or zero and nothing changed.  It is zero exactly if the
        heap is full and the mapping is refused, or lands at address zero. */
    method AllocateGuestMemory(n: nat, al: nat, granted: bool) returns (r: nat)
      requires Valid() && n < U64 && PowerOfTwo(al) && 0 < al <= U64
      modifies this, heap
      ensures r == 0 <==> AllocationFails(old(Now()), n, al, granted)
      ensures Valid() <==> !Overflows(old(heap.Now()), n, al) && (dynamicAllocations == old(dynamicAllocations)
                             || CursorFits(old(nextDynamicAlloc), AtLeastOne(n), al))
      ensures !GuestBreaks(old(Now()), n, al) ==> Valid()
      ensures GuestBreaks(old(Now()), n, al) && r != 0 ==> !Valid()
      ensures Valid() && r == 0 ==> Live(Now()) == old(Live(Now())) && memory == old(memory)
      ensures Valid() && r != 0 ==> r in Live(Now()) && Live(Now())[r] >= AtLeastOne(n) && r % al == 0
                                    && Gains(old(Now()), r, Live(Now())[r], Now())
                                    && SameOff(old(memory), memory, r, Live(Now())[r])
      ensures !Valid() && r != 0 ==> Spoils(old(Now()), Now(), r)
      ensures r < U64
      ensures forall b :: heap.Freeable(b)
      ensures old(dynamicAllocations).Keys <= dynamicAllocations.Keys
    {
      var size := if n == 0 then 1 else n;
      r := heap.Allocate(size, al);
      ghost var g, h1 := old(Now()), heap.Now();
      forall b ensures heap.Freeable(b) { StillFreeable(g.heap, size, al, r, h1, b); }
      AllocateInv(g.heap, size, al, r, h1);
      if r != 0 {
        HeapServed(g, size, al, r, h1);
        return;
      }
      assert Now() == old(Now());
      r := MapBlock(size, al, granted);
    }

    /** The fallback: a page-aligned mapping at the cursor. */
    method MapBlock(size: nat, al: nat, granted: bool) returns (r: nat)
      requires Valid() && 0 < size < U64 && PowerOfTwo(al) && 0 < al <= U64
      modifies this
      ensures r == 0 <==> !granted || MapSize(size) == 0 || MapAddress(old(nextDynamicAlloc), al) == 0
      ensures heap.Now() == old(heap.Now()) && heap.Valid()
      ensures dynamicAllocations == old(dynamicAllocations) ==> r == 0 && Now() == old(Now()) && memory == old(memory)
      ensures dynamicAllocations != old(dynamicAllocations) ==>
                && Now() == Mapped(old(Now()), size, al) && r == MapAddress(old(nextDynamicAlloc), al)
                && r !in old(dynamicAllocations) && dynamicAllocations == old(dynamicAllocations)[r := MapSize(size)]
                && size <= MapSize(size) < size + PAGE_SIZE && MapSize(size) % PAGE_SIZE == 0 && r % PAGE_SIZE == 0
                && (r != 0 ==> r < old(nextDynamicAlloc) + Max(al, PAGE_SIZE))
                && (Valid() <==> CursorFits(old(nextDynamicAlloc), size, al))
                && SameOff(old(memory), memory, r, MapSize(size))
                && (Valid() ==> Gains(old(Now()), r, MapSize(size), Now()) && r % al == 0 && r != 0)
                && (!Valid() && r != 0 ==> Spoils(old(Now()), Now(), r))
    {
      var alignedSize := AlignUp(size, PAGE_SIZE);
      var alignment := Max(al, PAGE_SIZE);
      var address := AlignUp(nextDynamicAlloc, alignment);
      var mapped := Map(address, alignedSize, granted);
      if !mapped { return 0; }
      MapInv(Now(), size, al);
      dynamicAllocations := dynamicAllocations[address := alignedSize];
      nextDynamicAlloc := Add64(address, alignedSize);
      r := address;
    }

    method FreeGuestMemory(a: nat)
      requires a in dynamicAllocations || heap.Freeable(a)
      modifies this`dynamicAllocations, heap
      ensures if a == 0 then Now() == old(Now())
              else if a in old(dynamicAllocations) then Now() == old(Now()).(dynamic := old(dynamicAllocations) - {a})
              else Now() == old(Now()).(heap := heap.Now()) && Frees(old(heap.Now()), a, heap.Now())
      ensures old(Valid()) ==> Valid() && (a != 0 ==> Loses(old(Now()), a, Now()))
    {
      if a == 0 { return; }
      if a in dynamicAllocations {
        if Valid() { MapLoses(Now(), a); }
        dynamicAllocations := dynamicAllocations - {a};
        return;
      }
      heap.Free(a);
      if old(Valid()) { HeapLoses(old(Now()), a, heap.Now()); }
    }

    method GetGuestAllocationSize(a: nat) returns (n: nat)
      requires Valid()
      ensures n == SizeAt(Live(Now()), a) && (n != 0 <==> a in Live(Now()))
    {
      Below(Now(), a);
      n := if a in heap.allocations then heap.allocations[a] else 0;
      if n != 0 { return; }
      if a in dynamicAllocations { n := dynamicAllocations[a]; }
    }

    /** Grow block a, of oldSize bytes, by moving it. */
    method MoveBlock(a: nat, oldSize: nat, n: nat, copyContents: bool, host: Host) returns (r: nat)
      requires Valid() && n < U64 && a in Live(Now()) && Live(Now())[a] == oldSize < n && a != 0
      modifies this, heap
      ensures r == 0 <==> AllocationFails(old(Now()), n, DEFAULT_ALIGNMENT, host.maps) || (copyContents && !Copies(host, oldSize))
      ensures r != 0 ==> (Valid() <==> !GuestBreaks(old(Now()), n, DEFAULT_ALIGNMENT))
      ensures !GuestBreaks(old(Now()), n, DEFAULT_ALIGNMENT) ==>
                Valid() && Moved(old(Now()), old(memory), a, n, r, copyContents, Now(), memory)
    {
      DefaultAlignment();
      ghost var g, m := Now(), memory;
      assert a < U64 by { Below(g, a); }
      r := AllocateGuestMemory(n, DEFAULT_ALIGNMENT, host.maps);
      if r == 0 {
        if Valid() { NotMoved(g, m, a, n, copyContents, Now()); }
        return;
      }
      r := MoveInto(a, r, oldSize, n, copyContents, host, g, m);
    }

    /** Copy block a into the new block b and free a; if the copy fails, free b instead.  Before a new
        block was there the bookkeeping was g and memory m. */
    method MoveInto(a: nat, b: nat, oldSize: nat, n: nat, copyContents: bool, host: Host, ghost g: Guest, ghost m: Bytes)
      returns (r: nat)
      requires a < U64 && 0 < b < U64 && a in Live(g) && Live(g)[a] == oldSize < n && a != 0
      requires forall x :: heap.Freeable(x)
      requires if Valid() then b in Live(Now()) && n <= Live(Now())[b] && Gains(g, b, Live(Now())[b], Now())
                               && SameOff(m, memory, b, Live(Now())[b])
               else Spoils(g, Now(), b) && g.dynamic.Keys <= dynamicAllocations.Keys
      modifies this, heap
      ensures r == 0 <==> copyContents && !Copies(host, oldSize)
      ensures r != 0 ==> (Valid() <==> old(Valid()))
      ensures old(Valid()) ==> Valid() && Moved(g, m, a, n, r, copyContents, Now(), memory)
    {
      ghost var g1, s, good := Now(), if Valid() then Live(Now())[b] else n, Valid();
      if good { MoveRoom(g, a, b, s, g1); }
      if copyContents {
        var ok := CopyBlock(a, b, oldSize, host, m, s);
        if !ok {
          FreeGuestMemory(b);
          if good { MoveUndone(g, m, a, n, b, s, g1, copyContents, memory, Now()); }
          return 0;
        }
      }
      FreeGuestMemory(a);
      if good {
        MoveDone(g, m, a, n, b, s, g1, copyContents, memory, Now());
      } else {
        StillSpoiled(g, g1, a, Now(), b);
      }
      r := b;
    }

    /** Copy into a new block of s bytes. */
    method CopyBlock(a: nat, r: nat, n: nat, host: Host, ghost m: Bytes, ghost s: nat) returns (ok: bool)
      requires a < U64 && r < U64
      modifies this`memory
      ensures ok <==> Copies(host, n)
      ensures Fillable(m, old(memory), a, r, n, s) ==> SameOff(m, memory, r, s) && (ok ==> Copied(m, a, memory, r, n))
    {
      ok := CopyChunks(a, r, n, host);
      if Fillable(m, old(memory), a, r, n, s) {
        SameOffTwice(m, old(memory), memory, r, n, s);
        if ok { CopiedFrom(m, old(memory), memory, a, r, n, s); }
      }
    }

    /** The caller keeps everything but block a: on success its contents are in the result, on failure
        they stay where they were.  The memory manager stays valid exactly if the block it needs, if
        any, does not break it.  A block that is large enough stays where it is; growing fails exactly if
        there is no new block for it, or a chunk cannot be copied. */
    method ReallocGuestMemory(a: nat, n: nat, copyContents: bool, host: Host) returns (r: nat)
      requires Valid() && n < U64
      modifies this, heap
      ensures a == 0 ==> (r == 0 <==> AllocationFails(old(Now()), n, DEFAULT_ALIGNMENT, host.maps))
      ensures a != 0 && a in old(Live(Now())) && 0 < n <= old(Live(Now()))[a] ==>
                r == a && Now() == old(Now()) && memory == old(memory)
      ensures a != 0 && a in old(Live(Now())) && n > old(Live(Now()))[a] ==>
                (r == 0 <==> || AllocationFails(old(Now()), n, DEFAULT_ALIGNMENT, host.maps)
                             || (copyContents && !Copies(host, old(Live(Now()))[a])))
      ensures r != 0 ==> (Valid() <==> !ReallocBreaks(old(Now()), a, n))
      ensures !ReallocBreaks(old(Now()), a, n) ==>
                Valid() && Reallocated(old(Now()), old(memory), a, n, r, copyContents, Now(), memory)
    {
      if a == 0 {
        DefaultAlignment();
        r := AllocateGuestMemory(n, DEFAULT_ALIGNMENT, host.maps);
        if Valid() && r != 0 { FreshKeeps(old(Now()), r, Live(Now())[r], Now(), old(memory), memory); }
        return;
      }
      if n == 0 {
        heap.ValidFreeable(a);
        FreeGuestMemory(a);
        return 0;
      }
      var oldSize := GetGuestAllocationSize(a);
      if oldSize == 0 { return 0; }
      if n <= oldSize { return a; }
      r := MoveBlock(a, oldSize, n, copyContents, host);
    }
  }

  predicate Copyable(src: nat, dst: nat, n: nat) { src + n <= U64 && dst + n <= U64 && Apart(src, n, dst, n) }

  /** The heap cannot serve the request. */
  predicate HeapFull(h: Heap, n: nat, al: nat)
    requires 0 < al <= U64
  { NoFit(h, AtLeastOne(n), al) && !BumpFits(h, AtLeastOne(n), al) }

  /** No block: the heap is full, and the mapping is refused, has a size that wraps to zero, or lands at
      address zero. */
  predicate AllocationFails(g: Guest, n: nat, al: nat, granted: bool)
    requires 0 < al <= U64
  { HeapFull(g.heap, n, al) && (!granted || MapSize(AtLeastOne(n)) == 0 || MapAddress(g.cursor, al) == 0) }

  /** The two ways a block can break the bookkeeping: the heap overflows, or it is full and the mapping
      cursor passes 2^64. */
  predicate GuestBreaks(g: Guest, n: nat, al: nat)
    requires 0 < al <= U64
  { Overflows(g.heap, n, al) || (HeapFull(g.heap, n, al) && !CursorFits(g.cursor, AtLeastOne(n), al)) }

  /** realloc needs a new block of n bytes, and that block breaks the bookkeeping. */
  predicate ReallocBreaks(g: Guest, a: nat, n: nat) {
    (a == 0 || (n != 0 && a in Live(g) && Live(g)[a] < n)) && GuestBreaks(g, n, DEFAULT_ALIGNMENT)
  }

  /** What moving block a promises. */
  ghost predicate Moved(g: Guest, m: Bytes, a: nat, n: nat, r: nat, copied: bool, g': Guest, m': Bytes)
    requires a in Live(g)
  {
    && Preserved(g, m, g', m', a)
    && (r == 0 ==> Live(g') == Live(g) && SameOn(m, m', a, Live(g)[a]))
    && (r != 0 ==> r in Live(g') && Live(g')[r] >= n && a !in Live(g') && r !in Live(g))
    && (r != 0 && copied ==> Copied(m, a, m', r, Live(g)[a]))
  }

  /** What realloc promises, case by case. */
  ghost predicate Reallocated(g: Guest, m: Bytes, a: nat, n: nat, r: nat, copied: bool, g': Guest, m': Bytes) {
    && Preserved(g, m, g', m', a)
    && (r != 0 ==> r in Live(g') && Live(g')[r] >= n)
    && (a != 0 && n != 0 && a in Live(g) && r != 0 && copied ==> Copied(m, a, m', r, Live(g)[a]))
    && (a != 0 && n != 0 && a in Live(g) && r == 0 ==> Live(g') == Live(g) && SameOn(m, m', a, Live(g)[a]))
    && (a != 0 && r != 0 && r != a ==> a !in Live(g') && r !in Live(g))
    && (a != 0 && n == 0 ==> r == 0 && a !in Live(g'))
    && (a != 0 && a !in Live(g) ==> r == 0 && Live(g') == Live(g))
  }

  /** The heap served the request: a new block below the mapped ones, unless it overflowed. */
  lemma HeapServed(g: Guest, n: nat, al: nat, r: nat, h': Heap)
    requires GuestInv(g) && 0 < n < U64 && PowerOfTwo(al) && 0 < al <= U64 && r != 0
    requires Allocates(g.heap, n, al, r, h')
    ensures !HeapFull(g.heap, n, al) && r < U64
    ensures Overflows(g.heap, n, al) ==> !GuestInv(g.(heap := h')) && Spoils(g, g.(heap := h'), r)
    ensures !Overflows(g.heap, n, al) ==> Gains(g, r, n, g.(heap := h')) && r % al == 0
  {
    var g' := g.(heap := h');
    AllocateInv(g.heap, n, al, r, h');
    if Overflows(g.heap, n, al) {
      OverflowPoisons(g.heap, n, al, r, h');
      SpoilsBreaks(g, g', r);
    } else {
      HeapGains(g, n, al, r, h');
      Below(g', r);
    }
    ServedBelow(g.heap, n, al, r, h');
  }

  lemma ServedBelow(h: Heap, n: nat, al: nat, r: nat, h': Heap)
    requires 0 < al <= U64 && Allocates(h, n, al, r, h')
    ensures r < U64
  {
    AlignUpBelow(h.hwm, al);
    if a :| Best(h, a, AtLeastOne(n), al) && r == AlignUp(a, al) { AlignUpBelow(a, al); }
  }

  lemma AlignUpBelow(x: nat, al: nat)
    requires 0 < al <= U64
    ensures AlignUp(x, al) < U64
  {
  }

  /** Freeing another block does not mend a spoiled one. */
  lemma StillSpoiled(g: Guest, g1: Guest, a: nat, g': Guest, r: nat)
    requires Spoils(g, g1, r) && a in Live(g) && g.dynamic.Keys <= g1.dynamic.Keys
    requires if a in g1.dynamic then g' == g1.(dynamic := g1.dynamic - {a})
             else g' == g1.(heap := g'.heap) && Frees(g1.heap, a, g'.heap)
    ensures !GuestInv(g')
  {
    SpoilsBreaks(g, g', r);
  }

  /** Every live block but a is still live, as large, and holds the same bytes. */
  ghost predicate Preserved(g: Guest, m: Bytes, g': Guest, m': Bytes, a: nat) {
    forall b: nat {:trigger b in Live(g)} :: b in Live(g) && b != a ==>
      b in Live(g') && Live(g')[b] == Live(g)[b] && SameOn(m, m', b, Live(g)[b])
  }

  /** Writing inside a new block disturbs no block that was live before. */
  lemma FreshKeeps(g: Guest, r: nat, s: nat, g1: Guest, m: Bytes, m': Bytes)
    requires GuestInv(g1) && Gains(g, r, s, g1) && SameOff(m, m', r, s)
    ensures forall b: nat {:trigger b in Live(g)} :: b in Live(g) ==>
              b != r && b in Live(g1) && Live(g1)[b] == Live(g)[b] && SameOn(m, m', b, Live(g)[b])
  {
    forall b: nat | b in Live(g)
      ensures b != r && b in Live(g1) && Live(g1)[b] == Live(g)[b] && SameOn(m, m', b, Live(g)[b])
    {
      LiveApart(g1, b, r);
    }
  }

  /** A new block has room for the contents of the block it replaces, and does not touch it. */
  lemma MoveRoom(g: Guest, a: nat, r: nat, s: nat, g1: Guest)
    requires Gains(g, r, s, g1) && a in Live(g) && Live(g)[a] <= s
    ensures a in Live(g1) && r != a && r < U64 && Copyable(a, r, Live(g)[a]) && Apart(a, Live(g)[a], r, s)
  {
    LiveApart(g1, a, r);
    Below(g1, a);
    Below(g1, r);
  }

  ghost predicate Fillable(m: Bytes, m1: Bytes, a: nat, r: nat, n: nat, s: nat) {
    SameOff(m, m1, r, s) && n <= s && Copyable(a, r, n) && Apart(a, n, r, s)
  }

  lemma MoveDone(g: Guest, m: Bytes, a: nat, n: nat, r: nat, s: nat, g1: Guest, copied: bool, m': Bytes, g': Guest)
    requires Gains(g, r, s, g1) && SameOff(m, m', r, s) && a in Live(g) && Loses(g1, a, g') && r != 0 && n <= s
    requires copied ==> Copied(m, a, m', r, Live(g)[a])
    ensures Moved(g, m, a, n, r, copied, g', m')
  {
    FreshKeeps(g, r, s, g1, m, m');
  }

  lemma NotMoved(g: Guest, m: Bytes, a: nat, n: nat, copied: bool, g': Guest)
    requires a in Live(g) && Live(g') == Live(g)
    ensures Moved(g, m, a, n, 0, copied, g', m)
  {
  }

  lemma MoveUndone(g: Guest, m: Bytes, a: nat, n: nat, r: nat, s: nat, g1: Guest, copied: bool, m': Bytes, g': Guest)
    requires Gains(g, r, s, g1) && SameOff(m, m', r, s) && a in Live(g) && Loses(g1, r, g')
    ensures Moved(g, m, a, n, 0, copied, g', m')
  {
    assert Live(g') == Live(g);
    FreshKeeps(g, r, s, g1, m, m');
  }

  lemma SameOffTwice(m: Bytes, m1: Bytes, m': Bytes, r: nat, n: nat, s: nat)
    requires SameOff(m, m1, r, s) && SameOff(m1, m', r, n) && n <= s
    ensures SameOff(m, m', r, s)
  {
    forall x: nat | !(r <= x < r + s) ensures m'(x) == m(x) { assert m1(x) == m(x); }
  }

  lemma CopiedFrom(m: Bytes, m1: Bytes, m': Bytes, a: nat, r: nat, n: nat, s: nat)
    requires SameOff(m, m1, r, s) && Copied(m1, a, m', r, n) && Apart(a, n, r, s)
    ensures Copied(m, a, m', r, n)
  {
    forall x: nat | r <= x < r + n ensures m'(x) == m(x - r + a) {
      assert m'(x) == m1(x - r + a);
    }
  }

  lemma PagePower()
    ensures PowerOfTwo(PAGE_SIZE)
  {
    assert PAGE_SIZE == Pow2(12);
  }

  /** A multiple of the larger of two powers of two is a multiple of the smaller. */
  lemma PowersDivide(al: nat, big: nat, x: nat)
    requires PowerOfTwo(al) && PowerOfTwo(big) && al <= big && al > 0 && big > 0 && x % big == 0
    ensures x % al == 0
  {
    var j: nat :| j <= 63 && al == Pow2(j);
    var k: nat :| k <= 63 && big == Pow2(k);
    if j > k { Pow2Monotone(k + 1, j); }
    Pow2Split(j, k);
    FactorDivides(x, al, Pow2(k - j));
  }

  lemma FactorDivides(x: nat, a: nat, b: nat)
    requires a > 0 && b > 0 && x % (a * b) == 0
    ensures x % a == 0
  {
    var q := x / (a * b);
    assert x == (a * b) * q;
    assert (a * b) * q == (b * q) * a;
    ModUnique(x, a, b * q, 0);
  }

  lemma {:induction false} Pow2Split(j: nat, k: nat)
    requires j <= k
    ensures Pow2(k) == Pow2(j) * Pow2(k - j)
  {
    if j > 0 { Pow2Split(j - 1, k - 1); }
  }
}
