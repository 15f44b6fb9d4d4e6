/**
 Address arithmetic of the ELF loader: the span of a file's PT_LOAD segments and the pages each
 of them is mapped to.
 */
module Elf {
  import opened AddressMap
  import opened Bits

  const MIB: nat := 0x10_0000
  const NONE: nat := U64 - 1          // UINT64_MAX, "no segment seen"

  datatype Segment = Segment(load: bool, vaddr: nat, memsz: nat)

  /** The fields of a segment are 64-bit words. */
  predicate AreWords(segs: seq<Segment>) {
    forall i :: 0 <= i < |segs| ==> segs[i].vaddr < U64 && segs[i].memsz < U64
  }

  function MinStart(segs: seq<Segment>): nat {
    if segs == [] then NONE
    else
      var m, s := MinStart(segs[..|segs| - 1]), segs[|segs| - 1];
      if s.load then Min(m, s.vaddr) else m
  }

  /** Ends are 64-bit sums. */
  function MaxEnd(segs: seq<Segment>): (m: nat)
    ensures m < U64
  {
    if segs == [] then 0
    else
      var m, s := MaxEnd(segs[..|segs| - 1]), segs[|segs| - 1];
      if s.load then Max(m, Add64(s.vaddr, s.memsz)) else m
  }

  function MinVaddr(segs: seq<Segment>): nat { if MinStart(segs) == NONE then 0 else MinStart(segs) }

  function Span(segs: seq<Segment>): (n: nat)
    ensures n < U64
  { if MinStart(segs) == NONE then 0 else (MaxEnd(segs) - MinStart(segs)) % U64 }

  /** Some PT_LOAD segment does not start at the last address, which reads as "no segment seen". */
  predicate SomeLoads(segs: seq<Segment>) { exists i :: 0 <= i < |segs| && segs[i].load && segs[i].vaddr != NONE }

  /** Segment i is a PT_LOAD segment with the least address. */
  predicate Lowest(segs: seq<Segment>, i: nat) {
    i < |segs| && segs[i].load && forall k :: 0 <= k < |segs| && segs[k].load ==> segs[i].vaddr <= segs[k].vaddr
  }

  /** ... with the greatest 64-bit end. */
  predicate Furthest(segs: seq<Segment>, i: nat) {
    && i < |segs| && segs[i].load
    && forall k :: 0 <= k < |segs| && segs[k].load ==> Add64(segs[k].vaddr, segs[k].memsz) <= Add64(segs[i].vaddr, segs[i].memsz)
  }

  lemma Attained(segs: seq<Segment>, l: nat) returns (i: nat, j: nat)
    requires AreWords(segs) && l < |segs| && segs[l].load
    ensures Lowest(segs, i) && segs[i].vaddr == MinStart(segs)
    ensures Furthest(segs, j) && Add64(segs[j].vaddr, segs[j].memsz) == MaxEnd(segs)
  {
    forall k | 0 <= k < |segs| && segs[k].load
      ensures MinStart(segs) <= segs[k].vaddr && Add64(segs[k].vaddr, segs[k].memsz) <= MaxEnd(segs)
    {
      Bounds(segs, k);
    }
    Bounds(segs, l);
    i :| 0 <= i < |segs| && segs[i].load && segs[i].vaddr == MinStart(segs);
    j :| 0 <= j < |segs| && segs[j].load && Add64(segs[j].vaddr, segs[j].memsz) == MaxEnd(segs);
  }

  /** Without such a segment both results are zero ... */
  lemma NoSpan(segs: seq<Segment>)
    requires AreWords(segs) && !SomeLoads(segs)
    ensures MinVaddr(segs) == 0 && Span(segs) == 0
  {
    if l :| 0 <= l < |segs| && segs[l].load { var i, j := Attained(segs, l); } else { NothingLoads(segs); }
  }

  /** ... else the least address, and the 64-bit distance from there to the greatest end. */
  lemma SpanMeaning(segs: seq<Segment>) returns (i: nat, j: nat)
    requires AreWords(segs) && SomeLoads(segs)
    ensures Lowest(segs, i) && Furthest(segs, j) && MinVaddr(segs) == segs[i].vaddr
    ensures Span(segs) == (Add64(segs[j].vaddr, segs[j].memsz) - segs[i].vaddr) % U64
  {
    var l :| 0 <= l < |segs| && segs[l].load && segs[l].vaddr != NONE;
    i, j := Attained(segs, l);
  }

  method GetMinVaddr(segs: seq<Segment>) returns (r: nat)
    ensures r == MinVaddr(segs)
  {
    var min := NONE;
    for i := 0 to |segs|
      invariant min == MinStart(segs[..i])
    {
      assert segs[..i + 1][..i] == segs[..i];
      if segs[i].load { min := Min(min, segs[i].vaddr); }
    }
    assert segs[..|segs|] == segs;
    r := if min == NONE then 0 else min;
  }

  method GetMemorySize(segs: seq<Segment>) returns (r: nat)
    ensures r == Span(segs)
  {
    var min, max := NONE, 0;
    for i := 0 to |segs|
      invariant min == MinStart(segs[..i]) && max == MaxEnd(segs[..i])
    {
      assert segs[..i + 1][..i] == segs[..i];
      if segs[i].load {
        var start := segs[i].vaddr;
        var end := Add64(start, segs[i].memsz);
        min, max := Min(min, start), Max(max, end);
      }
    }
    assert segs[..|segs|] == segs;
    r := if min == NONE then 0 else (max - min) % U64;
  }

  /** Both bound every PT_LOAD segment, and both are attained. */
  lemma {:induction false} Bounds(segs: seq<Segment>, i: nat)
    requires AreWords(segs) && i < |segs| && segs[i].load
    ensures MinStart(segs) <= segs[i].vaddr && Add64(segs[i].vaddr, segs[i].memsz) <= MaxEnd(segs)
    ensures exists j :: 0 <= j < |segs| && segs[j].load && segs[j].vaddr == MinStart(segs)
    ensures exists j :: 0 <= j < |segs| && segs[j].load && Add64(segs[j].vaddr, segs[j].memsz) == MaxEnd(segs)
  {
    var n := |segs| - 1;
    if exists j :: 0 <= j < n && segs[j].load {
      var j :| 0 <= j < n && segs[j].load;
      Bounds(segs[..n], if i < n then i else j);
      var k :| 0 <= k < n && segs[..n][k].load && segs[..n][k].vaddr == MinStart(segs[..n]);
      assert segs[k].vaddr == MinStart(segs) || segs[n].vaddr == MinStart(segs);
      var l :| 0 <= l < n && segs[..n][l].load && Add64(segs[..n][l].vaddr, segs[..n][l].memsz) == MaxEnd(segs[..n]);
      assert Add64(segs[l].vaddr, segs[l].memsz) == MaxEnd(segs) || Add64(segs[n].vaddr, segs[n].memsz) == MaxEnd(segs);
    } else {
      NothingLoads(segs[..n]);
      assert i == n;
    }
  }

  lemma {:induction false} NothingLoads(segs: seq<Segment>)
    requires forall j :: 0 <= j < |segs| ==> !segs[j].load
    ensures MinStart(segs) == NONE && MaxEnd(segs) == 0
  {
    if segs != [] { NothingLoads(segs[..|segs| - 1]); }
  }

  // ------------------------------------------------------------------ mappings

  /** Where a segment's first byte goes, and the pages mapped for it: (address, size). */
  function LoadAddress(base: nat, min: nat, s: Segment): (a: nat)
    ensures a < U64
  { (s.vaddr - min + base) % U64 }

  function Mapping(base: nat, min: nat, s: Segment): (nat, nat) {
    var vaddr := LoadAddress(base, min, s);
    var addr := AlignDown(vaddr, PAGE_SIZE);
    (addr, AlignUp(Add64(s.memsz, vaddr - addr), PAGE_SIZE))
  }

  /** The end of the slot a module gets: its span, rounded up to the next MiB boundary. */
  function SlotEnd(base: nat, span: nat): nat { AlignUp(Add64(base, span), MIB) }

  /** Segment i has pages, unless it is empty, and they lie in the slot. */
  predicate InSlot(base: nat, segs: seq<Segment>, i: nat)
    requires i < |segs|
  {
    var (addr, size) := Mapping(base, MinVaddr(segs), segs[i]);
    base <= addr && addr + size <= SlotEnd(base, Span(segs)) && (segs[i].memsz > 0 ==> size > 0)
  }

  /** What the size given to map() comes to in 64 bits, n bytes from offset off of a page: it is right, it
      wraps to zero, or it wraps to the one page the segment starts in. */
  predicate SizeRight(n: nat, off: nat) { n + off <= U64 - PAGE_SIZE }

  predicate SizeZero(n: nat, off: nat) { U64 - PAGE_SIZE < n + off <= U64 }

  /** Segment i's last byte, counted from the lowest one, is within the slot; its first byte, if the
      size wraps to one page. */
  predicate EndsInSlot(base: nat, segs: seq<Segment>, i: nat)
    requires i < |segs|
  {
    var s, min := segs[i], MinVaddr(segs);
    var off := LoadAddress(base, min, s) % PAGE_SIZE;
    && !SizeZero(s.memsz, off)
    && s.vaddr - min + (if SizeRight(s.memsz, off) then s.memsz else 1) <= SlotEnd(base, Span(segs)) - base
  }

  lemma PageAndMib()
    ensures PowerOfTwo(PAGE_SIZE) && PowerOfTwo(MIB)
  {
    assert PAGE_SIZE == Pow2(12);
    assert MIB == Pow2(20);
  }

  lemma RoundedDown(a: nat, lo: nat)
    requires lo % PAGE_SIZE == 0 && lo <= a < U64
    ensures lo <= AlignDown(a, PAGE_SIZE) <= a < AlignDown(a, PAGE_SIZE) + PAGE_SIZE && AlignDown(a, PAGE_SIZE) % PAGE_SIZE == 0
  {
    PageAndMib();
    AlignDownMeaning(a, PAGE_SIZE);
    var addr := AlignDown(a, PAGE_SIZE);
    if addr < lo { MultiplesApart(addr, lo, PAGE_SIZE); }
  }

  lemma RoundedUp(addr: nat, n: nat, hi: nat)
    requires addr % PAGE_SIZE == 0 && hi % PAGE_SIZE == 0 && n <= U64 - PAGE_SIZE
    ensures addr + AlignUp(n, PAGE_SIZE) <= hi <==> addr + n <= hi
    ensures n > 0 ==> AlignUp(n, PAGE_SIZE) > 0
  {
    PageAndMib();
    AlignUpMeaning(n, PAGE_SIZE);
    var end := addr + AlignUp(n, PAGE_SIZE);
    SumOfMultiples(addr, AlignUp(n, PAGE_SIZE), PAGE_SIZE);
    if hi < end { MultiplesApart(hi, end, PAGE_SIZE); }
  }

  /** The three outcomes of the size computation. */
  lemma MappedSize(n: nat, off: nat)
    requires n < U64 && off < PAGE_SIZE
    ensures SizeRight(n, off) ==> Add64(n, off) == n + off
    ensures SizeZero(n, off) ==> AlignUp(Add64(n, off), PAGE_SIZE) == 0
    ensures !SizeRight(n, off) && !SizeZero(n, off) ==> 0 < Add64(n, off) < off
  {
    PageAndMib();
    Wrap64(n + off);
    AlignUpMeaning(Add64(n, off), PAGE_SIZE);
  }

  /** Rounding a range out to pages: it stays between any page-aligned bounds it lay in. */
  lemma RoundedOut(a: nat, n: nat, lo: nat, hi: nat)
    requires lo % PAGE_SIZE == 0 && hi % PAGE_SIZE == 0 && lo <= a < U64 && n < U64
    ensures var addr := AlignDown(a, PAGE_SIZE);
            var off := a - addr;
            var size := AlignUp(Add64(n, off), PAGE_SIZE);
            && lo <= addr && off == a % PAGE_SIZE
            && (addr + size <= hi && (n > 0 ==> size > 0) <==>
                !SizeZero(n, off) && a + (if SizeRight(n, off) then n else 1) <= hi)
  {
    RoundedDown(a, lo);
    var addr := AlignDown(a, PAGE_SIZE);
    var off := a - addr;
    PageAndMib();
    AlignDownMeaning(a, PAGE_SIZE);
    MappedSize(n, off);
    if SizeRight(n, off) {
      RoundedUp(addr, n + off, hi);
    } else if !SizeZero(n, off) {
      RoundedUp(addr, Add64(n, off), hi);
      if addr < hi { MultiplesApart(addr, hi, PAGE_SIZE); }
    }
  }

  lemma OffsetMapping(base: nat, rel: nat, n: nat, end: nat)
    requires base % PAGE_SIZE == 0 && end % PAGE_SIZE == 0 && base < U64 && end < U64 && rel < U64 && n < U64
    ensures var a := (rel + base) % U64;
            var addr := AlignDown(a, PAGE_SIZE);
            var off := a % PAGE_SIZE;
            var size := AlignUp(Add64(n, a - addr), PAGE_SIZE);
            base <= addr && addr + size <= end && (n > 0 ==> size > 0) <==>
              !SizeZero(n, off) && rel + base + (if SizeRight(n, off) then n else 1) <= end
  {
    var a := (rel + base) % U64;
    Wrap64(rel + base);
    if rel + base < U64 {
      RoundedOut(a, n, base, end);
    } else {
      RoundedDown(a, 0);
    }
  }

  /** Whatever its header says, a segment lands in its module's slot exactly if its end does. */
  lemma MappingInSlot(base: nat, segs: seq<Segment>, i: nat)
    requires AreWords(segs) && i < |segs| && segs[i].load && base % MIB == 0 && base < U64
    ensures InSlot(base, segs, i) <==> EndsInSlot(base, segs, i)
  {
    var s, min := segs[i], MinVaddr(segs);
    Bounds(segs, i);
    SlotBounds(base, Span(segs));
    MibPages(base);
    OffsetMapping(base, s.vaddr - min, s.memsz, SlotEnd(base, Span(segs)));
  }

  /** The end of the span, rounded up to a MiB, stays below 2^64. */
  predicate Fits(base: nat, span: nat) { base + span <= U64 - MIB }

  /** The slot covers the span exactly if it fits; otherwise it ends at or below its base. */
  lemma SlotBounds(base: nat, span: nat)
    requires base % MIB == 0 && base < U64 && span < U64
    ensures SlotEnd(base, span) < U64 && SlotEnd(base, span) % MIB == 0 && SlotEnd(base, span) % PAGE_SIZE == 0
    ensures Fits(base, span) ==> base + span <= SlotEnd(base, span) < base + span + MIB
    ensures !Fits(base, span) ==> SlotEnd(base, span) <= base && span > 0
  {
    PageAndMib();
    var sum := Add64(base, span);
    AlignUpMeaning(sum, MIB);
    MibPages(SlotEnd(base, span));
    Wrap64(base + span);
    MultiplesApart(base, U64, MIB);
  }

  lemma MibPages(x: nat)
    requires x % MIB == 0
    ensures x % PAGE_SIZE == 0
  {
  }

  predicate Unwrapped(segs: seq<Segment>) {
    forall j :: 0 <= j < |segs| && segs[j].load ==> segs[j].vaddr + segs[j].memsz < U64
  }

  predicate AllEndInSlot(base: nat, segs: seq<Segment>) {
    forall i :: 0 <= i < |segs| && segs[i].load ==> EndsInSlot(base, segs, i)
  }

  /** If no PT_LOAD segment runs past 2^64, all of them end in the slot exactly if the span fits (and
      not all of them are empty ones at the last address, which reads as "no segment seen"). */
  lemma UnwrappedEndInSlot(base: nat, segs: seq<Segment>, i: nat)
    requires AreWords(segs) && Unwrapped(segs) && base % MIB == 0 && base < U64 && i < |segs| && segs[i].load
    ensures AllEndInSlot(base, segs) <==> Fits(base, Span(segs)) && MinStart(segs) != NONE
  {
    Bounds(segs, i);
    SlotBounds(base, Span(segs));
    var k :| 0 <= k < |segs| && segs[k].load && Add64(segs[k].vaddr, segs[k].memsz) == MaxEnd(segs);
    Wrap64(MaxEnd(segs) - MinStart(segs));
    if MinStart(segs) == NONE {
      assert !EndsInSlot(base, segs, i) by { SlotBounds(base, 0); }
    } else if Fits(base, Span(segs)) {
      forall j | 0 <= j < |segs| && segs[j].load ensures EndsInSlot(base, segs, j) { Bounds(segs, j); }
    } else {
      assert !EndsInSlot(base, segs, k) by { Bounds(segs, k); }
    }
  }

  /** A segment that runs past 2^64 can be mapped below its module, over whatever is there. */
  lemma WrappedExample()
    ensures var segs := [Segment(true, 0x1000, 0x1000), Segment(true, U64 - 0x1000, 0x2000)];
            && AreWords(segs) && Span(segs) == 0x1000 && MinVaddr(segs) == 0x1000
            && !InSlot(0x4000_0000, segs, 1) && Mapping(0x4000_0000, 0x1000, segs[1]) == (0x3FFF_E000, 0x2000)
  {
    var a, b := Segment(true, 0x1000, 0x1000), Segment(true, U64 - 0x1000, 0x2000);
    var segs := [a, b];
    assert segs[..1] == [a] && [a][..0] == [];
    assert MinStart([a]) == 0x1000 && MaxEnd([a]) == 0x2000;
    assert Add64(b.vaddr, b.memsz) == 0x1000;
    assert MinStart(segs) == 0x1000 && MaxEnd(segs) == 0x2000;
    assert LoadAddress(0x4000_0000, 0x1000, b) == 0x3FFF_E000;
    PageAndMib();
    AlignDownMeaning(0x3FFF_E000, PAGE_SIZE);
    AlignUpMeaning(0x2000, PAGE_SIZE);
    assert 0x2000 % PAGE_SIZE == 0;
  }

  /** A startup file of two pages, one at the lowest address and one near the highest: no segment runs
      past 2^64, yet the slot is empty and the second page is mapped below the module. */
  lemma FarApartExample(segs: seq<Segment>)
    requires segs == [Segment(true, 0, 0x1000), Segment(true, U64 - 0x2000, 0x1000)]
    ensures AreWords(segs) && Unwrapped(segs) && Span(segs) == U64 - 0x1000 && MinVaddr(segs) == 0
    ensures SlotEnd(CODE_BASE, Span(segs)) == CODE_BASE && !Fits(CODE_BASE, Span(segs))
    ensures Mapping(CODE_BASE, 0, segs[0]) == (CODE_BASE, 0x1000) && !InSlot(CODE_BASE, segs, 0)
    ensures Mapping(CODE_BASE, 0, segs[1]) == (CODE_BASE - 0x2000, 0x1000) && !InSlot(CODE_BASE, segs, 1)
  {
    FarApartSpan(segs);
    FarApartSlot();
    PageMapping(segs[0], CODE_BASE, 0x4_0000);
    Wrap64(U64 - 0x2000 + CODE_BASE);
    PageMapping(segs[1], CODE_BASE - 0x2000, 0x3_FFFE);
  }

  lemma FarApartSpan(segs: seq<Segment>)
    requires segs == [Segment(true, 0, 0x1000), Segment(true, U64 - 0x2000, 0x1000)]
    ensures Span(segs) == U64 - 0x1000 && MinVaddr(segs) == 0
  {
    var a := segs[0];
    assert segs[..1] == [a] && [a][..0] == [];
    assert MinStart([a]) == 0 && MaxEnd([a]) == 0x1000;
    Wrap64(U64 - 0x1000);
  }

  lemma FarApartSlot()
    ensures SlotEnd(CODE_BASE, U64 - 0x1000) == CODE_BASE
  {
    PageAndMib();
    Wrap64(CODE_BASE + (U64 - 0x1000));
    AlignUpMeaning(CODE_BASE - 0x1000, MIB);
    ModUnique(CODE_BASE, MIB, 0x400, 0);
    ModUnique(CODE_BASE - MIB, MIB, 0x3FF, 0);
    MultiplesApart(CODE_BASE - MIB, AlignUp(CODE_BASE - 0x1000, MIB), MIB);
  }

  /** A segment of one page that is loaded at a page boundary. */
  lemma PageMapping(s: Segment, a: nat, page: nat)
    requires s.memsz == PAGE_SIZE && a < U64 && a == page * PAGE_SIZE && LoadAddress(CODE_BASE, 0, s) == a
    ensures Mapping(CODE_BASE, 0, s) == (a, PAGE_SIZE)
  {
    PageAndMib();
    ModUnique(a, PAGE_SIZE, page, 0);
    AlignDownMeaning(a, PAGE_SIZE);
    ModUnique(PAGE_SIZE, PAGE_SIZE, 1, 0);
    AlignUpMeaning(PAGE_SIZE, PAGE_SIZE);
  }

  /** A segment of nearly 2^64 bytes whose page-rounded size wraps to one page: it is mapped, in its slot,
      although its last byte is far outside. */
  lemma OnePageExample(segs: seq<Segment>)
    requires segs == [Segment(true, 0, 0x1000), Segment(true, 0x2010, U64 - 1)]
    ensures AreWords(segs) && Span(segs) == 0x200F && MinVaddr(segs) == 0
    ensures Mapping(CODE_BASE, 0, segs[1]) == (CODE_BASE + 0x2000, 0x1000)
    ensures InSlot(CODE_BASE, segs, 1) && EndsInSlot(CODE_BASE, segs, 1)
    ensures segs[1].vaddr + segs[1].memsz > SlotEnd(CODE_BASE, Span(segs)) - CODE_BASE
  {
    OnePageSpan(segs);
    OnePageMapping(segs[1]);
    assert CODE_BASE % MIB == 0;
    SlotBounds(CODE_BASE, 0x200F);
    MappingInSlot(CODE_BASE, segs, 1);
  }

  lemma OnePageSpan(segs: seq<Segment>)
    requires segs == [Segment(true, 0, 0x1000), Segment(true, 0x2010, U64 - 1)]
    ensures Span(segs) == 0x200F && MinVaddr(segs) == 0
  {
    var a := segs[0];
    assert segs[..1] == [a] && [a][..0] == [];
    assert MinStart([a]) == 0 && MaxEnd([a]) == 0x1000;
    Wrap64(0x2010 + (U64 - 1));
  }

  lemma OnePageMapping(s: Segment)
    requires s == Segment(true, 0x2010, U64 - 1)
    ensures Mapping(CODE_BASE, 0, s) == (CODE_BASE + 0x2000, 0x1000)
  {
    PageAndMib();
    ModUnique(CODE_BASE + 0x2010, PAGE_SIZE, 0x4_0002, 0x10);
    AlignDownMeaning(CODE_BASE + 0x2010, PAGE_SIZE);
    Wrap64(U64 - 1 + 0x10);
    AlignUpMeaning(0xF, PAGE_SIZE);
    assert 0x1000 % PAGE_SIZE == 0;
  }
}
