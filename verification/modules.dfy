/**
 The module arena: every loaded library gets a slot of its own, published modules are never
 moved or removed, and symbol lookups only ever see more of them.
 */
module Modules {
  import opened AddressMap
  import opened Bits
  import opened Elf

  datatype Module = Module(name: string, path: string, base: nat, size: nat, exports: map<string, nat>, segs: seq<Segment>)

  /** What parsing a file yields: its segments and its defined dynamic symbols. */
  datatype File = File(segs: seq<Segment>, symbols: map<string, nat>)

  function SlotOf(m: Module): nat { SlotEnd(m.base, m.size) }

  // ------------------------------------------------------------------ slots

  predicate ModuleOk(m: Module, next: nat) {
    && CODE_BASE <= m.base && m.base % MIB == 0 && m.size == Span(m.segs) && AreWords(m.segs)
    && m.base + m.size <= SlotOf(m) <= next
  }

  /** Slots are handed out upwards and never overlap. */
  predicate Slots(ms: seq<Module>, next: nat) {
    && CODE_BASE <= next < U64 && next % MIB == 0
    && (forall i :: 0 <= i < |ms| ==> ModuleOk(ms[i], next))
    && (forall i, j :: 0 <= i < j < |ms| ==> SlotOf(ms[i]) <= ms[j].base)
  }

  /** A module placed at the cursor keeps the slots apart exactly if they were, and its span fits. */
  lemma NextSlot(ms: seq<Module>, next: nat, m: Module)
    requires next < U64 && next % MIB == 0 && m.base == next && m.size == Span(m.segs) && AreWords(m.segs)
    ensures Slots(ms + [m], SlotOf(m)) <==> Slots(ms, next) && Fits(next, m.size)
    ensures Slots(ms, next) && Fits(next, m.size) ==> next <= SlotOf(m) && Slots(ms, SlotOf(m))
  {
    SlotBounds(next, m.size);
    var ms' := ms + [m];
    if Slots(ms, next) && Fits(next, m.size) {
      forall i | 0 <= i < |ms'| ensures ModuleOk(ms'[i], SlotOf(m)) {
        if i < |ms| { assert ModuleOk(ms[i], next); }
      }
    }
    if Slots(ms', SlotOf(m)) {
      assert ModuleOk(ms'[|ms|], SlotOf(m));
      forall i | 0 <= i < |ms| ensures ModuleOk(ms[i], next) {
        assert ModuleOk(ms'[i], SlotOf(m)) && SlotOf(ms'[i]) <= ms'[|ms|].base;
      }
      forall i, j | 0 <= i < j < |ms| ensures SlotOf(ms[i]) <= ms[j].base {
        assert SlotOf(ms'[i]) <= ms'[j].base;
      }
    }
  }

  /** The mapped pages of two published modules are disjoint, provided each module's segments end in
      its slot. */
  lemma MappingsDisjoint(ms: seq<Module>, next: nat, i: nat, j: nat, a: nat, b: nat)
    requires Slots(ms, next) && i < j < |ms| && Loadable(ms[i], a) && Loadable(ms[j], b)
    ensures var (addr, size) := Mapping(ms[i].base, MinVaddr(ms[i].segs), ms[i].segs[a]);
            var (addr', size') := Mapping(ms[j].base, MinVaddr(ms[j].segs), ms[j].segs[b]);
            addr + size <= addr'
  {
    assert ModuleOk(ms[i], next) && ModuleOk(ms[j], next);
    MappingInSlot(ms[i].base, ms[i].segs, a);
    MappingInSlot(ms[j].base, ms[j].segs, b);
  }

  predicate Loadable(m: Module, a: nat) {
    a < |m.segs| && m.segs[a].load && EndsInSlot(m.base, m.segs, a)
  }

  /** All pages of a module lie in its slot. */
  predicate Contained(base: nat, segs: seq<Segment>) {
    forall i :: 0 <= i < |segs| && segs[i].load ==> InSlot(base, segs, i)
  }

  lemma ContainedMeaning(base: nat, segs: seq<Segment>)
    requires AreWords(segs) && base % MIB == 0 && base < U64
    ensures Contained(base, segs) <==> AllEndInSlot(base, segs)
  {
    forall i | 0 <= i < |segs| && segs[i].load ensures InSlot(base, segs, i) <==> EndsInSlot(base, segs, i) {
      MappingInSlot(base, segs, i);
    }
  }

  /** A published module none of whose segments runs past 2^64 has all its pages in its slot, unless all
      its segments are empty ones at the last address. */
  lemma PagesInSlot(ms: seq<Module>, next: nat, i: nat)
    requires Slots(ms, next) && i < |ms| && Unwrapped(ms[i].segs)
    ensures Contained(ms[i].base, ms[i].segs) <==>
              MinStart(ms[i].segs) != NONE || forall a :: 0 <= a < |ms[i].segs| ==> !ms[i].segs[a].load
  {
    assert ModuleOk(ms[i], next);
    SlotBounds(ms[i].base, ms[i].size);
    if a :| 0 <= a < |ms[i].segs| && ms[i].segs[a].load { UnwrappedEndInSlot(ms[i].base, ms[i].segs, a); }
    ContainedMeaning(ms[i].base, ms[i].segs);
  }

  // ------------------------------------------------------------------ handles

  /** The first module at an address, |ms| if there is none: what find_module_by_base finds. */
  function FirstAt(ms: seq<Module>, base: nat): (i: nat)
    ensures i <= |ms| && (i < |ms| ==> ms[i].base == base)
    ensures forall k :: 0 <= k < i ==> ms[k].base != base
  { if ms == [] || ms[0].base == base then 0 else 1 + FirstAt(ms[1..], base) }

  /** Publishing more modules never changes what a handle means. */
  lemma HandleStable(ms: seq<Module>, ms': seq<Module>, base: nat)
    requires ms <= ms' && FirstAt(ms, base) < |ms|
    ensures FirstAt(ms', base) == FirstAt(ms, base) && ms'[FirstAt(ms', base)] == ms[FirstAt(ms, base)]
  {
    var i := FirstAt(ms, base);
    assert ms'[i] == ms[i];
    forall k | 0 <= k < i ensures ms'[k].base != base { assert ms'[k] == ms[k]; }
  }

  /** A published module answers to its own base address exactly if no empty module was published there
      before it. */
  lemma OwnHandle(ms: seq<Module>, next: nat, i: nat)
    requires Slots(ms, next) && i < |ms|
    ensures FirstAt(ms, ms[i].base) == i <==> !EmptyAt(ms[..i], ms[i].base)
  {
    var k := FirstAt(ms, ms[i].base);
    if k < i { assert ModuleOk(ms[k], next) && ms[..i][k] == ms[k]; }
  }

  /** At load time: the module about to be published at the cursor. */
  lemma NewHandle(ms: seq<Module>, next: nat, m: Module)
    requires Slots(ms, next) && m.base == next
    ensures FirstAt(ms + [m], next) == |ms| <==> !EmptyAt(ms, next)
  {
    var ms' := ms + [m];
    var i := FirstAt(ms', next);
    assert ms'[|ms|].base == next;
    assert forall k :: 0 <= k < |ms| ==> ms'[k] == ms[k];
    if i < |ms| { assert ModuleOk(ms[i], next); }
  }

  /** Looking module i's base up finds it, exactly if no empty module is in the way. */
  predicate Answers(ms: seq<Module>, i: nat)
    requires i < |ms|
  { FirstAt(ms, ms[i].base) == i <==> !EmptyAt(ms[..i], ms[i].base) }

  predicate EmptyAt(ms: seq<Module>, a: nat) { exists i :: 0 <= i < |ms| && ms[i].size == 0 && ms[i].base == a }

  /** Loading a file without PT_LOAD segments first gives the next module the same handle. */
  lemma SharedHandleExample(m: Module, m': Module)
    requires m == Module("stub", "", CODE_BASE, 0, map[], [])
    requires m' == Module("lib", "", CODE_BASE, 0x1000, map[], [Segment(true, 0, 0x1000)])
    ensures Slots([m, m'], CODE_BASE + MIB) && EmptyAt([m], m'.base) && FirstAt([m, m'], m'.base) == 0
  {
    assert Span([]) == 0;
    var segs := m'.segs;
    assert segs[..0] == [];
    assert MinStart(segs) == 0 && MaxEnd(segs) == 0x1000;
    SlotBounds(CODE_BASE, 0);
    SlotBounds(CODE_BASE, 0x1000);
    assert SlotOf(m) == CODE_BASE && SlotOf(m') == CODE_BASE + MIB by {
      assert (SlotOf(m) - CODE_BASE) % MIB == 0;
      assert (SlotOf(m') - CODE_BASE) % MIB == 0;
    }
    assert [m][0].size == 0;
  }

  /** After a startup module whose span does not fit, the next one is mapped over it and shares its
      handle, although neither is empty. */
  lemma OverlapExample(m: Module, m': Module)
    requires m.base == CODE_BASE && m.size == Span(m.segs)
    requires m.segs == [Segment(true, 0, 0x1000), Segment(true, U64 - 0x2000, 0x1000)]
    requires m'.base == SlotOf(m) && m'.segs == [Segment(true, 0, 0x1000)]
    ensures !Slots([m], SlotOf(m)) && FirstAt([m, m'], m'.base) == 0 && !EmptyAt([m], m'.base)
    ensures Mapping(m'.base, MinVaddr(m'.segs), m'.segs[0]) == Mapping(m.base, MinVaddr(m.segs), m.segs[0])
  {
    FarApartExample(m.segs);
    assert m'.segs[..0] == [];
    assert MinStart(m'.segs) == 0;
    assert !ModuleOk([m][0], SlotOf(m));
  }

  // ------------------------------------------------------------------ imports

  /** A symbol name without its version: everything before the first '@'. */
  function BaseName(s: string): string {
    if s == "" || s[0] == '@' then "" else [s[0]] + BaseName(s[1..])
  }

  function Lookup(m: map<string, nat>, s: string): nat { if s in m then m[s] else 0 }

  /** The first module that exports either name wins. */
  function FirstExport(ms: seq<Module>, s: string): nat {
    if ms == [] then 0
    else if s in ms[0].exports then ms[0].exports[s]
    else if BaseName(s) in ms[0].exports then ms[0].exports[BaseName(s)]
    else FirstExport(ms[1..], s)
  }

  /** HLE stubs, then synthesized globals, then module exports; in each the full name first. */
  function Resolve(hle: map<string, nat>, globals: map<string, nat>, ms: seq<Module>, s: string): nat {
    if Lookup(hle, s) != 0 then hle[s]
    else if Lookup(hle, BaseName(s)) != 0 then hle[BaseName(s)]
    else if s in globals then globals[s]
    else if BaseName(s) in globals then globals[BaseName(s)]
    else FirstExport(ms, s)
  }

  /** Module i exports s, under its full name or without the version. */
  predicate Exported(m: Module, s: string) { s in m.exports || BaseName(s) in m.exports }

  /** Module i is the first that does. */
  predicate FirstExporter(ms: seq<Module>, s: string, i: nat) {
    i < |ms| && Exported(ms[i], s) && forall k :: 0 <= k < i ==> !Exported(ms[k], s)
  }

  lemma {:induction false} FirstExportAt(ms: seq<Module>, s: string, i: nat)
    requires FirstExporter(ms, s, i)
    ensures FirstExport(ms, s) == if s in ms[i].exports then ms[i].exports[s] else ms[i].exports[BaseName(s)]
  {
    if i > 0 {
      assert !Exported(ms[0], s);
      FirstExportAt(ms[1..], s, i - 1);
    }
  }

  lemma {:induction false} NoExport(ms: seq<Module>, s: string)
    requires forall k :: 0 <= k < |ms| ==> !Exported(ms[k], s)
    ensures FirstExport(ms, s) == 0
  {
    if ms != [] {
      assert !Exported(ms[0], s);
      NoExport(ms[1..], s);
    }
  }

  lemma FirstExportMeaning(ms: seq<Module>, s: string)
    ensures forall i: nat :: FirstExporter(ms, s, i) ==>
              FirstExport(ms, s) == if s in ms[i].exports then ms[i].exports[s] else ms[i].exports[BaseName(s)]
    ensures (forall k :: 0 <= k < |ms| ==> !Exported(ms[k], s)) ==> FirstExport(ms, s) == 0
  {
    forall i: nat | FirstExporter(ms, s, i)
      ensures FirstExport(ms, s) == if s in ms[i].exports then ms[i].exports[s] else ms[i].exports[BaseName(s)]
    {
      FirstExportAt(ms, s, i);
    }
    if forall k :: 0 <= k < |ms| ==> !Exported(ms[k], s) { NoExport(ms, s); }
  }

  lemma {:induction false} PlainName(s: string)
    requires '@' !in s
    ensures BaseName(s) == s
  {
    if s != "" { PlainName(s[1..]); }
  }

  lemma {:induction false} ExportsAlike(ms: seq<Module>, s: string)
    requires forall k :: 0 <= k < |ms| ==> s !in ms[k].exports
    ensures FirstExport(ms, s) == FirstExport(ms, BaseName(s))
  {
    BaseNameMeaning(s);
    PlainName(BaseName(s));
    if ms != [] {
      assert s !in ms[0].exports;
      ExportsAlike(ms[1..], s);
    }
  }

  /** A versioned name nobody has an entry for resolves as the name without its version does. */
  lemma VersionIgnored(hle: map<string, nat>, globals: map<string, nat>, ms: seq<Module>, s: string)
    requires (s in hle ==> hle[s] == 0) && s !in globals && forall k :: 0 <= k < |ms| ==> s !in ms[k].exports
    ensures Resolve(hle, globals, ms, s) == Resolve(hle, globals, ms, BaseName(s))
  {
    BaseNameMeaning(s);
    PlainName(BaseName(s));
    ExportsAlike(ms, s);
  }

  lemma {:induction false} ExportStable(ms: seq<Module>, ms': seq<Module>, s: string)
    requires ms <= ms' && FirstExport(ms, s) != 0
    ensures FirstExport(ms', s) == FirstExport(ms, s)
  {
    assert ms'[0] == ms[0];
    if s !in ms[0].exports && BaseName(s) !in ms[0].exports { ExportStable(ms[1..], ms'[1..], s); }
  }

  /** An import that resolves keeps its address whatever is loaded later. */
  lemma ImportStable(hle: map<string, nat>, globals: map<string, nat>, ms: seq<Module>, ms': seq<Module>, s: string)
    requires ms <= ms' && Resolve(hle, globals, ms, s) != 0
    ensures Resolve(hle, globals, ms', s) == Resolve(hle, globals, ms, s)
  {
    if Lookup(hle, s) == 0 && Lookup(hle, BaseName(s)) == 0 && s !in globals && BaseName(s) !in globals {
      ExportStable(ms, ms', s);
    }
  }

  /** The version suffix starts at the first '@', if there is one. */
  lemma {:induction false} BaseNameMeaning(s: string)
    ensures BaseName(s) <= s && '@' !in BaseName(s)
    ensures |BaseName(s)| < |s| ==> s[|BaseName(s)|] == '@'
  {
    if s != "" && s[0] != '@' { BaseNameMeaning(s[1..]); }
  }

  /** Where a file's exports end up when it is loaded at base. */
  function Exports(base: nat, file: File): map<string, nat> {
    map n | n in file.symbols && n != "" && file.symbols[n] != 0 ::
      (base + file.symbols[n] - MinVaddr(file.segs)) % U64
  }

  /** A symbol in a PT_LOAD segment is exported at that segment's load address plus its offset in it; so
      inside the module's slot, if the segment ends there and its size does not wrap. */
  lemma ExportInSegment(base: nat, file: File, n: string, i: nat)
    requires AreWords(file.segs) && base % MIB == 0 && base < U64 && n in file.symbols && n != "" && file.symbols[n] != 0
    requires i < |file.segs| && file.segs[i].load
    requires file.segs[i].vaddr <= file.symbols[n] < file.segs[i].vaddr + file.segs[i].memsz
    ensures n in Exports(base, file)
    ensures var s, load := file.segs[i], LoadAddress(base, MinVaddr(file.segs), file.segs[i]);
            && Exports(base, file)[n] == Add64(load, file.symbols[n] - s.vaddr)
            && (EndsInSlot(base, file.segs, i) && SizeRight(s.memsz, load % PAGE_SIZE) ==>
                  && Exports(base, file)[n] == load + (file.symbols[n] - s.vaddr)
                  && base <= load && Exports(base, file)[n] < SlotEnd(base, Span(file.segs)))
  {
    var s, min, v := file.segs[i], MinVaddr(file.segs), file.symbols[n];
    Bounds(file.segs, i);
    SlotBounds(base, Span(file.segs));
    SameWrap(s.vaddr - min + base, v - s.vaddr);
    assert base + v - min == s.vaddr - min + base + (v - s.vaddr);
    Wrap64(s.vaddr - min + base);
  }

  /** Wrapping before an addition changes nothing. */
  lemma SameWrap(x: nat, y: nat)
    ensures (x + y) % U64 == Add64(x % U64, y)
  {
    var q, z := x / U64, x % U64 + y;
    assert x + y == U64 * q + z;
    assert z == (z / U64) * U64 + z % U64;
    assert x + y == (q + z / U64) * U64 + z % U64;
    ModUnique(x + y, U64, q + z / U64, z % U64);
  }

  // ------------------------------------------------------------------ the table

  predicate NoStub(hle: map<string, nat>, s: string) { s in hle ==> hle[s] == 0 }

  predicate FileOk(file: File) { AreWords(file.segs) }

  class ModuleTable {
    var modules: seq<Module>
    var capacity: nat                 // of the vector behind modules_
    var nextLoadAddr: nat
    var refcounts: map<nat, nat>

    predicate Valid()
      reads this
    { Slots(modules, nextLoadAddr) && |modules| <= capacity }

    /** What holds even after a module that did not fit. */
    predicate Aligned()
      reads this
    { nextLoadAddr < U64 && nextLoadAddr % MIB == 0 && |modules| <= capacity }

    constructor (capacity: nat)
      requires capacity >= 256
      ensures Valid() && modules == [] && nextLoadAddr == CODE_BASE
    {
      modules, this.capacity, nextLoadAddr, refcounts := [], capacity, CODE_BASE, map[];
    }

    /** Map the file at the arena cursor and move the cursor past it.  Whether the pages can be
        mapped is up to the host. */
    method Load(name: string, path: string, file: File, mapped: bool) returns (ok: bool, m: Module)
      requires Aligned() && FileOk(file)
      modifies this`nextLoadAddr
      ensures Aligned() && ok == mapped
      ensures m == Module(name, path, old(nextLoadAddr), Span(file.segs), Exports(old(nextLoadAddr), file), file.segs)
      ensures nextLoadAddr == if ok then SlotOf(m) else old(nextLoadAddr)
      ensures ok ==> (Slots(modules + [m], nextLoadAddr) <==> old(Valid()) && Fits(old(nextLoadAddr), m.size))
      ensures old(Valid()) && Fits(old(nextLoadAddr), m.size) ==> Valid() && old(nextLoadAddr) <= nextLoadAddr
    {
      var size := GetMemorySize(file.segs);
      m := Module(name, path, nextLoadAddr, size, Exports(nextLoadAddr, file), file.segs);
      if !mapped { return false, m; }
      NextSlot(modules, nextLoadAddr, m);
      SlotBounds(nextLoadAddr, size);
      nextLoadAddr := AlignUp(Add64(m.base, m.size), MIB);
      ok := true;
    }

    /** load_library, at startup: the vector may grow, and nothing bounds the module.  The slots stay
        apart, with the new module's pages in its own, exactly if they were apart, the span fits and
        every segment ends in the slot. */
    method LoadLibrary(name: string, path: string, file: File, mapped: bool, relocated: bool) returns (ok: bool)
      requires Aligned() && FileOk(file)
      modifies this
      ensures Aligned() && old(modules) <= modules && refcounts == old(refcounts)
      ensures ok == (mapped && relocated)
      ensures modules == if ok then old(modules) + [Module(name, path, old(nextLoadAddr), Span(file.segs),
                                                           Exports(old(nextLoadAddr), file), file.segs)]
                         else old(modules)
      ensures nextLoadAddr == if mapped then SlotEnd(old(nextLoadAddr), Span(file.segs)) else old(nextLoadAddr)
      ensures old(Valid()) && Fits(old(nextLoadAddr), Span(file.segs)) ==> Valid() && old(nextLoadAddr) <= nextLoadAddr
      ensures ok ==> (Valid() && Contained(old(nextLoadAddr), file.segs) <==>
                        old(Valid()) && Fits(old(nextLoadAddr), Span(file.segs)) && AllEndInSlot(old(nextLoadAddr), file.segs))
      ensures ok && old(Valid()) ==>
                (FirstAt(modules, old(nextLoadAddr)) == |old(modules)| <==> !EmptyAt(old(modules), old(nextLoadAddr)))
    {
      var loaded, m := Load(name, path, file, mapped);
      if !loaded { return false; }
      if !relocated { return false; }
      if |modules| == capacity { capacity := 2 * capacity + 1; }
      if old(Valid()) { NewHandle(modules, old(nextLoadAddr), m); }
      ContainedMeaning(old(nextLoadAddr), file.segs);
      modules := modules + [m];
      ok := true;
    }

    /** load_module_locked: refuses before mapping what would reach the heap, wrap, or make the vector
        move; a module whose relocation fails is not published but its slot stays used. */
    method LoadModule(name: string, path: string, file: File, mapped: bool, relocated: bool) returns (ok: bool, base: nat)
      requires Aligned() && FileOk(file)
      modifies this`modules, this`nextLoadAddr
      ensures Aligned() && old(modules) <= modules
      ensures old(Valid()) ==> Valid() && old(nextLoadAddr) <= nextLoadAddr
      ensures if ok then base == old(nextLoadAddr) && SlotEnd(base, Span(file.segs)) <= HEAP_BASE
                         && modules == old(modules) + [Module(name, path, base, Span(file.segs), Exports(base, file), file.segs)]
              else modules == old(modules)
      ensures ok <==> mapped && relocated && |old(modules)| < capacity
                      && 0 < Span(file.segs) && old(nextLoadAddr) + Span(file.segs) < HEAP_BASE
      ensures nextLoadAddr == if mapped && |old(modules)| < capacity && 0 < Span(file.segs)
                                 && old(nextLoadAddr) + Span(file.segs) < HEAP_BASE
                              then SlotEnd(old(nextLoadAddr), Span(file.segs)) else old(nextLoadAddr)
      ensures ok && old(Valid()) ==> (FirstAt(modules, base) == |old(modules)| <==> !EmptyAt(old(modules), base))
    {
      base := 0;
      var span := GetMemorySize(file.segs);
      if span == 0 || Add64(nextLoadAddr, span) < nextLoadAddr || Add64(nextLoadAddr, span) >= HEAP_BASE {
        Wrap64(nextLoadAddr + span);
        return false, base;
      }
      Wrap64(nextLoadAddr + span);
      if |modules| >= capacity { return false, base; }
      BelowHeap(nextLoadAddr, span);
      var loaded, m := Load(name, path, file, mapped);
      if !loaded { return false, base; }
      if !relocated { return false, base; }
      base := m.base;
      if old(Valid()) { NewHandle(modules, base, m); }
      modules := modules + [m];
      ok := true;
    }

    /** m was loaded from the path, or has no path and the name. */
    predicate Same(m: Module, hostPath: string, baseName: string) {
      (m.path != "" && m.path == hostPath) || (m.path == "" && m.name == baseName)
    }

    predicate Known(ms: seq<Module>, hostPath: string, baseName: string) {
      exists i :: 0 <= i < |ms| && Same(ms[i], hostPath, baseName)
    }

    /** Module i, the first for the file, is at the handle. */
    predicate IsHandle(ms: seq<Module>, i: nat, handle: nat, hostPath: string, baseName: string) {
      && i < |ms| && ms[i].base == handle && Same(ms[i], hostPath, baseName)
      && forall k :: 0 <= k < i ==> !Same(ms[k], hostPath, baseName)
    }

    /** dlopen: an already loaded file gives its old handle again; otherwise it is loaded.  A handle
        is the base address of a published module. */
    method DlOpen(hostPath: string, baseName: string, noLoad: bool, readable: bool, file: File, mapped: bool, relocated: bool)
      returns (handle: nat)
      requires Aligned() && FileOk(file)
      modifies this
      ensures Aligned() && old(modules) <= modules && capacity == old(capacity) && (old(Valid()) ==> Valid())
      ensures handle != 0 ==> exists i :: IsHandle(modules, i, handle, hostPath, baseName) && (old(Valid()) ==> Answers(modules, i))
      // already loaded: under this path, or without a path under this name
      ensures hostPath != "" && Known(old(modules), hostPath, baseName) ==>
                && modules == old(modules) && nextLoadAddr == old(nextLoadAddr) && (old(Valid()) ==> handle != 0)
                && refcounts == old(refcounts)[handle := Refs(old(refcounts), handle) + 1]
      // not loaded: loaded now, exactly if that is asked for and possible
      ensures !Known(old(modules), hostPath, baseName) ==>
                (modules != old(modules) <==>
                   && hostPath != "" && !noLoad && readable && mapped && relocated && |old(modules)| < capacity
                   && 0 < Span(file.segs) && old(nextLoadAddr) + Span(file.segs) < HEAP_BASE)
      ensures modules != old(modules) ==>
                && handle == old(nextLoadAddr) && refcounts == old(refcounts)[handle := 1]
                && SlotEnd(handle, Span(file.segs)) <= HEAP_BASE
                && modules == old(modules) + [Module(baseName, hostPath, handle, Span(file.segs), Exports(handle, file), file.segs)]
      ensures hostPath == "" || (!Known(old(modules), hostPath, baseName) && modules == old(modules)) ==>
                handle == 0 && modules == old(modules) && refcounts == old(refcounts)
      ensures hostPath == "" || (!Known(old(modules), hostPath, baseName) && (noLoad || !readable)) ==>
                nextLoadAddr == old(nextLoadAddr)
    {
      if hostPath == "" { return 0; }
      var i := FindLoaded(hostPath, baseName);
      if i < |modules| {
        handle := modules[i].base;
        assert IsHandle(modules, i, handle, hostPath, baseName);
        if Valid() {
          assert ModuleOk(modules[i], nextLoadAddr);
          OwnHandle(modules, nextLoadAddr, i);
        }
        refcounts := refcounts[handle := Refs(refcounts, handle) + 1];
        return;
      }
      if noLoad { return 0; }
      if !readable { return 0; }
      var ok, base := LoadModule(baseName, hostPath, file, mapped, relocated);
      if !ok { return 0; }
      handle := base;
      assert IsHandle(modules, |old(modules)|, handle, hostPath, baseName);
      if Valid() { OwnHandle(modules, nextLoadAddr, |old(modules)|); }
      refcounts := refcounts[handle := 1];
    }

    /** The first module of the file, |modules| if there is none. */
    method FindLoaded(hostPath: string, baseName: string) returns (i: nat)
      ensures i <= |modules| && (i < |modules| ==> Same(modules[i], hostPath, baseName))
      ensures forall k :: 0 <= k < i ==> !Same(modules[k], hostPath, baseName)
    {
      i := 0;
      while i < |modules|
        invariant i <= |modules| && forall k :: 0 <= k < i ==> !Same(modules[k], hostPath, baseName)
      {
        if (modules[i].path != "" && modules[i].path == hostPath) || (modules[i].path == "" && modules[i].name == baseName) {
          return;
        }
        i := i + 1;
      }
    }

    /** dlclose only counts: nothing is ever unloaded. */
    method DlClose(handle: nat) returns (code: int)
      modifies this`refcounts
      ensures code == 0 && forall h :: Refs(refcounts, h) == if h == handle && Refs(old(refcounts), h) > 0
                                                             then Refs(old(refcounts), h) - 1 else Refs(old(refcounts), h)
    {
      if handle in refcounts && refcounts[handle] > 0 {
        refcounts := refcounts[handle := refcounts[handle] - 1];
      }
      code := 0;
    }

    method FindModuleByBase(base: nat) returns (i: nat)
      ensures i == FirstAt(modules, base)
    {
      i := 0;
      while i < |modules|
        invariant i <= |modules| && FirstAt(modules, base) == i + FirstAt(modules[i..], base)
      {
        if modules[i].base == base { return; }
        i := i + 1;
      }
    }

    method ResolveImport(hle: map<string, nat>, globals: map<string, nat>, s: string) returns (addr: nat)
      ensures addr == Resolve(hle, globals, modules, s)
      ensures s in hle && hle[s] != 0 ==> addr == hle[s]
      ensures NoStub(hle, s) && BaseName(s) in hle && hle[BaseName(s)] != 0 ==> addr == hle[BaseName(s)]
      ensures NoStub(hle, s) && NoStub(hle, BaseName(s)) ==>
                && (s in globals ==> addr == globals[s])
                && (s !in globals && BaseName(s) in globals ==> addr == globals[BaseName(s)])
                && (s !in globals && BaseName(s) !in globals ==>
                      && (forall i: nat :: FirstExporter(modules, s, i) ==>
                            addr == if s in modules[i].exports then modules[i].exports[s] else modules[i].exports[BaseName(s)])
                      && ((forall k :: 0 <= k < |modules| ==> !Exported(modules[k], s)) ==> addr == 0))
    {
      FirstExportMeaning(modules, s);
      var base := BaseName(s);
      addr := Lookup(hle, s);
      if addr != 0 { return; }
      if base != s {
        addr := Lookup(hle, base);
        if addr != 0 { return; }
      }
      if s in globals { return globals[s]; }
      if base != s && base in globals { return globals[base]; }
      for i := 0 to |modules|
        invariant FirstExport(modules[i..], s) == FirstExport(modules, s)
      {
        assert modules[i..][1..] == modules[i + 1..];
        if s in modules[i].exports { return modules[i].exports[s]; }
        if base != s && base in modules[i].exports { return modules[i].exports[base]; }
      }
      addr := 0;
    }
  }

  function Refs(refcounts: map<nat, nat>, h: nat): nat { if h in refcounts then refcounts[h] else 0 }

  /** HEAP_BASE is a slot boundary, so a module that ends below it has its slot below it. */
  lemma BelowHeap(next: nat, span: nat)
    requires next + span < HEAP_BASE
    ensures SlotEnd(next, span) <= HEAP_BASE
  {
    PageAndMib();
    AlignUpMeaning(next + span, MIB);
    assert HEAP_BASE % MIB == 0;
  }
}
