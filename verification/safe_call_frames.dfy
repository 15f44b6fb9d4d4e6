/**
 Where a call from a host handler into guest code puts its frame: the safe-call stacks of the
 workers, one chunk for each depth.
 */
module SafeCallFrames {
  import opened AddressMap
  import opened Bits

  const SAFE_CALL_STACK_BASE: nat := 0xA000_0000
  const SAFE_CALL_STACK_SIZE: nat := 0x0080_0000
  const SAFE_CALL_STACK_CHUNK: nat := 0x0010_0000
  const SAFE_CALL_CONTEXT_SIZE: nat := 0x50
  const GUARD: nat := 0x100
  const MAX_ARGS: nat := 0x1000_0000_0000_0000   // more than any argument list holds

  function Sub64(x: nat, y: nat): (r: nat)
    ensures r < U64
    ensures y <= x < U64 ==> r == x - y
  { (x - y) % U64 }

  // ------------------------------------------------------------------ frame layout

  /** The bytes of stack arguments, rounded up to 16. */
  function StackArgBytes(n: nat): nat { if n <= 8 then 0 else AlignUp(8 * (n - 8), 16) }

  datatype Layout = Refused | Frame(sp: nat, base: nat)

  /** Where a safe call of n arguments puts its frame: below the stack top given to it, or in the
      chunk of the safe-call stack that its depth selects. */
  function Place(stackBase: nat, depth: nat, top: nat, n: nat): Layout {
    var bytes := StackArgBytes(n);
    if top != 0 then
      var sp := AlignDown(Sub64(top, bytes), 16);
      Frame(sp, Sub64(sp, SAFE_CALL_CONTEXT_SIZE))
    else
      var offset := depth * SAFE_CALL_STACK_CHUNK;
      if offset >= SAFE_CALL_STACK_SIZE then Refused
      else
        var sp := Sub64(stackBase + SAFE_CALL_STACK_SIZE - offset - GUARD, bytes);
        var base := Sub64(sp, SAFE_CALL_CONTEXT_SIZE);
        if base < stackBase + SAFE_CALL_STACK_SIZE - offset - SAFE_CALL_STACK_CHUNK + GUARD then Refused
        else Frame(sp, base)
  }

  /** Worker w's safe-call stack; worker 0 is the main thread. */
  function StackOf(w: nat): nat { SAFE_CALL_STACK_BASE + w * SAFE_CALL_STACK_SIZE }

  predicate IsWorker(w: nat) { StackOf(w) + SAFE_CALL_STACK_SIZE <= GLOBAL_DATA_BASE }

  function ChunkTop(w: nat, depth: nat): int { StackOf(w) + SAFE_CALL_STACK_SIZE - depth * SAFE_CALL_STACK_CHUNK }

  /** The frame and its stack arguments lie in the chunk, clear of its guards. */
  predicate InChunk(w: nat, depth: nat, f: Layout, bytes: nat) {
    && f.Frame? && f.base + SAFE_CALL_CONTEXT_SIZE == f.sp
    && ChunkTop(w, depth) - SAFE_CALL_STACK_CHUNK + GUARD <= f.base
    && f.sp + bytes + GUARD == ChunkTop(w, depth)
  }

  lemma StackBytes(n: nat)
    requires n < MAX_ARGS
    ensures StackArgBytes(n) % 16 == 0
    ensures if n <= 8 then StackArgBytes(n) == 0 else 8 * (n - 8) <= StackArgBytes(n) < 8 * (n - 8) + 16
  {
    assert PowerOfTwo(16) by { assert 16 == Pow2(4); }
    if n > 8 { AlignUpMeaning(8 * (n - 8), 16); }
  }

  /** An accepted call's frame lies in its own chunk exactly when the subtraction for its stack
      arguments does not run below address zero. */
  lemma FrameInChunk(w: nat, depth: nat, n: nat)
    requires IsWorker(w) && 0 < depth && n < MAX_ARGS
    requires Place(StackOf(w), depth, 0, n).Frame?
    ensures var f := Place(StackOf(w), depth, 0, n);
            && f.sp % 16 == 0
            && (InChunk(w, depth, f, StackArgBytes(n)) <==>
                StackArgBytes(n) + GUARD + SAFE_CALL_CONTEXT_SIZE <= ChunkTop(w, depth))
  {
    StackBytes(n);
    var top, bytes := ChunkTop(w, depth) - GUARD, StackArgBytes(n);
    var sp := Sub64(top, bytes);
    Sub64Value(top, bytes);
    Sub64Value(sp, SAFE_CALL_CONTEXT_SIZE);
    TopAligned(w, depth);
    Difference16(top, bytes);
    assert Place(StackOf(w), depth, 0, n) == Frame(sp, Sub64(sp, SAFE_CALL_CONTEXT_SIZE));
  }

  /** A safe call on the default stack is accepted exactly if it is at most the seventh nested one and its
      frame has room between the guards of a chunk, or the subtraction for it runs below zero. */
  lemma AcceptedExactly(w: nat, depth: nat, n: nat)
    requires IsWorker(w) && 0 < depth && n < MAX_ARGS
    ensures Place(StackOf(w), depth, 0, n).Frame? <==>
              && depth <= 7
              && (|| StackArgBytes(n) + SAFE_CALL_CONTEXT_SIZE + 2 * GUARD <= SAFE_CALL_STACK_CHUNK
                  || StackArgBytes(n) + GUARD + SAFE_CALL_CONTEXT_SIZE > ChunkTop(w, depth))
  {
    if depth <= 7 {
      StackBytes(n);
      var top, bytes := ChunkTop(w, depth) - GUARD, StackArgBytes(n);
      Sub64Value(top, bytes);
      Sub64Value(Sub64(top, bytes), SAFE_CALL_CONTEXT_SIZE);
    }
  }

  /** 2^29 stack arguments on worker 0 at depth 1 are accepted, with a frame near the end of the
      address space. */
  lemma FrameOutOfChunkExample()
    ensures var n := 8 + 0x2000_0000;
            var f := Place(StackOf(0), 1, 0, n);
            IsWorker(0) && n < MAX_ARGS && f.Frame? && !InChunk(0, 1, f, StackArgBytes(n)) && f.base > 0xFFFF_FFFF_0000_0000
  {
    var n := 8 + 0x2000_0000;
    StackBytes(n);
    var top, bytes := ChunkTop(0, 1) - GUARD, StackArgBytes(n);
    Sub64Value(top, bytes);
    Sub64Value(Sub64(top, bytes), SAFE_CALL_CONTEXT_SIZE);
  }

  lemma TopAligned(w: nat, depth: nat)
    ensures (ChunkTop(w, depth) - GUARD) % 16 == 0
  {
    var k := 0xA00_0000 + w * 0x8_0000 + 0x8_0000 - depth * 0x1_0000 - 0x10;
    assert ChunkTop(w, depth) - GUARD == k * 16 + 0;
    ModUnique(ChunkTop(w, depth) - GUARD, 16, k, 0);
  }

  lemma Difference16(x: int, y: int)
    requires x % 16 == 0 && y % 16 == 0
    ensures (x - y) % 16 == 0 && (x - y + U64) % 16 == 0
  {
    var i, j := x / 16, y / 16;
    assert x == 16 * i && y == 16 * j;
    ModUnique(x - y, 16, i - j, 0);
    ModUnique(x - y + U64, 16, i - j + 0x1000_0000_0000_0000, 0);
  }

  lemma Sub64Value(x: nat, y: nat)
    requires x < U64 && y < U64
    ensures Sub64(x, y) == if y <= x then x - y else x - y + U64
  {
    Wrap64(x - y);
  }

  /** Chunks of different workers, or of different depths of one worker, do not overlap. */
  lemma ChunksDisjoint(w: nat, d: nat, w': nat, d': nat)
    requires IsWorker(w) && IsWorker(w') && (w, d) != (w', d')
    requires 0 < d && d * SAFE_CALL_STACK_CHUNK < SAFE_CALL_STACK_SIZE
    requires 0 < d' && d' * SAFE_CALL_STACK_CHUNK < SAFE_CALL_STACK_SIZE
    ensures ChunkTop(w, d) <= ChunkTop(w', d') - SAFE_CALL_STACK_CHUNK
         || ChunkTop(w', d') <= ChunkTop(w, d) - SAFE_CALL_STACK_CHUNK
    ensures SAFE_CALL_STACK_BASE <= ChunkTop(w, d) - SAFE_CALL_STACK_CHUNK && ChunkTop(w, d) <= GLOBAL_DATA_BASE
  {
  }

  /** So no two safe calls that are active at once, on any workers, share a byte of frame. */
  lemma FramesDisjoint(w: nat, d: nat, n: nat, w': nat, d': nat, n': nat)
    requires IsWorker(w) && IsWorker(w') && (w, d) != (w', d') && 0 < d && 0 < d'
    requires n < MAX_ARGS && n' < MAX_ARGS
    requires Place(StackOf(w), d, 0, n).Frame? && Place(StackOf(w'), d', 0, n').Frame?
    requires StackArgBytes(n) + GUARD + SAFE_CALL_CONTEXT_SIZE <= ChunkTop(w, d)
    requires StackArgBytes(n') + GUARD + SAFE_CALL_CONTEXT_SIZE <= ChunkTop(w', d')
    ensures var f, f' := Place(StackOf(w), d, 0, n), Place(StackOf(w'), d', 0, n');
            f.sp + StackArgBytes(n) <= f'.base || f'.sp + StackArgBytes(n') <= f.base
  {
    FrameInChunk(w, d, n);
    FrameInChunk(w', d', n');
    ChunksDisjoint(w, d, w', d');
  }

  /** The trampoline's frame sits just below an aligned stack pointer, and nothing wraps. */
  predicate WellPlaced(base: nat, sp: nat, n: nat) {
    base + SAFE_CALL_CONTEXT_SIZE == sp < U64 && sp % 16 == 0 && sp + StackArgBytes(n) <= U64
  }

  /** On the default stack every accepted frame that stays in its chunk is well placed, and start()
      keeps its stack pointer. */
  lemma DefaultFrameWellPlaced(w: nat, depth: nat, n: nat)
    requires IsWorker(w) && 0 < depth && n < MAX_ARGS && Place(StackOf(w), depth, 0, n).Frame?
    requires StackArgBytes(n) + GUARD + SAFE_CALL_CONTEXT_SIZE <= ChunkTop(w, depth)
    ensures var f := Place(StackOf(w), depth, 0, n);
            WellPlaced(f.base, f.sp, n) && StackOf(w) <= f.base <= StackOf(w) + SAFE_CALL_STACK_SIZE
  {
    FrameInChunk(w, depth, n);
    StackBytes(n);
  }

  /** A frame below a given stack top is well placed, and below that top, exactly if there is room. */
  lemma GivenFrameWellPlaced(stackBase: nat, depth: nat, top: nat, n: nat)
    requires n < MAX_ARGS && 0 < top < U64
    ensures var f := Place(stackBase, depth, top, n);
            && f.Frame?
            && (WellPlaced(f.base, f.sp, n) && f.sp + StackArgBytes(n) <= top < f.sp + StackArgBytes(n) + 16 <==>
                StackArgBytes(n) + SAFE_CALL_CONTEXT_SIZE <= top)
  {
    StackBytes(n);
    assert PowerOfTwo(16) by { assert 16 == Pow2(4); }
    var room := Sub64(top, StackArgBytes(n));
    Sub64Value(top, StackArgBytes(n));
    AlignDownMeaning(room, 16);
    var sp := AlignDown(room, 16);
    Sub64Value(sp, SAFE_CALL_CONTEXT_SIZE);
    if sp < SAFE_CALL_CONTEXT_SIZE <= room { MultiplesApart(sp, SAFE_CALL_CONTEXT_SIZE, 16); }
  }
}
