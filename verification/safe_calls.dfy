/**
 Calls from host handlers into guest code: the entry through the trampoline, and what a tree of
 nested calls leaves unchanged.
 */
module SafeCalls {
  import opened AddressMap
  import opened Bits
  import opened A64
  import opened SafeCallFrames

  const TRAMPOLINE_ADDR: nat := HLE_BASE + 0xFFF80
  const CALL_RETURN_STUB_ADDR: nat := HLE_BASE + 0xFFF00
  const FAILED: nat := U64 - 1

  /** A guest call and everything that happens while it runs.  `body` alternates guest code, which
      may leave any register file and write any words, with the calls that handlers make in between;
      it ends when start() leaves its loop.  `starts` is whether start() finds a CPU to run on. */
  datatype Call = Call(safe: bool, address: nat, args: seq<nat>, top: nat, mapped: bool, starts: bool, body: seq<Event>)
  datatype Event = Guest(regs: Regs, writes: map<nat, nat>) | Nested(call: Call)

  predicate CallOk(c: Call) {
    && |c.args| < MAX_ARGS && c.top < U64
    && forall i :: 0 <= i < |c.body| ==>
         match c.body[i]
         case Guest(regs, writes) => IsRegs(regs)
         case Nested(call) => CallOk(call)
  }

  /** Guest code that ran in e, at any depth, wrote the word at x. */
  predicate Wrote(e: Event, x: nat) {
    match e
    case Guest(regs, writes) => x in writes
    case Nested(c) => exists i :: 0 <= i < |c.body| && Wrote(c.body[i], x)
  }

  /** ... in the first n events of a body. */
  predicate WroteIn(body: seq<Event>, n: nat, x: nat)
    requires n <= |body|
  { exists i :: 0 <= i < n && Wrote(body[i], x) }

  function PutWords(m: Words, writes: map<nat, nat>): Words { (x: nat) => if x in writes then writes[x] else m(x) }

  function Arg(args: seq<nat>, i: nat): nat { if i < |args| then args[i] else 0 }

  function PutWord(m: Words, a: nat, v: nat): Words { (x: nat) => if x == a then v else m(x) }

  function RegSlot(base: nat, i: nat): nat { base + 8 + 8 * i }

  function StackSlot(sp: nat, i: nat): nat { sp + 8 * i }

  function ArgsEnd(sp: nat, n: nat): nat { if n <= 8 then sp else StackSlot(sp, n - 8) }

  /** The target address, then the first n register arguments, missing ones as zero. */
  ghost predicate HoldsFrame(m: Words, base: nat, address: nat, args: seq<nat>, n: nat) {
    m(base) == address && forall i: nat {:trigger RegSlot(base, i)} :: i < n ==> m(RegSlot(base, i)) == Arg(args, i)
  }

  /** The first n arguments beyond the eighth. */
  ghost predicate HoldsStackArgs(m: Words, sp: nat, args: seq<nat>, n: nat) {
    forall i: nat {:trigger StackSlot(sp, i)} :: i < n && 8 + i < |args| ==> m(StackSlot(sp, i)) == args[8 + i]
  }

  lemma PutRegArg(m: Words, base: nat, address: nat, args: seq<nat>, k: nat)
    requires HoldsFrame(m, base, address, args, k)
    ensures HoldsFrame(PutWord(m, RegSlot(base, k), Arg(args, k)), base, address, args, k + 1)
  {
  }

  lemma PutStackArg(m: Words, base: nat, sp: nat, address: nat, args: seq<nat>, k: nat)
    requires HoldsFrame(m, base, address, args, 8) && HoldsStackArgs(m, sp, args, k) && 8 + k < |args|
    requires base + SAFE_CALL_CONTEXT_SIZE == sp
    ensures var m' := PutWord(m, StackSlot(sp, k), args[8 + k]);
            HoldsFrame(m', base, address, args, 8) && HoldsStackArgs(m', sp, args, k + 1)
  {
  }

  /** Nothing but [from, to) differs. */
  ghost predicate SameOutside(m: Words, m': Words, from: int, to: int) {
    forall x: nat {:trigger m'(x)} :: x < from || to <= x ==> m'(x) == m(x)
  }

  /** The AAPCS64 state a function is entered in: X0-X7, zero where there is no argument, then the stack. */
  ghost predicate EntersAt(r: Regs, m: Words, sp: nat, address: nat, args: seq<nat>) {
    && IsRegs(r) && r.pc == address && r.sp == sp && sp % 16 == 0 && r.x[30] == CALL_RETURN_STUB_ADDR
    && (forall i :: 0 <= i < 8 ==> r.x[i] == if i < |args| then args[i] else 0)
    && (forall i :: 8 <= i < |args| ==> m(sp + 8 * (i - 8)) == args[i])
  }

  lemma StackArgsAt(m: Words, sp: nat, args: seq<nat>)
    requires HoldsStackArgs(m, sp, args, |args|)
    ensures forall i :: 8 <= i < |args| ==> m(sp + 8 * (i - 8)) == args[i]
  {
    forall i | 8 <= i < |args| ensures m(sp + 8 * (i - 8)) == args[i] { assert StackSlot(sp, i - 8) == sp + 8 * (i - 8); }
  }

  /** The state a plain call starts in: arguments in X0-X7 and on the stack the caller had, SP reset if it
      pointed into no stack, every other register as it was. */
  ghost predicate StartsPlain(r: Regs, r': Regs, address: nat, args: seq<nat>, keeps: bool) {
    && IsRegs(r) && IsRegs(r') && r'.pc == address && r'.x[30] == CALL_RETURN_STUB_ADDR
    && (forall i :: 0 <= i < 8 ==> r'.x[i] == if i < |args| then args[i] else r.x[i])
    && (forall i :: 8 <= i < 30 ==> r'.x[i] == r.x[i])
    && r'.sp == (if keeps then r.sp else STACK_BASE - 16)
    && r' == r.(x := r'.x, sp := r'.sp, pc := r'.pc)
  }

  /** The trampoline took what lies just below the top of the main stack for its frame. */
  ghost predicate EntersFromTop(r: Regs, m: Words) {
    && IsRegs(r) && r.sp == STACK_BASE - 16 + SAFE_CALL_CONTEXT_SIZE && r.pc == m(STACK_BASE - 16)
    && forall i :: 0 <= i < 8 ==> r.x[i] == m(RegSlot(STACK_BASE - 16, i))
  }

  class Caller {
    const worker: nat                 // tl_safe_stack_base is this worker's stack
    const mainStackSize: nat
    var cpu: Regs
    var memory: Words
    var running: bool                 // tl_running
    var callDepth: nat

    predicate Valid()
      reads this
    { IsRegs(cpu) }

    constructor (worker: nat, mainStackSize: nat, cpu: Regs, memory: Words)
      requires IsRegs(cpu)
      ensures Valid() && this.worker == worker && callDepth == 0 && !running && this.cpu == cpu
    {
      this.worker, this.mainStackSize := worker, mainStackSize;
      this.cpu, this.memory, running, callDepth := cpu, memory, false, 0;
    }

    method SaveContext() returns (ctx: Regs)
      requires Valid()
      ensures ctx == cpu
    {
      var x: seq<nat>, v: seq<nat> := [], [];
      for reg := 0 to 31
        invariant x == cpu.x[..reg]
      { x := x + [cpu.x[reg]]; }
      for reg := 0 to 32
        invariant v == cpu.v[..reg]
      { v := v + [cpu.v[reg]]; }
      ctx := Regs(x, cpu.sp, cpu.pc, cpu.nzcv, cpu.tpidr, v, cpu.fpsr % 0x1_0000_0000, cpu.fpcr % 0x1_0000_0000);
    }

    method RestoreContext(ctx: Regs)
      requires Valid() && IsRegs(ctx)
      modifies this`cpu
      ensures cpu == ctx
    {
      for reg := 0 to 31
        invariant IsRegs(cpu) && cpu.x[..reg] == ctx.x[..reg]
      { cpu := cpu.(x := cpu.x[reg := ctx.x[reg]]); }
      cpu := cpu.(sp := ctx.sp, pc := ctx.pc, nzcv := ctx.nzcv, tpidr := ctx.tpidr);
      for reg := 0 to 32
        invariant IsRegs(cpu) && cpu.v[..reg] == ctx.v[..reg]
        invariant cpu.x == ctx.x && cpu.sp == ctx.sp && cpu.pc == ctx.pc && cpu.nzcv == ctx.nzcv && cpu.tpidr == ctx.tpidr
      { cpu := cpu.(v := cpu.v[reg := ctx.v[reg]]); }
      cpu := cpu.(fpsr := ctx.fpsr, fpcr := ctx.fpcr);
    }

    /** Write the frame at base and the remaining arguments from sp upwards. */
    method PlaceFrame(base: nat, sp: nat, address: nat, args: seq<nat>)
      modifies this`memory
      ensures base + SAFE_CALL_CONTEXT_SIZE == sp ==>
                && HoldsFrame(memory, base, address, args, 8) && HoldsStackArgs(memory, sp, args, |args|)
                && SameOutside(old(memory), memory, base, ArgsEnd(sp, |args|))
    {
      memory := PutWord(memory, base, address);
      for i := 0 to 8
        invariant HoldsFrame(memory, base, address, args, i)
        invariant base + SAFE_CALL_CONTEXT_SIZE == sp ==> SameOutside(old(memory), memory, base, sp)
      {
        PutRegArg(memory, base, address, args, i);
        memory := PutWord(memory, RegSlot(base, i), Arg(args, i));
      }
      var i := 8;
      while i < |args|
        invariant 8 <= i
        invariant base + SAFE_CALL_CONTEXT_SIZE == sp ==>
                    && HoldsFrame(memory, base, address, args, 8) && HoldsStackArgs(memory, sp, args, i - 8)
                    && SameOutside(old(memory), memory, base, ArgsEnd(sp, |args|))
      {
        if base + SAFE_CALL_CONTEXT_SIZE == sp { PutStackArg(memory, base, sp, address, args, i - 8); }
        memory := PutWord(memory, StackSlot(sp, i - 8), args[i]);
        i := i + 1;
      }
    }

    /** start() keeps SP if it points into a stack; otherwise it resets it to the main stack. */
    predicate KeepsSp(sp: nat, mapped: bool)
    {
      sp != 0 && (STACK_BASE - mainStackSize <= sp <= STACK_BASE
                  || StackOf(worker) <= sp <= StackOf(worker) + SAFE_CALL_STACK_SIZE || mapped)
    }

    /** Point LR at the return stub and PC at the entry, then start(): mark the thread running and
        make sure SP points into a stack. */
    method Begin(entry: nat, mapped: bool, starts: bool)
      requires Valid()
      modifies this`cpu, this`running, this`callDepth
      ensures Valid() && running == starts && callDepth == old(callDepth) + 1
      ensures cpu == old(cpu).(x := old(cpu).x[30 := CALL_RETURN_STUB_ADDR], pc := entry, sp := cpu.sp)
      ensures var sp := old(cpu).sp;
              cpu.sp == if !starts || (sp != 0 && (|| STACK_BASE - mainStackSize <= sp <= STACK_BASE
                                                   || StackOf(worker) <= sp <= StackOf(worker) + SAFE_CALL_STACK_SIZE
                                                   || mapped))
                        then sp else STACK_BASE - 16
    {
      callDepth := callDepth + 1;
      cpu := cpu.(x := cpu.x[30 := CALL_RETURN_STUB_ADDR]);
      cpu := cpu.(pc := entry);
      running := true;
      if !starts {
        running := false;
        return;
      }
      if !KeepsSp(cpu.sp, mapped) {
        cpu := cpu.(sp := STACK_BASE - 16);
      }
    }

    /** start() leaves SP at this value: it keeps it, or resets it to what it is. */
    predicate SpStays(sp: nat, mapped: bool) { KeepsSp(sp, mapped) || sp == STACK_BASE - 16 }

    /** Set up a safe call's frame and registers and run the trampoline.  From a well placed frame whose
        address start() leaves in SP the target is entered as the AAPCS64 demands; if SP is reset, the
        trampoline runs from the top of the main stack instead. */
    method EnterSafe(base: nat, sp: nat, address: nat, args: seq<nat>, mapped: bool, starts: bool)
      requires Valid()
      modifies this
      ensures Valid() && running == starts && callDepth == old(callDepth) + 1
      ensures WellPlaced(base, sp, |args|) && SpStays(base, mapped) && starts ==> EntersAt(cpu, memory, sp, address, args)
      ensures !SpStays(base, mapped) && starts ==> EntersFromTop(cpu, memory)
      ensures WellPlaced(base, sp, |args|) ==>
                && HoldsStackArgs(memory, sp, args, |args|)
                && SameOutside(old(memory), memory, base, ArgsEnd(sp, |args|))
    {
      PlaceFrame(base, sp, address, args);
      cpu := cpu.(sp := base);
      Begin(TRAMPOLINE_ADDR, mapped, starts);
      if !starts { return; }
      cpu := RunTrampoline(cpu, memory);
      if WellPlaced(base, sp, |args|) && SpStays(base, mapped) {
        forall i | 0 <= i < 8 ensures cpu.x[i] == Arg(args, i) { assert memory(RegSlot(base, i)) == Arg(args, i); }
        StackArgsAt(memory, sp, args);
      }
    }

    /** There is room for the frame of a safe call entered at this depth. */
    predicate HasRoom(c: Call, depth: nat) {
      if c.top == 0 then IsWorker(worker) && StackArgBytes(|c.args|) + GUARD + SAFE_CALL_CONTEXT_SIZE <= ChunkTop(worker, depth)
      else StackArgBytes(|c.args|) + SAFE_CALL_CONTEXT_SIZE <= c.top
    }

    /** ... and, below a given top, start() leaves SP at the frame. */
    predicate Roomy(c: Call, depth: nat) {
      HasRoom(c, depth) && (c.top == 0 || SpStays(Place(StackOf(worker), depth, c.top, |c.args|).base, c.mapped))
    }

    lemma RoomyPlaced(c: Call, depth: nat)
      requires CallOk(c) && 0 < depth && HasRoom(c, depth) && Place(StackOf(worker), depth, c.top, |c.args|).Frame?
      ensures var f := Place(StackOf(worker), depth, c.top, |c.args|);
              && WellPlaced(f.base, f.sp, |c.args|) && (Roomy(c, depth) <==> SpStays(f.base, c.mapped))
              && (c.top == 0 ==> ChunkTop(worker, depth + 1) <= f.base && ArgsEnd(f.sp, |c.args|) <= ChunkTop(worker, depth))
    {
      if c.top == 0 {
        DefaultFrameWellPlaced(worker, depth, |c.args|);
        FrameInChunk(worker, depth, |c.args|);
        StackBytes(|c.args|);
      } else {
        GivenFrameWellPlaced(StackOf(worker), depth, c.top, |c.args|);
      }
    }

    /** The layout decides: an accepted safe call with room enters its target as the AAPCS64 demands,
        exactly if start() leaves SP at its frame; a refused one changes nothing. */
    method EnterCall(c: Call) returns (accepted: bool)
      requires Valid() && CallOk(c) && c.safe
      modifies this
      ensures Valid() && accepted == old(Accepts(c))
      ensures accepted ==> running == c.starts && callDepth == old(callDepth) + 1
      ensures accepted && c.starts && HasRoom(c, callDepth) ==>
                && (EntersAt(cpu, memory, Place(StackOf(worker), callDepth, c.top, |c.args|).sp, c.address, c.args) <==>
                    Roomy(c, callDepth))
                && (!Roomy(c, callDepth) ==> EntersFromTop(cpu, memory))
      ensures accepted && c.top == 0 && Roomy(c, callDepth) ==>
                && HoldsStackArgs(memory, Place(StackOf(worker), callDepth, 0, |c.args|).sp, c.args, |c.args|)
                && SameOutside(old(memory), memory, ChunkTop(worker, callDepth + 1), ChunkTop(worker, callDepth))
      ensures !accepted ==> memory == old(memory) && cpu == old(cpu) && running == old(running) && callDepth == old(callDepth)
    {
      var layout := Place(StackOf(worker), callDepth + 1, c.top, |c.args|);
      if layout.Refused? { return false; }
      if HasRoom(c, callDepth + 1) { RoomyPlaced(c, callDepth + 1); }
      EnterSafe(layout.base, layout.sp, c.address, c.args, c.mapped, c.starts);
      accepted := true;
    }

    /** Without a safe frame: arguments straight into X0-X7 and onto the current stack. */
    method EnterDirect(c: Call)
      requires Valid()
      modifies this
      ensures Valid() && running == c.starts && callDepth == old(callDepth) + 1
      ensures cpu == Direct(old(cpu), c)
      ensures StartsPlain(old(cpu), cpu, c.address, c.args, !c.starts || KeepsSp(old(cpu).sp, c.mapped))
      ensures forall i :: 8 <= i < |c.args| ==> memory(old(cpu).sp + 8 * (i - 8)) == c.args[i]
      ensures SameOutside(old(memory), memory, old(cpu).sp, ArgsEnd(old(cpu).sp, |c.args|))
    {
      var i := 0;
      while i < |c.args| && i < 8
        invariant 0 <= i <= 8 && i <= |c.args| && Valid() && cpu == old(cpu).(x := WithArgs(old(cpu).x, c.args, i))
        modifies this`cpu
      {
        cpu := cpu.(x := cpu.x[i := c.args[i]]);
        i := i + 1;
        assert cpu.x == WithArgs(old(cpu).x, c.args, i);
      }
      assert WithArgs(old(cpu).x, c.args, i) == WithArgs(old(cpu).x, c.args, 8);
      i := 8;
      while i < |c.args|
        invariant 8 <= i
        invariant HoldsStackArgs(memory, cpu.sp, c.args, i - 8)
        invariant SameOutside(old(memory), memory, cpu.sp, ArgsEnd(cpu.sp, |c.args|))
        modifies this`memory
      {
        memory := PutWord(memory, StackSlot(cpu.sp, i - 8), c.args[i]);
        i := i + 1;
      }
      StackArgsAt(memory, cpu.sp, c.args);
      Begin(c.address, c.mapped, c.starts);
    }

    /** The registers a direct call starts with. */
    function Direct(r: Regs, c: Call): (r': Regs)
      requires IsRegs(r)
      ensures StartsPlain(r, r', c.address, c.args, !c.starts || KeepsSp(r.sp, c.mapped))
    { Begun(r.(x := WithArgs(r.x, c.args, 8)), c.address, !c.starts || KeepsSp(r.sp, c.mapped)) }

    /** The registers after the first n events of a call: what guest code leaves, safe calls keep. */
    function After(r: Regs, c: Call, n: nat): (r': Regs)
      requires IsRegs(r) && n <= |c.body| && CallOk(c)
      ensures IsRegs(r')
      decreases c, n
    {
      if n == 0 then r
      else
        var before := After(r, c, n - 1);
        match c.body[n - 1]
        case Guest(regs, writes) => regs
        case Nested(call) =>
          if call.safe then before
          else if !call.starts then Direct(before, call)
          else After(Direct(before, call), call, |call.body|)
    }

    predicate SafeCallsIn(c: Call, from: nat, to: nat)
      requires to <= |c.body|
    { forall i :: from <= i < to ==> c.body[i].Nested? && c.body[i].call.safe }

    /** Safe calls leave the registers as guest code left them before. */
    lemma {:induction false} LastGuestLeft(r: Regs, c: Call, k: nat, n: nat)
      requires IsRegs(r) && CallOk(c) && k < n <= |c.body| && c.body[k].Guest? && SafeCallsIn(c, k + 1, n)
      ensures After(r, c, n) == c.body[k].regs
      decreases n
    {
      if k + 1 < n {
        assert c.body[n - 1].Nested? && c.body[n - 1].call.safe;
        LastGuestLeft(r, c, k, n - 1);
      }
    }

    predicate Accepts(c: Call)
      reads this`callDepth
    { c.safe ==> Place(StackOf(worker), callDepth + 1, c.top, |c.args|).Frame? }

    /** Every safe call in the tree runs on the default stack, in its chunk if it is accepted at all, and
        every other call has its arguments in registers. */
    predicate OnDefaultStack(c: Call, depth: nat)
      decreases c
    {
      && IsWorker(worker)
      && (if c.safe then c.top == 0 && (Place(StackOf(worker), depth + 1, 0, |c.args|).Frame? ==> Roomy(c, depth + 1))
          else |c.args| <= 8)
      && forall i :: 0 <= i < |c.body| && c.body[i].Nested? ==> OnDefaultStack(c.body[i].call, depth + 1)
    }

    /** Only chunks of depths above `depth`, and what guest code wrote, differ. */
    ghost predicate Undisturbed(m: Words, m': Words, depth: nat, body: seq<Event>, n: nat)
      requires n <= |body|
    {
      forall x: nat {:trigger m'(x)} ::
        (x < StackOf(worker) || ChunkTop(worker, depth + 1) <= x) && !WroteIn(body, n, x) ==> m'(x) == m(x)
    }

    /** What start() does with a call until it leaves its loop. */
    method RunBody(c: Call)
      requires Valid() && CallOk(c) && callDepth > 0
      modifies this
      ensures Valid() && callDepth == old(callDepth) && cpu == After(old(cpu), c, |c.body|)
      ensures OnDefaultStack(c, callDepth - 1) ==> Undisturbed(old(memory), memory, callDepth, c.body, |c.body|)
      decreases c, 0
    {
      for i := 0 to |c.body|
        invariant Valid() && callDepth == old(callDepth) && cpu == After(old(cpu), c, i)
        invariant OnDefaultStack(c, callDepth - 1) ==> Undisturbed(old(memory), memory, callDepth, c.body, i)
      {
        match c.body[i]
        case Guest(regs, writes) =>
          cpu := regs;
          memory := PutWords(memory, writes);
        case Nested(call) =>
          var _, _, _ := CallFunction(call);
      }
    }

    /** A frame in the next chunk, and calls that only use chunks above that: outer frames are safe. */
    lemma OuterUndisturbed(m: Words, m1: Words, m': Words, depth: nat, body: seq<Event>, n: nat)
      requires n <= |body| && SameOutside(m, m1, ChunkTop(worker, depth + 2), ChunkTop(worker, depth + 1))
      requires Undisturbed(m1, m', depth + 1, body, n) && StackOf(worker) <= ChunkTop(worker, depth + 2)
      ensures Undisturbed(m, m', depth, body, n)
    {
      forall x: nat | (x < StackOf(worker) || ChunkTop(worker, depth + 1) <= x) && !WroteIn(body, n, x)
        ensures m'(x) == m(x)
      {
        assert m1(x) == m(x);
      }
    }

    /** The stack arguments of c, at sp, are there unless guest code wrote over them. */
    ghost predicate KeepsStackArgs(c: Call, sp: nat, m: Words) {
      forall i: nat {:trigger StackSlot(sp, i)} ::
        8 + i < |c.args| && !WroteIn(c.body, |c.body|, StackSlot(sp, i)) ==> m(StackSlot(sp, i)) == c.args[8 + i]
    }

    lemma StackArgsSurvive(c: Call, sp: nat, m1: Words, m': Words, depth: nat)
      requires HoldsStackArgs(m1, sp, c.args, |c.args|) && ChunkTop(worker, depth + 1) <= sp
      requires Undisturbed(m1, m', depth, c.body, |c.body|)
      ensures KeepsStackArgs(c, sp, m')
    {
    }

    /** The registers a call enters its target with, its memory effects, and where it leaves the CPU. */
    ghost predicate Ran(c: Call, depth: nat, r: Regs, m: Words, entered: Regs, r': Regs, m': Words)
      requires CallOk(c) && IsRegs(r) && (c.safe ==> Place(StackOf(worker), depth + 1, c.top, |c.args|).Frame?)
    {
      && IsRegs(entered) && r' == (if c.starts then After(entered, c, |c.body|) else entered)
      && (!c.safe ==> entered == Direct(r, c) && StartsPlain(r, entered, c.address, c.args, !c.starts || KeepsSp(r.sp, c.mapped)))
      && (c.safe && c.starts && Roomy(c, depth + 1) ==>
            && entered.pc == c.address && entered.sp == Place(StackOf(worker), depth + 1, c.top, |c.args|).sp
            && entered.sp % 16 == 0 && entered.x[30] == CALL_RETURN_STUB_ADDR
            && forall i :: 0 <= i < 8 ==> entered.x[i] == if i < |c.args| then c.args[i] else 0)
      && (OnDefaultStack(c, depth) ==> Undisturbed(m, m', depth, c.body, |c.body|))
      && (OnDefaultStack(c, depth) && c.safe ==>
            KeepsStackArgs(c, Place(StackOf(worker), depth + 1, 0, |c.args|).sp, m'))
    }

    /** From the entry to the end of start(). */
    method RunCall(c: Call) returns (accepted: bool, ghost entered: Regs)
      requires Valid() && CallOk(c)
      modifies this
      ensures Valid() && accepted == old(Accepts(c))
      ensures accepted ==> callDepth == old(callDepth) + 1 && Ran(c, old(callDepth), old(cpu), old(memory), entered, cpu, memory)
      ensures !accepted ==> memory == old(memory) && cpu == old(cpu) && running == old(running) && callDepth == old(callDepth)
      decreases c, 1
    {
      accepted, entered := true, cpu;
      if c.safe {
        accepted := EnterCall(c);
        if !accepted { return; }
      } else {
        EnterDirect(c);
      }
      entered := cpu;
      ghost var started := memory;
      if c.starts { RunBody(c); }
      if c.safe && OnDefaultStack(c, old(callDepth)) {
        OuterUndisturbed(old(memory), started, memory, old(callDepth), c.body, |c.body|);
        RoomyPlaced(c, callDepth);
        StackArgsSurvive(c, Place(StackOf(worker), callDepth, 0, |c.args|).sp, started, memory, callDepth);
      }
    }

    /** A whole call.  However the calls inside it nest, and whatever guest code does to the registers,
        a safe call leaves the full register file, the running flag and the depth as they were.  Its
        target is entered as the AAPCS64 demands, and its result is the X0 left when start() ended.  On
        the default stack no frame of an outer call is touched, on this worker or another, and the
        call's own stack arguments survive the calls inside it. */
    method CallFunction(c: Call) returns (r: nat, ghost entered: Regs, ghost left: Regs)
      requires Valid() && CallOk(c)
      modifies this
      ensures Valid() && callDepth == old(callDepth)
      ensures c.safe ==> cpu == old(cpu) && running == old(running)
      ensures !c.safe ==> cpu == left && !running
      ensures old(Accepts(c)) ==>
                Ran(c, callDepth, old(cpu), old(memory), entered, left, memory) && r == if c.starts then left.x[0] else FAILED
      ensures !old(Accepts(c)) ==> r == FAILED && memory == old(memory)
      decreases c, 2
    {
      var savedRunning := running;
      var savedCtx := cpu;
      if c.safe { savedCtx := SaveContext(); }
      var accepted;
      accepted, entered := RunCall(c);
      left := cpu;
      if !accepted { return FAILED, entered, left; }
      running := false;
      callDepth := callDepth - 1;
      r := cpu.x[0];
      if c.safe {
        RestoreContext(savedCtx);
        running := savedRunning;
      }
      if !c.starts { r := FAILED; }
    }
  }

  /** The registers start() runs with. */
  function Begun(r: Regs, entry: nat, keepsSp: bool): (r': Regs)
    requires IsRegs(r)
    ensures IsRegs(r')
  { r.(x := r.x[30 := CALL_RETURN_STUB_ADDR], pc := entry, sp := if keepsSp then r.sp else STACK_BASE - 16) }

  /** The first n arguments in X0 onwards. */
  function WithArgs(x: seq<nat>, args: seq<nat>, n: nat): (x': seq<nat>)
    ensures |x'| == |x|
  { seq(|x|, i requires 0 <= i < |x| => if i < n && i < |args| then args[i] else x[i]) }
}
