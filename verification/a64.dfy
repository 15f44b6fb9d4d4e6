/**
 The few A64 instructions of the safe-call trampoline: their encodings and their effect on the
 register file.
 */
module A64 {
  import opened Bits

  /** The register file a safe call saves: X0-X30, SP, PC, NZCV, TPIDR_EL0, V0-V31, FPSR, FPCR. */
  datatype Regs = Regs(x: seq<nat>, sp: nat, pc: nat, nzcv: nat, tpidr: nat, v: seq<nat>, fpsr: nat, fpcr: nat)

  predicate IsRegs(r: Regs) {
    |r.x| == 31 && |r.v| == 32 && r.fpsr < 0x1_0000_0000 && r.fpcr < 0x1_0000_0000
  }

  /** Guest memory as 64-bit words by address; only aligned words are used. */
  type Words = nat -> nat

  datatype Instr =
    | AddImm(rd: nat, rn: nat, imm: int)
    | Ldr(rt: nat, rn: nat, imm: int)
    | Ldp(rt: nat, rt2: nat, rn: nat, imm: int)
    | Br(rn: nat)
    | Other

  /** w's bits from the one worth div upwards, as many as mod has values. */
  function Field(w: nat, div: nat, mod: nat): (f: nat)
    requires div > 0 && mod > 0
    ensures f < mod
  { w / div % mod }

  function Signed(f: nat, half: nat): int { if f < half then f else f - 2 * half }

  /** ADD (immediate), LDR (immediate, unsigned offset), LDP (signed offset), all 64-bit, and BR. */
  function Decode(w: nat): Instr {
    var rd, rn := Field(w, 0x1, 0x20), Field(w, 0x20, 0x20);
    var top := w / 0x40_0000;
    if top == 0x244 then AddImm(rd, rn, Field(w, 0x400, 0x1000))
    else if top == 0x3E5 then Ldr(rd, rn, 8 * Field(w, 0x400, 0x1000))
    else if top == 0x2A5 then Ldp(rd, Field(w, 0x400, 0x20), rn, 8 * Signed(Field(w, 0x8000, 0x80), 0x40))
    else if w / 0x400 == 0x35_87C0 && rd == 0 then Br(rn)
    else Other
  }

  /** Register 31 is SP as a base or as the target of ADD, and reads nowhere else here. */
  function XSp(r: Regs, n: nat): nat
    requires IsRegs(r) && n < 32
  { if n == 31 then r.sp else r.x[n] }

  function SetX(r: Regs, n: nat, v: nat): Regs
    requires IsRegs(r) && n < 32
  { if n == 31 then r else r.(x := r.x[n := v]) }

  function SetXSp(r: Regs, n: nat, v: nat): Regs
    requires IsRegs(r) && n < 32
  { if n == 31 then r.(sp := v) else r.(x := r.x[n := v]) }

  function Offset(a: nat, imm: int): nat { (a + imm) % U64 }

  function Step(w: nat, r: Regs, m: Words): (r': Regs)
    requires IsRegs(r)
    ensures IsRegs(r')
  {
    var next := r.(pc := Offset(r.pc, 4));
    match Decode(w)
    case AddImm(rd, rn, imm) => if rd < 32 && rn < 32 then SetXSp(next, rd, Offset(XSp(r, rn), imm)) else next
    case Ldr(rt, rn, imm) => if rt < 32 && rn < 32 then SetX(next, rt, m(Offset(XSp(r, rn), imm))) else next
    case Ldp(rt, rt2, rn, imm) =>
      if rt < 32 && rt2 < 32 && rn < 32 then
        SetX(SetX(next, rt, m(Offset(XSp(r, rn), imm))), rt2, m(Offset(XSp(r, rn), imm + 8)))
      else next
    case Br(rn) => if rn < 31 then r.(pc := r.x[rn]) else next
    case Other => next
  }

  /** Execute the words in turn; the last of a trampoline branches away. */
  function Run(ws: seq<nat>, r: Regs, m: Words): (r': Regs)
    requires IsRegs(r)
    ensures IsRegs(r')
    decreases |ws|
  { if ws == [] then r else Run(ws[1..], Step(ws[0], r, m), m) }

  const TRAMPOLINE: seq<nat> :=
    [0x910003E9, 0xF9400130, 0xA9408520, 0xA9418D22, 0xA9429524, 0xA9439D26, 0x9101413F, 0xD61F0200]

  /** What the eight words mean. */
  lemma TrampolineDecodes()
    ensures Decode(TRAMPOLINE[0]) == AddImm(9, 31, 0)
    ensures Decode(TRAMPOLINE[1]) == Ldr(16, 9, 0)
    ensures Decode(TRAMPOLINE[2]) == Ldp(0, 1, 9, 0x8)
    ensures Decode(TRAMPOLINE[3]) == Ldp(2, 3, 9, 0x18)
    ensures Decode(TRAMPOLINE[4]) == Ldp(4, 5, 9, 0x28)
    ensures Decode(TRAMPOLINE[5]) == Ldp(6, 7, 9, 0x38)
    ensures Decode(TRAMPOLINE[6]) == AddImm(31, 9, 0x50)
    ensures Decode(TRAMPOLINE[7]) == Br(16)
  {
  }

  /** After the first two words: X9 the frame, X16 the target. */
  function Loaded(r: Regs, m: Words): Regs
    requires IsRegs(r)
  { r.(x := r.x[9 := r.sp][16 := m(r.sp)], pc := Offset(Offset(r.pc, 4), 4)) }

  lemma FirstTwo(r: Regs, m: Words)
    requires IsRegs(r) && r.sp < U64
    ensures Step(TRAMPOLINE[1], Step(TRAMPOLINE[0], r, m), m) == Loaded(r, m)
  {
    TrampolineDecodes();
  }

  /** A load of two argument registers from the frame at X9. */
  lemma PairLoad(w: nat, r: Regs, m: Words, t: nat, imm: nat)
    requires IsRegs(r) && t < 8 && r.x[9] + imm + 8 < U64 && Decode(w) == Ldp(t, t + 1, 9, imm)
    ensures Step(w, r, m) == r.(x := r.x[t := m(r.x[9] + imm)][t + 1 := m(r.x[9] + imm + 8)], pc := Offset(r.pc, 4))
  {
  }

  /** Entering from a frame f: the target from its first word, X0-X7 from the next eight, SP just
      above the frame, all other registers but X9 and X16 unchanged. */
  predicate Entered(r: Regs, m: Words, r': Regs) {
    var f := r.sp;
    && IsRegs(r) && IsRegs(r') && r'.pc == m(f) && r'.sp == f + 0x50
    && (forall i :: 0 <= i < 8 ==> r'.x[i] == m(f + 8 + 8 * i))
    && (forall i :: 10 <= i < 31 && i != 16 ==> r'.x[i] == r.x[i])
    && r' == r.(x := r'.x, sp := r'.sp, pc := r'.pc)
  }

  lemma TwoLoads(w: nat, w': nat, r: Regs, m: Words, t: nat, imm: nat) returns (r': Regs)
    requires IsRegs(r) && t < 6 && r.x[9] + imm + 0x18 < U64
    requires Decode(w) == Ldp(t, t + 1, 9, imm) && Decode(w') == Ldp(t + 2, t + 3, 9, imm + 0x10)
    ensures r' == Step(w', Step(w, r, m), m)
    ensures var f := r.x[9];
            r' == r.(pc := r'.pc, x := r.x[t := m(f + imm)][t + 1 := m(f + imm + 8)]
                                          [t + 2 := m(f + imm + 0x10)][t + 3 := m(f + imm + 0x10 + 8)])
  {
    PairLoad(w, r, m, t, imm);
    var r1 := Step(w, r, m);
    PairLoad(w', r1, m, t + 2, imm + 0x10);
    r' := Step(w', r1, m);
  }

  lemma ArgumentsLoaded(r: Regs, m: Words, r6: Regs)
    requires IsRegs(r) && r.sp + 0x50 < U64 && IsRegs(r6)
    requires var f := r.sp;
             r6 == r.(pc := r6.pc,
                      x := Loaded(r, m).x[0 := m(f + 0x8)][1 := m(f + 0x8 + 8)][2 := m(f + 0x18)][3 := m(f + 0x18 + 8)]
                             [4 := m(f + 0x28)][5 := m(f + 0x28 + 8)][6 := m(f + 0x38)][7 := m(f + 0x38 + 8)])
    ensures Entered(r, m, Step(TRAMPOLINE[7], Step(TRAMPOLINE[6], r6, m), m))
  {
    TrampolineDecodes();
  }

  lemma SixSteps(r: Regs, m: Words) returns (r6: Regs)
    requires IsRegs(r) && r.sp + 0x50 < U64
    ensures var r2 := Step(TRAMPOLINE[1], Step(TRAMPOLINE[0], r, m), m);
            var r4 := Step(TRAMPOLINE[3], Step(TRAMPOLINE[2], r2, m), m);
            r6 == Step(TRAMPOLINE[5], Step(TRAMPOLINE[4], r4, m), m)
    ensures IsRegs(r6) && Entered(r, m, Step(TRAMPOLINE[7], Step(TRAMPOLINE[6], r6, m), m))
  {
    TrampolineDecodes();
    FirstTwo(r, m);
    var r4 := TwoLoads(TRAMPOLINE[2], TRAMPOLINE[3], Loaded(r, m), m, 0, 0x8);
    r6 := TwoLoads(TRAMPOLINE[4], TRAMPOLINE[5], r4, m, 4, 0x28);
    ArgumentsLoaded(r, m, r6);
  }

  /** Running the eight words does that. */
  lemma TrampolineEnters(r: Regs, m: Words)
    requires IsRegs(r) && r.sp + 0x50 < U64
    ensures Entered(r, m, Run(TRAMPOLINE, r, m))
  {
    var _ := SixSteps(r, m);
    RunEight(r, m);
  }

  lemma RunEight(r: Regs, m: Words)
    requires IsRegs(r)
    ensures var r2 := Step(TRAMPOLINE[1], Step(TRAMPOLINE[0], r, m), m);
            var r4 := Step(TRAMPOLINE[3], Step(TRAMPOLINE[2], r2, m), m);
            var r6 := Step(TRAMPOLINE[5], Step(TRAMPOLINE[4], r4, m), m);
            Run(TRAMPOLINE, r, m) == Step(TRAMPOLINE[7], Step(TRAMPOLINE[6], r6, m), m)
  {
    var r2 := Step(TRAMPOLINE[1], Step(TRAMPOLINE[0], r, m), m);
    var r4 := Step(TRAMPOLINE[3], Step(TRAMPOLINE[2], r2, m), m);
    var r6 := Step(TRAMPOLINE[5], Step(TRAMPOLINE[4], r4, m), m);
    RunTwo(TRAMPOLINE, r, m);
    RunTwo(TRAMPOLINE[2..], r2, m);
    assert TRAMPOLINE[2..][2..] == TRAMPOLINE[4..];
    RunTwo(TRAMPOLINE[4..], r4, m);
    assert TRAMPOLINE[4..][2..] == TRAMPOLINE[6..];
    RunTwo(TRAMPOLINE[6..], r6, m);
  }

  lemma RunTwo(ws: seq<nat>, r: Regs, m: Words)
    requires IsRegs(r) && |ws| >= 2
    ensures Run(ws, r, m) == Run(ws[2..], Step(ws[1], Step(ws[0], r, m), m), m)
  {
    assert Run(ws, r, m) == Run(ws[1..], Step(ws[0], r, m), m);
    assert ws[1..][1..] == ws[2..];
  }

  /** Fetch and execute, word by word. */
  method Execute(ws: seq<nat>, r: Regs, m: Words) returns (r': Regs)
    requires IsRegs(r)
    ensures r' == Run(ws, r, m)
  {
    r' := r;
    for i := 0 to |ws|
      invariant IsRegs(r') && Run(ws[i..], r', m) == Run(ws, r, m)
    {
      assert ws[i..][0] == ws[i] && ws[i..][1..] == ws[i + 1..];
      r' := Step(ws[i], r', m);
    }
  }

  method RunTrampoline(r: Regs, m: Words) returns (r': Regs)
    requires IsRegs(r)
    ensures IsRegs(r') && (r.sp + 0x50 < U64 ==> Entered(r, m, r'))
  {
    if r.sp + 0x50 < U64 { TrampolineEnters(r, m); }
    r' := Execute(TRAMPOLINE, r, m);
  }
}
