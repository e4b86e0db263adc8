/** What each instruction of the simulated MIPS does to the registers (machine/mipssim.cc):
    decoding, results, targets, traps and delayed loads. */
module MipsInstructions {
  import opened Bits
  import opened Common
  import opened MachineMemory
  import Multiplication

  // Registers 0 to 31 are general.
  const R31 := 31
  const HI := 32
  const LO := 33
  const PC := 34
  const NEXT_PC := 35
  const PREV_PC := 36
  const LOAD_REG := 37
  const LOAD_VALUE := 38
  const BAD_VADDR := 39
  const NUM_REGS := 40

  type General = x | 0 <= x < 32

  datatype Op =
    | ADD | ADDI | ADDIU | ADDU | AND | ANDI | BEQ | BGEZ | BGEZAL | BGTZ | BLEZ | BLTZ | BLTZAL | BNE
    | DIV | DIVU | J | JAL | JALR | JR | LB | LBU | LH | LHU | LUI | LW | LWL | LWR | MFHI | MFLO | MTHI | MTLO
    | MULT | MULTU | NOR | OR | ORI | SB | SH | SLL | SLLV | SLT | SLTI | SLTIU | SLTU | SRA | SRAV | SRL | SRLV
    | SUB | SUBU | SW | SWL | SWR | XOR | XORI | SYSCALL | UNIMP | RES

  datatype Instr = Instr(op: Op, rs: General, rt: General, rd: General, extra: Int32)

  datatype Trap = MemoryFault(e: Exception) | Overflow | IllegalInstr | Syscall

  // ---------------------------------------------------------------- words

  /** Unsigned arithmetic wraps around. */
  function Wrap(x: int): Word { x % W }

  function Sum(x: int, y: int): Word { Wrap(x + y) }

  function Difference(x: int, y: int): Word { Wrap(x - y) }

  function Plus4(x: int): Word { Wrap(x + 4) }

  predicate Negative(x: Word) { x >= 0x8000_0000 }

  function BitAnd(a: Word, b: Word): Word { AndSmaller(a, b); And(a, b) }

  function BitOr(a: Word, b: Word): Word { Pow2Of32(); OrFits(a, b, 32); Or(a, b) }

  function BitXor(a: Word, b: Word): Word { Pow2Of32(); XorFits(a, b, 32); Xor(a, b) }

  const SIGN_BIT: Word := 0x8000_0000

  /** `x & SIGN_BIT`. */
  lemma SignBit(x: Word)
    ensures BitAnd(x, SIGN_BIT) != 0 <==> Negative(x)
  {
    Pow2Of32();
    assert Pow2(31) == SIGN_BIT;
    AndPow2(x, 31);
    TopBit(x, 31);
  }

  lemma SignOfXor(a: Word, b: Word)
    ensures Negative(BitXor(a, b)) <==> Negative(a) != Negative(b)
  {
    Pow2Of32();
    assert Pow2(31) == SIGN_BIT;
    TopBit(a, 31);
    TopBit(b, 31);
    TopBit(BitXor(a, b), 31);
    BitOfXor(a, b, 31);
  }

  /** Masking with n ones takes the remainder. */
  lemma {:induction false} AndMask(a: nat, n: nat)
    ensures And(a, Pow2(n) - 1) == a % Pow2(n)
  {
    if n == 0 {
      AndZero(a);
    } else if a == 0 {
      Pow2Positive(n);
    } else {
      AndMask(a / 2, n - 1);
      MaskStep(a, Pow2(n - 1));
    }
  }

  lemma Pow2Positive(n: nat)
    ensures 0 % Pow2(n) == 0
  {
  }

  lemma MaskStep(a: nat, p: nat)
    requires a > 0 && p >= 1 && And(a / 2, p - 1) == a / 2 % p
    ensures And(a, 2 * p - 1) == a % (2 * p)
  {
    assert (2 * p - 1) / 2 == p - 1 && (2 * p - 1) % 2 == 1;
    HalfMod(a, p);
  }

  lemma HalfMod(a: nat, p: nat)
    requires p >= 1
    ensures a % (2 * p) == 2 * (a / 2 % p) + a % 2
  {
    var q, m := a / 2 / p, a / 2 % p;
    assert a / 2 == q * p + m;
    assert a == q * (2 * p) + (2 * m + a % 2);
    UniqueRemainder(a, 2 * p, q, 2 * m + a % 2);
  }

  function ShiftLeft(a: Word, n: nat): Word { Wrap(a * Pow2(n)) }

  /** `>>` on an unsigned int, and on an int. */
  function ShiftRight(a: Word, n: nat): (r: Word)
  {
    DivideBound(a, Pow2(n));
    a / Pow2(n)
  }

  lemma DivideBound(a: int, p: int)
    requires a >= 0 && p >= 1
    ensures 0 <= a / p <= a
  {
    assert a / p * p <= a;
  }

  function ShiftRightSigned(a: Word, n: nat): Word { Wrap(Signed(a) / Pow2(n)) }

  // ---------------------------------------------------------------- decoding

  /** Bits 5 to 0 of an instruction in the register format. */
  function Special(n: nat): Op {
    match n
    case 0 => SLL case 2 => SRL case 3 => SRA case 4 => SLLV case 6 => SRLV case 7 => SRAV
    case 8 => JR case 9 => JALR case 12 => SYSCALL case 13 => UNIMP
    case 16 => MFHI case 17 => MTHI case 18 => MFLO case 19 => MTLO
    case 24 => MULT case 25 => MULTU case 26 => DIV case 27 => DIVU
    case 32 => ADD case 33 => ADDU case 34 => SUB case 35 => SUBU
    case 36 => AND case 37 => OR case 38 => XOR case 39 => NOR case 42 => SLT case 43 => SLTU
    case _ => RES
  }

  /** Bits 31 to 26 of an instruction other than the two that are decoded further. */
  function OpTable(n: nat): Op {
    match n
    case 2 => J case 3 => JAL case 4 => BEQ case 5 => BNE case 6 => BLEZ case 7 => BGTZ
    case 8 => ADDI case 9 => ADDIU case 10 => SLTI case 11 => SLTIU case 12 => ANDI case 13 => ORI case 14 => XORI case 15 => LUI
    case 32 => LB case 33 => LH case 34 => LWL case 35 => LW case 36 => LBU case 37 => LHU case 38 => LWR
    case 40 => SB case 41 => SH case 42 => SWL case 43 => SW case 46 => SWR
    case _ => if 16 <= n < 20 || 48 <= n < 52 || 56 <= n < 60 then UNIMP else RES
  }

  function Conditional(field: nat): Op {
    match field
    case 0 => BLTZ case 1 => BGEZ case 16 => BLTZAL case 17 => BGEZAL case _ => UNIMP
  }

  function SignExtend16(x: nat): Int32
    requires x < 0x1_0000
  {
    if x >= 0x8000 then x - 0x1_0000 else x
  }

  /** The int16 with these bits. */
  lemma SignExtended(x: nat)
    requires x < 0x1_0000
    ensures -0x8000 <= SignExtend16(x) < 0x8000 && SignExtend16(x) % 0x1_0000 == x
  {
  }

  function Decode(w: Word): Instr {
    var rs, rt, rd := w / 0x20_0000 % 32, w / 0x1_0000 % 32, w / 0x800 % 32;
    var top := w / 0x400_0000 % 64;
    if top == 0 then Instr(Special(w % 64), rs, rt, rd, w / 64 % 32)
    else if top == 1 then Instr(Conditional(rt), rs, rt, rd, SignExtend16(w % 0x1_0000))
    else if top == 2 || top == 3 then Instr(OpTable(top), rs, rt, rd, w % 0x400_0000)
    else Instr(OpTable(top), rs, rt, rd, SignExtend16(w % 0x1_0000))
  }

  lemma Fields(top: nat, rs: General, rt: General, imm: nat)
    requires top < 64 && imm < 0x1_0000
    ensures var w := top * 0x400_0000 + rs * 0x20_0000 + rt * 0x1_0000 + imm;
            && w < W && w / 0x400_0000 == top && w / 0x20_0000 == top * 32 + rs
            && w / 0x1_0000 == top * 0x400 + rs * 32 + rt && w % 0x1_0000 == imm
            && w / 0x800 == (top * 0x400 + rs * 32 + rt) * 32 + imm / 0x800
  {
  }

  /** Fields put in their places are found again. */
  lemma DecodeImmediate(top: nat, rs: General, rt: General, imm: nat)
    requires 4 <= top < 64 && imm < 0x1_0000
    ensures var w := top * 0x400_0000 + rs * 0x20_0000 + rt * 0x1_0000 + imm;
            w < W && Decode(w) == Instr(OpTable(top), rs, rt, imm / 0x800, SignExtend16(imm))
  {
    hide OpTable, SignExtend16;
    Fields(top, rs, rt, imm);
  }

  /** The branches that bits 20 to 16 tell apart. */
  lemma DecodeConditional(rs: General, which: General, imm: nat)
    requires imm < 0x1_0000
    ensures var w := 0x400_0000 + rs * 0x20_0000 + which * 0x1_0000 + imm;
            w < W && Decode(w) == Instr(Conditional(which), rs, which, imm / 0x800, SignExtend16(imm))
  {
    hide Conditional, SignExtend16;
    Fields(1, rs, which, imm);
  }

  /** The register format, which bits 5 to 0 tell apart. */
  lemma DecodeSpecial(rs: General, rt: General, rd: General, shift: General, which: nat)
    requires which < 64
    ensures var w := rs * 0x20_0000 + rt * 0x1_0000 + rd * 0x800 + shift * 64 + which;
            w < W && Decode(w) == Instr(Special(which), rs, rt, rd, shift)
  {
    hide Special, OpTable, Conditional, SignExtend16;
    SpecialParts(rs, rt, rd, shift, which);
  }

  lemma SpecialParts(rs: General, rt: General, rd: General, shift: General, which: nat)
    requires which < 64
    ensures var w := rs * 0x20_0000 + rt * 0x1_0000 + rd * 0x800 + shift * 64 + which;
            && w < W && w / 0x400_0000 % 64 == 0 && w / 0x20_0000 % 32 == rs && w / 0x1_0000 % 32 == rt
            && w / 0x800 % 32 == rd && w / 64 % 32 == shift && w % 64 == which
  {
    var low := rd * 0x800 + shift * 64 + which;
    LowFields(rd, shift, which);
    Fields(0, rs, rt, low);
    SpecialFields(rs, rt, low);
    Mod32(rs, rt);
    Mod32(rs * 32 + rt, rd);
    Mod32((rs * 32 + rt) * 32 + rd, shift);
  }

  lemma Mod32(q: nat, m: General)
    ensures (q * 32 + m) % 32 == m
  {
  }

  lemma SpecialFields(rs: General, rt: General, low: nat)
    requires low < 0x1_0000
    ensures var w := rs * 0x20_0000 + rt * 0x1_0000 + low;
            w / 64 == (rs * 32 + rt) * 0x400 + low / 64 && w % 64 == low % 64
  {
  }

  lemma LowFields(rd: General, shift: General, which: nat)
    requires which < 64
    ensures var low := rd * 0x800 + shift * 64 + which;
            low < 0x1_0000 && low / 0x800 == rd && low / 64 == rd * 32 + shift && low % 64 == which
  {
  }

  lemma JumpFields(top: nat, target: nat)
    requires top < 64 && target < 0x400_0000
    ensures var w := top * 0x400_0000 + target;
            w < W && w / 0x400_0000 % 64 == top && w % 0x400_0000 == target
  {
  }

  lemma DecodeJump(top: nat, target: nat)
    requires (top == 2 || top == 3) && target < 0x400_0000
    ensures var w := top * 0x400_0000 + target;
            w < W && Decode(w).op == (if top == 2 then J else JAL) && Decode(w).extra == target
  {
    hide Special, Conditional, SignExtend16;
    JumpFields(top, target);
  }

  // ---------------------------------------------------------------- execution

  type Registers = seq<Word>

  /** What an instruction does to the registers before the delayed load and the program
      counters: nothing, one register, or the pair that multiplication and division use. */
  datatype Effect = Nothing | Sets(reg: nat, value: Word) | SetsHiLo(hi: Word, lo: Word) | Raises(trap: Trap)

  /** The sign tests that the simulator takes for overflow. */
  predicate AddOverflows(a: Word, b: Word) {
    BitAnd(BitXor(a, b), SIGN_BIT) == 0 && BitAnd(BitXor(a, Wrap(a + b)), SIGN_BIT) != 0
  }

  predicate SubOverflows(a: Word, b: Word) {
    BitAnd(BitXor(a, b), SIGN_BIT) != 0 && BitAnd(BitXor(a, Wrap(a - b)), SIGN_BIT) != 0
  }

  predicate InRange(x: int) { -0x8000_0000 <= x < 0x8000_0000 }

  /** They are right: a trap exactly when the signed result does not fit, else that result. */
  lemma AddExact(a: Word, b: Word)
    ensures AddOverflows(a, b) <==> !InRange(Signed(a) + Signed(b))
    ensures !AddOverflows(a, b) ==> Signed(Wrap(a + b)) == Signed(a) + Signed(b)
  {
    hide BitAnd, BitXor;
    SignOfXor(a, b);
    SignBit(BitXor(a, b));
    SignOfXor(a, Wrap(a + b));
    SignBit(BitXor(a, Wrap(a + b)));
  }

  lemma SubExact(a: Word, b: Word)
    ensures SubOverflows(a, b) <==> !InRange(Signed(a) - Signed(b))
    ensures !SubOverflows(a, b) ==> Signed(Wrap(a - b)) == Signed(a) - Signed(b)
  {
    hide BitAnd, BitXor;
    SignOfXor(a, b);
    SignBit(BitXor(a, b));
    SignOfXor(a, Wrap(a - b));
    SignBit(BitXor(a, Wrap(a - b)));
  }

  /** Immediates are added as 32-bit words. */
  function Imm(i: Instr): Word { Wrap(i.extra) }

  function Low16Imm(i: Instr): Word { i.extra % 0x1_0000 }

  predicate IsLoad(op: Op) { op.LB? || op.LBU? || op.LH? || op.LHU? || op.LW? || op.LWL? || op.LWR? }

  predicate IsStore(op: Op) { op.SB? || op.SH? || op.SW? || op.SWL? || op.SWR? }

  function Flag(b: bool): Word { if b then 1 else 0 }

  /** The product in 64 bits. */
  function Product(a: Word, b: Word, signedArith: bool): (p: int)
    ensures 0 <= p < W * W
  {
    ProductFits(a, b);
    if signedArith then Multiplication.Bits64(Signed(a) * Signed(b)) else a * b
  }

  lemma ProductFits(a: Word, b: Word)
    ensures 0 <= a * b < W * W && 0 <= Multiplication.Bits64(Signed(a) * Signed(b)) < W * W
  {
    Multiplication.ProductBound(a, b);
    var x: int, y: int := Signed(a), Signed(b);
    if x == 0 || y == 0 {
      assert x * y == 0;
    } else {
      Multiplication.SignRule(x, y);
      Multiplication.ProductBound(Multiplication.Abs(x), Multiplication.Abs(y));
    }
  }

  function High(p: int): Word
    requires 0 <= p < W * W
  {
    p / W
  }

  function Low(p: int): Word { p % W }

  function Quotient(a: Word, b: Word): Word {
    if b == 0 then 0 else DivideBound(a, b); a / b
  }

  function Remainder(a: Word, b: Word): Word {
    if b == 0 then 0 else RemainderBound(a, b); a % b
  }

  lemma RemainderBound(a: Word, b: Word)
    requires b > 0
    ensures 0 <= a % b < b
  {
  }

  function Alu(r: Registers, i: Instr): Effect
    requires |r| == NUM_REGS
  {
    var a, b := r[i.rs], r[i.rt];
    match i.op
    case ADD => if InRange(Signed(a) + Signed(b)) then Sets(i.rd, Wrap(a + b)) else Raises(Overflow)
    case ADDI => if InRange(Signed(a) + Signed(Imm(i))) then Sets(i.rt, Wrap(a + Imm(i))) else Raises(Overflow)
    case SUB => if InRange(Signed(a) - Signed(b)) then Sets(i.rd, Wrap(a - b)) else Raises(Overflow)
    case ADDIU => Sets(i.rt, Wrap(a + Imm(i)))
    case ADDU => Sets(i.rd, Wrap(a + b))
    case SUBU => Sets(i.rd, Wrap(a - b))
    case AND => Sets(i.rd, BitAnd(a, b))
    case ANDI => Sets(i.rt, BitAnd(a, Low16Imm(i)))
    case NOR => Sets(i.rd, W - 1 - BitOr(a, b))
    case OR => Sets(i.rd, BitOr(a, a))                 // as the simulator does
    case ORI => Sets(i.rt, BitOr(a, Low16Imm(i)))
    case XOR => Sets(i.rd, BitXor(a, b))
    case XORI => Sets(i.rt, BitXor(a, Low16Imm(i)))
    case LUI => Sets(i.rt, ShiftLeft(Imm(i), 16))
    case SLL => Sets(i.rd, ShiftLeft(b, i.extra % 32))
    case SLLV => Sets(i.rd, ShiftLeft(b, a % 32))
    case SRA => Sets(i.rd, ShiftRight(b, i.extra % 32))
    case SRAV => Sets(i.rd, ShiftRight(b, a % 32))
    case SRL => Sets(i.rd, ShiftRightSigned(b, i.extra % 32))
    case SRLV => Sets(i.rd, ShiftRightSigned(b, a % 32))
    case SLT => Sets(i.rd, Flag(a < b))
    case SLTU => Sets(i.rd, Flag(a < b))
    case SLTI => Sets(i.rt, Flag(a < Imm(i)))
    case SLTIU => Sets(i.rt, Flag(a < Imm(i)))
    case MFHI => Sets(i.rd, r[HI])
    case MFLO => Sets(i.rd, r[LO])
    case MTHI => Sets(HI, a)
    case MTLO => Sets(LO, a)
    case MULT => SetsHiLo(High(Product(a, b, true)), Low(Product(a, b, true)))
    case MULTU => SetsHiLo(High(Product(a, b, false)), Low(Product(a, b, false)))
    case DIV => SetsHiLo(Remainder(a, b), Quotient(a, b))
    case DIVU => SetsHiLo(Remainder(a, b), Quotient(a, b))
    case BGEZAL => Sets(R31, Plus4(r[NEXT_PC]))
    case BLTZAL => Sets(R31, Plus4(r[NEXT_PC]))
    case JAL => Sets(R31, Plus4(r[NEXT_PC]))
    case JALR => Sets(i.rd, Plus4(r[NEXT_PC]))
    case SYSCALL => Raises(Syscall)
    case UNIMP => Raises(IllegalInstr)
    case RES => Raises(IllegalInstr)
    case _ => Nothing
  }

  function Applied(r: Registers, e: Effect): (r': Registers)
    requires |r| == NUM_REGS && (e.Sets? ==> e.reg < NUM_REGS)
    ensures |r'| == NUM_REGS
  {
    match e
    case Sets(reg, value) => r[reg := value]
    case SetsHiLo(hi, lo) => r[HI := hi][LO := lo]
    case _ => r
  }

  /** A word offset as a byte offset. */
  function IndexToAddr(i: Instr): Word { Wrap(i.extra * 4) }

  /** The program counter after the next one, once the instruction has set its register. */
  function Target(r: Registers, i: Instr): Word
    requires |r| == NUM_REGS
  {
    var next := r[NEXT_PC];
    var a, b := r[i.rs], r[i.rt];
    var branch := Wrap(IndexToAddr(i) + next);
    match i.op
    case BEQ => if a == b then branch else Plus4(next)
    case BNE => if a != b then branch else Plus4(next)
    case BGEZ => if !Negative(a) then branch else Plus4(next)
    case BGEZAL => if !Negative(a) then branch else Plus4(next)
    case BLTZ => if Negative(a) then branch else Plus4(next)
    case BLTZAL => if Negative(a) then branch else Plus4(next)
    case BGTZ => if a > 0 then branch else Plus4(next)
    case BLEZ => if a <= 0 then branch else Plus4(next)
    case J => BitOr(BitAnd(Plus4(next), 0xf000_0000), IndexToAddr(i))
    case JAL => BitOr(BitAnd(Plus4(next), 0xf000_0000), IndexToAddr(i))
    case JR => a
    case JALR => a
    case _ => Plus4(next)
  }

  /** A pending delayed load arrives, another takes its place, and register 0 is zero again. */
  function Committed(r: Registers, nextReg: General, nextValue: Word): Registers
    requires |r| == NUM_REGS && r[LOAD_REG] < 32
  {
    r[r[LOAD_REG] := r[LOAD_VALUE]][LOAD_REG := nextReg][LOAD_VALUE := nextValue][0 := 0]
  }

  function Advanced(r: Registers, pcAfter: Word): Registers
    requires |r| == NUM_REGS
  {
    r[PREV_PC := r[PC]][PC := r[NEXT_PC]][NEXT_PC := pcAfter]
  }

  /** The registers when an instruction has completed. */
  function RetiredState(r: Registers, i: Instr, loadReg: General, loadValue: Word): Registers
    requires |r| == NUM_REGS && r[LOAD_REG] < 32
  {
    var r1 := Applied(r, Alu(r, i));
    Advanced(Committed(r1, loadReg, loadValue), Target(r1, i))
  }

  /** The registers when it has trapped, before the handler runs. */
  function TrappedState(r: Registers, badVAddr: Word): Registers
    requires |r| == NUM_REGS && r[LOAD_REG] < 32
  {
    Committed(r[BAD_VADDR := badVAddr], 0, 0)
  }

  ghost predicate Ok(r: Registers) {
    |r| == NUM_REGS && r[0] == 0 && r[LOAD_REG] < 32
  }

  /** Register 0 stays zero, and what a delayed load names stays a general register. */
  lemma RetiredOk(r: Registers, i: Instr, loadReg: General, loadValue: Word)
    requires Ok(r)
    ensures var r' := RetiredState(r, i, loadReg, loadValue);
            && Ok(r') && r'[PC] == r[NEXT_PC] && r'[PREV_PC] == r[PC] && r'[BAD_VADDR] == r[BAD_VADDR]
            && r'[LOAD_REG] == loadReg && r'[LOAD_VALUE] == loadValue
  {
    hide Target, Alu;
    AluReg(r, i);
  }

  lemma AluReg(r: Registers, i: Instr)
    requires |r| == NUM_REGS
    ensures Alu(r, i).Sets? ==> Alu(r, i).reg < PC
  {
  }

  /** A trap touches nothing but the failing address and the pending load. */
  lemma TrappedOk(r: Registers, badVAddr: Word)
    requires Ok(r)
    ensures var r' := TrappedState(r, badVAddr);
            && Ok(r') && r'[PC] == r[PC] && r'[NEXT_PC] == r[NEXT_PC] && r'[PREV_PC] == r[PREV_PC]
            && r'[HI] == r[HI] && r'[LO] == r[LO] && r'[BAD_VADDR] == badVAddr && r'[LOAD_REG] == 0
            && (forall g: General :: r'[g] == if g != 0 && g == r[LOAD_REG] then r[LOAD_VALUE] else r[g])
  {
  }

  /** A delayed load arrives with the next instruction, whether that completes or traps, and
      overrides what that instruction itself puts there. */
  lemma LoadArrives(r: Registers, i: Instr, loadReg: General, loadValue: Word, badVAddr: Word)
    requires Ok(r) && r[LOAD_REG] != 0
    ensures RetiredState(r, i, loadReg, loadValue)[r[LOAD_REG]] == r[LOAD_VALUE]
    ensures TrappedState(r, badVAddr)[r[LOAD_REG]] == r[LOAD_VALUE]
  {
    hide Target, Alu;
    AluReg(r, i);
  }

  /** The instruction after a load does not yet see it: but for the pending load, an
      instruction leaves every general register alone except the one it sets. */
  lemma OthersKept(r: Registers, i: Instr, loadReg: General, loadValue: Word, g: General)
    requires Ok(r) && g != r[LOAD_REG] && g != 0 && !(Alu(r, i).Sets? && Alu(r, i).reg == g)
    ensures RetiredState(r, i, loadReg, loadValue)[g] == r[g]
  {
    hide Target, Alu;
    AluReg(r, i);
  }

  // ---------------------------------------------------------------- where the simulator differs

  /** Every bit of b is a bit of a. */
  ghost predicate Covers(a: Word, b: Word) {
    forall k: nat :: Bit(b, k) ==> Bit(a, k)
  }

  /** OR takes rs twice: it is right exactly when rt has no bit of its own. */
  lemma OrRightIff(r: Registers, i: Instr)
    requires |r| == NUM_REGS && i.op.OR?
    ensures Alu(r, i) == Sets(i.rd, BitOr(r[i.rs], r[i.rt])) <==> Covers(r[i.rs], r[i.rt])
  {
    hide BitOr, Covers;
    var a, b := r[i.rs], r[i.rt];
    if BitOr(a, a) == BitOr(a, b) { SameMeansCovers(a, b); }
    if Covers(a, b) { CoversMeansSame(a, b); }
  }

  lemma SameMeansCovers(a: Word, b: Word)
    requires BitOr(a, a) == BitOr(a, b)
    ensures Covers(a, b)
  {
    forall k: nat | Bit(b, k)
      ensures Bit(a, k)
    {
      BitOfOr(a, b, k);
      BitOfOr(a, a, k);
    }
  }

  lemma CoversMeansSame(a: Word, b: Word)
    requires Covers(a, b)
    ensures BitOr(a, a) == BitOr(a, b)
  {
    forall k: nat
      ensures Bit(BitOr(a, a), k) <==> Bit(BitOr(a, b), k)
    {
      BitOfOr(a, b, k);
      BitOfOr(a, a, k);
    }
    SameBits(BitOr(a, a), BitOr(a, b));
  }

  /** The shift distance of the six shifts. */
  function Distance(r: Registers, i: Instr): General
    requires |r| == NUM_REGS
  {
    if i.op.SLL? || i.op.SRA? || i.op.SRL? then i.extra % 32 else r[i.rs] % 32
  }

  lemma ShiftsAgree(b: Word, n: nat)
    requires n < 32
    ensures ShiftRight(b, n) == ShiftRightSigned(b, n) <==> !Negative(b) || n == 0
  {
    if n == 0 {
      assert Pow2(0) == 1;
    } else if Negative(b) {
      var p := Pow2(n);
      assert p >= 2 && p == 2 * Pow2(n - 1);
      QuotientAtLeastTwo(b, p);
      QuotientAtLeastTwo(W - b, p);
      NegativeQuotient(b - W, p);
    } else {
      DivideBound(b, Pow2(n));
    }
  }

  lemma QuotientAtLeastTwo(a: nat, p: nat)
    requires p >= 2
    ensures 2 * (a / p) <= a
  {
    ProductMonotone(a / p, 2, p);
    assert a / p * p <= a;
  }

  /** A quotient of a negative int is a negative int. */
  lemma NegativeQuotient(x: Int32, p: nat)
    requires x < 0 && p >= 1
    ensures -0x8000_0000 <= x / p < 0
  {
    var q := x / p;
    assert p * q <= x < p * q + p;
    if q >= 0 {
      ProductPositive(p, q);
      assert false;
    }
    ProductMonotone(-1 - q, 1, p);
    ProductSplit(p, q, 1);
  }

  /** SRA shifts in zeros and SRL the sign, so each is right exactly when the sign is clear or
      nothing is shifted. */
  lemma SraRightIff(r: Registers, i: Instr)
    requires |r| == NUM_REGS && (i.op.SRA? || i.op.SRAV?)
    ensures Alu(r, i) == Sets(i.rd, ShiftRightSigned(r[i.rt], Distance(r, i))) <==> !Negative(r[i.rt]) || Distance(r, i) == 0
  {
    hide ShiftRight, ShiftRightSigned;
    ShiftsAgree(r[i.rt], Distance(r, i));
  }

  lemma SrlRightIff(r: Registers, i: Instr)
    requires |r| == NUM_REGS && (i.op.SRL? || i.op.SRLV?)
    ensures Alu(r, i) == Sets(i.rd, ShiftRight(r[i.rt], Distance(r, i))) <==> !Negative(r[i.rt]) || Distance(r, i) == 0
  {
    hide ShiftRight, ShiftRightSigned;
    ShiftsAgree(r[i.rt], Distance(r, i));
  }

  /** SLT and SLTI compare unsigned: they are right exactly when the signs are equal. */
  lemma SltRightIff(r: Registers, i: Instr)
    requires |r| == NUM_REGS
    ensures i.op.SLT? ==> (Alu(r, i) == Sets(i.rd, Flag(Signed(r[i.rs]) < Signed(r[i.rt])))
                           <==> Negative(r[i.rs]) == Negative(r[i.rt]))
    ensures i.op.SLTI? ==> (Alu(r, i) == Sets(i.rt, Flag(Signed(r[i.rs]) < i.extra))
                            <==> Negative(r[i.rs]) == (i.extra < 0))
  {
  }

  /** Where a branch goes that is taken if `on`. */
  function Branches(r: Registers, i: Instr, on: bool): Word
    requires |r| == NUM_REGS
  {
    if on then Wrap(IndexToAddr(i) + r[NEXT_PC]) else Plus4(r[NEXT_PC])
  }

  /** BGTZ and BLEZ compare unsigned with zero: they are right exactly when the sign is clear,
      or when the branch leads to where not branching does. */
  lemma BgtzRightIff(r: Registers, i: Instr)
    requires |r| == NUM_REGS && i.op.BGTZ?
    ensures Target(r, i) == Branches(r, i, Signed(r[i.rs]) > 0) <==> !Negative(r[i.rs]) || IndexToAddr(i) == 4
  {
    OtherWay(r[NEXT_PC], IndexToAddr(i));
  }

  lemma BlezRightIff(r: Registers, i: Instr)
    requires |r| == NUM_REGS && i.op.BLEZ?
    ensures Target(r, i) == Branches(r, i, Signed(r[i.rs]) <= 0) <==> !Negative(r[i.rs]) || IndexToAddr(i) == 4
  {
    OtherWay(r[NEXT_PC], IndexToAddr(i));
  }

  lemma OtherWay(next: Word, offset: Word)
    ensures Wrap(offset + next) == Plus4(next) <==> offset == 4
  {
  }

  function Magnitude(x: int): nat { if x < 0 then -x else x }

  /** Signed division as C and the MIPS do it, towards zero; by zero as the simulator does it. */
  function SignedDivision(a: Word, b: Word): Effect {
    if b == 0 then SetsHiLo(0, 0)
    else
      var x, y := Signed(a), Signed(b);
      var q, m := Magnitude(x) / Magnitude(y), Magnitude(x) % Magnitude(y);
      SetsHiLo(Wrap(if x < 0 then -m else m), Wrap(if (x < 0) == (y < 0) then q else -q))
  }

  /** DIV divides unsigned: it is right exactly when it divides by 0 or 1 or a number by itself,
      or a number that is not negative by another one or by a larger negative one. */
  lemma DivRightIff(r: Registers, i: Instr)
    requires |r| == NUM_REGS && i.op.DIV?
    ensures var a, b := r[i.rs], r[i.rt];
            Alu(r, i) == SignedDivision(a, b) <==> b <= 1 || a == b || (!Negative(a) && (!Negative(b) || a < W - b))
  {
    var a, b := r[i.rs], r[i.rt];
    assert Alu(r, i) == SetsHiLo(Remainder(a, b), Quotient(a, b));
    hide Alu, SignedDivision, Quotient, Remainder;
    if b == 0 || (!Negative(a) && !Negative(b)) {
      SameDivision(a, b);
    } else if !Negative(b) {
      if b == 1 { ByOne(a); } else { NegativeDividend(a, b); }
    } else if !Negative(a) {
      NegativeDivisor(a, b);
    } else {
      BothNegative(a, b);
    }
  }

  lemma SameDivision(a: Word, b: Word)
    requires b == 0 || (!Negative(a) && !Negative(b))
    ensures SetsHiLo(Remainder(a, b), Quotient(a, b)) == SignedDivision(a, b)
  {
    if b > 0 {
      DivideBound(a, b);
      RemainderBound(a, b);
    }
  }

  lemma ByOne(a: Word)
    requires Negative(a)
    ensures SetsHiLo(Remainder(a, 1), Quotient(a, 1)) == SignedDivision(a, 1)
  {
  }

  lemma NegativeDividend(a: Word, b: Word)
    requires Negative(a) && 1 < b && !Negative(b)
    ensures SetsHiLo(Remainder(a, b), Quotient(a, b)) != SignedDivision(a, b)
  {
    NegativeByPositive(W - a, b);
  }

  lemma NegativeDivisor(a: Word, b: Word)
    requires !Negative(a) && Negative(b)
    ensures SetsHiLo(Remainder(a, b), Quotient(a, b)) == SignedDivision(a, b) <==> a < W - b
  {
    PositiveByNegative(a, W - b);
  }

  lemma BothNegative(a: Word, b: Word)
    requires Negative(a) && Negative(b)
    ensures SetsHiLo(Remainder(a, b), Quotient(a, b)) == SignedDivision(a, b) <==> a == b
  {
    NegativeByNegative(W - a, W - b);
  }

  lemma NoneFits(a: nat, b: nat)
    requires a < b
    ensures a / b == 0 && a % b == a
  {
  }

  lemma OneFits(a: nat, b: nat)
    requires b <= a < 2 * b
    ensures a / b == 1 && a % b == a - b
  {
  }

  lemma NegativeByPositive(m: nat, b: nat)
    requires 0 < m <= 0x8000_0000 && 1 < b < 0x8000_0000
    ensures 0 < (W - m) / b < 0x8000_0000 && m / b < 0x8000_0000
  {
    var q := (W - m) / b;
    assert q * b <= W - m < q * b + b;
    ProductMonotone(q, 2, b);
    var p := m / b;
    assert p * b <= m;
    ProductMonotone(p, 2, b);
  }

  lemma PositiveByNegative(a: nat, n: nat)
    requires a < 0x8000_0000 && 0 < n <= 0x8000_0000
    ensures a / (W - n) == 0 && a % (W - n) == a
    ensures a < n ==> a / n == 0 && a % n == a
    ensures a >= n ==> 0 < a / n < 0x8000_0000
  {
    NoneFits(a, W - n);
    if a < n {
      NoneFits(a, n);
    } else {
      var q := a / n;
      assert q * n <= a < q * n + n;
      ProductMonotone(q, 1, n);
    }
  }

  lemma NegativeByNegative(m: nat, n: nat)
    requires 0 < m <= 0x8000_0000 && 0 < n <= 0x8000_0000
    ensures m < n ==> (W - m) / (W - n) == 1 && m / n == 0
    ensures m == n ==> (W - m) / (W - n) == 1 && (W - m) % (W - n) == 0 && m / n == 1 && m % n == 0
    ensures m > n ==> (W - m) / (W - n) == 0 && 0 < m / n <= 0x8000_0000
  {
    if m <= n {
      OneFits(W - m, W - n);
      if m < n { NoneFits(m, n); } else { OneFits(m, n); }
    } else {
      NoneFits(W - m, W - n);
      var q := m / n;
      assert q * n <= m < q * n + n;
      ProductMonotone(q, 1, n);
    }
  }

  /** The most negative int is more than zero for BGTZ, and not at most zero for BLEZ. */
  lemma BranchesWrong()
    ensures Target(Sample(SIGN_BIT, 0), Instr(BGTZ, 1, 0, 0, 2)) == 8 != Branches(Sample(SIGN_BIT, 0), Instr(BGTZ, 1, 0, 0, 2), false)
    ensures Target(Sample(SIGN_BIT, 0), Instr(BLEZ, 1, 0, 0, 2)) == 4 != Branches(Sample(SIGN_BIT, 0), Instr(BLEZ, 1, 0, 0, 2), true)
    ensures Signed(SIGN_BIT) < 0
  {
  }

  /** -4 divided by 2 comes out as 0x7ffffffe. */
  lemma DivWrong()
    ensures Alu(Sample(W - 4, 2), Instr(DIV, 1, 2, 0, 0)) == SetsHiLo(0, 0x7fff_fffe)
    ensures Signed(W - 4) == -4 && SignedDivision(W - 4, 2) == SetsHiLo(0, W - 2)
  {
  }

  /** Registers that are zero but for 1 and 2. */
  function Sample(a: Word, b: Word): (r: Registers)
    ensures |r| == NUM_REGS && r[1] == a && r[2] == b
  {
    seq(NUM_REGS, k => if k == 1 then a else if k == 2 then b else 0)
  }

  /** 0 | 1 comes out as 0. */
  lemma OrWrong()
    ensures Alu(Sample(0, 1), Instr(OR, 1, 2, 3, 0)) == Sets(3, 0) && BitOr(0, 1) == 1
  {
    assert Or(0, 1) == 1 && Or(0, 0) == 0;
    hide Sample;
  }

  /** The most negative int shifted right by one comes out of SRA positive, and of SRL negative. */
  lemma ShiftsWrong()
    ensures Alu(Sample(0, SIGN_BIT), Instr(SRA, 0, 2, 3, 1)) == Sets(3, 0x4000_0000) && ShiftRightSigned(SIGN_BIT, 1) == 0xc000_0000
    ensures Alu(Sample(0, SIGN_BIT), Instr(SRL, 0, 2, 3, 1)) == Sets(3, 0xc000_0000) && ShiftRight(SIGN_BIT, 1) == 0x4000_0000
  {
    hide Sample;
    assert Pow2(1) == 2;
  }

  /** The most negative int is not less than 0 for SLT. */
  lemma SltWrong()
    ensures Alu(Sample(SIGN_BIT, 0), Instr(SLT, 1, 2, 3, 0)) == Sets(3, 0) && Signed(SIGN_BIT) < 0
  {
    hide Sample;
  }
}
