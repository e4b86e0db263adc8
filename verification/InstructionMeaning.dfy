/** What the instructions of the simulated MIPS mean (machine/mipssim.cc, machine/mipssim.h): sums,
    bits, orders and targets, said of the registers before and after. */
module MipsMeaning {
  import opened Bits
  import opened Common
  import opened MipsInstructions

  // ---------------------------------------------------------------- opcodes

  /** The encoding of the MIPS R2000: operations told by bits 31 to 26, */
  function MajorOf(op: Op): Option<nat> {
    match op
    case J => Some(0x02) case JAL => Some(0x03) case BEQ => Some(0x04) case BNE => Some(0x05) case BLEZ => Some(0x06) case BGTZ => Some(0x07)
    case ADDI => Some(0x08) case ADDIU => Some(0x09) case SLTI => Some(0x0a) case SLTIU => Some(0x0b) case ANDI => Some(0x0c) case ORI => Some(0x0d)
    case XORI => Some(0x0e) case LUI => Some(0x0f) case LB => Some(0x20) case LH => Some(0x21) case LWL => Some(0x22) case LW => Some(0x23)
    case LBU => Some(0x24) case LHU => Some(0x25) case LWR => Some(0x26) case SB => Some(0x28) case SH => Some(0x29) case SWL => Some(0x2a)
    case SW => Some(0x2b) case SWR => Some(0x2e)
    case _ => None
  }

  /** those told, with these bits zero, by bits 5 to 0, */
  function FunctionOf(op: Op): Option<nat> {
    match op
    case SLL => Some(0x00) case SRL => Some(0x02) case SRA => Some(0x03) case SLLV => Some(0x04) case SRLV => Some(0x06) case SRAV => Some(0x07)
    case JR => Some(0x08) case JALR => Some(0x09) case SYSCALL => Some(0x0c) case MFHI => Some(0x10) case MTHI => Some(0x11) case MFLO => Some(0x12)
    case MTLO => Some(0x13) case MULT => Some(0x18) case MULTU => Some(0x19) case DIV => Some(0x1a) case DIVU => Some(0x1b) case ADD => Some(0x20)
    case ADDU => Some(0x21) case SUB => Some(0x22) case SUBU => Some(0x23) case AND => Some(0x24) case OR => Some(0x25) case XOR => Some(0x26)
    case NOR => Some(0x27) case SLT => Some(0x2a) case SLTU => Some(0x2b)
    case _ => None
  }

  /** and those told, with these bits one, by bits 20 to 16. */
  function ConditionOf(op: Op): Option<nat> {
    match op
    case BLTZ => Some(0x00) case BGEZ => Some(0x01) case BLTZAL => Some(0x10) case BGEZAL => Some(0x11)
    case _ => None
  }

  /** The word has the code of the operation. */
  predicate HasCode(w: Word, op: Op) {
    var top := w / 0x400_0000;
    if top == 0 then FunctionOf(op) == Some(w % 64)
    else if top == 1 then ConditionOf(op) == Some(w / 0x1_0000 % 32)
    else MajorOf(op) == Some(top)
  }

  /** An operation that the simulator carries out, rather than calling it illegal. */
  predicate Known(op: Op) { !op.UNIMP? && !op.RES? }

  lemma MajorBack(op: Op)
    ensures MajorOf(op).Some? ==> 2 <= MajorOf(op).value < 64 && OpTable(MajorOf(op).value) == op
  {
  }

  lemma FunctionBack(op: Op)
    ensures FunctionOf(op).Some? ==> FunctionOf(op).value < 64 && Special(FunctionOf(op).value) == op
  {
  }

  lemma ConditionBack(op: Op)
    ensures ConditionOf(op).Some? ==> Conditional(ConditionOf(op).value) == op
  {
  }

  lemma MajorForth(n: nat)
    requires 2 <= n < 64
    ensures Known(OpTable(n)) ==> MajorOf(OpTable(n)) == Some(n)
  {
  }

  lemma FunctionForth(n: nat)
    ensures Known(Special(n)) ==> FunctionOf(Special(n)) == Some(n)
  {
  }

  lemma ConditionForth(n: nat)
    ensures Known(Conditional(n)) ==> ConditionOf(Conditional(n)) == Some(n)
  {
  }

  /** A word is decoded as an operation exactly if it has that operation's code. */
  lemma DecodedIff(w: Word, op: Op)
    requires Known(op)
    ensures Decode(w).op == op <==> HasCode(w, op)
  {
    hide MajorOf, FunctionOf, ConditionOf, OpTable, Special, Conditional, SignExtend16;
    var top := w / 0x400_0000;
    assert top < 64 && top % 64 == top;
    if top == 0 {
      FunctionForth(w % 64);
      FunctionBack(op);
    } else if top == 1 {
      ConditionForth(w / 0x1_0000 % 32);
      ConditionBack(op);
    } else {
      MajorForth(top);
      MajorBack(op);
    }
  }

  // ---------------------------------------------------------------- bits of results

  lemma WordBits(a: Word, k: nat)
    requires k >= 32
    ensures !Bit(a, k)
  {
    Pow2Of32();
    NoHighBits(a, 32, k);
  }

  lemma NorBits(a: Word, b: Word, k: nat)
    requires k < 32
    ensures Bit(W - 1 - BitOr(a, b), k) <==> !Bit(a, k) && !Bit(b, k)
  {
    Pow2Of32();
    BitOfComplement(BitOr(a, b), 32, k);
    BitOfOr(a, b, k);
  }

  lemma LeftBits(a: Word, n: nat, k: nat)
    requires k < 32
    ensures Bit(ShiftLeft(a, n), k) <==> n <= k && Bit(a, k - n)
  {
    Pow2Of32();
    BitOfRemainder(a * Pow2(n), 32, k);
    BitOfMultiple(a, n, k);
  }

  lemma RightBits(a: Word, n: nat, k: nat)
    ensures Bit(ShiftRight(a, n), k) <==> Bit(a, k + n)
  {
    BitOfQuotient(a, n, ShiftRight(a, n), k);
  }

  lemma RightNegativeBits(a: Word, n: nat, k: nat)
    requires k < 32 && Negative(a)
    ensures Bit(ShiftRightSigned(a, n), k) <==> k + n >= 32 || Bit(a, k + n)
  {
    Pow2Of32();
    var c: Word := W - 1 - a;
    FloorOfNegative(c, Pow2(n));
    DivideBound(c, Pow2(n));
    assert ShiftRightSigned(a, n) == W - 1 - c / Pow2(n);
    BitOfComplement(c / Pow2(n), 32, k);
    BitOfQuotient(c, n, c / Pow2(n), k);
    if k + n < 32 { BitOfComplement(a, 32, k + n); } else { WordBits(c, k + n); }
  }

  lemma RightPositiveBits(a: Word, n: nat, k: nat)
    requires !Negative(a)
    ensures Bit(ShiftRightSigned(a, n), k) <==> Bit(a, k + n)
  {
    hide Pow2, Bit;
    var q := a / Pow2(n);
    DivideBound(a, Pow2(n));
    assert ShiftRightSigned(a, n) == Wrap(q) == q;
    BitOfQuotient(a, n, q, k);
  }

  /** The bits shifted in are the sign. */
  lemma RightSignedBits(a: Word, n: nat, k: nat)
    requires k < 32
    ensures Bit(ShiftRightSigned(a, n), k) <==> Bit(a, if k + n < 31 then k + n else 31)
  {
    hide ShiftRightSigned;
    Pow2Of32();
    assert Pow2(31) == SIGN_BIT;
    TopBit(a, 31);
    if Negative(a) {
      RightNegativeBits(a, n, k);
    } else {
      RightPositiveBits(a, n, k);
      if k + n > 31 { NoHighBits(a, 31, k + n); }
    }
  }

  lemma MinusOneTimes(q: int, p: int)
    ensures (-1 - q) * p == -p - q * p
  {
  }

  lemma FloorOfNegative(c: nat, p: nat)
    requires p >= 1
    ensures (-1 - c) / p == -1 - c / p
  {
    var q, m := c / p, c % p;
    assert c == q * p + m;
    MinusOneTimes(q, p);
    UniqueRemainder(-1 - c, p, -1 - q, p - 1 - m);
  }

  lemma Low16Bits(i: Instr, k: nat)
    ensures Bit(Low16Imm(i), k) <==> k < 16 && Bit(Imm(i), k)
  {
    assert Pow2(8) == 256 && Pow2(16) == 0x1_0000;
    SameLow16(i);
    BitOfRemainder(Imm(i), 16, k);
  }

  lemma SameLow16(i: Instr)
    ensures Low16Imm(i) == Imm(i) % 0x1_0000
  {
  }

  // ---------------------------------------------------------------- what an operation puts where

  /** The register that an operation sets, if it sets one. */
  function Destination(i: Instr): Option<nat> {
    match i.op
    case ADDI => Some(i.rt) case ADDIU => Some(i.rt) case ANDI => Some(i.rt) case ORI => Some(i.rt) case XORI => Some(i.rt)
    case LUI => Some(i.rt) case SLTI => Some(i.rt) case SLTIU => Some(i.rt)
    case ADD => Some(i.rd) case ADDU => Some(i.rd) case SUB => Some(i.rd) case SUBU => Some(i.rd)
    case AND => Some(i.rd) case OR => Some(i.rd) case XOR => Some(i.rd) case NOR => Some(i.rd)
    case SLL => Some(i.rd) case SLLV => Some(i.rd) case SRA => Some(i.rd) case SRAV => Some(i.rd) case SRL => Some(i.rd)
    case SRLV => Some(i.rd) case SLT => Some(i.rd) case SLTU => Some(i.rd) case MFHI => Some(i.rd) case MFLO => Some(i.rd)
    case JALR => Some(i.rd) case MTHI => Some(HI) case MTLO => Some(LO)
    case JAL => Some(R31) case BGEZAL => Some(R31) case BLTZAL => Some(R31)
    case _ => None
  }

  /** Sums and differences, as ints where overflow traps and as words, modulo W, where it does not. */
  ghost predicate GivesSum(a: Word, b: Word, i: Instr, v: Word) {
    match i.op
    case ADD => Signed(v) == Signed(a) + Signed(b)
    case ADDI => Signed(v) == Signed(a) + i.extra
    case SUB => Signed(v) == Signed(a) - Signed(b)
    case ADDU => (v - a) % W == b
    case ADDIU => (v - a - i.extra) % W == 0
    case SUBU => (v + b) % W == a
    case _ => true
  }

  /** Bit k of a logical operation. OR takes rs twice. */
  ghost predicate GivesBit(a: Word, b: Word, i: Instr, v: Word, k: nat) {
    match i.op
    case AND => Bit(v, k) <==> Bit(a, k) && Bit(b, k)
    case OR => Bit(v, k) <==> Bit(a, k)
    case XOR => Bit(v, k) <==> Bit(a, k) != Bit(b, k)
    case NOR => Bit(v, k) <==> !Bit(a, k) && !Bit(b, k)
    case ANDI => Bit(v, k) <==> k < 16 && Bit(a, k) && Bit(Imm(i), k)
    case ORI => Bit(v, k) <==> Bit(a, k) || (k < 16 && Bit(Imm(i), k))
    case XORI => Bit(v, k) <==> Bit(a, k) != (k < 16 && Bit(Imm(i), k))
    case LUI => Bit(v, k) <==> k >= 16 && Bit(Imm(i), k - 16)
    case _ => true
  }

  /** Bit k of a shift by n. SRA and SRAV shift in zeros, SRL and SRLV the sign. */
  ghost predicate GivesShifted(b: Word, n: nat, i: Instr, v: Word, k: nat) {
    match i.op
    case SLL => Bit(v, k) <==> k >= n && Bit(b, k - n)
    case SLLV => Bit(v, k) <==> k >= n && Bit(b, k - n)
    case SRA => Bit(v, k) <==> k + n < 32 && Bit(b, k + n)
    case SRAV => Bit(v, k) <==> k + n < 32 && Bit(b, k + n)
    case SRL => Bit(v, k) <==> Bit(b, if k + n < 32 then k + n else 31)
    case SRLV => Bit(v, k) <==> Bit(b, if k + n < 32 then k + n else 31)
    case _ => true
  }

  /** Comparisons, all of them unsigned, give 1 or 0; moves give the register named. */
  ghost predicate GivesOther(r: Registers, i: Instr, v: Word)
    requires |r| == NUM_REGS
  {
    var a, b := r[i.rs], r[i.rt];
    match i.op
    case SLT => v <= 1 && (v == 1 <==> a < b)
    case SLTU => v <= 1 && (v == 1 <==> a < b)
    case SLTI => v <= 1 && (v == 1 <==> a < Unsigned(i.extra))
    case SLTIU => v <= 1 && (v == 1 <==> a < Unsigned(i.extra))
    case MFHI => v == r[HI]
    case MFLO => v == r[LO]
    case MTHI => v == a
    case MTLO => v == a
    case JAL => (v - r[NEXT_PC]) % W == 4
    case JALR => (v - r[NEXT_PC]) % W == 4
    case BGEZAL => (v - r[NEXT_PC]) % W == 4
    case BLTZAL => (v - r[NEXT_PC]) % W == 4
    case _ => true
  }

  /** The shift distance: a constant, or the low five bits of rs. */
  function ShiftBy(r: Registers, i: Instr): nat
    requires |r| == NUM_REGS
  {
    if i.op.SLLV? || i.op.SRAV? || i.op.SRLV? then r[i.rs] % 32 else i.extra % 32
  }

  /** What an operation puts into its register. */
  ghost predicate Gives(r: Registers, i: Instr, v: Word)
    requires |r| == NUM_REGS
  {
    && GivesSum(r[i.rs], r[i.rt], i, v) && GivesOther(r, i, v)
    && forall k: nat :: k < 32 ==>
         GivesBit(r[i.rs], r[i.rt], i, v, k) && GivesShifted(r[i.rt], ShiftBy(r, i), i, v, k)
  }

  lemma ImmWraps(i: Instr)
    ensures Signed(Imm(i)) == i.extra && Imm(i) == Unsigned(i.extra)
  {
  }

  lemma WrappedSum(a: Word, b: Word)
    ensures InRange(Signed(a) + Signed(b)) ==> Signed(Wrap(a + b)) == Signed(a) + Signed(b)
    ensures (Wrap(a + b) - a) % W == b
  {
  }

  lemma WrappedDifference(a: Word, b: Word)
    ensures InRange(Signed(a) - Signed(b)) ==> Signed(Wrap(a - b)) == Signed(a) - Signed(b)
    ensures (Wrap(a - b) + b) % W == a
  {
  }

  lemma WrappedImmediate(a: Word, i: Instr)
    ensures (Wrap(a + Imm(i)) - a - i.extra) % W == 0
  {
  }

  lemma SumGiven(r: Registers, i: Instr)
    requires |r| == NUM_REGS && Alu(r, i).Sets?
    ensures GivesSum(r[i.rs], r[i.rt], i, Alu(r, i).value)
  {
    hide BitAnd, BitOr, BitXor, ShiftLeft, ShiftRight, ShiftRightSigned, Wrap, Imm, Signed, InRange;
    var a, b := r[i.rs], r[i.rt];
    ImmWraps(i);
    WrappedSum(a, b);
    WrappedSum(a, Imm(i));
    WrappedDifference(a, b);
    WrappedImmediate(a, i);
  }

  lemma OtherGiven(r: Registers, i: Instr)
    requires |r| == NUM_REGS && Alu(r, i).Sets?
    ensures GivesOther(r, i, Alu(r, i).value)
  {
    hide BitAnd, BitOr, BitXor, ShiftLeft, ShiftRight, ShiftRightSigned;
    ImmWraps(i);
  }

  lemma BitGiven(r: Registers, i: Instr, k: nat)
    requires |r| == NUM_REGS && Alu(r, i).Sets? && k < 32
    ensures GivesBit(r[i.rs], r[i.rt], i, Alu(r, i).value, k)
  {
    hide Bit, ShiftLeft, ShiftRight, ShiftRightSigned, Low16Imm;
    var a, b, low := r[i.rs], r[i.rt], Low16Imm(i);
    Low16Bits(i, k);
    match i.op
    case AND => BitOfAnd(a, b, k);
    case ANDI => BitOfAnd(a, low, k);
    case NOR => NorBits(a, b, k);
    case OR => BitOfOr(a, a, k);
    case ORI => BitOfOr(a, low, k);
    case XOR => BitOfXor(a, b, k);
    case XORI => BitOfXor(a, low, k);
    case LUI => LeftBits(Imm(i), 16, k);
    case _ =>
  }

  lemma ShiftGiven(r: Registers, i: Instr, k: nat)
    requires |r| == NUM_REGS && Alu(r, i).Sets? && k < 32
    ensures GivesShifted(r[i.rt], ShiftBy(r, i), i, Alu(r, i).value, k)
  {
    hide Bit, BitAnd, BitOr, BitXor, ShiftLeft, ShiftRight, ShiftRightSigned;
    var b, n := r[i.rt], ShiftBy(r, i);
    if i.op.SLL? || i.op.SLLV? {
      LeftBits(b, n, k);
    } else if i.op.SRA? || i.op.SRAV? {
      RightBits(b, n, k);
      if k + n >= 32 { WordBits(b, k + n); }
    } else if i.op.SRL? || i.op.SRLV? {
      RightSignedBits(b, n, k);
    }
  }

  /** Where the value goes: register 0 stays zero, a pending load overrides, and nothing else of the
      general registers, HI and LO changes. */
  ghost predicate OnlySets(r: Registers, d: nat, r': Registers)
    requires |r| == |r'| == NUM_REGS
  {
    forall g :: 0 <= g < PC && g != d ==> r'[g] == if g == r[LOAD_REG] && g != 0 then r[LOAD_VALUE] else r[g]
  }

  /** The operations that set one register: what they put there, and that nothing else changes. */
  lemma SetsOne(r: Registers, i: Instr, loadReg: General, loadValue: Word)
    requires Ok(r) && Destination(i).Some? && !Alu(r, i).Raises?
    ensures var d, r' := Destination(i).value, RetiredState(r, i, loadReg, loadValue);
            && d < PC && |r'| == NUM_REGS && OnlySets(r, d, r')
            && if d == 0 then r'[d] == 0 else if d == r[LOAD_REG] then r'[d] == r[LOAD_VALUE] else Gives(r, i, r'[d])
  {
    hide Alu, Target, GivesSum, GivesOther, GivesBit, GivesShifted, ShiftBy;
    SetsDestination(r, i);
    SumGiven(r, i);
    OtherGiven(r, i);
    forall k: nat | k < 32
      ensures GivesBit(r[i.rs], r[i.rt], i, Alu(r, i).value, k) && GivesShifted(r[i.rt], ShiftBy(r, i), i, Alu(r, i).value, k)
    {
      BitGiven(r, i, k);
      ShiftGiven(r, i, k);
    }
  }

  lemma SetsDestination(r: Registers, i: Instr)
    requires |r| == NUM_REGS
    ensures Alu(r, i).Sets? ==> Destination(i) == Some(Alu(r, i).reg)
    ensures Destination(i).Some? ==> Destination(i).value < PC && (Alu(r, i).Sets? || Alu(r, i).Raises?)
  {
    hide BitAnd, BitOr, BitXor, ShiftLeft, ShiftRight, ShiftRightSigned, Wrap;
  }

  // ---------------------------------------------------------------- products and quotients

  /** Multiplication leaves the 64-bit product in HI and LO, division the remainder and the quotient of
      the words, and zeros for a division by zero; nothing else changes. */
  ghost predicate GivesPair(a: Word, b: Word, op: Op, hi: Word, lo: Word) {
    match op
    case MULTU => hi * W + lo == a * b
    case MULT => hi * W + lo == Signed(a) * Signed(b) + if Signed(a) * Signed(b) < 0 then W * W else 0
    case DIV => if b == 0 then hi == 0 && lo == 0 else lo * b + hi == a && hi < b
    case DIVU => if b == 0 then hi == 0 && lo == 0 else lo * b + hi == a && hi < b
    case _ => true
  }

  lemma PairGiven(r: Registers, i: Instr)
    requires |r| == NUM_REGS && (i.op.MULT? || i.op.MULTU? || i.op.DIV? || i.op.DIVU?)
    ensures Alu(r, i).SetsHiLo? && GivesPair(r[i.rs], r[i.rt], i.op, Alu(r, i).hi, Alu(r, i).lo)
  {
    hide Signed;
    var a, b := r[i.rs], r[i.rt];
    HighAndLow(Product(a, b, i.op.MULT?));
    if b > 0 { QuotientAndRemainder(a, b); }
  }

  lemma HighAndLow(p: int)
    requires 0 <= p < W * W
    ensures High(p) * W + Low(p) == p
  {
  }

  lemma QuotientAndRemainder(a: Word, b: Word)
    requires b > 0
    ensures Quotient(a, b) * b + Remainder(a, b) == a && Remainder(a, b) < b
  {
  }

  lemma SetsPair(r: Registers, i: Instr, loadReg: General, loadValue: Word)
    requires Ok(r) && (i.op.MULT? || i.op.MULTU? || i.op.DIV? || i.op.DIVU?)
    ensures var r' := RetiredState(r, i, loadReg, loadValue);
            && |r'| == NUM_REGS && GivesPair(r[i.rs], r[i.rt], i.op, r'[HI], r'[LO])
            && forall g: General :: r'[g] == if g == r[LOAD_REG] && g != 0 then r[LOAD_VALUE] else r[g]
  {
    hide Alu, Target, GivesPair;
    PairGiven(r, i);
  }

  // ---------------------------------------------------------------- where it goes on

  /** The register rs as a branch or jump reads it: the link is written before. */
  function Source(r: Registers, i: Instr): Word
    requires |r| == NUM_REGS
  {
    if Destination(i) == Some(i.rs) && (i.op.BGEZAL? || i.op.BLTZAL? || i.op.JALR?) then Plus4(r[NEXT_PC]) else r[i.rs]
  }

  predicate IsConditional(op: Op) {
    op.BEQ? || op.BNE? || op.BGEZ? || op.BGEZAL? || op.BLTZ? || op.BLTZAL? || op.BGTZ? || op.BLEZ?
  }

  /** When a branch is taken. BGTZ and BLEZ compare unsigned. */
  predicate Taken(r: Registers, i: Instr)
    requires |r| == NUM_REGS
  {
    var a := Source(r, i);
    match i.op
    case BEQ => a == r[i.rt]
    case BNE => a != r[i.rt]
    case BGEZ => Signed(a) >= 0
    case BGEZAL => Signed(a) >= 0
    case BLTZ => Signed(a) < 0
    case BLTZAL => Signed(a) < 0
    case BGTZ => a != 0
    case BLEZ => a == 0
    case _ => false
  }

  /** The program counter after next: by words from the next instruction if a branch is taken, inside
      the same 256 megabytes for a jump, what rs holds for a jump to a register, else the one that follows. */
  ghost predicate GoesTo(r: Registers, i: Instr, target: Word)
    requires |r| == NUM_REGS
  {
    var next := r[NEXT_PC];
    if IsConditional(i.op) && Taken(r, i) then (target - next - 4 * i.extra) % W == 0
    else if i.op.J? || i.op.JAL? then
      forall k: nat :: k < 32 && 0 <= i.extra < 0x400_0000 ==>
        (Bit(target, k) <==> if k < 28 then k >= 2 && Bit(i.extra, k - 2) else Bit(Plus4(next), k))
    else if i.op.JR? || i.op.JALR? then target == Source(r, i)
    else (target - next) % W == 4
  }

  lemma JumpBits(next: Word, i: Instr, k: nat)
    requires k < 32 && 0 <= i.extra < 0x400_0000
    ensures Bit(BitOr(BitAnd(next, 0xf000_0000), IndexToAddr(i)), k)
            <==> if k < 28 then k >= 2 && Bit(i.extra, k - 2) else Bit(next, k)
  {
    var x: nat := i.extra;
    BitOfOr(BitAnd(next, 0xf000_0000), IndexToAddr(i), k);
    BitOfAnd(next, 0xf000_0000, k);
    HighFour(k);
    assert IndexToAddr(i) == x * 4 && Pow2(2) == 4;
    BitOfMultiple(x, 2, k);
    if k >= 28 {
      assert Pow2(8) == 256 && Pow2(16) == 0x1_0000 && Pow2(26) == 0x400_0000;
      NoHighBits(x, 26, k - 2);
    }
  }

  lemma HighFour(k: nat)
    ensures Bit(0xf000_0000, k) <==> 28 <= k < 32
  {
    assert Pow2(8) == 256 && Pow2(16) == 0x1_0000 && Pow2(24) == 0x100_0000 && Pow2(28) == 0x1000_0000;
    BitOfMultiple(15, 28, k);
    if k >= 28 {
      if k < 32 { assert Bit(15, 0) && Bit(15, 1) && Bit(15, 2) && Bit(15, 3); } else { assert Pow2(4) == 16; NoHighBits(15, 4, k - 28); }
    }
  }

  lemma LinkWritten(r: Registers, i: Instr)
    requires |r| == NUM_REGS && !Alu(r, i).Raises? && (IsConditional(i.op) || i.op.JR? || i.op.JALR?)
    ensures var r1 := Applied(r, Alu(r, i));
            r1[NEXT_PC] == r[NEXT_PC] && r1[i.rs] == Source(r, i) && (i.op.BEQ? || i.op.BNE? ==> r1[i.rt] == r[i.rt])
  {
    hide BitAnd, BitOr, BitXor, ShiftLeft, ShiftRight, ShiftRightSigned, Wrap, Quotient, Remainder, Product;
  }

  lemma BranchTo(next: Word, i: Instr)
    ensures (Wrap(IndexToAddr(i) + next) - next - 4 * i.extra) % W == 0
    ensures (Plus4(next) - next) % W == 4
  {
  }

  lemma TargetMeans(r: Registers, i: Instr, r1: Registers)
    requires |r| == |r1| == NUM_REGS && r1[NEXT_PC] == r[NEXT_PC]
    requires IsConditional(i.op) || i.op.JR? || i.op.JALR? ==>
               r1[i.rs] == Source(r, i) && (i.op.BEQ? || i.op.BNE? ==> r1[i.rt] == r[i.rt])
    ensures GoesTo(r, i, Target(r1, i))
  {
    hide BitAnd, BitOr, Wrap, Plus4, IndexToAddr, Bit, Source;
    BranchTo(r[NEXT_PC], i);
    if i.op.J? || i.op.JAL? {
      forall k: nat | k < 32 && 0 <= i.extra < 0x400_0000
        ensures Bit(Target(r1, i), k) <==> if k < 28 then k >= 2 && Bit(i.extra, k - 2) else Bit(Plus4(r[NEXT_PC]), k)
      {
        JumpBits(Plus4(r[NEXT_PC]), i, k);
      }
    }
  }

  /** Where the machine goes on after an instruction, once the next one is done. */
  lemma GoesOn(r: Registers, i: Instr, loadReg: General, loadValue: Word)
    requires Ok(r) && !Alu(r, i).Raises?
    ensures GoesTo(r, i, RetiredState(r, i, loadReg, loadValue)[NEXT_PC])
  {
    hide Alu, Target, GoesTo, Source;
    AluReg(r, i);
    var r1 := Applied(r, Alu(r, i));
    if IsConditional(i.op) || i.op.JR? || i.op.JALR? { LinkWritten(r, i); }
    TargetMeans(r, i, r1);
  }

  // ---------------------------------------------------------------- the whole instruction

  /** The operation traps: signed arithmetic that does not fit, a system call, an unknown code. */
  function TrapOf(r: Registers, i: Instr): Option<Trap>
    requires |r| == NUM_REGS
  {
    var x, y: int := Signed(r[i.rs]), Signed(r[i.rt]);
    if (i.op.ADD? && !InRange(x + y)) || (i.op.ADDI? && !InRange(x + i.extra)) || (i.op.SUB? && !InRange(x - y)) then Some(Overflow)
    else if i.op.SYSCALL? then Some(Syscall)
    else if !Known(i.op) then Some(IllegalInstr)
    else None
  }

  lemma TrapIs(r: Registers, i: Instr)
    requires |r| == NUM_REGS
    ensures if TrapOf(r, i).Some? then Alu(r, i) == Raises(TrapOf(r, i).value) else !Alu(r, i).Raises?
  {
    hide BitAnd, BitOr, BitXor, ShiftLeft, ShiftRight, ShiftRightSigned, Wrap, Quotient, Remainder, Product, Imm, Signed, InRange;
    ImmWraps(i);
  }

  predicate SetsBoth(op: Op) { op.MULT? || op.MULTU? || op.DIV? || op.DIVU? }

  /** What an instruction that completes has done to the registers. */
  ghost predicate Performs(r: Registers, i: Instr, r': Registers)
    requires |r| == |r'| == NUM_REGS
  {
    && r'[PREV_PC] == r[PC] && r'[PC] == r[NEXT_PC] && GoesTo(r, i, r'[NEXT_PC])
    && if SetsBoth(i.op) then
         GivesPair(r[i.rs], r[i.rt], i.op, r'[HI], r'[LO])
         && forall g: General :: r'[g] == if g == r[LOAD_REG] && g != 0 then r[LOAD_VALUE] else r[g]
       else if Destination(i).None? then OnlySets(r, PC, r')
       else
         var d := Destination(i).value;
         && d < PC && OnlySets(r, d, r')
         && if d == 0 then r'[d] == 0 else if d == r[LOAD_REG] then r'[d] == r[LOAD_VALUE] else Gives(r, i, r'[d])
  }

  lemma Performed(r: Registers, i: Instr, loadReg: General, loadValue: Word)
    requires Ok(r) && TrapOf(r, i).None?
    ensures |RetiredState(r, i, loadReg, loadValue)| == NUM_REGS && Performs(r, i, RetiredState(r, i, loadReg, loadValue))
  {
    hide Alu, Target, GoesTo, Gives, GivesPair, TrapOf, OnlySets, RetiredState;
    TrapIs(r, i);
    RetiredOk(r, i, loadReg, loadValue);
    GoesOn(r, i, loadReg, loadValue);
    if SetsBoth(i.op) {
      SetsPair(r, i, loadReg, loadValue);
    } else if Destination(i).Some? {
      SetsOne(r, i, loadReg, loadValue);
    } else {
      SetsNone(r, i, loadReg, loadValue);
    }
  }

  lemma SetsNone(r: Registers, i: Instr, loadReg: General, loadValue: Word)
    requires Ok(r) && !Alu(r, i).Raises? && !SetsBoth(i.op) && Destination(i).None?
    ensures var r' := RetiredState(r, i, loadReg, loadValue);
            |r'| == NUM_REGS && OnlySets(r, PC, r')
  {
    hide Target;
    assert Alu(r, i) == Nothing;
    hide Alu;
  }
}
