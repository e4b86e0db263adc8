/** One instruction of the simulated MIPS as the simulator carries it out: fetch, decode, the
    switch over the opcodes, memory, and the delayed load (machine/mipssim.cc). */
module MipsSimulator {
  import opened Bits
  import opened Common
  import opened MachineMemory
  import opened MipsInstructions
  import opened MipsMeaning
  import Multiplication

  datatype Outcome = Retired | Trapped(trap: Trap) | Aborted

  /** What happened in one instruction: the bytes fetched and what they mean, the bytes found by
      a load or a partial store, and the delayed load. No bytes are fetched if the fetch traps. */
  datatype Trace = Trace(fetched: seq<Byte>, i: Instr, data: seq<Byte>, loadValue: Word)

  /** What a load puts into its register, from the word or part that memory gave. */
  function LoadResult(op: Op, value: Word, before: Word): Word {
    match op
    case LB => if Part(value, 0) >= 0x80 then Part(value, 0) + 0xffff_ff00 else Part(value, 0)
    case LBU => Part(value, 0)
    case LH => if Low16(value) >= 0x8000 then Little(Part(value, 0), Part(value, 1), 0xff, 0xff) else Low16(value)
    case LHU => Low16(value)
    case LWR => Little(Part(value, 3), Part(before, 1), Part(before, 2), Part(before, 3))
    case _ => value
  }

  /** What a store puts into memory, where the word `before` was. */
  function StoreValue(op: Op, value: Word, before: Word): Word {
    if op.SWR? then Little(Part(before, 0), Part(before, 1), Part(before, 2), Part(value, 0)) else value
  }

  /** The number that bytes spell, least significant first. */
  function Number(bytes: seq<Byte>): int {
    if bytes == [] then 0 else bytes[0] as int + 0x100 * Number(bytes[1..])
  }

  lemma NumberOfOne(bytes: seq<Byte>)
    requires |bytes| == 1
    ensures Number(bytes) == bytes[0] as int
  {
    assert bytes[1..] == [];
  }

  lemma NumberOfTwo(bytes: seq<Byte>)
    requires |bytes| == 2
    ensures Number(bytes) == Little(bytes[0], bytes[1], 0, 0) < 0x1_0000
  {
    NumberOfOne(bytes[1..]);
  }

  lemma NumberOfFour(bytes: seq<Byte>)
    requires |bytes| == 4
    ensures Number(bytes) == Little(bytes[0], bytes[1], bytes[2], bytes[3])
  {
    var rest := bytes[1..];
    assert Number(bytes) == bytes[0] as int + 0x100 * (rest[0] as int + 0x100 * Number(rest[1..]));
    NumberOfTwo(rest[1..]);
  }

  /** What a load puts into its register, in terms of the bytes it finds: a signed or an unsigned byte
      or half word, a word, or for LWR the last byte in place of the register's first. */
  lemma LoadMeans(host: Host, op: Op, bytes: seq<Byte>, before: Word)
    requires IsLoad(op) && |bytes| == AccessSize(op)
    ensures var v := LoadResult(op, Loaded(host, bytes), before);
            match op
            case LB => -0x80 <= Signed(v) < 0x80 && Signed(v) % 0x100 == Number(bytes)
            case LBU => v == Number(bytes) < 0x100
            case LH => -0x8000 <= Signed(v) < 0x8000 && Signed(v) % 0x1_0000 == Number(bytes)
            case LHU => v == Number(bytes) < 0x1_0000
            case LWR => Part(v, 0) == bytes[3] && forall k :: 1 <= k < 4 ==> Part(v, k) == Part(before, k)
            case _ => v == Number(bytes)
  {
    hide Part, Number, Little;
    if op.LB? || op.LBU? {
      ByteLoaded(host, bytes);
    } else if op.LH? || op.LHU? {
      HalfLoaded(bytes);
    } else {
      NumberOfFour(bytes);
      PartsOfLittle(bytes[0], bytes[1], bytes[2], bytes[3]);
      PartsOfLittle(bytes[3], Part(before, 1), Part(before, 2), Part(before, 3));
    }
  }

  lemma ByteLoaded(host: Host, bytes: seq<Byte>)
    requires |bytes| == 1
    ensures Part(Loaded(host, bytes), 0) == bytes[0] == Number(bytes) < 0x100
  {
    NumberOfOne(bytes);
  }

  lemma HalfLoaded(bytes: seq<Byte>)
    requires |bytes| == 2
    ensures var v := Little(bytes[0], bytes[1], 0, 0);
            Low16(v) == v == Number(bytes) < 0x1_0000
            && (v >= 0x8000 ==> Little(Part(v, 0), Part(v, 1), 0xff, 0xff) == v + 0xffff_0000)
  {
    NumberOfTwo(bytes);
    PartsOfLittle(bytes[0], bytes[1], 0, 0);
  }

  /** What a store writes, byte by byte: the low bytes of its register, or for SWR the word that is
      there with the register's first byte in place of the last. */
  lemma StoreMeans(op: Op, value: Word, before: Word)
    requires IsStore(op)
    ensures var bytes := Stored(StoreValue(op, value, before), AccessSize(op));
            && |bytes| == (if op.SB? then 1 else if op.SH? then 2 else 4)
            && forall k :: 0 <= k < |bytes| ==>
                 bytes[k] == if op.SWR? then (if k == 3 then Part(value, 0) else Part(before, k)) else Part(value, k)
  {
    hide Part, Little;
    PartsOfLittle(Part(before, 0), Part(before, 1), Part(before, 2), Part(value, 0));
  }

  function AccessSize(op: Op): Size {
    if op.LB? || op.LBU? || op.SB? then 1 else if op.LH? || op.LHU? || op.SH? then 2 else 4
  }

  /** The opcodes for which the simulator insists on an aligned address. */
  predicate IsPartial(op: Op) { op.LWL? || op.LWR? || op.SWL? || op.SWR? }

  predicate IsMemory(op: Op) { IsLoad(op) || IsStore(op) }

  /** The address of a load or store. */
  function AddressIn(r: Registers, i: Instr): Word
    requires |r| == NUM_REGS
  {
    Wrap(r[i.rs] + Imm(i))
  }

  lemma AddressMeans(r: Registers, i: Instr)
    requires |r| == NUM_REGS
    ensures (AddressIn(r, i) - r[i.rs] - i.extra) % W == 0
  {
    hide Wrap, Imm;
    WrappedImmediate(r[i.rs], i);
  }

  function FaultOutcome(e: Exception): Outcome {
    if e == NoException then Retired else Trapped(MemoryFault(e))
  }

  /** How an access ends. A partial store first reads the word it will change. */
  function Access(mmu: Mmu, op: Op, addr: Word): Outcome {
    if IsPartial(op) && addr % 4 != 0 then Aborted
    else if (op.SWL? || op.SWR?) && Fault(mmu, addr, 4, false) != NoException then FaultOutcome(Fault(mmu, addr, 4, false))
    else FaultOutcome(Fault(mmu, addr, AccessSize(op), IsStore(op)))
  }

  /** A misaligned access is an address error, or the end of the simulation. */
  lemma MisalignedAccess(mmu: Mmu, op: Op, addr: Word)
    requires IsMemory(op) && addr % AccessSize(op) != 0
    ensures Access(mmu, op, addr) == if IsPartial(op) then Aborted else Trapped(MemoryFault(AddressError))
  {
  }

  /** How an instruction that has been fetched ends. */
  function Resolve(mmu: Mmu, r: Registers, i: Instr): Outcome
    requires |r| == NUM_REGS
  {
    if IsMemory(i.op) then Access(mmu, i.op, AddressIn(r, i))
    else
      var e := Alu(r, i);
      if e.Raises? then Trapped(e.trap) else Retired
  }

  /** The address that a trap records. */
  function BadAddress(r: Registers, i: Instr): Word
    requires |r| == NUM_REGS
  {
    if IsMemory(i.op) then AddressIn(r, i) else 0
  }

  /** The word that a partial load or store merges with. */
  function WordIn(host: Host, bytes: seq<Byte>): Word {
    if |bytes| == 4 then Loaded(host, bytes) else 0
  }

  /** The registers are as the instruction leaves them, and its trap is raised. */
  ghost predicate Carried(r: Registers, i: Instr, raised: Option<Trap>, r': Registers)
    requires |r| == NUM_REGS
  {
    var e := Alu(r, i);
    && raised == (if e.Raises? then Some(e.trap) else None)
    && (e.Sets? ==> e.reg < PC) && r' == Applied(r, e)
  }

  predicate IsArithmetic(op: Op) { op.ADD? || op.ADDI? || op.ADDIU? || op.ADDU? || op.SUB? || op.SUBU? }

  predicate IsLogic(op: Op) {
    op.AND? || op.ANDI? || op.LUI? || op.NOR? || op.OR? || op.ORI? || op.XOR? || op.XORI?
  }

  predicate IsShift(op: Op) { op.SLL? || op.SLLV? || op.SRA? || op.SRAV? || op.SRL? || op.SRLV? }

  predicate IsCompare(op: Op) { op.SLT? || op.SLTI? || op.SLTIU? || op.SLTU? }

  predicate IsHiLo(op: Op) {
    op.DIV? || op.DIVU? || op.MFHI? || op.MFLO? || op.MTHI? || op.MTLO? || op.MULT? || op.MULTU?
  }

  predicate IsBranch(op: Op) {
    || op.BEQ? || op.BNE? || op.BGEZ? || op.BGEZAL? || op.BGTZ? || op.BLEZ? || op.BLTZ? || op.BLTZAL?
    || op.J? || op.JAL? || op.JR? || op.JALR?
  }

  lemma PlainTarget(r: Registers, i: Instr)
    requires |r| == NUM_REGS && !IsBranch(i.op)
    ensures Target(r, i) == Plus4(r[NEXT_PC])
  {
  }

  lemma NextPcKept(r: Registers, i: Instr, raised: Option<Trap>, r': Registers)
    requires |r| == NUM_REGS && Carried(r, i, raised, r')
    ensures |r'| == NUM_REGS && r'[NEXT_PC] == r[NEXT_PC]
  {
  }

  class Machine {
    const registers: array<Word>
    const memory: Memory

    ghost predicate Valid()
      reads this, registers, memory
    {
      registers.Length == NUM_REGS && Ok(registers[..]) && memory.Valid()
    }

    constructor (memory: Memory)
      requires memory.Valid()
      ensures Valid() && fresh(registers) && this.memory == memory && forall i :: 0 <= i < NUM_REGS ==> registers[i] == 0
    {
      registers := new Word[NUM_REGS](i => 0);
      this.memory := memory;
    }

    method DelayedLoad(nextReg: General, nextValue: Word)
      requires registers.Length == NUM_REGS && registers[LOAD_REG] < 32
      modifies registers
      ensures registers[..] == Committed(old(registers[..]), nextReg, nextValue)
    {
      registers[registers[LOAD_REG]] := registers[LOAD_VALUE];
      registers[LOAD_REG] := nextReg;
      registers[LOAD_VALUE] := nextValue;
      registers[0] := 0;
    }

    /** Up to the call of the exception handler. */
    method RaiseException(badVAddr: Word)
      requires registers.Length == NUM_REGS && registers[LOAD_REG] < 32
      modifies registers
      ensures registers[..] == TrappedState(old(registers[..]), badVAddr)
    {
      registers[BAD_VADDR] := badVAddr;
      DelayedLoad(0, 0);
    }

    method Arithmetic(i: Instr) returns (raised: Option<Trap>)
      requires registers.Length == NUM_REGS && IsArithmetic(i.op)
      modifies registers
      ensures Carried(old(registers[..]), i, raised, registers[..])
    {
      hide BitAnd, BitXor;
      raised := None;
      ghost var a, b := registers[i.rs], registers[i.rt];
      AddExact(a, b);
      AddExact(Imm(i), a);
      SubExact(a, b);
      match i.op
      case ADD =>
        var sum := Sum(registers[i.rs], registers[i.rt]);
        if BitAnd(BitXor(registers[i.rs], registers[i.rt]), SIGN_BIT) == 0
           && BitAnd(BitXor(registers[i.rs], sum), SIGN_BIT) != 0 {
          return Some(Overflow);
        }
        registers[i.rd] := sum;
      case ADDI =>
        var sum := Sum(Imm(i), registers[i.rs]);
        if BitAnd(BitXor(Imm(i), registers[i.rs]), SIGN_BIT) == 0 && BitAnd(BitXor(Imm(i), sum), SIGN_BIT) != 0 {
          return Some(Overflow);
        }
        registers[i.rt] := sum;
      case ADDIU => registers[i.rt] := Sum(registers[i.rs], Imm(i));
      case ADDU => registers[i.rd] := Sum(registers[i.rs], registers[i.rt]);
      case SUB =>
        var diff := Difference(registers[i.rs], registers[i.rt]);
        if BitAnd(BitXor(registers[i.rs], registers[i.rt]), SIGN_BIT) != 0
           && BitAnd(BitXor(registers[i.rs], diff), SIGN_BIT) != 0 {
          return Some(Overflow);
        }
        registers[i.rd] := diff;
      case SUBU => registers[i.rd] := Difference(registers[i.rs], registers[i.rt]);
    }

    method Logic(i: Instr)
      requires registers.Length == NUM_REGS && IsLogic(i.op)
      modifies registers
      ensures Carried(old(registers[..]), i, None, registers[..])
    {
      hide BitAnd, BitXor, BitOr, ShiftLeft;
      Low16Mask(i);
      var low := BitAnd(Imm(i), 0xffff);
      match i.op
      case AND => registers[i.rd] := BitAnd(registers[i.rs], registers[i.rt]);
      case ANDI => registers[i.rt] := BitAnd(registers[i.rs], low);
      case LUI => registers[i.rt] := ShiftLeft(Imm(i), 16);
      case NOR => registers[i.rd] := W - 1 - BitOr(registers[i.rs], registers[i.rt]);
      case OR => registers[i.rd] := BitOr(registers[i.rs], registers[i.rs]);
      case ORI => registers[i.rt] := BitOr(registers[i.rs], low);
      case XOR => registers[i.rd] := BitXor(registers[i.rs], registers[i.rt]);
      case XORI => registers[i.rt] := BitXor(registers[i.rs], low);
    }

    /** Shifts to the right are those of the type that the simulator shifts. */
    method Shift(i: Instr)
      requires registers.Length == NUM_REGS && IsShift(i.op)
      modifies registers
      ensures Carried(old(registers[..]), i, None, registers[..])
    {
      hide BitAnd, ShiftLeft, ShiftRight, ShiftRightSigned;
      Low5Mask(registers[i.rs]);
      var amount := BitAnd(registers[i.rs], 0x1f);
      match i.op
      case SLL => registers[i.rd] := ShiftLeft(registers[i.rt], i.extra % 32);
      case SLLV => registers[i.rd] := ShiftLeft(registers[i.rt], amount);
      case SRA => registers[i.rd] := ShiftRight(registers[i.rt], i.extra % 32);
      case SRAV => registers[i.rd] := ShiftRight(registers[i.rt], amount);
      case SRL =>
        var tmp := ShiftRightSigned(registers[i.rt], i.extra % 32);
        registers[i.rd] := tmp;
      case SRLV =>
        var tmp := ShiftRightSigned(registers[i.rt], amount);
        registers[i.rd] := tmp;
    }

    method Compare(i: Instr)
      requires registers.Length == NUM_REGS && IsCompare(i.op)
      modifies registers
      ensures Carried(old(registers[..]), i, None, registers[..])
    {
      match i.op
      case SLT =>
        if registers[i.rs] < registers[i.rt] { registers[i.rd] := 1; } else { registers[i.rd] := 0; }
      case SLTI =>
        if registers[i.rs] < Imm(i) { registers[i.rt] := 1; } else { registers[i.rt] := 0; }
      case SLTIU =>
        var rs, imm := registers[i.rs], Imm(i);
        if rs < imm { registers[i.rt] := 1; } else { registers[i.rt] := 0; }
      case SLTU =>
        var rs, rt := registers[i.rs], registers[i.rt];
        if rs < rt { registers[i.rd] := 1; } else { registers[i.rd] := 0; }
    }

    method Divide(i: Instr)
      requires registers.Length == NUM_REGS && (i.op.DIV? || i.op.DIVU?)
      modifies registers
      ensures Carried(old(registers[..]), i, None, registers[..])
    {
      if registers[i.rt] == 0 {
        registers[LO] := 0;
        registers[HI] := 0;
      } else {
        DivideBound(registers[i.rs], registers[i.rt]);
        RemainderBound(registers[i.rs], registers[i.rt]);
        registers[LO] := registers[i.rs] / registers[i.rt];
        registers[HI] := registers[i.rs] % registers[i.rt];
      }
    }

    method Multiply(i: Instr)
      requires registers.Length == NUM_REGS && (i.op.MULT? || i.op.MULTU?)
      modifies registers
      ensures Carried(old(registers[..]), i, None, registers[..])
    {
      hide Product, Signed, High, Low, Alu;
      Multiplies(registers[..], i);
      var hi, lo := Multiplication.Mult(Signed(registers[i.rs]), Signed(registers[i.rt]), i.op.MULT?);
      HighLow(hi, lo);
      registers[HI], registers[LO] := hi, lo;
    }

    method HiLo(i: Instr)
      requires registers.Length == NUM_REGS && IsHiLo(i.op)
      modifies registers
      ensures Carried(old(registers[..]), i, None, registers[..])
    {
      hide Product, Signed, Remainder, Quotient, High, Low;
      match i.op
      case MFHI => registers[i.rd] := registers[HI];
      case MFLO => registers[i.rd] := registers[LO];
      case MTHI => registers[HI] := registers[i.rs];
      case MTLO => registers[LO] := registers[i.rs];
      case DIV => Divide(i);
      case DIVU => Divide(i);
      case MULT => Multiply(i);
      case MULTU => Multiply(i);
    }

    /** Where the link register is set, that comes before the test, which may be of that register. */
    method Branch(i: Instr) returns (pcAfter: Word)
      requires registers.Length == NUM_REGS && IsBranch(i.op)
      modifies registers
      ensures Carried(old(registers[..]), i, None, registers[..]) && pcAfter == Target(registers[..], i)
    {
      hide BitAnd, BitOr;
      pcAfter := Plus4(registers[NEXT_PC]);
      if i.op.BGEZAL? || i.op.BLTZAL? || i.op.JAL? {
        registers[R31] := Plus4(registers[NEXT_PC]);
      } else if i.op.JALR? {
        registers[i.rd] := Plus4(registers[NEXT_PC]);
      }
      pcAfter := Destination(i, pcAfter);
    }

    method Destination(i: Instr, next: Word) returns (pcAfter: Word)
      requires registers.Length == NUM_REGS && IsBranch(i.op) && next == Plus4(registers[NEXT_PC])
      ensures pcAfter == Target(registers[..], i)
    {
      hide BitAnd, BitOr;
      pcAfter := next;
      SignBit(registers[i.rs]);
      if i.op.J? || i.op.JAL? {
        pcAfter := BitOr(BitAnd(pcAfter, 0xf000_0000), IndexToAddr(i));
      } else if i.op.JR? || i.op.JALR? {
        pcAfter := registers[i.rs];
      } else if (i.op.BEQ? && registers[i.rs] == registers[i.rt])
                || (i.op.BNE? && registers[i.rs] != registers[i.rt])
                || ((i.op.BGEZ? || i.op.BGEZAL?) && BitAnd(registers[i.rs], SIGN_BIT) == 0)
                || ((i.op.BLTZ? || i.op.BLTZAL?) && BitAnd(registers[i.rs], SIGN_BIT) != 0)
                || (i.op.BGTZ? && registers[i.rs] > 0)
                || (i.op.BLEZ? && registers[i.rs] <= 0) {
        pcAfter := Sum(registers[NEXT_PC], IndexToAddr(i));
      }
    }

    /** The switch over the opcodes that do not go to memory. */
    method Execute(i: Instr) returns (raised: Option<Trap>, pcAfter: Word)
      requires registers.Length == NUM_REGS && !IsMemory(i.op)
      modifies registers
      ensures Carried(old(registers[..]), i, raised, registers[..]) && pcAfter == Target(registers[..], i)
    {
      hide Carried, Target, Alu;
      ghost var r0 := registers[..];
      raised, pcAfter := None, Plus4(registers[NEXT_PC]);
      if IsBranch(i.op) {
        pcAfter := Branch(i);
        return;
      }
      if IsArithmetic(i.op) {
        raised := Arithmetic(i);
      } else if IsLogic(i.op) {
        Logic(i);
      } else if IsShift(i.op) {
        Shift(i);
      } else if IsCompare(i.op) {
        Compare(i);
      } else if IsHiLo(i.op) {
        HiLo(i);
      } else {
        raised := Some(if i.op.SYSCALL? then Syscall else IllegalInstr);
        OnlyRaises(r0, i);
      }
      NextPcKept(r0, i, raised, registers[..]);
      PlainTarget(registers[..], i);
    }

    /** The address of a load or store. */
    ghost function AddressOf(i: Instr): Word
      requires Valid()
      reads this, registers, memory
    {
      AddressIn(registers[..], i)
    }

    /** What a partial load merges with: the pending load's value if it is for the register. */
    function Before(rt: General): Word
      requires registers.Length == NUM_REGS
      reads registers
    {
      if registers[LOAD_REG] == rt then registers[LOAD_VALUE] else registers[rt]
    }

    /** The virtual bytes at an address. */
    ghost predicate Holds(at: nat, bytes: seq<Byte>)
      requires memory.Valid()
      reads memory, memory.mainMemory, memory.tlb, memory.pageTable
    {
      forall a: nat :: at <= a < at + |bytes| ==> memory.VirtualAt(a) == Some(bytes[a - at])
    }

    method DoLoad(i: Instr) returns (outcome: Outcome, loadValue: Word, ghost bytes: seq<Byte>)
      requires Valid() && IsLoad(i.op)
      modifies registers, memory.tlb, memory.pageTable
      ensures Valid() && SameMapping(old(memory.View()), memory.View())
      ensures outcome == Access(old(memory.View()), i.op, old(AddressOf(i)))
      ensures registers[..] == if outcome.Trapped? then TrappedState(old(registers[..]), old(AddressOf(i))) else old(registers[..])
      ensures forall a: nat :: memory.VirtualAt(a) == old(memory.VirtualAt(a))
      ensures Injective(old(memory.View())) ==> Injective(memory.View())
      ensures outcome.Retired? ==>
                && |bytes| == AccessSize(i.op) && old(Holds(AddressOf(i), bytes))
                && loadValue == LoadResult(i.op, Loaded(memory.host, bytes), old(Before(i.rt)))
    {
      hide LoadResult, TrappedState, Loaded, Fault, Ok, Injective, Virtual, SameMapping, Memory.View, Memory.VirtualAt;
      loadValue, bytes := 0, [];
      SameMappingReflexive(memory.View());
      Misaligned(memory.View(), AddressOf(i), AccessSize(i.op), false);
      var tmp := Sum(registers[i.rs], Imm(i));
      if (i.op.LWL? || i.op.LWR?) && tmp % 4 != 0 {
        return Aborted, 0, [];
      }
      if ((i.op.LH? || i.op.LHU?) && tmp % 2 != 0) || (i.op.LW? && tmp % 4 != 0) {
        Raise(tmp);
        return Trapped(MemoryFault(AddressError)), 0, [];
      }
      var e, value;
      e, value, bytes := memory.ReadMem(tmp, AccessSize(i.op));
      if e != NoException {
        Raise(tmp);
        return Trapped(MemoryFault(e)), 0, [];
      }
      return Retired, LoadResult(i.op, value, Before(i.rt)), bytes;
    }

    /** RaiseException keeps the machine valid. */
    method Raise(badVAddr: Word)
      requires Valid()
      modifies registers
      ensures Valid() && registers[..] == TrappedState(old(registers[..]), badVAddr)
    {
      TrappedOk(registers[..], badVAddr);
      RaiseException(badVAddr);
    }

    method DoStore(i: Instr) returns (outcome: Outcome, ghost bytes: seq<Byte>)
      requires Valid() && IsStore(i.op)
      modifies registers, memory.mainMemory, memory.tlb, memory.pageTable
      ensures Valid() && SameMapping(old(memory.View()), memory.View())
      ensures outcome == Access(old(memory.View()), i.op, old(AddressOf(i)))
      ensures registers[..] == if outcome.Trapped? then TrappedState(old(registers[..]), old(AddressOf(i))) else old(registers[..])
      ensures Injective(old(memory.View())) ==> Injective(memory.View())
      ensures outcome.Retired? && IsPartial(i.op) ==> |bytes| == 4 && old(Holds(AddressOf(i), bytes))
      ensures if outcome.Retired?
              then Written(old(memory.View()), old(AddressOf(i)),
                           Stored(StoreValue(i.op, old(registers[i.rt]), WordIn(memory.host, bytes)), AccessSize(i.op)),
                           old(memory.mainMemory[..]), memory.mainMemory[..])
              else memory.mainMemory[..] == old(memory.mainMemory[..]) && forall a: nat :: memory.VirtualAt(a) == old(memory.VirtualAt(a))
      ensures outcome.Retired? && Injective(old(memory.View())) ==>
                var at, size := old(AddressOf(i)), AccessSize(i.op);
                var v := StoreValue(i.op, old(registers[i.rt]), WordIn(memory.host, bytes));
                forall a: nat :: memory.VirtualAt(a) == if at <= a < at + size then Some(Stored(v, size)[a - at]) else old(memory.VirtualAt(a))
    {
      hide StoreValue, TrappedState, Loaded, Fault, Stored, Ok, Injective, Virtual, SameMapping, Written, Memory.View, Memory.VirtualAt;
      bytes := [];
      ghost var mmu, mem := memory.View(), memory.mainMemory[..];
      SameMappingReflexive(mmu);
      var tmp := Sum(registers[i.rs], Imm(i));
      var value := registers[i.rt];
      if i.op.SWL? || i.op.SWR? {
        if tmp % 4 != 0 {
          return Aborted, [];
        }
        var e, word;
        e, word, bytes := memory.ReadMem(tmp, 4);
        if e != NoException {
          Raise(tmp);
          return Trapped(MemoryFault(e)), bytes;
        }
        value := StoreValue(i.op, value, word);
      } else {
        Whole(i.op, value, WordIn(memory.host, bytes));
      }
      SameFault(mmu, memory.View(), tmp, AccessSize(i.op), true);
      ghost var mmu1 := memory.View();
      var e := memory.WriteMem(tmp, AccessSize(i.op), value);
      SameMappingTransitive(mmu, mmu1, memory.View());
      if e != NoException {
        Raise(tmp);
        return Trapped(MemoryFault(e)), bytes;
      }
      SameWritten(mmu, mmu1, tmp, Stored(value, AccessSize(i.op)), mem, memory.mainMemory[..]);
      return Retired, bytes;
    }

    /** What a completed store has done: exactly its bytes are changed in memory, and with an
        injective table in the program's view of it. */
    twostate predicate StoreDone(i: Instr, bytes: seq<Byte>)
      requires old(Valid()) && Valid()
      reads this, registers, memory, memory.mainMemory, memory.tlb, memory.pageTable
    {
      var at, size := old(AddressOf(i)), AccessSize(i.op);
      var v := StoreValue(i.op, old(registers[i.rt]), WordIn(memory.host, bytes));
      && (IsPartial(i.op) ==> |bytes| == 4 && old(Holds(AddressOf(i), bytes)))
      && Written(old(memory.View()), at, Stored(v, size), old(memory.mainMemory[..]), memory.mainMemory[..])
      && (Injective(old(memory.View())) ==>
            forall a: nat :: memory.VirtualAt(a) == if at <= a < at + size then Some(Stored(v, size)[a - at]) else old(memory.VirtualAt(a)))
    }

    /** What a completed load has found. */
    twostate predicate LoadDone(i: Instr, bytes: seq<Byte>, loadValue: Word)
      requires old(Valid())
      reads this, memory
    {
      && |bytes| == AccessSize(i.op) && old(Holds(AddressOf(i), bytes))
      && loadValue == LoadResult(i.op, Loaded(memory.host, bytes), old(Before(i.rt)))
    }

    /** Everything but the fetch. */
    method Perform(i: Instr) returns (outcome: Outcome, ghost bytes: seq<Byte>, ghost loadValue: Word)
      requires Valid()
      modifies registers, memory.mainMemory, memory.tlb, memory.pageTable
      ensures Valid() && SameMapping(old(memory.View()), memory.View())
      ensures Injective(old(memory.View())) ==> Injective(memory.View())
      ensures outcome == Resolve(old(memory.View()), old(registers[..]), i)
      ensures match outcome
              case Retired => registers[..] == RetiredState(old(registers[..]), i, if IsLoad(i.op) then i.rt else 0, loadValue)
              case Trapped(_) => registers[..] == TrappedState(old(registers[..]), BadAddress(old(registers[..]), i))
              case Aborted => registers[..] == old(registers[..])
      ensures outcome.Retired? && IsLoad(i.op) ==> LoadDone(i, bytes, loadValue)
      ensures if outcome.Retired? && IsStore(i.op) then StoreDone(i, bytes)
              else memory.mainMemory[..] == old(memory.mainMemory[..]) && forall a: nat :: memory.VirtualAt(a) == old(memory.VirtualAt(a))
    {
      hide TrappedState, RetiredState, Fault, Access, Loaded, Stored, LoadResult, StoreValue, Alu, Ok, Applied, Target,
           Injective, Virtual, SameMapping, Written, Memory.View, Memory.VirtualAt;
      ghost var r0 := registers[..];
      bytes := [];
      SameMappingReflexive(memory.View());
      var nextLoadReg: General, nextLoadValue: Word, pcAfter := 0, 0, Plus4(registers[NEXT_PC]);
      if IsLoad(i.op) {
        outcome, nextLoadValue, bytes := DoLoad(i);
        nextLoadReg := i.rt;
        NoAlu(r0, i);
        PlainTarget(r0, i);
      } else if IsStore(i.op) {
        outcome, bytes := DoStore(i);
        NoAlu(r0, i);
        PlainTarget(r0, i);
      } else {
        var raised;
        raised, pcAfter := Execute(i);
        outcome := if raised.Some? then Trapped(raised.value) else Retired;
        if raised.Some? {
          NoEffect(r0, i);
          Raise(0);
        }
      }
      if outcome.Retired? {
        Finish(r0, i, nextLoadReg, nextLoadValue, pcAfter);
      }
      loadValue := nextLoadValue;
    }

    /** One instruction. The fetch traps exactly when its access faults; then the instruction is the
        one in memory, and it ends as `Resolve` says: it completes, or it traps and has changed
        nothing but what the pending load brings and the failing address, or it is a partial access
        to a misaligned address, on which the simulator gives up. */
    method OneInstruction() returns (outcome: Outcome, ghost t: Trace)
      requires Valid()
      modifies registers, memory.mainMemory, memory.tlb, memory.pageTable
      ensures Valid() && SameMapping(old(memory.View()), memory.View())
      ensures Injective(old(memory.View())) ==> Injective(memory.View())
      ensures var e := Fault(old(memory.View()), old(registers[PC]), 4, false);
              if e != NoException
              then t.fetched == [] && outcome == Trapped(MemoryFault(e)) && registers[..] == TrappedState(old(registers[..]), old(registers[PC]))
              else && |t.fetched| == 4 && old(Holds(registers[PC], t.fetched)) && t.i == Decode(Loaded(memory.host, t.fetched))
                   && outcome == Resolve(old(memory.View()), old(registers[..]), t.i)
      ensures t.fetched != [] ==>
                match outcome
                case Retired => registers[..] == RetiredState(old(registers[..]), t.i, if IsLoad(t.i.op) then t.i.rt else 0, t.loadValue)
                case Trapped(_) => registers[..] == TrappedState(old(registers[..]), BadAddress(old(registers[..]), t.i))
                case Aborted => registers[..] == old(registers[..])
      ensures outcome.Retired? ==> Performs(old(registers[..]), t.i, registers[..])
      ensures t.fetched != [] && !IsMemory(t.i.op) ==>
                outcome == if TrapOf(old(registers[..]), t.i).Some? then Trapped(TrapOf(old(registers[..]), t.i).value) else Retired
      ensures outcome.Retired? && IsLoad(t.i.op) ==> LoadDone(t.i, t.data, t.loadValue)
      ensures if outcome.Retired? && IsStore(t.i.op) then StoreDone(t.i, t.data)
              else memory.mainMemory[..] == old(memory.mainMemory[..]) && forall a: nat :: memory.VirtualAt(a) == old(memory.VirtualAt(a))
    {
      hide TrappedState, RetiredState, Fault, Access, Resolve, Loaded, Stored, LoadResult, StoreValue, Decode, Alu, Applied, Target, Performs, TrapOf,
           Injective, Virtual, SameMapping, Written, Memory.View, Memory.VirtualAt;
      ghost var mmu, r0 := memory.View(), registers[..];
      ghost var bytes;
      t := Trace([], Instr(RES, 0, 0, 0, 0), [], 0);
      var e, raw;
      e, raw, bytes := memory.ReadMem(registers[PC], 4);
      if e != NoException {
        Raise(registers[PC]);
        return Trapped(MemoryFault(e)), t;
      }
      var i := Decode(raw);
      t := t.(fetched := bytes, i := i);
      ghost var mmu1, loadValue := memory.View(), 0;
      SameResolve(mmu, mmu1, r0, i);
      label fetched:
      outcome, bytes, loadValue := Perform(i);
      t := t.(data := bytes, loadValue := loadValue);
      SameMappingTransitive(mmu, mmu1, memory.View());
      TrapResolved(mmu, r0, i);
      if outcome.Retired? {
        Performed(r0, i, if IsLoad(i.op) then i.rt else 0, loadValue);
      }
      if outcome.Retired? && IsStore(i.op) {
        assert StoreDone@fetched(i, bytes);
        Sources(mmu, mmu1, old@fetched(AddressOf(i)), old@fetched(memory.mainMemory[..]), memory.mainMemory[..]);
      }
    }

    /** After the instruction proper: the delayed load and the program counters. */
    method Finish(ghost r0: Registers, ghost i: Instr, nextLoadReg: General, nextLoadValue: Word, pcAfter: Word)
      requires registers.Length == NUM_REGS && Ok(r0) && memory.Valid()
      requires registers[..] == Applied(r0, Alu(r0, i)) && pcAfter == Target(registers[..], i)
      modifies registers
      ensures Valid() && registers[..] == RetiredState(r0, i, nextLoadReg, nextLoadValue)
    {
      hide Alu, Target;
      AluReg(r0, i);
      RetiredOk(r0, i, nextLoadReg, nextLoadValue);
      DelayedLoad(nextLoadReg, nextLoadValue);
      registers[PREV_PC] := registers[PC];
      registers[PC] := registers[NEXT_PC];
      registers[NEXT_PC] := pcAfter;
    }
  }

  // ---------------------------------------------------------------- facts for the methods

  lemma SameMappingReflexive(m: Mmu)
    ensures SameMapping(m, m)
  {
  }

  lemma SameMappingTransitive(a: Mmu, b: Mmu, c: Mmu)
    requires SameMapping(a, b) && SameMapping(b, c)
    ensures SameMapping(a, c)
  {
    hide Physical, Fault;
  }

  lemma SameFault(m: Mmu, m': Mmu, addr: nat, size: Size, writing: bool)
    requires SameMapping(m, m')
    ensures Fault(m', addr, size, writing) == Fault(m, addr, size, writing)
  {
    hide Physical, Fault;
  }

  lemma SameWritten(m: Mmu, m': Mmu, addr: nat, bytes: seq<Byte>, mem: seq<Byte>, mem': seq<Byte>)
    requires SameMapping(m, m') && Written(m', addr, bytes, mem, mem')
    ensures Written(m, addr, bytes, mem, mem')
  {
    hide Physical, Fault;
  }

  lemma Sources(m: Mmu, m': Mmu, addr: nat, mem: seq<Byte>, mem': seq<Byte>)
    requires SameMapping(m, m')
    ensures forall bytes :: Written(m', addr, bytes, mem, mem') ==> Written(m, addr, bytes, mem, mem')
  {
    hide SameMapping, Written;
    forall bytes | Written(m', addr, bytes, mem, mem') { SameWritten(m, m', addr, bytes, mem, mem'); }
  }

  lemma Misaligned(m: Mmu, addr: nat, size: Size, writing: bool)
    ensures addr % size != 0 ==> Fault(m, addr, size, writing) == AddressError
  {
  }

  /** Marking entries as used does not change how an instruction ends. */
  lemma SameResolve(m: Mmu, m': Mmu, r: Registers, i: Instr)
    requires SameMapping(m, m') && |r| == NUM_REGS
    ensures Resolve(m', r, i) == Resolve(m, r, i)
  {
    hide Fault, Alu, SameMapping;
    SameFault(m, m', AddressIn(r, i), 4, false);
    SameFault(m, m', AddressIn(r, i), AccessSize(i.op), IsStore(i.op));
  }

  /** Only memory operations and those of `TrapOf` trap. */
  lemma TrapResolved(mmu: Mmu, r: Registers, i: Instr)
    requires |r| == NUM_REGS
    ensures IsMemory(i.op) ==> TrapOf(r, i).None?
    ensures !IsMemory(i.op) ==> Resolve(mmu, r, i) == if TrapOf(r, i).Some? then Trapped(TrapOf(r, i).value) else Retired
  {
    hide Fault, Access, Alu;
    TrapIs(r, i);
  }

  lemma OnlyRaises(r: Registers, i: Instr)
    requires |r| == NUM_REGS && !IsMemory(i.op) && !IsBranch(i.op) && !IsArithmetic(i.op) && !IsLogic(i.op)
    requires !IsShift(i.op) && !IsCompare(i.op) && !IsHiLo(i.op)
    ensures Carried(r, i, Some(if i.op.SYSCALL? then Syscall else IllegalInstr), r)
  {
  }

  lemma Low16Mask(i: Instr)
    ensures BitAnd(Imm(i), 0xffff) == Low16Imm(i)
  {
    assert Pow2(8) == 256 && Pow2(16) == 0x1_0000;
    AndMask(Imm(i), 16);
  }

  lemma Low5Mask(a: Word)
    ensures BitAnd(a, 0x1f) == a % 32
  {
    assert Pow2(5) == 32;
    AndMask(a, 5);
  }

  lemma NoAlu(r: Registers, i: Instr)
    requires |r| == NUM_REGS && (IsLoad(i.op) || IsStore(i.op))
    ensures Alu(r, i) == Nothing && Applied(r, Alu(r, i)) == r
  {
  }

  lemma NoEffect(r: Registers, i: Instr)
    requires |r| == NUM_REGS && Alu(r, i).Raises?
    ensures Applied(r, Alu(r, i)) == r
  {
  }

  lemma Whole(op: Op, value: Word, before: Word)
    requires !op.SWR?
    ensures StoreValue(op, value, before) == value
  {
  }

  lemma HighLow(hi: Word, lo: Word)
    ensures 0 <= hi * W + lo < W * W && High(hi * W + lo) == hi && Low(hi * W + lo) == lo
  {
  }

  lemma Multiplies(r: Registers, i: Instr)
    requires |r| == NUM_REGS && (i.op.MULT? || i.op.MULTU?)
    ensures var p := Product(r[i.rs], r[i.rt], i.op.MULT?);
            Alu(r, i) == SetsHiLo(High(p), Low(p))
    ensures Product(r[i.rs], r[i.rt], i.op.MULT?) ==
            if i.op.MULT? then Multiplication.Bits64(Signed(r[i.rs]) * Signed(r[i.rt]))
            else Unsigned(Signed(r[i.rs])) * Unsigned(Signed(r[i.rt]))
  {
  }
}
