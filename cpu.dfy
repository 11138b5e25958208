/** CPU state of the Chip-8 / SuperChip-8 machine and the instruction
    decoder (okto/src/cpu.rs). */
module Cpu {
  import opened Bits
  import opened Errors

  /** A memory address. */
  type Address = Word
  /** The contents of one general register. */
  type Register = Byte
  /** A register operand. The source types operands as `u8`; `execute`
      indexes the 16-element register file with them, so any larger value
      would abort the interpreter. */
  type RegisterIndex = x: int | 0 <= x < 16
  /** The 8-bit immediate operand of an opcode. */
  type Immediate = Byte
  /** The 4-bit nibble operand of an opcode. */
  type Nibble = Byte
  /** A raw 16-bit instruction word. */
  type Instruction = Word

  const NumRegisters: nat := 16
  const MaxNumStackItems: nat := 16
  const DefaultPcAddress: Address := 0x200
  const InstructionBytes: nat := 2
  /** Register VF, which doubles as the carry / borrow / erase flag. */
  const FlagRegisterIndex: nat := 0xF
  const NumHp48Registers: nat := 8

  // ---------------------------------------------------------------------
  // CPU state as a value, and the stack operations on it

  /** The CPU at a moment in time. */
  datatype CpuState = CpuState(
    v: seq<Register>,
    i: Address,
    pc: Address,
    sp: Register,
    stack: seq<Address>,
    hp48: seq<Register>)
  {
    /** The register files have their fixed sizes and the stack pointer
        never passes the last slot. */
    ghost predicate Valid()
    {
      |v| == NumRegisters && |stack| == MaxNumStackItems && |hp48| == NumHp48Registers
      && sp <= MaxNumStackItems
    }
  }

  /** The state `Cpu::new` produces. */
  function InitialCpu(): CpuState
  {
    CpuState(seq(NumRegisters, _ => 0), 0, DefaultPcAddress, 0,
             seq(MaxNumStackItems, _ => 0), seq(NumHp48Registers, _ => 0))
  }

  lemma InitialCpuIsZeroed()
    ensures InitialCpu().Valid()
    ensures forall k :: 0 <= k < NumRegisters ==> InitialCpu().v[k] == 0
    ensures forall k :: 0 <= k < MaxNumStackItems ==> InitialCpu().stack[k] == 0
    ensures forall k :: 0 <= k < NumHp48Registers ==> InitialCpu().hp48[k] == 0
    ensures InitialCpu().i == 0 && InitialCpu().sp == 0 && InitialCpu().pc == 0x200
  {
  }

  /** Pushing onto the call stack: the value goes into slot `sp`, which then
      moves up by one. A full stack (16 entries) overflows. */
  function Push(c: CpuState, value: Address): (r: Result<CpuState>)
    requires c.Valid()
    ensures r.Ok? ==> r.value.Valid()
  {
    if c.sp as nat >= MaxNumStackItems then Err(NewError(StackOverflow))
    else Ok(c.(stack := c.stack[c.sp := value], sp := c.sp + 1))
  }

  /** Popping the call stack: `None` on an empty stack, otherwise the value
      below `sp` together with the state whose `sp` moved down by one. */
  function Pop(c: CpuState): (r: Option<(Address, CpuState)>)
    requires c.Valid()
    ensures r.Some? ==> r.value.1.Valid()
  {
    if c.sp == 0 then None
    else Some((c.stack[c.sp - 1], c.(sp := c.sp - 1)))
  }

  /** A push succeeds exactly when fewer than 16 items are on the stack; it
      writes only slot `sp` and leaves registers, I and PC alone. */
  lemma PushSpec(c: CpuState, value: Address)
    requires c.Valid()
    ensures Push(c, value).Ok? <==> c.sp < 16
    ensures Push(c, value).Err? ==> Push(c, value).error.kind == StackOverflow
    ensures Push(c, value).Ok? ==>
      var c' := Push(c, value).value;
      c'.sp == c.sp + 1 && c'.stack[c.sp] == value
      && (forall k :: 0 <= k < MaxNumStackItems && k != c.sp ==> c'.stack[k] == c.stack[k])
      && c'.v == c.v && c'.i == c.i && c'.pc == c.pc && c'.hp48 == c.hp48
  {
  }

  /** Popping right after a push returns the pushed value and restores the
      stack pointer. */
  lemma PushThenPop(c: CpuState, value: Address)
    requires c.Valid() && c.sp < 16
    ensures Pop(Push(c, value).value).Some?
    ensures Pop(Push(c, value).value).value.0 == value
    ensures Pop(Push(c, value).value).value.1 == c.(stack := c.stack[c.sp := value])
  {
  }

  /** Popping an empty stack yields nothing. */
  lemma PopEmpty(c: CpuState)
    requires c.Valid()
    ensures Pop(c).None? <==> c.sp == 0
  {
  }

  /** Pushing a sequence of values one after the other. */
  function PushAll(c: CpuState, values: seq<Address>): (r: Result<CpuState>)
    requires c.Valid()
    ensures r.Ok? ==> r.value.Valid()
    decreases |values|
  {
    if values == [] then Ok(c)
    else match Push(c, values[0])
      case Err(e) => Err(e)
      case Ok(c') => PushAll(c', values[1..])
  }

  /** A run of pushes succeeds exactly when it fits into the 16 slots; the
      values then sit in the slots above the old `sp`. Otherwise the run
      stops with a stack overflow. */
  lemma {:induction false} PushAllFits(c: CpuState, values: seq<Address>)
    requires c.Valid()
    ensures PushAll(c, values).Ok? <==> c.sp as nat + |values| <= MaxNumStackItems
    ensures PushAll(c, values).Err? ==> PushAll(c, values).error.kind == StackOverflow
    ensures PushAll(c, values).Ok? ==>
      var c' := PushAll(c, values).value;
      c'.sp == c.sp as nat + |values| && c'.stack[c.sp..c'.sp] == values
      && c'.stack[..c.sp] == c.stack[..c.sp]
    decreases |values|
  {
    if values != [] {
      if c.sp < 16 {
        var c1 := Push(c, values[0]).value;
        PushAllFits(c1, values[1..]);
        if PushAll(c, values).Ok? {
          var c' := PushAll(c, values).value;
          assert c'.stack[c1.sp..c'.sp] == values[1..];
          assert c'.stack[..c1.sp] == c1.stack[..c1.sp];
          assert c'.stack[c.sp] == c1.stack[c.sp] == values[0];
          assert c'.stack[c.sp..c'.sp] == [values[0]] + values[1..];
          assert c'.stack[..c.sp] == c1.stack[..c.sp] == c.stack[..c.sp];
        }
      }
    }
  }

  /** From a fresh CPU, sixteen pushes succeed and the seventeenth
      overflows. */
  lemma SeventeenthPushOverflows(values: seq<Address>)
    requires |values| == MaxNumStackItems + 1
    ensures PushAll(InitialCpu(), values[..MaxNumStackItems]).Ok?
    ensures PushAll(InitialCpu(), values) == Err(NewError(StackOverflow))
  {
    InitialCpuIsZeroed();
    PushAllFits(InitialCpu(), values[..MaxNumStackItems]);
    PushAllFits(InitialCpu(), values);
  }

  /** The overflow guard in `push_stack` as written: it refuses a push only
      when more than 16 items are already on the stack. */
  predicate OverflowGuardAsWritten(sp: nat)
  {
    sp > MaxNumStackItems
  }

  /** With 16 items on the stack the written guard lets the push through,
      and the slot it then writes, `stack[16]`, lies beyond the 16-slot
      stack. `Push` refuses exactly this case. */
  lemma OverflowGuardAsWrittenAdmitsFullStack()
    ensures !OverflowGuardAsWritten(16)
    ensures !(16 < MaxNumStackItems)
    ensures Push(InitialCpu().(sp := 16), 0x123).Err?
  {
  }

  /** `v[x] := value`. */
  function SetRegister(c: CpuState, x: nat, value: Register): (r: CpuState)
    requires c.Valid() && x < NumRegisters
    ensures r.Valid()
  {
    c.(v := c.v[x := value])
  }

  // ---------------------------------------------------------------------
  // The CPU as an object updated in place

  class Cpu {
    /** The 16 general registers V0..VF. */
    const v: array<Register>
    /** The 16-bit address register. */
    var i: Address
    /** The 16-bit program counter. */
    var pc: Address
    /** The 8-bit stack pointer. */
    var sp: Register
    /** The 16-slot call stack. */
    const stack: array<Address>
    /** The 8 HP48 (RPL) registers. */
    const hp48: array<Register>

    ghost predicate Valid()
      reads this
    {
      v.Length == NumRegisters && stack.Length == MaxNumStackItems
      && hp48.Length == NumHp48Registers && sp as nat <= MaxNumStackItems && v != hp48
    }

    ghost function Snapshot(): (c: CpuState)
      reads this, v, stack, hp48
      requires Valid()
      ensures c.Valid()
    {
      CpuState(v[..], i, pc, sp, stack[..], hp48[..])
    }

    constructor ()
      ensures Valid() && fresh(v) && fresh(stack) && fresh(hp48)
      ensures Snapshot() == InitialCpu()
    {
      v := new Register[NumRegisters](_ => 0);
      i := 0;
      pc := DefaultPcAddress;
      sp := 0;
      stack := new Address[MaxNumStackItems](_ => 0);
      hp48 := new Register[NumHp48Registers](_ => 0);
      new;
      assert v[..] == InitialCpu().v;
      assert stack[..] == InitialCpu().stack;
      assert hp48[..] == InitialCpu().hp48;
    }

    method PushStack(value: Address) returns (r: Result<()>)
      requires Valid()
      modifies this, stack
      ensures Valid()
      ensures Push(old(Snapshot()), value).Ok? ==>
        r == Ok(()) && Snapshot() == Push(old(Snapshot()), value).value
      ensures Push(old(Snapshot()), value).Err? ==>
        r == Err(Push(old(Snapshot()), value).error) && Snapshot() == old(Snapshot())
    {
      if sp as nat >= MaxNumStackItems {
        return Err(NewError(StackOverflow));
      }
      stack[sp] := value;
      sp := sp + 1;
      r := Ok(());
    }

    method PopStack() returns (r: Option<Address>)
      requires Valid()
      modifies this
      ensures Valid()
      ensures Pop(old(Snapshot())).None? ==> r == None && Snapshot() == old(Snapshot())
      ensures Pop(old(Snapshot())).Some? ==>
        r == Some(Pop(old(Snapshot())).value.0) && Snapshot() == Pop(old(Snapshot())).value.1
    {
      if sp == 0 {
        return None;
      }
      sp := sp - 1;
      r := Some(stack[sp]);
    }

    method SetFlagReg(value: Register)
      requires Valid()
      modifies v
      ensures Valid()
      ensures Snapshot() == SetRegister(old(Snapshot()), FlagRegisterIndex, value)
    {
      v[FlagRegisterIndex] := value;
    }

    /** Moves the program counter past the next instruction. The `u16`
        addition would overflow above 0xFFFD. */
    method SkipNextInstr()
      requires Valid() && pc as nat + InstructionBytes <= 0xFFFF
      modifies this
      ensures Valid()
      ensures Snapshot() == old(Snapshot()).(pc := old(pc) + InstructionBytes)
    {
      pc := pc + InstructionBytes;
    }
  }

  // ---------------------------------------------------------------------
  // Instruction parts

  /** Bits 8-11: `(w & 0x0F00) >> 8`. */
  function Vx(w: Instruction): (r: Register)
    ensures r < 16
  {
    (w / 0x100) % 0x10
  }

  /** Bits 4-7: `(w & 0x00F0) >> 4`. */
  function Vy(w: Instruction): (r: Register)
    ensures r < 16
  {
    (w / 0x10) % 0x10
  }

  /** Bits 0-11: `w & 0x0FFF`. */
  function Addr(w: Instruction): (r: Address)
    ensures r < 0x1000
  {
    w % 0x1000
  }

  /** Bits 0-7: `w & 0x00FF`. */
  function Imm(w: Instruction): (r: Immediate)
  {
    w % 0x100
  }

  /** Bits 0-3: `w & 0x000F`. */
  function Nib(w: Instruction): (r: Nibble)
    ensures r < 16
  {
    w % 0x10
  }

  /** The four nibbles of a word put it back together, and the extractors
      read them off. */
  lemma InstructionPartsRecombine(w: Instruction)
    ensures w == (w / 0x1000) * 0x1000 + Vx(w) * 0x100 + Vy(w) * 0x10 + Nib(w)
    ensures Addr(w) == Vx(w) * 0x100 + Imm(w)
    ensures Imm(w) == Vy(w) * 0x10 + Nib(w)
  {
    var h, a := w / 0x1000, w % 0x1000;
    var x, k := a / 0x100, a % 0x100;
    var y, n := k / 0x10, k % 0x10;
    assert w == h * 0x1000 + a && a == x * 0x100 + k && k == y * 0x10 + n;
    ComposeParts(h, x, y, n);
    assert Compose(h, x, y, n) == w;
  }

  /** The documented examples of the extractors, on `8345`. */
  lemma InstructionPartsExamples()
    ensures Vx(0x8345) == 0x3 && Vy(0x8345) == 0x4 && Addr(0x8345) == 0x345
    ensures Imm(0x8345) == 0x45 && Nib(0x8345) == 0x5
  {
  }

  // ---------------------------------------------------------------------
  // Operations and the decoder

  /** Chip-8 and SuperChip-8 operations. `x` and `y` name registers, `imm`
      is an 8-bit immediate, `addr` an address and `n` a nibble. */
  datatype Operation =
    // Chip-8
    | Cls
    | Ret
    | Sys(addr: Address)
    | Jump(addr: Address)
    | JumpAddrPlusV0(addr: Address)
    | Call(addr: Address)
    | SkipEqImm(x: RegisterIndex, imm: Immediate)
    | SkipEqReg(x: RegisterIndex, y: RegisterIndex)
    | SkipNeqImm(x: RegisterIndex, imm: Immediate)
    | SkipNeqReg(x: RegisterIndex, y: RegisterIndex)
    | LoadImm(x: RegisterIndex, imm: Immediate)
    | LoadReg(x: RegisterIndex, y: RegisterIndex)
    | LoadAddr(addr: Address)
    | LoadAddrDigit(x: RegisterIndex)
    | LoadRegDelay(x: RegisterIndex)
    | LoadDelayReg(x: RegisterIndex)
    | LoadSoundReg(x: RegisterIndex)
    | AddImm(x: RegisterIndex, imm: Immediate)
    | AddReg(x: RegisterIndex, y: RegisterIndex)
    | AddAddrReg(x: RegisterIndex)
    | Sub(x: RegisterIndex, y: RegisterIndex)
    | SubNeg(x: RegisterIndex, y: RegisterIndex)
    | Or(x: RegisterIndex, y: RegisterIndex)
    | And(x: RegisterIndex, y: RegisterIndex)
    | Xor(x: RegisterIndex, y: RegisterIndex)
    | Shr(x: RegisterIndex)
    | Shl(x: RegisterIndex)
    | RandModImm(x: RegisterIndex, imm: Immediate)
    | Draw(x: RegisterIndex, y: RegisterIndex, n: Nibble)
    | SkipKey(x: RegisterIndex)
    | SkipNotKey(x: RegisterIndex)
    | WaitKey(x: RegisterIndex)
    | MemStoreBcd(x: RegisterIndex)
    | MemStoreRegs(x: RegisterIndex)
    | MemLoadRegs(x: RegisterIndex)
    // SuperChip-8
    | Scd(n: Nibble)
    | Scr
    | Scl
    | Exit
    | Low
    | High
    | LoadAddrBigDigit(x: RegisterIndex)
    | RplStoreRegs(x: RegisterIndex)
    | RplLoadRegs(x: RegisterIndex)

  /** The operation carries an address. */
  predicate HasAddr(op: Operation)
  {
    op.Sys? || op.Jump? || op.JumpAddrPlusV0? || op.Call? || op.LoadAddr?
  }

  /** Operands as the decoder produces them: nibbles of four bits and
      addresses of twelve. */
  predicate WellFormed(op: Operation)
  {
    (HasAddr(op) ==> op.addr < 0x1000) && ((op.Draw? || op.Scd?) ==> op.n < 16)
  }

  /** The 0x0 family, by its low 12 bits `nnn`, whose bits 4-7 are `y` and
      bits 0-3 are `n`. */
  function DecodeSystem(nnn: nat, y: nat, n: nat): (r: Operation)
    requires nnn < 0x1000 && y < 16 && n < 16
    ensures WellFormed(r)
  {
    if nnn == 0x0E0 then Cls
    else if nnn == 0x0EE then Ret
    else if nnn == 0x0FB then Scr
    else if nnn == 0x0FC then Scl
    else if nnn == 0x0FD then Exit
    else if nnn == 0x0FE then Low
    else if nnn == 0x0FF then High
    else if y == 0xC then Scd(n)
    else Sys(nnn)
  }

  /** The 0x8 family, by its low nibble. */
  function DecodeArith(x: nat, y: nat, n: nat): (r: Option<Operation>)
    requires x < 16 && y < 16
    ensures r.Some? ==> WellFormed(r.value)
  {
    if n == 0x0 then Some(LoadReg(x, y))
    else if n == 0x1 then Some(Or(x, y))
    else if n == 0x2 then Some(And(x, y))
    else if n == 0x3 then Some(Xor(x, y))
    else if n == 0x4 then Some(AddReg(x, y))
    else if n == 0x5 then Some(Sub(x, y))
    else if n == 0x6 then Some(Shr(x))
    else if n == 0x7 then Some(SubNeg(x, y))
    else if n == 0xE then Some(Shl(x))
    else None
  }

  /** The 0xE family, by its low byte. */
  function DecodeKey(x: nat, kk: nat): (r: Option<Operation>)
    requires x < 16
    ensures r.Some? ==> WellFormed(r.value)
  {
    if kk == 0x9E then Some(SkipKey(x))
    else if kk == 0xA1 then Some(SkipNotKey(x))
    else None
  }

  /** The 0xF family, by its low byte. */
  function DecodeMisc(x: nat, kk: nat): (r: Option<Operation>)
    requires x < 16
    ensures r.Some? ==> WellFormed(r.value)
  {
    if kk == 0x07 then Some(LoadRegDelay(x))
    else if kk == 0x0A then Some(WaitKey(x))
    else if kk == 0x15 then Some(LoadDelayReg(x))
    else if kk == 0x18 then Some(LoadSoundReg(x))
    else if kk == 0x1E then Some(AddAddrReg(x))
    else if kk == 0x29 then Some(LoadAddrDigit(x))
    else if kk == 0x30 then Some(LoadAddrBigDigit(x))
    else if kk == 0x33 then Some(MemStoreBcd(x))
    else if kk == 0x55 then Some(MemStoreRegs(x))
    else if kk == 0x65 then Some(MemLoadRegs(x))
    else if kk == 0x75 then Some(RplStoreRegs(x))
    else if kk == 0x85 then Some(RplLoadRegs(x))
    else None
  }

  /** The decoder on the four nibbles `h x y n` of a word, most significant
      first: classify by `h`, then by `n`, by the low byte `kk = yn` or by
      the low 12 bits `nnn = xyn` within the 0x0, 0x5, 0x8, 0x9, 0xE and 0xF
      families. */
  function DecodeNibbles(h: nat, x: nat, y: nat, n: nat): (r: Option<Operation>)
    requires h < 16 && x < 16 && y < 16 && n < 16
    ensures r.Some? ==> WellFormed(r.value)
  {
    var kk := y * 0x10 + n;
    var nnn := x * 0x100 + kk;
    if h == 0x0 then Some(DecodeSystem(nnn, y, n))
    else if h == 0x1 then Some(Jump(nnn))
    else if h == 0x2 then Some(Call(nnn))
    else if h == 0x3 then Some(SkipEqImm(x, kk))
    else if h == 0x4 then Some(SkipNeqImm(x, kk))
    else if h == 0x5 then (if n == 0x0 then Some(SkipEqReg(x, y)) else None)
    else if h == 0x6 then Some(LoadImm(x, kk))
    else if h == 0x7 then Some(AddImm(x, kk))
    else if h == 0x8 then DecodeArith(x, y, n)
    else if h == 0x9 then (if n == 0x0 then Some(SkipNeqReg(x, y)) else None)
    else if h == 0xA then Some(LoadAddr(nnn))
    else if h == 0xB then Some(JumpAddrPlusV0(nnn))
    else if h == 0xC then Some(RandModImm(x, kk))
    else if h == 0xD then Some(Draw(x, y, n))
    else if h == 0xE then DecodeKey(x, kk)
    else DecodeMisc(x, kk)
  }

  /** `Operation::from_instruction`. */
  function Decode(w: Instruction): (r: Option<Operation>)
    ensures r.Some? ==> WellFormed(r.value)
  {
    DecodeNibbles(w / 0x1000, Vx(w), Vy(w), Nib(w))
  }

  /** A word from its four nibbles, most significant first. */
  function Compose(h: nat, x: nat, y: nat, n: nat): nat
  {
    h * 0x1000 + x * 0x100 + y * 0x10 + n
  }

  lemma DivMod16(q: nat, r: nat)
    requires r < 0x10
    ensures (q * 0x10 + r) / 0x10 == q && (q * 0x10 + r) % 0x10 == r
  {
  }

  lemma DivMod100(q: nat, r: nat)
    requires r < 0x100
    ensures (q * 0x100 + r) / 0x100 == q && (q * 0x100 + r) % 0x100 == r
  {
  }

  lemma DivMod1000(q: nat, r: nat)
    requires r < 0x1000
    ensures (q * 0x1000 + r) / 0x1000 == q && (q * 0x1000 + r) % 0x1000 == r
  {
  }

  /** The extractors read the nibbles of a composed word back. */
  lemma ComposeParts(h: nat, x: nat, y: nat, n: nat)
    requires h < 16 && x < 16 && y < 16 && n < 16
    ensures Compose(h, x, y, n) < 0x1_0000
    ensures var w: Instruction := Compose(h, x, y, n);
      w / 0x1000 == h && Vx(w) == x && Vy(w) == y && Nib(w) == n
      && Imm(w) == y * 0x10 + n && Addr(w) == x * 0x100 + y * 0x10 + n
  {
    var w := Compose(h, x, y, n);
    var low := x * 0x100 + y * 0x10 + n;
    assert w == h * 0x1000 + low;
    DivMod1000(h, low);
    var high := h * 0x10 + x;
    assert w == high * 0x100 + (y * 0x10 + n);
    DivMod100(high, y * 0x10 + n);
    DivMod16(h, x);
    var mid := high * 0x10 + y;
    assert w == mid * 0x10 + n;
    DivMod16(mid, n);
    DivMod16(high, y);
  }

  /** The low 12 bits as the decoder assembles them from three nibbles. */
  lemma LowBitsParts(x: nat, y: nat, n: nat)
    requires x < 16 && y < 16 && n < 16
    ensures x * 0x100 + (y * 0x10 + n) < 0x1000
    ensures var a: Address := x * 0x100 + (y * 0x10 + n);
      Vx(a) == x && Vy(a) == y && Nib(a) == n
    ensures var k: Immediate := y * 0x10 + n; Vy(k) == y && Nib(k) == n
  {
    var k := y * 0x10 + n;
    var a := x * 0x100 + k;
    DivMod16(y, n);
    DivMod100(x, k);
    DivMod16(0, y);
    assert a / 0x100 == x && a % 0x100 == k;
    assert Vx(a) == x;
    assert k / 0x10 == y && k % 0x10 == n;
    DivMod16(x * 0x10 + y, n);
    assert a == (x * 0x10 + y) * 0x10 + n;
    DivMod16(x, y);
  }

  /** The nibbles of an `hnnn` pattern. */
  function AddressForm(h: nat, a: Address): (r: (nat, nat, nat, nat))
    requires h < 16
    ensures r.0 == h && r.1 < 16 && r.2 < 16 && r.3 < 16
    ensures r.1 * 0x100 + r.2 * 0x10 + r.3 == a % 0x1000
  {
    InstructionPartsRecombine(a);
    (h, Vx(a), Vy(a), Nib(a))
  }

  /** The nibbles of an `hxkk` pattern. */
  function ImmediateForm(h: nat, x: nat, k: Immediate): (r: (nat, nat, nat, nat))
    requires h < 16 && x < 16
    ensures r.0 == h && r.1 == x && r.2 < 16 && r.3 < 16
    ensures r.2 * 0x10 + r.3 == k
  {
    InstructionPartsRecombine(k);
    (h, x, Vy(k), Nib(k))
  }

  /** The nibbles of each operation's canonical bit pattern; operand bits
      the operation does not use are zero. */
  function Nibbles(op: Operation): (r: (nat, nat, nat, nat))
    requires WellFormed(op)
    ensures r.0 < 16 && r.1 < 16 && r.2 < 16 && r.3 < 16
  {
    match op
    case Cls => (0x0, 0x0, 0xE, 0x0)
    case Ret => (0x0, 0x0, 0xE, 0xE)
    case Sys(a) => AddressForm(0x0, a)
    case Jump(a) => AddressForm(0x1, a)
    case Call(a) => AddressForm(0x2, a)
    case SkipEqImm(x, k) => ImmediateForm(0x3, x, k)
    case SkipNeqImm(x, k) => ImmediateForm(0x4, x, k)
    case SkipEqReg(x, y) => (0x5, x, y, 0x0)
    case LoadImm(x, k) => ImmediateForm(0x6, x, k)
    case AddImm(x, k) => ImmediateForm(0x7, x, k)
    case LoadReg(x, y) => (0x8, x, y, 0x0)
    case Or(x, y) => (0x8, x, y, 0x1)
    case And(x, y) => (0x8, x, y, 0x2)
    case Xor(x, y) => (0x8, x, y, 0x3)
    case AddReg(x, y) => (0x8, x, y, 0x4)
    case Sub(x, y) => (0x8, x, y, 0x5)
    case Shr(x) => (0x8, x, 0x0, 0x6)
    case SubNeg(x, y) => (0x8, x, y, 0x7)
    case Shl(x) => (0x8, x, 0x0, 0xE)
    case SkipNeqReg(x, y) => (0x9, x, y, 0x0)
    case LoadAddr(a) => AddressForm(0xA, a)
    case JumpAddrPlusV0(a) => AddressForm(0xB, a)
    case RandModImm(x, k) => ImmediateForm(0xC, x, k)
    case Draw(x, y, n) => (0xD, x, y, n)
    case SkipKey(x) => (0xE, x, 0x9, 0xE)
    case SkipNotKey(x) => (0xE, x, 0xA, 0x1)
    case LoadRegDelay(x) => (0xF, x, 0x0, 0x7)
    case WaitKey(x) => (0xF, x, 0x0, 0xA)
    case LoadDelayReg(x) => (0xF, x, 0x1, 0x5)
    case LoadSoundReg(x) => (0xF, x, 0x1, 0x8)
    case AddAddrReg(x) => (0xF, x, 0x1, 0xE)
    case LoadAddrDigit(x) => (0xF, x, 0x2, 0x9)
    case LoadAddrBigDigit(x) => (0xF, x, 0x3, 0x0)
    case MemStoreBcd(x) => (0xF, x, 0x3, 0x3)
    case MemStoreRegs(x) => (0xF, x, 0x5, 0x5)
    case MemLoadRegs(x) => (0xF, x, 0x6, 0x5)
    case RplStoreRegs(x) => (0xF, x, 0x7, 0x5)
    case RplLoadRegs(x) => (0xF, x, 0x8, 0x5)
    case Scd(n) => (0x0, 0x0, 0xC, n)
    case Scr => (0x0, 0x0, 0xF, 0xB)
    case Scl => (0x0, 0x0, 0xF, 0xC)
    case Exit => (0x0, 0x0, 0xF, 0xD)
    case Low => (0x0, 0x0, 0xF, 0xE)
    case High => (0x0, 0x0, 0xF, 0xF)
  }

  /** The canonical bit pattern of an operation. */
  function Encode(op: Operation): (w: Instruction)
    requires WellFormed(op)
  {
    var p := Nibbles(op);
    Compose(p.0, p.1, p.2, p.3)
  }

  /** System-call addresses whose pattern the decoder reads as another
      0x0 operation: the seven fixed 0x0 opcodes, and every 0x?C? address,
      whose bits 4-7 select `Scd`. */
  predicate SysShadowed(addr: Address)
  {
    addr in {0x0E0, 0x0EE, 0x0FB, 0x0FC, 0x0FD, 0x0FE, 0x0FF} || Vy(addr) == 0xC
  }

  /** The decoder reads exactly the four nibbles of the word. */
  lemma DecodeCompose(h: nat, x: nat, y: nat, n: nat)
    requires h < 16 && x < 16 && y < 16 && n < 16
    ensures Compose(h, x, y, n) < 0x1_0000
    ensures Decode(Compose(h, x, y, n)) == DecodeNibbles(h, x, y, n)
  {
    ComposeParts(h, x, y, n);
  }

  /** `DecodeEncode` for the fixed 0x0 operations and `Scd`. */
  lemma DecodeEncodeFixed(op: Operation)
    requires WellFormed(op)
    requires op.Cls? || op.Ret? || op.Scr? || op.Scl? || op.Exit? || op.Low? || op.High? || op.Scd?
    ensures DecodeNibbles(Nibbles(op).0, Nibbles(op).1, Nibbles(op).2, Nibbles(op).3) == Some(op)
  {
  }

  /** `DecodeEncode` for system calls. */
  lemma DecodeEncodeSys(op: Operation)
    requires WellFormed(op)
    requires op.Sys?
    requires !SysShadowed(op.addr)
    ensures DecodeNibbles(Nibbles(op).0, Nibbles(op).1, Nibbles(op).2, Nibbles(op).3) == Some(op)
  {
    var p := Nibbles(op);
    assert p.1 * 0x100 + p.2 * 0x10 + p.3 == op.addr;
  }

  /** `DecodeEncode` for the 0x8 family. */
  lemma DecodeEncodeArith(op: Operation)
    requires WellFormed(op)
    requires op.LoadReg? || op.Or? || op.And? || op.Xor? || op.AddReg? || op.Sub? || op.Shr? || op.SubNeg? || op.Shl?
    ensures DecodeNibbles(Nibbles(op).0, Nibbles(op).1, Nibbles(op).2, Nibbles(op).3) == Some(op)
  {
  }

  /** `DecodeEncode` for the 0xE and 0xF families. */
  lemma DecodeEncodeMisc(op: Operation)
    requires WellFormed(op)
    requires op.SkipKey? || op.SkipNotKey? || op.LoadRegDelay? || op.WaitKey? || op.LoadDelayReg? || op.LoadSoundReg? || op.AddAddrReg? || op.LoadAddrDigit? || op.LoadAddrBigDigit? || op.MemStoreBcd? || op.MemStoreRegs? || op.MemLoadRegs? || op.RplStoreRegs? || op.RplLoadRegs?
    ensures DecodeNibbles(Nibbles(op).0, Nibbles(op).1, Nibbles(op).2, Nibbles(op).3) == Some(op)
  {
  }

  /** `DecodeEncode` for the 1nnn, 2nnn, Annn and Bnnn forms. */
  lemma DecodeEncodeAddress(op: Operation)
    requires WellFormed(op)
    requires op.Jump? || op.Call? || op.LoadAddr? || op.JumpAddrPlusV0?
    ensures DecodeNibbles(Nibbles(op).0, Nibbles(op).1, Nibbles(op).2, Nibbles(op).3) == Some(op)
  {
    var p := AddressForm(0, op.addr);
    assert p.1 * 0x100 + p.2 * 0x10 + p.3 == op.addr;
    assert Nibbles(op).1 == p.1 && Nibbles(op).2 == p.2 && Nibbles(op).3 == p.3;
  }

  /** `DecodeEncode` for the 3xkk, 4xkk, 6xkk, 7xkk and Cxkk forms. */
  lemma DecodeEncodeImmediate(op: Operation)
    requires WellFormed(op)
    requires op.SkipEqImm? || op.SkipNeqImm? || op.LoadImm? || op.AddImm? || op.RandModImm?
    ensures DecodeNibbles(Nibbles(op).0, Nibbles(op).1, Nibbles(op).2, Nibbles(op).3) == Some(op)
  {
    var p := Nibbles(op);
    assert p.1 == op.x && p.2 * 0x10 + p.3 == op.imm;
  }

  /** `DecodeEncode` for the 5xy0, 9xy0 and Dxyn forms. */
  lemma DecodeEncodeRegisters(op: Operation)
    requires WellFormed(op)
    requires op.SkipEqReg? || op.SkipNeqReg? || op.Draw?
    ensures DecodeNibbles(Nibbles(op).0, Nibbles(op).1, Nibbles(op).2, Nibbles(op).3) == Some(op)
  {
  }

  /** Every operation's bit pattern decodes back to that operation. */
  lemma DecodeEncode(op: Operation)
    requires WellFormed(op)
    requires op.Sys? ==> !SysShadowed(op.addr)
    ensures Decode(Encode(op)) == Some(op)
  {
    var p := Nibbles(op);
    DecodeCompose(p.0, p.1, p.2, p.3);
    if op.Cls? || op.Ret? || op.Scr? || op.Scl? || op.Exit? || op.Low? || op.High? || op.Scd? {
      DecodeEncodeFixed(op);
    } else if op.Sys? {
      DecodeEncodeSys(op);
    } else if op.LoadReg? || op.Or? || op.And? || op.Xor? || op.AddReg? || op.Sub? || op.Shr? || op.SubNeg? || op.Shl? {
      DecodeEncodeArith(op);
    } else if op.Jump? || op.Call? || op.LoadAddr? || op.JumpAddrPlusV0? {
      DecodeEncodeAddress(op);
    } else if op.SkipEqImm? || op.SkipNeqImm? || op.LoadImm? || op.AddImm? || op.RandModImm? {
      DecodeEncodeImmediate(op);
    } else if op.SkipEqReg? || op.SkipNeqReg? || op.Draw? {
      DecodeEncodeRegisters(op);
    } else {
      DecodeEncodeMisc(op);
    }
  }

  /** The decoded operation's own nibbles, except the ones it ignores. */
  predicate KeepsNibbles(op: Operation, h: nat, x: nat, y: nat, n: nat)
    requires WellFormed(op)
  {
    (!(op.Shr? || op.Shl? || op.Scd?) ==> Nibbles(op) == (h, x, y, n))
    && (op.Sys? ==> !SysShadowed(op.addr))
  }

  /** `NibblesOfDecoded` for the 0x0 family. */
  lemma NibblesOfDecodedSystem(h: nat, x: nat, y: nat, n: nat)
    requires h < 16 && x < 16 && y < 16 && n < 16
    requires h == 0x0
    requires DecodeNibbles(h, x, y, n).Some?
    ensures KeepsNibbles(DecodeNibbles(h, x, y, n).value, h, x, y, n)
  {
    LowBitsParts(x, y, n);
    var nnn: Address := x * 0x100 + (y * 0x10 + n);
    var op := DecodeNibbles(h, x, y, n).value;
    assert op == DecodeSystem(nnn, y, n);
    if nnn == 0x0E0 {
      assert x == 0x0 && y == 0xE && n == 0x0;
    } else if nnn == 0x0EE {
      assert x == 0x0 && y == 0xE && n == 0xE;
    } else if 0x0FB <= nnn <= 0x0FF {
      assert x == 0x0 && y == 0xF && n == nnn - 0x0F0;
    } else if y != 0xC {
      assert op == Sys(nnn);
      assert Nibbles(op) == AddressForm(0x0, nnn);
    }
  }

  /** `NibblesOfDecoded` for the 1nnn, 2nnn, Annn and Bnnn forms. */
  lemma NibblesOfDecodedAddress(h: nat, x: nat, y: nat, n: nat)
    requires h < 16 && x < 16 && y < 16 && n < 16
    requires h == 0x1 || h == 0x2 || h == 0xA || h == 0xB
    requires DecodeNibbles(h, x, y, n).Some?
    ensures KeepsNibbles(DecodeNibbles(h, x, y, n).value, h, x, y, n)
  {
    LowBitsParts(x, y, n);
    var a: Address := x * 0x100 + (y * 0x10 + n);
    var p := AddressForm(h, a);
    assert p == (h, x, y, n);
    var op := DecodeNibbles(h, x, y, n).value;
    if h == 0x1 {
      assert op == Jump(a);
    } else if h == 0x2 {
      assert op == Call(a);
    } else if h == 0xA {
      assert op == LoadAddr(a);
    } else {
      assert op == JumpAddrPlusV0(a);
    }
  }

  /** `NibblesOfDecoded` for the 3xkk, 4xkk, 6xkk, 7xkk and Cxkk forms. */
  lemma NibblesOfDecodedImmediate(h: nat, x: nat, y: nat, n: nat)
    requires h < 16 && x < 16 && y < 16 && n < 16
    requires h == 0x3 || h == 0x4 || h == 0x6 || h == 0x7 || h == 0xC
    requires DecodeNibbles(h, x, y, n).Some?
    ensures KeepsNibbles(DecodeNibbles(h, x, y, n).value, h, x, y, n)
  {
    LowBitsParts(x, y, n);
    var k: Immediate := y * 0x10 + n;
    var p := ImmediateForm(h, x, k);
    assert p == (h, x, y, n);
    var op := DecodeNibbles(h, x, y, n).value;
    if h == 0x3 {
      assert op == SkipEqImm(x, k);
    } else if h == 0x4 {
      assert op == SkipNeqImm(x, k);
    } else if h == 0x6 {
      assert op == LoadImm(x, k);
    } else if h == 0x7 {
      assert op == AddImm(x, k);
    } else {
      assert op == RandModImm(x, k);
    }
  }

  /** `NibblesOfDecoded` for the 5xy0, 9xy0 and Dxyn forms. */
  lemma NibblesOfDecodedRegisters(h: nat, x: nat, y: nat, n: nat)
    requires h < 16 && x < 16 && y < 16 && n < 16
    requires h == 0x5 || h == 0x9 || h == 0xD
    requires DecodeNibbles(h, x, y, n).Some?
    ensures KeepsNibbles(DecodeNibbles(h, x, y, n).value, h, x, y, n)
  {
  }

  /** `NibblesOfDecoded` for the 0x8 family. */
  lemma NibblesOfDecodedArith(h: nat, x: nat, y: nat, n: nat)
    requires h < 16 && x < 16 && y < 16 && n < 16
    requires h == 0x8
    requires DecodeNibbles(h, x, y, n).Some?
    ensures KeepsNibbles(DecodeNibbles(h, x, y, n).value, h, x, y, n)
  {
  }

  /** `NibblesOfDecoded` for the 0xE and 0xF families. */
  lemma NibblesOfDecodedMisc(h: nat, x: nat, y: nat, n: nat)
    requires h < 16 && x < 16 && y < 16 && n < 16
    requires h == 0xE || h == 0xF
    requires DecodeNibbles(h, x, y, n).Some?
    ensures KeepsNibbles(DecodeNibbles(h, x, y, n).value, h, x, y, n)
  {
    var kk := y * 0x10 + n;
    DivMod16(y, n);
    assert y == kk / 0x10 && n == kk % 0x10;
    if h == 0xE {
      assert DecodeNibbles(h, x, y, n) == DecodeKey(x, kk);
    } else {
      assert DecodeNibbles(h, x, y, n) == DecodeMisc(x, kk);
    }
  }

  /** Re-encoding a decoded operation gives back the nibbles it was
      decoded from, except the ones it ignores. */
  lemma NibblesOfDecoded(h: nat, x: nat, y: nat, n: nat)
    requires h < 16 && x < 16 && y < 16 && n < 16
    requires DecodeNibbles(h, x, y, n).Some?
    ensures KeepsNibbles(DecodeNibbles(h, x, y, n).value, h, x, y, n)
  {
    if h == 0x0 {
      NibblesOfDecodedSystem(h, x, y, n);
    } else if h == 0x1 || h == 0x2 || h == 0xA || h == 0xB {
      NibblesOfDecodedAddress(h, x, y, n);
    } else if h == 0x3 || h == 0x4 || h == 0x6 || h == 0x7 || h == 0xC {
      NibblesOfDecodedImmediate(h, x, y, n);
    } else if h == 0x5 || h == 0x9 || h == 0xD {
      NibblesOfDecodedRegisters(h, x, y, n);
    } else if h == 0x8 {
      NibblesOfDecodedArith(h, x, y, n);
    } else {
      NibblesOfDecodedMisc(h, x, y, n);
    }
  }

  /** Decoding keeps every bit of the word except the ones an operation
      does not read: the `y` nibble of `Shr` and `Shl`, and bits 8-11 of
      `Scd`. No decoded `Sys` address is shadowed. */
  lemma EncodeDecode(w: Instruction)
    requires Decode(w).Some?
    ensures var op := Decode(w).value;
      !(op.Shr? || op.Shl? || op.Scd?) ==> Encode(op) == w
    ensures var op := Decode(w).value; op.Sys? ==> !SysShadowed(op.addr)
  {
    InstructionPartsRecombine(w);
    NibblesOfDecoded(w / 0x1000, Vx(w), Vy(w), Nib(w));
  }

  /** Decoding, re-encoding and decoding again changes nothing. */
  lemma DecodeIsCanonical(w: Instruction)
    requires Decode(w).Some?
    ensures Decode(Encode(Decode(w).value)) == Decode(w)
  {
    EncodeDecode(w);
    DecodeEncode(Decode(w).value);
  }

  /** The bit patterns the decoder rejects. */
  predicate Malformed(w: Instruction)
  {
    var hi, n, kk := w / 0x1000, Nib(w), Imm(w);
    ((hi == 0x5 || hi == 0x9) && n != 0)
    || (hi == 0x8 && !(n <= 0x7 || n == 0xE))
    || (hi == 0xE && kk != 0x9E && kk != 0xA1)
    || (hi == 0xF && kk !in {0x07, 0x0A, 0x15, 0x18, 0x1E, 0x29, 0x30, 0x33, 0x55, 0x65, 0x75, 0x85})
  }

  /** The decoder is total and returns `None` exactly on the malformed
      5xyN, 8xyN, 9xyN, ExNN and FxNN forms. */
  lemma DecodeNoneIffMalformed(w: Instruction)
    ensures Decode(w).None? <==> Malformed(w)
  {
    InstructionPartsRecombine(w);
  }

  /** Decoding the instruction words of the decoder's unit tests. */
  lemma DecodeExamplesValid()
    ensures Decode(0x00E0) == Some(Cls)
    ensures Decode(0x00EE) == Some(Ret)
    ensures Decode(0x03FF) == Some(Sys(0x3FF))
    ensures Decode(0xD453) == Some(Draw(4, 5, 3))
    ensures Decode(0xD1F3) == Some(Draw(1, 0xF, 3))
    ensures Decode(0xF530) == Some(LoadAddrBigDigit(5))
  {
    assert 0x00E0 / 0x1000 == 0x0 && Vx(0x00E0) == 0x0 && Vy(0x00E0) == 0xE && Nib(0x00E0) == 0x0;
    assert 0x00EE / 0x1000 == 0x0 && Vx(0x00EE) == 0x0 && Vy(0x00EE) == 0xE && Nib(0x00EE) == 0xE;
    assert 0x03FF / 0x1000 == 0x0 && Vx(0x03FF) == 0x3 && Vy(0x03FF) == 0xF && Nib(0x03FF) == 0xF;
    assert 0xD453 / 0x1000 == 0xD && Vx(0xD453) == 0x4 && Vy(0xD453) == 0x5 && Nib(0xD453) == 0x3;
    assert 0xD1F3 / 0x1000 == 0xD && Vx(0xD1F3) == 0x1 && Vy(0xD1F3) == 0xF && Nib(0xD1F3) == 0x3;
    assert 0xF530 / 0x1000 == 0xF && Vx(0xF530) == 0x5 && Vy(0xF530) == 0x3 && Nib(0xF530) == 0x0;
  }

  lemma DecodeExamplesMalformed()
    ensures Decode(0xF178) == None
    ensures Decode(0x51A5) == None
    ensures Decode(0x889F) == None
    ensures Decode(0x9AB1) == None
    ensures Decode(0xEA10) == None
    ensures Decode(0xFAFF) == None
  {
    assert 0xF178 / 0x1000 == 0xF && Vx(0xF178) == 0x1 && Vy(0xF178) == 0x7 && Nib(0xF178) == 0x8;
    assert 0x51A5 / 0x1000 == 0x5 && Vx(0x51A5) == 0x1 && Vy(0x51A5) == 0xA && Nib(0x51A5) == 0x5;
    assert 0x889F / 0x1000 == 0x8 && Vx(0x889F) == 0x8 && Vy(0x889F) == 0x9 && Nib(0x889F) == 0xF;
    assert 0x9AB1 / 0x1000 == 0x9 && Vx(0x9AB1) == 0xA && Vy(0x9AB1) == 0xB && Nib(0x9AB1) == 0x1;
    assert 0xEA10 / 0x1000 == 0xE && Vx(0xEA10) == 0xA && Vy(0xEA10) == 0x1 && Nib(0xEA10) == 0x0;
    assert 0xFAFF / 0x1000 == 0xF && Vx(0xFAFF) == 0xA && Vy(0xFAFF) == 0xF && Nib(0xFAFF) == 0xF;
  }
}
