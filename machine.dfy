/** The assembled machine: the CPU, the memory, the display, the keypad,
    the delay timer and the sound timer, and the execution of one operation
    or one fetch-decode-execute step (okto/src/machine.rs). */
module Machine {
  import opened Bits
  import opened Errors
  import opened Cpu
  import Memory
  import Display
  import Timer
  import Sound
  import opened Keyboard

  // ---------------------------------------------------------------------
  // The machine as a value

  datatype MachineState = MachineState(
    cpu: CpuState,
    delay: Byte,
    sound: Byte,
    memory: Memory.Image,
    screen: Display.Screen,
    highResolution: bool,
    keys: seq<KeyState>,
    on: bool)
  {
    ghost predicate Valid()
    {
      cpu.Valid() && |keys| == NumKeys
    }
  }

  /** The state `Machine::new` produces: every component fresh, switched on. */
  function InitialState(): (s: MachineState)
    ensures s.Valid()
  {
    InitialCpuIsZeroed();
    MachineState(InitialCpu(), 0, 0, Memory.InitialMemory(), Display.Blank(), false,
                 seq(NumKeys, _ => Released), true)
  }

  /** Operations whose behaviour depends on display routines that the display
      does not define: the 16x16 sprite of `Draw` with size 0 and the three
      scrolls. */
  predicate Specified(op: Operation)
  {
    !(op.Draw? && op.n == 0) && !op.Scd? && !op.Scr? && !op.Scl?
  }

  // The operation families, one per group of `execute` arms.

  predicate IsControl(op: Operation)
  {
    op.Ret? || op.Sys? || op.Jump? || op.JumpAddrPlusV0? || op.Call?
  }

  predicate IsSkip(op: Operation)
  {
    op.SkipEqImm? || op.SkipEqReg? || op.SkipNeqImm? || op.SkipNeqReg? || op.SkipKey? || op.SkipNotKey?
  }

  predicate IsLoad(op: Operation)
  {
    op.LoadImm? || op.LoadReg? || op.LoadAddr? || op.LoadAddrDigit? || op.LoadRegDelay?
    || op.LoadDelayReg? || op.LoadSoundReg? || op.WaitKey?
  }

  predicate IsArith(op: Operation)
  {
    op.AddImm? || op.AddReg? || op.AddAddrReg? || op.Sub? || op.SubNeg? || op.Or? || op.And?
    || op.Xor? || op.Shr? || op.Shl? || op.RandModImm?
  }

  predicate IsMemory(op: Operation)
  {
    op.MemStoreBcd? || op.MemStoreRegs? || op.MemLoadRegs?
  }

  /** Whether a skip operation skips: its comparison, or its key test. */
  predicate SkipTaken(s: MachineState, op: Operation)
    requires s.Valid() && IsSkip(op)
    requires (op.SkipKey? || op.SkipNotKey?) ==> s.cpu.v[op.x] < NumKeys
  {
    match op
    case SkipEqImm(x, k) => s.cpu.v[x] == k
    case SkipEqReg(x, y) => s.cpu.v[x] == s.cpu.v[y]
    case SkipNeqImm(x, k) => s.cpu.v[x] != k
    case SkipNeqReg(x, y) => s.cpu.v[x] != s.cpu.v[y]
    case SkipKey(x) => s.keys[s.cpu.v[x]] == Pressed
    case SkipNotKey(x) => s.keys[s.cpu.v[x]] == Released
  }

  /** The conditions under which `execute` does not panic: no `u16`
      addition overflows and no index runs past its array. */
  predicate Safe(s: MachineState, op: Operation)
    requires s.Valid()
  {
    match op
    case JumpAddrPlusV0(a) => a as nat + s.cpu.v[0] <= 0xFFFF
    case SkipKey(x) =>
      s.cpu.v[x] < NumKeys && (s.keys[s.cpu.v[x]] == Pressed ==> s.cpu.pc as nat + InstructionBytes <= 0xFFFF)
    case SkipNotKey(x) =>
      s.cpu.v[x] < NumKeys && (s.keys[s.cpu.v[x]] == Released ==> s.cpu.pc as nat + InstructionBytes <= 0xFFFF)
    case Draw(_, _, n) => Memory.BytesAt(s.memory, s.cpu.i, n).Ok? ==> n as nat <= Display.MaxSpriteBytes
    case MemStoreBcd(_) => s.cpu.i as nat + 2 < Memory.MemorySizeBytes
    case MemStoreRegs(x) => s.cpu.i as nat + x < Memory.MemorySizeBytes
    case MemLoadRegs(x) => s.cpu.i as nat + x < Memory.MemorySizeBytes
    case _ => IsSkip(op) ==> (SkipTaken(s, op) ==> s.cpu.pc as nat + InstructionBytes <= 0xFFFF)
  }

  /** The error the failed push of `Call` is passed on as: an unknown error
      carrying the overflow's display text. */
  function CallFailure(e: OktoError): OktoError
  {
    NewError(Unknown(ToText(e)))
  }

  function ExecControl(s: MachineState, op: Operation): (r: Result<MachineState>)
    requires s.Valid() && IsControl(op) && Safe(s, op)
    ensures r.Ok? ==> r.value.Valid()
  {
    match op
    case Ret =>
      (match Pop(s.cpu)
       case None => Err(NewError(StackUnderflow))
       case Some((a, c)) => Ok(s.(cpu := c.(pc := a))))
    case Sys(a) => Ok(s.(cpu := s.cpu.(pc := a)))
    case Jump(a) => Ok(s.(cpu := s.cpu.(pc := a)))
    case JumpAddrPlusV0(a) => Ok(s.(cpu := s.cpu.(pc := (a as int + s.cpu.v[0]) % 0x1000)))
    case Call(a) =>
      match Push(s.cpu, s.cpu.pc)
      case Err(e) => Err(CallFailure(e))
      case Ok(c) => Ok(s.(cpu := c.(pc := a)))
  }

  function ExecSkip(s: MachineState, op: Operation): (r: MachineState)
    requires s.Valid() && IsSkip(op) && Safe(s, op)
    ensures r.Valid()
  {
    if SkipTaken(s, op) then s.(cpu := s.cpu.(pc := s.cpu.pc + InstructionBytes)) else s
  }

  function ExecLoad(s: MachineState, op: Operation, key: WaitKeyResult): (r: Result<MachineState>)
    requires s.Valid() && IsLoad(op)
    ensures r.Ok? ==> r.value.Valid()
  {
    match op
    case LoadImm(x, k) => Ok(s.(cpu := SetRegister(s.cpu, x, k)))
    case LoadReg(x, y) => Ok(s.(cpu := SetRegister(s.cpu, x, s.cpu.v[y])))
    case LoadAddr(a) => Ok(s.(cpu := s.cpu.(i := a)))
    case LoadAddrDigit(x) =>
      (match Memory.SpriteAddressForDigit(s.cpu.v[x])
       case None => Err(NewError(InvalidDigitSprite))
       case Some(a) => Ok(s.(cpu := s.cpu.(i := a))))
    case LoadRegDelay(x) => Ok(s.(cpu := SetRegister(s.cpu, x, s.delay)))
    case LoadDelayReg(x) => Ok(s.(delay := s.cpu.v[x]))
    case LoadSoundReg(x) => Ok(s.(sound := s.cpu.v[x]))
    case WaitKey(x) =>
      match key
      case KeyOk(k) => Ok(s.(cpu := SetRegister(s.cpu, x, k)))
      case KeyErr(m) => Err(NewError(Unknown(m)))
  }

  /** The flag value of a condition. */
  function Flag(b: bool): Register
  {
    if b then 1 else 0
  }

  /** The arithmetic and logic operations. Where both write a register, the
      order of the writes to `v[x]` and to the flag register follows the
      source, which matters when `x` is 0xF. */
  function ExecArith(c: CpuState, op: Operation, random: Byte): (r: CpuState)
    requires c.Valid() && IsArith(op)
    ensures r.Valid()
  {
    match op
    case AddImm(x, k) => SetRegister(c, x, (c.v[x] as int + k) % 0x100)
    case AddReg(x, y) =>
      var sum := c.v[x] as int + c.v[y];
      SetRegister(SetRegister(c, FlagRegisterIndex, Flag(sum >= 0x100)), x, sum % 0x100)
    case AddAddrReg(x) => c.(i := (c.i as int + c.v[x]) % 0x1_0000)
    case Sub(x, y) =>
      var a, b := c.v[x], c.v[y];
      SetRegister(SetRegister(c, x, (a as int - b) % 0x100), FlagRegisterIndex, Flag(a > b))
    case SubNeg(x, y) =>
      var b, a := c.v[y], c.v[x];
      SetRegister(SetRegister(c, x, (b as int - a) % 0x100), FlagRegisterIndex, Flag(b > a))
    case Or(x, y) => SetRegister(c, x, OrByte(c.v[x], c.v[y]))
    case And(x, y) => SetRegister(c, x, AndByte(c.v[x], c.v[y]))
    case Xor(x, y) => SetRegister(c, x, XorByte(c.v[x], c.v[y]))
    case Shr(x) =>
      var c1 := SetRegister(c, FlagRegisterIndex, c.v[x] % 2);
      SetRegister(c1, x, c1.v[x] / 2)
    case Shl(x) =>
      var c1 := SetRegister(c, FlagRegisterIndex, c.v[x] / 0x80);
      SetRegister(c1, x, (c1.v[x] as int * 2) % 0x100)
    case RandModImm(x, k) => SetRegister(c, x, AndByte(random, k))
  }

  /** `v[0..=x]` written to memory from `i` on. */
  function StoreRegisters(s: MachineState, x: RegisterIndex): (r: MachineState)
    requires s.Valid() && s.cpu.i as nat + x < Memory.MemorySizeBytes
    ensures r.Valid()
  {
    s.(memory := Memory.Overlay(s.memory, s.cpu.i as nat, s.cpu.v[..x + 1]))
  }

  /** `v[0..=x]` read from memory from `i` on. */
  function LoadRegisters(s: MachineState, x: RegisterIndex): (r: MachineState)
    requires s.Valid() && s.cpu.i as nat + x < Memory.MemorySizeBytes
    ensures r.Valid()
  {
    var i := s.cpu.i as nat;
    s.(cpu := s.cpu.(v := s.memory[i..i + x + 1] + s.cpu.v[x + 1..]))
  }

  /** The three decimal digits of `v[x]` written to memory from `i` on. */
  function StoreBcd(s: MachineState, x: RegisterIndex): (r: MachineState)
    requires s.Valid() && s.cpu.i as nat + 2 < Memory.MemorySizeBytes
    ensures r.Valid()
  {
    var v, i := s.cpu.v[x], s.cpu.i as nat;
    s.(memory := s.memory[i := v / 100][i + 1 := (v / 10) % 10][i + 2 := v % 10])
  }

  function ExecMemory(s: MachineState, op: Operation): (r: MachineState)
    requires s.Valid() && IsMemory(op) && Safe(s, op)
    ensures r.Valid()
  {
    match op
    case MemStoreBcd(x) => StoreBcd(s, x)
    case MemStoreRegs(x) => StoreRegisters(s, x)
    case MemLoadRegs(x) => LoadRegisters(s, x)
  }

  /** The display operations, the SuperChip mode switches and the RPL
      register transfers; `LoadAddrBigDigit` has no arm in `execute` and
      falls to its catch-all. */
  function ExecOther(s: MachineState, op: Operation): (r: Result<MachineState>)
    requires s.Valid() && Specified(op) && Safe(s, op)
    requires !IsControl(op) && !IsSkip(op) && !IsLoad(op) && !IsArith(op) && !IsMemory(op)
    ensures r.Ok? ==> r.value.Valid()
  {
    match op
    case Cls => Ok(s.(screen := Display.Blank()))
    case Draw(x, y, n) =>
      (match Memory.BytesAt(s.memory, s.cpu.i, n)
       case Err(e) => Err(e)
       case Ok(sprite) =>
         var vx, vy := s.cpu.v[x], s.cpu.v[y];
         var erased := Display.Erases(s.screen, s.highResolution, vx, vy, sprite);
         Ok(s.(screen := Display.Blit(s.screen, s.highResolution, vx, vy, sprite),
               cpu := SetRegister(s.cpu, FlagRegisterIndex, Flag(erased)))))
    case Exit => Ok(s.(on := false))
    case High => Ok(s.(highResolution := true))
    case Low => Ok(s.(highResolution := false))
    case RplStoreRegs(x) =>
      if x > NumHp48Registers then Err(NewError(RegisterOutOfRange(x)))
      else Ok(s.(cpu := s.cpu.(hp48 := s.cpu.v[..x] + s.cpu.hp48[x..])))
    case RplLoadRegs(x) =>
      if x > NumHp48Registers then Err(NewError(RegisterOutOfRange(x)))
      else Ok(s.(cpu := s.cpu.(v := s.cpu.hp48[..x] + s.cpu.v[x..])))
    case LoadAddrBigDigit(_) => Err(NewError(InvalidOpcode))
  }

  /** `execute`: the machine after one operation, or the error it stops
      with. `key` is what the wait-key callback answers, `random` the
      random byte a `Cxkk` operation draws. */
  function Exec(s: MachineState, op: Operation, key: WaitKeyResult, random: Byte): (r: Result<MachineState>)
    requires s.Valid() && Specified(op) && Safe(s, op)
    ensures r.Ok? ==> r.value.Valid()
  {
    if IsControl(op) then ExecControl(s, op)
    else if IsSkip(op) then Ok(ExecSkip(s, op))
    else if IsLoad(op) then ExecLoad(s, op, key)
    else if IsArith(op) then Ok(s.(cpu := ExecArith(s.cpu, op, random)))
    else if IsMemory(op) then Ok(ExecMemory(s, op))
    else ExecOther(s, op)
  }

  /** The outcome of a step: the state it leaves and what it returns. */
  datatype Stepped = Stepped(state: MachineState, result: Result<()>)

  /** The state once the program counter has moved past the fetched
      instruction. */
  function Advanced(s: MachineState): (r: MachineState)
    requires s.Valid() && s.cpu.pc as nat + InstructionBytes <= 0xFFFF
    ensures r.Valid()
  {
    s.(cpu := s.cpu.(pc := s.cpu.pc + InstructionBytes))
  }

  /** A step of a running machine does not panic: the operation it fetches
      and decodes is specified and safe once the program counter has
      moved. */
  predicate StepSafe(s: MachineState)
    requires s.Valid()
  {
    s.on && Memory.InstructionAt(s.memory, s.cpu.pc).Some?
      && Decode(Memory.InstructionAt(s.memory, s.cpu.pc).value).Some? ==>
      var op := Decode(Memory.InstructionAt(s.memory, s.cpu.pc).value).value;
      Specified(op) && Safe(Advanced(s), op)
  }

  /** `step`: nothing on a switched-off machine; otherwise fetch the word at
      the program counter, decode it, move the program counter on, and
      execute. An error from the operation leaves the program counter
      moved. */
  function StepSpec(s: MachineState, key: WaitKeyResult, random: Byte): (r: Stepped)
    requires s.Valid() && StepSafe(s)
    ensures r.state.Valid()
  {
    if !s.on then Stepped(s, Ok(()))
    else
      match Memory.InstructionAt(s.memory, s.cpu.pc)
      case None => Stepped(s, Err(NewError(InvalidOpcode)))
      case Some(w) =>
        match Decode(w)
        case None => Stepped(s, Err(NewError(InvalidOpcode)))
        case Some(op) =>
          var s' := Advanced(s);
          match Exec(s', op, key, random)
          case Err(e) => Stepped(s', Err(e))
          case Ok(t) => Stepped(t, Ok(()))
  }

  // ---------------------------------------------------------------------
  // Properties of execution

  /** When an operation fails, and with which error. */
  predicate Fails(s: MachineState, op: Operation, key: WaitKeyResult)
    requires s.Valid()
  {
    match op
    case Ret => s.cpu.sp == 0
    case Call(_) => s.cpu.sp as nat >= MaxNumStackItems
    case LoadAddrDigit(x) => s.cpu.v[x] > 0xF
    case Draw(_, _, n) => s.cpu.i as nat + n >= Memory.MemorySizeBytes
    case WaitKey(_) => key.KeyErr?
    case RplStoreRegs(x) => x > NumHp48Registers
    case RplLoadRegs(x) => x > NumHp48Registers
    case LoadAddrBigDigit(_) => true
    case _ => false
  }

  /** An operation fails exactly in the cases `Fails` lists, with the error
      of that case. */
  lemma ExecFailsIff(s: MachineState, op: Operation, key: WaitKeyResult, random: Byte)
    requires s.Valid() && Specified(op) && Safe(s, op)
    ensures Exec(s, op, key, random).Err? <==> Fails(s, op, key)
    ensures Exec(s, op, key, random).Err? ==> Exec(s, op, key, random).error == (match op
      case Ret => NewError(StackUnderflow)
      case Call(_) => CallFailure(NewError(StackOverflow))
      case LoadAddrDigit(_) => NewError(InvalidDigitSprite)
      case Draw(_, _, _) => NewError(AddressOutOfRange)
      case WaitKey(_) => NewError(Unknown(key.message))
      case RplStoreRegs(x) => NewError(RegisterOutOfRange(x))
      case RplLoadRegs(x) => NewError(RegisterOutOfRange(x))
      case _ => NewError(InvalidOpcode))
  {
  }

  /** Only the jumps, the call and return, the skips move the program
      counter; every other operation leaves it where `step` put it. */
  lemma OnlyControlMovesPc(s: MachineState, op: Operation, key: WaitKeyResult, random: Byte)
    requires s.Valid() && Specified(op) && Safe(s, op)
    requires !IsControl(op) && !IsSkip(op)
    requires Exec(s, op, key, random).Ok?
    ensures Exec(s, op, key, random).value.cpu.pc == s.cpu.pc
    ensures Exec(s, op, key, random).value.cpu.sp == s.cpu.sp
    ensures Exec(s, op, key, random).value.cpu.stack == s.cpu.stack
  {
  }

  /** A skip moves the program counter past exactly one instruction when
      its condition holds, and changes nothing else. */
  lemma SkipSkipsOne(s: MachineState, op: Operation, key: WaitKeyResult, random: Byte)
    requires s.Valid() && IsSkip(op) && Safe(s, op)
    ensures Exec(s, op, key, random).Ok?
    ensures SkipTaken(s, op) ==> Exec(s, op, key, random).value == Advanced(s)
    ensures !SkipTaken(s, op) ==> Exec(s, op, key, random).value == s
  {
  }

  /** A call followed by a return comes back to the instruction after the
      call, with the stack pointer restored. */
  lemma CallThenRet(s: MachineState, a: Address, key: WaitKeyResult, random: Byte)
    requires s.Valid() && s.cpu.sp < 16
    ensures Exec(s, Call(a), key, random).Ok?
    ensures Exec(s, Call(a), key, random).value.cpu.pc == a
    ensures var t := Exec(s, Call(a), key, random).value;
      Exec(t, Ret, key, random).Ok?
      && Exec(t, Ret, key, random).value.cpu.pc == s.cpu.pc
      && Exec(t, Ret, key, random).value.cpu.sp == s.cpu.sp
      && Exec(t, Ret, key, random).value.cpu.v == s.cpu.v
  {
    PushThenPop(s.cpu, s.cpu.pc);
  }

  /** A jump through V0 stays within the 4 KiB address space. */
  lemma JumpStaysInMemory(s: MachineState, a: Address, key: WaitKeyResult, random: Byte)
    requires s.Valid() && a as nat + s.cpu.v[0] <= 0xFFFF
    ensures Exec(s, JumpAddrPlusV0(a), key, random).value.cpu.pc < Memory.MemorySizeBytes
    ensures a as nat + s.cpu.v[0] < Memory.MemorySizeBytes ==>
      Exec(s, JumpAddrPlusV0(a), key, random).value.cpu.pc == a as nat + s.cpu.v[0]
  {
  }

  /** `AddReg` is an 8-bit adder with carry out in VF. */
  lemma AddRegCarries(s: MachineState, x: RegisterIndex, y: RegisterIndex, key: WaitKeyResult, random: Byte)
    requires s.Valid() && x != FlagRegisterIndex
    ensures var v := Exec(s, AddReg(x, y), key, random).value.cpu.v;
      v[x] as int + 0x100 * v[FlagRegisterIndex] as int == s.cpu.v[x] as int + s.cpu.v[y]
      && v[FlagRegisterIndex] <= 1
  {
  }

  /** `Sub` is an 8-bit subtractor: VF is 1 exactly when `v[x] > v[y]`, and
      adding `v[y]` back gives the old `v[x]` modulo 256. */
  lemma SubBorrows(s: MachineState, x: RegisterIndex, y: RegisterIndex, key: WaitKeyResult, random: Byte)
    requires s.Valid() && x != FlagRegisterIndex && y != FlagRegisterIndex && y != x
    ensures var v := Exec(s, Sub(x, y), key, random).value.cpu.v;
      (v[FlagRegisterIndex] == 1 <==> s.cpu.v[x] > s.cpu.v[y])
      && (v[x] as int + v[y]) % 0x100 == s.cpu.v[x]
  {
    var a, b := s.cpu.v[x], s.cpu.v[y];
    if a < b {
      assert (a as int - b) % 0x100 == a as int - b + 0x100;
    }
  }

  /** `SubNeg` is the reversed subtractor: VF is 1 exactly when
      `v[y] > v[x]`, the new `v[x]` plus the old one gives `v[y]` modulo
      256, and `v[y]` itself is kept. */
  lemma SubNegBorrows(s: MachineState, x: RegisterIndex, y: RegisterIndex, key: WaitKeyResult, random: Byte)
    requires s.Valid() && x != FlagRegisterIndex && y != FlagRegisterIndex && y != x
    ensures var v := Exec(s, SubNeg(x, y), key, random).value.cpu.v;
      (v[FlagRegisterIndex] == 1 <==> s.cpu.v[y] > s.cpu.v[x])
      && (v[x] as int + s.cpu.v[x]) % 0x100 == s.cpu.v[y]
      && v[y] == s.cpu.v[y]
  {
    var a, b := s.cpu.v[x], s.cpu.v[y];
    if b < a {
      assert (b as int - a) % 0x100 == b as int - a + 0x100;
    }
  }

  /** With `x` = 0xF the flag written by `AddReg` is overwritten by the sum,
      while `Sub` leaves the flag, because the two arms write in opposite
      orders. */
  lemma FlagRegisterWriteOrder(s: MachineState, y: RegisterIndex, key: WaitKeyResult, random: Byte)
    requires s.Valid()
    ensures Exec(s, AddReg(0xF, y), key, random).value.cpu.v[0xF] == (s.cpu.v[0xF] as int + s.cpu.v[y]) % 0x100
    ensures Exec(s, Sub(0xF, y), key, random).value.cpu.v[0xF] == Flag(s.cpu.v[0xF] > s.cpu.v[y])
  {
  }

  /** The same for `SubNeg`: with `x` = 0xF the flag, written last, is what
      VF keeps. */
  lemma SubNegFlagWriteOrder(s: MachineState, y: RegisterIndex, key: WaitKeyResult, random: Byte)
    requires s.Valid()
    ensures Exec(s, SubNeg(0xF, y), key, random).value.cpu.v[0xF] == Flag(s.cpu.v[y] > s.cpu.v[0xF])
  {
  }

  /** `AddImm` adds modulo 256 and, unlike `AddReg`, sets no flag: every
      other register, VF included, and the rest of the machine are kept. */
  lemma AddImmWraps(s: MachineState, x: RegisterIndex, k: Immediate, key: WaitKeyResult, random: Byte)
    requires s.Valid()
    ensures var t := Exec(s, AddImm(x, k), key, random).value;
      t.cpu.v[x] == (s.cpu.v[x] as int + k) % 0x100
      && (forall j :: 0 <= j < NumRegisters && j != x ==> t.cpu.v[j] == s.cpu.v[j])
      && (x != FlagRegisterIndex ==> t.cpu.v[FlagRegisterIndex] == s.cpu.v[FlagRegisterIndex])
      && t.(cpu := s.cpu) == s && t.cpu.(v := s.cpu.v) == s.cpu
  {
  }

  /** `Fx29` points I at the font sprite of the digit in `v[x]`, the address
      `sprite_address_for_digit` gives, and changes nothing else; in fresh
      memory the five bytes there are that digit's sprite. */
  lemma LoadAddrDigitPointsAtFont(s: MachineState, x: RegisterIndex, key: WaitKeyResult, random: Byte)
    requires s.Valid() && s.cpu.v[x] <= 0xF
    ensures Exec(s, LoadAddrDigit(x), key, random).Ok?
    ensures var t := Exec(s, LoadAddrDigit(x), key, random).value;
      t.cpu.i == Memory.SpriteAddressForDigit(s.cpu.v[x]).value == 5 * s.cpu.v[x]
      && t == s.(cpu := s.cpu.(i := t.cpu.i))
    ensures var i := Exec(s, LoadAddrDigit(x), key, random).value.cpu.i as nat;
      s.memory == Memory.InitialMemory() ==>
        s.memory[i..i + 5] == Memory.DigitSprites[5 * s.cpu.v[x]..5 * s.cpu.v[x] + 5]
  {
    Memory.DigitSpriteInMemory(s.cpu.v[x]);
  }

  /** `AddImm` by `k` and then by `256 - k` restores the register. */
  lemma AddImmInverse(s: MachineState, x: RegisterIndex, k: Immediate, key: WaitKeyResult, random: Byte)
    requires s.Valid() && 0 < k
    ensures var t := Exec(s, AddImm(x, k), key, random).value;
      Exec(t, AddImm(x, 0x100 - k), key, random).value == s
  {
    var t := Exec(s, AddImm(x, k), key, random).value;
    var u := Exec(t, AddImm(x, 0x100 - k), key, random).value;
    assert u.cpu.v == s.cpu.v;
  }

  /** `Xor` with the same other register twice restores the register. */
  lemma XorTwiceRestores(s: MachineState, x: RegisterIndex, y: RegisterIndex, key: WaitKeyResult, random: Byte)
    requires s.Valid() && x != y
    ensures var t := Exec(s, Xor(x, y), key, random).value;
      Exec(t, Xor(x, y), key, random).value == s
  {
    XorByteTwice(s.cpu.v[x], s.cpu.v[y]);
    var t := Exec(s, Xor(x, y), key, random).value;
    var u := Exec(t, Xor(x, y), key, random).value;
    assert u.cpu.v == s.cpu.v;
  }

  /** `Shr` moves the low bit into VF: the old value is twice the new one
      plus the flag. */
  lemma ShrKeepsBits(s: MachineState, x: RegisterIndex, key: WaitKeyResult, random: Byte)
    requires s.Valid() && x != FlagRegisterIndex
    ensures var v := Exec(s, Shr(x), key, random).value.cpu.v;
      2 * v[x] as int + v[FlagRegisterIndex] == s.cpu.v[x] && v[FlagRegisterIndex] <= 1
  {
  }

  /** `Shl` moves the high bit into VF: twice the old value is the new one
      plus 256 times the flag. */
  lemma ShlKeepsBits(s: MachineState, x: RegisterIndex, key: WaitKeyResult, random: Byte)
    requires s.Valid() && x != FlagRegisterIndex
    ensures var v := Exec(s, Shl(x), key, random).value.cpu.v;
      v[x] as int + 0x100 * v[FlagRegisterIndex] as int == 2 * s.cpu.v[x] as int && v[FlagRegisterIndex] <= 1
  {
  }

  /** `Cxkk` never sets bits outside the mask `kk`: the result is at most
      `kk`, and zero for a zero mask. */
  lemma RandomIsMasked(s: MachineState, x: RegisterIndex, k: Immediate, key: WaitKeyResult, random: Byte)
    requires s.Valid()
    ensures Exec(s, RandModImm(x, k), key, random).value.cpu.v[x] <= k
  {
    AndAtMost(random, k);
  }

  /** The three BCD digits are decimal digits that spell `v[x]`. */
  lemma BcdSpellsValue(s: MachineState, x: RegisterIndex, key: WaitKeyResult, random: Byte)
    requires s.Valid() && s.cpu.i as nat + 2 < Memory.MemorySizeBytes
    ensures var m, i := Exec(s, MemStoreBcd(x), key, random).value.memory, s.cpu.i as nat;
      m[i] <= 2 && m[i + 1] <= 9 && m[i + 2] <= 9
      && 100 * m[i] + 10 * m[i + 1] + m[i + 2] == s.cpu.v[x]
  {
    var v := s.cpu.v[x];
    assert 100 * (v / 100) + 10 * ((v / 10) % 10) + v % 10 == v by {
      assert v / 10 == 10 * (v / 100) + (v / 10) % 10;
    }
  }

  /** Storing `v[0..=x]` and loading it back from the same address leaves
      the registers as they were and memory holding them. */
  lemma StoreThenLoadRegisters(s: MachineState, x: RegisterIndex, key: WaitKeyResult, random: Byte)
    requires s.Valid() && s.cpu.i as nat + x < Memory.MemorySizeBytes
    ensures var t := Exec(s, MemStoreRegs(x), key, random).value;
      var u := Exec(t, MemLoadRegs(x), key, random).value;
      u.cpu == s.cpu && u.memory[s.cpu.i..s.cpu.i as nat + x + 1] == s.cpu.v[..x + 1]
  {
    var t := Exec(s, MemStoreRegs(x), key, random).value;
    var u := Exec(t, MemLoadRegs(x), key, random).value;
    assert u.cpu.v == s.cpu.v[..x + 1] + s.cpu.v[x + 1..];
  }

  /** Loading registers changes `v[0..=x]` only, and reads memory from `i`. */
  lemma LoadRegistersReadsMemory(s: MachineState, x: RegisterIndex, key: WaitKeyResult, random: Byte)
    requires s.Valid() && s.cpu.i as nat + x < Memory.MemorySizeBytes
    ensures var v := Exec(s, MemLoadRegs(x), key, random).value.cpu.v;
      (forall k :: 0 <= k <= x ==> v[k] == s.memory[s.cpu.i as nat + k])
      && (forall k :: x < k < NumRegisters ==> v[k] == s.cpu.v[k])
  {
  }

  /** The RPL transfers copy the first `x` registers, `x` up to 8, and
      storing then loading restores them. */
  lemma RplRoundTrip(s: MachineState, x: RegisterIndex, key: WaitKeyResult, random: Byte)
    requires s.Valid() && x <= NumHp48Registers
    ensures Exec(s, RplStoreRegs(x), key, random).Ok?
    ensures var t := Exec(s, RplStoreRegs(x), key, random).value;
      (forall k :: 0 <= k < x ==> t.cpu.hp48[k] == s.cpu.v[k])
      && Exec(t, RplLoadRegs(x), key, random).Ok?
      && Exec(t, RplLoadRegs(x), key, random).value == t
  {
    var t := Exec(s, RplStoreRegs(x), key, random).value;
    assert t.cpu.hp48[..x] == s.cpu.v[..x];
    assert t.cpu.hp48[..x] + t.cpu.v[x..] == t.cpu.v;
  }

  /** Drawing sets VF to whether a lit pixel was erased, and drawing the
      same sprite again restores the screen. */
  lemma DrawTwiceRestoresScreen(s: MachineState, x: RegisterIndex, y: RegisterIndex, n: Nibble,
                                key: WaitKeyResult, random: Byte)
    requires s.Valid() && 0 < n <= 15 && s.cpu.i as nat + n < Memory.MemorySizeBytes
    ensures Exec(s, Draw(x, y, n), key, random).Ok?
    ensures var t := Exec(s, Draw(x, y, n), key, random).value;
      (t.cpu.v[FlagRegisterIndex] == 1
       <==> Display.Erases(s.screen, s.highResolution, s.cpu.v[x], s.cpu.v[y], s.memory[s.cpu.i..s.cpu.i as nat + n]))
    ensures var t := Exec(s, Draw(x, y, n), key, random).value;
      x != FlagRegisterIndex && y != FlagRegisterIndex ==>
        Exec(t, Draw(x, y, n), key, random).Ok? && Exec(t, Draw(x, y, n), key, random).value.screen == s.screen
  {
    var sprite := s.memory[s.cpu.i..s.cpu.i as nat + n];
    Display.DrawTwiceRestores(s.screen, s.highResolution, s.cpu.v[x], s.cpu.v[y], sprite);
  }

  /** The two examples of `execute`'s documentation: on a fresh machine
      `LoadImm(3, 0x25)` sets V3, and `Ret` fails on the empty stack. */
  lemma ExecuteExamples(key: WaitKeyResult, random: Byte)
    ensures InitialState().cpu.v[3] == 0
    ensures Exec(InitialState(), LoadImm(3, 0x25), key, random).Ok?
    ensures Exec(InitialState(), LoadImm(3, 0x25), key, random).value.cpu.v[3] == 0x25
    ensures Exec(InitialState(), Ret, key, random).Err?
  {
  }

  /** A switched-off machine does nothing, and `Exit` switches it off for
      good. */
  lemma ExitHalts(s: MachineState, key: WaitKeyResult, random: Byte, key': WaitKeyResult, random': Byte)
    requires s.Valid()
    ensures !s.on ==> StepSpec(s, key, random) == Stepped(s, Ok(()))
    ensures var t := Exec(s, Exit, key, random).value;
      !t.on && StepSpec(t, key', random') == Stepped(t, Ok(()))
  {
  }

  /** A failed step changes nothing but the program counter, which moves
      past the fetched instruction once the instruction has decoded. */
  lemma FailedStepOnlyMovesPc(s: MachineState, key: WaitKeyResult, random: Byte)
    requires s.Valid() && StepSafe(s)
    requires StepSpec(s, key, random).result.Err?
    ensures var t := StepSpec(s, key, random).state;
      t == s || (s.cpu.pc as nat + InstructionBytes <= 0xFFFF && t == Advanced(s))
  {
  }

  /** A running machine with `6025` (`LoadImm(0, 0x25)`) at its program
      counter loads V0 and moves to the next instruction. */
  lemma StepExample(s: MachineState, key: WaitKeyResult, random: Byte)
    requires s.Valid() && s.on && s.cpu.pc == DefaultPcAddress
    requires s.memory[0x200] == 0x60 && s.memory[0x201] == 0x25
    ensures StepSafe(s)
    ensures StepSpec(s, key, random).result == Ok(())
    ensures StepSpec(s, key, random).state.cpu.v[0] == 0x25
    ensures StepSpec(s, key, random).state.cpu.pc == 0x202
  {
    var w := 0x6025;
    assert Memory.InstructionAt(s.memory, 0x200) == Some(w);
    assert w / 0x1000 == 6 && Vx(w) == 0 && Vy(w) == 2 && Nib(w) == 5;
    assert Decode(w) == Some(LoadImm(0, 0x25));
  }

  // ---------------------------------------------------------------------
  // The machine as an object updated in place

  /** Whether the state after a call matches the outcome the specification
      gives: the new state on success, the old one and the error on
      failure. */
  predicate Follows(before: MachineState, r: Result<()>, after: MachineState, t: Result<MachineState>)
  {
    (t.Ok? ==> r == Ok(()) && after == t.value)
    && (t.Err? ==> r == Err(t.error) && after == before)
  }

  class Machine {
    const cpu: Cpu
    const delayTimer: Timer.DelayTimer
    const display: Display.Display
    const keyboard: Keyboard
    const memory: Memory.Memory
    const sound: Sound.Sound
    var machineOn: bool

    /** Every object the machine is made of. */
    ghost function Repr(): set<object>
    {
      {this, cpu, cpu.v, cpu.stack, cpu.hp48, delayTimer, display, display.data,
       keyboard, keyboard.keys, memory, memory.data, sound}
    }

    ghost predicate Valid()
      reads this, cpu, memory
    {
      cpu.Valid() && memory.Valid() && display.Valid() && keyboard.Valid()
      && cpu.v != memory.data && cpu.hp48 != memory.data
    }

    /** The machine as a value. */
    ghost function State(): (s: MachineState)
      reads this, cpu, memory, Repr()
      requires Valid()
      ensures s.Valid()
    {
      MachineState(cpu.Snapshot(), delayTimer.value, sound.timer, memory.Image(), display.Grid(),
                   display.highResolution, keyboard.keys[..], machineOn)
    }

    constructor ()
      ensures Valid() && fresh(Repr() - {this})
      ensures State() == InitialState()
    {
      cpu := new Cpu();
      delayTimer := new Timer.DelayTimer();
      display := new Display.Display();
      keyboard := new Keyboard();
      memory := new Memory.Memory();
      sound := new Sound.Sound();
      machineOn := true;
      new;
      assert keyboard.keys[..] == seq(NumKeys, _ => Released);
    }

    /** `step`. */
    method Step(key: WaitKeyResult, random: Byte) returns (r: Result<()>)
      requires Valid() && StepSafe(State())
      modifies Repr()
      ensures Valid()
      ensures State() == StepSpec(old(State()), key, random).state
      ensures r == StepSpec(old(State()), key, random).result
    {
      if !machineOn {
        return Ok(());
      }
      var fetched := memory.ReadInstruction(cpu.pc);
      if fetched.None? {
        return Err(NewError(InvalidOpcode));
      }
      var operation := Decode(fetched.value);
      if operation.None? {
        return Err(NewError(InvalidOpcode));
      }
      cpu.SkipNextInstr();
      assert State() == Advanced(old(State()));
      r := Execute(operation.value, key, random);
    }

    /** `execute`. */
    method Execute(op: Operation, key: WaitKeyResult, random: Byte) returns (r: Result<()>)
      requires Valid() && Specified(op) && Safe(State(), op)
      modifies Repr()
      ensures Valid()
      ensures Follows(old(State()), r, State(), Exec(old(State()), op, key, random))
    {
      if IsControl(op) {
        r := ExecuteControl(op);
      } else if IsSkip(op) {
        ExecuteSkip(op);
        r := Ok(());
      } else if IsLoad(op) {
        r := ExecuteLoad(op, key);
      } else if IsArith(op) {
        ExecuteArith(op, random);
        r := Ok(());
      } else if IsMemory(op) {
        ExecuteMemory(op);
        r := Ok(());
      } else {
        r := ExecuteOther(op);
      }
    }

    method ExecuteControl(op: Operation) returns (r: Result<()>)
      requires Valid() && IsControl(op) && Safe(State(), op)
      modifies cpu, cpu.stack
      ensures Valid()
      ensures Follows(old(State()), r, State(), ExecControl(old(State()), op))
    {
      match op
      case Ret =>
        var popped := cpu.PopStack();
        if popped.None? {
          return Err(NewError(StackUnderflow));
        }
        cpu.pc := popped.value;
        r := Ok(());
      case Sys(a) =>
        cpu.pc := a;
        r := Ok(());
      case Jump(a) =>
        cpu.pc := a;
        r := Ok(());
      case JumpAddrPlusV0(a) =>
        cpu.pc := (a as int + cpu.v[0]) % 0x1000;
        r := Ok(());
      case Call(a) =>
        var pc := cpu.pc;
        var pushed := cpu.PushStack(pc);
        if pushed.Err? {
          return Err(CallFailure(pushed.error));
        }
        cpu.pc := a;
        r := Ok(());
    }

    method ExecuteSkip(op: Operation)
      requires Valid() && IsSkip(op) && Safe(State(), op)
      modifies cpu
      ensures Valid()
      ensures State() == ExecSkip(old(State()), op)
    {
      var taken: bool;
      match op {
        case SkipEqImm(x, k) => taken := cpu.v[x] == k;
        case SkipEqReg(x, y) => taken := cpu.v[x] == cpu.v[y];
        case SkipNeqImm(x, k) => taken := cpu.v[x] != k;
        case SkipNeqReg(x, y) => taken := cpu.v[x] != cpu.v[y];
        case SkipKey(x) => taken := keyboard.keys[cpu.v[x]] == Pressed;
        case SkipNotKey(x) => taken := keyboard.keys[cpu.v[x]] == Released;
      }
      if taken {
        cpu.SkipNextInstr();
      }
    }

    method ExecuteLoad(op: Operation, key: WaitKeyResult) returns (r: Result<()>)
      requires Valid() && IsLoad(op)
      modifies cpu, cpu.v, delayTimer, sound
      ensures Valid()
      ensures Follows(old(State()), r, State(), ExecLoad(old(State()), op, key))
    {
      if op.LoadImm? || op.LoadReg? || op.LoadRegDelay? || op.WaitKey? {
        r := ExecuteLoadRegister(op, key);
      } else {
        r := ExecuteLoadOther(op, key);
      }
    }

    /** The loads into `v[x]`. */
    method ExecuteLoadRegister(op: Operation, key: WaitKeyResult) returns (r: Result<()>)
      requires Valid() && (op.LoadImm? || op.LoadReg? || op.LoadRegDelay? || op.WaitKey?)
      modifies cpu.v
      ensures Valid()
      ensures Follows(old(State()), r, State(), ExecLoad(old(State()), op, key))
    {
      r := Ok(());
      match op
      case LoadImm(x, k) =>
        cpu.v[x] := k;
      case LoadReg(x, y) =>
        cpu.v[x] := cpu.v[y];
      case LoadRegDelay(x) =>
        cpu.v[x] := delayTimer.value;
      case WaitKey(x) =>
        match key
        case KeyOk(k) =>
          cpu.v[x] := k;
        case KeyErr(m) =>
          return Err(NewError(Unknown(m)));
    }

    /** The loads into I and into the timers. */
    method ExecuteLoadOther(op: Operation, key: WaitKeyResult) returns (r: Result<()>)
      requires Valid() && (op.LoadAddr? || op.LoadAddrDigit? || op.LoadDelayReg? || op.LoadSoundReg?)
      modifies cpu, delayTimer, sound
      ensures Valid()
      ensures Follows(old(State()), r, State(), ExecLoad(old(State()), op, key))
    {
      r := Ok(());
      match op
      case LoadAddr(a) =>
        cpu.i := a;
      case LoadAddrDigit(x) =>
        var address := Memory.SpriteAddressForDigit(cpu.v[x]);
        if address.Some? {
          cpu.i := address.value;
        } else {
          r := Err(NewError(InvalidDigitSprite));
        }
      case LoadDelayReg(x) =>
        delayTimer.value := cpu.v[x];
      case LoadSoundReg(x) =>
        sound.timer := cpu.v[x];
    }

    method ExecuteArith(op: Operation, random: Byte)
      requires Valid() && IsArith(op)
      modifies cpu, cpu.v
      ensures Valid()
      ensures cpu.Snapshot() == ExecArith(old(cpu.Snapshot()), op, random)
    {
      if op.AddImm? || op.AddReg? || op.AddAddrReg? || op.Sub? || op.SubNeg? {
        ExecuteAddSub(op);
      } else {
        ExecuteLogic(op, random);
      }
    }

    /** The additions and subtractions, with their carry and borrow flags. */
    method ExecuteAddSub(op: Operation)
      requires Valid() && (op.AddImm? || op.AddReg? || op.AddAddrReg? || op.Sub? || op.SubNeg?)
      modifies cpu, cpu.v
      ensures Valid()
      ensures cpu.Snapshot() == ExecArith(old(cpu.Snapshot()), op, 0)
    {
      match op
      case AddImm(x, k) =>
        cpu.v[x] := (cpu.v[x] as int + k) % 0x100;
      case AddReg(x, y) =>
        var sum := cpu.v[x] as int + cpu.v[y];
        cpu.SetFlagReg(Flag(sum >= 0x100));
        cpu.v[x] := sum % 0x100;
      case AddAddrReg(x) =>
        cpu.i := (cpu.i as int + cpu.v[x]) % 0x1_0000;
      case Sub(x, y) =>
        var a, b := cpu.v[x], cpu.v[y];
        cpu.v[x] := (a as int - b) % 0x100;
        cpu.SetFlagReg(Flag(a > b));
      case SubNeg(x, y) =>
        var b, a := cpu.v[y], cpu.v[x];
        cpu.v[x] := (b as int - a) % 0x100;
        cpu.SetFlagReg(Flag(b > a));
    }

    /** The bitwise operations, the shifts and the masked random byte. */
    method ExecuteLogic(op: Operation, random: Byte)
      requires Valid() && (op.Or? || op.And? || op.Xor? || op.Shr? || op.Shl? || op.RandModImm?)
      modifies cpu, cpu.v
      ensures Valid()
      ensures cpu.Snapshot() == ExecArith(old(cpu.Snapshot()), op, random)
    {
      match op
      case Or(x, y) =>
        cpu.v[x] := OrByte(cpu.v[x], cpu.v[y]);
      case And(x, y) =>
        cpu.v[x] := AndByte(cpu.v[x], cpu.v[y]);
      case Xor(x, y) =>
        cpu.v[x] := XorByte(cpu.v[x], cpu.v[y]);
      case Shr(x) =>
        var flag := cpu.v[x] % 2;
        cpu.SetFlagReg(flag);
        cpu.v[x] := cpu.v[x] / 2;
      case Shl(x) =>
        var flag := cpu.v[x] / 0x80;
        cpu.SetFlagReg(flag);
        cpu.v[x] := (cpu.v[x] as int * 2) % 0x100;
      case RandModImm(x, k) =>
        cpu.v[x] := AndByte(random, k);
    }

    method ExecuteMemory(op: Operation)
      requires Valid() && IsMemory(op) && Safe(State(), op)
      modifies cpu.v, memory.data
      ensures Valid()
      ensures State() == ExecMemory(old(State()), op)
    {
      match op
      case MemStoreBcd(x) =>
        var address, value := cpu.i as nat, cpu.v[x];
        memory.data[address] := value / 100;
        memory.data[address + 1] := (value / 10) % 10;
        memory.data[address + 2] := value % 10;
        assert memory.Image() == old(State()).memory[address := value / 100][address + 1 := (value / 10) % 10][address + 2 := value % 10];
      case MemStoreRegs(x) =>
        StoreRegs(x);
      case MemLoadRegs(x) =>
        LoadRegs(x);
    }

    /** The loop of `MemStoreRegs`: `v[index]` to `i + index` for every index
        up to `x`. */
    method StoreRegs(x: RegisterIndex)
      requires Valid() && cpu.i as nat + x < Memory.MemorySizeBytes
      modifies memory.data
      ensures Valid()
      ensures State() == StoreRegisters(old(State()), x)
    {
      ghost var m := memory.Image();
      var index := 0;
      while index <= x
        invariant 0 <= index <= x + 1
        invariant forall k :: 0 <= k < Memory.MemorySizeBytes ==>
          memory.data[k] == if cpu.i as nat <= k < cpu.i as nat + index then cpu.v[k - cpu.i as nat] else m[k]
      {
        memory.data[cpu.i as nat + index] := cpu.v[index];
        index := index + 1;
      }
      assert memory.Image() == Memory.Overlay(m, cpu.i as nat, cpu.v[..x + 1]);
    }

    /** The loop of `MemLoadRegs`: `i + index` to `v[index]` for every index
        up to `x`. */
    method LoadRegs(x: RegisterIndex)
      requires Valid() && cpu.i as nat + x < Memory.MemorySizeBytes
      modifies cpu.v
      ensures Valid()
      ensures State() == LoadRegisters(old(State()), x)
    {
      ghost var v := cpu.v[..];
      var index := 0;
      while index <= x
        invariant 0 <= index <= x + 1
        invariant forall k :: 0 <= k < NumRegisters ==>
          cpu.v[k] == if k < index then memory.data[cpu.i as nat + k] else v[k]
      {
        cpu.v[index] := memory.data[cpu.i as nat + index];
        index := index + 1;
      }
      assert cpu.v[..] == memory.data[cpu.i as nat..cpu.i as nat + x + 1] + v[x + 1..];
    }

    method ExecuteOther(op: Operation) returns (r: Result<()>)
      requires Valid() && Specified(op) && Safe(State(), op)
      requires !IsControl(op) && !IsSkip(op) && !IsLoad(op) && !IsArith(op) && !IsMemory(op)
      modifies this, cpu.v, cpu.hp48, display, display.data
      ensures Valid()
      ensures Follows(old(State()), r, State(), ExecOther(old(State()), op))
    {
      r := Ok(());
      match op
      case Cls =>
        display.Clear();
      case Draw(x, y, n) =>
        var sprite := memory.ReadBytes(cpu.i, n);
        if sprite.Err? {
          return Err(sprite.error);
        }
        var erased := display.Draw(cpu.v[x], cpu.v[y], n, sprite.value);
        cpu.SetFlagReg(Flag(erased));
      case Exit =>
        machineOn := false;
      case High =>
        display.highResolution := true;
      case Low =>
        display.highResolution := false;
      case RplStoreRegs(x) =>
        if x > NumHp48Registers {
          return Err(NewError(RegisterOutOfRange(x)));
        }
        RplStore(x);
      case RplLoadRegs(x) =>
        if x > NumHp48Registers {
          return Err(NewError(RegisterOutOfRange(x)));
        }
        RplLoad(x);
      case LoadAddrBigDigit(_) =>
        return Err(NewError(InvalidOpcode));
    }

    /** The loop of `RplStoreRegs`: `v[index]` to `hp48[index]` for every
        index below `x`. */
    method RplStore(x: nat)
      requires Valid() && x <= NumHp48Registers
      modifies cpu.hp48
      ensures Valid()
      ensures State() == old(State()).(cpu := old(State()).cpu.(hp48 := old(cpu.v[..x] + cpu.hp48[x..])))
    {
      ghost var h := cpu.hp48[..];
      var index := 0;
      while index < x
        invariant 0 <= index <= x
        invariant forall k :: 0 <= k < NumHp48Registers ==> cpu.hp48[k] == if k < index then cpu.v[k] else h[k]
      {
        cpu.hp48[index] := cpu.v[index];
        index := index + 1;
      }
      assert cpu.hp48[..] == cpu.v[..x] + h[x..];
    }

    /** The loop of `RplLoadRegs`: `hp48[index]` to `v[index]` for every
        index below `x`. */
    method RplLoad(x: nat)
      requires Valid() && x <= NumHp48Registers
      modifies cpu.v
      ensures Valid()
      ensures State() == old(State()).(cpu := old(State()).cpu.(v := old(cpu.hp48[..x] + cpu.v[x..])))
    {
      ghost var v := cpu.v[..];
      var index := 0;
      while index < x
        invariant 0 <= index <= x
        invariant forall k :: 0 <= k < NumRegisters ==> cpu.v[k] == if k < index then cpu.hp48[k] else v[k]
      {
        cpu.v[index] := cpu.hp48[index];
        index := index + 1;
      }
      assert cpu.v[..] == cpu.hp48[..x] + v[x..];
    }
  }
}
