# okto: a verified model of a Chip-8 / SuperChip-8 interpreter core

okto is a Rust library that emulates the Chip-8 virtual machine and its
SuperChip-8 extension. This project models its core in Dafny and proves
properties of the model. The core is:

- the CPU: sixteen 8-bit registers `V0`..`VF`, the address register `I`,
  the program counter, a 16-entry return stack and eight HP48 flag
  registers;
- the instruction decoder, which turns a 16-bit word into an `Operation`;
- the 4 KiB memory, with the hexadecimal font in its first 80 bytes;
- the XOR-drawing framebuffer, with its low (64x32) and high (128x64)
  resolutions;
- the delay and sound timers, which count down to zero;
- the keypad;
- the error kinds and their descriptions;
- the machine that ties them together and executes one operation and one
  fetch-decode-execute step.

The library updates its components in place, so each of them is a
`class` whose methods change its fields. Each class has a value-level
abstraction: `Cpu.Snapshot()`, `Memory.Image()`, `Display.Grid()` and
`Machine.State()`.

Execution is specified by pure functions on values:

- `Machine.Exec` is one operation, `Machine.StepSpec` is one step;
- `Cpu.Push` and `Cpu.Pop` are the stack;
- `Memory.BytesAt`, `Memory.Written` and `Memory.Loaded` are memory
  access;
- `Display.Blit` and `Display.Erases` are drawing.

Every method is proved to leave its object in the state the function
gives. The properties the interpreter promises are lemmas about those
functions: the decoder round trip, call/return, carries and borrows,
drawing twice restores the screen, store/load round trips, and so on.

Modules, one per source file:

| file | module | source |
|---|---|---|
| bits.dfy | `Bits` | the `u8`/`u16` types and `&`, `|`, `^` (as arithmetic on integers) |
| errors.dfy | `Errors` | okto/src/lib.rs |
| cpu.dfy | `Cpu` | okto/src/cpu.rs |
| memory.dfy | `Memory` | okto/src/memory.rs |
| display.dfy | `Display` | okto/src/display.rs |
| timer.dfy | `Timer` | okto/src/timer.rs |
| sound.dfy | `Sound` | okto/src/sound.rs |
| keyboard.dfy | `Keyboard` | okto/src/keyboard.rs |
| machine.dfy | `Machine` | okto/src/machine.rs |

Rust's fixed-width integers are subset types of `int` (`Byte`, `Word`).
Every wrap-around is written out with `%`:

- `wrapping_add`, `wrapping_sub` and `overflowing_add` on `u8`;
- `wrapping_add` on `u16`;
- `<<= 1` on `u8`;
- the `% 0x1000` of `Bnnn`;
- the `%` of the drawing coordinates.

Where the Rust code would panic, the model has a precondition instead:

- an array index out of bounds;
- a `u16` addition that overflows;
- the assertions in `draw`.

Those preconditions are `Machine.Safe`, for one operation, and
`Machine.StepSafe`, for one step.

## Model

| member | source | states |
|---|---|---|
| Bits.BitwiseBound | okto/src/machine.rs:208-216 | `&`, `|` and `^` of two values below `2^k` stay below `2^k`, so on bytes they give bytes |
| Bits.XorTwice | okto/src/display.rs:130 | XOR-ing the same value in twice gives back the original, for all naturals |
| Bits.AndAtMost | okto/src/machine.rs:227-229 | masking with `b` never yields more than `b` |
| Bits.NonZeroHasSetBit | okto/src/display.rs:118-121 | a non-zero byte has a set bit among its low eight, so a non-zero sprite row lights a pixel |
| Bits.BitOfLowMask | okto/src/display.rs:120-121 | bit `j` of `2^m - 1` is set exactly when `j < m` |
| Errors.ErrorsEqualIffKindsEqual | okto/src/lib.rs:19-23 | two errors are equal exactly when their kinds are equal (the derived `PartialEq`) |
| Errors.Description | okto/src/lib.rs:55-65 | every description is non-empty, and every `Unknown` error is described as `"Unknown"` whatever its message |
| Errors.DescriptionsDistinct | okto/src/lib.rs:55-65 | two errors of kinds without a payload have the same description exactly when they are the same error |
| Errors.UnknownDescriptionIgnoresMessage | okto/src/lib.rs:63 | the message of an `Unknown` error does not reach its description |
| Cpu.InitialCpuIsZeroed | okto/src/cpu.rs:56-65 | a new CPU has every register, stack slot and HP48 register at 0, `I` and `sp` at 0, and the program counter at 0x200 |
| Cpu.PushSpec | okto/src/cpu.rs:97-107 | a push succeeds exactly when fewer than 16 entries are on the stack; it then stores the value at `sp` and increments `sp`, and otherwise fails with `StackOverflow` |
| Cpu.PushThenPop | okto/src/cpu.rs:97-143 | popping right after a push returns the pushed value and restores the stack pointer |
| Cpu.PopEmpty | okto/src/cpu.rs:136-143 | a pop fails exactly when the stack is empty |
| Cpu.PushAllFits | okto/src/cpu.rs:97-107 | a run of pushes succeeds exactly when it fits in the 16 entries, and leaves the values in order on the stack |
| Cpu.SeventeenthPushOverflows | okto/src/cpu.rs:88-96 | from a new CPU, 16 pushes succeed and a seventeenth fails with `StackOverflow` |
| Cpu.OverflowGuardAsWrittenAdmitsFullStack | okto/src/cpu.rs:98 | the guard as written lets a push through when all 16 entries are taken, whose write is then out of bounds |
| Cpu.SetRegister | okto/src/cpu.rs:159-161 | writing a register keeps the CPU well formed |
| Cpu.Cpu.constructor | okto/src/cpu.rs:56-65 | a new CPU is `InitialCpu()`, over fresh arrays |
| Cpu.Cpu.PushStack | okto/src/cpu.rs:97-107 | the CPU after the push is the one `Push` gives, or is unchanged on overflow |
| Cpu.Cpu.PopStack | okto/src/cpu.rs:136-143 | the CPU and the popped value are those `Pop` gives, or nothing changes on underflow |
| Cpu.Cpu.SetFlagReg | okto/src/cpu.rs:159-161 | only `VF` changes, to the given value |
| Cpu.Cpu.SkipNextInstr | okto/src/cpu.rs:178-180 | only the program counter changes, by one instruction (2 bytes) |
| Cpu.Vx | okto/src/cpu.rs:243-245 | the `x` field is a register index below 16 |
| Cpu.Addr | okto/src/cpu.rs:251-253 | the address field is below 0x1000 |
| Cpu.InstructionPartsRecombine | okto/src/cpu.rs:242-262 | the high nibble, `x`, `y` and `n` put back together give the word; `nnn` is `x` then `kk`, and `kk` is `y` then `n` |
| Cpu.InstructionPartsExamples | okto/src/cpu.rs:185-238 | the documented examples of the field extractors on `8345` |
| Cpu.Decode | okto/src/cpu.rs:342-413 | every decoded operation is well formed: its register, nibble, immediate and address fields fit their widths |
| Cpu.DecodeEncode | okto/src/cpu.rs:342-413 | every well-formed operation, except a `Sys` whose address the other `0nnn` patterns shadow, decodes back from its encoding |
| Cpu.EncodeDecode | okto/src/cpu.rs:342-413 | every word that decodes keeps all of its nibbles in the decoded operation, so the word is the encoding of what it decodes to |
| Cpu.DecodeIsCanonical | okto/src/cpu.rs:342-413 | decoding, encoding and decoding again gives what the first decoding gave |
| Cpu.NibblesOfDecoded | okto/src/cpu.rs:342-413 | every field of a decoded operation is taken from the nibbles of the word it came from |
| Cpu.DecodeNoneIffMalformed | okto/src/cpu.rs:361-411 | a word fails to decode exactly when its high nibble's sub-opcode is none of the listed ones (`5xy?`, `8xy?`, `9xy?`, `Ex??`, `Fx??`) |
| Cpu.DecodeExamplesValid | okto/src/cpu.rs:345-408 | `00E0`, `00EE`, `03FF`, `D453`, `D1F3` and `F530` decode to `Cls`, `Ret`, `Sys`, `Draw` and `LoadAddrBigDigit` |
| Cpu.DecodeExamplesMalformed | okto/src/cpu.rs:361-411 | `F178`, `51A5`, `889F`, `9AB1`, `EA10` and `FAFF` do not decode |
| Memory.FontLayout | okto/src/memory.rs:6-14 | the font holds 16 sprites of 5 bytes, fits below the program start, and a ROM may hold 0xE00 bytes |
| Memory.BytesToWord | okto/src/memory.rs:115-117 | the word's high byte is `high` and its low byte is `low` |
| Memory.BytesToWordOfParts | okto/src/memory.rs:115-117 | every word is rebuilt from its two bytes |
| Memory.SpriteAddressForDigit | okto/src/memory.rs:131-137 | there is an address exactly for digits up to 0xF, and it is the digit times 5 |
| Memory.InitialMemoryContents | okto/src/memory.rs:122-128 | new memory holds the font in its first 80 bytes and zeros after them |
| Memory.DigitSpriteInMemory | okto/src/memory.rs:122-137 | the 5 bytes at a digit's sprite address in new memory are that digit's font entry |
| Memory.Overlay | okto/src/memory.rs:171 | the bytes from `start` on are the data, and every other byte is unchanged |
| Memory.BytesAt | okto/src/memory.rs:224-232 | a read fails, with `AddressOutOfRange`, exactly when the start or the end reaches 4096; otherwise it returns the `size` bytes from the address |
| Memory.InstructionAt | okto/src/memory.rs:260-272 | there is no instruction exactly at 0xFFF and above; otherwise the word is the byte at the address followed by the next one |
| Memory.Written | okto/src/memory.rs:197-204 | a write fails, with `AddressOutOfRange`, exactly at 4096 and above; otherwise it changes that byte only |
| Memory.WriteThenInstructionAt | okto/src/memory.rs:197-272 | writing a word's two bytes and reading the instruction back gives the word |
| Memory.Loaded | okto/src/memory.rs:163-173 | a load fails, with `RomTooLarge`, exactly when the ROM's end reaches 4096; otherwise it overlays the ROM from the start address |
| Memory.LoadExamples | okto/src/memory.rs:144-161 | the documented examples: six bytes load at 0x200, and the same six bytes at 0xFFA are refused with `RomTooLarge` |
| Memory.LoadRefusesLargestRom | okto/src/memory.rs:8-167 | `load` as written refuses every ROM of the full 0xE00 bytes at 0x200, though it fits |
| Memory.LoadedIntended | okto/src/memory.rs:163-173 | with the bound `MAX_ROM_SIZE_BYTES` suggests, a load fails exactly when the ROM runs past the end of memory |
| Memory.LoadThenRead | okto/src/memory.rs:163-232 | reading back what was loaded gives the ROM, and memory outside it is unchanged |
| Memory.LoadAcceptsRomsUpToMaximum | okto/src/memory.rs:8-173 | with the intended bound a ROM loads at 0x200 exactly when it has at most 0xE00 bytes, and the two bounds agree on every ROM that does not end exactly at 4096 |
| Memory.Memory.constructor | okto/src/memory.rs:122-128 | new memory is `InitialMemory()` |
| Memory.Memory.Load | okto/src/memory.rs:163-173 | memory afterwards is what `Loaded` (the guard as written) gives, or is unchanged, with its error, on failure |
| Memory.Memory.WriteByte | okto/src/memory.rs:197-204 | memory afterwards is what `Written` gives, or is unchanged, with its error, on failure |
| Memory.Memory.ReadBytes | okto/src/memory.rs:224-232 | the result is `BytesAt` of the memory, which is not changed |
| Memory.Memory.ReadInstruction | okto/src/memory.rs:260-272 | the result is `InstructionAt` of the memory, which is not changed |
| Timer.Countdown | okto/src/timer.rs:33-37 | a tick lowers a non-zero value by one and leaves zero at zero |
| Timer.TicksSaturate | okto/src/timer.rs:33-37 | after `n` ticks a timer reads `value - n`, or 0 once it has run out |
| Timer.ExpiresAfterValueTicks | okto/src/timer.rs:33-37 | a timer reaches zero after exactly as many ticks as its value, and reads 1 one tick before |
| Timer.DelayTimer.constructor | okto/src/timer.rs:18-20 | a new delay timer reads 0 |
| Timer.DelayTimer.Tick | okto/src/timer.rs:33-37 | the value afterwards is `Countdown` of the value before |
| Sound.Sound.constructor | okto/src/sound.rs:16-18 | a new sound timer reads 0 |
| Sound.Sound.Tick | okto/src/sound.rs:24-28 | the timer afterwards is `Countdown` of the timer before |
| Keyboard.Keyboard.constructor | okto/src/keyboard.rs:35-40 | a new keypad has all 16 keys released |
| Keyboard.NopWaitKey | okto/src/keyboard.rs:45-47 | the no-op callback answers key 0 |
| Display.Height | okto/src/display.rs:75-81 | the height is 64 exactly in high resolution, and half of that otherwise |
| Display.Width | okto/src/display.rs:84-90 | the width is 128 exactly in high resolution, and half of that otherwise |
| Display.SpritePixel | okto/src/display.rs:120-121 | a sprite pixel, taken from the most significant bit down, is 0 or 1 |
| Display.RowOf | okto/src/display.rs:122 | a sprite row lands on a row of the current resolution |
| Display.ColumnOf | okto/src/display.rs:123 | a sprite column lands on a column of the current resolution |
| Display.LandsOn | okto/src/display.rs:122-123 | the screen cell a sprite pixel lands on leads back to that pixel |
| Display.CameFrom | okto/src/display.rs:122-123 | the sprite pixel a covered screen cell comes from lands on that cell, so wrap-around is a bijection |
| Display.DrawnAll | okto/src/display.rs:118-132 | after all the row and column steps of the loops, each cell holds what `Blit` gives |
| Display.ErasedAll | okto/src/display.rs:118-132 | after all the steps, the flag the loops compute is `Erases` |
| Display.DrawTwiceRestores | okto/src/display.rs:107-135 | drawing the same sprite twice at the same place leaves the screen as it was |
| Display.BlankErasesNothing | okto/src/display.rs:126-128 | drawing on a blank screen erases nothing |
| Display.DrawKeepsMonochrome | okto/src/display.rs:130 | drawing on a screen of 0s and 1s leaves only 0s and 1s |
| Display.DrawOnBlank | okto/src/display.rs:118-132 | on a blank screen every cell the sprite covers shows the sprite's pixel |
| Display.RedrawErasesIffVisible | okto/src/display.rs:118-132 | drawing a sprite on a blank screen and drawing it again erases exactly when the sprite has a non-zero row, in both directions |
| Display.DrawExample | okto/src/display.rs:118-132 | the sprite `FF 1F` drawn at the origin shows as eight and five lit pixels, erasing nothing |
| Display.HighResolutionDrawLeavesDeclaredBuffer | okto/src/display.rs:15 | in high resolution a pixel at column 64 is on screen but outside the buffer as declared |
| Display.DrawStaysInBuffer | okto/src/display.rs:122-123 | with the buffer as 64 rows of 128 columns, every drawn pixel is inside it |
| Display.Display.constructor | okto/src/display.rs:25-30 | a new display is blank and in low resolution |
| Display.Display.Clear | okto/src/display.rs:45-47 | the screen afterwards is blank and the resolution unchanged |
| Display.Display.Draw | okto/src/display.rs:107-135 | the screen afterwards is `Blit` of the screen before, and the result is `Erases` of the screen before |
| Machine.InitialState | okto/src/machine.rs:38-48 | the state of a new machine is well formed |
| Machine.ExecControl | okto/src/machine.rs:108-127 | the jumps, call and return keep the state well formed |
| Machine.ExecArith | okto/src/machine.rs:175-229 | the arithmetic and logic operations keep the CPU well formed |
| Machine.Exec | okto/src/machine.rs:105-340 | every operation that succeeds leaves a well-formed state |
| Machine.StepSpec | okto/src/machine.rs:51-71 | every step leaves a well-formed state |
| Machine.ExecFailsIff | okto/src/machine.rs:108-336 | an operation fails exactly on an empty return stack, a full call stack, a digit above 0xF, a sprite read past memory, a failed key wait, an RPL count above 8, or `LoadAddrBigDigit`, and with the error of that case |
| Machine.OnlyControlMovesPc | okto/src/machine.rs:105-340 | no operation other than the jumps, call, return and skips changes the program counter, the stack pointer or the stack |
| Machine.SkipSkipsOne | okto/src/machine.rs:128-147 | a skip moves the program counter by one instruction when its condition holds, and otherwise changes nothing |
| Machine.CallThenRet | okto/src/machine.rs:108-127 | with room on the stack, a call jumps to its address, and a return then comes back to the instruction after the call with the stack pointer and registers restored |
| Machine.JumpStaysInMemory | okto/src/machine.rs:117-119 | `Bnnn` jumps inside the 4 KiB space, to `nnn + V0` when that is inside it |
| Machine.AddRegCarries | okto/src/machine.rs:178-186 | `8xy4` leaves the 8-bit sum in `Vx` and the carry in `VF` |
| Machine.SubBorrows | okto/src/machine.rs:192-199 | `8xy5` sets `VF` exactly when `Vx > Vy`, and the new `Vx` plus `Vy` is the old `Vx` modulo 256 |
| Machine.SubNegBorrows | okto/src/machine.rs:200-207 | `8xy7` sets `VF` exactly when `Vy > Vx`, the new `Vx` plus the old one is `Vy` modulo 256, and `Vy` is kept |
| Machine.SubNegFlagWriteOrder | okto/src/machine.rs:200-207 | with `x` = 0xF, `8xy7` leaves the flag in `VF`, because it writes the flag after the difference |
| Machine.FlagRegisterWriteOrder | okto/src/machine.rs:178-199 | with `x` = 0xF, `8xy4` leaves the sum in `VF` and `8xy5` leaves the flag, because the arms write in opposite orders |
| Machine.AddImmWraps | okto/src/machine.rs:175-177 | `7xkk` leaves `(Vx + kk) mod 256` in `Vx` and sets no flag: every other register, `VF` included, and the rest of the machine are unchanged |
| Machine.LoadAddrDigitPointsAtFont | okto/src/machine.rs:155-164 | for a digit up to 0xF, `Fx29` sets `I` to `5 * Vx`, the address `sprite_address_for_digit` gives, and changes nothing else; in fresh memory the five bytes there are the digit's sprite |
| Machine.AddImmInverse | okto/src/machine.rs:175-177 | adding `k` and then `256 - k` restores the whole state |
| Machine.XorTwiceRestores | okto/src/machine.rs:214-216 | XOR-ing the same other register in twice restores the whole state |
| Machine.ShrKeepsBits | okto/src/machine.rs:217-221 | `8xy6` halves `Vx` and puts the bit shifted out into `VF` |
| Machine.ShlKeepsBits | okto/src/machine.rs:222-226 | `8xyE` doubles `Vx` modulo 256 and puts the bit shifted out into `VF` |
| Machine.RandomIsMasked | okto/src/machine.rs:227-229 | the random value `Cxkk` stores is at most `kk`, whatever the random byte |
| Machine.BcdSpellsValue | okto/src/machine.rs:278-285 | the three bytes stored are decimal digits, the first at most 2, and they spell `Vx` |
| Machine.StoreThenLoadRegisters | okto/src/machine.rs:286-297 | storing `V0..=Vx` at `I` and loading them back restores the CPU, and memory holds the registers |
| Machine.LoadRegistersReadsMemory | okto/src/machine.rs:292-297 | `Fx65` sets `V0..=Vx` to the bytes from `I` on and leaves the other registers alone |
| Machine.RplRoundTrip | okto/src/machine.rs:318-335 | storing the first `x` registers (`x` up to 8) copies them to the HP48 registers, and loading them back changes nothing |
| Machine.DrawTwiceRestoresScreen | okto/src/machine.rs:230-261 | `Dxyn` sets `VF` exactly when it erases a lit pixel, and drawing the same sprite again restores the screen |
| Machine.ExecuteExamples | okto/src/machine.rs:73-104 | the documented examples: `LoadImm(3, 0x25)` sets `V3`, and `Ret` on a new machine fails |
| Machine.ExitHalts | okto/src/machine.rs:51-54 | a switched-off machine's step does nothing, and `Exit` switches it off |
| Machine.FailedStepOnlyMovesPc | okto/src/machine.rs:51-71 | a failed step leaves the state as it was, except that the program counter has moved past the instruction if it decoded |
| Machine.StepExample | okto/src/machine.rs:51-71 | a step over `6025` at 0x200 loads `V0` with 0x25 and moves on to 0x202 |
| Machine.Machine.constructor | okto/src/machine.rs:38-48 | a new machine's state is `InitialState()` |
| Machine.Machine.Step | okto/src/machine.rs:51-71 | the state and the result afterwards are those `StepSpec` gives |
| Machine.Machine.Execute | okto/src/machine.rs:105-340 | the state afterwards is what `Exec` gives, or is unchanged, with `Exec`'s error, on failure |
| Machine.Machine.ExecuteControl | okto/src/machine.rs:108-127 | as `Execute`, for the jumps, call and return |
| Machine.Machine.ExecuteSkip | okto/src/machine.rs:128-147 | as `Execute`, for the skips |
| Machine.Machine.ExecuteLoad | okto/src/machine.rs:148-174 | as `Execute`, for the loads into registers, `I` and the timers |
| Machine.Machine.ExecuteArith | okto/src/machine.rs:175-229 | the CPU afterwards is what `ExecArith` gives |
| Machine.Machine.ExecuteMemory | okto/src/machine.rs:278-297 | as `Execute`, for BCD and the register stores and loads |
| Machine.Machine.StoreRegs | okto/src/machine.rs:286-291 | after the loop, memory is the `Overlay` of `V0..=Vx` at `I` |
| Machine.Machine.LoadRegs | okto/src/machine.rs:292-297 | after the loop, `V0..=Vx` hold the bytes from `I` on and the other registers are unchanged |
| Machine.Machine.ExecuteOther | okto/src/machine.rs:230-336 | as `Execute`, for drawing, clearing, the mode switches, `Exit` and the RPL transfers |
| Machine.Machine.RplStore | okto/src/machine.rs:318-326 | after the loop, the first `x` HP48 registers hold `V0..V(x-1)` and the rest are unchanged |
| Machine.Machine.RplLoad | okto/src/machine.rs:327-335 | after the loop, `V0..V(x-1)` hold the first `x` HP48 registers and the rest are unchanged |

## Left out

- `draw_large` and the three scrolls (`scroll_down`, `scroll_right`, `scroll_left`) are called by `execute` but not defined in okto/src/display.rs. So `Dxy0`, `00Cn`, `00FB` and `00FC` are excluded from `Exec` and `Machine.Execute` by the precondition `Specified`.
- Randomness: the byte `random::<u8>()` draws for `Cxkk` is a parameter of `Exec` and of `Machine.Execute`.
- The wait-key callback is not modelled as a stored closure. Its answer is a parameter `key` of `Exec` and `Machine.Execute`, and the keypad keeps only its key states.
- Panics are preconditions, not modelled failures: `Machine.Safe` and `Machine.StepSafe` state when `execute` and `step` run without panicking. This covers indexing the keypad with `Vx >= 16`, `u16` overflow in `Bnnn`, `Fx33`, `Fx55`, `Fx65` and in `skip_next_instr`, and a sprite longer than 15 bytes.
- `Cpu.SetRegister`: register fields have type `RegisterIndex` (below 16) rather than `u8`, since the decoder only produces values below 16 and any other value panics when it indexes `v`.
- The field extractors `vx`, `vy`, `addr`, `imm` and `nib` are written with `/` and `%` on integers instead of masks and shifts. The two are equal on 16-bit words.
- The flags of `Shr` and `Shl` are written as `% 2` and `/ 0x80` of the register, which is what `& 0x1` and `(& 0x80) >> 7` compute on a byte.
- The sound timer is a plain byte. The `write().unwrap()` in the `LoadSoundReg` arm implies a lock around it, which okto/src/sound.rs does not declare, so locking and its failure are not modelled.
- `execute` calls `display.draw` with three arguments and applies `?` to its answer. okto/src/display.rs defines `draw` with four arguments, returning `bool`, and that is the one modelled, with the sprite's length as the size.
- The variant `RandAndImm` that `execute` matches is `RandModImm` in okto/src/cpu.rs. The model uses the latter's name with the former's meaning (`random & kk`).
- `RegisterOutOfRange(register)` is returned by `execute` but not listed in okto/src/lib.rs. The model adds it to the error kinds, and its description text is the model's own.
- A failed push in `Call` is passed on as `Unknown` carrying the error's display text, as `execute` does. That text is modelled by `Errors.ToText` as `Error('"<description>"')`.
- `Memory.BytesAt` models `read_bytes` as written: it refuses a read whose end reaches exactly 4096. So a sprite ending at the last byte of memory cannot be drawn.
- Every word `0xCn` (high nibble 0, any nibble `x`, then C and `n`) decodes as `Scd(n)`, so `Sys` is never decoded for an address whose middle nibble is C, 256 addresses in all. `Cpu.DecodeEncode` excludes those `Sys` addresses, and the other shadowed ones, by `SysShadowed`.
- `Memory.Memory.Load` requires that `size` is the length of the ROM: `copy_from_slice` panics otherwise.
- Formatting (`fmt::Display`, `Debug`), ROM files and anything outside the library core are not part of this model.
- Concurrency: the components are plain objects, and no sharing between threads is modelled.

## Findings

| source | as written | input that shows it | evidently intended | confidence | as-written member | corrected member |
|---|---|---|---|---|---|---|
| okto/src/cpu.rs:98 | `push_stack` refuses a push only when `sp > 16` | a seventeenth push, with `sp == 16`, passes the guard and writes `stack[16]` of a 16-entry stack | refuse once all 16 entries are taken (`sp >= 16`) and report `StackOverflow` | not executed | Cpu.OverflowGuardAsWrittenAdmitsFullStack | Cpu.PushSpec |
| okto/src/memory.rs:167 | `load` refuses a ROM when `start + size >= 4096` | a ROM of `MAX_ROM_SIZE_BYTES` (0xE00) bytes at 0x200 ends exactly at 4096 and is refused | accept every ROM that fits (`start + size > 4096` is the error), so that a ROM of the maximum size can be loaded; the intent is contested, because the documented example at memory.rs:155-161 asserts the refusal of a ROM ending at 4096, so the model keeps the guard as written in `Loaded` and `Memory.Load` | not executed | Memory.LoadRefusesLargestRom | Memory.LoadedIntended |
| okto/src/display.rs:15 | the framebuffer is declared `[[u8; DISPLAY_HEIGHT]; DISPLAY_WIDTH]`, 128 rows of 64, and indexed `data[y][x]` | in high resolution, drawing at `x = 64` indexes column 64 of a 64-wide row | 64 rows of 128 columns, so that every column of the high-resolution screen exists | not executed | Display.HighResolutionDrawLeavesDeclaredBuffer | Display.DrawStaysInBuffer |
