/** The 4 KiB memory of the machine, with the hexadecimal font in its first
    80 bytes (okto/src/memory.rs). */
module Memory {
  import opened Bits
  import opened Errors
  import Cpu

  const MemorySizeBytes: nat := 0x1000
  /** The room between the program start address and the end of memory. */
  const MaxRomSizeBytes: nat := MemorySizeBytes - Cpu.DefaultPcAddress
  const BytesPerDigitSprite: nat := 5
  const NumDigitSprites: nat := 0x10 * BytesPerDigitSprite

  /** The sixteen 5-byte hexadecimal digit sprites, 0 to F. */
  const DigitSprites: seq<Byte> := [
    0xF0, 0x90, 0x90, 0x90, 0xF0,
    0x20, 0x60, 0x20, 0x20, 0x70,
    0xF0, 0x10, 0xF0, 0x80, 0xF0,
    0xF0, 0x10, 0xF0, 0x10, 0xF0,
    0x90, 0x90, 0xF0, 0x10, 0x10,
    0xF0, 0x80, 0xF0, 0x10, 0xF0,
    0xF0, 0x80, 0xF0, 0x90, 0xF0,
    0xF0, 0x10, 0x20, 0x40, 0x40,
    0xF0, 0x90, 0xF0, 0x90, 0xF0,
    0xF0, 0x90, 0xF0, 0x10, 0xF0,
    0xF0, 0x90, 0xF0, 0x90, 0x90,
    0xE0, 0x90, 0xE0, 0x90, 0xE0,
    0xF0, 0x80, 0x80, 0x80, 0xF0,
    0xE0, 0x90, 0x90, 0x90, 0xE0,
    0xF0, 0x80, 0xF0, 0x80, 0xF0,
    0xF0, 0x80, 0xF0, 0x80, 0x80
  ]

  /** A memory image: one byte per address. */
  type Image = m: seq<Byte> | |m| == MemorySizeBytes
    witness seq(MemorySizeBytes, _ => 0)

  /** The font sits below the program start address. */
  lemma FontLayout()
    ensures |DigitSprites| == NumDigitSprites == 80
    ensures NumDigitSprites <= Cpu.DefaultPcAddress
    ensures MaxRomSizeBytes == 0xE00
  {
  }

  /** `bytes_to_word`: the high byte followed by the low byte. */
  function BytesToWord(high: Byte, low: Byte): (w: Cpu.Instruction)
    ensures w / 0x100 == high && w % 0x100 == low
  {
    Cpu.DivMod100(high, low);
    high * 0x100 + low
  }

  /** A word's two bytes give it back. */
  lemma BytesToWordOfParts(w: Cpu.Instruction)
    ensures BytesToWord(w / 0x100, w % 0x100) == w
  {
  }

  /** `sprite_address_for_digit`: the address of the font sprite of a hex
      digit, `None` for a value above 0xF. */
  function SpriteAddressForDigit(digit: Byte): (r: Option<Cpu.Address>)
    ensures r.Some? <==> digit <= 0xF
    ensures r.Some? ==> (r.value == digit * BytesPerDigitSprite
                         && r.value + BytesPerDigitSprite <= NumDigitSprites)
  {
    if digit > 0xF then None else Some(digit * BytesPerDigitSprite)
  }

  /** Fresh memory: the font, then zeros. */
  function InitialMemory(): (m: Image)
  {
    seq(MemorySizeBytes, k => if 0 <= k < NumDigitSprites then DigitSprites[k] else 0)
  }

  /** Fresh memory holds the font at the start and zero everywhere else. */
  lemma InitialMemoryContents()
    ensures InitialMemory()[..NumDigitSprites] == DigitSprites
    ensures forall k :: NumDigitSprites <= k < MemorySizeBytes ==> InitialMemory()[k] == 0
  {
  }

  /** `m` with `data` written from address `start` on. */
  function Overlay(m: Image, start: nat, data: seq<Byte>): (r: Image)
    requires start + |data| <= MemorySizeBytes
    ensures r[start..start + |data|] == data
    ensures forall k :: 0 <= k < MemorySizeBytes && !(start <= k < start + |data|) ==> r[k] == m[k]
  {
    m[..start] + data + m[start + |data|..]
  }

  /** `read_bytes`: the `size` bytes from `address` on. The range check
      refuses any range that reaches the last address. */
  function BytesAt(m: Image, address: Cpu.Address, size: nat): (r: Result<seq<Byte>>)
    ensures r.Err? <==> address as nat >= MemorySizeBytes || address as nat + size >= MemorySizeBytes
    ensures r.Err? ==> r.error == NewError(AddressOutOfRange)
    ensures r.Ok? ==> |r.value| == size
    ensures r.Ok? ==> forall k :: 0 <= k < size ==> r.value[k] == m[address as nat + k]
  {
    if address as nat >= MemorySizeBytes || address as nat + size >= MemorySizeBytes then
      Err(NewError(AddressOutOfRange))
    else
      Ok(m[address..address as nat + size])
  }

  /** `read_instruction`: the big-endian word at `address`, `None` when the
      second byte would lie past the end of memory. */
  function InstructionAt(m: Image, address: Cpu.Address): (r: Option<Cpu.Instruction>)
    ensures r.None? <==> address as nat >= MemorySizeBytes - 1
    ensures r.Some? ==> r.value / 0x100 == m[address] && r.value % 0x100 == m[address as nat + 1]
  {
    if address as nat >= MemorySizeBytes - 1 then None
    else Some(BytesToWord(m[address], m[address as nat + 1]))
  }

  /** `write_byte`: the image with one byte replaced, or an error for an
      address outside memory. */
  function Written(m: Image, address: Cpu.Address, value: Byte): (r: Result<Image>)
    ensures r.Err? <==> address as nat >= MemorySizeBytes
    ensures r.Err? ==> r.error == NewError(AddressOutOfRange)
    ensures r.Ok? ==> r.value[address] == value
    ensures r.Ok? ==> forall k :: 0 <= k < MemorySizeBytes && k != address as nat ==> r.value[k] == m[k]
  {
    if address as nat >= MemorySizeBytes then Err(NewError(AddressOutOfRange))
    else
      var m': Image := m[address := value];
      Ok(m')
  }

  /** `load`: the image with `rom` copied in from `start`, or `RomTooLarge`
      when the end of the ROM reaches `MEMORY_SIZE_BYTES`. As written, this
      refuses a ROM that would end exactly at the last address. */
  function Loaded(m: Image, rom: seq<Byte>, start: Cpu.Address): (r: Result<Image>)
    ensures r.Err? <==> start as nat + |rom| >= MemorySizeBytes
    ensures r.Err? ==> r.error == NewError(RomTooLarge)
  {
    if start as nat + |rom| >= MemorySizeBytes then Err(NewError(RomTooLarge))
    else Ok(Overlay(m, start as nat, rom))
  }

  /** The two documented examples of `load`: six bytes load at 0x200, and
      the same six bytes at 0xFFA, which would end at 0x1000, are refused. */
  lemma LoadExamples(m: Image, rom: seq<Byte>)
    requires rom == [0x12, 0x34, 0x56, 0x78, 0x9A, 0xBC]
    ensures Loaded(m, rom, 0x200).Ok?
    ensures Loaded(m, rom, 0xFFA) == Err(NewError(RomTooLarge))
  {
  }

  /** The check as written refuses a ROM of `MAX_ROM_SIZE_BYTES` bytes at the
      program start address, although it fills memory exactly to its end. */
  lemma LoadRefusesLargestRom(m: Image, rom: seq<Byte>)
    requires |rom| == MaxRomSizeBytes
    ensures Cpu.DefaultPcAddress + |rom| <= MemorySizeBytes
    ensures Loaded(m, rom, Cpu.DefaultPcAddress) == Err(NewError(RomTooLarge))
  {
  }

  /** `load` with the bound that `MAX_ROM_SIZE_BYTES` suggests: a ROM is
      refused only when it runs past the end of memory. */
  function LoadedIntended(m: Image, rom: seq<Byte>, start: Cpu.Address): (r: Result<Image>)
    ensures r.Err? <==> start as nat + |rom| > MemorySizeBytes
    ensures r.Err? ==> r.error == NewError(RomTooLarge)
  {
    if start as nat + |rom| > MemorySizeBytes then Err(NewError(RomTooLarge))
    else Ok(Overlay(m, start as nat, rom))
  }

  /** With the intended bound every ROM that fits behind the program start
      address loads, the largest one included, and the two loads agree on
      every ROM that does not end at the last address. */
  lemma LoadAcceptsRomsUpToMaximum(m: Image, rom: seq<Byte>, start: Cpu.Address)
    ensures LoadedIntended(m, rom, Cpu.DefaultPcAddress).Ok? <==> |rom| <= MaxRomSizeBytes
    ensures start as nat + |rom| != MemorySizeBytes ==> LoadedIntended(m, rom, start) == Loaded(m, rom, start)
  {
  }

  /** A loaded ROM can be read back where it was loaded, and the rest of
      memory is untouched. */
  lemma LoadThenRead(m: Image, rom: seq<Byte>, start: Cpu.Address)
    requires start as nat + |rom| < MemorySizeBytes
    ensures Loaded(m, rom, start).Ok?
    ensures BytesAt(Loaded(m, rom, start).value, start, |rom|) == Ok(rom)
    ensures forall k :: 0 <= k < MemorySizeBytes && !(start as nat <= k < start as nat + |rom|) ==>
      Loaded(m, rom, start).value[k] == m[k]
  {
    var m' := Loaded(m, rom, start).value;
    assert m'[start..start as nat + |rom|] == rom;
  }

  /** An instruction written as two bytes reads back whole. */
  lemma WriteThenInstructionAt(m: Image, address: Cpu.Address, w: Cpu.Instruction)
    requires address as nat < MemorySizeBytes - 1
    ensures var m1 := Written(m, address, w / 0x100).value;
      var m2 := Written(m1, address + 1, w % 0x100).value;
      InstructionAt(m2, address) == Some(w)
  {
    var m1 := Written(m, address, w / 0x100).value;
    var m2 := Written(m1, address + 1, w % 0x100).value;
    BytesToWordOfParts(w);
    assert m2[address] == w / 0x100 && m2[address as nat + 1] == w % 0x100;
  }

  /** The sprite address of every digit points at that digit's five bytes
      in fresh memory. */
  lemma DigitSpriteInMemory(digit: Byte)
    requires digit <= 0xF
    ensures var a := SpriteAddressForDigit(digit).value;
      BytesAt(InitialMemory(), a, BytesPerDigitSprite)
        == Ok(DigitSprites[digit * BytesPerDigitSprite..(digit + 1) * BytesPerDigitSprite])
  {
    var a := SpriteAddressForDigit(digit).value;
    var r := BytesAt(InitialMemory(), a, BytesPerDigitSprite);
    assert r.value == DigitSprites[a..a + BytesPerDigitSprite];
  }

  /** The memory component, updated in place. */
  class Memory {
    const data: array<Byte>

    ghost predicate Valid()
      reads this
    {
      data.Length == MemorySizeBytes
    }

    /** The current memory image. */
    ghost function Image(): (m: Image)
      reads this, data
      requires Valid()
    {
      data[..]
    }

    constructor ()
      ensures Valid() && fresh(data)
      ensures Image() == InitialMemory()
    {
      data := new Byte[MemorySizeBytes](k => if 0 <= k < NumDigitSprites then DigitSprites[k] else 0);
      new;
      assert data[..] == InitialMemory();
    }

    /** `load(rom, start, size)`; the caller passes the ROM's own length. */
    method Load(rom: seq<Byte>, start: Cpu.Address, size: nat) returns (r: Result<()>)
      requires Valid() && |rom| == size
      modifies data
      ensures Valid()
      ensures Loaded(old(Image()), rom, start).Err? ==>
        r == Err(Loaded(old(Image()), rom, start).error) && Image() == old(Image())
      ensures Loaded(old(Image()), rom, start).Ok? ==>
        r == Ok(()) && Image() == Loaded(old(Image()), rom, start).value
    {
      var end := start as nat + size;
      if end >= MemorySizeBytes {
        return Err(NewError(RomTooLarge));
      }
      forall k | start as nat <= k < end {
        data[k] := rom[k - start as nat];
      }
      r := Ok(());
      assert Image() == Overlay(old(Image()), start as nat, rom);
    }

    method WriteByte(address: Cpu.Address, value: Byte) returns (r: Result<()>)
      requires Valid()
      modifies data
      ensures Valid()
      ensures Written(old(Image()), address, value).Err? ==>
        r == Err(Written(old(Image()), address, value).error) && Image() == old(Image())
      ensures Written(old(Image()), address, value).Ok? ==>
        r == Ok(()) && Image() == Written(old(Image()), address, value).value
    {
      if address as nat >= MemorySizeBytes {
        return Err(NewError(AddressOutOfRange));
      }
      data[address] := value;
      r := Ok(());
    }

    method ReadBytes(address: Cpu.Address, size: nat) returns (r: Result<seq<Byte>>)
      requires Valid()
      ensures r == BytesAt(Image(), address, size)
    {
      var end := address as nat + size;
      if address as nat >= MemorySizeBytes || end >= MemorySizeBytes {
        return Err(NewError(AddressOutOfRange));
      }
      r := Ok(data[address..end]);
    }

    method ReadInstruction(address: Cpu.Address) returns (r: Option<Cpu.Instruction>)
      requires Valid()
      ensures r == InstructionAt(Image(), address)
    {
      if address as nat >= MemorySizeBytes - 1 {
        return None;
      }
      r := Some(BytesToWord(data[address], data[address as nat + 1]));
    }
  }
}
