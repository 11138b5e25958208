/** The interpreter's error taxonomy (okto/src/lib.rs). */
module Errors {
  import opened Bits

  /** General categories of emulator errors. */
  datatype ErrorKind =
    | StackOverflow
    | StackUnderflow
    | RomTooLarge
    | AddressOutOfRange
    | InvalidDigitSprite
    | InvalidOpcode
      /** An RPL register transfer named a register beyond the eighth. */
    | RegisterOutOfRange(register: Byte)
      /** A pass-through failure carrying its own message. */
    | Unknown(message: string)

  /** A general emulator error. */
  datatype OktoError = OktoError(kind: ErrorKind)

  /** An optional value. */
  datatype Option<T> = None | Some(value: T)

  /** The result of a fallible operation. */
  datatype Result<T> = Ok(value: T) | Err(error: OktoError)

  function NewError(kind: ErrorKind): OktoError
  {
    OktoError(kind)
  }

  /** Errors built from kinds are equal exactly when the kinds are. */
  lemma ErrorsEqualIffKindsEqual(a: ErrorKind, b: ErrorKind)
    ensures NewError(a) == NewError(b) <==> a == b
    ensures NewError(a).kind == a
  {
  }

  /** Kinds that carry no payload. */
  predicate Plain(kind: ErrorKind)
  {
    !kind.RegisterOutOfRange? && !kind.Unknown?
  }

  /** A description derived from the error kind alone. */
  function Description(e: OktoError): (d: string)
    ensures |d| > 0
    ensures e.kind.Unknown? ==> d == "Unknown"
  {
    match e.kind
    case StackOverflow => "Stack overflow"
    case StackUnderflow => "Stack underflow"
    case RomTooLarge => "ROM too large"
    case AddressOutOfRange => "Address out of range"
    case InvalidDigitSprite => "Invalid digit sprite"
    case InvalidOpcode => "Invalid opcode"
    case RegisterOutOfRange(_) => "Register out of range"
    case Unknown(_) => "Unknown"
  }

  /** The text `Display` renders: the description in debug quotes.
      None of the descriptions contains a character that debug
      formatting would escape. */
  function ToText(e: OktoError): string
  {
    "Error('\"" + Description(e) + "\"')"
  }

  /** Distinct payload-free kinds are told apart by their descriptions. */
  lemma DescriptionsDistinct(a: OktoError, b: OktoError)
    requires Plain(a.kind) && Plain(b.kind)
    ensures Description(a) == Description(b) <==> a == b
  {
    if a.kind != b.kind {
      var da, db := Description(a), Description(b);
      assert |da| != |db| || da[0] != db[0];
    }
  }

  /** The description of an unknown error ignores its message. */
  lemma UnknownDescriptionIgnoresMessage(m1: string, m2: string)
    ensures Description(NewError(Unknown(m1))) == Description(NewError(Unknown(m2))) == "Unknown"
  {
  }
}
