/** The sixteen-key keypad (okto/src/keyboard.rs). */
module Keyboard {
  import opened Bits

  const NumKeys: nat := 16

  datatype KeyState = Released | Pressed

  /** What the wait-key callback hands back: a key, or a message. */
  datatype WaitKeyResult = KeyOk(key: Byte) | KeyErr(message: string)

  /** The keypad. The wait-key callback it holds is not a field here: the
      machine takes the callback's answer as an argument. */
  class Keyboard {
    const keys: array<KeyState>

    ghost predicate Valid()
    {
      keys.Length == NumKeys
    }

    /** Every key starts released. */
    constructor ()
      ensures Valid() && fresh(keys)
      ensures forall k :: 0 <= k < NumKeys ==> keys[k] == Released
    {
      keys := new KeyState[NumKeys](_ => Released);
    }
  }

  /** The callback that does nothing: it always answers key 0. */
  function NopWaitKey(): (r: WaitKeyResult)
    ensures r.KeyOk? && r.key == 0
  {
    KeyOk(0x00)
  }
}
