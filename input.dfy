/** The input vocabulary KeyUtil works with: WPF's Key and ModifierKeys, and the Vim core's
    VimKey and KeyInput, reduced to what KeyUtil consults. */
module Input {

  /** System.Windows.Input.Key: WPF's enumeration of physical keys, numbered from
      0 (None) to 172 (DeadCharProcessed). */
  newtype Key = k: int | 0 <= k <= 172

  const Space: Key := 18
  const D0: Key := 34
  const D1: Key := 35
  const D9: Key := 43
  const A: Key := 44
  const N: Key := 57
  const Z: Key := 69
  const LWin: Key := 70
  const RWin: Key := 71
  const LeftShift: Key := 116
  const RightShift: Key := 117
  const LeftCtrl: Key := 118
  const RightCtrl: Key := 119
  const LeftAlt: Key := 120
  const RightAlt: Key := 121
  /** WPF reports this key when the real key is held together with Alt. */
  const System: Key := 156

  /** System.Windows.Input.ModifierKeys: a flags enumeration with one bit per modifier. */
  type ModifierKeys = bv4

  const NoModifiers: ModifierKeys := 0
  const Alt: ModifierKeys := 1
  const Control: ModifierKeys := 2
  const Shift: ModifierKeys := 4
  const Windows: ModifierKeys := 8

  /** Enum.HasFlag on a flags enumeration. */
  predicate HasFlag(m: ModifierKeys, flag: ModifierKeys) {
    m & flag == flag
  }

  /** A C# char: one UTF-16 code unit, lone surrogates included. */
  newtype Char16 = x: int | 0 <= x < 0x1_0000

  /** The Vim core's logical key. KeyUtil only passes it through. */
  datatype VimKey = VimKey(code: nat)

  /** The Vim core's normalised key press. KeyUtil only passes it through. */
  datatype KeyInput = KeyInput(code: nat)

  /** The handle of a keyboard layout, as the platform reports the active one. */
  type KeyboardId = int

  /** `bool Try...(..., out Key key)`: the returned flag and the value left in the out-parameter. */
  datatype KeyResult = KeyResult(ok: bool, key: Key)

  /** `bool Try...(..., out Key key, out ModifierKeys modifierKeys)`. */
  datatype KeyChordResult = KeyChordResult(ok: bool, key: Key, modifiers: ModifierKeys)

  /** `bool Try...(..., out KeyInput keyInput)`. */
  datatype KeyInputResult = KeyInputResult(ok: bool, keyInput: KeyInput)
}
