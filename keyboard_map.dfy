/** The per-layout keyboard table. How it is built and what it holds is outside this model:
    only the answers it gives are modelled, as functions of the layout id it was built for. */
module KeyboardMaps {
  import opened Input

  /** The answers a KeyboardMap built for a given layout gives. Every field is left
      uninterpreted: any function of these types is a possible platform. */
  datatype LayoutTables = LayoutTables(
    isDeadKey: (KeyboardId, Key, ModifierKeys) -> bool,
    getKeyInput: (KeyboardId, Char16, ModifierKeys) -> KeyInput,
    tryGetKeyInput: (KeyboardId, Key) -> KeyInputResult,
    tryGetKeyInputWithModifiers: (KeyboardId, Key, ModifierKeys) -> KeyInputResult,
    tryGetKey: (KeyboardId, VimKey) -> KeyChordResult)

  /** A keyboard map for one layout. It is never changed after construction: a layout
      change produces a new object. */
  class KeyboardMap {
    const keyboardId: KeyboardId
    const tables: LayoutTables

    constructor (keyboardId: KeyboardId, tables: LayoutTables)
      ensures this.keyboardId == keyboardId && this.tables == tables
    {
      this.keyboardId := keyboardId;
      this.tables := tables;
    }

    function IsDeadKey(key: Key, modifierKeys: ModifierKeys): bool {
      tables.isDeadKey(keyboardId, key, modifierKeys)
    }

    function GetKeyInput(c: Char16, modifierKeys: ModifierKeys): KeyInput {
      tables.getKeyInput(keyboardId, c, modifierKeys)
    }

    function TryGetKeyInput(key: Key): KeyInputResult {
      tables.tryGetKeyInput(keyboardId, key)
    }

    function TryGetKeyInputWithModifiers(key: Key, modifierKeys: ModifierKeys): KeyInputResult {
      tables.tryGetKeyInputWithModifiers(keyboardId, key, modifierKeys)
    }

    function TryGetKey(vimKey: VimKey): KeyChordResult {
      tables.tryGetKey(keyboardId, vimKey)
    }
  }
}
