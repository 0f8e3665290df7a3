/** KeyUtil: the keyboard-input facade of the WPF layer. It owns one cached KeyboardMap,
    rebuilt only when the active layout changes, and answers every lookup through it. */
module KeyUtil {
  import opened Input
  import opened KeyboardMaps

  /* ---------------------------------------------------------------------------------------
     Pure predicates
     --------------------------------------------------------------------------------------- */

  /** The modifiers WPF reports for AltGr: AltGr has no flag of its own. */
  const AltGrModifiers: ModifierKeys := Alt | Control

  /** Is this the AltGr combination: Alt and Control, and nothing else. */
  function IsAltGr(modifierKeys: ModifierKeys): (r: bool)
    ensures r <==> HasFlag(modifierKeys, Alt) && HasFlag(modifierKeys, Control)
                   && !HasFlag(modifierKeys, Shift) && !HasFlag(modifierKeys, Windows)
  {
    modifierKeys == AltGrModifiers
  }

  /** A key press that carries no input of its own: one of the six Shift, Control and Alt
      keys, which WPF numbers contiguously, or the System key. Filtering these out drops the
      first of the two events an upper-case letter generates (LeftShift, then LeftShift + b). */
  function IsNonInputKey(k: Key): (r: bool)
    ensures r <==> (LeftShift <= k <= RightAlt || k == System)
  {
    k == LeftAlt || k == LeftCtrl || k == LeftShift ||
    k == RightAlt || k == RightCtrl || k == RightShift ||
    k == System
  }

  function IsInputKey(k: Key): (r: bool)
    ensures r <==> !(LeftShift <= k <= RightAlt || k == System)
  {
    !IsNonInputKey(k)
  }

  /** Exactly seven keys are non-input keys. */
  lemma NonInputKeysAreSeven()
    ensures (set k: Key | IsNonInputKey(k)) == {LeftAlt, LeftCtrl, LeftShift, RightAlt, RightCtrl, RightShift, System}
    ensures |set k: Key | IsNonInputKey(k)| == 7
  {
  }

  /** Character keys and the Windows keys are input keys: holding a Windows key alone is not
      filtered out. */
  lemma CharacterAndWindowsKeysAreInputKeys(k: Key)
    requires A <= k <= Z || D0 <= k <= D9 || k == Space || k == LWin || k == RWin
    ensures IsInputKey(k) && !IsNonInputKey(k)
  {
  }

  /* ---------------------------------------------------------------------------------------
     Composition rules over a single map lookup
     --------------------------------------------------------------------------------------- */

  /** The modifiers CharAndModifiersToKeyInput passes to the map: AltGr has already produced
      the character, so it must not also count as Alt and Control. */
  function CharLookupModifiers(modifierKeys: ModifierKeys): (r: ModifierKeys)
    ensures !IsAltGr(r)
    ensures r == NoModifiers <==> (modifierKeys == NoModifiers || IsAltGr(modifierKeys))
    ensures r != NoModifiers ==> r == modifierKeys
  {
    if IsAltGr(modifierKeys) then NoModifiers else modifierKeys
  }

  /** For the same character, AltGr and no modifiers at all give the same KeyInput. */
  lemma AltGrLooksUpAsUnmodified(km: KeyboardMap, c: Char16)
    ensures km.GetKeyInput(c, CharLookupModifiers(AltGrModifiers))
         == km.GetKeyInput(c, CharLookupModifiers(NoModifiers))
  {
  }

  /** AltGr together with Shift or Windows is not AltGr: those modifiers reach the map intact. */
  lemma ExtendedAltGrIsPassedThrough(extra: ModifierKeys)
    requires extra == Shift || extra == Windows || extra == Shift | Windows
    ensures CharLookupModifiers(AltGrModifiers | extra) == AltGrModifiers | extra
  {
  }

  /** The two-output TryConvertToKey: the lookup's success flag and key, with the modifiers
      it required dropped. */
  function LossyKey(chord: KeyChordResult): (r: KeyResult)
    ensures r.ok == chord.ok && r.key == chord.key
  {
    KeyResult(chord.ok, chord.key)
  }

  /** TryConvertToKeyOnly: succeeds only when the lookup succeeds and needs no modifiers.
      Its key is the lookup's key even when it fails. */
  function StrictKey(chord: KeyChordResult): (r: KeyResult)
    ensures r.ok <==> LossyKey(chord).ok && chord.modifiers == NoModifiers
    ensures r.key == LossyKey(chord).key
    ensures r.ok ==> r == LossyKey(chord)
  {
    KeyResult(chord.ok && chord.modifiers == NoModifiers, chord.key)
  }

  /** The lossy conversion forgets the modifiers: chords that differ only in them convert
      alike, while the strict conversion tells an unmodified chord from every other. */
  lemma LossyKeyForgetsModifiers(chord: KeyChordResult, m: ModifierKeys)
    ensures LossyKey(chord.(modifiers := m)) == LossyKey(chord)
    ensures chord.ok && m != chord.modifiers && NoModifiers in {m, chord.modifiers} ==>
              StrictKey(chord.(modifiers := m)) != StrictKey(chord)
  {
  }

  /** An upper-case letter needs Shift: the strict conversion fails, the lossy one gives the
      base key, and the three-output lookup reports Shift. */
  lemma ShiftedKeyConversions(km: KeyboardMap, vimKey: VimKey)
    requires km.TryGetKey(vimKey) == KeyChordResult(true, N, Shift)
    ensures !StrictKey(km.TryGetKey(vimKey)).ok
    ensures LossyKey(km.TryGetKey(vimKey)) == KeyResult(true, N)
    ensures km.TryGetKey(vimKey).modifiers == Shift
  {
  }

  /* ---------------------------------------------------------------------------------------
     The cache, on values
     --------------------------------------------------------------------------------------- */

  /** What the one-slot cache holds: nothing yet, or a map built for a layout. */
  datatype CacheState = Empty | Cached(keyboardId: KeyboardId)

  /** Whether GetOrCreateKeyboardMap builds a new map for the layout it has just read. */
  function NeedsRebuild(cache: CacheState, keyboardId: KeyboardId): (r: bool)
    ensures r <==> cache != Cached(keyboardId)
  {
    cache.Empty? || cache.keyboardId != keyboardId
  }

  /** The cache after one GetOrCreateKeyboardMap. */
  function CacheAfter(cache: CacheState, keyboardId: KeyboardId): (r: CacheState)
    ensures r == Cached(keyboardId)
    ensures !NeedsRebuild(r, keyboardId)
  {
    if NeedsRebuild(cache, keyboardId) then Cached(keyboardId) else cache
  }

  /** How many maps are built when lookups run, in order, under the layouts in ids. */
  function Rebuilds(cache: CacheState, ids: seq<KeyboardId>): nat
    decreases |ids|
  {
    if ids == [] then 0
    else (if NeedsRebuild(cache, ids[0]) then 1 else 0) + Rebuilds(CacheAfter(cache, ids[0]), ids[1..])
  }

  /** How many times the layout differs from the one seen by the previous lookup. */
  function LayoutSwitches(ids: seq<KeyboardId>): nat
    decreases |ids|
  {
    if |ids| <= 1 then 0
    else (if ids[0] != ids[1] then 1 else 0) + LayoutSwitches(ids[1..])
  }

  /** After the first lookup, a map is built exactly once per layout switch. */
  lemma {:induction false} RebuildsFollowLayoutSwitches(cache: CacheState, ids: seq<KeyboardId>)
    requires ids != []
    ensures Rebuilds(cache, ids) == (if NeedsRebuild(cache, ids[0]) then 1 else 0) + LayoutSwitches(ids)
    decreases |ids|
  {
    if |ids| > 1 {
      RebuildsFollowLayoutSwitches(Cached(ids[0]), ids[1..]);
    }
  }

  /** Starting from the empty cache, the first lookup builds a map and so does every switch. */
  lemma RebuildsFromEmpty(ids: seq<KeyboardId>)
    requires ids != []
    ensures Rebuilds(Empty, ids) == 1 + LayoutSwitches(ids)
  {
    RebuildsFollowLayoutSwitches(Empty, ids);
  }

  /** While the layout stays the one the cache was built for, nothing is rebuilt. */
  lemma {:induction false} SteadyLayoutNeverRebuilds(keyboardId: KeyboardId, ids: seq<KeyboardId>)
    requires forall i :: 0 <= i < |ids| ==> ids[i] == keyboardId
    ensures Rebuilds(Cached(keyboardId), ids) == 0
    decreases |ids|
  {
    if ids != [] {
      SteadyLayoutNeverRebuilds(keyboardId, ids[1..]);
    }
  }

  /* ---------------------------------------------------------------------------------------
     The facade and its static cache
     --------------------------------------------------------------------------------------- */

  /** The static class KeyUtil. Its one piece of state is the cached KeyboardMap; the
      layout id that GetKeyboardLayout would report is passed to every operation. */
  class KeyUtil {
    /** What a KeyboardMap built for each layout answers. */
    const tables: LayoutTables
    /** The cached map; null until the first lookup. */
    var keyboardMap: KeyboardMap?
    /** How many KeyboardMap objects have been constructed. */
    ghost var builds: nat

    ghost predicate Valid()
      reads this
    {
      keyboardMap != null ==> keyboardMap.tables == tables
    }

    ghost function Cache(): CacheState
      reads this
    {
      if keyboardMap == null then Empty else Cached(keyboardMap.keyboardId)
    }

    constructor (tables: LayoutTables)
      ensures Valid()
      ensures this.tables == tables && keyboardMap == null && builds == 0
    {
      this.tables := tables;
      keyboardMap := null;
      builds := 0;
    }

    /** The cache after a lookup under keyboardId: a map for that layout, newly built exactly
        when the one before was missing or built for another layout, and otherwise the same
        object as before. */
    twostate predicate Refreshed(keyboardId: KeyboardId)
      reads this
    {
      && keyboardMap != null
      && Cache() == CacheAfter(old(Cache()), keyboardId)
      && if NeedsRebuild(old(Cache()), keyboardId)
         then fresh(keyboardMap) && builds == old(builds) + 1
         else keyboardMap == old(keyboardMap) && builds == old(builds)
    }

    method GetOrCreateKeyboardMap(keyboardId: KeyboardId) returns (km: KeyboardMap)
      requires Valid()
      modifies this
      ensures Valid() && Refreshed(keyboardId)
      ensures km == keyboardMap && km.keyboardId == keyboardId
    {
      if keyboardMap == null || keyboardMap.keyboardId != keyboardId {
        keyboardMap := new KeyboardMap(keyboardId, tables);
        builds := builds + 1;
      }
      km := keyboardMap;
    }

    /** Is this a dead key of the current layout, pressed without modifiers. */
    method IsDeadKey(keyboardId: KeyboardId, key: Key) returns (r: bool)
      requires Valid()
      modifies this
      ensures Valid() && Refreshed(keyboardId)
      ensures r == tables.isDeadKey(keyboardId, key, NoModifiers)
    {
      var km := GetOrCreateKeyboardMap(keyboardId);
      r := km.IsDeadKey(key, NoModifiers);
    }

    method CharAndModifiersToKeyInput(keyboardId: KeyboardId, c: Char16, modifierKeys: ModifierKeys)
      returns (keyInput: KeyInput)
      requires Valid()
      modifies this
      ensures Valid() && Refreshed(keyboardId)
      ensures keyInput == tables.getKeyInput(keyboardId, c, CharLookupModifiers(modifierKeys))
    {
      var km := GetOrCreateKeyboardMap(keyboardId);
      keyInput := km.GetKeyInput(c, CharLookupModifiers(modifierKeys));
    }

    method TryConvertToKeyInput(keyboardId: KeyboardId, key: Key) returns (ok: bool, keyInput: KeyInput)
      requires Valid()
      modifies this
      ensures Valid() && Refreshed(keyboardId)
      ensures KeyInputResult(ok, keyInput) == tables.tryGetKeyInput(keyboardId, key)
    {
      var km := GetOrCreateKeyboardMap(keyboardId);
      var result := km.TryGetKeyInput(key);
      ok, keyInput := result.ok, result.keyInput;
    }

    method TryConvertToKeyInputWithModifiers(keyboardId: KeyboardId, key: Key, modifierKeys: ModifierKeys)
      returns (ok: bool, keyInput: KeyInput)
      requires Valid()
      modifies this
      ensures Valid() && Refreshed(keyboardId)
      ensures KeyInputResult(ok, keyInput) == tables.tryGetKeyInputWithModifiers(keyboardId, key, modifierKeys)
    {
      var km := GetOrCreateKeyboardMap(keyboardId);
      var result := km.TryGetKeyInputWithModifiers(key, modifierKeys);
      ok, keyInput := result.ok, result.keyInput;
    }

    /** The strict reverse conversion: fails when any modifier would be needed. */
    method TryConvertToKeyOnly(keyboardId: KeyboardId, vimKey: VimKey) returns (ok: bool, key: Key)
      requires Valid()
      modifies this
      ensures Valid() && Refreshed(keyboardId)
      ensures KeyResult(ok, key) == StrictKey(tables.tryGetKey(keyboardId, vimKey))
    {
      var modifierKeys;
      ok, key, modifierKeys := TryConvertToKeyWithModifiers(keyboardId, vimKey);
      ok := ok && modifierKeys == NoModifiers;
    }

    /** The lossy reverse conversion: the modifiers the key needs are dropped. */
    method TryConvertToKey(keyboardId: KeyboardId, vimKey: VimKey) returns (ok: bool, key: Key)
      requires Valid()
      modifies this
      ensures Valid() && Refreshed(keyboardId)
      ensures KeyResult(ok, key) == LossyKey(tables.tryGetKey(keyboardId, vimKey))
    {
      var modifierKeys;
      ok, key, modifierKeys := TryConvertToKeyWithModifiers(keyboardId, vimKey);
    }

    /** The reverse conversion with the modifiers the key needs. */
    method TryConvertToKeyWithModifiers(keyboardId: KeyboardId, vimKey: VimKey)
      returns (ok: bool, key: Key, modifierKeys: ModifierKeys)
      requires Valid()
      modifies this
      ensures Valid() && Refreshed(keyboardId)
      ensures KeyChordResult(ok, key, modifierKeys) == tables.tryGetKey(keyboardId, vimKey)
    {
      var km := GetOrCreateKeyboardMap(keyboardId);
      var result := km.TryGetKey(vimKey);
      ok, key, modifierKeys := result.ok, result.key, result.modifiers;
    }
  }
}
