# VsVim keyboard-input facade (KeyUtil), modelled in Dafny

This project models `KeyUtil`, the static class through which VsVim's WPF layer turns
keyboard events into Vim key inputs and back. `KeyUtil` keeps one cached `KeyboardMap`
for the active keyboard layout and rebuilds it only when the layout id changes. Every
lookup goes through that cache. On top of the cache it has pure rules:

- the AltGr test: exactly Alt + Control;
- the non-input-key filter: bare Shift, Control and Alt presses, and the System key;
- AltGr collapses to "no modifiers" before a character is looked up;
- reverse conversions from a Vim key back to a WPF key, in a strict form and a lossy form.

Files:

- `input.dfy` (module `Input`): WPF's `Key` is a newtype over WPF's numbering, 0 to 172. WPF's `ModifierKeys` is a 4-bit flag set: Alt = 1, Control = 2, Shift = 4, Windows = 8. A C# `char` is `Char16`, any UTF-16 code unit including lone surrogates: Dafny's own `char` leaves out the surrogate range. The Vim core's `VimKey` and `KeyInput` are opaque values. There are also records for the `bool Try…(…, out …)` result shapes.
- `keyboard_map.dfy` (module `KeyboardMaps`): `KeyboardMap` is an immutable class. It holds the layout id it was built for and `LayoutTables`. `LayoutTables` holds the uninterpreted lookups: dead key, char to KeyInput, Key to KeyInput with and without modifiers, and VimKey to (Key, ModifierKeys). Each lookup is a function of the layout id.
- `key_util.dfy` (module `KeyUtil`): the pure predicates and composition rules. It also models the cache on values (`CacheState`, `NeedsRebuild`, `Rebuilds`) with its lemmas. The class `KeyUtil` holds the cached map in a nullable field `keyboardMap`, plus a ghost count of the maps it has built. Its methods go through `GetOrCreateKeyboardMap`, as the source's do.

Modelling choices:

- The active layout id, which the source reads with `GetKeyboardLayout(0)`, is a parameter of every operation.
- A C# out-parameter keeps its value when the method returns false, so the results are records (flag, key, …), not options. For example, `TryConvertToKeyOnly` for a key that needs Shift returns false but still leaves the base key in `key`. The model keeps that.
- `KeyboardMap` is a class, not a value, so "rebuilt" can be stated as `fresh` and "the same map" as object identity.

## Model

| member | source | states |
|---|---|---|
| KeyUtil.KeyUtil.GetOrCreateKeyboardMap | VimWpf/KeyUtil.cs:9-18 | afterwards the cache holds a map whose id is the current layout id and that map is returned; it is a freshly built map (and the build count rises by one) exactly when the cache was empty or built for another id, otherwise the same object as before and nothing is built |
| KeyUtil.NeedsRebuild | VimWpf/KeyUtil.cs:12 | a rebuild happens exactly when the cache does not already hold a map for the current id |
| KeyUtil.CacheAfter | VimWpf/KeyUtil.cs:12-17 | after any lookup the cache holds the current id, so a second lookup under the same id builds nothing |
| KeyUtil.RebuildsFollowLayoutSwitches | VimWpf/KeyUtil.cs:11-17 | over any sequence of lookups, the number of maps built is one per change of layout id between consecutive lookups, plus one if the first lookup found no map for its id |
| KeyUtil.RebuildsFromEmpty | VimWpf/KeyUtil.cs:7-17 | from the initial empty cache, a run of lookups builds exactly 1 + (number of layout switches) maps |
| KeyUtil.SteadyLayoutNeverRebuilds | VimWpf/KeyUtil.cs:12-15 | while the layout id stays the one the cache was built for, no map is built |
| KeyUtil.IsAltGr | VimWpf/KeyUtil.cs:37-40 | true iff Alt and Control are both set and Shift and Windows are both clear |
| KeyUtil.IsNonInputKey | VimWpf/KeyUtil.cs:50-65 | true exactly for the six Shift/Ctrl/Alt keys (WPF numbers 116-121) and System, false for every other key |
| KeyUtil.IsInputKey | VimWpf/KeyUtil.cs:67-70 | true exactly for the keys outside those seven |
| KeyUtil.NonInputKeysAreSeven | VimWpf/KeyUtil.cs:52-63 | the set of non-input keys is exactly {LeftAlt, LeftCtrl, LeftShift, RightAlt, RightCtrl, RightShift, System} and has seven elements |
| KeyUtil.CharacterAndWindowsKeysAreInputKeys | VimWpf/KeyUtil.cs:50-70 | the letters A-Z, the digits 0-9, Space and the two Windows keys are input keys |
| KeyUtil.KeyUtil.IsDeadKey | VimWpf/KeyUtil.cs:28-31 | refreshes the cache, then answers the current layout's dead-key test for the key with no modifiers |
| KeyUtil.CharLookupModifiers | VimWpf/KeyUtil.cs:74 | the modifiers sent to the map are never AltGr; they are "none" iff the caller passed none or AltGr, and otherwise they are the caller's modifiers unchanged |
| KeyUtil.AltGrLooksUpAsUnmodified | VimWpf/KeyUtil.cs:72-75 | for the same character, AltGr and no modifiers give the same KeyInput |
| KeyUtil.ExtendedAltGrIsPassedThrough | VimWpf/KeyUtil.cs:74 | Alt + Control with Shift or Windows added is passed to the map unchanged |
| KeyUtil.KeyUtil.CharAndModifiersToKeyInput | VimWpf/KeyUtil.cs:72-75 | refreshes the cache, then returns the current layout's KeyInput for the char under the collapsed modifiers |
| KeyUtil.KeyUtil.TryConvertToKeyInput | VimWpf/KeyUtil.cs:77-80 | refreshes the cache, then returns the current layout's key lookup (flag and out value) |
| KeyUtil.KeyUtil.TryConvertToKeyInputWithModifiers | VimWpf/KeyUtil.cs:82-85 | refreshes the cache, then returns the current layout's key-and-modifiers lookup (flag and out value) |
| KeyUtil.StrictKey | VimWpf/KeyUtil.cs:91-95 | the strict conversion succeeds iff the lossy one succeeds and the lookup needs no modifiers; its key is the lossy conversion's key even on failure; when it succeeds it equals the lossy result |
| KeyUtil.LossyKey | VimWpf/KeyUtil.cs:102-106 | the lossy conversion reports the lookup's success flag and key and drops the modifiers it required |
| KeyUtil.LossyKeyForgetsModifiers | VimWpf/KeyUtil.cs:102-106 | the lossy conversion gives the same result whatever modifiers the lookup needed, while the strict conversion tells an unmodified chord from a modified one |
| KeyUtil.ShiftedKeyConversions | VimWpf/KeyUtil.cs:91-113 | for a Vim key that needs Shift + N: the strict conversion fails, the lossy one gives N, the three-output conversion reports Shift |
| KeyUtil.KeyUtil.TryConvertToKeyOnly | VimWpf/KeyUtil.cs:91-95 | goes through the three-output conversion, so the cache is refreshed once; the result is the strict conversion of the current layout's reverse lookup |
| KeyUtil.KeyUtil.TryConvertToKey | VimWpf/KeyUtil.cs:102-106 | goes through the three-output conversion; the result is the lossy conversion of the current layout's reverse lookup |
| KeyUtil.KeyUtil.TryConvertToKeyWithModifiers | VimWpf/KeyUtil.cs:111-114 | refreshes the cache, then returns the current layout's reverse lookup: flag, key and modifiers |

## Left out

- `NativeMethods.GetKeyboardLayout(0)` is a Win32 call. The layout id it returns is a parameter of each operation.
- `KeyboardMap` is not part of this model: its construction from a layout, dead-key detection, its tables and any tie-break between chords. Its answers are uninterpreted functions of the layout id. So no round trip between `TryConvertToKeyInput` and `TryConvertToKeyOnly` is stated: `KeyUtil` does not promise one.
- `ConvertToKeyModifiers` only passes its argument on to `KeyboardMap.ConvertToKeyModifiers`, which is not part of this model. The Vim core's `KeyModifiers` type is therefore not modelled either.
- `TryConvertToKeyInput` (one argument): the model does not assume that the map's one-argument lookup equals its lookup with no modifiers, because that code is not shown. The two lookups are separate uninterpreted functions.
- The static field `_keyboardMap` has no lock. The model covers single-threaded use only.
- WPF and Vim types appear only as a numbered key enumeration, a 4-bit modifier set and opaque values. `Key` keeps WPF's numbering but names only the keys the model mentions.
