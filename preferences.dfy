/** The preference state of both scripts: the index of the current theme in
    the fixed theme list, the sound flag of the richer script, and the browser's
    key-value store in which both are kept between page loads. */
module Preferences {

  /** What `localStorage.getItem` returns: a stored text, or null. */
  datatype Option<T> = None | Some(value: T)

  const ThemeNames: seq<string> := ["dark", "light", "neon"]
  const ThemeKey: string := "calculatorTheme"
  const SoundKey: string := "calculatorSoundEnabled"

  /** `localStorage.getItem(key)`. */
  function Lookup(store: map<string, string>, key: string): Option<string> {
    if key in store then Some(store[key]) else None
  }

  /** cycleTheme's step `(i + 1) % themes.length`: the next theme, wrapping
      from the last back to the first. */
  function NextTheme(i: nat): (j: nat)
    requires i < |ThemeNames|
    ensures j < |ThemeNames|
    ensures j == if i + 1 == |ThemeNames| then 0 else i + 1
  {
    (i + 1) % |ThemeNames|
  }

  /** Three steps visit every theme once and come back to the start. */
  lemma ThreeCyclesReturn(i: nat)
    requires i < |ThemeNames|
    ensures NextTheme(i) != i && NextTheme(NextTheme(i)) != i
    ensures NextTheme(NextTheme(NextTheme(i))) == i
  {
  }

  /** `themes.indexOf(name)` for a name in the list: its first position. */
  function IndexOf(names: seq<string>, name: string): (k: nat)
    requires name in names
    ensures k < |names| && names[k] == name
    ensures forall j :: 0 <= j < k ==> names[j] != name
  {
    if names[0] == name then 0 else 1 + IndexOf(names[1..], name)
  }

  /** initializeTheme's choice: a saved, non-empty name in the list selects its
      index; anything else keeps the current index. */
  function SavedThemeIndex(current: nat, saved: Option<string>): (k: nat)
    requires current < |ThemeNames|
    ensures k < |ThemeNames|
    ensures saved.Some? && saved.value in ThemeNames ==> ThemeNames[k] == saved.value
    ensures !(saved.Some? && saved.value in ThemeNames) ==> k == current
  {
    if saved.Some? && saved.value != "" && saved.value in ThemeNames
    then IndexOf(ThemeNames, saved.value)
    else current
  }

  /** applyTheme's write: the theme's name under the theme key. */
  function ApplyTheme(store: map<string, string>, i: nat): (s: map<string, string>)
    requires i < |ThemeNames|
    ensures s.Keys == store.Keys + {ThemeKey}
    ensures forall k :: k in store && k != ThemeKey ==> s[k] == store[k]
    ensures s[ThemeKey] == ThemeNames[i]
  {
    store[ThemeKey := ThemeNames[i]]
  }

  /** A theme written by applyTheme is the one the next page load adopts. */
  lemma ThemeRoundTrip(store: map<string, string>, i: nat, current: nat)
    requires i < |ThemeNames| && current < |ThemeNames|
    ensures SavedThemeIndex(current, Lookup(ApplyTheme(store, i), ThemeKey)) == i
  {
  }

  /** `b.toString()` for a boolean. */
  function BoolText(b: bool): string {
    if b then "true" else "false"
  }

  /** The richer initializeTheme's sound choice: a saved value turns sound on
      exactly when it is the text "true"; no saved value keeps the flag. */
  function SavedSound(current: bool, saved: Option<string>): bool {
    if saved.Some? then saved.value == "true" else current
  }

  /** A sound flag written by toggleSound is the one the next page load adopts. */
  lemma SoundRoundTrip(store: map<string, string>, on: bool, current: bool)
    ensures SavedSound(current, Lookup(store[SoundKey := BoolText(on)], SoundKey)) == on
  {
  }
}
