# Calculator input accumulator

A model of the state machine behind two browser calculator scripts:
`calculator.js` (the plain variant) and `ClaudeCalculator/src/js/calculator.js`
(the richer variant with sound, a sign toggle and four unary operations).
Both keep the typed expression `currentInput`, the flag `shouldResetDisplay`
("the next digit starts a new number"), the display text `display.value`, the
index of the current colour theme and, in the richer variant, the sound flag.
Every button and key press changes these globals in place.

Layout:

- `accumulator.dfy`, module `Accumulator`: the accumulator state as a value
  (`State(input, reset, shown)`), each transition as a pure function
  (`Append`, `Clear`, `DeleteLast`, `ToggleSign`, `Unary`, `Reciprocal`,
  `Calculate`), and the lemmas about them.
- `keys.dfy`, module `Keys`: the keydown tables of both variants. They include
  the JavaScript string comparison `key >= '0' && key <= '9'` exactly as
  written. A `Run` of keypresses is also defined here.
- `preferences.dfy`, module `Preferences`: the theme list and its index
  arithmetic, the sound flag, and the browser's key-value store. The store is
  a `map` from key to text.
- `basic_calculator.dfy` and `claude_calculator.dfy`: one class per script.
  Its fields are the script's globals. Its methods update them in place and
  are proved against the pure functions. `Valid()` includes the invariant
  `Coherent`: the display shows the input, or else it shows `"Error"` over an
  empty input with a pending reset.

The arithmetic is not modelled. This covers the dynamic `eval`,
`parseFloat`, `/ 100`, `Math.sqrt`, `x * x`, `1 / x` and number printing.
Each computation is a function-typed parameter instead. The evaluator returns
`Threw` or `Returned(finite, text)`. Each unary operation returns `Ok(text)`
or `Fail`, and `Fail` stands for the `catch` branch. The negativity test of
`squareRoot` belongs to its oracle, since it depends on float parsing.
Only the exact-text guards are modelled. These are `""` for every
computation, and `""` or `"0"` for `reciprocal`.

`clearDisplay` leaves `shouldResetDisplay` untouched in both scripts, so after
a result a clear followed by a digit still starts from nothing
(`EditsKeepResetFlag`, `ClearThenAppend`).

`toggleSign` applied twice does not restore `"-"`, `"-0"` or an input that
starts with `--`; on every other input it does (`ToggleSignTwiceRestoresIff`).

## Model

| member | source | states |
|---|---|---|
| Accumulator.AppendStartsAfreshOrExtends | calculator.js:28-36 | appending gives the token after the old input, or the token alone when a reset was pending; the flag is then false and the display equals the input |
| Accumulator.AppendAllConcatenates | ClaudeCalculator/src/js/calculator.js:192-199 | a run of appends leaves the tokens, concatenated, after the old input (or after nothing when a reset was pending); the flag ends false and the display equals the input |
| Accumulator.EditsKeepResetFlag | ClaudeCalculator/src/js/calculator.js:209-248 | clearDisplay, deleteLast and toggleSign never change shouldResetDisplay |
| Accumulator.ClearThenAppend | ClaudeCalculator/src/js/calculator.js:209-211 | clear empties input and display; the next append yields exactly its token, with the flag false |
| Accumulator.DropLast | calculator.js:44 | `slice(0, -1)` returns a prefix one character shorter, or "" on "" |
| Accumulator.DeleteLastDropsOne | calculator.js:43-46 | on non-empty input, deleteLast removes exactly the last character and the display shows the rest |
| Accumulator.DeleteLastOnEmpty | ClaudeCalculator/src/js/calculator.js:215-217 | on empty input deleteLast keeps the input "" and blanks the display (as clear does); doing it twice is the same as once |
| Accumulator.BackspaceAfterResult | ClaudeCalculator/src/js/calculator.js:215-217 | after a result, backspace keeps the pending reset, so the next append starts afresh with just its token |
| Accumulator.ToggleSignInvolution | ClaudeCalculator/src/js/calculator.js:238-246 | on input other than "" and "0" with no leading '-', toggleSign prepends '-', and a second toggle restores the input |
| Accumulator.ToggleSignTwiceRestoresIff | ClaudeCalculator/src/js/calculator.js:238-246 | two toggles restore the input if and only if it is not '-' followed by "", "0" or another '-' |
| Accumulator.EmptyInputGuards | ClaudeCalculator/src/js/calculator.js:221-314 | on empty input percentage, squareRoot, square and calculate leave the state unchanged, while reciprocal enters the error state (display "Error", input "", flag true) |
| Accumulator.ReciprocalOfZeroText | ClaudeCalculator/src/js/calculator.js:293-295 | reciprocal of the exact text "0" enters the error state whatever the arithmetic says |
| Accumulator.UnaryOutcome | ClaudeCalculator/src/js/calculator.js:250-289 | past the guard, a unary operation fails exactly when its arithmetic fails; on success the printed result becomes input and display; both paths set the flag; reciprocal agrees with the others off "" and "0" |
| Accumulator.CalculateOutcome | ClaudeCalculator/src/js/calculator.js:312-350 | on non-empty input calculate errs exactly when the evaluator throws or returns a non-finite number; otherwise the printed number becomes input and display and the flag is set |
| Accumulator.CalculateSeesOnlyNormalized | calculator.js:52-53 | calculate consults the evaluator only on the input with every × replaced |
| Accumulator.Normalize | calculator.js:52 | the replacement keeps the length and changes each × to * and no other character |
| Accumulator.NormalizeRemovesTimes | ClaudeCalculator/src/js/calculator.js:316 | no × remains after the replacement |
| Accumulator.NormalizeFixesPlainText | ClaudeCalculator/src/js/calculator.js:316 | text without × is unchanged, so the replacement is idempotent |
| Accumulator.NormalizeDistributes | calculator.js:52 | the replacement works character by character, so it commutes with concatenation |
| Accumulator.TransitionsKeepCoherent | ClaudeCalculator/src/js/calculator.js:192-342 | every transition keeps the display equal to the input, or "Error" over an empty input with a pending reset |
| Keys.DigitRangeExactly | calculator.js:72 | `key >= '0' && key <= '9'` holds exactly for non-empty keys beginning with '0' to '8', and for "9" |
| Keys.SingleCharacterDigits | ClaudeCalculator/src/js/calculator.js:356 | a one-character key passes the digit test exactly when it is a digit |
| Keys.BasicAction | calculator.js:69-88 | the plain table appends the key itself for the digit range, '.', '+', '-', '*' and '/'; Enter and = calculate; Escape, c and C clear; Backspace deletes; every other key is ignored |
| Keys.RichAction | ClaudeCalculator/src/js/calculator.js:353-383 | the rich table maps '%' to percentage, s/S to squareRoot, q/Q to square, r/R to reciprocal and n/N to toggleSign, and appends only the key itself |
| Keys.RichExtendsBasic | ClaudeCalculator/src/js/calculator.js:353-383 | the rich table agrees with the plain one on every key the plain one handles, and adds exactly the nine unary-operation keys |
| Keys.UnknownKeysChangeNothing | calculator.js:69-88 | a key neither table handles leaves the state unchanged; the plain table consults only the evaluator |
| Keys.KeysKeepCoherent | ClaudeCalculator/src/js/calculator.js:353-383 | any run of keypresses, under either table, keeps the display coherent with the input |
| Keys.DigitsAfterResult | calculator.js:72-73 | typing digits after a result shows exactly those digits, with the flag false |
| Keys.DigitsExtend | ClaudeCalculator/src/js/calculator.js:356-357 | with no reset pending, typed digits are appended to the input |
| Preferences.NextTheme | calculator.js:22 | the next index stays within the three themes and wraps from the last to the first |
| Preferences.ThreeCyclesReturn | ClaudeCalculator/src/js/calculator.js:139 | one or two cycles change the theme; three cycles return to the starting theme |
| Preferences.IndexOf | calculator.js:11 | indexOf returns the first position holding the name |
| Preferences.SavedThemeIndex | calculator.js:9-12 | a saved theme is adopted only if it is in the list; otherwise the index is kept; the index stays within the list |
| Preferences.ApplyTheme | ClaudeCalculator/src/js/calculator.js:133-136 | applyTheme stores the theme's name under the theme key and leaves every other key alone |
| Preferences.ThemeRoundTrip | ClaudeCalculator/src/js/calculator.js:112-116 | the theme stored by applyTheme is the one initializeTheme adopts on the next load |
| Preferences.SoundRoundTrip | ClaudeCalculator/src/js/calculator.js:104-122 | the flag stored by toggleSound is the one initializeTheme adopts on the next load |
| BasicCalculator.Calculator.constructor | calculator.js:1-6 | at load the input is empty, nothing is shown, no reset is pending and the first theme is current |
| BasicCalculator.Calculator.InitializeTheme | calculator.js:8-14 | adopts a saved theme in the list, then stores the current theme; the index stays valid |
| BasicCalculator.Calculator.CycleTheme | calculator.js:21-24 | advances the index to the next theme and stores that theme |
| BasicCalculator.Calculator.AppendToDisplay | calculator.js:28-36 | updates the globals exactly as Append does and keeps the object invariant |
| BasicCalculator.Calculator.ClearDisplay | calculator.js:38-41 | updates the globals exactly as Clear does; the flag is not among the fields it may change |
| BasicCalculator.Calculator.DeleteLast | calculator.js:43-46 | updates the globals exactly as DeleteLast does; the flag is not among the fields it may change |
| BasicCalculator.Calculator.Calculate | calculator.js:48-67 | updates the globals exactly as Calculate does for the given evaluator |
| BasicCalculator.Calculator.KeyDown | calculator.js:69-89 | carries out the plain table's action for the key |
| ClaudeCalculator.Calculator.constructor | ClaudeCalculator/src/js/calculator.js:1-7 | at load the input is empty, nothing is shown, the first theme is current and sound is on |
| ClaudeCalculator.Calculator.ToggleSound | ClaudeCalculator/src/js/calculator.js:104-109 | negates the sound flag and stores it as "true" or "false" |
| ClaudeCalculator.Calculator.InitializeTheme | ClaudeCalculator/src/js/calculator.js:111-122 | adopts a saved theme in the list and stores the current one, then adopts a saved sound value |
| ClaudeCalculator.Calculator.CycleTheme | ClaudeCalculator/src/js/calculator.js:138-142 | advances the index to the next theme and stores that theme |
| ClaudeCalculator.Calculator.AppendToDisplay | ClaudeCalculator/src/js/calculator.js:192-199 | updates the globals exactly as Append does |
| ClaudeCalculator.Calculator.ClearDisplay | ClaudeCalculator/src/js/calculator.js:209-213 | updates the globals exactly as Clear does; the flag is not among the fields it may change |
| ClaudeCalculator.Calculator.DeleteLast | ClaudeCalculator/src/js/calculator.js:215-219 | updates the globals exactly as DeleteLast does; the flag is not among the fields it may change |
| ClaudeCalculator.Calculator.Percentage | ClaudeCalculator/src/js/calculator.js:221-236 | updates the globals as Unary does: a no-op on "", otherwise success or the error state |
| ClaudeCalculator.Calculator.ToggleSign | ClaudeCalculator/src/js/calculator.js:238-248 | updates the globals exactly as ToggleSign does; the flag is not among the fields it may change |
| ClaudeCalculator.Calculator.SquareRoot | ClaudeCalculator/src/js/calculator.js:250-270 | updates the globals as Unary does with the square-root oracle |
| ClaudeCalculator.Calculator.Square | ClaudeCalculator/src/js/calculator.js:272-289 | updates the globals as Unary does with the squaring oracle |
| ClaudeCalculator.Calculator.Reciprocal | ClaudeCalculator/src/js/calculator.js:291-310 | updates the globals as Reciprocal does: the error state on "" or "0", otherwise the oracle's outcome |
| ClaudeCalculator.Calculator.Calculate | ClaudeCalculator/src/js/calculator.js:312-351 | updates the globals exactly as Calculate does for the given evaluator |
| ClaudeCalculator.Calculator.KeyDown | ClaudeCalculator/src/js/calculator.js:353-384 | carries out the rich table's action for the key |

## Left out

- Sound synthesis (`playSound`, the audio context, and the tone picked inside `appendToDisplay`). It is floating-point audio output; the model assumes it does not throw (see the next line).
- ClaudeCalculator.Calculator.Calculate: the effects inside the `try` blocks after the success assignments (`playSound` in `percentage`, `squareRoot`, `square`, `reciprocal` and `calculate`; the display flash and `createParticles()` in `calculate`) are assumed not to throw. If one did, the `catch` would overwrite a successful result with the error state; `Settle`, `Unary`, `Reciprocal` and `Calculate` do not show that path.
- Particles, button animations, the display flash and the shake animation. They are DOM effects driven by timers and `Math.random`.
- Event-listener wiring, the touch and context-menu handlers, `event.preventDefault`, and the delayed refresh of the sound button's icon. The model has no document.
- The theme attribute set on the document by `applyTheme`. Only the stored theme name is modelled.
- Durable persistence. The browser store is a `map` field that the methods read and write. What survives a page reload is stated by `ThemeRoundTrip` and `SoundRoundTrip`, not modelled as a process.
- All arithmetic and number printing (`eval`, `parseFloat`, `/ 100`, `Math.sqrt`, `*`, `1 /`, `toString`, `isFinite`). These are parameters of the model. Properties that depend on them are not stated, for example "calculating a bare numeral gives that numeral back" or "`reciprocal` of `"0.0"` shows `Infinity`".
- Accumulator.UnaryOutcome: in JavaScript the arithmetic of `percentage`, `square` and `reciprocal` past its guard never throws. It yields `NaN` or `Infinity` as text instead. The oracles may still return `Fail`, because the `catch` branches are written.
- Strings are sequences of Unicode scalar values, not of UTF-16 code units. `slice(0, -1)` on text that ends in a character outside the Basic Multilingual Plane behaves differently in the two. The keys and buttons only produce ASCII text and `×`.
- BasicCalculator.Calculator.constructor: the page's initial `display.value` comes from the HTML, which is not part of this model. It is taken to be empty.
- ClaudeCalculator.Calculator.constructor: the page's initial `display.value` comes from the HTML, which is not part of this model. It is taken to be empty.
