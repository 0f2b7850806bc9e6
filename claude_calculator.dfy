/** ClaudeCalculator/src/js/calculator.js: the richer script. Beside the
    plain script's globals it keeps `soundEnabled`, and it adds the sign toggle
    and the four unary operations. Sounds, particles and animations are left
    out; the globals are the fields of one object updated in place. */
module ClaudeCalculator {
  import Acc = Accumulator
  import Keys
  import opened Preferences

  class Calculator {
    var input: string                // currentInput
    var reset: bool                  // shouldResetDisplay
    var shown: string                // display.value
    var themeIndex: nat              // currentThemeIndex
    var soundEnabled: bool           // soundEnabled
    var store: map<string, string>   // localStorage

    /** The accumulator part of the state. */
    function Snapshot(): Acc.State
      reads this
    {
      Acc.State(input, reset, shown)
    }

    ghost predicate Valid()
      reads this
    {
      themeIndex < |ThemeNames| && Acc.Coherent(Snapshot())
    }

    /** Page load: nothing typed, the first theme, sound on, whatever the store holds. */
    constructor (saved: map<string, string>)
      ensures Valid()
      ensures Snapshot() == Acc.Initial && themeIndex == 0 && soundEnabled && store == saved
    {
      input, reset, shown := "", false, "";
      themeIndex := 0;
      soundEnabled := true;
      store := saved;
    }

    /** toggleSound: flip the flag and store it as "true" or "false". */
    method ToggleSound()
      modifies this`soundEnabled, this`store
      ensures soundEnabled == !old(soundEnabled)
      ensures store == old(store)[SoundKey := BoolText(soundEnabled)]
    {
      soundEnabled := !soundEnabled;
      store := store[SoundKey := if soundEnabled then "true" else "false"];
    }

    /** initializeTheme: adopt a saved theme that is in the list and apply the
        current one, then adopt a saved sound preference if there is one. */
    method InitializeTheme()
      requires Valid()
      modifies this`themeIndex, this`soundEnabled, this`store
      ensures Valid()
      ensures themeIndex == SavedThemeIndex(old(themeIndex), Lookup(old(store), ThemeKey))
      ensures store == ApplyTheme(old(store), themeIndex)
      ensures soundEnabled == SavedSound(old(soundEnabled), Lookup(old(store), SoundKey))
    {
      var savedTheme := Lookup(store, ThemeKey);
      if savedTheme.Some? && savedTheme.value != "" && savedTheme.value in ThemeNames {
        themeIndex := IndexOf(ThemeNames, savedTheme.value);
      }
      store := store[ThemeKey := ThemeNames[themeIndex]];
      var savedSound := Lookup(store, SoundKey);
      if savedSound.Some? {
        soundEnabled := savedSound.value == "true";
      }
    }

    /** cycleTheme: step to the next theme and apply it. */
    method CycleTheme()
      requires Valid()
      modifies this`themeIndex, this`store
      ensures Valid()
      ensures themeIndex == NextTheme(old(themeIndex))
      ensures store == ApplyTheme(old(store), themeIndex)
    {
      themeIndex := (themeIndex + 1) % |ThemeNames|;
      store := store[ThemeKey := ThemeNames[themeIndex]];
    }

    /** appendToDisplay. */
    method AppendToDisplay(value: string)
      requires Valid()
      modifies this`input, this`reset, this`shown
      ensures Valid()
      ensures Snapshot() == Acc.Append(old(Snapshot()), value)
    {
      if reset {
        input := "";
        reset := false;
      }
      input := input + value;
      shown := input;
    }

    /** clearDisplay. */
    method ClearDisplay()
      requires Valid()
      modifies this`input, this`shown
      ensures Valid()
      ensures Snapshot() == Acc.Clear(old(Snapshot()))
    {
      input := "";
      shown := "";
    }

    /** deleteLast. */
    method DeleteLast()
      requires Valid()
      modifies this`input, this`shown
      ensures Valid()
      ensures Snapshot() == Acc.DeleteLast(old(Snapshot()))
    {
      input := Acc.DropLast(input);
      shown := input;
    }

    /** The shared try/catch tail of the unary operations. */
    method Settle(outcome: Acc.Outcome)
      modifies this`input, this`reset, this`shown
      ensures Snapshot() == Acc.Settle(outcome)
    {
      if outcome.Ok? {
        shown := outcome.text;
        input := outcome.text;
        reset := true;
      } else {
        shown := Acc.ErrorText;
        input := "";
        reset := true;
      }
    }

    /** percentage, with `parseFloat(x) / 100` and its printing as a parameter. */
    method Percentage(percent: string -> Acc.Outcome)
      requires Valid()
      modifies this`input, this`reset, this`shown
      ensures Valid()
      ensures Snapshot() == Acc.Unary(old(Snapshot()), percent)
    {
      if input == "" {
        return;
      }
      Settle(percent(input));
    }

    /** toggleSign. */
    method ToggleSign()
      requires Valid()
      modifies this`input, this`shown
      ensures Valid()
      ensures Snapshot() == Acc.ToggleSign(old(Snapshot()))
    {
      if input == "" || input == "0" {
        return;
      }
      if |input| > 0 && input[0] == '-' {
        input := input[1..];
      } else {
        input := "-" + input;
      }
      shown := input;
    }

    /** squareRoot, with the negativity test and `Math.sqrt` as a parameter. */
    method SquareRoot(sqrt: string -> Acc.Outcome)
      requires Valid()
      modifies this`input, this`reset, this`shown
      ensures Valid()
      ensures Snapshot() == Acc.Unary(old(Snapshot()), sqrt)
    {
      if input == "" {
        return;
      }
      Settle(sqrt(input));
    }

    /** square, with `value * value` as a parameter. */
    method Square(square: string -> Acc.Outcome)
      requires Valid()
      modifies this`input, this`reset, this`shown
      ensures Valid()
      ensures Snapshot() == Acc.Unary(old(Snapshot()), square)
    {
      if input == "" {
        return;
      }
      Settle(square(input));
    }

    /** reciprocal, with `1 / value` as a parameter. */
    method Reciprocal(reciprocal: string -> Acc.Outcome)
      requires Valid()
      modifies this`input, this`reset, this`shown
      ensures Valid()
      ensures Snapshot() == Acc.Reciprocal(old(Snapshot()), reciprocal)
    {
      if input == "" || input == "0" {
        Settle(Acc.Fail);
        return;
      }
      Settle(reciprocal(input));
    }

    /** calculate, with the evaluator as a parameter. */
    method Calculate(eval: string -> Acc.Evaluation)
      requires Valid()
      modifies this`input, this`reset, this`shown
      ensures Valid()
      ensures Snapshot() == Acc.Calculate(old(Snapshot()), eval)
    {
      if input == "" {
        return;
      }
      var expression := Acc.Normalize(input);
      var result := eval(expression);
      if result.Returned? && result.finite {
        shown := result.text;
        input := result.text;
        reset := true;
      } else {
        shown := Acc.ErrorText;
        input := "";
        reset := true;
      }
    }

    /** The keydown listener. */
    method KeyDown(key: string, ar: Acc.Arithmetic)
      requires Valid()
      modifies this`input, this`reset, this`shown
      ensures Valid()
      ensures Snapshot() == Keys.Step(old(Snapshot()), Keys.RichAction(key), ar)
    {
      if Keys.InDigitRange(key) || key == "." {
        AppendToDisplay(key);
      } else if key == "+" || key == "-" {
        AppendToDisplay(key);
      } else if key == "*" {
        AppendToDisplay("*");
      } else if key == "/" {
        AppendToDisplay("/");
      } else if key == "Enter" || key == "=" {
        Calculate(ar.eval);
      } else if key == "Escape" || key == "c" || key == "C" {
        ClearDisplay();
      } else if key == "Backspace" {
        DeleteLast();
      } else if key == "%" {
        Percentage(ar.percent);
      } else if key == "s" || key == "S" {
        SquareRoot(ar.sqrt);
      } else if key == "q" || key == "Q" {
        Square(ar.square);
      } else if key == "r" || key == "R" {
        Reciprocal(ar.reciprocal);
      } else if key == "n" || key == "N" {
        ToggleSign();
      }
    }
  }
}
