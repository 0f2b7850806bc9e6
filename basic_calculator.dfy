/** calculator.js: the plain script. Its globals `currentInput`,
    `shouldResetDisplay`, `display.value` and `currentThemeIndex`, together
    with the browser's preference store, are the fields of one object whose
    methods update them in place. */
module BasicCalculator {
  import Acc = Accumulator
  import Keys
  import opened Preferences

  class Calculator {
    var input: string                // currentInput
    var reset: bool                  // shouldResetDisplay
    var shown: string                // display.value
    var themeIndex: nat              // currentThemeIndex
    var store: map<string, string>   // localStorage

    /** The accumulator part of the state. */
    function Snapshot(): Acc.State
      reads this
    {
      Acc.State(input, reset, shown)
    }

    ghost predicate Valid()
      reads this
    {
      themeIndex < |ThemeNames| && Acc.Coherent(Snapshot())
    }

    /** Page load: nothing typed, the first theme, whatever the store holds. */
    constructor (saved: map<string, string>)
      ensures Valid()
      ensures Snapshot() == Acc.Initial && themeIndex == 0 && store == saved
    {
      input, reset, shown := "", false, "";
      themeIndex := 0;
      store := saved;
    }

    /** initializeTheme: adopt a saved theme that is in the list, then apply
        (and so store) the current one. */
    method InitializeTheme()
      requires Valid()
      modifies this`themeIndex, this`store
      ensures Valid()
      ensures themeIndex == SavedThemeIndex(old(themeIndex), Lookup(old(store), ThemeKey))
      ensures store == ApplyTheme(old(store), themeIndex)
    {
      var savedTheme := Lookup(store, ThemeKey);
      if savedTheme.Some? && savedTheme.value != "" && savedTheme.value in ThemeNames {
        themeIndex := IndexOf(ThemeNames, savedTheme.value);
      }
      store := store[ThemeKey := ThemeNames[themeIndex]];
    }

    /** cycleTheme: step to the next theme and apply it. */
    method CycleTheme()
      requires Valid()
      modifies this`themeIndex, this`store
      ensures Valid()
      ensures themeIndex == NextTheme(old(themeIndex))
      ensures store == ApplyTheme(old(store), themeIndex)
    {
      themeIndex := (themeIndex + 1) % |ThemeNames|;
      store := store[ThemeKey := ThemeNames[themeIndex]];
    }

    /** appendToDisplay. */
    method AppendToDisplay(value: string)
      requires Valid()
      modifies this`input, this`reset, this`shown
      ensures Valid()
      ensures Snapshot() == Acc.Append(old(Snapshot()), value)
    {
      if reset {
        input := "";
        reset := false;
      }
      input := input + value;
      shown := input;
    }

    /** clearDisplay. */
    method ClearDisplay()
      requires Valid()
      modifies this`input, this`shown
      ensures Valid()
      ensures Snapshot() == Acc.Clear(old(Snapshot()))
    {
      input := "";
      shown := "";
    }

    /** deleteLast. */
    method DeleteLast()
      requires Valid()
      modifies this`input, this`shown
      ensures Valid()
      ensures Snapshot() == Acc.DeleteLast(old(Snapshot()))
    {
      input := Acc.DropLast(input);
      shown := input;
    }

    /** calculate, with the evaluator as a parameter. */
    method Calculate(eval: string -> Acc.Evaluation)
      requires Valid()
      modifies this`input, this`reset, this`shown
      ensures Valid()
      ensures Snapshot() == Acc.Calculate(old(Snapshot()), eval)
    {
      if input == "" {
        return;
      }
      var expression := Acc.Normalize(input);
      var result := eval(expression);
      if result.Returned? && result.finite {
        shown := result.text;
        input := result.text;
        reset := true;
      } else {
        shown := Acc.ErrorText;
        input := "";
        reset := true;
      }
    }

    /** The keydown listener. */
    method KeyDown(key: string, ar: Acc.Arithmetic)
      requires Valid()
      modifies this`input, this`reset, this`shown
      ensures Valid()
      ensures Snapshot() == Keys.Step(old(Snapshot()), Keys.BasicAction(key), ar)
    {
      if Keys.InDigitRange(key) || key == "." {
        AppendToDisplay(key);
      } else if key == "+" || key == "-" {
        AppendToDisplay(key);
      } else if key == "*" {
        AppendToDisplay("*");
      } else if key == "/" {
        AppendToDisplay("/");
      } else if key == "Enter" || key == "=" {
        Calculate(ar.eval);
      } else if key == "Escape" || key == "c" || key == "C" {
        ClearDisplay();
      } else if key == "Backspace" {
        DeleteLast();
      }
    }
  }
}
