/** The keydown handlers of both scripts: a fixed table from the key name a
    keyboard event reports to one accumulator operation, or to nothing. */
module Keys {
  import opened Accumulator

  /** The operation a key selects. */
  datatype Action =
    | Insert(token: string)
    | Evaluate
    | ClearAll
    | Backspace
    | Percent
    | SquareRoot
    | Square
    | Invert
    | Negate
    | Ignore

  /** JavaScript's `a <= b` on strings: lexicographic, a prefix comes first. */
  predicate LessEq(a: string, b: string)
    decreases |a|
  {
    a == "" || (b != "" && (a[0] < b[0] || (a[0] == b[0] && LessEq(a[1..], b[1..]))))
  }

  /** The handler's first test, `key >= '0' && key <= '9'`, as written. */
  predicate InDigitRange(key: string) {
    LessEq("0", key) && LessEq(key, "9")
  }

  /** The string comparison admits exactly the non-empty keys that begin with
      '0' to '8', and "9" itself. */
  lemma DigitRangeExactly(key: string)
    ensures InDigitRange(key) <==> key != "" && ('0' <= key[0] < '9' || key == "9")
  {
    if key != "" {
      assert LessEq("0", key) <==> '0' <= key[0] by {
        assert "0"[1..] == "";
      }
      if key[0] == '9' {
        assert LessEq(key, "9") <==> LessEq(key[1..], "") by {
          assert "9"[0] == '9' && "9"[1..] == "";
        }
        assert key[1..] == "" <==> key == "9" by {
          assert key == [key[0]] + key[1..];
        }
      }
    }
  }

  /** Keys of one character pass the digit test exactly when they are digits. */
  lemma SingleCharacterDigits(c: char)
    ensures InDigitRange([c]) <==> '0' <= c <= '9'
  {
    DigitRangeExactly([c]);
  }

  /** The keydown table of calculator.js. */
  function BasicAction(key: string): (a: Action)
    ensures a.Insert? ==> a.token == key
    ensures a.Insert? || a.Evaluate? || a.ClearAll? || a.Backspace? || a.Ignore?
    ensures a.Insert? <==> InDigitRange(key) || key in [".", "+", "-", "*", "/"]
    ensures a.Evaluate? <==> key == "Enter" || key == "="
    ensures a.ClearAll? <==> key == "Escape" || key == "c" || key == "C"
    ensures a.Backspace? <==> key == "Backspace"
  {
    if InDigitRange(key) || key == "." then Insert(key)
    else if key == "+" || key == "-" then Insert(key)
    else if key == "*" then Insert("*")
    else if key == "/" then Insert("/")
    else if key == "Enter" || key == "=" then Evaluate
    else if key == "Escape" || key == "c" || key == "C" then ClearAll
    else if key == "Backspace" then Backspace
    else Ignore
  }

  /** The keydown table of the richer script: the same keys, then '%' and the
      letters s, q, r, n in either case for the unary operations. */
  function RichAction(key: string): (a: Action)
    ensures a.Insert? ==> a.token == key
    ensures a.Percent? <==> key == "%"
    ensures a.SquareRoot? <==> key == "s" || key == "S"
    ensures a.Square? <==> key == "q" || key == "Q"
    ensures a.Invert? <==> key == "r" || key == "R"
    ensures a.Negate? <==> key == "n" || key == "N"
  {
    if InDigitRange(key) || key == "." then Insert(key)
    else if key == "+" || key == "-" then Insert(key)
    else if key == "*" then Insert("*")
    else if key == "/" then Insert("/")
    else if key == "Enter" || key == "=" then Evaluate
    else if key == "Escape" || key == "c" || key == "C" then ClearAll
    else if key == "Backspace" then Backspace
    else if key == "%" then Percent
    else if key == "s" || key == "S" then SquareRoot
    else if key == "q" || key == "Q" then Square
    else if key == "r" || key == "R" then Invert
    else if key == "n" || key == "N" then Negate
    else Ignore
  }

  /** The richer table agrees with the basic one on every key the basic one
      handles, and adds exactly the nine keys of the unary operations. */
  lemma RichExtendsBasic(key: string)
    ensures !BasicAction(key).Ignore? ==> RichAction(key) == BasicAction(key)
    ensures BasicAction(key).Ignore? && !RichAction(key).Ignore?
      <==> key in ["%", "s", "S", "q", "Q", "r", "R", "n", "N"]
  {
  }

  /** Carries out an action on the accumulator. */
  function Step(st: State, a: Action, ar: Arithmetic): State {
    match a
    case Insert(t) => Append(st, t)
    case Evaluate => Calculate(st, ar.eval)
    case ClearAll => Clear(st)
    case Backspace => DeleteLast(st)
    case Percent => Unary(st, ar.percent)
    case SquareRoot => Unary(st, ar.sqrt)
    case Square => Unary(st, ar.square)
    case Invert => Reciprocal(st, ar.reciprocal)
    case Negate => ToggleSign(st)
    case Ignore => st
  }

  /** Keys neither table knows leave the state as it was; the basic table
      never consults the unary arithmetic. */
  lemma UnknownKeysChangeNothing(st: State, key: string, ar: Arithmetic, ar2: Arithmetic)
    ensures BasicAction(key).Ignore? ==> Step(st, BasicAction(key), ar) == st
    ensures RichAction(key).Ignore? ==> Step(st, RichAction(key), ar) == st
    ensures ar.eval == ar2.eval ==> Step(st, BasicAction(key), ar) == Step(st, BasicAction(key), ar2)
  {
  }

  /** Whatever keys are pressed, the display stays coherent with the input. */
  lemma {:induction false} KeysKeepCoherent(st: State, keys: seq<string>, ar: Arithmetic, rich: bool)
    requires Coherent(st)
    decreases |keys|
    ensures Coherent(Run(st, keys, ar, rich))
  {
    if keys != [] {
      var a := if rich then RichAction(keys[0]) else BasicAction(keys[0]);
      TransitionsKeepCoherent(st, if a.Insert? then a.token else "", ar.percent, ar.eval);
      TransitionsKeepCoherent(st, "", ar.sqrt, ar.eval);
      TransitionsKeepCoherent(st, "", ar.square, ar.eval);
      TransitionsKeepCoherent(st, "", ar.reciprocal, ar.eval);
      KeysKeepCoherent(Step(st, a, ar), keys[1..], ar, rich);
    }
  }

  /** A sequence of keydown events handled by one of the two tables. */
  function Run(st: State, keys: seq<string>, ar: Arithmetic, rich: bool): State
    decreases |keys|
  {
    if keys == [] then st
    else
      var a := if rich then RichAction(keys[0]) else BasicAction(keys[0]);
      Run(Step(st, a, ar), keys[1..], ar, rich)
  }

  /** Typing digits (one character each) shows exactly those digits after a
      result, whichever table handles them. */
  lemma {:induction false} DigitsAfterResult(st: State, digits: string, ar: Arithmetic, rich: bool)
    requires st.reset && digits != ""
    requires forall i :: 0 <= i < |digits| ==> '0' <= digits[i] <= '9'
    ensures Run(st, Keystrokes(digits), ar, rich) == State(digits, false, digits)
  {
    var first := Step(st, Insert([digits[0]]), ar);
    SingleCharacterDigits(digits[0]);
    assert first == State([digits[0]], false, [digits[0]]);
    assert Keystrokes(digits)[1..] == Keystrokes(digits[1..]);
    if |digits| > 1 {
      DigitsExtend(first, digits[1..], ar, rich);
      assert [digits[0]] + digits[1..] == digits;
    }
  }

  /** Without a pending reset, typed digits extend the input. */
  lemma {:induction false} DigitsExtend(st: State, digits: string, ar: Arithmetic, rich: bool)
    requires !st.reset
    requires forall i :: 0 <= i < |digits| ==> '0' <= digits[i] <= '9'
    decreases |digits|
    ensures Run(st, Keystrokes(digits), ar, rich) == if digits == "" then st
      else State(st.input + digits, false, st.input + digits)
  {
    if digits != "" {
      var first := Step(st, Insert([digits[0]]), ar);
      SingleCharacterDigits(digits[0]);
      assert first == State(st.input + [digits[0]], false, st.input + [digits[0]]);
      assert Keystrokes(digits)[1..] == Keystrokes(digits[1..]);
      DigitsExtend(first, digits[1..], ar, rich);
      assert st.input + [digits[0]] + digits[1..] == st.input + digits;
    }
  }

  /** One key name per character, as pressing the characters in turn reports. */
  function Keystrokes(s: string): seq<string> {
    seq(|s|, i requires 0 <= i < |s| => [s[i]])
  }
}
