/** The expression accumulator that both calculator scripts share: the typed
    expression (`currentInput`), the "start afresh on the next input" flag
    (`shouldResetDisplay`) and the text in the display field (`display.value`).
    Every transition is a pure function from the old state to the new one; the
    scripts' classes in BasicCalculator and ClaudeCalculator are proved against
    these functions. The arithmetic itself (a dynamic evaluator, float parsing,
    square roots, number printing) is not modelled: it enters as oracle
    functions that either produce the printed result or fail. */
module Accumulator {

  /** What a unary arithmetic step produced: its result as printed, or a thrown error. */
  datatype Outcome = Ok(text: string) | Fail

  /** What the dynamic evaluator did with an expression: it threw, or it returned
      a number, finite or not, together with that number's printed form. */
  datatype Evaluation = Threw | Returned(finite: bool, text: string)

  /** The arithmetic the scripts delegate to: the expression evaluator and the
      four unary operations (percentage, square root, square, reciprocal), each
      given the raw input text. */
  datatype Arithmetic = Arithmetic(
    eval: string -> Evaluation,
    percent: string -> Outcome,
    sqrt: string -> Outcome,
    square: string -> Outcome,
    reciprocal: string -> Outcome)

  /** input is `currentInput`, reset is `shouldResetDisplay`, shown is `display.value`. */
  datatype State = State(input: string, reset: bool, shown: string)

  const ErrorText: string := "Error"

  /** The state at page load: nothing typed, nothing shown, no pending reset. */
  const Initial: State := State("", false, "")

  /** The state every error path leaves behind. */
  const ErrorState: State := State("", true, ErrorText)

  /** The multiplication sign U+00D7 that the on-screen keypad types. */
  const Times: char := '\U{00D7}'

  /** The display mirrors the input, except after an error, when it shows the
      error marker over an empty input that waits for a fresh start. */
  predicate Coherent(st: State) {
    st.shown == st.input || (st.shown == ErrorText && st.input == "" && st.reset)
  }

  /** A state reached by a completed computation: the next input starts afresh,
      and the display shows either the result or the error marker. */
  predicate Settled(st: State) {
    st.reset && (st == ErrorState || st.shown == st.input)
  }

  // ---------------------------------------------------------------------------
  // Editing the expression
  // ---------------------------------------------------------------------------

  /** appendToDisplay: a pending reset empties the input first and is consumed;
      the token is then concatenated and the display shows the new input. */
  function Append(st: State, token: string): State {
    var base := if st.reset then "" else st.input;
    State(base + token, false, base + token)
  }

  /** clearDisplay: empties input and display; the reset flag is left alone. */
  function Clear(st: State): State {
    State("", st.reset, "")
  }

  /** `s.slice(0, -1)`: everything but the last character, "" for "". */
  function DropLast(s: string): (r: string)
    ensures |r| == if s == "" then 0 else |s| - 1
    ensures r <= s
  {
    if s == "" then "" else s[..|s| - 1]
  }

  /** deleteLast: drops the input's last character and shows what is left. */
  function DeleteLast(st: State): State {
    var t := DropLast(st.input);
    State(t, st.reset, t)
  }

  /** toggleSign's edit: strip one leading '-' if there is one, else prepend one. */
  function Negated(s: string): string {
    if |s| > 0 && s[0] == '-' then s[1..] else "-" + s
  }

  /** toggleSign: nothing happens on "" or "0"; otherwise the sign is flipped
      textually and shown, and the reset flag is left alone. */
  function ToggleSign(st: State): State {
    if st.input == "" || st.input == "0" then st
    else var t := Negated(st.input); State(t, st.reset, t)
  }

  // ---------------------------------------------------------------------------
  // Computations: a guard, then a success or an error transition
  // ---------------------------------------------------------------------------

  /** The success transition: the printed result becomes input and display. */
  function Succeed(text: string): State {
    State(text, true, text)
  }

  /** The try/catch of a unary operation once its guard has passed. */
  function Settle(o: Outcome): State {
    match o
    case Ok(t) => Succeed(t)
    case Fail => ErrorState
  }

  /** percentage, squareRoot and square: a no-op on empty input, otherwise the
      operation's outcome on the input text settles the state. */
  function Unary(st: State, op: string -> Outcome): State {
    if st.input == "" then st else Settle(op(st.input))
  }

  /** reciprocal: the exact texts "" and "0" are an error, not a no-op. */
  function Reciprocal(st: State, op: string -> Outcome): State {
    if st.input == "" || st.input == "0" then ErrorState else Settle(op(st.input))
  }

  /** `s.replace(/×/g, '*')`: every multiplication sign becomes '*'. */
  function Normalize(s: string): (r: string)
    ensures |r| == |s|
    ensures forall i :: 0 <= i < |s| ==> r[i] == if s[i] == Times then '*' else s[i]
  {
    if s == "" then "" else [if s[0] == Times then '*' else s[0]] + Normalize(s[1..])
  }

  /** calculate: a no-op on empty input; otherwise the normalized expression is
      evaluated, and a throw or a non-finite number takes the error path. */
  function Calculate(st: State, eval: string -> Evaluation): State {
    if st.input == "" then st
    else match eval(Normalize(st.input))
      case Returned(true, t) => Succeed(t)
      case _ => ErrorState
  }

  // ---------------------------------------------------------------------------
  // Properties of the transitions
  // ---------------------------------------------------------------------------

  /** Appending yields the token after the old input, or after nothing when a
      reset was pending; the flag is consumed and the display follows the input. */
  lemma AppendStartsAfreshOrExtends(st: State, token: string)
    ensures var r := Append(st, token);
      && !r.reset && r.shown == r.input
      && (st.reset ==> r.input == token)
      && (!st.reset ==> r.input == st.input + token)
  {
  }

  /** Appends one token after another, as a run of keypresses does. */
  function AppendAll(st: State, tokens: seq<string>): State
    decreases |tokens|
  {
    if tokens == [] then st else AppendAll(Append(st, tokens[0]), tokens[1..])
  }

  /** The tokens written one after another. */
  function Concat(tokens: seq<string>): string
    decreases |tokens|
  {
    if tokens == [] then "" else tokens[0] + Concat(tokens[1..])
  }

  /** A run of appends leaves exactly the tokens, concatenated, after the text
      that was there (or after nothing, when a reset was pending). */
  lemma {:induction false} AppendAllConcatenates(st: State, tokens: seq<string>)
    requires tokens != []
    decreases |tokens|
    ensures var r := AppendAll(st, tokens);
      && r.input == (if st.reset then "" else st.input) + Concat(tokens)
      && !r.reset && r.shown == r.input
  {
    var next := Append(st, tokens[0]);
    if |tokens| > 1 {
      AppendAllConcatenates(next, tokens[1..]);
      var base := if st.reset then "" else st.input;
      assert base + tokens[0] + Concat(tokens[1..]) == base + (tokens[0] + Concat(tokens[1..]));
    } else {
      assert tokens[1..] == [];
    }
  }

  /** Clearing, deleting and toggling the sign never touch the reset flag. */
  lemma EditsKeepResetFlag(st: State)
    ensures Clear(st).reset == st.reset
    ensures DeleteLast(st).reset == st.reset
    ensures ToggleSign(st).reset == st.reset
  {
  }

  /** After a clear the input and display are empty, and because the flag
      survives, the next append yields exactly its token. */
  lemma ClearThenAppend(st: State, token: string)
    ensures Clear(st).input == "" && Clear(st).shown == ""
    ensures Append(Clear(st), token) == State(token, false, token)
  {
  }

  /** deleteLast drops exactly the last character. */
  lemma DeleteLastDropsOne(st: State)
    requires st.input != ""
    ensures DeleteLast(st).input + [st.input[|st.input| - 1]] == st.input
    ensures DeleteLast(st).shown == DeleteLast(st).input
  {
  }

  /** On empty input deleteLast changes no text but blanks the display (which
      may have shown the error marker); done twice it is done once. */
  lemma DeleteLastOnEmpty(st: State)
    requires st.input == ""
    ensures DeleteLast(st) == Clear(st)
    ensures DeleteLast(DeleteLast(st)) == DeleteLast(st)
  {
  }

  /** After a result, backspace keeps the pending reset, so the next append
      still starts afresh instead of editing the result. */
  lemma BackspaceAfterResult(result: string, token: string)
    ensures Append(DeleteLast(Succeed(result)), token) == State(token, false, token)
  {
  }

  /** Toggling the sign of an input that is not "" or "0" and has no leading
      '-' twice restores it. */
  lemma ToggleSignInvolution(st: State)
    requires st.input != "" && st.input != "0" && st.input[0] != '-'
    ensures ToggleSign(st).input == "-" + st.input
    ensures ToggleSign(ToggleSign(st)) == State(st.input, st.reset, st.input)
  {
  }

  /** Exactly when two toggles fail to restore the input: it is a '-' followed
      by "", by "0" or by another '-' (such as "-", "-0" or "--5"). */
  lemma ToggleSignTwiceRestoresIff(st: State)
    ensures ToggleSign(ToggleSign(st)).input == st.input
      <==> !(|st.input| > 0 && st.input[0] == '-' &&
             (st.input[1..] == "" || st.input[1..] == "0" || (|st.input| > 1 && st.input[1] == '-')))
  {
  }

  /** percentage, squareRoot, square and calculate change nothing on empty
      input, whereas reciprocal enters the error state. */
  lemma EmptyInputGuards(st: State, op: string -> Outcome, eval: string -> Evaluation)
    requires st.input == ""
    ensures Unary(st, op) == st
    ensures Calculate(st, eval) == st
    ensures Reciprocal(st, op) == ErrorState
  {
  }

  /** reciprocal of the exact text "0" is an error without consulting the
      arithmetic. */
  lemma ReciprocalOfZeroText(st: State, op: string -> Outcome)
    requires st.input == "0"
    ensures Reciprocal(st, op) == ErrorState
  {
  }

  /** Once its guard has passed, a unary operation succeeds exactly when the
      arithmetic does, showing the printed result, and otherwise shows the
      error marker; either way the next input starts afresh. */
  lemma UnaryOutcome(st: State, op: string -> Outcome)
    requires st.input != ""
    ensures Settled(Unary(st, op))
    ensures Unary(st, op) == ErrorState <==> op(st.input) == Fail
    ensures op(st.input).Ok? ==> Unary(st, op).input == op(st.input).text
    ensures st.input != "0" ==> Reciprocal(st, op) == Unary(st, op)
  {
  }

  /** On non-empty input calculate fails exactly when the evaluator throws or
      returns a non-finite number; otherwise the printed number becomes the
      input and the display. */
  lemma CalculateOutcome(st: State, eval: string -> Evaluation)
    requires st.input != ""
    ensures Settled(Calculate(st, eval))
    ensures var e := eval(Normalize(st.input));
      && (Calculate(st, eval) == ErrorState <==> (e.Threw? || !e.finite))
      && (e.Returned? && e.finite ==> Calculate(st, eval) == State(e.text, true, e.text))
  {
  }

  /** calculate consults the evaluator only on the normalized input. */
  lemma CalculateSeesOnlyNormalized(st: State, eval1: string -> Evaluation, eval2: string -> Evaluation)
    requires eval1(Normalize(st.input)) == eval2(Normalize(st.input))
    ensures Calculate(st, eval1) == Calculate(st, eval2)
  {
  }

  /** Normalization leaves no multiplication sign behind. */
  lemma NormalizeRemovesTimes(s: string)
    ensures Times !in Normalize(s)
  {
  }

  /** Text without a multiplication sign passes normalization unchanged; in
      particular normalizing twice is normalizing once. */
  lemma NormalizeFixesPlainText(s: string)
    requires Times !in s
    ensures Normalize(s) == s
    ensures Normalize(Normalize(s)) == Normalize(s)
  {
  }

  /** Normalizing is done character by character, so it distributes over
      concatenation: normalizing a typed expression equals normalizing its
      tokens one at a time. */
  lemma NormalizeDistributes(a: string, b: string)
    ensures Normalize(a + b) == Normalize(a) + Normalize(b)
  {
  }

  /** Every transition keeps the display coherent with the input; appends,
      clears, deletions and computed results establish it from any state. */
  lemma TransitionsKeepCoherent(st: State, token: string, op: string -> Outcome, eval: string -> Evaluation)
    ensures Coherent(Append(st, token)) && Coherent(Clear(st)) && Coherent(DeleteLast(st))
    ensures Coherent(ErrorState) && forall t :: Coherent(Succeed(t))
    ensures Coherent(st) ==>
      (Coherent(ToggleSign(st)) && Coherent(Unary(st, op)) &&
       Coherent(Reciprocal(st, op)) && Coherent(Calculate(st, eval)))
  {
  }
}
