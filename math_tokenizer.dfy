/** The arithmetic tokenizer the repository's tests build, used as example
    data: its state and transition tables, and the outputs the tests expect
    from it. Tokens are a datatype here; the tests format them as strings. */
module MathTokenizer {
  import opened Tokenizer
  import opened ScanProperties

  datatype MathToken =
    | IntegerToken(value: string)
    | PlusToken
    | MinusToken
    | TimesToken
    | DivideToken
    | PowToken
    | LDelimToken(value: string)
    | RDelimToken(value: string)
    | FractionalToken(value: string)

  const Initial := 0
  const Integer := 1
  const Plus := 2
  const Minus := 3
  const Times := 4
  const Divide := 5
  const Pow := 6
  const LDelim := 7
  const RDelim := 8
  const Fractional := 9

  function Unexpected(w: string): Outcome<MathToken> { Throw("Unexpected token " + w) }
  function EmitInteger(w: string): Outcome<MathToken> { Push([IntegerToken(w)]) }
  function EmitPlus(w: string): Outcome<MathToken> { Push([PlusToken]) }
  function EmitMinus(w: string): Outcome<MathToken> { Push([MinusToken]) }
  function EmitTimes(w: string): Outcome<MathToken> { Push([TimesToken]) }
  function EmitDivide(w: string): Outcome<MathToken> { Push([DivideToken]) }
  function EmitPow(w: string): Outcome<MathToken> { Push([PowToken]) }
  function EmitLDelim(w: string): Outcome<MathToken> { Push([LDelimToken(w)]) }
  function EmitRDelim(w: string): Outcome<MathToken> { Push([RDelimToken(w)]) }
  function EmitFractional(w: string): Outcome<MathToken> { Push([FractionalToken(w)]) }

  function MathStates(): map<int, Action<MathToken>> {
    map[Initial := Unexpected, Integer := EmitInteger, Plus := EmitPlus, Minus := EmitMinus,
        Times := EmitTimes, Divide := EmitDivide, Pow := EmitPow, LDelim := EmitLDelim,
        RDelim := EmitRDelim, Fractional := EmitFractional]
  }

  predicate IsDigit(c: char) { '0' <= c <= '9' }

  /** The characters that make a token on their own: every operator but the
      star, and the delimiters. */
  predicate IsSingle(c: char) {
    c == '+' || c == '-' || c == '/' || c == '^' || c == '(' || c == '[' || c == '{' || c == '}' || c == ']' || c == ')'
  }

  /** The state such a character leads to from the initial state. */
  function SingleState(c: char): int {
    if c == '+' then Plus
    else if c == '-' then Minus
    else if c == '/' then Divide
    else if c == '^' then Pow
    else if c == '(' || c == '[' || c == '{' then LDelim
    else RDelim
  }

  /** The transitions out of the initial state: digits, the space (back to
      the initial state), the operators and the delimiters. */
  function InitialRow(): map<char, int> {
    map c | IsDigit(c) || c == ' ' || c == '*' || IsSingle(c) ::
      if IsDigit(c) then Integer
      else if c == ' ' then Initial
      else if c == '*' then Times
      else SingleState(c)
  }

  /** The transition table the test's `from(...).with(...)` calls produce:
      digits lead into the integer state and stay there, `,` or `.` after an
      integer leads to the fractional state, which takes more digits, and a
      star after a star makes the power operator. */
  function MathTransitions(): Table {
    map[Initial := InitialRow(),
        Integer := map c | IsDigit(c) || c == ',' || c == '.' :: if IsDigit(c) then Integer else Fractional,
        Plus := map[], Minus := map[], Times := map['*' := Pow], Divide := map[], Pow := map[],
        LDelim := map[], RDelim := map[],
        Fractional := map c | IsDigit(c) :: Fractional]
  }

  /** The tables are well formed and the initial state rejects the empty
      window, so the scan over them is defined. */
  ghost predicate MathReady() {
    WellFormed(MathStates(), MathTransitions()) && 0 in MathStates() && StartRejectsEmpty(MathStates())
  }

  /** The ten ids the test registers, in both tables. */
  lemma MathKeys()
    ensures MathTransitions().Keys == MathStates().Keys == {0, 1, 2, 3, 4, 5, 6, 7, 8, 9}
  {
  }

  /** Every transition of a row leads to one of the ten ids. */
  lemma MathRowTargets(s: int)
    requires s in MathTransitions()
    ensures MathTransitions()[s].Values <= {0, 1, 2, 3, 4, 5, 6, 7, 8, 9}
  {
    var tr := MathTransitions();
    if s == Initial {
      assert tr[s] == InitialRow();
    } else if s == Integer || s == Fractional || s == Times {
    } else {
      assert tr[s] == map[];
    }
  }

  lemma MathTablesWellFormed()
    ensures MathReady()
  {
    MathKeys();
    forall s | s in MathTransitions()
      ensures MathTransitions()[s].Values <= MathTransitions().Keys
    {
      MathRowTargets(s);
    }
    assert MathStates()[Initial]("") == Throw("Unexpected token ");
  }

  /** What the test's tokenizer returns or throws on `input`. */
  function Math(input: string): Result<seq<MathToken>> {
    MathTablesWellFormed();
    Tokenized(MathStates(), MathTransitions(), input)
  }

  /** What the scan of the test's tokenizer yields from `pos` on. */
  function MathScan(input: string, pos: nat): Result<seq<MathToken>>
    requires pos <= |input|
  {
    MathTablesWellFormed();
    ScanFrom(MathStates(), MathTransitions(), input, pos)
  }

  /** The token the test expects for such a character. */
  function SingleToken(c: char): MathToken
    requires IsSingle(c)
  {
    if c == '+' then PlusToken
    else if c == '-' then MinusToken
    else if c == '/' then DivideToken
    else if c == '^' then PowToken
    else if c == '(' || c == '[' || c == '{' then LDelimToken([c])
    else RDelimToken([c])
  }

  /** `input[from..to]` is all digits. */
  ghost predicate DigitsBetween(input: string, from: nat, to: nat)
    requires from <= to <= |input|
  {
    forall i :: from <= i < to ==> IsDigit(input[i])
  }

  /** In the integer or the fractional state, a run of digits is followed to
      its end. */
  lemma {:induction false} RunDigits(input: string, s: int, j: nat, acc: nat, k: nat)
    requires s == Integer || s == Fractional
    requires acc < j <= k <= |input| && j < |input|
    requires DigitsBetween(input, j, k)
    ensures MathReady()
    ensures k < |input| ==> Run(MathTransitions(), input, s, j, acc) == Run(MathTransitions(), input, s, k, acc)
    ensures k == |input| ==> Run(MathTransitions(), input, s, j, acc) == Halt(s, k, acc)
    decreases k - j
  {
    MathTablesWellFormed();
    var tr := MathTransitions();
    if j < k {
      assert input[j] in tr[s] && tr[s][input[j]] == s;
      if j + 1 < |input| {
        RunDigits(input, s, j + 1, acc, k);
      }
    }
  }

  /** A space takes the initial state back to itself: it leaves no trace. */
  lemma ScanSpace(input: string, pos: nat)
    requires pos < |input| && input[pos] == ' '
    ensures MathScan(input, pos) == MathScan(input, pos + 1)
  {
    MathTablesWellFormed();
    assert input[pos..pos + 1] == [' '];
    assert Walk(MathTransitions(), Initial, input[pos..pos + 1][1..]) == Some(Initial);
    ResetIsTransparent(MathStates(), MathTransitions(), input, pos, pos + 1);
  }

  /** The longest run of digits is one integer token. */
  lemma ScanInteger(input: string, pos: nat, k: nat)
    requires pos < k <= |input| && DigitsBetween(input, pos, k)
    requires k < |input| ==> !IsDigit(input[k]) && input[k] != ',' && input[k] != '.'
    ensures MathScan(input, pos) == Prepend([IntegerToken(input[pos..k])], MathScan(input, k))
  {
    MathTablesWellFormed();
    var st, tr := MathStates(), MathTransitions();
    if pos + 1 < |input| {
      RunDigits(input, Integer, pos + 1, pos, k);
    }
    assert Run(tr, input, Initial, pos, pos) == Halt(Integer, k, pos);
    ScanFromHalt(st, tr, input, pos, Integer, k, pos);
  }

  /** Digits, a `,` or `.`, and the longest run of digits after it are one
      fractional token. */
  lemma ScanFraction(input: string, pos: nat, d: nat, k: nat)
    requires pos < d < k <= |input| && DigitsBetween(input, pos, d)
    requires input[d] == ',' || input[d] == '.'
    requires DigitsBetween(input, d + 1, k)
    requires k < |input| ==> !IsDigit(input[k])
    ensures MathScan(input, pos) == Prepend([FractionalToken(input[pos..k])], MathScan(input, k))
  {
    MathTablesWellFormed();
    var st, tr := MathStates(), MathTransitions();
    if d + 1 < |input| {
      RunDigits(input, Fractional, d + 1, pos, k);
    }
    assert Run(tr, input, Integer, d, pos) == Halt(Fractional, k, pos);
    if pos + 1 < d {
      RunDigits(input, Integer, pos + 1, pos, d);
    }
    assert Run(tr, input, Initial, pos, pos) == Halt(Fractional, k, pos);
    ScanFromHalt(st, tr, input, pos, Fractional, k, pos);
  }

  /** Such a character leads from the initial state to a state with no
      transitions of its own. */
  lemma SingleIsFinal(c: char)
    requires IsSingle(c)
    ensures c in MathTransitions()[Initial] && MathTransitions()[Initial][c] == SingleState(c)
    ensures SingleState(c) in MathTransitions() && MathTransitions()[SingleState(c)] == map[]
  {
    assert MathTransitions()[Initial] == InitialRow();
  }

  /** An operator other than the star, or a delimiter, is a token of its own
      whatever follows it. */
  lemma ScanSingle(input: string, pos: nat)
    requires pos < |input| && IsSingle(input[pos])
    ensures MathScan(input, pos) == Prepend([SingleToken(input[pos])], MathScan(input, pos + 1))
  {
    MathTablesWellFormed();
    var st, tr := MathStates(), MathTransitions();
    var s := SingleState(input[pos]);
    SingleIsFinal(input[pos]);
    assert Run(tr, input, Initial, pos, pos) == Halt(s, pos + 1, pos);
    assert input[pos..pos + 1] == [input[pos]];
    ScanFromHalt(st, tr, input, pos, s, pos + 1, pos);
  }

  /** A star not followed by a star is the times operator. */
  lemma ScanTimes(input: string, pos: nat)
    requires pos < |input| && input[pos] == '*'
    requires pos + 1 < |input| ==> input[pos + 1] != '*'
    ensures MathScan(input, pos) == Prepend([TimesToken], MathScan(input, pos + 1))
  {
    MathTablesWellFormed();
    var st, tr := MathStates(), MathTransitions();
    assert Run(tr, input, Initial, pos, pos) == Halt(Times, pos + 1, pos);
    ScanFromHalt(st, tr, input, pos, Times, pos + 1, pos);
  }

  /** Two stars are one power operator, never two times operators. */
  lemma ScanStarStar(input: string, pos: nat)
    requires pos + 1 < |input| && input[pos] == '*' && input[pos + 1] == '*'
    ensures MathScan(input, pos) == Prepend([PowToken], MathScan(input, pos + 2))
  {
    MathTablesWellFormed();
    var st, tr := MathStates(), MathTransitions();
    if pos + 2 < |input| {
      assert Run(tr, input, Pow, pos + 2, pos) == Halt(Pow, pos + 2, pos);
    }
    assert Run(tr, input, Times, pos + 1, pos) == Halt(Pow, pos + 2, pos);
    assert Run(tr, input, Initial, pos, pos) == Halt(Pow, pos + 2, pos);
    ScanFromHalt(st, tr, input, pos, Pow, pos + 2, pos);
  }

  /** A character with no transition from the initial state ends the scan
      with the initial state's error, shown the empty window. */
  lemma ScanUnexpected(input: string, pos: nat)
    requires pos < |input|
    requires var c := input[pos]; !IsDigit(c) && c != ' ' && c != '*' && !IsSingle(c)
    ensures MathScan(input, pos) == Err(ActionFailure("Unexpected token "))
  {
    MathTablesWellFormed();
    var st, tr := MathStates(), MathTransitions();
    assert Run(tr, input, Initial, pos, pos) == Halt(Initial, pos, pos);
    assert "Unexpected token " + input[pos..pos] == "Unexpected token ";
    ScanFromHalt(st, tr, input, pos, Initial, pos, pos);
  }

  /** The scan of the whole input is the scan from position 0. */
  lemma MathStartsAtZero(input: string)
    ensures Math(input) == MathScan(input, 0)
  {
  }

  /** A digit, a space, an operator other than the star, a space and a
      digit: an integer, the operator's token and an integer. */
  lemma SpacedOperation(input: string)
    requires |input| == 5 && IsDigit(input[0]) && input[1] == ' ' && IsSingle(input[2]) && input[3] == ' ' && IsDigit(input[4])
    ensures Math(input) == Ok([IntegerToken(input[0..1]), SingleToken(input[2]), IntegerToken(input[4..5])])
  {
    var a, op, b := IntegerToken(input[0..1]), SingleToken(input[2]), IntegerToken(input[4..5]);
    assert MathScan(input, 5) == Ok([]);
    ScanInteger(input, 4, 5);
    assert [b] + [] == [b];
    assert MathScan(input, 4) == Ok([b]);
    ScanSpace(input, 3);
    ScanSingle(input, 2);
    assert [op] + [b] == [op, b];
    assert MathScan(input, 2) == Ok([op, b]);
    ScanSpace(input, 1);
    ScanInteger(input, 0, 1);
    assert [a] + [op, b] == [a, op, b];
    assert MathScan(input, 0) == Ok([a, op, b]);
    MathStartsAtZero(input);
  }

  /** The same without the spaces: the operator ends the integer before it. */
  lemma Operation(input: string)
    requires |input| == 3 && IsDigit(input[0]) && IsSingle(input[1]) && IsDigit(input[2])
    ensures Math(input) == Ok([IntegerToken(input[0..1]), SingleToken(input[1]), IntegerToken(input[2..3])])
  {
    var a, op, b := IntegerToken(input[0..1]), SingleToken(input[1]), IntegerToken(input[2..3]);
    assert MathScan(input, 3) == Ok([]);
    ScanInteger(input, 2, 3);
    assert [b] + [] == [b];
    assert MathScan(input, 2) == Ok([b]);
    ScanSingle(input, 1);
    assert [op] + [b] == [op, b];
    assert MathScan(input, 1) == Ok([op, b]);
    ScanInteger(input, 0, 1);
    assert [a] + [op, b] == [a, op, b];
    assert MathScan(input, 0) == Ok([a, op, b]);
    MathStartsAtZero(input);
  }

  /** A digit, a spaced star and a digit: the star is the times operator. */
  lemma SpacedTimes(input: string)
    requires |input| == 5 && IsDigit(input[0]) && input[1] == ' ' && input[2] == '*' && input[3] == ' ' && IsDigit(input[4])
    ensures Math(input) == Ok([IntegerToken(input[0..1]), TimesToken, IntegerToken(input[4..5])])
  {
    var a, b := IntegerToken(input[0..1]), IntegerToken(input[4..5]);
    assert MathScan(input, 5) == Ok([]);
    ScanInteger(input, 4, 5);
    assert [b] + [] == [b];
    assert MathScan(input, 4) == Ok([b]);
    ScanSpace(input, 3);
    ScanTimes(input, 2);
    assert [TimesToken] + [b] == [TimesToken, b];
    assert MathScan(input, 2) == Ok([TimesToken, b]);
    ScanSpace(input, 1);
    ScanInteger(input, 0, 1);
    assert [a] + [TimesToken, b] == [a, TimesToken, b];
    assert MathScan(input, 0) == Ok([a, TimesToken, b]);
    MathStartsAtZero(input);
  }

  /** A digit, two spaced stars and a digit: the stars are one power
      operator. */
  lemma SpacedStarStar(input: string)
    requires |input| == 6 && IsDigit(input[0]) && input[1] == ' ' && input[2] == '*' && input[3] == '*' && input[4] == ' ' && IsDigit(input[5])
    ensures Math(input) == Ok([IntegerToken(input[0..1]), PowToken, IntegerToken(input[5..6])])
  {
    var a, b := IntegerToken(input[0..1]), IntegerToken(input[5..6]);
    assert MathScan(input, 6) == Ok([]);
    ScanInteger(input, 5, 6);
    assert [b] + [] == [b];
    assert MathScan(input, 5) == Ok([b]);
    ScanSpace(input, 4);
    ScanStarStar(input, 2);
    assert [PowToken] + [b] == [PowToken, b];
    assert MathScan(input, 2) == Ok([PowToken, b]);
    ScanSpace(input, 1);
    ScanInteger(input, 0, 1);
    assert [a] + [PowToken, b] == [a, PowToken, b];
    assert MathScan(input, 0) == Ok([a, PowToken, b]);
    MathStartsAtZero(input);
  }

  /** `1 + 1`: an integer, a plus and an integer. */
  lemma OnePlusOne(input: string)
    requires input == "1 + 1"
    ensures Math(input) == Ok([IntegerToken("1"), PlusToken, IntegerToken("1")])
  {
    SpacedOperation(input);
    assert input[0..1] == "1" && input[2] == '+' && input[4..5] == "1";
  }

  /** `1+1`: the same tokens without the spaces. */
  lemma OnePlusOneUnspaced(input: string)
    requires input == "1+1"
    ensures Math(input) == Ok([IntegerToken("1"), PlusToken, IntegerToken("1")])
  {
    Operation(input);
    assert input[0..1] == "1" && input[1] == '+' && input[2..3] == "1";
  }

  /** `1 - 1`: an integer, a minus and an integer. */
  lemma OneMinusOne(input: string)
    requires input == "1 - 1"
    ensures Math(input) == Ok([IntegerToken("1"), MinusToken, IntegerToken("1")])
  {
    SpacedOperation(input);
    assert input[0..1] == "1" && input[2] == '-' && input[4..5] == "1";
  }

  /** `1.1`: one fractional token; the integer state goes on to the
      fractional state on the point. */
  lemma OnePointOne(input: string)
    requires input == "1.1"
    ensures Math(input) == Ok([FractionalToken("1.1")])
  {
    assert MathScan(input, 3) == Ok([]);
    ScanFraction(input, 0, 1, 3);
    assert input[0..3] == "1.1";
    assert [FractionalToken("1.1")] + [] == [FractionalToken("1.1")];
    MathStartsAtZero(input);
  }

  /** `1 . 1`: after the space the point has no transition from the initial
      state, whose action throws, shown the empty window. */
  lemma SpacedPointThrows(input: string)
    requires input == "1 . 1"
    ensures Math(input) == Err(ActionFailure("Unexpected token "))
  {
    ScanUnexpected(input, 2);
    ScanSpace(input, 1);
    ScanInteger(input, 0, 1);
    MathStartsAtZero(input);
  }

  /** `1 * 1`: an integer, a times and an integer. */
  lemma OneTimesOne(input: string)
    requires input == "1 * 1"
    ensures Math(input) == Ok([IntegerToken("1"), TimesToken, IntegerToken("1")])
  {
    SpacedTimes(input);
    assert input[0..1] == "1" && input[4..5] == "1";
  }

  /** `1 ^ 1`: an integer, a power and an integer. */
  lemma OnePowOne(input: string)
    requires input == "1 ^ 1"
    ensures Math(input) == Ok([IntegerToken("1"), PowToken, IntegerToken("1")])
  {
    SpacedOperation(input);
    assert input[0..1] == "1" && input[2] == '^' && input[4..5] == "1";
  }

  /** `1 ** 1`: an integer, a single power token and an integer. */
  lemma OneStarStarOne(input: string)
    requires input == "1 ** 1"
    ensures Math(input) == Ok([IntegerToken("1"), PowToken, IntegerToken("1")])
  {
    SpacedStarStar(input);
    assert input[0..1] == "1" && input[5..6] == "1";
  }

  /** The test's two equalities between inputs: spaces around an operator do
      not matter, and `**` tokenizes as `^` does. */
  lemma SpacesDoNotMatter(spaced: string, unspaced: string)
    requires spaced == "1 + 1" && unspaced == "1+1"
    ensures Math(unspaced) == Math(spaced)
  {
    OnePlusOne(spaced);
    OnePlusOneUnspaced(unspaced);
  }

  lemma StarStarIsPow(stars: string, caret: string)
    requires stars == "1 ** 1" && caret == "1 ^ 1"
    ensures Math(stars) == Math(caret)
  {
    OneStarStarOne(stars);
    OnePowOne(caret);
  }
}
