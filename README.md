# asap-tokenizer in Dafny

A model of the asap-tokenizer engine: a generic deterministic finite
automaton whose states carry actions. The caller registers states
(`addState`) and per-character transitions (`addTransition`), either
directly or through a small chaining builder. `tokenize` then runs a
maximal-munch scan over the input:

- each run starts in state 0 and follows transitions as far as they go;
- re-entering state 0 drops the characters read so far (this is how
  separators are skipped);
- input that ends in state 0 ends the scan silently;
- otherwise the action of the state where the run stopped is shown the
  window `input[accFrom, inputPos)` and pushes tokens or throws.

Files:

- `tokenizer.dfy`, module `Tokenizer`:
  - the class `AsapTokenizer`, with the scan fields and the two tables as
    fields and its operations as methods;
  - the functions that specify them: `AddRow` and `Connect` for the table
    updates, `Run` for one run of the inner loop, and `ScanFrom` and
    `Tokenized` for the whole scan.
  - `Tokenize` is proved to return `Tokenized(states, transitions, input)`.
- `scan_properties.dfy`, module `ScanProperties`: what a run and the scan
  compute, stated against the automaton's extended transition function
  `Walk`. It covers longest match, where the window starts, a clean end in
  state 0, transparency of returns to state 0, and progress.
- `builder.dfy`, module `Builder`: `TransitionBuilder` and
  `TransitionBuilderWaitingForCondition`, each proved to have exactly the
  effect and the errors of the tokenizer call it forwards to.
- `math_tokenizer.dfy`, module `MathTokenizer`: the arithmetic tokenizer
  the repository's tests build, used as example data. It proves that its
  tables are well formed, what each kind of lexeme scans to on any input,
  and that it gives the outputs the tests expect.

Modelling decisions:

- Thrown errors become the `Err` case of a `Result`. The engine's own
  errors are `DuplicateState`, `UnknownFromState`, `UnknownToState` and
  `MissingInitialState`. An action's error becomes `ActionFailure` with its
  message.
- An action is a pure function from the window to `Push(tokens)` or
  `Throw(message)`. The reader and the pusher of the mutator become
  `Reader` and `Pusher`, and `CallAction` replays the action's pushes one
  at a time.
- State ids are `int`.
- The source's outer loop never ends when a run gets stuck in state 0
  before the end of the input and state 0's action returns normally: the
  next iteration starts at the same position.
  - Entering state 0 resets `accFrom`, so state 0's action only ever sees
    the empty window (`RunProgress`).
  - The scan is therefore modelled under `StartRejectsEmpty`: state 0's
    action throws on the empty window. The test automaton meets this.
  - The test's message `Unexpected token ${reader()}` thus always ends in
    an empty window (`SpacedPointThrows`).

## Model

| member | source | states |
|---|---|---|
| Tokenizer.AsapTokenizer.constructor | src/asap-tokenizer.ts:9-24 | a new tokenizer has empty state and transition tables, empty input and output, and all positions at 0 |
| Tokenizer.AsapTokenizer.AddState | src/asap-tokenizer.ts:26-33 | a registered id gives `DuplicateState` and changes neither table; otherwise the id gets its action and an empty transition row (`AddRow`), the tokenizer itself is returned, and both tables keep the same ids |
| Tokenizer.AddRow | src/asap-tokenizer.ts:30-31 | the new row is empty, the ids grow by exactly the new id, every other row is unchanged, and every destination stays registered |
| Tokenizer.AsapTokenizer.AddTransition | src/asap-tokenizer.ts:35-47 | an unknown `from` gives `UnknownFromState`, checked first; otherwise an unknown `to` gives `UnknownToState`; both checks come before any write, so an error leaves the table unchanged; on success the loop's result is `Connect` |
| Tokenizer.Connect | src/asap-tokenizer.ts:43-45 | every character of `on` now leads from `from` to `to`, overriding earlier entries; other characters of `from` and all other rows are unchanged; destinations stay registered |
| Tokenizer.AsapTokenizer.Reader | src/asap-tokenizer.ts:11 | the window has length `inputPos - accFrom` and holds `input[accFrom + k]` at position `k` |
| Tokenizer.AsapTokenizer.Pusher | src/asap-tokenizer.ts:10 | appends exactly the one token to the output |
| Tokenizer.AsapTokenizer.CallAction | src/asap-tokenizer.ts:78 | the current state's action, shown `Reader()`, either throws with its message and the failure is reported, or its tokens are appended to the output in order |
| Tokenizer.AsapTokenizer.FollowTransitions | src/asap-tokenizer.ts:64-77 | the inner loop ends cleanly exactly when `Run` from state 0 at the old `inputPos` does; otherwise it stops with the state, position and window start that `Run` gives |
| Tokenizer.Run | src/asap-tokenizer.ts:64-77 | a run stops at a position no earlier than it started and inside the input, in a registered state; if that state is 0 the window is empty; if it stopped before the end, the next character has no transition; a run never stops at the end of input in state 0 |
| Tokenizer.AsapTokenizer.ScanLoop | src/asap-tokenizer.ts:56-80 | the two nested loops return `Tokenized(states, transitions, input)`, and on success the result is the token list they filled |
| Tokenizer.AsapTokenizer.Tokenize | src/asap-tokenizer.ts:49-54 | stores the input and returns `Tokenized` of the input and the tables, so the result depends only on those; on success it returns the `tokens` field |
| Tokenizer.Tokenized | src/asap-tokenizer.ts:57-63 | with no state 0 the result is `MissingInitialState`, even on empty input; with state 0, empty input gives no tokens |
| Tokenizer.ScanFromHalt | src/asap-tokenizer.ts:63-79 | after a run stops in state `s`, `s`'s action on the window decides the outcome: its error ends the scan, and its tokens come before those of the scan from where the run stopped |
| ScanProperties.WalkStuck | src/asap-tokenizer.ts:67 | once the automaton has no transition, no longer input gets it moving again |
| ScanProperties.RunFollowsWalk | src/asap-tokenizer.ts:64-77 | a run ends the input cleanly exactly when the rest of the input walks back to state 0; otherwise it stops where the walk reaches its state, the next character is stuck, the window starts at the last return to state 0, and no later prefix returns to state 0 |
| ScanProperties.RunEndsCleanly | src/asap-tokenizer.ts:64-77 | a run ends the input cleanly if and only if the rest of the input walks from the run's state back to state 0 |
| ScanProperties.RunStopsWhereWalkSticks | src/asap-tokenizer.ts:64-77 | a run that stops is in the state its consumed characters walk to, and one more character would leave the automaton with no transition |
| ScanProperties.RunWindowStart | src/asap-tokenizer.ts:70 | the window of a run that stops starts at its last return to state 0, or where the run started if there was none, and no longer prefix of the consumed characters returns to state 0 |
| ScanProperties.RunDeterminedByWalk | src/asap-tokenizer.ts:64-77 | conversely, the longest followable prefix, its end state and its last return to state 0 determine where the run from state 0 stops |
| ScanProperties.ScanTakesLongestMatch | src/asap-tokenizer.ts:63-79 | the output of a scan step is decided by the action of the state at the end of the longest followable prefix, shown the characters after the last return to state 0 |
| ScanProperties.CleanEndEmitsNothing | src/asap-tokenizer.ts:71-74 | input that walks back to state 0 exactly at its end ends cleanly, with no action called and no token |
| ScanProperties.RunThroughReset | src/asap-tokenizer.ts:70 | a run that walks back to state 0 continues exactly as a fresh run started there, or ends cleanly at the end of input |
| ScanProperties.ResetIsTransparent | src/asap-tokenizer.ts:66-70 | characters that lead from state 0 back to state 0 leave no trace in the output |
| ScanProperties.StallRepeats | src/asap-tokenizer.ts:63-79 | a run that gets stuck in state 0 leaves the next iteration at the same position with the same empty window, so only an error from state 0's action ends the scan |
| ScanProperties.RunProgress | src/asap-tokenizer.ts:63-79 | an iteration that stops in a state other than 0 has read at least one character, and state 0's action only ever sees the empty window |
| Builder.TransitionBuilder.constructor | src/transition-builder.ts:17-20 | the builder holds the given tokenizer and target state; both are constants |
| Builder.TransitionBuilder.GetTokenizer | src/transition-builder.ts:22-24 | always the tokenizer given to the constructor |
| Builder.TransitionBuilder.AddState | src/transition-builder.ts:26-28 | the same error and table changes as the tokenizer's AddState, and returns the tokenizer rather than a builder |
| Builder.TransitionBuilder.From | src/transition-builder.ts:30-32 | a new handle with the given source, this builder's target and a reference back to this builder; the tokenizer is not touched |
| Builder.TransitionBuilderWaitingForCondition.constructor | src/transition-builder.ts:36-40 | the handle holds the given source, target and builder |
| Builder.TransitionBuilderWaitingForCondition.With | src/transition-builder.ts:42-45 | exactly the errors and the table change of the tokenizer's AddTransition from the handle's source to its target; on success it returns the originating builder |
| MathTokenizer.MathTablesWellFormed | src/asap-tokenizer.test.ts:97-122 | the test's tables register the same ten ids, every transition leads to a registered state, and the initial state's action throws on the empty window |
| MathTokenizer.RunDigits | src/asap-tokenizer.test.ts:101-120 | in the integer or the fractional state a run follows a block of digits to its end, and stops there at the end of input |
| MathTokenizer.ScanSpace | src/asap-tokenizer.test.ts:99-100 | a space leaves no trace: the scan from it equals the scan from the next character |
| MathTokenizer.ScanInteger | src/asap-tokenizer.test.ts:101-103 | the longest block of digits not followed by `,` or `.` becomes one integer token holding exactly those digits |
| MathTokenizer.ScanFraction | src/asap-tokenizer.test.ts:118-120 | digits, a `,` or `.` and the longest block of digits after it become one fractional token holding all of them |
| MathTokenizer.ScanSingle | src/asap-tokenizer.test.ts:104-117 | an operator other than the star, or a delimiter, becomes its own token whatever follows it |
| MathTokenizer.ScanTimes | src/asap-tokenizer.test.ts:108-109 | a star not followed by a star becomes the times token |
| MathTokenizer.ScanStarStar | src/asap-tokenizer.test.ts:112-114 | two stars become one power token, never two times tokens |
| MathTokenizer.ScanUnexpected | src/asap-tokenizer.test.ts:99 | a character with no transition from the initial state ends the whole scan with the initial state's error on the empty window |
| MathTokenizer.SpacedOperation | src/asap-tokenizer.test.ts:10-13 | every input of a digit, a space, a single-character operator, a space and a digit gives an integer, that operator's token and an integer |
| MathTokenizer.Operation | src/asap-tokenizer.test.ts:15-18 | the same without spaces: the operator ends the integer before it |
| MathTokenizer.SpacedTimes | src/asap-tokenizer.test.ts:35-38 | a digit, a spaced star and a digit give an integer, the times token and an integer |
| MathTokenizer.SpacedStarStar | src/asap-tokenizer.test.ts:45-48 | a digit, two spaced stars and a digit give an integer, one power token and an integer |
| MathTokenizer.OnePlusOne | src/asap-tokenizer.test.ts:10-13 | `1 + 1` gives an integer, a plus and an integer |
| MathTokenizer.OnePlusOneUnspaced | src/asap-tokenizer.test.ts:15-18 | `1+1` gives an integer, a plus and an integer |
| MathTokenizer.SpacesDoNotMatter | src/asap-tokenizer.test.ts:15-18 | `1+1` and `1 + 1` give the same result |
| MathTokenizer.OneMinusOne | src/asap-tokenizer.test.ts:20-23 | `1 - 1` gives an integer, a minus and an integer |
| MathTokenizer.OnePointOne | src/asap-tokenizer.test.ts:25-28 | `1.1` gives the single fractional token `1.1` |
| MathTokenizer.SpacedPointThrows | src/asap-tokenizer.test.ts:30-33 | `1 . 1` fails with the initial state's error, shown the empty window |
| MathTokenizer.OneTimesOne | src/asap-tokenizer.test.ts:35-38 | `1 * 1` gives an integer, a times and an integer |
| MathTokenizer.OnePowOne | src/asap-tokenizer.test.ts:40-43 | `1 ^ 1` gives an integer, a power and an integer |
| MathTokenizer.OneStarStarOne | src/asap-tokenizer.test.ts:45-48 | `1 ** 1` gives an integer, a single power token and an integer (longest match) |
| MathTokenizer.StarStarIsPow | src/asap-tokenizer.test.ts:45-48 | `1 ** 1` and `1 ^ 1` give the same result |

## Left out

- Tokenize: modelled only when state 0's action throws on the empty window. Without that, a run stuck in state 0 makes the source loop forever, which a terminating Dafny method cannot express. `StallRepeats` states the repetition.
- Actions are pure functions of the window. Actions that call back into the tokenizer (`tokenize`, `addState`, `addTransition`) are not modelled.
- An action that pushes some tokens and then throws is not modelled. The model's `Throw` pushes nothing.
- On an error the model returns `Err`. It does not describe the partial token list left in the `tokens` field.
- Concurrent or reentrant use of one tokenizer is not modelled: the scan state lives in shared fields, and the model assumes single-threaded use.
- Strings are sequences of single characters. The source iterates `on` by code point but indexes `input` by UTF-16 code unit, so characters outside the Basic Multilingual Plane are not modelled.
- State ids are integers. JavaScript numbers that are not integers, or `NaN`, are not modelled.
- The field `inputLength` is `|input|`. `next` is a local of the inner loop, and the dead assignment `next = 5` is dropped.
- The TypeScript interfaces `ITransitionBuilder` and `ITransitionBuilderWaitingForCondition` and the `TokenMutator`/`AsapState` type aliases are not separate Dafny entities. The classes and the `Action` type stand for them.
- The tests chain `.from(...)` onto the result of `addState`. In this source `addState` returns the tokenizer, which has no `from`, so that chaining is not modelled.
- The tests' `buildMathTokenizer` construction is not replayed call by call. `MathTransitions` states the table its `with(...)` calls produce: proving a chain of 23 table updates equal to it is beyond the verifier's resource budget.
- The tests' formatting of tokens as strings and `join('')` is not modelled. Tokens are the datatype `MathToken`.
- The Jest harness and the 1000-fold repetition stress test are not modelled.
