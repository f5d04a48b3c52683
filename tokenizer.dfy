/** The automaton engine of asap-tokenizer: a table of states, each with an
    action, a deterministic transition table, and a maximal-munch scanner
    that runs the automaton over an input string. */
module Tokenizer {

  datatype Option<X> = None | Some(value: X)

  /** What an action does with the window it is shown: push tokens onto the
      output, in order, or throw an error of its own. */
  datatype Outcome<T> = Push(tokens: seq<T>) | Throw(message: string)

  /** An action is a pure function of the window `input[accFrom, inputPos)`. */
  type Action<T> = string -> Outcome<T>

  /** The errors the engine raises, plus the errors actions raise. */
  datatype Error =
    | DuplicateState(id: int)
    | UnknownFromState(from: int, to: int)
    | UnknownToState(from: int, to: int)
    | MissingInitialState
    | ActionFailure(message: string)

  datatype Result<R> = Ok(value: R) | Err(error: Error)

  /** For each state, its outgoing transitions by character. */
  type Table = map<int, map<char, int>>

  /** Every transition leads to a state that has a row of its own. */
  ghost predicate Closed(tr: Table) {
    forall s :: s in tr ==> tr[s].Values <= tr.Keys
  }

  /** The tables as addState/addTransition keep them: the same ids in both,
      and every destination registered. */
  ghost predicate WellFormed<T>(states: map<int, Action<T>>, tr: Table) {
    states.Keys == tr.Keys && Closed(tr)
  }

  /** The state-0 action throws when shown the empty window, the only window
      it is ever shown (see Run). Without this the scan never ends once it
      gets stuck in state 0. */
  ghost predicate StartRejectsEmpty<T>(states: map<int, Action<T>>) {
    0 in states ==> states[0]("").Throw?
  }

  /** The table after addState(id): `id` gets a row with no transitions. */
  function AddRow(tr: Table, id: int): (r: Table)
    ensures r.Keys == tr.Keys + {id}
    ensures r[id] == map[]
    ensures forall s :: s in tr && s != id ==> r[s] == tr[s]
    ensures Closed(tr) ==> Closed(r)
  {
    tr[id := map[]]
  }

  /** The table after addTransition(on, from, to): every character of `on`
      now leads from `from` to `to`, overriding earlier entries, and nothing
      else changes. */
  function Connect(tr: Table, on: string, from: int, to: int): (r: Table)
    requires from in tr
    ensures r.Keys == tr.Keys
    ensures forall c :: c in on ==> c in r[from] && r[from][c] == to
    ensures forall c :: c !in on ==> (c in r[from] <==> c in tr[from])
    ensures forall c :: c !in on && c in tr[from] ==> r[from][c] == tr[from][c]
    ensures forall s :: s in tr && s != from ==> r[s] == tr[s]
    ensures Closed(tr) && to in tr ==> Closed(r)
  {
    tr[from := tr[from] + Spread(on, to)]
  }

  /** Every character of `on` mapped to `to`. */
  function Spread(on: string, to: int): (m: map<char, int>)
    ensures forall c :: c in m <==> c in on
    ensures forall c :: c in m ==> m[c] == to
  {
    map c | c in on :: to
  }

  /** The extended transition function: the state reached from `s` by
      following the characters of `w`, or None when some step is missing. */
  function Walk(tr: Table, s: int, w: string): Option<int>
    decreases |w|
  {
    if w == [] then Some(s)
    else if s in tr && w[0] in tr[s] then Walk(tr, tr[s][w[0]], w[1..])
    else None
  }

  /** Where one pass of the inner loop stops: at end of input in state 0,
      or in `state` at `pos` with window start `accFrom`. */
  datatype Stop = CleanEnd | Halt(state: int, pos: nat, accFrom: nat)

  /** The inner loop of _tokenize, from state `cur` at `pos` with window
      start `accFrom`: follow transitions while one exists, resetting the
      window start whenever state 0 is entered, and stop at end of input. */
  function Run(tr: Table, input: string, cur: int, pos: nat, accFrom: nat): (r: Stop)
    requires Closed(tr) && cur in tr
    requires accFrom <= pos < |input|
    requires cur == 0 ==> accFrom == pos
    ensures r.Halt? ==> accFrom <= r.accFrom <= r.pos <= |input| && pos <= r.pos
    ensures r.Halt? ==> r.state in tr
    ensures r.Halt? && r.state == 0 ==> r.accFrom == r.pos
    ensures r.Halt? && r.pos == pos ==> r.state == cur && r.accFrom == accFrom
    ensures r.Halt? && r.pos < |input| ==> input[r.pos] !in tr[r.state]
    ensures r.Halt? && r.pos == |input| ==> r.state != 0
    decreases |input| - pos
  {
    if input[pos] !in tr[cur] then Halt(cur, pos, accFrom)
    else
      var next := tr[cur][input[pos]];
      var accFrom' := if next == 0 then pos + 1 else accFrom;
      if pos + 1 == |input| then
        if next == 0 then CleanEnd else Halt(next, pos + 1, accFrom')
      else Run(tr, input, next, pos + 1, accFrom')
  }

  /** Appends the tokens an action pushed to what follows it. */
  function Prepend<T>(ts: seq<T>, rest: Result<seq<T>>): Result<seq<T>> {
    if rest.Ok? then Ok(ts + rest.value) else rest
  }

  /** The outer loop of _tokenize from `pos`: one run from state 0, then the
      action of the state where it stopped, then the rest of the input. */
  function ScanFrom<T>(states: map<int, Action<T>>, tr: Table, input: string, pos: nat): Result<seq<T>>
    requires WellFormed(states, tr) && 0 in states && StartRejectsEmpty(states)
    requires pos <= |input|
    decreases |input| - pos
  {
    if pos == |input| then Ok([])
    else
      match Run(tr, input, 0, pos, pos)
      case CleanEnd => Ok([])
      case Halt(s, p, a) =>
        match states[s](input[a..p])
        case Throw(m) => Err(ActionFailure(m))
        case Push(ts) => Prepend(ts, ScanFrom(states, tr, input, p))
  }

  /** What tokenize(input) returns or throws. */
  function Tokenized<T>(states: map<int, Action<T>>, tr: Table, input: string): (r: Result<seq<T>>)
    requires WellFormed(states, tr) && StartRejectsEmpty(states)
    ensures 0 !in states ==> r == Err(MissingInitialState)
    ensures 0 in states && input == [] ==> r == Ok([])
  {
    if 0 !in states then Err(MissingInitialState) else ScanFrom(states, tr, input, 0)
  }

  /** One outer iteration that stops in a state: that state's action decides
      what the scan from `pos` produces. */
  lemma ScanFromHalt<T>(states: map<int, Action<T>>, tr: Table, input: string, pos: nat, s: int, p: nat, a: nat)
    requires WellFormed(states, tr) && 0 in states && StartRejectsEmpty(states)
    requires pos < |input| && Run(tr, input, 0, pos, pos) == Halt(s, p, a)
    ensures states[s](input[a..p]).Throw? ==> ScanFrom(states, tr, input, pos) == Err(ActionFailure(states[s](input[a..p]).message))
    ensures states[s](input[a..p]).Push? ==> ScanFrom(states, tr, input, pos) == Prepend(states[s](input[a..p]).tokens, ScanFrom(states, tr, input, p))
  {
  }

  lemma PrependPrepend<T>(xs: seq<T>, ys: seq<T>, rest: Result<seq<T>>)
    ensures Prepend(xs, Prepend(ys, rest)) == Prepend(xs + ys, rest)
  {
    if rest.Ok? {
      assert xs + (ys + rest.value) == (xs + ys) + rest.value;
    }
  }

  class AsapTokenizer<T> {
    // scan state, shared by the mutator and rewritten by every tokenize call
    var input: string
    var inputPos: nat
    var accFrom: nat
    var current: int
    var tokens: seq<T>

    // state id to action
    var states: map<int, Action<T>>
    // state id to map of char to state id
    var transitions: Table

    ghost predicate Valid()
      reads this
    {
      WellFormed(states, transitions)
    }

    constructor ()
      ensures Valid()
      ensures states == map[] && transitions == map[]
      ensures input == [] && inputPos == 0 && accFrom == 0 && current == 0 && tokens == []
    {
      input, inputPos, accFrom, current, tokens := [], 0, 0, 0, [];
      states, transitions := map[], map[];
    }

    /** Registers a new state with its action and no outgoing transitions;
        returns this tokenizer for chaining. */
    method AddState(id: int, state: Action<T>) returns (r: Result<AsapTokenizer<T>>)
      requires Valid()
      modifies this`states, this`transitions
      ensures Valid()
      ensures id in old(states) ==> r == Err(DuplicateState(id))
      ensures id in old(states) ==> states == old(states) && transitions == old(transitions)
      ensures id !in old(states) ==> r == Ok(this)
      ensures id !in old(states) ==> states == old(states)[id := state] && transitions == AddRow(old(transitions), id)
    {
      if id in states {
        return Err(DuplicateState(id));
      }
      states := states[id := state];
      transitions := transitions[id := map[]];
      return Ok(this);
    }

    /** Sets (from, c) -> to for every character c of `on`; both states must
        already be registered. */
    method AddTransition(on: string, from: int, to: int) returns (r: Result<AsapTokenizer<T>>)
      requires Valid()
      modifies this`transitions
      ensures Valid()
      ensures from !in old(transitions) ==> r == Err(UnknownFromState(from, to))
      ensures from in old(transitions) && to !in states ==> r == Err(UnknownToState(from, to))
      ensures r.Err? ==> transitions == old(transitions)
      ensures from in old(transitions) && to in states ==> r == Ok(this)
      ensures r.Ok? ==> transitions == Connect(old(transitions), on, from, to)
    {
      if from !in transitions {
        return Err(UnknownFromState(from, to));
      }
      if to !in states {
        return Err(UnknownToState(from, to));
      }
      ghost var row := old(transitions)[from];
      assert row + Spread(on[..0], to) == row;
      for i := 0 to |on|
        invariant from in transitions
        invariant transitions == old(transitions)[from := row + Spread(on[..i], to)]
      {
        assert on[..i + 1] == on[..i] + [on[i]];
        assert (row + Spread(on[..i], to))[on[i] := to] == row + Spread(on[..i + 1], to);
        transitions := transitions[from := transitions[from][on[i] := to]];
      }
      assert on[..|on|] == on;
      return Ok(this);
    }

    /** The mutator's reader: the characters consumed since the run started
        or last re-entered state 0. */
    function Reader(): (w: string)
      reads this`input, this`accFrom, this`inputPos
      requires accFrom <= inputPos <= |input|
      ensures |w| == inputPos - accFrom
      ensures forall k :: 0 <= k < |w| ==> w[k] == input[accFrom + k]
    {
      input[accFrom..inputPos]
    }

    /** The mutator's pusher: appends one token to the output. */
    method Pusher(tok: T)
      modifies this`tokens
      ensures tokens == old(tokens) + [tok]
    {
      tokens := tokens + [tok];
    }

    /** Calls the action of the current state with the mutator: the action
        reads the window and pushes its tokens, or throws. */
    method CallAction() returns (failure: Option<string>)
      requires current in states && accFrom <= inputPos <= |input|
      modifies this`tokens
      ensures states[current](Reader()).Throw? ==> failure == Some(states[current](Reader()).message)
      ensures states[current](Reader()).Push? ==> failure == None
      ensures states[current](Reader()).Push? ==> tokens == old(tokens) + states[current](Reader()).tokens
    {
      match states[current](Reader())
      case Throw(m) =>
        return Some(m);
      case Push(ts) =>
        for i := 0 to |ts|
          invariant tokens == old(tokens) + ts[..i]
        {
          Pusher(ts[i]);
          assert ts[..i + 1] == ts[..i] + [ts[i]];
        }
        assert ts[..|ts|] == ts;
        return None;
    }

    /** Scans `input` and returns the token list it filled; the result
        depends only on the input and the tables. */
    method Tokenize(input: string) returns (r: Result<seq<T>>)
      requires Valid() && StartRejectsEmpty(states)
      modifies this`input, this`inputPos, this`accFrom, this`current, this`tokens
      ensures this.input == input
      ensures r == Tokenized(states, transitions, input)
      ensures r.Ok? ==> r.value == tokens
    {
      this.input := input;
      r := ScanLoop();
    }

    /** The inner loop of _tokenize: one run from state 0 at inputPos that
        follows transitions as far as they go. Reports whether the run ended
        the input in state 0, in which case _tokenize returns at once. */
    method FollowTransitions() returns (cleanEnd: bool)
      requires Valid() && 0 in transitions && inputPos < |input|
      modifies this`inputPos, this`accFrom, this`current
      ensures cleanEnd <==> Run(transitions, input, 0, old(inputPos), old(inputPos)) == CleanEnd
      ensures !cleanEnd ==> Run(transitions, input, 0, old(inputPos), old(inputPos)) == Halt(current, inputPos, accFrom)
    {
      current := 0;
      accFrom := inputPos;
      ghost var start := inputPos;
      while input[inputPos] in transitions[current]
        invariant start <= accFrom <= inputPos < |input|
        invariant current in transitions
        invariant current == 0 ==> accFrom == inputPos
        invariant Run(transitions, input, 0, start, start) == Run(transitions, input, current, inputPos, accFrom)
        decreases |input| - inputPos
      {
        var next := transitions[current][input[inputPos]];
        inputPos := inputPos + 1;
        current := next;
        if current == 0 {
          accFrom := inputPos;
        }
        if inputPos == |input| {
          if current == 0 {
            return true;
          }
          break;
        }
      }
      return false;
    }

    /** _tokenize: the two nested loops over the current input. */
    method ScanLoop() returns (r: Result<seq<T>>)
      requires Valid() && StartRejectsEmpty(states)
      modifies this`inputPos, this`accFrom, this`current, this`tokens
      ensures r == Tokenized(states, transitions, input)
      ensures r.Ok? ==> r.value == tokens
    {
      if 0 !in states {
        return Err(MissingInitialState);
      }
      inputPos := 0;
      tokens := [];
      ghost var whole := ScanFrom(states, transitions, input, 0);
      if whole.Ok? {
        assert tokens + whole.value == whole.value;
      }
      while inputPos < |input|
        invariant inputPos <= |input|
        invariant ScanFrom(states, transitions, input, 0) == Prepend(tokens, ScanFrom(states, transitions, input, inputPos))
        decreases |input| - inputPos
      {
        ghost var start := inputPos;
        var cleanEnd := FollowTransitions();
        if cleanEnd {
          assert tokens + [] == tokens;
          return Ok(tokens);
        }
        assert Run(transitions, input, 0, start, start) == Halt(current, inputPos, accFrom);
        assert current == 0 ==> Reader() == "";
        ScanFromHalt(states, transitions, input, start, current, inputPos, accFrom);
        ghost var before := tokens;
        var failure := CallAction();
        if failure.Some? {
          return Err(ActionFailure(failure.value));
        }
        PrependPrepend(before, states[current](Reader()).tokens, ScanFrom(states, transitions, input, inputPos));
      }
      assert tokens + [] == tokens;
      return Ok(tokens);
    }
  }
}
