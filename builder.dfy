/** The chaining facade of asap-tokenizer: a TransitionBuilder is bound to
    one tokenizer and one target state `to`; `From` captures a source state
    and `With` adds the transitions from that source to the target. */
module Builder {
  import opened Tokenizer

  class TransitionBuilder<T> {
    // set once by the constructor; no method reassigns them
    const tokenizer: AsapTokenizer<T>
    const to: int

    constructor (tokenizer: AsapTokenizer<T>, to: int)
      ensures this.tokenizer == tokenizer && this.to == to
    {
      this.tokenizer := tokenizer;
      this.to := to;
    }

    /** The tokenizer given to the constructor. */
    function GetTokenizer(): (t: AsapTokenizer<T>)
      ensures t == tokenizer
    {
      tokenizer
    }

    /** Forwards to the tokenizer's AddState, with its error and its effect,
        and returns the tokenizer itself rather than a builder. */
    method AddState(id: int, state: Action<T>) returns (r: Result<AsapTokenizer<T>>)
      requires tokenizer.Valid()
      modifies tokenizer`states, tokenizer`transitions
      ensures tokenizer.Valid()
      ensures id in old(tokenizer.states) ==> r == Err(DuplicateState(id))
      ensures id in old(tokenizer.states) ==> tokenizer.states == old(tokenizer.states) && tokenizer.transitions == old(tokenizer.transitions)
      ensures id !in old(tokenizer.states) ==> r == Ok(tokenizer)
      ensures id !in old(tokenizer.states) ==>
                tokenizer.states == old(tokenizer.states)[id := state] && tokenizer.transitions == AddRow(old(tokenizer.transitions), id)
    {
      r := tokenizer.AddState(id, state);
    }

    /** A handle that remembers the source state and this builder's target;
        the tokenizer is not touched. */
    method From(stateId: int) returns (w: TransitionBuilderWaitingForCondition<T>)
      ensures fresh(w)
      ensures w.from == stateId && w.to == to && w.builder == this
    {
      w := new TransitionBuilderWaitingForCondition(stateId, to, this);
    }
  }

  class TransitionBuilderWaitingForCondition<T> {
    const from: int
    const to: int
    const builder: TransitionBuilder<T>

    constructor (from: int, to: int, builder: TransitionBuilder<T>)
      ensures this.from == from && this.to == to && this.builder == builder
    {
      this.from := from;
      this.to := to;
      this.builder := builder;
    }

    /** Exactly addTransition(chars, from, to) on the builder's tokenizer,
        with its errors and its effect; returns the originating builder. */
    method With(chars: string) returns (r: Result<TransitionBuilder<T>>)
      requires builder.tokenizer.Valid()
      modifies builder.tokenizer`transitions
      ensures builder.tokenizer.Valid()
      ensures from !in old(builder.tokenizer.transitions) ==> r == Err(UnknownFromState(from, to))
      ensures from in old(builder.tokenizer.transitions) && to !in builder.tokenizer.states ==> r == Err(UnknownToState(from, to))
      ensures r.Err? ==> builder.tokenizer.transitions == old(builder.tokenizer.transitions)
      ensures from in old(builder.tokenizer.transitions) && to in builder.tokenizer.states ==> r == Ok(builder)
      ensures r.Ok? ==> builder.tokenizer.transitions == Connect(old(builder.tokenizer.transitions), chars, from, to)
    {
      var t := builder.GetTokenizer();
      var added := t.AddTransition(chars, from, to);
      if added.Err? {
        return Err(added.error);
      }
      return Ok(builder);
    }
  }
}
