/** What the scanner of asap-tokenizer computes, stated against the
    automaton's extended transition function `Walk`: each run takes the
    longest prefix the automaton can follow, its window starts after the
    last return to state 0, and characters consumed on the way back to
    state 0 leave no trace in the output. */
module ScanProperties {
  import opened Tokenizer

  /** Walking a slice of the input from its front. */
  lemma WalkFront(tr: Table, s: int, input: string, pos: nat, k: nat)
    requires pos < k <= |input|
    ensures Walk(tr, s, input[pos..k]) ==
              if s in tr && input[pos] in tr[s] then Walk(tr, tr[s][input[pos]], input[pos + 1..k]) else None
  {
    assert input[pos..k][0] == input[pos];
    assert input[pos..k][1..] == input[pos + 1..k];
  }

  /** After a transition on `input[pos]`, every longer slice walks on from
      the state it leads to. */
  lemma WalkStep(tr: Table, s: int, input: string, pos: nat)
    requires pos < |input| && s in tr && input[pos] in tr[s]
    ensures forall k :: pos < k <= |input| ==> Walk(tr, s, input[pos..k]) == Walk(tr, tr[s][input[pos]], input[pos + 1..k])
  {
    forall k | pos < k <= |input|
      ensures Walk(tr, s, input[pos..k]) == Walk(tr, tr[s][input[pos]], input[pos + 1..k])
    {
      WalkFront(tr, s, input, pos, k);
    }
  }

  /** A walk that gets stuck stays stuck on every longer slice. */
  lemma {:induction false} WalkStuck(tr: Table, s: int, input: string, pos: nat, j: nat, k: nat)
    requires pos <= j <= k <= |input|
    requires Walk(tr, s, input[pos..j]) == None
    ensures Walk(tr, s, input[pos..k]) == None
    decreases j - pos
  {
    assert input[pos..pos] == [];
    WalkFront(tr, s, input, pos, j);
    WalkFront(tr, s, input, pos, k);
    if s in tr && input[pos] in tr[s] {
      WalkStuck(tr, tr[s][input[pos]], input, pos + 1, j, k);
    }
  }

  /** A run ends the input cleanly exactly when the rest of the input walks
      from `cur` to state 0. */
  lemma {:induction false} RunEndsCleanly(tr: Table, input: string, cur: int, pos: nat, acc: nat)
    requires Closed(tr) && cur in tr
    requires acc <= pos < |input|
    requires cur == 0 ==> acc == pos
    ensures Run(tr, input, cur, pos, acc) == CleanEnd <==> Walk(tr, cur, input[pos..]) == Some(0)
    decreases |input| - pos
  {
    assert input[pos..] == input[pos..|input|];
    WalkFront(tr, cur, input, pos, |input|);
    if input[pos] in tr[cur] {
      var next := tr[cur][input[pos]];
      var acc' := if next == 0 then pos + 1 else acc;
      if pos + 1 == |input| {
        assert input[pos + 1..|input|] == [];
      } else {
        RunEndsCleanly(tr, input, next, pos + 1, acc');
        assert input[pos + 1..] == input[pos + 1..|input|];
      }
    }
  }

  /** A run that stops is in the state the consumed characters walk to, and
      the next character has no transition (maximal munch). */
  lemma {:induction false} RunStopsWhereWalkSticks(tr: Table, input: string, cur: int, pos: nat, acc: nat)
    requires Closed(tr) && cur in tr
    requires acc <= pos < |input|
    requires cur == 0 ==> acc == pos
    ensures var r := Run(tr, input, cur, pos, acc);
            r.Halt? ==>
              && Walk(tr, cur, input[pos..r.pos]) == Some(r.state)
              && (r.pos < |input| ==> Walk(tr, cur, input[pos..r.pos + 1]) == None)
    decreases |input| - pos
  {
    assert input[pos..pos] == [];
    WalkFront(tr, cur, input, pos, pos + 1);
    if input[pos] in tr[cur] {
      var next := tr[cur][input[pos]];
      var acc' := if next == 0 then pos + 1 else acc;
      assert input[pos + 1..pos + 1] == [];
      if pos + 1 < |input| {
        RunStopsWhereWalkSticks(tr, input, next, pos + 1, acc');
        WalkStep(tr, cur, input, pos);
      }
    }
  }

  /** The window of a run that stops starts after its last return to state
      0, or where the run started if it never returned. */
  lemma {:induction false} RunWindowStart(tr: Table, input: string, cur: int, pos: nat, acc: nat)
    requires Closed(tr) && cur in tr
    requires acc <= pos < |input|
    requires cur == 0 ==> acc == pos
    ensures var r := Run(tr, input, cur, pos, acc);
            r.Halt? ==>
              && (r.accFrom == acc || (pos < r.accFrom && Walk(tr, cur, input[pos..r.accFrom]) == Some(0)))
              && (forall k :: pos < k <= r.pos && r.accFrom < k ==> Walk(tr, cur, input[pos..k]) != Some(0))
    decreases |input| - pos
  {
    if input[pos] in tr[cur] {
      var next := tr[cur][input[pos]];
      var acc' := if next == 0 then pos + 1 else acc;
      WalkFront(tr, cur, input, pos, pos + 1);
      assert input[pos + 1..pos + 1] == [];
      if pos + 1 < |input| {
        RunWindowStart(tr, input, next, pos + 1, acc');
        WalkStep(tr, cur, input, pos);
      }
    }
  }

  /** The inner loop follows the automaton: it ends the input cleanly exactly
      when the rest of the input walks from `cur` to state 0; otherwise it
      stops in the state the consumed characters walk to, because the next
      character has no transition (maximal munch), with its window starting
      after the last return to state 0. */
  lemma RunFollowsWalk(tr: Table, input: string, cur: int, pos: nat, acc: nat)
    requires Closed(tr) && cur in tr
    requires acc <= pos < |input|
    requires cur == 0 ==> acc == pos
    ensures Run(tr, input, cur, pos, acc) == CleanEnd <==> Walk(tr, cur, input[pos..]) == Some(0)
    ensures var r := Run(tr, input, cur, pos, acc);
            r.Halt? ==>
              && Walk(tr, cur, input[pos..r.pos]) == Some(r.state)
              && (r.pos < |input| ==> Walk(tr, cur, input[pos..r.pos + 1]) == None)
              && (r.accFrom == acc || (pos < r.accFrom && Walk(tr, cur, input[pos..r.accFrom]) == Some(0)))
              && (forall k :: pos < k <= r.pos && r.accFrom < k ==> Walk(tr, cur, input[pos..k]) != Some(0))
  {
    RunEndsCleanly(tr, input, cur, pos, acc);
    RunStopsWhereWalkSticks(tr, input, cur, pos, acc);
    RunWindowStart(tr, input, cur, pos, acc);
  }

  /** Conversely, the walk alone determines where a run from state 0 stops:
      the longest followable prefix, in the state it walks to, with the
      window starting after its last visit to state 0. */
  lemma RunDeterminedByWalk(tr: Table, input: string, pos: nat, s: int, p: nat, a: nat)
    requires Closed(tr) && 0 in tr
    requires pos <= a <= p <= |input| && pos < |input|
    requires Walk(tr, 0, input[pos..p]) == Some(s)
    requires p < |input| ==> Walk(tr, 0, input[pos..p + 1]) == None
    requires p == |input| ==> s != 0
    requires a == pos || Walk(tr, 0, input[pos..a]) == Some(0)
    requires forall k :: a < k <= p ==> Walk(tr, 0, input[pos..k]) != Some(0)
    ensures Run(tr, input, 0, pos, pos) == Halt(s, p, a)
  {
    RunFollowsWalk(tr, input, 0, pos, pos);
    var r := Run(tr, input, 0, pos, pos);
    assert input[pos..] == input[pos..|input|];
    if p < |input| {
      WalkStuck(tr, 0, input, pos, p + 1, |input|);
    }
    if r.Halt? && r.pos < p {
      WalkStuck(tr, 0, input, pos, r.pos + 1, p);
    }
    if r.Halt? && p < r.pos {
      WalkStuck(tr, 0, input, pos, p + 1, r.pos);
    }
  }

  /** The scan from `pos` in terms of the walk: the action of the state at
      the end of the longest followable prefix decides the output. */
  lemma ScanTakesLongestMatch<T>(states: map<int, Action<T>>, tr: Table, input: string, pos: nat, s: int, p: nat, a: nat)
    requires WellFormed(states, tr) && 0 in states && StartRejectsEmpty(states)
    requires pos <= a <= p <= |input| && pos < |input|
    requires Walk(tr, 0, input[pos..p]) == Some(s)
    requires p < |input| ==> Walk(tr, 0, input[pos..p + 1]) == None
    requires p == |input| ==> s != 0
    requires a == pos || Walk(tr, 0, input[pos..a]) == Some(0)
    requires forall k :: a < k <= p ==> Walk(tr, 0, input[pos..k]) != Some(0)
    ensures s in states
    ensures states[s](input[a..p]).Throw? ==> ScanFrom(states, tr, input, pos) == Err(ActionFailure(states[s](input[a..p]).message))
    ensures states[s](input[a..p]).Push? ==> ScanFrom(states, tr, input, pos) == Prepend(states[s](input[a..p]).tokens, ScanFrom(states, tr, input, p))
  {
    RunDeterminedByWalk(tr, input, pos, s, p, a);
    ScanFromHalt(states, tr, input, pos, s, p, a);
  }

  /** Input that ends while the automaton is back in state 0 yields no token
      and calls no action. */
  lemma CleanEndEmitsNothing<T>(states: map<int, Action<T>>, tr: Table, input: string, pos: nat)
    requires WellFormed(states, tr) && 0 in states && StartRejectsEmpty(states)
    requires pos < |input| && Walk(tr, 0, input[pos..]) == Some(0)
    ensures Run(tr, input, 0, pos, pos) == CleanEnd
    ensures ScanFrom(states, tr, input, pos) == Ok([])
  {
    RunFollowsWalk(tr, input, 0, pos, pos);
  }

  /** A run that walks back to state 0 at `q` continues exactly as a fresh
      run started at `q`. */
  lemma {:induction false} RunThroughReset(tr: Table, input: string, cur: int, pos: nat, acc: nat, q: nat)
    requires Closed(tr) && cur in tr && 0 in tr
    requires acc <= pos < q <= |input|
    requires cur == 0 ==> acc == pos
    requires Walk(tr, cur, input[pos..q]) == Some(0)
    ensures q < |input| ==> Run(tr, input, cur, pos, acc) == Run(tr, input, 0, q, q)
    ensures q == |input| ==> Run(tr, input, cur, pos, acc) == CleanEnd
    decreases q - pos
  {
    WalkFront(tr, cur, input, pos, q);
    var next := tr[cur][input[pos]];
    var acc' := if next == 0 then pos + 1 else acc;
    if pos + 1 == q {
      assert input[pos + 1..q] == [];
    } else {
      RunThroughReset(tr, input, next, pos + 1, acc', q);
    }
  }

  /** Reset transparency: characters that walk from state 0 back to state 0
      change nothing in the output. */
  lemma ResetIsTransparent<T>(states: map<int, Action<T>>, tr: Table, input: string, pos: nat, q: nat)
    requires WellFormed(states, tr) && 0 in states && StartRejectsEmpty(states)
    requires pos <= q <= |input|
    requires Walk(tr, 0, input[pos..q]) == Some(0)
    ensures ScanFrom(states, tr, input, pos) == ScanFrom(states, tr, input, q)
  {
    if pos < q {
      RunThroughReset(tr, input, 0, pos, pos, q);
    }
  }

  /** A run that stops in state 0 before the end of input leaves the next
      outer iteration exactly where it started: that iteration stops in state
      0 at the same position with an empty window, so the scan can only end
      by state 0's action throwing. */
  lemma StallRepeats(tr: Table, input: string, pos: nat, p: nat, a: nat)
    requires Closed(tr) && 0 in tr && pos < |input|
    requires Run(tr, input, 0, pos, pos) == Halt(0, p, a)
    ensures p < |input| && a == p
    ensures Run(tr, input, 0, p, p) == Halt(0, p, p)
  {
  }

  /** An outer iteration that stops in a state other than 0 has consumed at
      least one character, and the state-0 action only ever sees the empty
      window. */
  lemma RunProgress(tr: Table, input: string, pos: nat)
    requires Closed(tr) && 0 in tr && pos < |input|
    ensures var r := Run(tr, input, 0, pos, pos);
            r.Halt? ==> (r.state != 0 ==> pos < r.pos) && (r.state == 0 ==> input[r.accFrom..r.pos] == "")
  {
  }
}
