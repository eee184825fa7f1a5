/** An optional value. */
module Options {
  datatype Option<+T> = None | Some(value: T)
}

/** Runs of a state machine whose steps are partial: a move that is not enabled in a
    state yields None. Every interleaving of the modelled goroutines is one sequence of
    moves, so a claim about all runs is a claim about all such sequences. */
module Runs {
  import opened Options

  /** The state after these moves from s, or None when one of them is not enabled. */
  function Exec<S, M>(step: (S, M) -> Option<S>, s: S, moves: seq<M>): Option<S> {
    if moves == [] then Some(s)
    else
      match Exec(step, s, moves[..|moves| - 1])
      case None => None
      case Some(p) => step(p, moves[|moves| - 1])
  }

  ghost predicate Preserves<S(!new), M(!new)>(step: (S, M) -> Option<S>, inv: S -> bool) {
    forall s, m :: inv(s) && step(s, m).Some? ==> inv(step(s, m).value)
  }

  /** What holds at the start and is kept by every move holds at the end of every run. */
  lemma {:induction false} Invariant<S(!new), M(!new)>(
      step: (S, M) -> Option<S>, inv: S -> bool, s: S, moves: seq<M>)
    requires inv(s) && Preserves(step, inv)
    ensures Exec(step, s, moves).Some? ==> inv(Exec(step, s, moves).value)
    decreases |moves|
  {
    if moves != [] {
      Invariant(step, inv, s, moves[..|moves| - 1]);
    }
  }

  /** A run may be cut anywhere: its parts are runs, one from where the other ends. */
  lemma {:induction false} Concatenation<S, M>(step: (S, M) -> Option<S>, s: S, a: seq<M>, b: seq<M>)
    ensures Exec(step, s, a + b) ==
            match Exec(step, s, a) case None => None case Some(p) => Exec(step, p, b)
    decreases |b|
  {
    if b == [] {
      assert a + b == a;
    } else {
      assert (a + b)[..|a + b| - 1] == a + b[..|b| - 1];
      Concatenation(step, s, a, b[..|b| - 1]);
    }
  }

  /** A run goes on with any move enabled where it ends. */
  lemma Extend<S, M>(step: (S, M) -> Option<S>, s: S, moves: seq<M>, m: M) returns (longer: seq<M>, s': S)
    requires Exec(step, s, moves).Some? && step(Exec(step, s, moves).value, m).Some?
    ensures longer == moves + [m] && s' == step(Exec(step, s, moves).value, m).value
    ensures Exec(step, s, longer) == Some(s')
  {
    longer, s' := moves + [m], step(Exec(step, s, moves).value, m).value;
    assert longer[..|longer| - 1] == moves;
  }

  function Repeat<M>(m: M, n: nat): (moves: seq<M>)
    ensures |moves| == n
  {
    seq(n, _ => m)
  }

  /** Repeating a move n times and then once more. */
  lemma Again<S, M>(step: (S, M) -> Option<S>, s: S, m: M, n: nat) returns (s': S)
    requires Exec(step, s, Repeat(m, n)).Some? && step(Exec(step, s, Repeat(m, n)).value, m).Some?
    ensures s' == step(Exec(step, s, Repeat(m, n)).value, m).value
    ensures Exec(step, s, Repeat(m, n + 1)) == Some(s')
  {
    s' := step(Exec(step, s, Repeat(m, n)).value, m).value;
    assert Repeat(m, n + 1)[..n] == Repeat(m, n);
  }
}
