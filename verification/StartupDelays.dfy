/** The startup delays of worker.go: each worker draws its delay from the client's random
    source when it is built, and Run only waits it out. */
module StartupDelays {
  import opened Cadence
  import opened Options
  import opened Runs
  import opened SeededRandoms
  import opened Words

  /** The delay, in nanoseconds, that a draw of numerator / 2^53 gives. */
  function DelayOf(numerator: nat, maxSeconds: int): (d: nat)
    requires numerator < DRAWS
    ensures maxSeconds <= 0 ==> d == 0
    ensures maxSeconds > 0 ==> d < maxSeconds * SECOND
    ensures maxSeconds > 0 ==> d * DRAWS <= numerator * (maxSeconds * 1_000_000_000) < (d + 1) * DRAWS
  {
    if maxSeconds <= 0 then 0
    else
      Scaled(numerator, maxSeconds * SECOND);
      numerator * (maxSeconds * SECOND) / DRAWS
  }

  lemma Scaled(k: nat, span: nat)
    requires k < DRAWS && span > 0
    ensures k * span / DRAWS < span
  {
    assert k * span < DRAWS * span;
  }

  method StartupJitter(r: SeededRandom, maxSeconds: int) returns (delay: nat)
    requires r.Valid()
    modifies r
    ensures r.Valid() && r.taken == old(r.taken) + Cost(maxSeconds)
    ensures delay == DelayOf(Draw(r.seed, old(r.taken)), maxSeconds)
  {
    if maxSeconds <= 0 {
      return 0;
    }
    var numerator := r.Float64();
    delay := DelayOf(numerator, maxSeconds);
  }

  /** How many draws building a worker takes. */
  function Cost(maxSeconds: int): nat {
    if maxSeconds <= 0 then 0 else 1
  }

  // ---------- a client's workers ----------

  /** The delay a source with this seed gives with its k-th draw. */
  function Sequence(seed: Word, maxSeconds: int): nat -> nat {
    (k: nat) => DelayOf(Draw(seed, k), maxSeconds)
  }

  /** Workers built one after another on one source, their Run goroutines in any order, and
      other draws from the same source in between (retry backoff, stream endpoint choice).
      source gives the delay of each draw, jitter whether building a worker draws at all. */
  datatype Fleet = Fleet(source: nat -> nat, jitter: bool, taken: nat, delays: seq<nat>, waited: map<nat, nat>)

  datatype Move = Build | Run(worker: nat) | Retry

  function New(source: nat -> nat, jitter: bool): Fleet {
    Fleet(source, jitter, 0, [], map[])
  }

  function Step(f: Fleet, m: Move): Option<Fleet> {
    match m
    case Build =>
      if f.jitter then Some(f.(delays := f.delays + [f.source(f.taken)], taken := f.taken + 1))
      else Some(f.(delays := f.delays + [0]))
    case Run(i) =>
      if i < |f.delays| && i !in f.waited then Some(f.(waited := f.waited[i := f.delays[i]])) else None
    case Retry => Some(f.(taken := f.taken + 1))
  }

  predicate IsBuild(m: Move) {
    m.Build?
  }

  predicate IsRetry(m: Move) {
    m.Retry?
  }

  function Count(moves: seq<Move>, kind: Move -> bool): nat {
    if moves == [] then 0
    else Count(moves[..|moves| - 1], kind) + (if kind(moves[|moves| - 1]) then 1 else 0)
  }

  /** The other draws taken before this worker was built. */
  function RetriesBefore(moves: seq<Move>, worker: nat): nat
    decreases |moves|
  {
    if moves == [] then 0
    else if Count(moves, IsBuild) <= worker then Count(moves, IsRetry)
    else RetriesBefore(moves[..|moves| - 1], worker)
  }

  /** The delay of a worker, by the place of its draw in the source's sequence. */
  function DelayAt(f: Fleet, moves: seq<Move>, worker: nat): nat {
    if f.jitter then f.source(worker + RetriesBefore(moves, worker)) else 0
  }

  ghost predicate Follows(f: Fleet, moves: seq<Move>) {
    && |f.delays| == Count(moves, IsBuild)
    && f.taken == (if f.jitter then |f.delays| else 0) + Count(moves, IsRetry)
    && (forall i <- f.waited :: i < |f.delays| && f.waited[i] == f.delays[i])
    && forall i: nat {:trigger f.delays[i]} :: i < |f.delays| ==> f.delays[i] == DelayAt(f, moves, i)
  }

  lemma RetriesBeforeStays(moves: seq<Move>, m: Move, worker: nat)
    requires worker < Count(moves, IsBuild) || (worker == Count(moves, IsBuild) && m.Build?)
    ensures RetriesBefore(moves + [m], worker) == RetriesBefore(moves, worker)
    ensures worker == Count(moves, IsBuild) ==> RetriesBefore(moves, worker) == Count(moves, IsRetry)
  {
    assert (moves + [m])[..|moves|] == moves;
  }

  /** Whatever the schedule, the k-th worker built has the delay of draw k plus the other
      draws taken before, and waits exactly that when it runs. */
  lemma {:induction false} DelaysAreDraws(source: nat -> nat, jitter: bool, moves: seq<Move>, f: Fleet)
    requires Exec(Step, New(source, jitter), moves) == Some(f)
    ensures Follows(f, moves) && f.source == source && f.jitter == jitter
    decreases |moves|
  {
    if moves != [] {
      var before, m := moves[..|moves| - 1], moves[|moves| - 1];
      var p := Exec(Step, New(source, jitter), before).value;
      DelaysAreDraws(source, jitter, before, p);
      assert moves == before + [m];
      StepFollows(p, before, m);
    }
  }

  lemma StepFollows(p: Fleet, before: seq<Move>, m: Move)
    requires Follows(p, before) && Step(p, m).Some?
    ensures Follows(Step(p, m).value, before + [m])
  {
    var f := Step(p, m).value;
    assert (before + [m])[..|before|] == before;
    forall i: nat | i < |f.delays|
      ensures f.delays[i] == DelayAt(f, before + [m], i)
    {
      RetriesBeforeStays(before, m, i);
    }
  }

  ghost predicate BuiltFirst(moves: seq<Move>, n: nat) {
    n <= |moves| && forall k :: 0 <= k < n ==> moves[k].Build?
  }

  lemma {:induction false} NoneBefore(moves: seq<Move>, n: nat, worker: nat)
    requires BuiltFirst(moves, n) && worker < n
    ensures worker < Count(moves, IsBuild) && RetriesBefore(moves, worker) == 0
    decreases |moves|
  {
    var before := moves[..|moves| - 1];
    if |moves| > n || worker + 1 < n {
      NoneBefore(before, if |moves| > n then n else n - 1, worker);
    } else {
      OnlyBuilds(before);
    }
  }

  lemma {:induction false} OnlyBuilds(moves: seq<Move>)
    requires BuiltFirst(moves, |moves|)
    ensures Count(moves, IsBuild) == |moves| && Count(moves, IsRetry) == 0
    decreases |moves|
  {
    if moves != [] {
      OnlyBuilds(moves[..|moves| - 1]);
    }
  }

  /** Workers built before anything else draws get the source's first draws as delays,
      however their Run goroutines and the draws those cause are scheduled. */
  lemma BuiltFirstDelays(source: nat -> nat, moves: seq<Move>, f: Fleet, n: nat, worker: nat)
    requires Exec(Step, New(source, true), moves) == Some(f) && BuiltFirst(moves, n) && worker < n
    ensures worker < |f.delays| && f.delays[worker] == source(worker)
    ensures worker in f.waited ==> f.waited[worker] == source(worker)
  {
    DelaysAreDraws(source, true, moves, f);
    NoneBefore(moves, n, worker);
  }

  /** So two runs with the same seed give each such worker the same delay. */
  lemma SchedulingIndependence(
      seed: Word, maxSeconds: int, a: seq<Move>, f: Fleet, b: seq<Move>, g: Fleet, n: nat, worker: nat)
    requires maxSeconds > 0 && worker < n
    requires Exec(Step, New(Sequence(seed, maxSeconds), true), a) == Some(f) && BuiltFirst(a, n)
    requires Exec(Step, New(Sequence(seed, maxSeconds), true), b) == Some(g) && BuiltFirst(b, n)
    ensures worker < |f.delays| && worker < |g.delays|
    ensures f.delays[worker] == g.delays[worker] == DelayOf(Draw(seed, worker), maxSeconds)
    ensures worker in f.waited && worker in g.waited ==> f.waited[worker] == g.waited[worker]
  {
    var source := Sequence(seed, maxSeconds);
    BuiltFirstDelays(source, a, f, n, worker);
    BuiltFirstDelays(source, b, g, n, worker);
    assert source(worker) == DelayOf(Draw(seed, worker), maxSeconds);
  }
}
