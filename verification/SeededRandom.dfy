/** The SplitMix64 source of random.go: its mixing function, its class, its period and
    distribution, and what concurrent callers draw from one source. */
module SeededRandoms {
  import opened Counting
  import opened Options
  import opened Runs
  import opened Words

  const GAMMA: Word := 0x9E3779B97F4A7C15
  const MUL_1: Word := 0xBF58476D1CE4E5B9
  const MUL_2: Word := 0x94D049BB133111EB
  const UNGAMMA: Word := 0xF1DE83E19937733D
  const UNMUL_1: Word := 0x96DE1B173F119089
  const UNMUL_2: Word := 0x319642B2D24D8EC3
  const DRAWS: nat := 0x20_0000_0000_0000  // 2^53

  /** The two xor-shift-multiply rounds and the final xor-shift. */
  function Mix(z: Word): Word {
    XorShift(Mul(XorShift(Mul(XorShift(z, 30), MUL_1), 27), MUL_2), 31)
  }

  function Unmix(w: Word): Word {
    UnXorShift(Mul(UnXorShift(Mul(UnXorShift(w, 31), UNMUL_2), 27), UNMUL_1), 30)
  }

  /** The state once n draws were taken from a source built with this seed. */
  function StateAfter(seed: Word, n: nat): Word {
    (seed + n * GAMMA) % W
  }

  /** The numerator of the draw a state yields: the draw is this over 2^53. */
  function Numerator(state: Word): (v: nat)
    ensures v < DRAWS
  {
    var w := Mix(state);
    ShrIsQuotient(w, 11);
    assert Pow2(11) == 2048;
    Shr(w, 11)
  }

  /** The draw with this index, the first having index 0. */
  function Draw(seed: Word, index: nat): nat {
    Numerator(StateAfter(seed, index + 1))
  }

  function Draws(seed: Word, n: nat): (s: seq<nat>)
    ensures |s| == n
  {
    seq(n, (i: nat) => Draw(seed, i))
  }

  class SeededRandom {
    const seed: Word
    var state: Word

    /** How many draws were taken; it fixes the state. */
    ghost var taken: nat

    ghost predicate Valid()
      reads this
    {
      state == StateAfter(seed, taken)
    }

    constructor (seed: Word)
      ensures Valid() && this.seed == seed && taken == 0
    {
      this.seed := seed;
      state := seed;
      taken := 0;
    }

    /** Returns the draw as its numerator over 2^53. */
    method Float64() returns (numerator: nat)
      requires Valid()
      modifies this
      ensures Valid() && taken == old(taken) + 1
      ensures numerator == Draw(seed, old(taken))
      ensures 0.0 <= numerator as real / DRAWS as real < 1.0
    {
      StateStep(seed, taken);
      state := (state + GAMMA) % W;
      taken := taken + 1;
      var z: Word := state;
      z := Mul(XorShift(z, 30), MUL_1);
      z := Mul(XorShift(z, 27), MUL_2);
      z := XorShift(z, 31);
      ShrIsQuotient(z, 11);
      assert Pow2(11) == 2048;
      numerator := Shr(z, 11);
    }
  }

  // ---------- the mixing function is a bijection ----------

  lemma ModUnique(x: int, c: int, r: Word)
    requires x == r + W * c
    ensures x % W == r
  {
  }

  lemma MulInverse1(x: Word)
    ensures Mul(Mul(x, MUL_1), UNMUL_1) == x && Mul(Mul(x, UNMUL_1), MUL_1) == x
  {
    var k := (MUL_1 * UNMUL_1) / W;
    assert MUL_1 * UNMUL_1 == 1 + W * k;
    var q := (x * MUL_1) / W;
    ModUnique(Mul(x, MUL_1) * UNMUL_1, k * x - q * UNMUL_1, x);
    q := (x * UNMUL_1) / W;
    ModUnique(Mul(x, UNMUL_1) * MUL_1, k * x - q * MUL_1, x);
  }

  lemma MulInverse2(x: Word)
    ensures Mul(Mul(x, MUL_2), UNMUL_2) == x && Mul(Mul(x, UNMUL_2), MUL_2) == x
  {
    var k := (MUL_2 * UNMUL_2) / W;
    assert MUL_2 * UNMUL_2 == 1 + W * k;
    var q := (x * MUL_2) / W;
    ModUnique(Mul(x, MUL_2) * UNMUL_2, k * x - q * UNMUL_2, x);
    q := (x * UNMUL_2) / W;
    ModUnique(Mul(x, UNMUL_2) * MUL_2, k * x - q * MUL_2, x);
  }

  /** The output function loses nothing: Unmix undoes it on both sides. */
  lemma MixIsBijective(z: Word)
    ensures Unmix(Mix(z)) == z && Mix(Unmix(z)) == z
  {
    var a := Mul(XorShift(z, 30), MUL_1);
    var b := Mul(XorShift(a, 27), MUL_2);
    XorShiftInverse(b, 31);
    MulInverse2(XorShift(a, 27));
    XorShiftInverse(a, 27);
    MulInverse1(XorShift(z, 30));
    XorShiftInverse(z, 30);

    var c := Mul(UnXorShift(z, 31), UNMUL_2);
    var d := Mul(UnXorShift(c, 27), UNMUL_1);
    XorShiftInverse(d, 30);
    MulInverse1(UnXorShift(c, 27));
    XorShiftInverse(c, 27);
    MulInverse2(UnXorShift(z, 31));
    XorShiftInverse(z, 31);
  }

  // ---------- the state has full period ----------

  lemma StateStep(seed: Word, n: nat)
    ensures StateAfter(seed, n + 1) == (StateAfter(seed, n) + GAMMA) % W
  {
    var c := (seed + n * GAMMA) / W;
    var e := (StateAfter(seed, n) + GAMMA) / W;
    ModUnique(seed + (n + 1) * GAMMA, c + e, (StateAfter(seed, n) + GAMMA) % W);
  }

  /** The draw count below the period at which the state is s. */
  function StepsTo(seed: Word, s: Word): Word {
    ((s - seed) * UNGAMMA) % W
  }

  /** Over one period the state visits every word, each exactly once. */
  lemma FullPeriod(seed: Word, s: Word, n: Word)
    ensures StateAfter(seed, StepsTo(seed, s)) == s
    ensures StepsTo(seed, StateAfter(seed, n)) == n
  {
    var k := (GAMMA * UNGAMMA) / W;
    assert GAMMA * UNGAMMA == 1 + W * k;
    var q := ((s - seed) * UNGAMMA) / W;
    ModUnique(seed + StepsTo(seed, s) * GAMMA, k * (s - seed) - q * GAMMA, s);
    q := (seed + n * GAMMA) / W;
    ModUnique((StateAfter(seed, n) - seed) * UNGAMMA, k * n - q * UNGAMMA, n);
  }

  /** A source repeats itself after exactly 2^64 draws and no sooner. */
  lemma StatePeriod(seed: Word, m: nat, n: nat)
    ensures StateAfter(seed, n + W) == StateAfter(seed, n)
    ensures m < n < m + W ==> StateAfter(seed, m) != StateAfter(seed, n)
  {
    ModUnique(seed + (n + W) * GAMMA, GAMMA + (seed + n * GAMMA) / W, StateAfter(seed, n));
    if m < n < m + W && StateAfter(seed, m) == StateAfter(seed, n) {
      var base := StateAfter(seed, m);
      var c, e := (seed + m * GAMMA) / W, (seed + n * GAMMA) / W;
      ModUnique(base + (n - m) * GAMMA, e - c, base);
      assert StateAfter(base, n - m) == base == StateAfter(base, 0);
      assert false by {
        FullPeriod(base, base, n - m);
        FullPeriod(base, base, 0);
      }
    }
  }

  // ---------- every value is drawn equally often ----------

  /** The index of the draw that follows the state with this step count. */
  function Before(n: Word): Word {
    if n == 0 then W - 1 else n - 1
  }

  lemma StateAfterBefore(seed: Word, n: Word)
    ensures StateAfter(seed, Before(n) + 1) == StateAfter(seed, n)
  {
    if n == 0 {
      StatePeriod(seed, 0, 0);
      assert Before(n) + 1 == 0 + W;
    }
  }

  /** The index, below the period, of the draw whose mixed word is w. */
  function IndexOf(seed: Word, w: Word): Word {
    Before(StepsTo(seed, Unmix(w)))
  }

  lemma StateAtIndex(seed: Word, w: Word)
    ensures StateAfter(seed, IndexOf(seed, w) + 1) == Unmix(w)
  {
    StateAfterBefore(seed, StepsTo(seed, Unmix(w)));
    FullPeriod(seed, Unmix(w), 0);
  }

  lemma IndexThenWord(seed: Word, w: Word)
    ensures WordAt(seed, IndexOf(seed, w)) == w
  {
    StateAtIndex(seed, w);
    MixIsBijective(w);
  }

  lemma WordThenIndex(seed: Word, i: nat)
    requires i < W
    ensures IndexOf(seed, WordAt(seed, i)) == i
  {
    MixIsBijective(StateAfter(seed, i + 1));
    if i + 1 == W {
      StatePeriod(seed, 0, 0);
      FullPeriod(seed, 0, 0);
    } else {
      FullPeriod(seed, 0, i + 1);
    }
  }

  /** The mixed word of the draw with this index. */
  function WordAt(seed: Word, i: nat): Word {
    Mix(StateAfter(seed, i + 1))
  }

  lemma NumeratorIsTop(seed: Word, i: nat, v: nat)
    requires v < DRAWS
    ensures Draw(seed, i) == v <==> v * 2048 <= WordAt(seed, i) < v * 2048 + 2048
  {
    ShrIsQuotient(WordAt(seed, i), 11);
    assert Pow2(11) == 2048;
  }

  /** IndexOf as a total function. */
  function IndexBelow(seed: Word, w: nat): nat {
    if w < W then IndexOf(seed, w) else 0
  }

  lemma BlockOfWords(seed: Word, lo: nat, size: nat)
    requires lo + size <= W
    ensures |set i: nat | i < W && lo <= WordAt(seed, i) < lo + size| == size
  {
    var word: nat -> nat := (i: nat) => WordAt(seed, i);
    var index: nat -> nat := (w: nat) => IndexBelow(seed, w);
    forall w: nat | w < W
      ensures index(w) < W && word(index(w)) == w
    {
      IndexThenWord(seed, w);
    }
    forall i: nat | i < W
      ensures word(i) < W && index(word(i)) == i
    {
      WordThenIndex(seed, i);
    }
    BlockCount(word, index, W, lo, size);
    assert (set i: nat | i < W && lo <= WordAt(seed, i) < lo + size)
        == (set i: nat | i < W && lo <= word(i) < lo + size);
  }

  /** Over one period of 2^64 draws each of the 2^53 values occurs exactly 2^11 times. */
  lemma Equidistribution(seed: Word, v: nat)
    requires v < DRAWS
    ensures |set i: nat | i < W && Draw(seed, i) == v| == 2048
  {
    BlockOfWords(seed, v * 2048, 2048);
    var drawn := set i: nat | i < W && Draw(seed, i) == v;
    var block := set i: nat | i < W && v * 2048 <= WordAt(seed, i) < v * 2048 + 2048;
    forall i: nat
      ensures i in drawn <==> i in block
    {
      NumeratorIsTop(seed, i, v);
    }
    assert drawn == block;
  }

  // ---------- concurrent callers share one sequence ----------

  /** One source under any number of callers. A call adds to the shared state in one
      atomic step and mixes the sum it got back on its own, so a call in flight is the
      word it holds. Finished calls are listed in the order they return. */
  datatype Shared = Shared(state: Word, inFlight: multiset<Word>, mixed: seq<Word>, results: seq<nat>)

  datatype Move = Add | Finish(z: Word)

  function Fresh(seed: Word): Shared {
    Shared(seed, multiset{}, [], [])
  }

  function Step(s: Shared, m: Move): Option<Shared> {
    match m
    case Add =>
      var z := (s.state + GAMMA) % W;
      Some(s.(state := z, inFlight := s.inFlight + multiset{z}))
    case Finish(z) =>
      if z !in s.inFlight then None
      else Some(s.(inFlight := s.inFlight - multiset{z},
                   mixed := s.mixed + [z],
                   results := s.results + [Numerator(z)]))
  }

  function Adds(moves: seq<Move>): nat {
    if moves == [] then 0
    else Adds(moves[..|moves| - 1]) + (if moves[|moves| - 1].Add? then 1 else 0)
  }

  function States(seed: Word, n: nat): (s: seq<Word>)
    ensures |s| == n
  {
    seq(n, (i: nat) => StateAfter(seed, i + 1))
  }

  /** Every word handed out is either held by a call in flight or already mixed. */
  ghost predicate Accounted(seed: Word, n: nat, s: Shared) {
    && s.state == StateAfter(seed, n)
    && s.inFlight + multiset(s.mixed) == multiset(States(seed, n))
    && s.results == Map(Numerator, s.mixed)
  }

  lemma AddAccounted(seed: Word, n: nat, s: Shared)
    requires Accounted(seed, n, s)
    ensures Accounted(seed, n + 1, Step(s, Add).value)
  {
    StateStep(seed, n);
    assert States(seed, n + 1) == States(seed, n) + [StateAfter(seed, n + 1)];
  }

  lemma FinishAccounted(seed: Word, n: nat, s: Shared, z: Word)
    requires Accounted(seed, n, s) && z in s.inFlight
    ensures Accounted(seed, n, Step(s, Finish(z)).value)
  {
    assert Map(Numerator, s.mixed + [z]) == Map(Numerator, s.mixed) + [Numerator(z)];
  }

  lemma {:induction false} InFlightOrMixed(seed: Word, moves: seq<Move>, s: Shared)
    requires Exec(Step, Fresh(seed), moves) == Some(s)
    ensures Accounted(seed, Adds(moves), s)
    decreases |moves|
  {
    if moves == [] {
      assert States(seed, 0) == [];
    } else {
      var before, m := moves[..|moves| - 1], moves[|moves| - 1];
      var p := Exec(Step, Fresh(seed), before).value;
      InFlightOrMixed(seed, before, p);
      match m
      case Add => AddAccounted(seed, Adds(before), p);
      case Finish(z) => FinishAccounted(seed, Adds(before), p, z);
    }
  }

  lemma DrawsAreMapped(seed: Word, n: nat)
    ensures Map(Numerator, States(seed, n)) == Draws(seed, n)
  {
    forall i: nat | i < n
      ensures Map(Numerator, States(seed, n))[i] == Draws(seed, n)[i]
    {
      assert States(seed, n)[i] == StateAfter(seed, i + 1);
      assert Draws(seed, n)[i] == Draw(seed, i);
    }
  }

  /** However the calls interleave, once all of them returned their results are, as a
      multiset, the first draws of the sequential run for the same seed. */
  lemma InterleavingIndependence(seed: Word, moves: seq<Move>, s: Shared)
    requires Exec(Step, Fresh(seed), moves) == Some(s)
    requires s.inFlight == multiset{}
    ensures multiset(s.results) == multiset(Draws(seed, Adds(moves)))
  {
    InFlightOrMixed(seed, moves, s);
    AllMixed(seed, Adds(moves), s);
  }

  lemma AllMixed(seed: Word, n: nat, s: Shared)
    requires Accounted(seed, n, s) && s.inFlight == multiset{}
    ensures multiset(s.results) == multiset(Draws(seed, n))
  {
    assert multiset(s.mixed) == multiset(States(seed, n));
    MapPreservesMultiset(Numerator, s.mixed, States(seed, n));
    DrawsAreMapped(seed, n);
  }
}
