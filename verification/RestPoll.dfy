/** worker.go: JobWorker.runRESTPoll, the long-polling loop, with its handler goroutines and
    the atomic counter of jobs in flight, as one interleaved machine. */
module RestPoll {
  import opened Cadence
  import opened Counting
  import opened Options
  import opened Retrying
  import opened Runs

  /** pollInterval is as configured, zero and negative included. bounded says whether the
      gateway returns at most the number of jobs it was asked for. */
  datatype Config = Config(maxConcurrent: nat, pollInterval: int, bounded: bool)

  predicate ValidConfig(c: Config) {
    c.maxConcurrent > 0
  }

  /** The polling goroutine; the head of queue is the job being dispatched. */
  datatype MainPc =
    | Loops
    | Loads
    | Activates(free: nat)
    | Dispatches(queue: seq<nat>)
    | InFlight(queue: seq<nat>)      // counted in flight
    | Counted(queue: seq<nat>)       // and by the WaitGroup
    | Sleeps(until: nat)
    | Waits
    | Returned(canceled: bool)

  /** inFlight is the atomic counter, wg the WaitGroup's. releasing goroutines have
      acknowledged and still count in flight, finishing ones only in the WaitGroup. */
  datatype Pool = Pool(
    inFlight: int,
    wg: nat,
    delivered: multiset<nat>,
    running: multiset<nat>,
    acking: multiset<nat>,
    acked: multiset<nat>,
    releasing: nat,
    finishing: nat)

  datatype State = State(
    cfg: Config,
    canceled: bool,
    main: MainPc,
    pool: Pool,
    now: nat,                // time since the loop was entered
    activations: nat,        // calls of activate made
    productive: nat,         // those that brought jobs
    waits: nat,              // waits that ran their time
    waitFailed: bool)        // a wait failed though ctx was not canceled

  function Start(c: Config): State {
    State(c, false, Loops, Pool(0, 0, multiset{}, multiset{}, multiset{}, multiset{}, 0, 0), 0, 0, 0, 0, false)
  }

  datatype Move =
    | Cancel
    | Tick(dt: nat)
    | Proceed
    | Divert                 // the activation or the wait returns an error
    | Batch(jobs: seq<nat>)  // the activation succeeds
    | Return(job: nat)       // a handler returns
    | Acked(job: nat)        // its acknowledgement returns
    | Release
    | Finish

  function Rest(s: State): State {
    s.(main := Sleeps(s.now + Clamped(s.cfg.pollInterval)))
  }

  /** The loop around the activation. */
  function LoopStep(s: State, m: Move): Option<State> {
    match s.main
    case Loops => if m.Proceed? then Some(s.(main := if s.canceled then Waits else Loads)) else None
    case Loads =>
      if !m.Proceed? then None
      else
        var free := s.cfg.maxConcurrent - s.pool.inFlight;
        if free <= 0 then Some(Rest(s)) else Some(s.(main := Activates(free), activations := s.activations + 1))
    case Sleeps(until) =>
      if m.Proceed? && s.now >= until then Some(s.(main := Loops, waits := s.waits + 1))
      else if m.Divert? then Some(s.(main := Waits, waitFailed := s.waitFailed || !s.canceled))
      else None
    case Waits => if m.Proceed? && s.pool.wg == 0 then Some(s.(main := Returned(s.canceled))) else None
    case _ => None
  }

  predicate InBatch(pc: MainPc) {
    pc.Activates? || pc.Dispatches? || pc.InFlight? || pc.Counted?
  }

  /** One activation and the dispatch of what it brought. */
  function BatchStep(s: State, m: Move): Option<State> {
    var p := s.pool;
    match s.main
    case Activates(free) =>
      if m.Divert? then Some(if s.canceled then s.(main := Waits) else Rest(s))
      else if !m.Batch? || (s.cfg.bounded && |m.jobs| > free) then None
      else if m.jobs == [] then Some(Rest(s))
      else Some(s.(main := Dispatches(m.jobs), pool := p.(delivered := p.delivered + multiset(m.jobs)),
                   productive := s.productive + 1))
    case Dispatches(queue) =>
      if !m.Proceed? then None
      else if queue == [] then Some(s.(main := Loops))
      else Some(s.(main := InFlight(queue), pool := p.(inFlight := p.inFlight + 1)))
    case InFlight(queue) => if m.Proceed? then Some(s.(main := Counted(queue), pool := p.(wg := p.wg + 1))) else None
    case Counted(queue) =>
      if m.Proceed? && queue != [] then
        Some(s.(main := Dispatches(queue[1..]), pool := p.(running := p.running + multiset{queue[0]})))
      else None
    case _ => None
  }

  /** A handler goroutine: handler, acknowledgement, in-flight counter, WaitGroup. */
  function HandlerStep(p: Pool, m: Move): Option<Pool> {
    if m.Return? && m.job in p.running then
      Some(p.(running := p.running - multiset{m.job}, acking := p.acking + multiset{m.job}))
    else if m.Acked? && m.job in p.acking then
      Some(p.(acking := p.acking - multiset{m.job}, acked := p.acked + multiset{m.job}, releasing := p.releasing + 1))
    else if m.Release? && p.releasing > 0 then
      Some(p.(inFlight := p.inFlight - 1, releasing := p.releasing - 1, finishing := p.finishing + 1))
    else if m.Finish? && p.finishing > 0 && p.wg > 0 then
      Some(p.(wg := p.wg - 1, finishing := p.finishing - 1))
    else None
  }

  predicate OfMain(m: Move) {
    m.Proceed? || m.Divert? || m.Batch?
  }

  function Step(s: State, m: Move): Option<State> {
    if m.Cancel? then Some(s.(canceled := true))
    else if m.Tick? then Some(s.(now := s.now + m.dt))
    else if OfMain(m) then
      if InBatch(s.main) then BatchStep(s, m) else LoopStep(s, m)
    else
      match HandlerStep(s.pool, m)
      case None => None
      case Some(p) => Some(s.(pool := p))
  }

  // ---------- the invariant ----------

  function Queue(pc: MainPc): seq<nat> {
    if pc.Dispatches? || pc.InFlight? || pc.Counted? then pc.queue else []
  }

  /** Jobs that may still be added to those in flight before the counter is read again. */
  function Reserved(pc: MainPc): int {
    if pc.Activates? then pc.free else |Queue(pc)| - Bit(pc.InFlight? || pc.Counted?)
  }

  function Live(p: Pool): nat {
    |p.running| + |p.acking| + p.releasing
  }

  ghost predicate CountersInv(s: State) {
    && s.pool.inFlight == Live(s.pool) + Bit(s.main.InFlight? || s.main.Counted?)
    && s.pool.wg == Live(s.pool) + s.pool.finishing + Bit(s.main.Counted?)
    && ((s.main.InFlight? || s.main.Counted?) ==> s.main.queue != [])
  }

  ghost predicate BoundInv(s: State) {
    s.cfg.bounded ==> s.pool.inFlight + Reserved(s.main) <= s.cfg.maxConcurrent
  }

  ghost predicate LaneInv(p: Pool, queue: seq<nat>) {
    p.delivered == multiset(queue) + p.running + p.acking + p.acked
  }

  ghost predicate LifeInv(s: State) {
    && (s.main.Waits? ==> s.canceled || s.waitFailed)
    && (s.main.Activates? ==> s.main.free > 0)
    && (s.main.Returned? ==> (if s.main.canceled then s.canceled else s.waitFailed) && s.pool.wg == 0)
    && (s.waitFailed ==> s.main.Waits? || s.main.Returned?)
  }

  ghost predicate PaceInv(s: State) {
    && s.productive <= |s.pool.delivered|
    && s.activations <= s.productive + s.waits + Bit(s.main.Activates? || s.main.Sleeps? || s.main.Waits? || s.main.Returned?)
    && Times(s.waits, Clamped(s.cfg.pollInterval)) <= s.now
    && (s.main.Sleeps? ==> Times(s.waits + 1, Clamped(s.cfg.pollInterval)) <= s.main.until)
  }

  ghost predicate Inv(s: State) {
    && ValidConfig(s.cfg) && CountersInv(s) && BoundInv(s)
    && LaneInv(s.pool, Queue(s.main))
    && LifeInv(s) && PaceInv(s)
  }

  // ---------- the polling goroutine ----------

  lemma LoopKeepsCounters(s: State, m: Move)
    requires CountersInv(s) && LifeInv(s) && !InBatch(s.main) && LoopStep(s, m).Some?
    ensures var s' := LoopStep(s, m).value;
            CountersInv(s') && LifeInv(s') && Queue(s'.main) == Queue(s.main) && s'.pool == s.pool
  {
  }

  lemma LoopKeepsBound(s: State, m: Move)
    requires BoundInv(s) && !InBatch(s.main) && LoopStep(s, m).Some?
    ensures BoundInv(LoopStep(s, m).value)
  {
  }

  lemma LoopKeepsPace(s: State, m: Move)
    requires PaceInv(s) && !InBatch(s.main) && LoopStep(s, m).Some?
    ensures PaceInv(LoopStep(s, m).value) && LoopStep(s, m).value.cfg == s.cfg
  {
  }

  lemma BatchKeepsCounters(s: State, m: Move)
    requires CountersInv(s) && InBatch(s.main) && BatchStep(s, m).Some?
    ensures CountersInv(BatchStep(s, m).value)
  {
  }

  lemma BatchKeepsBound(s: State, m: Move)
    requires BoundInv(s) && InBatch(s.main) && BatchStep(s, m).Some?
    requires (s.main.InFlight? || s.main.Counted?) ==> s.main.queue != []
    requires s.pool.inFlight <= s.cfg.maxConcurrent || !s.cfg.bounded
    ensures BoundInv(BatchStep(s, m).value)
  {
  }

  lemma SpawnKeepsLane(p: Pool, queue: seq<nat>)
    requires queue != [] && LaneInv(p, queue)
    ensures LaneInv(p.(running := p.running + multiset{queue[0]}), queue[1..])
  {
    assert queue == [queue[0]] + queue[1..];
    assert multiset(queue) == multiset{queue[0]} + multiset(queue[1..]);
  }

  lemma ActivateKeepsLane(p: Pool, jobs: seq<nat>)
    requires LaneInv(p, [])
    ensures LaneInv(p.(delivered := p.delivered + multiset(jobs)), jobs)
  {
  }

  lemma ActivationKeepsLane(s: State, m: Move)
    requires LaneInv(s.pool, Queue(s.main)) && s.main.Activates? && BatchStep(s, m).Some?
    ensures LaneInv(BatchStep(s, m).value.pool, Queue(BatchStep(s, m).value.main))
  {
    if m.Batch? {
      ActivateKeepsLane(s.pool, m.jobs);
    }
  }

  lemma DispatchKeepsLane(s: State, m: Move)
    requires LaneInv(s.pool, Queue(s.main)) && InBatch(s.main) && !s.main.Activates? && BatchStep(s, m).Some?
    ensures LaneInv(BatchStep(s, m).value.pool, Queue(BatchStep(s, m).value.main))
  {
    if s.main.Counted? {
      SpawnKeepsLane(s.pool, s.main.queue);
    }
  }

  lemma BatchKeepsPace(s: State, m: Move)
    requires PaceInv(s) && LifeInv(s) && InBatch(s.main) && BatchStep(s, m).Some?
    ensures var s' := BatchStep(s, m).value; PaceInv(s') && LifeInv(s') && s'.cfg == s.cfg
  {
    if s.main.Activates? && m.Batch? && m.jobs != [] {
      assert |multiset(m.jobs)| == |m.jobs| > 0;
    }
  }

  // ---------- the handlers ----------

  lemma HandlerKeepsPool(p: Pool, queue: seq<nat>, m: Move)
    requires LaneInv(p, queue) && HandlerStep(p, m).Some?
    ensures var p' := HandlerStep(p, m).value;
            && LaneInv(p', queue) && p'.delivered == p.delivered
            && p'.inFlight - Live(p') == p.inFlight - Live(p) && p'.inFlight <= p.inFlight
            && p'.wg - Live(p') - p'.finishing == p.wg - Live(p) - p.finishing && p'.wg <= p.wg
  {
    if m.Return? {
      assert p.running == (p.running - multiset{m.job}) + multiset{m.job};
    } else if m.Acked? {
      assert p.acking == (p.acking - multiset{m.job}) + multiset{m.job};
    }
  }

  lemma HandlerKeeps(s: State, m: Move)
    requires Inv(s) && HandlerStep(s.pool, m).Some?
    ensures Inv(s.(pool := HandlerStep(s.pool, m).value))
  {
    HandlerKeepsPool(s.pool, Queue(s.main), m);
  }

  lemma StepKeepsInv(s: State, m: Move)
    requires Inv(s) && Step(s, m).Some?
    ensures Inv(Step(s, m).value)
  {
    if OfMain(m) {
      if InBatch(s.main) {
        BatchKeepsCounters(s, m);
        BatchKeepsBound(s, m);
        if s.main.Activates? {
          ActivationKeepsLane(s, m);
        } else {
          DispatchKeepsLane(s, m);
        }
        BatchKeepsPace(s, m);
      } else {
        LoopKeepsCounters(s, m);
        LoopKeepsBound(s, m);
        LoopKeepsPace(s, m);
      }
    } else if !m.Cancel? && !m.Tick? {
      HandlerKeeps(s, m);
    }
  }

  lemma StepKeepsConfig(s: State, m: Move)
    requires Step(s, m).Some?
    ensures Step(s, m).value.cfg == s.cfg
  {
  }

  lemma {:induction false} ConfigIsFixed(c: Config, moves: seq<Move>, s: State)
    requires Exec(Step, Start(c), moves) == Some(s)
    ensures s.cfg == c
    decreases |moves|
  {
    if moves != [] {
      var p := Exec(Step, Start(c), moves[..|moves| - 1]).value;
      ConfigIsFixed(c, moves[..|moves| - 1], p);
      StepKeepsConfig(p, moves[|moves| - 1]);
    }
  }

  lemma Reachable(c: Config, moves: seq<Move>, s: State)
    requires ValidConfig(c) && Exec(Step, Start(c), moves) == Some(s)
    ensures Inv(s) && s.cfg == c
  {
    forall p, m | Inv(p) && Step(p, m).Some?
      ensures Inv(Step(p, m).value)
    {
      StepKeepsInv(p, m);
    }
    assert Inv(Start(c));
    Invariant(Step, Inv, Start(c), moves);
    ConfigIsFixed(c, moves, s);
  }

  // ---------- claims about every run ----------

  /** The counter counts exactly the live handlers and the job being dispatched. Handlers may
      lower it between its load and the adds, but with a gateway that returns at most the
      requested number of jobs it never exceeds the limit. */
  lemma ConcurrencyBound(c: Config, moves: seq<Move>, s: State)
    requires ValidConfig(c) && Exec(Step, Start(c), moves) == Some(s)
    ensures s.pool.inFlight == Live(s.pool) + Bit(s.main.InFlight? || s.main.Counted?)
    ensures c.bounded ==> Live(s.pool) <= s.pool.inFlight <= c.maxConcurrent
  {
    Reachable(c, moves, s);
  }

  /** Nothing is ever dropped: each delivery of a job is queued, running, acknowledging or
      acknowledged, exactly one of these, also when the engine delivers the job again; and
      when Run returns all are acknowledged and none is in flight. */
  lemma NothingIsDropped(c: Config, moves: seq<Move>, s: State, job: nat)
    requires ValidConfig(c) && Exec(Step, Start(c), moves) == Some(s)
    ensures multiset(Queue(s.main))[job] + s.pool.running[job] + s.pool.acking[job] + s.pool.acked[job]
         == s.pool.delivered[job]
    ensures s.main.Returned? ==> s.pool.acked == s.pool.delivered && s.pool.inFlight == 0
  {
    Reachable(c, moves, s);
    if s.main.Returned? {
      assert |s.pool.running| == 0 && |s.pool.acking| == 0;
    }
  }

  /** The jobs received plus the clamped waits that fit into the time passed, plus one. */
  function PacedActivations(c: Config, s: State): nat {
    |s.pool.delivered| + s.now / Clamped(c.pollInterval) + 1
  }

  /** The loop does not spin, whatever interval is configured, zero and negative included. */
  lemma LoopDoesNotSpin(c: Config, moves: seq<Move>, s: State)
    requires ValidConfig(c) && Exec(Step, Start(c), moves) == Some(s)
    ensures s.activations <= PacedActivations(c, s)
  {
    Reachable(c, moves, s);
    WaitsFit(s.waits, Clamped(s.cfg.pollInterval), s.now);
  }

  /** Nor does it on the wire: the requests the HTTP layer sends for the activations, sent[k]
      for the k-th, number at most that times the attempts configured. */
  lemma RequestsDoNotSpin(c: Config, moves: seq<Move>, s: State, maxAttempts: int, sent: seq<nat>)
    requires ValidConfig(c) && Exec(Step, Start(c), moves) == Some(s)
    requires |sent| == s.activations && forall k :: 0 <= k < |sent| ==> sent[k] <= Limit(maxAttempts)
    ensures Sum(sent) <= Limit(maxAttempts) * PacedActivations(c, s)
  {
    LoopDoesNotSpin(c, moves, s);
    OnTheWireWithin(sent, Limit(maxAttempts), PacedActivations(c, s));
  }

  /** Without a cancellation the loop is left exactly when a wait failed; so Run returns nil
      exactly when a wait failed and ctx was not canceled by the time it returned. */
  lemma StopsOnlyOnCancellation(c: Config, moves: seq<Move>, s: State)
    requires ValidConfig(c) && Exec(Step, Start(c), moves) == Some(s)
    ensures !s.canceled ==> (s.main.Waits? || s.main.Returned? <==> s.waitFailed)
    ensures s.main == Returned(false) ==> s.waitFailed
    ensures s.main == Returned(true) ==> s.canceled
  {
    Reachable(c, moves, s);
  }

  /** Such a run exists for every configuration: a clock that fails the first wait after an
      empty activation ends Run with a nil error and ctx live. */
  lemma FailingClockEndsRun(c: Config) returns (moves: seq<Move>, s: State)
    requires ValidConfig(c)
    ensures Exec(Step, Start(c), moves) == Some(s)
    ensures s.main == Returned(false) && !s.canceled
  {
    moves, s := Idled(c);
    moves, s := Extend(Step, Start(c), moves, Divert);
    moves, s := Extend(Step, Start(c), moves, Proceed);
  }

  lemma Idled(c: Config) returns (moves: seq<Move>, s: State)
    requires ValidConfig(c)
    ensures Exec(Step, Start(c), moves) == Some(s)
    ensures s.main.Sleeps? && !s.canceled && s.pool == Start(c).pool
  {
    moves, s := Extend(Step, Start(c), [], Proceed);
    moves, s := Extend(Step, Start(c), moves, Proceed);
    moves, s := Extend(Step, Start(c), moves, Batch([]));
  }

  const EAGER: Config := Config(1, 1, false)

  lemma DispatchOne(start: State, moves: seq<Move>, s: State) returns (moves': seq<Move>, s': State)
    requires Exec(Step, start, moves) == Some(s) && s.main.Dispatches? && s.main.queue != []
    ensures Exec(Step, start, moves') == Some(s')
    ensures s' == s.(main := Dispatches(s.main.queue[1..]), pool := s'.pool)
    ensures s'.pool == s.pool.(inFlight := s.pool.inFlight + 1, wg := s.pool.wg + 1,
                               running := s.pool.running + multiset{s.main.queue[0]})
    ensures moves' == moves + [Proceed, Proceed, Proceed]
  {
    moves', s' := Extend(Step, start, moves, Proceed);
    moves', s' := Extend(Step, start, moves', Proceed);
    moves', s' := Extend(Step, start, moves', Proceed);
  }

  lemma Overdelivery() returns (moves: seq<Move>, s: State)
    ensures Exec(Step, Start(EAGER), moves) == Some(s)
    ensures s.main == Dispatches([1, 2]) && s.pool == Start(EAGER).pool.(delivered := multiset([1, 2]))
    ensures s.cfg == EAGER
  {
    moves, s := Extend(Step, Start(EAGER), [], Proceed);
    moves, s := Extend(Step, Start(EAGER), moves, Proceed);
    moves, s := Extend(Step, Start(EAGER), moves, Batch([1, 2]));
  }

  /** The bound leans on the gateway: one that returns two jobs when asked for one exceeds it. */
  lemma OverdeliveryBreaksTheBound() returns (moves: seq<Move>, s: State)
    ensures Exec(Step, Start(EAGER), moves) == Some(s)
    ensures Live(s.pool) == 2 > EAGER.maxConcurrent
  {
    moves, s := Overdelivery();
    moves, s := DispatchOne(Start(EAGER), moves, s);
    moves, s := DispatchOne(Start(EAGER), moves, s);
  }

  // ---------- what the loop asks for, and that it gets on ----------

  /** The request is for exactly the handlers that are free, and there is a wait and no request
      when none is. */
  lemma AsksForWhatIsFree(c: Config, moves: seq<Move>, s: State)
    requires ValidConfig(c) && Exec(Step, Start(c), moves) == Some(s) && s.main.Loads?
    ensures Step(s, Proceed).Some?
    ensures var t, free := Step(s, Proceed).value, c.maxConcurrent - Live(s.pool);
            if free > 0 then t.main == Activates(free) && t.activations == s.activations + 1
            else t.main == Sleeps(s.now + Clamped(c.pollInterval)) && t.activations == s.activations
  {
    Reachable(c, moves, s);
  }

  predicate HasLeft(s: State) {
    s.main.Waits? || s.main.Returned?
  }

  /** Neither ctx is canceled nor does a wait or an activation fail. */
  predicate Untroubled(moves: seq<Move>) {
    forall m <- moves :: !m.Cancel? && !m.Divert?
  }

  /** How far the loop is from its condition, and the handlers from their end. */
  function LoopRank(pc: MainPc, now: nat): nat {
    match pc
    case Loops => 0
    case Loads => 4
    case Activates(_) => 3
    case Dispatches(queue) => 8 * |queue| + 2
    case InFlight(queue) => 8 * |queue| + 1
    case Counted(queue) => 8 * |queue|
    case Sleeps(until) => if now < until then 2 else 1
    case Waits => 0
    case Returned(_) => 0
  }

  function HandlerRank(p: Pool): nat {
    4 * |p.running| + 3 * |p.acking| + 2 * p.releasing + p.finishing
  }

  predicate Settled(s: State) {
    LoopRank(s.main, s.now) == 0 && HandlerRank(s.pool) == 0
  }

  /** Any handler step brings the handlers nearer to their end. */
  lemma HandlerDrops(p: Pool, m: Move)
    requires HandlerStep(p, m).Some?
    ensures HandlerRank(HandlerStep(p, m).value) < HandlerRank(p)
  {
    if m.Return? {
      assert p.running == (p.running - multiset{m.job}) + multiset{m.job};
    } else if m.Acked? {
      assert p.acking == (p.acking - multiset{m.job}) + multiset{m.job};
    }
  }

  lemma HandlerMoves(p: Pool) returns (m: Move)
    requires HandlerRank(p) > 0 && (p.finishing > 0 ==> p.wg > 0)
    ensures !OfMain(m) && !m.Cancel? && !m.Tick? && HandlerStep(p, m).Some?
  {
    if p.finishing > 0 {
      m := Finish;
    } else if p.releasing > 0 {
      m := Release;
    } else if |p.acking| > 0 {
      var job :| job in p.acking;
      m := Acked(job);
    } else {
      var job :| job in p.running;
      m := Return(job);
    }
  }

  ghost predicate Nearer(s: State, t: State) {
    && LoopRank(t.main, t.now) + HandlerRank(t.pool) < LoopRank(s.main, s.now) + HandlerRank(s.pool)
    && HasLeft(t) == HasLeft(s) && (t.main.Returned? ==> s.main.Returned?) && t.canceled == s.canceled
  }

  lemma BatchSettles(s: State) returns (m: Move)
    requires CountersInv(s) && InBatch(s.main)
    ensures OfMain(m) && !m.Divert? && BatchStep(s, m).Some? && Nearer(s, BatchStep(s, m).value)
  {
    if s.main.Activates? {
      m := Batch([]);
    } else {
      m := Proceed;
      if s.main.Counted? {
        assert |s.pool.running + multiset{s.main.queue[0]}| == |s.pool.running| + 1;
      }
    }
  }

  lemma LoopSettles(s: State) returns (m: Move)
    requires !InBatch(s.main) && LoopRank(s.main, s.now) > 0
    ensures !m.Cancel? && !m.Divert? && Step(s, m).Some? && Nearer(s, Step(s, m).value)
  {
    m := if s.main.Sleeps? && s.now < s.main.until then Tick(s.main.until - s.now) else Proceed;
  }

  lemma OneSettles(s: State) returns (m: Move)
    requires Inv(s) && !Settled(s)
    ensures !m.Cancel? && !m.Divert? && Step(s, m).Some? && Nearer(s, Step(s, m).value)
  {
    if HandlerRank(s.pool) > 0 {
      m := HandlerMoves(s.pool);
      HandlerDrops(s.pool, m);
    } else if InBatch(s.main) {
      m := BatchSettles(s);
    } else {
      m := LoopSettles(s);
    }
  }

  /** From any state what is under way can finish, without a cancellation or a failure. */
  lemma {:induction false} Settles(s: State) returns (more: seq<Move>, t: State)
    requires Inv(s)
    ensures Exec(Step, s, more) == Some(t) && Untroubled(more)
    ensures Inv(t) && Settled(t) && HasLeft(t) == HasLeft(s) && t.canceled == s.canceled && t.cfg == s.cfg
    ensures t.main.Returned? ==> s.main.Returned?
    decreases LoopRank(s.main, s.now) + HandlerRank(s.pool)
  {
    more, t := [], s;
    if !Settled(s) {
      var m := OneSettles(s);
      StepKeepsInv(s, m);
      StepKeepsConfig(s, m);
      var p, rest := Step(s, m).value, [];
      rest, t := Settles(p);
      assert Exec(Step, s, [m]) == Some(p) by {
        assert [m][..0] == [];
      }
      Concatenation(Step, s, [m], rest);
      more := [m] + rest;
    }
  }

  lemma QueueHead(queue: seq<nat>)
    requires queue != []
    ensures multiset(queue) == multiset{queue[0]} + multiset(queue[1..])
  {
    assert queue == [queue[0]] + queue[1..];
  }

  lemma {:induction false} DispatchAll(start: State, moves: seq<Move>, s: State) returns (moves': seq<Move>, s': State)
    requires Exec(Step, start, moves) == Some(s) && s.main.Dispatches? && Untroubled(moves)
    ensures Exec(Step, start, moves') == Some(s') && Untroubled(moves')
    ensures s'.pool.running == s.pool.running + multiset(s.main.queue)
    ensures s'.pool.acking == s.pool.acking && s'.pool.releasing == s.pool.releasing
    decreases |s.main.queue|
  {
    moves', s' := moves, s;
    if s.main.queue != [] {
      QueueHead(s.main.queue);
      var more, p := DispatchOne(start, moves, s);
      moves', s' := DispatchAll(start, more, p);
    }
  }

  /** From any settled state of the loop, a full batch is asked for. */
  lemma AsksForAll(s: State) returns (moves: seq<Move>, t: State)
    requires Inv(s) && Settled(s) && s.main.Loops? && !s.canceled
    ensures Exec(Step, s, moves) == Some(t) && Untroubled(moves)
    ensures t.main == Activates(s.cfg.maxConcurrent) && t.pool == s.pool && t.cfg == s.cfg
  {
    moves, t := Extend(Step, s, [], Proceed);
    assert t == s.(main := Loads);
    moves, t := Extend(Step, s, moves, Proceed);
  }

  /** The limit is reached, not only kept: from every reachable state in which Run has not
      left its loop and ctx is live, a gateway that returns what it is asked for can have
      exactly maxConcurrent handlers running, on any jobs, with nothing failing on the way. */
  lemma LimitIsReached(c: Config, moves: seq<Move>, s: State, jobs: seq<nat>) returns (more: seq<Move>, t: State)
    requires ValidConfig(c) && Exec(Step, Start(c), moves) == Some(s) && !s.canceled && !HasLeft(s)
    requires |jobs| == c.maxConcurrent
    ensures Exec(Step, s, more) == Some(t) && Untroubled(more)
    ensures t.pool.running == multiset(jobs) && Live(t.pool) == c.maxConcurrent
  {
    Reachable(c, moves, s);
    var a, p := Settles(s);
    var b, q := AsksForAll(p);
    var d, u := Extend(Step, p, b, Batch(jobs));
    assert u.main == Dispatches(jobs) && u.pool.running == multiset{} && u.pool.acking == multiset{};
    d, t := DispatchAll(p, d, u);
    Concatenation(Step, s, a, d);
    more := a + d;
    assert |multiset(jobs)| == |jobs|;
  }

  lemma Leaves(s: State) returns (moves: seq<Move>, t: State)
    requires Inv(s) && Settled(s) && s.canceled && !s.main.Returned?
    ensures Exec(Step, s, moves) == Some(t) && t.main == Returned(true)
  {
    moves, t := [], s;
    if s.main.Loops? {
      moves, t := Extend(Step, s, moves, Proceed);
      assert t == s.(main := Waits);
    }
    moves, t := Extend(Step, s, moves, Proceed);
  }

  lemma SettlesAndLeaves(s: State) returns (more: seq<Move>, t: State)
    requires Inv(s) && s.canceled && !s.main.Returned?
    ensures Exec(Step, s, more) == Some(t) && t.main == Returned(true)
  {
    var a, p := Settles(s);
    var b;
    b, t := Leaves(p);
    Concatenation(Step, s, a, b);
    more := a + b;
  }

  /** From every reachable state Run can still return, with the error of ctx if that is
      canceled before. */
  lemma CanReturn(c: Config, moves: seq<Move>, s: State) returns (more: seq<Move>, t: State)
    requires ValidConfig(c) && Exec(Step, Start(c), moves) == Some(s)
    ensures Exec(Step, s, more) == Some(t) && t.main.Returned?
    ensures !s.main.Returned? ==> t.main.canceled
  {
    more, t := [], s;
    if !s.main.Returned? {
      Reachable(c, moves, s);
      StepKeepsInv(s, Cancel);
      var a, p := Extend(Step, s, [], Cancel);
      var b;
      b, t := SettlesAndLeaves(p);
      Concatenation(Step, s, a, b);
      more := a + b;
    }
  }
}
