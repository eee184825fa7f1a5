/** streamworker.go: StreamJobWorker.Run with its stream loop, its REST sidecar poll and
    their handler goroutines, as one interleaved machine. Every semaphore and WaitGroup
    operation, every spawn, and every call that leaves the process is a step of its own.
    Run's startup wait and dial come before the first state: they start nothing. */
module StreamWorker {
  import opened Cadence
  import opened Counting
  import opened Options
  import opened Runs

  /** The configured pauses are any durations: sleepCtx clamps them, and a poll interval that
      is not positive means no sidecar. */
  datatype Config = Config(maxConcurrent: nat, reconnectBackoff: int, pollInterval: int)

  predicate ValidConfig(c: Config) {
    c.maxConcurrent > 0
  }

  predicate HasSidecar(c: Config) {
    c.pollInterval > 0
  }

  /** The goroutine of Run. From Receives to Added the stream RPC is open. */
  datatype MainPc =
    | Loops
    | Opens
    | Receives
    | Offers(job: nat)       // select on the semaphore and ctx.Done
    | Holds(job: nat)        // slot taken
    | Added(job: nat)        // and counted by the WaitGroup
    | StreamEnded
    | BacksOff(until: nat)
    | Waits                  // in wg.Wait
    | Closes                 // past it
    | Returned(canceled: bool)

  /** The sidecar goroutine; the head of queue is the job being dispatched. */
  datatype SidePc =
    | Off
    | SideLoops
    | Polls
    | SideOffers(queue: seq<nat>)
    | SideHolds(queue: seq<nat>)
    | SideAdded(queue: seq<nat>)
    | Sleeps(until: nat)
    | Returns                // its deferred wg.Done still to run
    | Exited

  /** What became of the jobs that came in on one channel, past the lease check, a job
      delivered twice counting twice. running and acking hold the jobs of the goroutines spawned for that channel. */
  datatype Lane = Lane(
    delivered: multiset<nat>,
    running: multiset<nat>,
    acking: multiset<nat>,
    acked: multiset<nat>,
    dropped: multiset<nat>)

  const EMPTY: Lane := Lane(multiset{}, multiset{}, multiset{}, multiset{}, multiset{})

  /** sem counts the tokens in the semaphore channel and wg is the WaitGroup's counter.
      releasing goroutines have acknowledged but still hold their slot, finishing ones have
      given it back but still count in the WaitGroup. */
  datatype Pool = Pool(sem: nat, wg: nat, grpc: Lane, rest: Lane, releasing: nat, finishing: nat)

  /** What the two loops did so far: stream RPCs opened, sidecar polls made, and whether a
      wait of Run or of the sidecar failed though ctx was not canceled. */
  datatype Log = Log(opens: nat, polls: nat, mainWaitFailed: bool, sideWaitFailed: bool)

  datatype State = State(
    cfg: Config,
    canceled: bool,
    main: MainPc,
    side: SidePc,
    pool: Pool,
    connected: bool,
    streams: nat,            // stream RPCs open
    now: nat,                // time since Run entered its loop
    log: Log)

  function Start(c: Config): State {
    State(c, false, Loops, if HasSidecar(c) then SideLoops else Off,
          Pool(0, Bit(HasSidecar(c)), EMPTY, EMPTY, 0, 0), true, 0, 0, Log(0, 0, false, false))
  }

  datatype Channel = Grpc | Rest

  /** What a dispatching goroutine does next. Proceed is the ordinary way on from where it
      is: the call returns, the slot is taken, the wait ends. Divert is the other one: the
      call fails, ctx.Done is chosen, the wait returns an error. */
  datatype Act =
    | Proceed
    | Divert
    | Deliver(job: nat)      // the stream yields a job that passes the lease check
    | Batch(jobs: seq<nat>)  // a poll yields jobs that pass it, or none on any error

  datatype HandlerAct =
    | Return(ch: Channel, job: nat)  // the handler returns
    | Acked(ch: Channel, job: nat)   // its acknowledgement returns
    | Release
    | Finish

  datatype Move = Cancel | Tick(dt: nat) | Main(a: Act) | Side(b: Act) | Handler(h: HandlerAct)

  // ---------- what the goroutines do to the shared state ----------

  function LaneOf(p: Pool, ch: Channel): Lane {
    if ch.Grpc? then p.grpc else p.rest
  }

  function WithLane(p: Pool, ch: Channel, l: Lane): Pool {
    if ch.Grpc? then p.(grpc := l) else p.(rest := l)
  }

  function Receive(p: Pool, ch: Channel, jobs: multiset<nat>): Pool {
    var l := LaneOf(p, ch);
    WithLane(p, ch, l.(delivered := l.delivered + jobs))
  }

  function Drop(p: Pool, ch: Channel, jobs: multiset<nat>): Pool {
    var l := LaneOf(p, ch);
    WithLane(p, ch, l.(dropped := l.dropped + jobs))
  }

  function Run(p: Pool, ch: Channel, job: nat): Pool {
    var l := LaneOf(p, ch);
    WithLane(p, ch, l.(running := l.running + multiset{job}))
  }

  function TakeSlot(p: Pool): Pool {
    p.(sem := p.sem + 1)
  }

  function AddOne(p: Pool): Pool {
    p.(wg := p.wg + 1)
  }

  /** The main goroutine leaves streamOnce: its deferred cancel closes the RPC. */
  function LeaveStream(s: State, p: Pool): Option<State> {
    if s.streams == 0 then None
    else Some(s.(main := StreamEnded, streams := s.streams - 1, pool := p))
  }

  predicate InStream(pc: MainPc) {
    pc.Receives? || pc.Offers? || pc.Holds? || pc.Added?
  }

  /** The receive loop of streamOnce. */
  function StreamStep(s: State, a: Act): Option<State> {
    var p := s.pool;
    match s.main
    case Receives =>
      if a.Deliver? then
        Some(s.(main := Offers(a.job), pool := Receive(p, Grpc, multiset{a.job})))
      else if a.Divert? then LeaveStream(s, p)
      else None
    case Offers(job) =>
      if a.Proceed? && p.sem < s.cfg.maxConcurrent then Some(s.(main := Holds(job), pool := TakeSlot(p)))
      else if a.Divert? && s.canceled then LeaveStream(s, Drop(p, Grpc, multiset{job}))
      else None
    case Holds(job) => if a.Proceed? then Some(s.(main := Added(job), pool := AddOne(p))) else None
    case Added(job) => if a.Proceed? then Some(s.(main := Receives, pool := Run(p, Grpc, job))) else None
    case _ => None
  }

  /** The reconnect loop of Run, and what follows it. */
  function LoopStep(s: State, a: Act): Option<State> {
    match s.main
    case Loops => if a.Proceed? then Some(s.(main := if s.canceled then Waits else Opens)) else None
    case Opens =>
      if a.Proceed? then Some(s.(main := Receives, streams := s.streams + 1, log := s.log.(opens := s.log.opens + 1)))
      else if a.Divert? then Some(s.(main := StreamEnded, log := s.log.(opens := s.log.opens + 1)))
      else None
    case StreamEnded =>
      if a.Proceed? then Some(s.(main := if s.canceled then Waits else BacksOff(s.now + Clamped(s.cfg.reconnectBackoff)))) else None
    case BacksOff(until) =>
      if a.Proceed? && s.now >= until then Some(s.(main := Loops))
      else if a.Divert? then Some(s.(main := Waits, log := s.log.(mainWaitFailed := s.log.mainWaitFailed || !s.canceled)))
      else None
    case Waits => if a.Proceed? && s.pool.wg == 0 then Some(s.(main := Closes)) else None
    case Closes => if a.Proceed? then Some(s.(main := Returned(s.canceled), connected := false)) else None
    case _ => None
  }

  function MainStep(s: State, a: Act): Option<State> {
    if InStream(s.main) then StreamStep(s, a) else LoopStep(s, a)
  }

  predicate InBatch(pc: SidePc) {
    pc.Polls? || pc.SideOffers? || pc.SideHolds? || pc.SideAdded?
  }

  /** One poll of the sidecar and the dispatch of what it brought. */
  function BatchStep(s: State, a: Act): Option<State> {
    var p := s.pool;
    match s.side
    case Polls =>
      if a.Batch? then
        Some(s.(side := SideOffers(a.jobs), pool := Receive(p, Rest, multiset(a.jobs))))
      else None
    case SideOffers(queue) =>
      if queue == [] then
        if a.Proceed? then Some(s.(side := Sleeps(s.now + Clamped(s.cfg.pollInterval)))) else None
      else if a.Proceed? && p.sem < s.cfg.maxConcurrent then Some(s.(side := SideHolds(queue), pool := TakeSlot(p)))
      else if a.Divert? && s.canceled then Some(s.(side := Returns, pool := Drop(p, Rest, multiset(queue))))
      else None
    case SideHolds(queue) => if a.Proceed? then Some(s.(side := SideAdded(queue), pool := AddOne(p))) else None
    case SideAdded(queue) =>
      if a.Proceed? && queue != [] then Some(s.(side := SideOffers(queue[1..]), pool := Run(p, Rest, queue[0])))
      else None
    case _ => None
  }

  function SideLoopStep(s: State, a: Act): Option<State> {
    match s.side
    case SideLoops =>
      if !a.Proceed? then None
      else if s.canceled then Some(s.(side := Returns))
      else Some(s.(side := Polls, log := s.log.(polls := s.log.polls + 1)))
    case Sleeps(until) =>
      if a.Proceed? && s.now >= until then Some(s.(side := SideLoops))
      else if a.Divert? then Some(s.(side := Returns, log := s.log.(sideWaitFailed := s.log.sideWaitFailed || !s.canceled)))
      else None
    case Returns =>
      if a.Proceed? && s.pool.wg > 0 then Some(s.(side := Exited, pool := s.pool.(wg := s.pool.wg - 1))) else None
    case _ => None
  }

  function SideStep(s: State, a: Act): Option<State> {
    if InBatch(s.side) then BatchStep(s, a) else SideLoopStep(s, a)
  }

  /** The handler returns, or the acknowledgement on the goroutine's own channel does. */
  function LaneStep(l: Lane, job: nat, acked: bool): Option<Lane> {
    if !acked && job in l.running then
      Some(l.(running := l.running - multiset{job}, acking := l.acking + multiset{job}))
    else if acked && job in l.acking then
      Some(l.(acking := l.acking - multiset{job}, acked := l.acked + multiset{job}))
    else None
  }

  function OnLane(p: Pool, ch: Channel, job: nat, acked: bool): Option<Pool> {
    match LaneStep(LaneOf(p, ch), job, acked)
    case None => None
    case Some(l) => Some(WithLane(p, ch, l).(releasing := p.releasing + Bit(acked)))
  }

  /** A handler goroutine's steps: handler, acknowledgement, semaphore, WaitGroup. The last
      two are its defers, run in reverse order of their statements. */
  function HandlerStep(p: Pool, h: HandlerAct): Option<Pool> {
    match h
    case Return(ch, job) => OnLane(p, ch, job, false)
    case Acked(ch, job) => OnLane(p, ch, job, true)
    case Release =>
      if p.releasing > 0 && p.sem > 0 then
        Some(p.(releasing := p.releasing - 1, sem := p.sem - 1, finishing := p.finishing + 1))
      else None
    case Finish =>
      if p.finishing > 0 && p.wg > 0 then Some(p.(finishing := p.finishing - 1, wg := p.wg - 1)) else None
  }

  function Step(s: State, m: Move): Option<State> {
    match m
    case Cancel => Some(s.(canceled := true))
    case Tick(dt) => Some(s.(now := s.now + dt))
    case Main(a) => MainStep(s, a)
    case Side(b) => SideStep(s, b)
    case Handler(h) =>
      match HandlerStep(s.pool, h)
      case None => None
      case Some(p) => Some(s.(pool := p))
  }

  // ---------- the invariant ----------

  /** Slots taken by a dispatcher and not yet handed to a goroutine. */
  function Unspawned(main: MainPc, side: SidePc): nat {
    Bit(main.Holds? || main.Added?) + Bit(side.SideHolds? || side.SideAdded?)
  }

  predicate SideAlive(side: SidePc) {
    !side.Off? && !side.Exited?
  }

  /** What the WaitGroup counts besides handler goroutines. */
  function Counted(main: MainPc, side: SidePc): nat {
    Bit(main.Added?) + Bit(side.SideAdded?) + Bit(SideAlive(side))
  }

  function PendingGrpc(main: MainPc): multiset<nat> {
    if main.Offers? || main.Holds? || main.Added? then multiset{main.job} else multiset{}
  }

  function PendingRest(side: SidePc): multiset<nat> {
    if side.SideOffers? || side.SideHolds? || side.SideAdded? then multiset(side.queue) else multiset{}
  }

  /** Handlers running or acknowledging. */
  function Busy(p: Pool): nat {
    |p.grpc.running| + |p.grpc.acking| + |p.rest.running| + |p.rest.acking|
  }

  /** Every delivery of a job is pending, running, acknowledging, acknowledged or dropped, and
      only one of these. */
  ghost predicate LaneInv(l: Lane, pending: multiset<nat>) {
    l.delivered == pending + l.running + l.acking + l.acked + l.dropped
  }

  /** The semaphore and the WaitGroup count what they should. */
  ghost predicate CountInv(p: Pool, max: nat, unspawned: nat, counted: nat) {
    && p.sem == Busy(p) + p.releasing + unspawned <= max
    && p.wg == Busy(p) + p.releasing + p.finishing + counted
  }

  ghost predicate CountersInv(s: State) {
    CountInv(s.pool, s.cfg.maxConcurrent, Unspawned(s.main, s.side), Counted(s.main, s.side))
  }

  ghost predicate LanesInv(s: State) {
    && LaneInv(s.pool.grpc, PendingGrpc(s.main))
    && LaneInv(s.pool.rest, PendingRest(s.side))
  }

  ghost predicate LifeInv(s: State) {
    && s.streams == Bit(s.main.Receives? || s.main.Offers? || s.main.Holds? || s.main.Added?)
    && (s.connected <==> !s.main.Returned?)
    && (s.main.Closes? || s.main.Returned? ==> s.pool.wg == 0 && !SideAlive(s.side))
    && (s.side.Off? <==> !HasSidecar(s.cfg))
    && (s.side.SideHolds? || s.side.SideAdded? ==> s.side.queue != [])
    && (!s.canceled ==> s.pool.grpc.dropped == s.pool.rest.dropped == multiset{})
  }

  /** Why the loops were left. */
  ghost predicate ExitInv(s: State) {
    && (s.log.mainWaitFailed ==> s.main.Waits? || s.main.Closes? || s.main.Returned?)
    && (s.log.sideWaitFailed ==> s.side.Returns? || s.side.Exited?)
    && (s.main.Waits? || s.main.Closes? ==> s.canceled || s.log.mainWaitFailed)
    && (s.side.Returns? || s.side.Exited? ==> s.canceled || s.log.sideWaitFailed)
    && (s.main == Returned(false) ==> s.log.mainWaitFailed && (s.side.Off? || (s.side.Exited? && s.log.sideWaitFailed)))
    && (s.main == Returned(true) ==> s.canceled)
  }

  /** Opens and polls are spaced by the waits between them. */
  ghost predicate MainPace(pc: MainPc, opens: nat, backoff: nat, now: nat) {
    match pc
    case Loops => Times(opens, backoff) <= now
    case Opens => Times(opens, backoff) <= now
    case BacksOff(until) => Times(opens, backoff) <= until <= now + backoff
    case _ => Times(opens, backoff) <= now + backoff
  }

  ghost predicate SidePace(pc: SidePc, polls: nat, interval: nat, now: nat) {
    match pc
    case SideLoops => Times(polls, interval) <= now
    case Sleeps(until) => Times(polls, interval) <= until <= now + interval
    case _ => Times(polls, interval) <= now + interval
  }

  ghost predicate Inv(s: State) {
    && ValidConfig(s.cfg)
    && CountersInv(s)
    && LanesInv(s)
    && LifeInv(s)
    && ExitInv(s)
    && MainPace(s.main, s.log.opens, Clamped(s.cfg.reconnectBackoff), s.now)
    && SidePace(s.side, s.log.polls, Clamped(s.cfg.pollInterval), s.now)
  }

  // ---------- the main goroutine ----------

  lemma StreamKeepsCounters(s: State, a: Act)
    requires CountersInv(s) && InStream(s.main) && StreamStep(s, a).Some?
    ensures CountersInv(StreamStep(s, a).value)
  {
  }

  lemma RunKeepsLane(l: Lane, job: nat, rest: multiset<nat>)
    requires LaneInv(l, multiset{job} + rest)
    ensures LaneInv(l.(running := l.running + multiset{job}), rest)
  {
  }

  lemma SpawnKeepsLane(s: State, a: Act)
    requires LaneInv(s.pool.grpc, PendingGrpc(s.main)) && s.main.Added? && StreamStep(s, a).Some?
    ensures LaneInv(StreamStep(s, a).value.pool.grpc, PendingGrpc(StreamStep(s, a).value.main))
  {
    assert multiset{s.main.job} == multiset{s.main.job} + multiset{};
    RunKeepsLane(s.pool.grpc, s.main.job, multiset{});
  }

  lemma OfferedKeepsLane(s: State, a: Act)
    requires LaneInv(s.pool.grpc, PendingGrpc(s.main)) && s.main.Offers? && StreamStep(s, a).Some?
    ensures LaneInv(StreamStep(s, a).value.pool.grpc, PendingGrpc(StreamStep(s, a).value.main))
  {
  }

  lemma StreamKeepsLane(s: State, a: Act)
    requires LaneInv(s.pool.grpc, PendingGrpc(s.main)) && (s.main.Receives? || s.main.Holds?)
    requires StreamStep(s, a).Some?
    ensures LaneInv(StreamStep(s, a).value.pool.grpc, PendingGrpc(StreamStep(s, a).value.main))
  {
  }

  lemma LoopTouchesNoPool(s: State, a: Act)
    requires !InStream(s.main) && LoopStep(s, a).Some?
    ensures var s' := LoopStep(s, a).value;
            && s'.pool == s.pool
            && Unspawned(s'.main, s.side) == Unspawned(s.main, s.side)
            && Counted(s'.main, s.side) == Counted(s.main, s.side)
            && PendingGrpc(s'.main) == PendingGrpc(s.main)
  {
  }

  lemma StreamKeepsLife(s: State, a: Act)
    requires LifeInv(s) && InStream(s.main) && StreamStep(s, a).Some?
    ensures LifeInv(StreamStep(s, a).value)
  {
  }

  lemma LoopKeepsLife(s: State, a: Act)
    requires LifeInv(s) && !InStream(s.main) && LoopStep(s, a).Some?
    requires s.pool.wg == 0 ==> !SideAlive(s.side)
    ensures LifeInv(LoopStep(s, a).value)
  {
  }

  lemma MainKeepsExit(s: State, a: Act)
    requires ExitInv(s) && MainStep(s, a).Some?
    requires s.main.Closes? ==> !SideAlive(s.side)
    ensures ExitInv(MainStep(s, a).value)
  {
  }

  lemma StreamKeepsPace(s: State, a: Act, p: nat)
    requires MainPace(s.main, s.log.opens, p, s.now) && InStream(s.main) && StreamStep(s, a).Some?
    ensures MainPace(StreamStep(s, a).value.main, StreamStep(s, a).value.log.opens, p, s.now)
  {
  }

  lemma LoopKeepsPace(s: State, a: Act, p: nat)
    requires p == Clamped(s.cfg.reconnectBackoff)
    requires MainPace(s.main, s.log.opens, p, s.now) && !InStream(s.main) && LoopStep(s, a).Some?
    ensures MainPace(LoopStep(s, a).value.main, LoopStep(s, a).value.log.opens, p, s.now)
  {
    assert Times(s.log.opens + 1, p) == Times(s.log.opens, p) + p;
  }

  lemma MainFrame(s: State, a: Act)
    requires MainStep(s, a).Some?
    ensures var s' := MainStep(s, a).value;
            && s'.cfg == s.cfg && s'.side == s.side && s'.now == s.now && s'.log.polls == s.log.polls
            && s'.pool.rest == s.pool.rest
  {
  }

  lemma MainKeepsInv(s: State, a: Act)
    requires Inv(s) && MainStep(s, a).Some?
    ensures Inv(MainStep(s, a).value)
  {
    MainFrame(s, a);
    MainKeepsExit(s, a);
    if InStream(s.main) {
      StreamKeepsCounters(s, a);
      if s.main.Added? {
        SpawnKeepsLane(s, a);
      } else if s.main.Offers? {
        OfferedKeepsLane(s, a);
      } else {
        StreamKeepsLane(s, a);
      }
      StreamKeepsLife(s, a);
      StreamKeepsPace(s, a, Clamped(s.cfg.reconnectBackoff));
    } else {
      LoopTouchesNoPool(s, a);
      LoopKeepsLife(s, a);
      LoopKeepsPace(s, a, Clamped(s.cfg.reconnectBackoff));
    }
  }

  // ---------- the sidecar ----------

  lemma OfferKeepsCounters(s: State, a: Act)
    requires CountersInv(s) && s.side.SideOffers? && BatchStep(s, a).Some?
    ensures CountersInv(BatchStep(s, a).value)
  {
    if s.side.queue == [] {
      assert BatchStep(s, a).value.pool == s.pool;
    } else if a.Divert? {
      assert Busy(BatchStep(s, a).value.pool) == Busy(s.pool);
    }
  }

  lemma BatchKeepsCounters(s: State, a: Act)
    requires CountersInv(s) && InBatch(s.side) && BatchStep(s, a).Some?
    requires !s.side.SideOffers?
    ensures CountersInv(BatchStep(s, a).value)
  {
  }

  lemma SideLoopKeepsCounters(s: State, a: Act)
    requires CountersInv(s) && !InBatch(s.side) && SideLoopStep(s, a).Some?
    ensures CountersInv(SideLoopStep(s, a).value)
  {
    if !s.side.Returns? {
      assert SideLoopStep(s, a).value.pool == s.pool;
    }
  }

  lemma OfferKeepsLane(s: State, a: Act)
    requires LaneInv(s.pool.rest, PendingRest(s.side)) && s.side.SideOffers? && BatchStep(s, a).Some?
    ensures LaneInv(BatchStep(s, a).value.pool.rest, PendingRest(BatchStep(s, a).value.side))
  {
  }

  lemma SideSpawnKeepsLane(s: State, a: Act)
    requires LaneInv(s.pool.rest, PendingRest(s.side)) && s.side.SideAdded? && BatchStep(s, a).Some?
    ensures LaneInv(BatchStep(s, a).value.pool.rest, PendingRest(BatchStep(s, a).value.side))
  {
    var queue := s.side.queue;
    assert queue == [queue[0]] + queue[1..];
    assert multiset(queue) == multiset{queue[0]} + multiset(queue[1..]);
    RunKeepsLane(s.pool.rest, queue[0], multiset(queue[1..]));
  }

  lemma BatchKeepsLane(s: State, a: Act)
    requires LaneInv(s.pool.rest, PendingRest(s.side)) && (s.side.Polls? || s.side.SideHolds?)
    requires BatchStep(s, a).Some?
    ensures LaneInv(BatchStep(s, a).value.pool.rest, PendingRest(BatchStep(s, a).value.side))
  {
  }

  lemma SideLoopTouchesNoLane(s: State, a: Act)
    requires !InBatch(s.side) && SideLoopStep(s, a).Some?
    ensures var s' := SideLoopStep(s, a).value;
            s'.pool.rest == s.pool.rest && PendingRest(s'.side) == PendingRest(s.side)
  {
  }

  lemma BatchKeepsLife(s: State, a: Act)
    requires LifeInv(s) && InBatch(s.side) && BatchStep(s, a).Some?
    ensures LifeInv(BatchStep(s, a).value)
  {
  }

  lemma SideLoopKeepsLife(s: State, a: Act)
    requires LifeInv(s) && !InBatch(s.side) && SideLoopStep(s, a).Some?
    ensures LifeInv(SideLoopStep(s, a).value)
  {
  }

  lemma SideKeepsExit(s: State, a: Act)
    requires ExitInv(s) && SideStep(s, a).Some?
    ensures ExitInv(SideStep(s, a).value)
  {
  }

  lemma BatchKeepsPace(s: State, a: Act, p: nat)
    requires p == Clamped(s.cfg.pollInterval)
    requires SidePace(s.side, s.log.polls, p, s.now) && InBatch(s.side) && BatchStep(s, a).Some?
    ensures SidePace(BatchStep(s, a).value.side, BatchStep(s, a).value.log.polls, p, s.now)
  {
  }

  lemma SideLoopKeepsPace(s: State, a: Act, p: nat)
    requires SidePace(s.side, s.log.polls, p, s.now) && !InBatch(s.side) && SideLoopStep(s, a).Some?
    ensures SidePace(SideLoopStep(s, a).value.side, SideLoopStep(s, a).value.log.polls, p, s.now)
  {
    assert Times(s.log.polls + 1, p) == Times(s.log.polls, p) + p;
  }

  lemma SideFrame(s: State, a: Act)
    requires SideStep(s, a).Some?
    ensures var s' := SideStep(s, a).value;
            && s'.cfg == s.cfg && s'.main == s.main && s'.now == s.now && s'.log.opens == s.log.opens
            && s'.pool.grpc == s.pool.grpc
  {
  }

  lemma SideKeepsInv(s: State, a: Act)
    requires Inv(s) && SideStep(s, a).Some?
    ensures Inv(SideStep(s, a).value)
  {
    SideFrame(s, a);
    SideKeepsExit(s, a);
    if InBatch(s.side) {
      if s.side.SideOffers? {
        OfferKeepsCounters(s, a);
        OfferKeepsLane(s, a);
      } else {
        BatchKeepsCounters(s, a);
        if s.side.SideAdded? {
          SideSpawnKeepsLane(s, a);
        } else {
          BatchKeepsLane(s, a);
        }
      }
      BatchKeepsLife(s, a);
      BatchKeepsPace(s, a, Clamped(s.cfg.pollInterval));
    } else {
      SideLoopKeepsCounters(s, a);
      SideLoopTouchesNoLane(s, a);
      SideLoopKeepsLife(s, a);
      SideLoopKeepsPace(s, a, Clamped(s.cfg.pollInterval));
    }
  }

  // ---------- the handlers ----------

  lemma LaneStepKeeps(l: Lane, job: nat, acked: bool, pending: multiset<nat>)
    requires LaneStep(l, job, acked).Some? && LaneInv(l, pending)
    ensures var l' := LaneStep(l, job, acked).value;
            && LaneInv(l', pending)
            && |l'.running| + |l'.acking| == |l.running| + |l.acking| - Bit(acked)
            && l'.dropped == l.dropped && l'.delivered == l.delivered
  {
    if acked {
      assert l.acking == (l.acking - multiset{job}) + multiset{job};
    } else {
      assert l.running == (l.running - multiset{job}) + multiset{job};
    }
  }

  lemma HandlerKeeps(p: Pool, max: nat, u: nat, c: nat, g: multiset<nat>, r: multiset<nat>, h: HandlerAct)
    requires CountInv(p, max, u, c) && LaneInv(p.grpc, g) && LaneInv(p.rest, r) && HandlerStep(p, h).Some?
    ensures var p' := HandlerStep(p, h).value;
            && CountInv(p', max, u, c) && LaneInv(p'.grpc, g) && LaneInv(p'.rest, r)
            && p'.grpc.dropped == p.grpc.dropped && p'.rest.dropped == p.rest.dropped && p'.wg <= p.wg
            && p'.grpc.delivered == p.grpc.delivered && p'.rest.delivered == p.rest.delivered
  {
    match h
    case Return(ch, job) => LaneStepKeeps(LaneOf(p, ch), job, false, if ch.Grpc? then g else r);
    case Acked(ch, job) => LaneStepKeeps(LaneOf(p, ch), job, true, if ch.Grpc? then g else r);
    case Release =>
    case Finish =>
  }

  lemma HandlerKeepsInv(s: State, h: HandlerAct)
    requires Inv(s) && HandlerStep(s.pool, h).Some?
    ensures Inv(s.(pool := HandlerStep(s.pool, h).value))
  {
    HandlerKeeps(s.pool, s.cfg.maxConcurrent, Unspawned(s.main, s.side), Counted(s.main, s.side),
                 PendingGrpc(s.main), PendingRest(s.side), h);
  }

  lemma AmbientKeepsInv(s: State, dt: nat)
    requires Inv(s)
    ensures Inv(s.(canceled := true)) && Inv(s.(now := s.now + dt))
  {
  }

  lemma StepKeepsInv(s: State, m: Move)
    requires Inv(s) && Step(s, m).Some?
    ensures Inv(Step(s, m).value)
  {
    match m
    case Cancel => AmbientKeepsInv(s, 0);
    case Tick(dt) => AmbientKeepsInv(s, dt);
    case Main(a) => MainKeepsInv(s, a);
    case Side(b) => SideKeepsInv(s, b);
    case Handler(h) => HandlerKeepsInv(s, h);
  }

  lemma StepKeepsConfig(s: State, m: Move)
    requires Step(s, m).Some?
    ensures Step(s, m).value.cfg == s.cfg
  {
    if m.Main? {
      assert MainStep(s, m.a).Some? ==> MainStep(s, m.a).value.cfg == s.cfg;
    } else if m.Side? {
      assert SideStep(s, m.b).Some? ==> SideStep(s, m.b).value.cfg == s.cfg;
    }
  }

  lemma {:induction false} ConfigIsFixed(c: Config, moves: seq<Move>, s: State)
    requires Exec(Step, Start(c), moves) == Some(s)
    ensures s.cfg == c
    decreases |moves|
  {
    if moves != [] {
      var p := Exec(Step, Start(c), moves[..|moves| - 1]).value;
      ConfigIsFixed(c, moves[..|moves| - 1], p);
      StepKeepsConfig(p, moves[|moves| - 1]);
    }
  }

  lemma Reachable(c: Config, moves: seq<Move>, s: State)
    requires ValidConfig(c) && Exec(Step, Start(c), moves) == Some(s)
    ensures Inv(s) && s.cfg == c
  {
    forall p, m | Inv(p) && Step(p, m).Some?
      ensures Inv(Step(p, m).value)
    {
      StepKeepsInv(p, m);
    }
    assert Inv(Start(c));
    Invariant(Step, Inv, Start(c), moves);
    ConfigIsFixed(c, moves, s);
  }

  // ---------- claims about every run ----------

  /** Handlers and slots taken for jobs not yet handed to one add up to the semaphore's
      occupancy and never exceed the limit, over the stream, the sidecar and all reconnects;
      and at most one stream RPC is open. */
  lemma SharedBound(c: Config, moves: seq<Move>, s: State)
    requires ValidConfig(c) && Exec(Step, Start(c), moves) == Some(s)
    ensures s.pool.sem == Busy(s.pool) + s.pool.releasing + Unspawned(s.main, s.side)
    ensures s.pool.sem <= c.maxConcurrent
    ensures s.streams <= 1
  {
    Reachable(c, moves, s);
  }

  ghost predicate Drained(s: State) {
    && !SideAlive(s.side) && Unspawned(s.main, s.side) == 0
    && s.pool.wg == 0 && s.pool.sem == 0 && Busy(s.pool) == 0
    && s.pool.releasing == 0 && s.pool.finishing == 0
  }

  lemma ZeroIsDrained(s: State)
    requires CountersInv(s) && s.pool.wg == 0 && (s.main.Waits? || s.main.Closes? || s.main.Returned?)
    ensures Drained(s)
  {
  }

  /** wg.Wait lets Run pass only when the sidecar is gone, no handler runs or acknowledges
      and the semaphore is empty, and so it stays. */
  lemma WaitMeansDrained(c: Config, moves: seq<Move>, s: State)
    requires ValidConfig(c) && Exec(Step, Start(c), moves) == Some(s)
    requires s.main.Closes? || s.main.Returned?
    ensures Drained(s)
  {
    Reachable(c, moves, s);
    ZeroIsDrained(s);
  }

  ghost predicate WaitsDrained(s: State) {
    Drained(s) && (s.main.Waits? || s.main.Closes? || s.main.Returned?)
  }

  lemma NothingLeftToRun(p: Pool, h: HandlerAct)
    requires Busy(p) == 0 && p.releasing == 0 && p.finishing == 0
    ensures HandlerStep(p, h) == None
  {
  }

  lemma DrainedMainStays(s: State, a: Act)
    requires WaitsDrained(s)
    ensures MainStep(s, a).Some? ==> WaitsDrained(MainStep(s, a).value)
  {
  }

  lemma DrainedStays(s: State, m: Move)
    requires WaitsDrained(s)
    ensures Step(s, m).Some? ==> WaitsDrained(Step(s, m).value)
  {
    match m
    case Cancel =>
    case Tick(dt) =>
    case Main(a) => DrainedMainStays(s, a);
    case Side(b) => assert !InBatch(s.side) && SideLoopStep(s, b) == None;
    case Handler(h) => NothingLeftToRun(s.pool, h);
  }

  /** Although the sidecar adds to the WaitGroup while Run waits, the counter never reaches
      zero and rises again. */
  lemma CounterNeverRisesFromZero(c: Config, moves: seq<Move>, s: State, later: seq<Move>, s': State)
    requires ValidConfig(c) && Exec(Step, Start(c), moves) == Some(s)
    requires s.main.Waits? && s.pool.wg == 0
    requires Exec(Step, s, later) == Some(s')
    ensures s'.pool.wg == 0 && Drained(s')
  {
    Reachable(c, moves, s);
    ZeroIsDrained(s);
    forall p, m | WaitsDrained(p) && Step(p, m).Some?
      ensures WaitsDrained(Step(p, m).value)
    {
      DrainedStays(p, m);
    }
    Invariant(Step, WaitsDrained, s, later);
  }

  /** While a handler of a streamed job runs or acknowledges, the connection it answers over
      is open. */
  lemma ConnectionOutlivesStreamedJobs(c: Config, moves: seq<Move>, s: State)
    requires ValidConfig(c) && Exec(Step, Start(c), moves) == Some(s)
    requires s.pool.grpc.running + s.pool.grpc.acking != multiset{}
    ensures s.connected
  {
    Reachable(c, moves, s);
    assert |s.pool.grpc.running + s.pool.grpc.acking| == |s.pool.grpc.running| + |s.pool.grpc.acking|;
    if s.main.Returned? {
      ZeroIsDrained(s);
    }
  }

  /** Each delivery past the lease check is pending, running, acknowledging, acknowledged on
      the channel it came in on, or dropped unhandled after a cancellation; and exactly one of
      these, also when the engine delivers a job again after a failure or a timeout. */
  lemma EachJobIsAccountedFor(c: Config, moves: seq<Move>, s: State, job: nat)
    requires ValidConfig(c) && Exec(Step, Start(c), moves) == Some(s)
    ensures var l := s.pool.grpc;
            PendingGrpc(s.main)[job] + l.running[job] + l.acking[job] + l.acked[job] + l.dropped[job]
            == l.delivered[job]
    ensures var l := s.pool.rest;
            PendingRest(s.side)[job] + l.running[job] + l.acking[job] + l.acked[job] + l.dropped[job]
            == l.delivered[job]
    ensures !s.canceled ==> s.pool.grpc.dropped == s.pool.rest.dropped == multiset{}
  {
    Reachable(c, moves, s);
  }

  /** When Run returns nothing is left over: every delivered job was acknowledged or dropped. */
  lemma ReturnLeavesNothing(c: Config, moves: seq<Move>, s: State)
    requires ValidConfig(c) && Exec(Step, Start(c), moves) == Some(s) && s.main.Returned?
    ensures s.pool.grpc.delivered == s.pool.grpc.acked + s.pool.grpc.dropped
    ensures s.pool.rest.delivered == s.pool.rest.acked + s.pool.rest.dropped
  {
    Reachable(c, moves, s);
    ZeroIsDrained(s);
    EmptyLane(s.pool.grpc);
    EmptyLane(s.pool.rest);
  }

  lemma EmptyLane(l: Lane)
    requires LaneInv(l, multiset{}) && |l.running| == 0 && |l.acking| == 0
    ensures l.delivered == l.acked + l.dropped
  {
    assert l.running == multiset{} && l.acking == multiset{};
  }

  lemma PacedCount(n: nat, p: nat, now: nat)
    requires p > 0 && Times(n, p) <= now + p
    ensures n <= now / p + 1
  {
    TimesIsProduct(n, p);
    var q := now / p;
    assert now < q * p + p;
    assert n >= q + 2 ==> n * p >= (q + 2) * p;
    assert (q + 2) * p == q * p + 2 * p;
  }

  /** No loop spins, whatever pauses are configured, zero and negative ones included: over the
      time since Run entered its loop, stream opens and sidecar polls are bounded by the
      clamped waits that fit into it, plus one. */
  lemma LoopsDoNotSpin(c: Config, moves: seq<Move>, s: State)
    requires ValidConfig(c) && Exec(Step, Start(c), moves) == Some(s)
    ensures s.log.opens <= s.now / Clamped(c.reconnectBackoff) + 1
    ensures s.log.polls <= s.now / Clamped(c.pollInterval) + 1
  {
    Reachable(c, moves, s);
    PacedCount(s.log.opens, Clamped(s.cfg.reconnectBackoff), s.now);
    PacedCount(s.log.polls, Clamped(s.cfg.pollInterval), s.now);
  }

  /** Without a cancellation Run has left its loop exactly when a wait of its own failed, and
      the sidecar has left its own exactly when a wait of its own did. So Run returns nil only
      after both failed, or the one there is; until the sidecar's fails too it is stranded in
      wg.Wait. */
  lemma StopsOnlyOnCancellation(c: Config, moves: seq<Move>, s: State)
    requires ValidConfig(c) && Exec(Step, Start(c), moves) == Some(s)
    ensures !s.canceled ==> (s.main.Waits? || s.main.Closes? || s.main.Returned? <==> s.log.mainWaitFailed)
    ensures !s.canceled ==> (s.side.Returns? || s.side.Exited? <==> s.log.sideWaitFailed)
    ensures s.main == Returned(false) ==> s.log.mainWaitFailed && (HasSidecar(c) ==> s.log.sideWaitFailed)
    ensures !s.canceled && HasSidecar(c) && s.log.mainWaitFailed && !s.log.sideWaitFailed ==> s.main.Waits?
  {
    Reachable(c, moves, s);
  }

  /** A clock that fails without a cancellation, as an EngineClock can, leaves Run waiting
      with no stream while its sidecar goes on taking jobs, whatever the configuration. */
  lemma FailingClockStrandsTheSidecar(c: Config, job: nat) returns (moves: seq<Move>, s: State)
    requires ValidConfig(c) && HasSidecar(c)
    ensures Exec(Step, Start(c), moves) == Some(s)
    ensures s.main.Waits? && s.streams == 0 && !s.canceled && s.pool.rest.running == multiset{job}
  {
    var p;
    moves, p := FailingClock(c);
    moves, p := SidecarOffers(c, moves, p, job);
    moves, s := Extend(Step, Start(c), moves, Side(Proceed));
    assert s.side == SideHolds([job]);
    moves, s := Extend(Step, Start(c), moves, Side(Proceed));
    moves, s := Extend(Step, Start(c), moves, Side(Proceed));
  }

  lemma FailingClock(c: Config) returns (moves: seq<Move>, s: State)
    ensures Exec(Step, Start(c), moves) == Some(s)
    ensures s == Start(c).(main := Waits, log := Log(1, 0, true, false))
  {
    moves, s := Extend(Step, Start(c), [], Main(Proceed));
    moves, s := Extend(Step, Start(c), moves, Main(Divert));
    moves, s := Extend(Step, Start(c), moves, Main(Proceed));
    moves, s := Extend(Step, Start(c), moves, Main(Divert));
  }

  lemma SidecarOffers(c: Config, moves: seq<Move>, s: State, job: nat) returns (moves': seq<Move>, s': State)
    requires Exec(Step, Start(c), moves) == Some(s) && !s.canceled && s.side.SideLoops?
    ensures Exec(Step, Start(c), moves') == Some(s')
    ensures s' == s.(side := SideOffers([job]), pool := Receive(s.pool, Rest, multiset{job}), log := s'.log)
  {
    moves', s' := Extend(Step, Start(c), moves, Side(Proceed));
    moves', s' := Extend(Step, Start(c), moves', Side(Batch([job])));
    assert multiset([job]) == multiset{job};
  }

  // ---------- the drain ends ----------

  function MainWork(pc: MainPc): nat {
    match pc
    case Offers(_) => 11
    case Holds(_) => 10
    case Added(_) => 9
    case Opens => 5
    case Receives => 4
    case BacksOff(_) => 4
    case Loops => 3
    case StreamEnded => 3
    case Waits => 2
    case Closes => 1
    case Returned(_) => 0
  }

  function SideWork(pc: SidePc): nat {
    match pc
    case Polls => 5
    case SideOffers(queue) => 7 * |queue| + 4
    case SideHolds(queue) => 7 * |queue| + 3
    case SideAdded(queue) => 7 * |queue| + 2
    case Sleeps(_) => 3
    case SideLoops => 2
    case Returns => 1
    case Off => 0
    case Exited => 0
  }

  function PoolWork(p: Pool): nat {
    4 * |p.grpc.running| + 3 * |p.grpc.acking| + 4 * |p.rest.running| + 3 * |p.rest.acking|
    + 2 * p.releasing + p.finishing
  }

  /** A bound on the steps still to be taken once ctx is canceled, if nothing more arrives. */
  function Work(s: State): nat {
    MainWork(s.main) + SideWork(s.side) + PoolWork(s.pool)
  }

  /** How many jobs a move brings in. */
  function Arrivals(m: Move): nat {
    if m.Main? && m.a.Deliver? then 1
    else if m.Side? && m.b.Batch? then |m.b.jobs|
    else 0
  }

  predicate Idle(m: Move) {
    m.Cancel? || m.Tick?
  }

  lemma RunWork(p: Pool, ch: Channel, job: nat)
    ensures PoolWork(Run(p, ch, job)) == PoolWork(p) + 4
  {
  }

  lemma StreamWorkDrops(s: State, a: Act)
    requires s.canceled && InStream(s.main) && StreamStep(s, a).Some?
    ensures Work(StreamStep(s, a).value) + 1 <= Work(s) + 8 * Arrivals(Main(a))
  {
    if s.main.Added? {
      RunWork(s.pool, Grpc, s.main.job);
    } else {
      assert PoolWork(StreamStep(s, a).value.pool) == PoolWork(s.pool);
    }
  }

  lemma LoopWorkDrops(s: State, a: Act)
    requires s.canceled && !InStream(s.main) && LoopStep(s, a).Some?
    ensures Work(LoopStep(s, a).value) + 1 <= Work(s)
  {
    assert LoopStep(s, a).value.pool == s.pool;
  }

  lemma OfferWorkDrops(s: State, a: Act)
    requires s.canceled && s.side.SideOffers? && BatchStep(s, a).Some?
    ensures Work(BatchStep(s, a).value) + 1 <= Work(s)
  {
    assert PoolWork(BatchStep(s, a).value.pool) == PoolWork(s.pool);
  }

  lemma BatchWorkDrops(s: State, a: Act)
    requires s.canceled && InBatch(s.side) && !s.side.SideOffers? && BatchStep(s, a).Some?
    ensures Work(BatchStep(s, a).value) + 1 <= Work(s) + 8 * Arrivals(Side(a))
  {
    if s.side.SideAdded? {
      RunWork(s.pool, Rest, s.side.queue[0]);
    }
  }

  lemma SideLoopWorkDrops(s: State, a: Act)
    requires s.canceled && !InBatch(s.side) && SideLoopStep(s, a).Some?
    ensures Work(SideLoopStep(s, a).value) + 1 <= Work(s)
  {
  }

  lemma HandlerWorkDrops(p: Pool, h: HandlerAct)
    requires HandlerStep(p, h).Some?
    ensures PoolWork(HandlerStep(p, h).value) + 1 <= PoolWork(p)
  {
    if h.Return? || h.Acked? {
      LaneWork(LaneOf(p, h.ch), h.job, h.Acked?);
    }
  }

  lemma LaneWork(l: Lane, job: nat, acked: bool)
    requires LaneStep(l, job, acked).Some?
    ensures var l' := LaneStep(l, job, acked).value;
            if acked then |l'.running| == |l.running| && |l'.acking| == |l.acking| - 1
            else |l'.running| == |l.running| - 1 && |l'.acking| == |l.acking| + 1
  {
    if acked {
      assert l.acking == (l.acking - multiset{job}) + multiset{job};
    } else {
      assert l.running == (l.running - multiset{job}) + multiset{job};
    }
  }

  lemma StepWorkDrops(s: State, m: Move)
    requires s.canceled && Step(s, m).Some?
    ensures Step(s, m).value.canceled
    ensures Work(Step(s, m).value) + (if Idle(m) then 0 else 1) <= Work(s) + 8 * Arrivals(m)
  {
    match m
    case Cancel =>
    case Tick(dt) =>
    case Main(a) =>
      if InStream(s.main) {
        StreamWorkDrops(s, a);
      } else {
        LoopWorkDrops(s, a);
      }
    case Side(b) =>
      if s.side.SideOffers? {
        OfferWorkDrops(s, b);
      } else if InBatch(s.side) {
        BatchWorkDrops(s, b);
      } else {
        SideLoopWorkDrops(s, b);
      }
    case Handler(h) => HandlerWorkDrops(s.pool, h);
  }

  function Steps(moves: seq<Move>): nat {
    if moves == [] then 0
    else Steps(moves[..|moves| - 1]) + (if Idle(moves[|moves| - 1]) then 0 else 1)
  }

  function TotalArrivals(moves: seq<Move>): nat {
    if moves == [] then 0
    else TotalArrivals(moves[..|moves| - 1]) + Arrivals(moves[|moves| - 1])
  }

  /** After a cancellation the worker takes a bounded number of steps, whatever their order:
      at most the work left, plus eight for each job that still arrives. */
  lemma {:induction false} DrainIsBounded(s: State, moves: seq<Move>, s': State)
    requires s.canceled && Exec(Step, s, moves) == Some(s')
    ensures s'.canceled && Steps(moves) + Work(s') <= Work(s) + 8 * TotalArrivals(moves)
    decreases |moves|
  {
    if moves != [] {
      var before, m := moves[..|moves| - 1], moves[|moves| - 1];
      var p := Exec(Step, s, before).value;
      DrainIsBounded(s, before, p);
      StepWorkDrops(p, m);
    }
  }

  /** And it is never stuck: until Run returns, some step other than an arrival is enabled. */
  lemma DrainNeverStalls(c: Config, moves: seq<Move>, s: State) returns (m: Move)
    requires ValidConfig(c) && Exec(Step, Start(c), moves) == Some(s)
    requires s.canceled && !s.main.Returned?
    ensures Step(s, m).Some? && !Idle(m) && Arrivals(m) == 0
  {
    Reachable(c, moves, s);
    if s.main.Waits? && s.pool.wg > 0 {
      m := SomethingRuns(s);
    } else if s.main.Receives? || s.main.Offers? || s.main.BacksOff? {
      m := Main(Divert);
    } else {
      m := Main(Proceed);
    }
  }

  lemma SomethingRuns(s: State) returns (m: Move)
    requires Inv(s) && s.canceled && s.main.Waits? && s.pool.wg > 0
    ensures Step(s, m).Some? && !Idle(m) && Arrivals(m) == 0
  {
    if s.pool.finishing > 0 {
      m := Handler(Finish);
    } else if s.pool.releasing > 0 {
      m := Handler(Release);
    } else if |s.pool.grpc.running| > 0 {
      var job :| job in s.pool.grpc.running;
      m := Handler(Return(Grpc, job));
    } else if |s.pool.grpc.acking| > 0 {
      var job :| job in s.pool.grpc.acking;
      m := Handler(Acked(Grpc, job));
    } else if |s.pool.rest.running| > 0 {
      var job :| job in s.pool.rest.running;
      m := Handler(Return(Rest, job));
    } else if |s.pool.rest.acking| > 0 {
      var job :| job in s.pool.rest.acking;
      m := Handler(Acked(Rest, job));
    } else {
      m := SidecarRuns(s);
    }
  }

  lemma SidecarRuns(s: State) returns (m: Move)
    requires Inv(s) && s.canceled && SideAlive(s.side)
    ensures Step(s, m).Some? && !Idle(m) && Arrivals(m) == 0
  {
    match s.side
    case Polls => m := Side(Batch([]));
    case SideOffers(queue) => m := Side(if queue == [] then Proceed else Divert);
    case Sleeps(_) => m := Side(Divert);
    case _ => m := Side(Proceed);
  }

  // ---------- slots are given, and the worker gets on ----------

  /** A job offered on the stream or by the sidecar gets a slot exactly when fewer than
      maxConcurrent are taken. */
  lemma SlotsAreGiven(c: Config, moves: seq<Move>, s: State)
    requires ValidConfig(c) && Exec(Step, Start(c), moves) == Some(s)
    ensures var taken := Busy(s.pool) + s.pool.releasing + Unspawned(s.main, s.side);
            && (s.main.Offers? ==> (Step(s, Main(Proceed)).Some? <==> taken < c.maxConcurrent))
            && (s.side.SideOffers? && s.side.queue != [] ==> (Step(s, Side(Proceed)).Some? <==> taken < c.maxConcurrent))
  {
    Reachable(c, moves, s);
  }

  predicate HasLeft(s: State) {
    s.main.Waits? || s.main.Closes? || s.main.Returned?
  }

  predicate SideHasLeft(s: State) {
    s.side.Off? || s.side.Returns? || s.side.Exited?
  }

  /** Neither ctx is canceled nor does the stream, a wait or an offer fail. */
  predicate Untroubled(moves: seq<Move>) {
    forall m <- moves :: !m.Cancel? && m != Main(Divert) && m != Side(Divert)
  }

  /** How far Run is from receiving, and the sidecar from its loop condition. */
  function MainRank(pc: MainPc, now: nat): nat {
    match pc
    case Receives => 0
    case Opens => 1
    case Loops => 2
    case BacksOff(until) => if now < until then 4 else 3
    case StreamEnded => 5
    case Added(_) => 5
    case Holds(_) => 6
    case Offers(_) => 7
    case _ => 0
  }

  function SideRank(pc: SidePc, now: nat): nat {
    match pc
    case Polls => 4
    case SideOffers(queue) => 7 * |queue| + 3
    case SideHolds(queue) => 7 * |queue| + 2
    case SideAdded(queue) => 7 * |queue| + 1
    case Sleeps(until) => if now < until then 2 else 1
    case Returns => 1
    case _ => 0
  }

  function Rank(s: State): nat {
    MainRank(s.main, s.now) + SideRank(s.side, s.now) + PoolWork(s.pool)
  }

  ghost predicate Nearer(s: State, t: State) {
    && Rank(t) < Rank(s) && t.canceled == s.canceled
    && HasLeft(t) == HasLeft(s) && SideHasLeft(t) == SideHasLeft(s)
  }

  lemma HandlerSettles(s: State) returns (h: HandlerAct)
    requires CountersInv(s) && PoolWork(s.pool) > 0
    ensures HandlerStep(s.pool, h).Some? && Nearer(s, Step(s, Handler(h)).value)
  {
    var p := s.pool;
    if p.finishing > 0 {
      h := Finish;
    } else if p.releasing > 0 {
      h := Release;
    } else {
      h := LaneMove(p);
    }
    HandlerWorkDrops(p, h);
  }

  lemma LaneMove(p: Pool) returns (h: HandlerAct)
    requires Busy(p) > 0
    ensures HandlerStep(p, h).Some?
  {
    if |p.grpc.running| > 0 {
      var job :| job in p.grpc.running;
      h := Return(Grpc, job);
    } else if |p.grpc.acking| > 0 {
      var job :| job in p.grpc.acking;
      h := Acked(Grpc, job);
    } else if |p.rest.running| > 0 {
      var job :| job in p.rest.running;
      h := Return(Rest, job);
    } else {
      var job :| job in p.rest.acking;
      h := Acked(Rest, job);
    }
  }

  lemma StreamSettles(s: State)
    requires InStream(s.main) && !s.main.Receives? && (s.main.Offers? ==> s.pool.sem < s.cfg.maxConcurrent)
    ensures StreamStep(s, Proceed).Some? && Nearer(s, StreamStep(s, Proceed).value)
  {
    if s.main.Added? {
      RunWork(s.pool, Grpc, s.main.job);
    } else {
      assert PoolWork(StreamStep(s, Proceed).value.pool) == PoolWork(s.pool);
    }
  }

  lemma LoopSettles(s: State) returns (m: Move)
    requires !InStream(s.main) && MainRank(s.main, s.now) > 0 && !s.canceled
    ensures !m.Cancel? && m != Main(Divert) && m != Side(Divert) && Step(s, m).Some? && Nearer(s, Step(s, m).value)
  {
    m := Main(Proceed);
    if s.main.BacksOff? && s.now < s.main.until {
      m := Tick(s.main.until - s.now);
    } else {
      assert LoopStep(s, Proceed).value.pool == s.pool;
    }
  }

  lemma BatchSettles(s: State) returns (a: Act)
    requires InBatch(s.side) && (s.side.SideHolds? || s.side.SideAdded? ==> s.side.queue != [])
    requires s.side.SideOffers? ==> s.pool.sem < s.cfg.maxConcurrent
    ensures !a.Divert? && BatchStep(s, a).Some? && Nearer(s, BatchStep(s, a).value)
  {
    a := if s.side.Polls? then Batch([]) else Proceed;
    if s.side.SideAdded? {
      RunWork(s.pool, Rest, s.side.queue[0]);
    } else {
      assert PoolWork(BatchStep(s, a).value.pool) == PoolWork(s.pool);
    }
  }

  lemma SideLoopSettles(s: State) returns (m: Move)
    requires !InBatch(s.side) && SideRank(s.side, s.now) > 0 && (s.side.Returns? ==> s.pool.wg > 0)
    ensures !m.Cancel? && m != Main(Divert) && m != Side(Divert) && Step(s, m).Some? && Nearer(s, Step(s, m).value)
  {
    m := if s.side.Sleeps? && s.now < s.side.until then Tick(s.side.until - s.now) else Side(Proceed);
  }

  lemma OneSettles(s: State) returns (m: Move)
    requires Inv(s) && !s.canceled && Rank(s) > 0
    ensures !m.Cancel? && m != Main(Divert) && m != Side(Divert) && Step(s, m).Some? && Nearer(s, Step(s, m).value)
  {
    hide Nearer;
    if PoolWork(s.pool) > 0 {
      var h := HandlerSettles(s);
      m := Handler(h);
    } else if s.main.Holds? || s.main.Added? {
      StreamSettles(s);
      m := Main(Proceed);
    } else if s.side.SideHolds? || s.side.SideAdded? || s.side.SideOffers? || s.side.Polls? {
      var a := BatchSettles(s);
      m := Side(a);
    } else if s.main.Offers? {
      StreamSettles(s);
      m := Main(Proceed);
    } else if MainRank(s.main, s.now) > 0 {
      m := LoopSettles(s);
    } else {
      m := SideLoopSettles(s);
    }
  }

  /** From any live state what is under way can finish, with nothing failing: Run comes to
      receive on an open stream and the sidecar to its loop, unless they have left. */
  lemma {:induction false} Settles(s: State) returns (more: seq<Move>, t: State)
    requires Inv(s) && !s.canceled
    ensures Exec(Step, s, more) == Some(t) && Untroubled(more) && Inv(t) && !t.canceled && t.cfg == s.cfg
    ensures Rank(t) == 0 && HasLeft(t) == HasLeft(s) && SideHasLeft(t) == SideHasLeft(s)
    decreases Rank(s)
  {
    more, t := [], s;
    if Rank(s) > 0 {
      var m := OneSettles(s);
      StepKeepsInv(s, m);
      StepKeepsConfig(s, m);
      var first, p := Extend(Step, s, [], m);
      var rest;
      rest, t := Settles(p);
      Concatenation(Step, s, first, rest);
      more := first + rest;
    }
  }

  lemma RankZero(s: State)
    requires Inv(s) && Rank(s) == 0
    ensures Busy(s.pool) == 0 && s.pool.sem == 0
    ensures s.pool.grpc.running == s.pool.grpc.acking == s.pool.rest.running == s.pool.rest.acking == multiset{}
    ensures !HasLeft(s) ==> s.main.Receives?
    ensures !SideHasLeft(s) ==> s.side.SideLoops?
  {
  }

  lemma StreamOne(start: State, moves: seq<Move>, s: State, job: nat) returns (moves': seq<Move>, s': State)
    requires Exec(Step, start, moves) == Some(s) && s.main.Receives? && s.pool.sem < s.cfg.maxConcurrent
    ensures Exec(Step, start, moves') == Some(s')
    ensures moves' == moves + [Main(Deliver(job)), Main(Proceed), Main(Proceed), Main(Proceed)]
    ensures s' == s.(pool := s'.pool)
    ensures s'.pool == Run(AddOne(TakeSlot(Receive(s.pool, Grpc, multiset{job}))), Grpc, job)
  {
    var p := StreamOffers(start, moves, s, job);
    moves', s' := Extend(Step, start, moves + [Main(Deliver(job)), Main(Proceed)], Main(Proceed));
    assert s' == p.(main := Added(job), pool := AddOne(p.pool));
    moves', s' := Extend(Step, start, moves', Main(Proceed));
  }

  lemma StreamOffers(start: State, moves: seq<Move>, s: State, job: nat) returns (s': State)
    requires Exec(Step, start, moves) == Some(s) && s.main.Receives? && s.pool.sem < s.cfg.maxConcurrent
    ensures Exec(Step, start, moves + [Main(Deliver(job)), Main(Proceed)]) == Some(s')
    ensures s' == s.(main := Holds(job), pool := TakeSlot(Receive(s.pool, Grpc, multiset{job})))
  {
    var more, p := Extend(Step, start, moves, Main(Deliver(job)));
    assert p == s.(main := Offers(job), pool := Receive(s.pool, Grpc, multiset{job}));
    var longer, q := Extend(Step, start, more, Main(Proceed));
    assert longer == moves + [Main(Deliver(job)), Main(Proceed)];
    s' := q;
  }

  lemma {:induction false} StreamAll(start: State, moves: seq<Move>, s: State, jobs: seq<nat>)
    returns (moves': seq<Move>, s': State)
    requires Exec(Step, start, moves) == Some(s) && Untroubled(moves) && s.main.Receives?
    requires s.pool.sem + |jobs| <= s.cfg.maxConcurrent
    ensures Exec(Step, start, moves') == Some(s') && Untroubled(moves')
    ensures s'.pool.grpc.running == s.pool.grpc.running + multiset(jobs)
    ensures s'.pool.rest == s.pool.rest && s'.pool.grpc.acking == s.pool.grpc.acking
    decreases |jobs|
  {
    moves', s' := moves, s;
    if jobs != [] {
      assert jobs == [jobs[0]] + jobs[1..];
      var more, p := StreamOne(start, moves, s, jobs[0]);
      moves', s' := StreamAll(start, more, p, jobs[1..]);
    }
  }

  /** The limit is reached, not only kept: from every reachable live state in which Run has
      not left its loop, over reconnects and whatever else is under way, the stream can have
      exactly maxConcurrent handlers running, on any jobs, with nothing failing on the way. */
  lemma StreamReachesTheLimit(c: Config, moves: seq<Move>, s: State, jobs: seq<nat>)
    returns (more: seq<Move>, t: State)
    requires ValidConfig(c) && Exec(Step, Start(c), moves) == Some(s) && !s.canceled && !HasLeft(s)
    requires |jobs| == c.maxConcurrent
    ensures Exec(Step, s, more) == Some(t) && Untroubled(more)
    ensures t.pool.grpc.running == multiset(jobs) && Busy(t.pool) == c.maxConcurrent
  {
    Reachable(c, moves, s);
    var a, p := Settles(s);
    hide Inv, Rank, Step;
    RankZero(p);
    more, t := StreamAll(s, a, p, jobs);
    assert |multiset(jobs)| == |jobs|;
  }

  lemma SideOne(start: State, moves: seq<Move>, s: State) returns (moves': seq<Move>, s': State)
    requires Exec(Step, start, moves) == Some(s) && s.side.SideOffers? && s.side.queue != []
    requires s.pool.sem < s.cfg.maxConcurrent
    ensures Exec(Step, start, moves') == Some(s')
    ensures moves' == moves + [Side(Proceed), Side(Proceed), Side(Proceed)]
    ensures s' == s.(side := SideOffers(s.side.queue[1..]), pool := s'.pool)
    ensures s'.pool == Run(AddOne(TakeSlot(s.pool)), Rest, s.side.queue[0])
  {
    moves', s' := Extend(Step, start, moves, Side(Proceed));
    assert s' == s.(side := SideHolds(s.side.queue), pool := TakeSlot(s.pool));
    moves', s' := Extend(Step, start, moves', Side(Proceed));
    assert s'.side == SideAdded(s.side.queue);
    moves', s' := Extend(Step, start, moves', Side(Proceed));
  }

  lemma {:induction false} SideAll(start: State, moves: seq<Move>, s: State) returns (moves': seq<Move>, s': State)
    requires Exec(Step, start, moves) == Some(s) && Untroubled(moves) && s.side.SideOffers?
    requires s.pool.sem + |s.side.queue| <= s.cfg.maxConcurrent
    ensures Exec(Step, start, moves') == Some(s') && Untroubled(moves')
    ensures s'.pool.rest.running == s.pool.rest.running + multiset(s.side.queue)
    ensures s'.pool.grpc == s.pool.grpc && s'.pool.rest.acking == s.pool.rest.acking
    decreases |s.side.queue|
  {
    moves', s' := moves, s;
    if s.side.queue != [] {
      assert s.side.queue == [s.side.queue[0]] + s.side.queue[1..];
      var more, p := SideOne(start, moves, s);
      moves', s' := SideAll(start, more, p);
    }
  }

  lemma SidePolls(start: State, moves: seq<Move>, s: State, jobs: seq<nat>) returns (moves': seq<Move>, s': State)
    requires Exec(Step, start, moves) == Some(s) && s.side.SideLoops? && !s.canceled
    ensures Exec(Step, start, moves') == Some(s') && moves' == moves + [Side(Proceed), Side(Batch(jobs))]
    ensures s' == s.(side := SideOffers(jobs), pool := Receive(s.pool, Rest, multiset(jobs)), log := s'.log)
  {
    moves', s' := Extend(Step, start, moves, Side(Proceed));
    assert s'.side == Polls && s'.pool == s.pool;
    moves', s' := Extend(Step, start, moves', Side(Batch(jobs)));
  }

  /** And so can the sidecar alone, from every reachable live state in which it is still in its
      loop, whether or not Run is. */
  lemma SidecarReachesTheLimit(c: Config, moves: seq<Move>, s: State, jobs: seq<nat>)
    returns (more: seq<Move>, t: State)
    requires ValidConfig(c) && Exec(Step, Start(c), moves) == Some(s) && !s.canceled && !SideHasLeft(s)
    requires |jobs| == c.maxConcurrent
    ensures Exec(Step, s, more) == Some(t) && Untroubled(more)
    ensures t.pool.rest.running == multiset(jobs) && Busy(t.pool) == c.maxConcurrent
  {
    Reachable(c, moves, s);
    var a, p := Settles(s);
    hide Inv, Rank, Step;
    RankZero(p);
    var b, q := SidePolls(s, a, p, jobs);
    more, t := SideAll(s, b, q);
    assert |multiset(jobs)| == |jobs|;
  }
}
