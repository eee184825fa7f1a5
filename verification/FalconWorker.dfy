/** worker.go: JobWorker.Run and runFalcon over the command stream of
    internal/falcon/streamworker.go, with the gateway's delivery credits, frames in transit
    and the link's failover, as one interleaved machine. */
module FalconWorker {
  import opened Counting
  import opened FalconAnswers
  import Jobs
  import opened Options
  import opened Runs

  const MAX_JOB_CREDITS: nat := 4096

  /** The credits Subscribe asks for, also the capacity of the buffer of pushed jobs. */
  function Window(maxConcurrent: nat): (w: nat)
    ensures 1 <= w <= 4096
    ensures maxConcurrent > 0 ==> w <= maxConcurrent
    ensures 0 < maxConcurrent <= 4096 ==> w == maxConcurrent
    ensures maxConcurrent >= 4096 ==> w == 4096
  {
    if maxConcurrent < 1 then 1
    else if maxConcurrent > MAX_JOB_CREDITS then MAX_JOB_CREDITS
    else maxConcurrent
  }

  datatype MainPc =
    | Probes                 // in falconCaps
    | Subscribes
    | Loops                  // at the loop condition
    | Awaits                 // in NextJob
    | Took                   // a pushed job taken from the buffer, not yet decoded
    | Counted                // counted by the WaitGroup, not yet spawned
    | Waits
    | Closes
    | RestPolls              // in runRESTPoll, see RestPoll
    | Returned

  /** One subscription. credits is what the gateway may still push on the live connection,
      down the job frames and up the credit frames in transit on it. */
  datatype Link = Link(connected: bool, credits: nat, down: nat, up: nat, connects: nat)

  datatype State = State(
    window: nat,
    canceled: bool,
    main: MainPc,
    link: Link,
    buffer: nat,             // pushed jobs waiting in the channel
    running: nat,            // handlers that have not yet acknowledged
    finishing: nat,          // handlers that have, not yet out of the WaitGroup
    wg: nat,
    dispatched: nat,         // handlers ever started over the stream
    lost: nat)               // frames dropped because the buffer was full

  function Start(maxConcurrent: nat): State {
    State(Window(maxConcurrent), false, Probes, Link(false, 0, 0, 0, 0), 0, 0, 0, 0, 0, 0)
  }

  datatype Move =
    | Cancel
    | Detected(nano: bool)   // falconCaps returns
    | Subscribed(ok: bool)
    | Turn                   // the loop condition, NextJob without a job, wg.Wait or Close
    | Next                   // NextJob yields a job
    | Decode(ok: bool)
    | Spawn
    | Answer(job: Jobs.Job, outcome: Jobs.Outcome, encodes: bool)  // a handler returns, handleFalcon answers
    | Finish
    | Push                   // the gateway pushes a job
    | Arrive                 // a job frame reaches the client
    | Credit                 // a credit frame reaches the gateway
    | Disconnect
    | Reconnect              // the link fails over and subscribes again

  /** Sending frames: their credits are in transit while connected, and the errors of a link
      that is not are ignored. */
  function Send(l: Link, frames: seq<Frame>): Link {
    if l.connected then l.(up := l.up + Credits(frames)) else l
  }

  function MainStep(s: State, m: Move): Option<State> {
    match s.main
    case Probes => if m.Detected? then Some(s.(main := if m.nano then Subscribes else RestPolls)) else None
    case Subscribes =>
      if !m.Subscribed? then None
      else if m.ok then Some(s.(main := Loops, link := Link(true, s.window, 0, 0, 1)))
      else Some(s.(main := if s.canceled then Returned else RestPolls))
    case Loops =>
      if m.Turn? then Some(s.(main := if s.canceled then Waits else Awaits)) else None
    case Awaits =>
      if m.Turn? then Some(s.(main := Loops))
      else if m.Next? && s.buffer > 0 then Some(s.(main := Took, buffer := s.buffer - 1))
      else None
    case Took =>
      if !m.Decode? then None
      else if m.ok then Some(s.(main := Counted, wg := s.wg + 1))
      else Some(s.(main := Loops, link := Send(s.link, REPLENISH)))
    case Counted =>
      if m.Spawn? then Some(s.(main := Loops, running := s.running + 1, dispatched := s.dispatched + 1)) else None
    case Waits => if m.Turn? && s.wg == 0 then Some(s.(main := Closes)) else None
    case Closes => if m.Turn? then Some(s.(main := Returned, link := Link(false, 0, 0, 0, s.link.connects))) else None
    case RestPolls => None
    case Returned => None
  }

  function HandlerStep(s: State, m: Move): Option<State> {
    if m.Answer? && s.running > 0 then
      Some(s.(running := s.running - 1, finishing := s.finishing + 1,
              link := Send(s.link, AnswerFrames(m.job, m.outcome, m.encodes))))
    else if m.Finish? && s.finishing > 0 && s.wg > 0 then
      Some(s.(finishing := s.finishing - 1, wg := s.wg - 1))
    else None
  }

  function LinkStep(s: State, m: Move): Option<State> {
    var l := s.link;
    if m.Reconnect? then
      if !l.connected && l.connects > 0 && s.main != Returned then
        Some(s.(link := Link(true, s.window, 0, 0, l.connects + 1)))
      else None
    else if !l.connected then None
    else if m.Push? && l.credits > 0 then Some(s.(link := l.(credits := l.credits - 1, down := l.down + 1)))
    else if m.Arrive? && l.down > 0 then
      if s.buffer < s.window then Some(s.(link := l.(down := l.down - 1), buffer := s.buffer + 1))
      else Some(s.(link := l.(down := l.down - 1), lost := s.lost + 1))
    else if m.Credit? && l.up > 0 then Some(s.(link := l.(up := l.up - 1, credits := l.credits + 1)))
    else if m.Disconnect? then Some(s.(link := Link(false, 0, 0, 0, l.connects)))
    else None
  }

  predicate OfMain(m: Move) {
    m.Detected? || m.Subscribed? || m.Turn? || m.Next? || m.Decode? || m.Spawn?
  }

  function Step(s: State, m: Move): Option<State> {
    if m.Cancel? then Some(s.(canceled := true))
    else if OfMain(m) then MainStep(s, m)
    else if m.Answer? || m.Finish? then HandlerStep(s, m)
    else LinkStep(s, m)
  }

  // ---------- the invariant ----------

  /** Jobs the client has and has not answered. */
  function Outstanding(s: State): nat {
    s.buffer + (if s.main.Took? || s.main.Counted? then 1 else 0) + s.running
  }

  function Total(s: State): nat {
    s.link.credits + s.link.down + s.link.up + Outstanding(s)
  }

  ghost predicate CreditInv(s: State) {
    && Total(s) <= Times(s.link.connects, s.window)
    && (s.link.connects == 1 && s.link.connected ==> Total(s) == s.window)
    && (s.link.connects <= 1 ==> s.lost == 0)
    && s.buffer <= s.window
  }

  ghost predicate LifeInv(s: State) {
    && s.wg == s.running + s.finishing + (if s.main.Counted? then 1 else 0)
    && (s.main.Probes? || s.main.Subscribes? || s.main.RestPolls? ==>
          s.link == Link(false, 0, 0, 0, 0) && s.dispatched == 0 && Outstanding(s) == 0 && s.finishing == 0)
    && (s.main.Closes? ==> s.wg == 0)
    && (s.link.connects == 0 ==> !s.link.connected)
    && (s.main.Returned? ==> s.wg == 0 && !s.link.connected)
    && (s.main.Waits? || s.main.Closes? || s.main.Returned? ==> s.canceled)
    && (s.main.Loops? || s.main.Awaits? || s.main.Took? || s.main.Counted? ==> s.link.connects > 0)
  }

  ghost predicate Inv(s: State) {
    1 <= s.window && CreditInv(s) && LifeInv(s)
  }

  lemma SubscribeGrantsTheWindow(s: State, m: Move)
    requires CreditInv(s) && LifeInv(s) && s.main.Subscribes? && MainStep(s, m).Some?
    ensures CreditInv(MainStep(s, m).value)
  {
    assert Times(1, s.window) == s.window;
  }

  lemma MainKeepsCredits(s: State, m: Move)
    requires CreditInv(s) && !s.main.Subscribes? && MainStep(s, m).Some?
    ensures CreditInv(MainStep(s, m).value)
  {
    var s' := MainStep(s, m).value;
    assert Total(s') <= Total(s);
    assert s'.link.connected ==> Total(s') == Total(s);
  }

  lemma MainKeepsLife(s: State, m: Move)
    requires LifeInv(s) && MainStep(s, m).Some?
    ensures LifeInv(MainStep(s, m).value) && MainStep(s, m).value.window == s.window
  {
  }

  lemma HandlerKeepsInv(s: State, m: Move)
    requires Inv(s) && HandlerStep(s, m).Some?
    ensures Inv(HandlerStep(s, m).value) && HandlerStep(s, m).value.window == s.window
  {
    if m.Answer? {
      OneCreditEach(m.job, m.outcome, m.encodes);
    }
  }

  lemma ReconnectKeepsCredits(s: State)
    requires CreditInv(s) && s.link.connects > 0
    ensures CreditInv(s.(link := Link(true, s.window, 0, 0, s.link.connects + 1)))
  {
  }

  lemma LinkKeepsCredits(s: State, m: Move)
    requires CreditInv(s) && LinkStep(s, m).Some? && !m.Reconnect?
    ensures CreditInv(LinkStep(s, m).value)
  {
    var s' := LinkStep(s, m).value;
    assert Times(1, s.window) == s.window;
    assert Total(s') <= Total(s);
    assert m.Arrive? || !s'.link.connected || Total(s') == Total(s);
  }

  lemma LinkKeepsLife(s: State, m: Move)
    requires LifeInv(s) && LinkStep(s, m).Some?
    ensures LifeInv(LinkStep(s, m).value) && LinkStep(s, m).value.window == s.window
  {
  }

  lemma StepKeepsInv(s: State, m: Move)
    requires Inv(s) && Step(s, m).Some?
    ensures Inv(Step(s, m).value) && Step(s, m).value.window == s.window
  {
    if m.Cancel? {
    } else if OfMain(m) {
      if s.main.Subscribes? {
        SubscribeGrantsTheWindow(s, m);
      } else {
        MainKeepsCredits(s, m);
      }
      MainKeepsLife(s, m);
    } else if m.Answer? || m.Finish? {
      HandlerKeepsInv(s, m);
    } else {
      LinkKeepsLife(s, m);
      if m.Reconnect? {
        ReconnectKeepsCredits(s);
      } else {
        LinkKeepsCredits(s, m);
      }
    }
  }

  lemma StepKeepsWindow(s: State, m: Move)
    requires Step(s, m).Some?
    ensures Step(s, m).value.window == s.window
  {
  }

  lemma {:induction false} WindowIsFixed(maxConcurrent: nat, moves: seq<Move>, s: State)
    requires Exec(Step, Start(maxConcurrent), moves) == Some(s)
    ensures s.window == Window(maxConcurrent)
    decreases |moves|
  {
    if moves != [] {
      var p := Exec(Step, Start(maxConcurrent), moves[..|moves| - 1]).value;
      WindowIsFixed(maxConcurrent, moves[..|moves| - 1], p);
      StepKeepsWindow(p, moves[|moves| - 1]);
    }
  }

  lemma Reachable(maxConcurrent: nat, moves: seq<Move>, s: State)
    requires Exec(Step, Start(maxConcurrent), moves) == Some(s)
    ensures Inv(s) && s.window == Window(maxConcurrent)
  {
    forall p, m | Inv(p) && Step(p, m).Some?
      ensures Inv(Step(p, m).value)
    {
      StepKeepsInv(p, m);
    }
    assert Inv(Start(maxConcurrent));
    Invariant(Step, Inv, Start(maxConcurrent), moves);
    WindowIsFixed(maxConcurrent, moves, s);
  }

  // ---------- claims about every run ----------

  /** On its first connection the stream conserves its credits: those at the gateway, the
      frames in transit, the jobs pushed and not dispatched and the running handlers make up
      the window at every step, so the limit holds and no push is dropped. */
  lemma CreditsAreConserved(maxConcurrent: nat, moves: seq<Move>, s: State)
    requires maxConcurrent > 0 && Exec(Step, Start(maxConcurrent), moves) == Some(s)
    requires s.link.connects <= 1
    ensures s.link.connected ==> Total(s) == Window(maxConcurrent)
    ensures s.running <= Outstanding(s) <= Window(maxConcurrent) <= maxConcurrent
    ensures s.lost == 0
  {
    Reachable(maxConcurrent, moves, s);
    assert Times(1, s.window) == s.window;
  }

  /** Each failover grants the window again, so in general the limit grows with the number of
      connections made. */
  lemma OutstandingPerConnection(maxConcurrent: nat, moves: seq<Move>, s: State)
    requires maxConcurrent > 0 && Exec(Step, Start(maxConcurrent), moves) == Some(s)
    ensures s.running <= Total(s) <= s.link.connects * Window(maxConcurrent)
  {
    Reachable(maxConcurrent, moves, s);
    TimesIsProduct(s.link.connects, s.window);
  }

  ghost predicate WithinWindow(s: State) {
    Total(s) <= s.window && (!s.link.connected ==> s.link.credits + s.link.down + s.link.up == 0)
  }

  /** In every reachable state within the window: each step but a failover keeps it, and a
      failover does exactly when the client has answered every job it was given. */
  lemma WindowKeptIff(maxConcurrent: nat, moves: seq<Move>, s: State, m: Move)
    requires Exec(Step, Start(maxConcurrent), moves) == Some(s)
    requires WithinWindow(s) && Step(s, m).Some?
    ensures WithinWindow(Step(s, m).value) <==> !(m.Reconnect? && Outstanding(s) > 0)
  {
    Reachable(maxConcurrent, moves, s);
    StepKeepsWindowIff(s, m);
  }

  lemma StepKeepsWindowIff(s: State, m: Move)
    requires LifeInv(s) && WithinWindow(s) && Step(s, m).Some?
    ensures WithinWindow(Step(s, m).value) <==> !(m.Reconnect? && Outstanding(s) > 0)
    ensures Step(s, m).value.lost == s.lost
  {
    if m.Answer? {
      OneCreditEach(m.job, m.outcome, m.encodes);
    } else if OfMain(m) {
      MainKeepsWindow(s, m);
    }
  }

  lemma MainKeepsWindow(s: State, m: Move)
    requires LifeInv(s) && WithinWindow(s) && MainStep(s, m).Some?
    ensures WithinWindow(MainStep(s, m).value)
  {
  }

  // ---------- failovers over whole runs ----------

  /** Every failover of the run finds all jobs answered. */
  ghost predicate CleanFailovers(start: State, moves: seq<Move>)
    decreases |moves|
  {
    moves == [] ||
    var before := moves[..|moves| - 1];
    && CleanFailovers(start, before)
    && (moves[|moves| - 1].Reconnect? && Exec(Step, start, before).Some? ==>
          Outstanding(Exec(Step, start, before).value) == 0)
  }

  lemma {:induction false} CleanRunKeepsWindow(start: State, moves: seq<Move>, s: State)
    requires Inv(start) && WithinWindow(start)
    requires Exec(Step, start, moves) == Some(s) && CleanFailovers(start, moves)
    ensures Inv(s) && WithinWindow(s) && s.lost == start.lost && s.window == start.window
    decreases |moves|
  {
    if moves != [] {
      var before, m := moves[..|moves| - 1], moves[|moves| - 1];
      var p := Exec(Step, start, before).value;
      CleanRunKeepsWindow(start, before, p);
      StepKeepsInv(p, m);
      StepKeepsWindowIff(p, m);
    }
  }

  /** Over any run whose failovers are clean, however many, the window holds, no push is lost
      and the limit is kept. */
  lemma CleanFailoversAreSafe(maxConcurrent: nat, moves: seq<Move>, s: State)
    requires Exec(Step, Start(maxConcurrent), moves) == Some(s) && CleanFailovers(Start(maxConcurrent), moves)
    ensures WithinWindow(s) && s.lost == 0
    ensures maxConcurrent > 0 ==> s.running <= Outstanding(s) <= Window(maxConcurrent) <= maxConcurrent
  {
    assert Inv(Start(maxConcurrent));
    CleanRunKeepsWindow(Start(maxConcurrent), moves, s);
  }

  predicate NoFailover(moves: seq<Move>) {
    forall m <- moves :: !m.Reconnect?
  }

  lemma {:induction false} NoFailoverIsClean(start: State, moves: seq<Move>)
    requires NoFailover(moves)
    ensures CleanFailovers(start, moves)
    decreases |moves|
  {
    if moves != [] {
      NoFailoverIsClean(start, moves[..|moves| - 1]);
    }
  }

  /** The gateway pushes all it may, and the client takes none of it off the buffer. */
  lemma {:induction false} PushAll(start: State, moves: seq<Move>, s: State) returns (moves': seq<Move>, s': State)
    requires Exec(Step, start, moves) == Some(s) && NoFailover(moves) && s.link.connected && s.buffer <= s.window
    ensures Exec(Step, start, moves') == Some(s') && NoFailover(moves')
    ensures s'.buffer <= s.window && s'.buffer + s'.lost == s.buffer + s.lost + s.link.credits + s.link.down
    decreases 2 * s.link.credits + s.link.down
  {
    moves', s' := moves, s;
    if s.link.down > 0 {
      moves', s' := Extend(Step, start, moves, Arrive);
      moves', s' := PushAll(start, moves', s');
    } else if s.link.credits > 0 {
      moves', s' := Extend(Step, start, moves, Push);
      moves', s' := PushAll(start, moves', s');
    }
  }

  const JOB: Jobs.Job := Jobs.Job("1", "", 0, "", map[])

  /** One job the client holds outside the buffer gives its credit back. */
  lemma GiveBack(s: State) returns (moves: seq<Move>, s': State)
    requires s.link.connected && s.link.up == 0 && s.buffer == 0 && Outstanding(s) > 0
    ensures Exec(Step, s, moves) == Some(s') && NoFailover(moves)
    ensures s'.link == s.link.(credits := s.link.credits + 1)
    ensures s'.buffer == 0 && s'.lost == s.lost && s'.window == s.window
  {
    if s.main.Took? {
      moves, s' := SkipOne(s);
    } else {
      moves, s' := AnswerOne(s);
    }
    moves, s' := Extend(Step, s, moves, Credit);
  }

  lemma SkipOne(s: State) returns (moves: seq<Move>, s': State)
    requires s.link.connected && s.main.Took?
    ensures Exec(Step, s, moves) == Some(s') && NoFailover(moves)
    ensures s'.link == s.link.(up := s.link.up + 1)
    ensures s'.buffer == s.buffer && s'.lost == s.lost && s'.window == s.window
  {
    moves, s' := Extend(Step, s, [], Decode(false));
  }

  lemma AnswerOne(s: State) returns (moves: seq<Move>, s': State)
    requires s.link.connected && (s.main.Counted? || s.running > 0)
    ensures Exec(Step, s, moves) == Some(s') && NoFailover(moves)
    ensures s'.link == s.link.(up := s.link.up + 1)
    ensures s'.buffer == s.buffer && s'.lost == s.lost && s'.window == s.window
  {
    OneCreditEach(JOB, Jobs.Done(map[]), true);
    moves, s' := [], s;
    if s.main.Counted? {
      moves, s' := Extend(Step, s, moves, Spawn);
      assert s'.running > 0 && s'.link == s.link;
    }
    moves, s' := Extend(Step, s, moves, Answer(JOB, Jobs.Done(map[]), true));
  }

  /** After a failover that finds jobs unanswered, a push can be lost without another one. */
  lemma UncleanFailoverLoses(s: State) returns (moves: seq<Move>, t: State)
    requires s.buffer <= s.window && Step(s, Reconnect).Some? && Outstanding(s) > 0
    ensures var p := Step(s, Reconnect).value;
            Exec(Step, p, moves) == Some(t) && NoFailover(moves) && t.lost > p.lost
  {
    var p := Step(s, Reconnect).value;
    var q := p;
    moves := [];
    if s.buffer == 0 {
      moves, q := GiveBack(p);
    }
    moves, t := PushAll(p, moves, q);
  }

  /** No push is lost after s unless another failover finds jobs unanswered. */
  ghost predicate LosesNothing(s: State) {
    forall later: seq<Move> :: Exec(Step, s, later).Some? && CleanFailovers(s, later) ==>
      Exec(Step, s, later).value.lost == s.lost
  }

  /** Exactly when a failover endangers a push, in any reachable state: when the client holds a
      job it has not answered. */
  lemma FailoverLosesNothingIff(maxConcurrent: nat, moves: seq<Move>, s: State)
    requires Exec(Step, Start(maxConcurrent), moves) == Some(s)
    requires Step(s, Reconnect).Some?
    ensures LosesNothing(Step(s, Reconnect).value) <==> Outstanding(s) == 0
  {
    Reachable(maxConcurrent, moves, s);
    var p := Step(s, Reconnect).value;
    StepKeepsInv(s, Reconnect);
    if Outstanding(s) == 0 {
      assert Total(p) == p.window && p.link.connected;
      forall later: seq<Move> | Exec(Step, p, later).Some? && CleanFailovers(p, later)
        ensures Exec(Step, p, later).value.lost == p.lost
      {
        CleanRunKeepsWindow(p, later, Exec(Step, p, later).value);
      }
    } else {
      var later, t := UncleanFailoverLoses(s);
      NoFailoverIsClean(p, later);
      assert Exec(Step, p, later).value.lost != p.lost;
    }
  }

  /** Run has not left its loop. */
  predicate Looping(s: State) {
    !s.canceled && (s.main.Loops? || s.main.Awaits? || s.main.Took? || s.main.Counted?)
  }

  /** Jobs that may yet be running without another credit. */
  function ToRun(s: State): nat {
    s.link.credits + s.link.down + s.buffer + Bit(s.main.Took? || s.main.Counted?)
  }

  function RunWork(s: State): nat {
    6 * s.link.credits + 5 * s.link.down + 4 * s.buffer +
    (if s.main.Took? then 3 else if s.main.Counted? then 2 else if s.main.Loops? then 1 else 0)
  }

  /** While there are any, some step brings one nearer to running and none is lost. */
  lemma OneNearer(s: State) returns (m: Move)
    requires Looping(s) && s.link.connected && ToRun(s) > 0 && s.window > 0
    ensures Step(s, m).Some? && !m.Reconnect?
    ensures var t := Step(s, m).value;
            && Looping(t) && t.link.connected && t.window == s.window
            && ToRun(t) + t.running == ToRun(s) + s.running && RunWork(t) < RunWork(s)
  {
    if s.main.Counted? {
      m := Spawn;
    } else if s.main.Took? {
      m := Decode(true);
    } else if s.main.Loops? {
      m := Turn;
    } else if s.buffer > 0 {
      m := Next;
    } else if s.link.down > 0 {
      m := Arrive;
    } else {
      m := Push;
    }
  }

  lemma {:induction false} EverythingRuns(start: State, moves: seq<Move>, s: State)
    returns (moves': seq<Move>, s': State)
    requires Exec(Step, start, moves) == Some(s) && NoFailover(moves)
    requires Looping(s) && s.link.connected && s.window > 0
    ensures Exec(Step, start, moves') == Some(s') && NoFailover(moves')
    ensures s'.running == s.running + ToRun(s)
    decreases RunWork(s)
  {
    moves', s' := moves, s;
    if ToRun(s) > 0 {
      var m := OneNearer(s);
      moves', s' := Extend(Step, start, moves, m);
      moves', s' := EverythingRuns(start, moves', s');
    }
  }

  /** After a failover, the handlers running can grow to the window and every job that was
      unanswered on top of it, without another failover. */
  lemma UncleanFailoverExceeds(s: State) returns (moves: seq<Move>, t: State)
    requires s.window > 0 && Looping(s) && Step(s, Reconnect).Some?
    ensures Exec(Step, Step(s, Reconnect).value, moves) == Some(t) && NoFailover(moves)
    ensures t.running == s.window + Outstanding(s)
  {
    var p := Step(s, Reconnect).value;
    moves, t := EverythingRuns(p, [], p);
  }

  /** Such failovers are reached under every limit: a job is running when the link goes. */
  lemma UncleanFailover(maxConcurrent: nat) returns (moves: seq<Move>, s: State)
    ensures Exec(Step, Start(maxConcurrent), moves) == Some(s)
    ensures WithinWindow(s) && Looping(s) && Outstanding(s) == s.running == 1 && Step(s, Reconnect).Some?
    ensures s.window == Window(maxConcurrent) && s.lost == 0 && s.buffer == 0
  {
    var start := Start(maxConcurrent);
    moves, s := Delivering(maxConcurrent);
    moves, s := Dispatching(start, moves, s);
    assert s.link == Link(true, Window(maxConcurrent) - 1, 0, 0, 1) && s.main.Loops?;
    moves, s := Extend(Step, start, moves, Disconnect);
  }

  lemma Delivering(maxConcurrent: nat) returns (moves: seq<Move>, s: State)
    ensures Exec(Step, Start(maxConcurrent), moves) == Some(s)
    ensures s == Start(maxConcurrent).(main := Loops, buffer := 1, link := Link(true, Window(maxConcurrent) - 1, 0, 0, 1))
  {
    moves, s := Subscribing(maxConcurrent);
    var p := PushArrives(s);
    moves, s := Extend(Step, Start(maxConcurrent), moves, Push);
    moves, s := Extend(Step, Start(maxConcurrent), moves, Arrive);
  }

  lemma PushArrives(s: State) returns (p: State)
    requires s.link.connected && s.link.credits > 0 && s.buffer < s.window
    ensures Step(s, Push) == Some(p) && p.link.connected && p.link.down > 0
    ensures Step(p, Arrive) == Some(s.(buffer := s.buffer + 1, link := s.link.(credits := s.link.credits - 1)))
  {
    p := Step(s, Push).value;
  }

  lemma Subscribing(maxConcurrent: nat) returns (moves: seq<Move>, s: State)
    ensures Exec(Step, Start(maxConcurrent), moves) == Some(s)
    ensures s == Start(maxConcurrent).(main := Loops, link := Link(true, Window(maxConcurrent), 0, 0, 1))
  {
    moves, s := Extend(Step, Start(maxConcurrent), [], Detected(true));
    moves, s := Extend(Step, Start(maxConcurrent), moves, Subscribed(true));
  }

  lemma Dispatching(start: State, moves: seq<Move>, s: State) returns (moves': seq<Move>, s': State)
    requires Exec(Step, start, moves) == Some(s) && s.main.Loops? && !s.canceled && s.buffer > 0
    ensures Exec(Step, start, moves') == Some(s')
    ensures s' == s.(buffer := s.buffer - 1, running := s.running + 1, wg := s.wg + 1, dispatched := s.dispatched + 1)
  {
    moves', s' := Extend(Step, start, moves, Turn);
    assert s' == s.(main := Awaits);
    moves', s' := Extend(Step, start, moves', Next);
    assert s' == s.(main := Took, buffer := s.buffer - 1);
    moves', s' := Extend(Step, start, moves', Decode(true));
    assert s' == s.(main := Counted, buffer := s.buffer - 1, wg := s.wg + 1);
    moves', s' := Extend(Step, start, moves', Spawn);
  }

  /** Under every limit some run has more handlers than the window, after one failover. */
  lemma FailoverExceedsTheLimit(maxConcurrent: nat) returns (moves: seq<Move>, s: State)
    requires maxConcurrent > 0
    ensures Exec(Step, Start(maxConcurrent), moves) == Some(s)
    ensures s.running == Window(maxConcurrent) + 1
    ensures maxConcurrent <= MAX_JOB_CREDITS ==> s.running > maxConcurrent
  {
    var a, p := UncleanFailover(maxConcurrent);
    var b;
    b, s := UncleanFailoverExceeds(p);
    var c, q := Extend(Step, Start(maxConcurrent), a, Reconnect);
    Concatenation(Step, Start(maxConcurrent), c, b);
    moves := c + b;
  }

  /** Under every limit some run takes the branch called unreachable in practice. */
  lemma FailoverLosesAJob(maxConcurrent: nat) returns (moves: seq<Move>, s: State)
    ensures Exec(Step, Start(maxConcurrent), moves) == Some(s) && s.lost > 0
  {
    var a, p := UncleanFailover(maxConcurrent);
    var b;
    b, s := UncleanFailoverLoses(p);
    var c, q := Extend(Step, Start(maxConcurrent), a, Reconnect);
    Concatenation(Step, Start(maxConcurrent), c, b);
    moves := c + b;
  }

  // ---------- the worker gets on ----------

  /** A connected worker's credits never leak away: with the frames in transit, the pushed jobs
      and the running handlers they are the window at least. */
  ghost predicate CreditFloor(s: State) {
    s.link.connected ==> Total(s) >= s.window
  }

  lemma StepKeepsFloor(s: State, m: Move)
    requires CreditFloor(s) && Step(s, m).Some?
    ensures CreditFloor(Step(s, m).value)
  {
    if m.Answer? {
      OneCreditEach(m.job, m.outcome, m.encodes);
    } else if OfMain(m) {
      MainKeepsFloor(s, m);
    }
  }

  lemma MainKeepsFloor(s: State, m: Move)
    requires CreditFloor(s) && MainStep(s, m).Some?
    ensures CreditFloor(MainStep(s, m).value)
  {
  }

  lemma CreditsNeverRunOut(maxConcurrent: nat, moves: seq<Move>, s: State)
    requires Exec(Step, Start(maxConcurrent), moves) == Some(s)
    ensures s.link.connected ==> Total(s) >= Window(maxConcurrent)
  {
    WindowIsFixed(maxConcurrent, moves, s);
    forall p, m | CreditFloor(p) && Step(p, m).Some?
      ensures CreditFloor(Step(p, m).value)
    {
      StepKeepsFloor(p, m);
    }
    assert CreditFloor(Start(maxConcurrent));
    Invariant(Step, CreditFloor, Start(maxConcurrent), moves);
  }

  /** While ctx is live Run neither returns nor stops taking jobs: it probes, subscribes, loops
      or polls over REST. */
  lemma LiveRunGoesOn(maxConcurrent: nat, moves: seq<Move>, s: State)
    requires Exec(Step, Start(maxConcurrent), moves) == Some(s) && !s.canceled
    ensures s.main.Probes? || s.main.Subscribes? || Looping(s) || s.main.RestPolls?
  {
    Reachable(maxConcurrent, moves, s);
  }

  lemma {:induction false} CreditsArrive(start: State, moves: seq<Move>, s: State)
    returns (moves': seq<Move>, s': State)
    requires Exec(Step, start, moves) == Some(s) && NoFailover(moves) && s.link.connected
    ensures Exec(Step, start, moves') == Some(s') && NoFailover(moves')
    ensures s' == s.(link := s.link.(up := 0, credits := s.link.credits + s.link.up))
    decreases s.link.up
  {
    moves', s' := moves, s;
    if s.link.up > 0 {
      moves', s' := Extend(Step, start, moves, Credit);
      moves', s' := CreditsArrive(start, moves', s');
    }
  }

  lemma ConnectedRuns(s: State) returns (moves: seq<Move>, t: State)
    requires Looping(s) && s.link.connected && s.window > 0 && Total(s) >= s.window
    ensures Exec(Step, s, moves) == Some(t) && t.running >= s.window
  {
    var more, p := CreditsArrive(s, [], s);
    moves, t := EverythingRuns(s, more, p);
  }

  /** The window is used, not only kept: from every reachable live state in which Run loops,
      connected or not, a run goes on to a full window of handlers. */
  lemma WindowIsReached(maxConcurrent: nat, moves: seq<Move>, s: State) returns (more: seq<Move>, t: State)
    requires Exec(Step, Start(maxConcurrent), moves) == Some(s) && Looping(s)
    ensures Exec(Step, s, more) == Some(t) && t.running >= Window(maxConcurrent)
  {
    Reachable(maxConcurrent, moves, s);
    CreditsNeverRunOut(maxConcurrent, moves, s);
    if s.link.connected {
      more, t := ConnectedRuns(s);
    } else {
      var again, p := Extend(Step, s, [], Reconnect);
      more, t := ConnectedRuns(p);
      Concatenation(Step, s, again, more);
      more := again + more;
    }
  }

  // ---------- it can return ----------

  function MainRank(pc: MainPc): nat {
    match pc
    case Probes => 5
    case Subscribes => 4
    case Counted => 6
    case Took => 5
    case Awaits => 4
    case Loops => 3
    case Waits => 2
    case Closes => 1
    case RestPolls => 0
    case Returned => 0
  }

  function Rank(s: State): nat {
    MainRank(s.main) + 2 * s.running + s.finishing
  }

  lemma OneFinishes(s: State) returns (m: Move)
    requires LifeInv(s) && s.canceled && !s.main.RestPolls? && !s.main.Returned?
    ensures Step(s, m).Some? && Rank(Step(s, m).value) < Rank(s) && !Step(s, m).value.main.RestPolls?
  {
    if s.main.Probes? {
      m := Detected(true);
    } else if s.main.Subscribes? {
      m := Subscribed(false);
    } else if s.main.Counted? {
      m := Spawn;
    } else if s.main.Took? {
      m := Decode(false);
    } else if s.main.Waits? && s.finishing > 0 {
      m := Finish;
    } else if s.main.Waits? && s.running > 0 {
      m := Answer(JOB, Jobs.Done(map[]), true);
    } else {
      m := Turn;
    }
  }

  lemma {:induction false} Finishes(s: State) returns (more: seq<Move>, t: State)
    requires Inv(s) && s.canceled && !s.main.RestPolls?
    ensures Exec(Step, s, more) == Some(t) && t.main.Returned?
    decreases Rank(s)
  {
    more, t := [], s;
    if !s.main.Returned? {
      var m := OneFinishes(s);
      StepKeepsInv(s, m);
      var first, p := Extend(Step, s, [], m);
      var rest;
      rest, t := Finishes(p);
      Concatenation(Step, s, first, rest);
      more := first + rest;
    }
  }

  /** From every reachable state that has not fallen back Run can still return. */
  lemma CanReturn(maxConcurrent: nat, moves: seq<Move>, s: State) returns (more: seq<Move>, t: State)
    requires Exec(Step, Start(maxConcurrent), moves) == Some(s) && !s.main.RestPolls?
    ensures Exec(Step, s, more) == Some(t) && t.main.Returned?
  {
    Reachable(maxConcurrent, moves, s);
    StepKeepsInv(s, Cancel);
    var first, p := Extend(Step, s, [], Cancel);
    more, t := Finishes(p);
    Concatenation(Step, s, first, more);
    more := first + more;
  }

  /** Run falls back to REST polling only before any job was dispatched over the stream, and
      closes the stream only when no handler is left. */
  lemma FallbackStartsClean(maxConcurrent: nat, moves: seq<Move>, s: State)
    requires Exec(Step, Start(maxConcurrent), moves) == Some(s)
    ensures s.main.RestPolls? ==> s.dispatched == 0 && s.running == 0 && s.wg == 0 && !s.link.connected
    ensures s.main.Closes? || s.main.Returned? ==> s.running == 0 && s.finishing == 0
  {
    Reachable(maxConcurrent, moves, s);
  }
}
