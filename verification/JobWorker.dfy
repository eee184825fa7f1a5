/** worker.go: JobWorker.Run as a whole: the command stream, and the REST loop it falls back
    to when there is no stream. */
module JobWorkers {
  import opened Counting
  import opened Options
  import opened Runs
  import RestPoll
  import Stream = FalconWorker

  /** rest is the REST loop once Run has entered it. */
  datatype State = State(cfg: RestPoll.Config, stream: Stream.State, rest: Option<RestPoll.State>)

  function Start(c: RestPoll.Config): State {
    State(c, Stream.Start(c.maxConcurrent), None)
  }

  datatype Move = OnStream(m: Stream.Move) | FallBack | OnRest(r: RestPoll.Move)

  function Step(s: State, m: Move): Option<State> {
    match m
    case OnStream(f) => if s.rest.Some? then None else WithStream(s, Stream.Step(s.stream, f))
    case FallBack =>
      if s.rest.Some? || !s.stream.main.RestPolls? then None
      else Some(s.(rest := Some(RestPoll.Start(s.cfg).(canceled := s.stream.canceled))))
    case OnRest(r) => if s.rest.None? then None else WithRest(s, RestPoll.Step(s.rest.value, r))
  }

  function WithStream(s: State, p: Option<Stream.State>): Option<State> {
    if p.Some? then Some(s.(stream := p.value)) else None
  }

  function WithRest(s: State, p: Option<RestPoll.State>): Option<State> {
    if p.Some? then Some(s.(rest := p)) else None
  }

  /** The moves a run makes on the stream. */
  function StreamMoves(moves: seq<Move>): seq<Stream.Move> {
    if moves == [] then []
    else
      var before := StreamMoves(moves[..|moves| - 1]);
      if moves[|moves| - 1].OnStream? then before + [moves[|moves| - 1].m] else before
  }

  /** The stream's part of a run is a run of the stream, over once Run has fallen back. */
  lemma {:induction false} StreamPart(c: RestPoll.Config, moves: seq<Move>, s: State)
    requires Exec(Step, Start(c), moves) == Some(s)
    ensures Exec(Stream.Step, Stream.Start(c.maxConcurrent), StreamMoves(moves)) == Some(s.stream)
    ensures s.cfg == c && (s.rest.Some? ==> s.stream.main.RestPolls?)
    decreases |moves|
  {
    if moves != [] {
      var before, m := moves[..|moves| - 1], moves[|moves| - 1];
      var p := Exec(Step, Start(c), before).value;
      StreamPart(c, before, p);
      if m.OnStream? {
        var longer, q := Extend(Stream.Step, Stream.Start(c.maxConcurrent), StreamMoves(before), m.m);
      }
    }
  }

  /** And the REST part is a run of the REST loop. */
  lemma {:induction false} RestPart(c: RestPoll.Config, moves: seq<Move>, s: State) returns (part: seq<RestPoll.Move>)
    requires Exec(Step, Start(c), moves) == Some(s)
    ensures s.cfg == c
    ensures s.rest.Some? ==> Exec(RestPoll.Step, RestPoll.Start(c), part) == s.rest
    decreases |moves|
  {
    part := [];
    if moves != [] {
      var before, m := moves[..|moves| - 1], moves[|moves| - 1];
      var p := Exec(Step, Start(c), before).value;
      part := RestPart(c, before, p);
      if m.OnRest? {
        var q;
        part, q := Extend(RestPoll.Step, RestPoll.Start(c), part, m.r);
      } else if m.FallBack? {
        part := [];
        if p.stream.canceled {
          var q;
          part, q := Extend(RestPoll.Step, RestPoll.Start(c), [], RestPoll.Cancel);
        }
      }
    }
  }

  function Handlers(s: State): nat {
    s.stream.running + (if s.rest.Some? then RestPoll.Live(s.rest.value.pool) else 0)
  }

  /** Over the whole of Run, on the stream or after falling back, at most maxConcurrent
      handlers run, with a bounded gateway and no failover that finds jobs unanswered. */
  lemma BoundOverRun(c: RestPoll.Config, moves: seq<Move>, s: State)
    requires RestPoll.ValidConfig(c) && c.bounded && Exec(Step, Start(c), moves) == Some(s)
    requires Stream.CleanFailovers(Stream.Start(c.maxConcurrent), StreamMoves(moves))
    ensures Handlers(s) <= c.maxConcurrent
    ensures s.rest.Some? ==> s.stream.running == 0 && s.stream.dispatched == 0
  {
    StreamPart(c, moves, s);
    Stream.CleanFailoversAreSafe(c.maxConcurrent, StreamMoves(moves), s.stream);
    Stream.FallbackStartsClean(c.maxConcurrent, StreamMoves(moves), s.stream);
    if s.rest.Some? {
      var part := RestPart(c, moves, s);
      RestPoll.ConcurrencyBound(c, part, s.rest.value);
    }
  }

  /** Once Run has fallen back the bound needs nothing of the stream. */
  lemma BoundAfterFallback(c: RestPoll.Config, moves: seq<Move>, s: State)
    requires RestPoll.ValidConfig(c) && c.bounded && Exec(Step, Start(c), moves) == Some(s) && s.rest.Some?
    ensures Handlers(s) <= c.maxConcurrent
  {
    StreamPart(c, moves, s);
    Stream.FallbackStartsClean(c.maxConcurrent, StreamMoves(moves), s.stream);
    var part := RestPart(c, moves, s);
    RestPoll.ConcurrencyBound(c, part, s.rest.value);
  }

  // ---------- which way Run goes ----------

  /** With no stream detected Run goes on to poll over REST, whatever became of ctx; with one
      it subscribes. */
  lemma DetectionDecides(c: RestPoll.Config, moves: seq<Move>, s: State, nano: bool)
    requires Exec(Step, Start(c), moves) == Some(s) && s.stream.main.Probes?
    ensures Step(s, OnStream(Stream.Detected(nano))).Some?
    ensures var t := Step(s, OnStream(Stream.Detected(nano))).value;
            (Step(t, FallBack).Some? <==> !nano) && (t.stream.main.Subscribes? <==> nano)
  {
    StreamPart(c, moves, s);
  }

  /** A subscription that fails leaves Run to poll exactly when ctx is live; otherwise Run has
      returned. One that succeeds has Run looping on a link with the whole window. */
  lemma SubscriptionDecides(c: RestPoll.Config, moves: seq<Move>, s: State, ok: bool)
    requires Exec(Step, Start(c), moves) == Some(s) && s.stream.main.Subscribes?
    ensures Step(s, OnStream(Stream.Subscribed(ok))).Some?
    ensures var t := Step(s, OnStream(Stream.Subscribed(ok))).value;
            && (Step(t, FallBack).Some? <==> !ok && !s.stream.canceled)
            && (t.stream.main.Returned? <==> !ok && s.stream.canceled)
            && (ok ==> t.stream.main.Loops? && t.stream.link.connected
                       && t.stream.link.credits == Stream.Window(c.maxConcurrent))
  {
    StreamPart(c, moves, s);
    Stream.WindowIsFixed(c.maxConcurrent, StreamMoves(moves), s.stream);
  }

  /** What the REST loop does, Run does. */
  lemma {:induction false} RestIsRun(s: State, moves: seq<RestPoll.Move>, t: RestPoll.State)
    requires s.rest.Some? && Exec(RestPoll.Step, s.rest.value, moves) == Some(t)
    ensures Exec(Step, s, Map((r: RestPoll.Move) => OnRest(r), moves)) == Some(s.(rest := Some(t)))
    decreases |moves|
  {
    var run := (r: RestPoll.Move) => OnRest(r);
    if moves != [] {
      var before, last := moves[..|moves| - 1], moves[|moves| - 1];
      var p := Exec(RestPoll.Step, s.rest.value, before).value;
      RestIsRun(s, before, p);
      assert Map(run, moves)[..|moves| - 1] == Map(run, before);
    }
  }

  /** From every reachable live state that has fallen back and is still in the REST loop, a run
      goes on to exactly maxConcurrent handlers, on any jobs. */
  lemma FallbackReachesTheLimit(c: RestPoll.Config, moves: seq<Move>, s: State, jobs: seq<nat>)
    returns (more: seq<Move>, t: State)
    requires RestPoll.ValidConfig(c) && Exec(Step, Start(c), moves) == Some(s) && |jobs| == c.maxConcurrent
    requires s.rest.Some? && !s.rest.value.canceled && !RestPoll.HasLeft(s.rest.value)
    ensures Exec(Step, s, more) == Some(t) && Handlers(t) == c.maxConcurrent
    ensures t.rest.Some? && t.rest.value.pool.running == multiset(jobs)
  {
    var part := RestPart(c, moves, s);
    var rest, r := RestPoll.LimitIsReached(c, part, s.rest.value, jobs);
    RestIsRun(s, rest, r);
    more, t := Map((r: RestPoll.Move) => OnRest(r), rest), s.(rest := Some(r));
    StreamPart(c, moves, s);
    Stream.FallbackStartsClean(c.maxConcurrent, StreamMoves(moves), s.stream);
  }

  /** In particular a worker on a gateway without a stream comes to handle jobs, under every
      configuration. */
  lemma NoStreamStillWorks(c: RestPoll.Config, jobs: seq<nat>) returns (moves: seq<Move>, t: State)
    requires RestPoll.ValidConfig(c) && |jobs| == c.maxConcurrent
    ensures Exec(Step, Start(c), moves) == Some(t) && t.stream.dispatched == 0
    ensures t.rest.Some? && t.rest.value.pool.running == multiset(jobs) && Handlers(t) == c.maxConcurrent
  {
    var s;
    moves, s := Extend(Step, Start(c), [], OnStream(Stream.Detected(false)));
    moves, s := Extend(Step, Start(c), moves, FallBack);
    var more;
    more, t := FallbackReachesTheLimit(c, moves, s, jobs);
    Concatenation(Step, Start(c), moves, more);
    moves := moves + more;
    StreamPart(c, moves, t);
    Stream.FallbackStartsClean(c.maxConcurrent, StreamMoves(moves), t.stream);
  }
}
