/** Any number of workers against one engine that times jobs out and hands them out again,
    over an HTTP layer that sends a request again when no answer came back: which
    acknowledgements take effect. Workers are the ones of streamworker.go and worker.go
    on their gRPC and REST channels. */
module LeaseFencing {
  import opened Decimals
  import opened Jobs
  import opened Options
  import opened Runs

  /** One activation the engine made: the job as sent, the channel it went out on and
      whether the worker asked for a lease. */
  datatype Issued = Issued(job: Activated, channel: Channel, leased: bool)

  /** The engine's record of a job: its latest activation, whether that one still locks the
      job, and whether the job is finished. */
  datatype Record = Record(latest: nat, locked: bool, finished: bool)

  /** Where an activation is on the worker's side. A command sent may be attempted left times
      more. */
  datatype Stage = Arrived | Turned | Running | Sent(command: Command<int>, left: nat) | Answered

  /** A command that took effect, and the activation that was the latest then. */
  datatype Effect = Effect(sender: nat, latest: nat, command: Command<int>)

  /** Activations are numbered in the order the engine makes them. attempts is how often the
      HTTP layer sends one request at most (Retrying.Limit). */
  datatype State = State(
    attempts: nat,
    issued: seq<Issued>,
    stages: seq<Stage>,
    records: map<int, Record>,
    effects: seq<Effect>)

  function Start(attempts: nat): State {
    State(attempts, [], [], map[], [])
  }

  /** A gRPC command is sent once, a REST one as often as the HTTP layer cares to. */
  function Budget(i: Issued, attempts: nat): nat {
    if i.channel.Grpc? then 1 else attempts
  }

  datatype Move =
    | Activate(i: Issued)             // the engine hands a job out
    | Expire(key: int)                // the lock on a job runs out
    | Check(a: nat)                   // the worker's lease gate
    | Finish(a: nat, outcome: Outcome, encodes: bool)  // the handler returns and the worker answers
    | Arrive(a: nat)                  // one attempt of the command reaches the engine, late or not
    | Lose(a: nat)                    // or does not
    | Settle(a: nat)                  // the worker has its answer, or has given up

  /** The engine assigns each leased activation a token of its own. */
  predicate TokenIsNew(s: State, token: string) {
    forall a :: 0 <= a < |s.issued| ==> s.issued[a].job.leaseToken != token
  }

  predicate MayActivate(s: State, i: Issued) {
    && IsInt64(i.job.key)
    && (i.job.key in s.records ==> !s.records[i.job.key].locked && !s.records[i.job.key].finished)
    && (i.job.leaseToken != "" ==> i.leased && TokenIsNew(s, i.job.leaseToken))
  }

  predicate IsTokenOf(s: State, a: nat, token: string) {
    a < |s.issued| && s.issued[a].job.leaseToken == token
  }

  /** The engine carries a command out unless its token is not that of the latest
      activation. A command without a token is not fenced. */
  predicate Accepts(s: State, c: Command<int>) {
    && c.key in s.records && !s.records[c.key].finished
    && (c.token.None? || IsTokenOf(s, s.records[c.key].latest, c.token.value))
  }

  /** The command the worker's answer becomes: none when the key does not survive the trip,
      or when it goes over REST with variables that cannot be encoded. gRPC leaves those out. */
  function CommandOf(i: Issued, o: Outcome, encodes: bool): Option<Command<int>> {
    var job := Received(i.channel, i.job);
    match AddressedKey(job)
    case None => None
    case Some(k) =>
      if Encodable(o, encodes) then Some(Answer(k, job, o))
      else if i.channel.Grpc? then Some(Answer(k, job, WithoutVariables(o)))
      else None
  }

  function Step(s: State, m: Move): Option<State> {
    match m
    case Activate(i) =>
      if !MayActivate(s, i) then None
      else Some(s.(issued := s.issued + [i], stages := s.stages + [Arrived],
                   records := s.records[i.job.key := Record(|s.issued|, true, false)]))
    case Expire(key) =>
      if key !in s.records then None
      else Some(s.(records := s.records[key := s.records[key].(locked := false)]))
    case Check(a) =>
      if !(a < |s.issued| && a < |s.stages| && s.stages[a] == Arrived) then None
      else
        var i := s.issued[a];
        var e := RequireLeasePresence(i.leased, i.job.leaseToken);
        Some(s.(stages := s.stages[a := if e == None then Running else Turned]))
    case Finish(a, o, encodes) =>
      if !(a < |s.issued| && a < |s.stages| && s.stages[a] == Running) then None
      else
        var c := CommandOf(s.issued[a], o, encodes);
        var st := if c == None then Answered else Sent(c.value, Budget(s.issued[a], s.attempts));
        Some(s.(stages := s.stages[a := st]))
    case Arrive(a) =>
      if !MayAttempt(s, a) then None
      else if Accepts(s, s.stages[a].command) then Some(Accepted(s, a))
      else Some(Attempted(s, a))
    case Lose(a) => if MayAttempt(s, a) then Some(Attempted(s, a)) else None
    case Settle(a) =>
      if a < |s.stages| && s.stages[a].Sent? then Some(s.(stages := s.stages[a := Answered])) else None
  }

  predicate MayAttempt(s: State, a: nat) {
    a < |s.stages| && s.stages[a].Sent? && s.stages[a].left > 0
  }

  function Attempted(s: State, a: nat): State
    requires MayAttempt(s, a)
  {
    s.(stages := s.stages[a := s.stages[a].(left := s.stages[a].left - 1)])
  }

  /** The command of a takes effect. The worker need not hear of it, and may send it again. */
  function Accepted(s: State, a: nat): State
    requires MayAttempt(s, a) && Accepts(s, s.stages[a].command)
  {
    var c := s.stages[a].command;
    var r := s.records[c.key];
    Attempted(s, a).(effects := s.effects + [Effect(a, r.latest, c)],
                     records := s.records[c.key := r.(locked := false, finished := r.finished || !c.verb.Fail?)])
  }

  // ---------- the invariant ----------

  ghost predicate TokensDistinct(s: State) {
    forall a, b :: 0 <= a < b < |s.issued| && s.issued[b].job.leaseToken != "" ==>
      s.issued[a].job.leaseToken != s.issued[b].job.leaseToken
  }

  /** A running activation passed the gate; a sent command is the activation's own answer. */
  ghost predicate StageInv(i: Issued, st: Stage) {
    && IsInt64(i.job.key)
    && (st.Running? || st.Sent? ==> RequireLeasePresence(i.leased, i.job.leaseToken) == None)
    && (st.Sent? ==> exists o :: Some(st.command) == CommandOf(i, o, true))
  }

  ghost predicate EffectInv(s: State, e: Effect) {
    && e.sender < |s.issued| && e.latest < |s.issued|
    && s.issued[e.sender].job.key == s.issued[e.latest].job.key == e.command.key
    && (s.issued[e.sender].leased ==> e.sender == e.latest && e.command.token == Some(s.issued[e.sender].job.leaseToken))
    && (e.command.token.Some? ==> e.sender == e.latest)
  }

  ghost predicate RecordsInv(s: State) {
    && (forall k :: k in s.records ==>
          s.records[k].latest < |s.issued| && s.issued[s.records[k].latest].job.key == k)
    && (forall a :: 0 <= a < |s.issued| ==> s.issued[a].job.key in s.records)
  }

  /** The effects of one activation are the one command it sent. */
  ghost predicate SenderInv(s: State, e: Effect) {
    && e.sender < |s.stages|
    && (s.stages[e.sender].Answered? || (s.stages[e.sender].Sent? && s.stages[e.sender].command == e.command))
  }

  /** What completes or throws finishes the job. */
  ghost predicate FinishInv(records: map<int, Record>, e: Effect) {
    && e.command.key in records
    && (!e.command.verb.Fail? ==> records[e.command.key].finished)
  }

  /** Of two effects by the same activation the command is the same, and of two on the same job
      the first is a failure. */
  ghost predicate PairInv(e: Effect, f: Effect) {
    && (e.sender == f.sender ==> e.command == f.command)
    && (e.command.key == f.command.key ==> e.command.verb.Fail?)
  }

  /** How many effects are this activation's. */
  function EffectsOf(effects: seq<Effect>, a: nat): nat {
    if effects == [] then 0
    else EffectsOf(effects[..|effects| - 1], a) + (if effects[|effects| - 1].sender == a then 1 else 0)
  }

  function Left(i: Issued, st: Stage, attempts: nat): nat {
    match st
    case Sent(_, left) => left
    case Answered => 0
    case _ => Budget(i, attempts)
  }

  /** Each attempt has at most one effect. */
  ghost predicate AttemptInv(s: State, a: nat)
    requires a < |s.issued| == |s.stages|
  {
    EffectsOf(s.effects, a) + Left(s.issued[a], s.stages[a], s.attempts) <= Budget(s.issued[a], s.attempts)
  }

  ghost predicate ActivationsInv(s: State) {
    && |s.stages| == |s.issued|
    && TokensDistinct(s)
    && RecordsInv(s)
    && (forall a :: 0 <= a < |s.issued| ==> StageInv(s.issued[a], s.stages[a]))
    && (forall a :: 0 <= a < |s.issued| ==> AttemptInv(s, a))
  }

  ghost predicate EffectsInv(s: State) {
    && (forall j :: 0 <= j < |s.effects| ==> EffectInv(s, s.effects[j]))
    && (forall j :: 0 <= j < |s.effects| ==> SenderInv(s, s.effects[j]))
    && (forall j :: 0 <= j < |s.effects| ==> FinishInv(s.records, s.effects[j]))
    && (forall j, k :: 0 <= j < k < |s.effects| ==> PairInv(s.effects[j], s.effects[k]))
  }

  ghost predicate Inv(s: State) {
    ActivationsInv(s) && EffectsInv(s)
  }

  /** A command bearing a token was sent by the activation the token belongs to. */
  lemma AcceptedIsCurrent(s: State, a: nat)
    requires ActivationsInv(s) && a < |s.stages| && s.stages[a].Sent? && Accepts(s, s.stages[a].command)
    ensures var c := s.stages[a].command; EffectInv(s, Effect(a, s.records[c.key].latest, c))
  {
    var i, c := s.issued[a], s.stages[a].command;
    assert StageInv(i, s.stages[a]);
    var o :| Some(c) == CommandOf(i, o, true);
    AnswersItsOwnActivation(i.channel, i.job, o);
    var latest := s.records[c.key].latest;
    assert c.token.Some? ==> i.job.leaseToken == s.issued[latest].job.leaseToken != "";
  }

  // ---------- a new activation ----------

  lemma {:induction false} NoEffectsYet(effects: seq<Effect>, a: nat)
    requires forall j :: 0 <= j < |effects| ==> effects[j].sender != a
    ensures EffectsOf(effects, a) == 0
  {
    if effects != [] {
      NoEffectsYet(effects[..|effects| - 1], a);
    }
  }

  lemma ActivateKeepsActivations(s: State, i: Issued)
    requires Inv(s) && MayActivate(s, i)
    ensures ActivationsInv(Step(s, Activate(i)).value)
  {
    var s' := Step(s, Activate(i)).value;
    forall a | 0 <= a < |s'.issued|
      ensures StageInv(s'.issued[a], s'.stages[a]) && AttemptInv(s', a)
    {
      if a < |s.issued| {
        assert StageInv(s.issued[a], s.stages[a]) && AttemptInv(s, a);
      } else {
        assert forall j :: 0 <= j < |s.effects| ==> SenderInv(s, s.effects[j]);
        NoEffectsYet(s.effects, a);
      }
    }
  }

  lemma ActivateKeepsEffects(s: State, i: Issued)
    requires Inv(s) && MayActivate(s, i)
    ensures EffectsInv(Step(s, Activate(i)).value)
  {
    var s' := Step(s, Activate(i)).value;
    forall j | 0 <= j < |s'.effects|
      ensures EffectInv(s', s'.effects[j]) && SenderInv(s', s'.effects[j]) && FinishInv(s'.records, s'.effects[j])
    {
      assert EffectInv(s, s.effects[j]) && SenderInv(s, s.effects[j]) && FinishInv(s.records, s.effects[j]);
    }
  }

  // ---------- a step of one activation ----------

  /** Its stage moves on, with no attempt won back and no command changed. */
  ghost predicate StageMoves(i: Issued, old': Stage, new': Stage, attempts: nat) {
    && StageInv(i, new') && Left(i, new', attempts) <= Left(i, old', attempts)
    && !old'.Answered? && (old'.Sent? ==> new'.Answered? || (new'.Sent? && new'.command == old'.command))
  }

  lemma StageKeepsInv(s: State, a: nat, st: Stage)
    requires Inv(s) && a < |s.stages| && StageMoves(s.issued[a], s.stages[a], st, s.attempts)
    ensures Inv(s.(stages := s.stages[a := st]))
  {
    var s' := s.(stages := s.stages[a := st]);
    forall b | 0 <= b < |s'.issued|
      ensures StageInv(s'.issued[b], s'.stages[b]) && AttemptInv(s', b)
    {
      assert StageInv(s.issued[b], s.stages[b]) && AttemptInv(s, b);
    }
    forall j | 0 <= j < |s'.effects|
      ensures EffectInv(s', s'.effects[j]) && SenderInv(s', s'.effects[j])
    {
      assert EffectInv(s, s.effects[j]) && SenderInv(s, s.effects[j]);
    }
  }

  /** A change of the engine's records that keeps each job's latest activation and finishes
      none less. */
  lemma RecordKeepsInv(s: State, key: int, r: Record)
    requires Inv(s) && key in s.records && r.latest == s.records[key].latest
    requires s.records[key].finished ==> r.finished
    ensures Inv(s.(records := s.records[key := r]))
  {
    var s' := s.(records := s.records[key := r]);
    forall b | 0 <= b < |s'.issued|
      ensures StageInv(s'.issued[b], s'.stages[b]) && AttemptInv(s', b)
    {
      assert StageInv(s.issued[b], s.stages[b]) && AttemptInv(s, b);
    }
    forall j | 0 <= j < |s'.effects|
      ensures EffectInv(s', s'.effects[j]) && SenderInv(s', s'.effects[j]) && FinishInv(s'.records, s'.effects[j])
    {
      assert EffectInv(s, s.effects[j]) && SenderInv(s, s.effects[j]) && FinishInv(s.records, s.effects[j]);
    }
  }

  // ---------- a command that takes effect ----------

  lemma AcceptedKeepsActivations(s: State, a: nat)
    requires Inv(s) && MayAttempt(s, a) && Accepts(s, s.stages[a].command)
    ensures ActivationsInv(Accepted(s, a))
  {
    var s' := Accepted(s, a);
    assert s'.effects[..|s.effects|] == s.effects;
    forall b | 0 <= b < |s'.issued|
      ensures StageInv(s'.issued[b], s'.stages[b]) && AttemptInv(s', b)
    {
      assert StageInv(s.issued[b], s.stages[b]) && AttemptInv(s, b);
    }
  }

  lemma AcceptedPairs(s: State, a: nat, e: Effect)
    requires Inv(s) && MayAttempt(s, a) && Accepts(s, s.stages[a].command)
    requires e.sender == a && e.command == s.stages[a].command
    ensures forall j :: 0 <= j < |s.effects| ==> PairInv(s.effects[j], e)
  {
    forall j | 0 <= j < |s.effects|
      ensures PairInv(s.effects[j], e)
    {
      assert SenderInv(s, s.effects[j]) && FinishInv(s.records, s.effects[j]);
    }
  }

  lemma AcceptedKeepsEffects(s: State, a: nat)
    requires Inv(s) && MayAttempt(s, a) && Accepts(s, s.stages[a].command)
    ensures EffectsInv(Accepted(s, a))
  {
    var s', c := Accepted(s, a), s.stages[a].command;
    var e := Effect(a, s.records[c.key].latest, c);
    AcceptedIsCurrent(s, a);
    AcceptedPairs(s, a, e);
    forall j | 0 <= j < |s'.effects|
      ensures EffectInv(s', s'.effects[j]) && SenderInv(s', s'.effects[j]) && FinishInv(s'.records, s'.effects[j])
    {
      if j < |s.effects| {
        assert EffectInv(s, s.effects[j]) && SenderInv(s, s.effects[j]) && FinishInv(s.records, s.effects[j]);
      }
    }
    forall j, k | 0 <= j < k < |s'.effects|
      ensures PairInv(s'.effects[j], s'.effects[k])
    {
      assert k < |s.effects| || s'.effects[k] == e;
    }
  }

  lemma FinishMovesStage(s: State, a: nat, o: Outcome, encodes: bool)
    requires Inv(s) && Step(s, Finish(a, o, encodes)).Some?
    ensures StageMoves(s.issued[a], s.stages[a], Step(s, Finish(a, o, encodes)).value.stages[a], s.attempts)
  {
    assert StageInv(s.issued[a], s.stages[a]);
    var o' := if Encodable(o, encodes) then o else WithoutVariables(o);
    assert CommandOf(s.issued[a], o, encodes).Some? ==>
        CommandOf(s.issued[a], o, encodes) == CommandOf(s.issued[a], o', true);
  }

  lemma StepKeepsInv(s: State, m: Move)
    requires Inv(s) && Step(s, m).Some?
    ensures Inv(Step(s, m).value) && Step(s, m).value.attempts == s.attempts
  {
    match m
    case Activate(i) => ActivateKeepsActivations(s, i); ActivateKeepsEffects(s, i);
    case Expire(key) => RecordKeepsInv(s, key, s.records[key].(locked := false));
    case Check(a) => assert StageInv(s.issued[a], s.stages[a]); StageKeepsInv(s, a, Step(s, m).value.stages[a]);
    case Finish(a, o, encodes) =>
      FinishMovesStage(s, a, o, encodes);
      StageKeepsInv(s, a, Step(s, m).value.stages[a]);
    case Arrive(a) =>
      if Accepts(s, s.stages[a].command) {
        AcceptedKeepsActivations(s, a);
        AcceptedKeepsEffects(s, a);
      } else {
        AttemptKeepsInv(s, a);
      }
    case Lose(a) => AttemptKeepsInv(s, a);
    case Settle(a) => assert StageInv(s.issued[a], s.stages[a]); StageKeepsInv(s, a, Answered);
  }

  lemma AttemptKeepsInv(s: State, a: nat)
    requires Inv(s) && MayAttempt(s, a)
    ensures Inv(Attempted(s, a))
  {
    assert StageInv(s.issued[a], s.stages[a]);
    StageKeepsInv(s, a, s.stages[a].(left := s.stages[a].left - 1));
  }

  ghost predicate InvWith(s: State, attempts: nat) {
    Inv(s) && s.attempts == attempts
  }

  lemma Reachable(attempts: nat, moves: seq<Move>, s: State)
    requires Exec(Step, Start(attempts), moves) == Some(s)
    ensures Inv(s) && s.attempts == attempts
  {
    var inv := (p: State) => InvWith(p, attempts);
    forall p, m | inv(p) && Step(p, m).Some?
      ensures inv(Step(p, m).value)
    {
      StepKeepsInv(p, m);
    }
    assert inv(Start(attempts));
    Invariant(Step, inv, Start(attempts), moves);
  }

  // ---------- claims about every run ----------

  /** A worker that asked for a lease hands no job without a token to its handler, and
      answers each with that job's own key and token. */
  lemma LeasedJobsCarryTheirToken(attempts: nat, moves: seq<Move>, s: State)
    requires Exec(Step, Start(attempts), moves) == Some(s)
    ensures |s.stages| == |s.issued|
    ensures forall a :: 0 <= a < |s.issued| && s.issued[a].leased && s.stages[a].Running? ==>
              s.issued[a].job.leaseToken != ""
    ensures forall a :: 0 <= a < |s.issued| && s.issued[a].leased && s.stages[a].Sent? ==>
              && s.stages[a].command.token == Some(s.issued[a].job.leaseToken)
              && s.stages[a].command.key == s.issued[a].job.key
  {
    Reachable(attempts, moves, s);
    forall a | 0 <= a < |s.issued| && s.stages[a].Sent?
      ensures s.issued[a].leased ==> s.stages[a].command.token == Some(s.issued[a].job.leaseToken)
      ensures s.stages[a].command.key == s.issued[a].job.key
    {
      var i := s.issued[a];
      assert StageInv(i, s.stages[a]);
      var o :| Some(s.stages[a].command) == CommandOf(i, o, true);
      AnswersItsOwnActivation(i.channel, i.job, o);
    }
    forall a | 0 <= a < |s.issued| && s.issued[a].leased && s.stages[a].Running?
      ensures s.issued[a].job.leaseToken != ""
    {
      assert StageInv(s.issued[a], s.stages[a]);
    }
  }

  /** However often commands are sent again, none of a superseded leased activation ever takes
      effect. */
  lemma SupersededLeasesAreFenced(attempts: nat, moves: seq<Move>, s: State, j: nat)
    requires Exec(Step, Start(attempts), moves) == Some(s) && j < |s.effects|
    ensures var e := s.effects[j];
            && e.sender < |s.issued|
            && e.command.key == s.issued[e.sender].job.key
            && (s.issued[e.sender].leased ==> e.sender == e.latest)
  {
    Reachable(attempts, moves, s);
    assert EffectInv(s, s.effects[j]);
  }

  /** However often they are sent again and whoever sends them, leased or not: of all that
      takes effect on one job only the last can complete it or throw, so at most one ever
      does; and what one activation has effected more than once is one and the same failure,
      which sets the same number of retries each time. */
  lemma JobsFinishOnce(attempts: nat, moves: seq<Move>, s: State, j: nat, k: nat)
    requires Exec(Step, Start(attempts), moves) == Some(s) && j < k < |s.effects|
    ensures s.effects[j].command.key == s.effects[k].command.key ==> s.effects[j].command.verb.Fail?
    ensures s.effects[j].sender == s.effects[k].sender ==>
              s.effects[j].command == s.effects[k].command && s.effects[j].command.verb.Fail?
  {
    Reachable(attempts, moves, s);
    assert PairInv(s.effects[j], s.effects[k]);
    assert EffectInv(s, s.effects[j]) && EffectInv(s, s.effects[k]);
  }

  /** An activation's command takes effect at most as often as it is attempted: once over
      gRPC, at most attempts times over REST. */
  lemma EffectsAreBounded(attempts: nat, moves: seq<Move>, s: State, a: nat)
    requires Exec(Step, Start(attempts), moves) == Some(s) && a < |s.issued|
    ensures EffectsOf(s.effects, a) <= Budget(s.issued[a], attempts)
  {
    Reachable(attempts, moves, s);
    assert AttemptInv(s, a);
  }

  /** In any reachable state, exactly when a command sent is carried out: a leased one while
      its activation is the job's latest and the job is not finished, an unfenced one while
      the job is not finished. */
  lemma TakesEffectIff(attempts: nat, moves: seq<Move>, s: State, a: nat)
    requires Exec(Step, Start(attempts), moves) == Some(s) && MayAttempt(s, a)
    ensures a < |s.issued| && s.issued[a].job.key in s.records
    ensures var i, r := s.issued[a], s.records[s.issued[a].job.key];
            Step(s, Arrive(a)).value.effects != s.effects <==>
              !r.finished && (i.job.leaseToken != "" ==> r.latest == a)
  {
    Reachable(attempts, moves, s);
    var i := s.issued[a];
    assert StageInv(i, s.stages[a]);
    var o :| Some(s.stages[a].command) == CommandOf(i, o, true);
    AnswersItsOwnActivation(i.channel, i.job, o);
    var t := Step(s, Arrive(a)).value;
    assert |t.effects| == |s.effects| + (if Accepts(s, s.stages[a].command) then 1 else 0);
  }

  /** In any reachable state: a command just carried out would be carried out again, were it
      sent again at once, exactly when it is a failure. A token does not change that. */
  lemma ReplayTakesEffectIff(attempts: nat, moves: seq<Move>, s: State, a: nat)
    requires Exec(Step, Start(attempts), moves) == Some(s)
    requires MayAttempt(s, a) && Accepts(s, s.stages[a].command)
    ensures Accepts(Step(s, Arrive(a)).value, s.stages[a].command) <==> s.stages[a].command.verb.Fail?
  {
    Reachable(attempts, moves, s);
    var c := s.stages[a].command;
    assert s.records[c.key].latest < |s.issued|;
  }

  const JOB: Activated := Activated(7, "payment", 3, "", map[])

  lemma HandedOut(s: State, i: Issued, moves: seq<Move>, p: State) returns (moves': seq<Move>, p': State)
    requires Exec(Step, s, moves) == Some(p) && |p.stages| == |p.issued| && MayActivate(p, i)
    requires RequireLeasePresence(i.leased, i.job.leaseToken) == None
    ensures Exec(Step, s, moves') == Some(p')
    ensures p' == p.(issued := p.issued + [i], stages := p.stages + [Running],
                     records := p.records[i.job.key := Record(|p.issued|, true, false)])
  {
    moves', p' := Extend(Step, s, moves, Activate(i));
    moves', p' := Extend(Step, s, moves', Check(|p.issued|));
  }

  lemma FailureSent(attempts: nat, i: Issued) returns (moves: seq<Move>, s: State)
    requires i == Issued(JOB.(leaseToken := "t"), Rest, true)
    ensures Exec(Step, Start(attempts), moves) == Some(s)
    ensures s.issued == [i] && s.effects == [] && s.attempts == attempts
    ensures s.records == map[7 := Record(0, true, false)]
    ensures s.stages == [Sent(Command(7, Fail(2, "down"), Some("t")), attempts)]
  {
    AnswersItsOwnActivation(Rest, i.job, Broken("down"));
    moves, s := HandedOut(Start(attempts), i, [], Start(attempts));
    moves, s := Extend(Step, Start(attempts), moves, Finish(0, Broken("down"), true));
  }

  /** With a leased job whose handler failed, over REST with more than one attempt: the engine
      carries the failure out, the reply is lost, and the attempt that follows is carried out
      as well. */
  lemma FailureTakesEffectTwice(attempts: nat) returns (moves: seq<Move>, s: State)
    requires attempts >= 2
    ensures Exec(Step, Start(attempts), moves) == Some(s)
    ensures |s.issued| == 1 && s.issued[0].leased && EffectsOf(s.effects, 0) == 2
  {
    moves, s := FailureSent(attempts, Issued(JOB.(leaseToken := "t"), Rest, true));
    var p := s;
    ArriveCounts(p, 0);
    moves, s := Extend(Step, Start(attempts), moves, Arrive(0));
    ReplayTakesEffectIff(attempts, moves[..|moves| - 1], p, 0);
    ArriveCounts(s, 0);
    moves, s := Extend(Step, Start(attempts), moves, Arrive(0));
  }

  lemma ArriveCounts(s: State, a: nat)
    requires MayAttempt(s, a) && Accepts(s, s.stages[a].command)
    ensures Step(s, Arrive(a)) == Some(Accepted(s, a)) && Accepted(s, a).issued == s.issued
    ensures EffectsOf(Accepted(s, a).effects, a) == EffectsOf(s.effects, a) + 1
    ensures Accepted(s, a).stages == s.stages[a := s.stages[a].(left := s.stages[a].left - 1)]
  {
    assert Accepted(s, a).effects[..|s.effects|] == s.effects;
  }

  /** The lease is what fences: without it a worker whose job timed out and went to another
      finishes that other worker's job. */
  lemma UnleasedWorkersRace(attempts: nat) returns (moves: seq<Move>, s: State)
    requires attempts >= 1
    ensures Exec(Step, Start(attempts), moves) == Some(s)
    ensures |s.effects| == 1 && s.effects[0].sender < s.effects[0].latest
    ensures forall a :: 0 <= a < |s.issued| ==> !s.issued[a].leased
  {
    var start, i := Start(attempts), Issued(JOB, Rest, false);
    AnswersItsOwnActivation(Rest, JOB, Done(map[]));
    moves, s := HandedOut(start, i, [], start);
    moves, s := Extend(Step, start, moves, Expire(7));
    moves, s := HandedOut(start, i, moves, s);
    moves, s := Extend(Step, start, moves, Finish(0, Done(map[]), true));
    moves, s := Extend(Step, start, moves, Arrive(0));
  }
}
