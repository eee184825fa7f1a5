/** worker.go: handleFalcon, over the acknowledgements of internal/falcon/streamworker.go: the
    frames one handled job sends, whatever its outcome. */
module FalconAnswers {
  import opened Jobs
  import opened Options

  datatype Frame =
    | CompleteJob(jobKey: string, variables: Option<Variables>)
    | FailJob(jobKey: string, retries: int, errorMessage: Option<string>)
    | ThrowError(jobKey: string, errorCode: string, errorMessage: Option<string>, variables: Option<Variables>)
    | JobCredits(n: nat)
    | Blank                  // what is left of a frame that cannot be marshaled

  /** The delivery credits these frames give back. */
  function Credits(frames: seq<Frame>): nat {
    if frames == [] then 0
    else Credits(frames[..|frames| - 1]) + (if frames[|frames| - 1].JobCredits? then frames[|frames| - 1].n else 0)
  }

  const REPLENISH: seq<Frame> := [JobCredits(1)]

  function NonEmpty(m: string): Option<string> {
    if m == "" then None else Some(m)
  }

  function NonEmptyVars(v: Variables): Option<Variables> {
    if |v| > 0 then Some(v) else None
  }

  /** The verb the gateway reads off a command frame; command frames carry no lease token. */
  function ReadVerb(f: Frame): Option<Verb> {
    match f
    case CompleteJob(_, v) => Some(Complete(Vars(v)))
    case FailJob(_, retries, message) => Some(Fail(retries, Text(message)))
    case ThrowError(_, code, message, v) => Some(Throw(code, Text(message), Vars(v)))
    case JobCredits(_) => None
    case Blank => None
  }

  function Marshaled(f: Frame, encodes: bool): Frame {
    if encodes then f else Blank
  }

  /** The command frame that answers a job. */
  function CommandFrame(job: Job, o: Outcome): Frame {
    match o
    case Done(v) => CompleteJob(job.key, NonEmptyVars(v))
    case Bpmn(code, message, v) => ThrowError(job.key, code, NonEmpty(message), NonEmptyVars(v))
    case Broken(message) => FailJob(job.key, if job.retries > 0 then job.retries - 1 else 0, NonEmpty(message))
  }

  /** The frames that answer a job: its command, empty if it cannot be marshaled, and one
      credit. */
  function AnswerFrames(job: Job, o: Outcome, encodes: bool): seq<Frame> {
    [Marshaled(CommandFrame(job, o), Encodable(o, encodes)), JobCredits(1)]
  }

  /** The sending side of a subscription. */
  class StreamWorker {
    var sent: seq<Frame>

    constructor ()
      ensures sent == []
    {
      sent := [];
    }

    method Send(f: Frame)
      modifies this
      ensures sent == old(sent) + [f]
    {
      sent := sent + [f];
    }

    method Replenish(n: nat)
      modifies this
      ensures sent == old(sent) + [JobCredits(n)]
    {
      Send(JobCredits(n));
    }

    /** encodes tells whether the variables, if any, can be marshaled. */
    method Complete(key: string, variables: Variables, encodes: bool)
      modifies this
      ensures sent == old(sent) +
        [Marshaled(CompleteJob(key, NonEmptyVars(variables)), |variables| == 0 || encodes), JobCredits(1)]
    {
      var vars: Option<Variables> := None;
      if |variables| > 0 {
        vars := Some(variables);
      }
      Send(if vars.Some? && !encodes then Blank else CompleteJob(key, vars));
      Replenish(1);
    }

    method Fail(key: string, retries: int, message: string)
      modifies this
      ensures sent == old(sent) + [FailJob(key, retries, NonEmpty(message)), JobCredits(1)]
    {
      var text: Option<string> := None;
      if message != "" {
        text := Some(message);
      }
      Send(FailJob(key, retries, text));
      Replenish(1);
    }

    method Throw(key: string, code: string, message: string, variables: Variables, encodes: bool)
      modifies this
      ensures sent == old(sent) +
        [Marshaled(ThrowError(key, code, NonEmpty(message), NonEmptyVars(variables)), |variables| == 0 || encodes),
         JobCredits(1)]
    {
      var text: Option<string>, vars: Option<Variables> := None, None;
      if message != "" {
        text := Some(message);
      }
      if |variables| > 0 {
        vars := Some(variables);
      }
      Send(if vars.Some? && !encodes then Blank else ThrowError(key, code, text, vars));
      Replenish(1);
    }
  }

  /** handleFalcon once the handler has returned. */
  method HandleFalcon(sw: StreamWorker, job: Job, o: Outcome, encodes: bool)
    modifies sw
    ensures sw.sent == old(sw.sent) + AnswerFrames(job, o, encodes)
  {
    match o {
      case Done(v) => sw.Complete(job.key, v, encodes);
      case Bpmn(code, message, v) => sw.Throw(job.key, code, message, v, encodes);
      case Broken(message) =>
        var retries := job.retries - 1;
        if retries < 0 {
          retries := 0;
        }
        sw.Fail(job.key, retries, message);
    }
  }

  /** Whatever the outcome, exactly one credit goes back. One command goes with it, for the
      job's own key and with the verb REST and gRPC would send, exactly when the variables can
      be marshaled, there are none, or the job failed. */
  lemma OneCreditEach(job: Job, o: Outcome, encodes: bool)
    ensures Credits(AnswerFrames(job, o, encodes)) == 1 && |AnswerFrames(job, o, encodes)| == 2
    ensures var verb := ReadVerb(AnswerFrames(job, o, encodes)[0]);
            verb == if Encodable(o, encodes) then Some(VerbFor(job.retries, o)) else None
    ensures Encodable(o, encodes) ==> AnswerFrames(job, o, encodes)[0].jobKey == job.key
  {
    var frames := AnswerFrames(job, o, encodes);
    assert frames[..1] == [frames[0]] && frames[..1][..0] == [];
    assert Credits(frames[..1]) == 0;
    if !o.Broken? {
      assert |o.variables| == 0 <==> o.variables == map[];
    }
  }
}
