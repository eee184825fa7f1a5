/** Decimal job keys: strconv.FormatInt and strconv.ParseInt in base 10 on 64-bit integers. */
module Decimals {
  import opened Options

  const MIN_INT64: int := -0x8000_0000_0000_0000
  const MAX_INT64: int := 0x7FFF_FFFF_FFFF_FFFF

  predicate IsInt64(k: int) {
    MIN_INT64 <= k <= MAX_INT64
  }

  predicate IsDigit(c: char) {
    '0' <= c <= '9'
  }

  function DigitChar(d: nat): (c: char)
    requires d < 10
    ensures IsDigit(c)
  {
    '0' + d as char
  }

  function DigitValue(c: char): (d: nat)
    requires IsDigit(c)
    ensures d < 10
  {
    c as int - '0' as int
  }

  function FormatNat(n: nat): (s: string)
    ensures s != [] && forall i :: 0 <= i < |s| ==> IsDigit(s[i])
  {
    if n < 10 then [DigitChar(n)] else FormatNat(n / 10) + [DigitChar(n % 10)]
  }

  function FormatInt(k: int): string {
    if k < 0 then "-" + FormatNat(-k) else FormatNat(k)
  }

  function ParseDigits(s: string): Option<nat> {
    if s == [] then Some(0)
    else
      var last := s[|s| - 1];
      match ParseDigits(s[..|s| - 1])
      case None => None
      case Some(high) => if IsDigit(last) then Some(10 * high + DigitValue(last)) else None
  }

  function InRange(k: int): Option<int> {
    if IsInt64(k) then Some(k) else None
  }

  /** A sign, if any, then at least one digit, within the range of int64. */
  function ParseInt(s: string): Option<int> {
    var signed := s != [] && (s[0] == '-' || s[0] == '+');
    var digits := if signed then s[1..] else s;
    if digits == [] then None
    else
      match ParseDigits(digits)
      case None => None
      case Some(n) =>
        var k: int := n;
        InRange(if signed && s[0] == '-' then -k else k)
  }

  lemma {:induction false} ParseFormatNat(n: nat)
    ensures ParseDigits(FormatNat(n)) == Some(n)
  {
    var s := FormatNat(n);
    if n >= 10 {
      ParseFormatNat(n / 10);
      assert s[..|s| - 1] == FormatNat(n / 10);
    } else {
      assert s[..|s| - 1] == [];
    }
  }

  /** Printing a key and parsing it back yields the key. */
  lemma RoundTrip(k: int)
    requires IsInt64(k)
    ensures ParseInt(FormatInt(k)) == Some(k)
  {
    var n := if k < 0 then -k else k;
    ParseFormatNat(n);
    if k < 0 {
      assert FormatInt(k)[1..] == FormatNat(n);
    } else {
      assert IsDigit(FormatInt(k)[0]);
    }
  }

  /** The one spelling strconv gives a number: a minus sign for a negative one and no other,
      then digits, the first of them not zero unless it is the only one. */
  predicate Canonical(s: string, k: int) {
    var digits := if k < 0 && s != [] then s[1..] else s;
    && (k < 0 ==> s != [] && s[0] == '-')
    && digits != [] && (forall i :: 0 <= i < |digits| ==> '0' <= digits[i] <= '9')
    && (|digits| > 1 ==> digits[0] != '0')
  }

  lemma {:induction false} NoLeadingZero(n: nat)
    ensures |FormatNat(n)| > 1 ==> FormatNat(n)[0] != '0'
    ensures n > 0 ==> FormatNat(n)[0] != '0'
  {
    if n >= 10 {
      NoLeadingZero(n / 10);
    }
  }

  lemma FormatIsCanonical(k: int)
    ensures Canonical(FormatInt(k), k)
  {
    NoLeadingZero(if k < 0 then -k else k);
    if k < 0 {
      assert FormatInt(k)[1..] == FormatNat(-k);
    }
  }
}

/** job.go, presentwhen.go and the acknowledgements of streamworker.go and worker.go: from an
    activated job as received to the one command that answers it. */
module Jobs {
  import opened Decimals
  import opened Options

  /** Variable names and values; values are left uninterpreted. */
  type Variables = map<string, string>

  /** An activated job as the engine describes it, on either channel. */
  datatype Activated = Activated(key: int, jobType: string, retries: int, leaseToken: string, variables: Variables)

  /** The transport-agnostic job handed to the handler. */
  datatype Job = Job(key: string, jobType: string, retries: int, leaseToken: string, variables: Variables)

  /** REST carries keys as decimal strings already. */
  function NewRESTJob(a: Activated, restKey: string): Job {
    Job(restKey, a.jobType, a.retries, a.leaseToken, a.variables)
  }

  function NewGRPCJob(a: Activated): Job {
    Job(FormatInt(a.key), a.jobType, a.retries, a.leaseToken, a.variables)
  }

  // ---------- the lease gate ----------

  datatype LeaseError = LeaseNotHonored

  /** None when the activation may go on. */
  function RequireLeasePresence(requested: bool, token: string): (e: Option<LeaseError>) {
    if !requested || token != "" then None else Some(LeaseNotHonored)
  }

  datatype Activation = Handed(jobs: seq<Activated>) | Rejected(error: LeaseError)

  /** The check of pollOnce and activate: a batch is handed over as a whole, or rejected as a
      whole because some job in it lacks the token that was asked for. */
  method CheckBatch(requested: bool, jobs: seq<Activated>) returns (r: Activation)
    ensures r.Handed? ==> r.jobs == jobs
    ensures r.Handed? <==> (requested ==> forall i :: 0 <= i < |jobs| ==> jobs[i].leaseToken != "")
  {
    for i := 0 to |jobs|
      invariant requested ==> forall j :: 0 <= j < i ==> jobs[j].leaseToken != ""
    {
      var e := RequireLeasePresence(requested, jobs[i].leaseToken);
      if e.Some? {
        return Rejected(e.value);
      }
    }
    return Handed(jobs);
  }

  // ---------- acknowledging ----------

  /** What a handler returned: variables, a BPMN error, or any other error. */
  datatype Outcome =
    | Done(variables: Variables)
    | Bpmn(code: string, message: string, variables: Variables)
    | Broken(message: string)

  datatype Verb =
    | Complete(variables: Variables)
    | Fail(retries: int, message: string)
    | Throw(code: string, message: string, variables: Variables)

  /** A command to the engine. No token means the command is not fenced. */
  datatype Command<+K> = Command(key: K, verb: Verb, token: Option<string>)

  /** The verb the engine is to be told, for this outcome of a job with these retries. */
  function VerbFor(retries: int, o: Outcome): Verb {
    match o
    case Done(v) => Complete(v)
    case Bpmn(code, message, v) => Throw(code, message, v)
    case Broken(message) => Fail(if retries > 0 then retries - 1 else 0, message)
  }

  /** The token an acknowledgement of the job has to carry. */
  function Fence(job: Job): Option<string> {
    if job.leaseToken == "" then None else Some(job.leaseToken)
  }

  /** The request restCompleteJob, restFailJob and restThrowError build, field by field. */
  datatype Request = Request(
    variables: Option<Variables>,
    retries: Option<int>,
    code: Option<string>,
    message: Option<string>,
    token: Option<string>)

  const EMPTY_REQUEST: Request := Request(None, None, None, None, None)

  function Text(m: Option<string>): string {
    if m.Some? then m.value else ""
  }

  function Vars(v: Option<Variables>): Variables {
    if v.Some? then v.value else map[]
  }

  /** What the engine makes of a request sent to the endpoint of a verb. */
  function ReadCompletion(r: Request): Verb {
    Complete(Vars(r.variables))
  }

  function ReadFailure(r: Request): Verb {
    Fail(if r.retries.Some? then r.retries.value else 0, Text(r.message))
  }

  function ReadThrow(r: Request): Verb {
    Throw(Text(r.code), Text(r.message), Vars(r.variables))
  }

  /** The outcome's variables can be written into a request. encodes tells whether those there
      are can be marshaled. */
  predicate Encodable(o: Outcome, encodes: bool) {
    o.Broken? || |o.variables| == 0 || encodes
  }

  function WithoutVariables(o: Outcome): Outcome {
    if o.Broken? then o else o.(variables := map[])
  }

  /** A REST request whose variables cannot be marshaled is never sent. */
  method RestCompleteJob(job: Job, variables: Variables, encodes: bool) returns (c: Option<Command<string>>)
    ensures c.Some? <==> Encodable(Done(variables), encodes)
    ensures c.Some? ==> c.value == Command(job.key, Complete(variables), Fence(job))
  {
    var req := EMPTY_REQUEST;
    if |variables| > 0 {
      req := req.(variables := Some(variables));
    }
    if job.leaseToken != "" {
      req := req.(token := Some(job.leaseToken));
    }
    if req.variables.Some? && !encodes {
      return None;
    }
    return Some(Command(job.key, ReadCompletion(req), req.token));
  }

  method RestFailJob(job: Job, message: string) returns (c: Command<string>)
    ensures c == Command(job.key, VerbFor(job.retries, Broken(message)), Fence(job))
  {
    var req := EMPTY_REQUEST;
    var retries := job.retries - 1;
    if retries < 0 {
      retries := 0;
    }
    req := req.(retries := Some(retries));
    req := req.(message := Some(message));
    if job.leaseToken != "" {
      req := req.(token := Some(job.leaseToken));
    }
    return Command(job.key, ReadFailure(req), req.token);
  }

  method RestThrowError(job: Job, code: string, message: string, variables: Variables, encodes: bool)
    returns (c: Option<Command<string>>)
    ensures c.Some? <==> Encodable(Bpmn(code, message, variables), encodes)
    ensures c.Some? ==> c.value == Command(job.key, Throw(code, message, variables), Fence(job))
  {
    var req := EMPTY_REQUEST.(code := Some(code));
    if message != "" {
      req := req.(message := Some(message));
    }
    if |variables| > 0 {
      req := req.(variables := Some(variables));
    }
    if job.leaseToken != "" {
      req := req.(token := Some(job.leaseToken));
    }
    if req.variables.Some? && !encodes {
      return None;
    }
    return Some(Command(job.key, ReadThrow(req), req.token));
  }

  /** The command that answers a job, its key being k. */
  function Answer<K>(k: K, job: Job, o: Outcome): Command<K> {
    Command(k, VerbFor(job.retries, o), Fence(job))
  }

  /** restAck: one command, for the job's own key, verb and token, exactly when the variables
      can be marshaled, there are none, or the job failed; otherwise none. */
  method RestAck(job: Job, o: Outcome, encodes: bool) returns (c: Option<Command<string>>)
    ensures c == if Encodable(o, encodes) then Some(Answer(job.key, job, o)) else None
  {
    match o {
      case Done(v) => c := RestCompleteJob(job, v, encodes);
      case Bpmn(code, message, v) => c := RestThrowError(job, code, message, v, encodes);
      case Broken(message) =>
        var failed := RestFailJob(job, message);
        c := Some(failed);
    }
  }

  /** The gRPC acknowledgements of StreamJobWorker.handle. The key is parsed back, and a key
      that does not parse is logged and answered by nothing. Variables that cannot be
      marshaled are left out of the command, which is sent all the same. */
  method GrpcAck(job: Job, o: Outcome, encodes: bool) returns (sent: Option<Command<int>>)
    ensures sent.None? <==> ParseInt(job.key).None?
    ensures sent.Some? ==>
              sent.value == Answer(ParseInt(job.key).value, job, if Encodable(o, encodes) then o else WithoutVariables(o))
  {
    var parsed := ParseInt(job.key);
    if parsed.None? {
      return None;
    }
    var key := parsed.value;
    var req := EMPTY_REQUEST;
    match o {
      case Done(v) =>
        if |v| > 0 && encodes {
          req := req.(variables := Some(v));
        }
      case Bpmn(code, message, v) =>
        req := req.(code := Some(code), message := Some(message));
        if |v| > 0 && encodes {
          req := req.(variables := Some(v));
        }
      case Broken(message) =>
        var retries := job.retries - 1;
        if retries < 0 {
          retries := 0;
        }
        req := req.(retries := Some(retries), message := Some(message));
    }
    if job.leaseToken != "" {
      req := req.(token := Some(job.leaseToken));
    }
    var verb := match o
                case Done(_) => ReadCompletion(req)
                case Bpmn(_, _, _) => ReadThrow(req)
                case Broken(_) => ReadFailure(req);
    return Some(Command(key, verb, req.token));
  }

  // ---------- both channels, end to end ----------

  datatype Channel = Grpc | Rest

  /** The job the worker builds from an activation received on a channel. */
  function Received(ch: Channel, a: Activated): Job {
    match ch
    case Grpc => NewGRPCJob(a)
    case Rest => NewRESTJob(a, FormatInt(a.key))
  }

  /** The key the engine reads off a command for this job. */
  function AddressedKey(job: Job): Option<int> {
    ParseInt(job.key)
  }

  /** Whatever the channel, an activation with a 64-bit key is answered under its own key,
      with its own token and the same verb: the invalid-key exits are unreachable for it. The
      handler is given the job's own type, retries, variables and token. */
  lemma AnswersItsOwnActivation(ch: Channel, a: Activated, o: Outcome)
    requires IsInt64(a.key)
    ensures AddressedKey(Received(ch, a)) == Some(a.key)
    ensures var job := Received(ch, a);
            && job.jobType == a.jobType && job.retries == a.retries && job.variables == a.variables
            && job.leaseToken == a.leaseToken
    ensures Answer(a.key, Received(ch, a), o)
         == Command(a.key, VerbFor(a.retries, o), if a.leaseToken == "" then None else Some(a.leaseToken))
  {
    RoundTrip(a.key);
  }
}
