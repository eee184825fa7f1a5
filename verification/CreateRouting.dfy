/** The create path of falcon.go: which creates go over the command stream, and what their
    frames say. */
module CreateRouting {
  import opened Instructions
  import opened Options

  /** The fields the command stream carries. */
  const CARRIED: set<Name> := {
    ProcessDefinitionId, ProcessDefinitionKey, TenantId, Variables, AwaitCompletion, FetchVariables, RequestTimeout
  }

  /** The stream cannot carry this set field. Asking for version -1 is asking for the latest,
      which is what the stream resolves. */
  predicate Unsupported(v: Fields, n: Name) {
    n in v && n !in CARRIED && !(n == ProcessDefinitionVersion && v[n] == Number(-1))
  }

  predicate Streamable(v: Fields) {
    forall n <- v :: !Unsupported(v, n)
  }

  /** The field types of the generated structs. */
  predicate WellTyped(v: Fields) {
    && (ProcessDefinitionId in v ==> v[ProcessDefinitionId].Text?)
    && (ProcessDefinitionKey in v ==> v[ProcessDefinitionKey].Text?)
    && (ProcessDefinitionVersion in v ==> v[ProcessDefinitionVersion].Number?)
    && (TenantId in v ==> v[TenantId].Text?)
    && (Variables in v ==> v[Variables].Object?)
    && (AwaitCompletion in v ==> v[AwaitCompletion].Flag?)
    && (FetchVariables in v ==> v[FetchVariables].Names?)
    && (RequestTimeout in v ==> v[RequestTimeout].Number?)
  }

  /** Each variant has its one required definition field, and only that one. */
  predicate Valid(i: Instruction) {
    && (i.byId.Some? ==>
          var v := i.byId.value; WellTyped(v) && ProcessDefinitionId in v && ProcessDefinitionKey !in v)
    && (i.byKey.Some? ==>
          var v := i.byKey.value; WellTyped(v) && ProcessDefinitionKey in v && ProcessDefinitionId !in v)
  }

  datatype CreateArgs = CreateArgs(
    id: string,
    key: string,
    tenant: string,
    variables: map<string, Json>,
    awaitCompletion: bool,
    fetchVariables: seq<string>,
    requestTimeoutMs: int)

  const NO_ARGS := CreateArgs("", "", "", map[], false, [], 0)

  function TenantOrDefault(default: string, v: Fields): (t: Option<string>)
    requires WellTyped(v)
    ensures t.Some? <==> EffectiveTenant(default, v).Some?
    ensures t.Some? ==> EffectiveTenant(default, v) == Some(Text(t.value))
  {
    if TenantId in v then Some(v[TenantId].s)
    else if default != "" then Some(default)
    else None
  }

  // ---------- from instruction to arguments to frame ----------

  /** The variant the stream is asked for: ById before ByKey, any other left to REST. */
  function Chosen(i: Instruction): Option<Fields> {
    if i.byId.Some? then i.byId else i.byKey
  }

  predicate RoutesToStream(i: Instruction) {
    Chosen(i).Some? && Streamable(Chosen(i).value)
  }

  function ArgsOf(default: string, v: Fields): CreateArgs
    requires WellTyped(v)
  {
    var tenant := TenantOrDefault(default, v);
    CreateArgs(
      if ProcessDefinitionId in v then v[ProcessDefinitionId].s else "",
      if ProcessDefinitionKey in v then v[ProcessDefinitionKey].s else "",
      if tenant.Some? then tenant.value else "",
      if Variables in v then v[Variables].members else map[],
      if AwaitCompletion in v then v[AwaitCompletion].b else false,
      if FetchVariables in v then v[FetchVariables].names else [],
      if RequestTimeout in v then v[RequestTimeout].i else 0)
  }

  /** The arguments of a create over the stream, or None to leave it to REST. */
  method BuildArgs(default: string, i: Instruction) returns (r: Option<CreateArgs>)
    requires Valid(i)
    ensures r.Some? <==> RoutesToStream(i)
    ensures r.Some? ==> r.value == ArgsOf(default, Chosen(i).value)
  {
    var args := NO_ARGS;
    var tenant: Option<string>;
    if i.byId.Some? {
      var b := i.byId.value;
      if !Streamable(b) {
        return None;
      }
      tenant := TenantOrDefault(default, b);
      args := args.(id := b[ProcessDefinitionId].s);
      args := CommonArgs(b, args);
    } else if i.byKey.Some? {
      var b := i.byKey.value;
      if !Streamable(b) {
        return None;
      }
      tenant := TenantOrDefault(default, b);
      args := args.(key := b[ProcessDefinitionKey].s);
      args := CommonArgs(b, args);
    } else {
      return None;
    }
    if tenant.Some? && tenant.value != "" {
      args := args.(tenant := tenant.value);
    }
    return Some(args);
  }

  method CommonArgs(b: Fields, args: CreateArgs) returns (r: CreateArgs)
    requires WellTyped(b)
    ensures r == ArgsOf("", b).(id := args.id, key := args.key, tenant := args.tenant)
  {
    r := args.(variables := if Variables in b then b[Variables].members else map[],
               awaitCompletion := AwaitCompletion in b && b[AwaitCompletion].b,
               fetchVariables := if FetchVariables in b then b[FetchVariables].names else [],
               requestTimeoutMs := 0);
    if RequestTimeout in b {
      r := r.(requestTimeoutMs := b[RequestTimeout].i);
    }
  }

  /** The frame's entry under this name, if it has one. */
  function Entry(args: CreateArgs, n: Name): Option<Json> {
    match n
    case ProcessDefinitionId => if args.id != "" then Some(Text(args.id)) else None
    case ProcessDefinitionKey => if args.key != "" then Some(Text(args.key)) else None
    case TenantId => if args.tenant != "" then Some(Text(args.tenant)) else None
    case Variables => if |args.variables| > 0 then Some(Object(args.variables)) else None
    case AwaitCompletion => Some(Flag(args.awaitCompletion))
    case FetchVariables => if args.fetchVariables != [] then Some(Names(args.fetchVariables)) else None
    case RequestTimeout => if args.requestTimeoutMs != 0 then Some(Number(args.requestTimeoutMs)) else None
    case ProcessDefinitionVersion => None
    case Other(_) => None
  }

  method Put(frame: Fields, n: Name, present: bool, value: Json) returns (r: Fields)
    ensures forall m :: Lookup(r, m) == if m == n && present then Some(value) else Lookup(frame, m)
  {
    r := frame;
    if present {
      r := r[n := value];
    }
  }

  /** The frame Producer.Create sends, without its type and correlation number. */
  method BuildFrame(args: CreateArgs) returns (frame: Fields)
    ensures forall n :: Lookup(frame, n) == Entry(args, n)
  {
    frame := map[AwaitCompletion := Flag(args.awaitCompletion)];
    frame := Put(frame, ProcessDefinitionId, args.id != "", Text(args.id));
    frame := Put(frame, ProcessDefinitionKey, args.key != "", Text(args.key));
    frame := Put(frame, TenantId, args.tenant != "", Text(args.tenant));
    assert forall n ::
        Lookup(frame, n) == if n in {AwaitCompletion, ProcessDefinitionId, ProcessDefinitionKey, TenantId}
                            then Entry(args, n) else None;
    frame := Put(frame, Variables, |args.variables| > 0, Object(args.variables));
    frame := Put(frame, FetchVariables, |args.fetchVariables| > 0, Names(args.fetchVariables));
    frame := Put(frame, RequestTimeout, args.requestTimeoutMs != 0, Number(args.requestTimeoutMs));
    forall n: Name
      ensures Lookup(frame, n) == Entry(args, n)
    {
    }
  }

  // ---------- nothing the caller asked for is lost ----------

  /** A field set to what the API takes an absent one for. */
  predicate IsDefault(n: Name, value: Json) {
    || (n == AwaitCompletion && value == Flag(false))
    || (n == RequestTimeout && value == Number(0))
    || (n == ProcessDefinitionVersion && value == Number(-1))
    || (n == Variables && value == Object(map[]))
    || (n == FetchVariables && value == Names([]))
  }

  /** What a request asks for under this name. */
  function Asked(value: Option<Json>, n: Name): Option<Json> {
    if value.Some? && IsDefault(n, value.value) then None else value
  }

  /** What the REST request for this instruction asks for under this name. */
  function AskedOverRest(default: string, i: Instruction, n: Name): Option<Json> {
    var body := RestBody(Inject(default, i));
    if body.Some? then Asked(Lookup(body.value, n), n) else None
  }

  function AskedOverStream(default: string, i: Instruction, n: Name): Option<Json>
    requires Valid(i) && RoutesToStream(i)
  {
    Asked(Entry(ArgsOf(default, Chosen(i).value), n), n)
  }

  /** The one text that an empty string in this field loses. */
  predicate EmptyText(v: Fields, n: Name) {
    n in {ProcessDefinitionId, ProcessDefinitionKey, TenantId} && n in v && v[n] == Text("")
  }

  /** Field by field, a create sent over the stream asks for exactly what REST would have
      asked for, except a definition or tenant the caller set to the empty string. */
  lemma StreamAsksTheSameIff(default: string, i: Instruction, n: Name)
    requires Valid(i) && RoutesToStream(i)
    ensures AskedOverStream(default, i, n) == AskedOverRest(default, i, n) <==> !EmptyText(Chosen(i).value, n)
  {
  }

  /** A create goes over the stream exactly when the variant that counts is by id or by key
      and each of its set fields is one of seven or is version -1; one by version tag never
      does. */
  lemma RoutesIff(i: Instruction)
    ensures RoutesToStream(i) <==>
            && (i.byId.Some? || i.byKey.Some?)
            && forall v: Fields, n: Name :: Counts(i, v) && n in v ==>
                 || n.ProcessDefinitionId? || n.ProcessDefinitionKey? || n.TenantId? || n.Variables?
                 || n.AwaitCompletion? || n.FetchVariables? || n.RequestTimeout?
                 || (n.ProcessDefinitionVersion? && v[n] == Number(-1))
  {
    if !RoutesToStream(i) && Chosen(i).Some? {
      var v := Chosen(i).value;
      var n :| n in v && Unsupported(v, n);
      assert Counts(i, v);
    }
  }

  // ---------- the whole call ----------

  datatype Sent = OverStream(frame: Fields) | OverRest(body: Option<Fields>)

  /** caps tells whether the stream was detected, produces whether its producer started. */
  method CreateProcessInstance(
      default: string, i: Instruction, opts: seq<Instruction -> Instruction>, caps: bool, produces: bool)
    returns (sent: Sent)
    requires Valid(i)
    ensures sent.OverStream? <==> caps && produces && RoutesToStream(i)
    ensures sent.OverStream? ==>
              forall n ::
                Asked(Lookup(sent.frame, n), n) == AskedOverRest(default, i, n) <==> !EmptyText(Chosen(i).value, n)
    ensures sent.OverRest? ==> sent.body == RestBody(Inject(default, Applied(opts, i)))
  {
    if caps {
      var args := BuildArgs(default, i);
      if args.Some? && produces {
        var frame := BuildFrame(args.value);
        forall n
          ensures Asked(Lookup(frame, n), n) == AskedOverRest(default, i, n) <==> !EmptyText(Chosen(i).value, n)
        {
          StreamAsksTheSameIff(default, i, n);
        }
        return OverStream(frame);
      }
    }
    var req := i;
    for k := 0 to |opts|
      invariant req == Applied(opts[..k], i)
    {
      assert opts[..k + 1][..k] == opts[..k];
      req := opts[k](req);
    }
    assert opts[..|opts|] == opts;
    return OverRest(RestBody(Inject(default, req)));
  }

  /** The body after the request options, the last applied last. */
  function Applied(opts: seq<Instruction -> Instruction>, i: Instruction): Instruction {
    if opts == [] then i else opts[|opts| - 1](Applied(opts[..|opts| - 1], i))
  }

  // ---------- the tenant shown on the result ----------

  const SERVER_DEFAULT: string := "<default>"

  function ResolveTenant(default: string, provided: Option<string>): string {
    if provided.Some? && provided.value != "" then provided.value
    else if default != "" then default
    else SERVER_DEFAULT
  }

  /** When the gateway's reply names no tenant, the result shows the one the frame carried, or
      the server's default marker if it carried none, exactly unless the caller set an empty
      tenant on a client that has a default: then it shows a default that was not sent. */
  lemma ShownTenantIsSentIff(default: string, v: Fields)
    requires WellTyped(v)
    ensures var sent := Entry(ArgsOf(default, v), TenantId);
            var shown := ResolveTenant(default, TenantOrDefault(default, v));
            shown == (if sent.Some? then sent.value.s else SERVER_DEFAULT) <==>
            !(EmptyText(v, TenantId) && default != "" && default != SERVER_DEFAULT)
  {
  }
}
