/** Process-instance creation instructions as values, the body REST sends for one, and the
    default tenant of defaulttenant.go. */
module Instructions {
  import opened Options

  /** The fields of the instruction variants. Other stands for every field the command stream
      does not know by name, those a later specification adds included. */
  datatype Name =
    | ProcessDefinitionId
    | ProcessDefinitionKey
    | ProcessDefinitionVersion
    | TenantId
    | Variables
    | AwaitCompletion
    | FetchVariables
    | RequestTimeout
    | Other(go: string)

  datatype Json =
    | Text(s: string)
    | Number(i: int)
    | Flag(b: bool)
    | Names(names: seq<string>)
    | Object(members: map<string, Json>)

  /** A variant, or a request body: the fields that are set, an empty but non-nil slice or map
      included. */
  type Fields = map<Name, Json>

  /** The union: any of its three pointers may be set. */
  datatype Instruction = Instruction(byId: Option<Fields>, byKey: Option<Fields>, byVersionTag: Option<Fields>)

  /** What the REST client marshals: the first variant that is set, or no data at all. */
  function RestBody(i: Instruction): Option<Fields> {
    if i.byId.Some? then i.byId
    else if i.byKey.Some? then i.byKey
    else i.byVersionTag
  }

  function InjectVariant(default: string, v: Option<Fields>): Option<Fields> {
    if v.Some? && TenantId !in v.value && default != "" then Some(v.value[TenantId := Text(default)]) else v
  }

  function Inject(default: string, i: Instruction): Instruction {
    Instruction(InjectVariant(default, i.byId), InjectVariant(default, i.byKey), InjectVariant(default, i.byVersionTag))
  }

  /** The tenant a request for these fields reaches the gateway with. */
  function EffectiveTenant(default: string, fields: Fields): Option<Json> {
    if TenantId in fields then Some(fields[TenantId])
    else if default != "" then Some(Text(default))
    else None
  }

  function Lookup(fields: Fields, n: Name): Option<Json> {
    if n in fields then Some(fields[n]) else None
  }

  /** v is the variant that counts: the one by id, else by key, else by version tag. */
  predicate Counts(i: Instruction, v: Fields) {
    || i.byId == Some(v)
    || (i.byId == None && i.byKey == Some(v))
    || (i.byId == None && i.byKey == None && i.byVersionTag == Some(v))
  }

  /** A body is sent exactly when some variant is set. It has the effective tenant and every
      other field as the caller set it in the variant that counts. */
  lemma InjectedBody(default: string, i: Instruction, v: Fields, n: Name)
    ensures RestBody(Inject(default, i)).None? <==> i == Instruction(None, None, None)
    ensures Counts(i, v) ==>
              && RestBody(Inject(default, i)).Some?
              && Lookup(RestBody(Inject(default, i)).value, TenantId) == EffectiveTenant(default, v)
              && (n != TenantId ==> Lookup(RestBody(Inject(default, i)).value, n) == Lookup(v, n))
  {
  }

  /** An explicit tenant wins: a second client's default changes nothing that the first one's
      filled in, and injecting the same default again changes nothing at all. */
  lemma FirstTenantWins(first: string, second: string, i: Instruction)
    ensures first != "" ==> Inject(second, Inject(first, i)) == Inject(first, i)
    ensures Inject(first, Inject(first, i)) == Inject(first, i)
    ensures first == "" ==> Inject(second, Inject(first, i)) == Inject(second, i)
  {
  }

  /** Injection leaves an instruction as it is exactly when there is no default or every
      variant that is set has a tenant. */
  lemma UntouchedIff(default: string, i: Instruction)
    ensures Inject(default, i) == i <==>
            || default == ""
            || ((i.byId.Some? ==> TenantId in i.byId.value) && (i.byKey.Some? ==> TenantId in i.byKey.value)
                && (i.byVersionTag.Some? ==> TenantId in i.byVersionTag.value))
  {
  }
}
