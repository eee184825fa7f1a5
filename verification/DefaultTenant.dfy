/** defaulttenant.go on shared objects: an instruction's union carries pointers, and callers
    reuse one instruction across calls and clients. */
module DefaultTenants {
  import opened Instructions
  import opened Options

  class Variant {
    var fields: Fields

    constructor (fields: Fields)
      ensures this.fields == fields
    {
      this.fields := fields;
    }

    method SetTenantId(tenant: string)
      modifies this
      ensures fields == old(fields)[TenantId := Text(tenant)]
    {
      fields := fields[TenantId := Text(tenant)];
    }
  }

  /** A body value: copying it copies its pointers. */
  datatype Body = Body(byId: Variant?, byKey: Variant?, byVersionTag: Variant?)

  function Variants(b: Body): set<Variant> {
    (if b.byId == null then {} else {b.byId}) +
    (if b.byKey == null then {} else {b.byKey}) +
    (if b.byVersionTag == null then {} else {b.byVersionTag})
  }

  function Contents(v: Variant?): Option<Fields>
    reads v
  {
    if v == null then None else Some(v.fields)
  }

  /** The instruction a body stands for at this moment. */
  function Value(b: Body): Instruction
    reads Variants(b)
  {
    Instruction(Contents(b.byId), Contents(b.byKey), Contents(b.byVersionTag))
  }

  /** Copies the variant before it sets the tenant; changes no object that existed. */
  method WithTenant(default: string, v: Variant?) returns (r: Variant?)
    requires default != ""
    ensures Contents(r) == InjectVariant(default, old(Contents(v)))
    ensures r == v || (r != null && fresh(r))
    ensures r == v <==> Contents(v) == InjectVariant(default, Contents(v))
  {
    r := v;
    if v != null && TenantId !in v.fields {
      var cp := new Variant(v.fields);
      cp.SetTenantId(default);
      r := cp;
    }
  }

  method WithDefaultTenantProcessInstanceCreation(default: string, body: Body) returns (r: Body)
    ensures Value(r) == Inject(default, old(Value(body)))
    ensures forall v <- Variants(r) :: v in Variants(body) || fresh(v)
    ensures default == "" ==> r == body
  {
    r := body;
    if default == "" {
      return;
    }
    var byId := WithTenant(default, body.byId);
    var byKey := WithTenant(default, body.byKey);
    var byVersionTag := WithTenant(default, body.byVersionTag);
    r := Body(byId, byKey, byVersionTag);
  }

  /** The body after a sequence of body-replacing options, the last applied last. */
  function Replaced(opts: seq<Body -> Body>, b: Body): Body {
    if opts == [] then b else opts[|opts| - 1](Replaced(opts[..|opts| - 1], b))
  }

  /** A REST create: the options, then the default tenant on the final body. What is sent is
      that body's value with the client's own default, and no object of the caller's, or of an
      option's, is written. */
  method SendOverRest(default: string, body: Body, opts: seq<Body -> Body>) returns (sent: Option<Fields>)
    ensures sent == RestBody(Inject(default, old(Value(Replaced(opts, body)))))
  {
    var req := body;
    for k := 0 to |opts|
      invariant req == Replaced(opts[..k], body)
    {
      assert opts[..k + 1][..k] == opts[..k];
      req := opts[k](req);
    }
    assert opts[..|opts|] == opts;
    var final := WithDefaultTenantProcessInstanceCreation(default, req);
    sent := RestBody(Value(final));
  }

  /** One instruction reused through clients with these defaults, one after another: each
      request is what it would be on that client alone. */
  method SendThroughClients(defaults: seq<string>, body: Body) returns (sent: seq<Option<Fields>>)
    ensures |sent| == |defaults|
    ensures forall k :: 0 <= k < |defaults| ==> sent[k] == RestBody(Inject(defaults[k], old(Value(body))))
  {
    sent := [];
    for k := 0 to |defaults|
      invariant |sent| == k && Value(body) == old(Value(body))
      invariant forall j :: 0 <= j < k ==> sent[j] == RestBody(Inject(defaults[j], old(Value(body))))
    {
      var one := SendOverRest(defaults[k], body, []);
      sent := sent + [one];
    }
  }

  // ---------- decision evaluation ----------

  /** The decision-evaluation union has two variants and follows the same rule. */
  datatype DecisionBody = DecisionBody(byId: Variant?, byKey: Variant?)

  method WithDefaultTenantDecisionEvaluation(default: string, body: DecisionBody) returns (r: DecisionBody)
    ensures Contents(r.byId) == InjectVariant(default, old(Contents(body.byId)))
    ensures Contents(r.byKey) == InjectVariant(default, old(Contents(body.byKey)))
    ensures r.byId == body.byId || (r.byId != null && fresh(r.byId))
    ensures r.byKey == body.byKey || (r.byKey != null && fresh(r.byKey))
  {
    r := body;
    if default == "" {
      return;
    }
    var byId := WithTenant(default, body.byId);
    var byKey := WithTenant(default, body.byKey);
    r := DecisionBody(byId, byKey);
  }
}
