/** Validated execution requests, their policy decision and their idempotency hash. */
module Requests {
  import opened Base
  import opened JsonText
  import opened CanonicalJson
  import opened StateMachine

  type ExecId = string
  type TenantId = string

  datatype Request = Request(
    executionId: ExecId,
    tenantId: TenantId,
    actorId: string,
    agentId: string,
    agentVersion: string,
    objective: string,
    context: seq<Field>,
    policySet: seq<string>,
    requestedTools: seq<string>,
    requiresApproval: bool,
    evidenceRequired: bool,
    createdAt: string)

  /** What the schema demands of strings, and what every JavaScript object has: distinct keys. */
  predicate Valid(r: Request) {
    && r.executionId != "" && r.tenantId != "" && r.actorId != ""
    && r.agentId != "" && r.agentVersion != "" && r.objective != ""
    && WellFormed(Obj(r.context))
  }

  function Strings(items: seq<string>): (r: seq<Json>)
    ensures |r| == |items| && forall i | 0 <= i < |r| :: r[i] == Str(items[i])
  {
    seq(|items|, i requires 0 <= i < |items| => Str(items[i]))
  }

  function IdentityJson(r: Request): Json {
    Obj([
      Field("executionId", Str(r.executionId)),
      Field("tenantId", Str(r.tenantId)),
      Field("actorId", Str(r.actorId)),
      Field("agentId", Str(r.agentId)),
      Field("agentVersion", Str(r.agentVersion))])
  }

  /** The parsed request, as the object that is hashed. */
  function RequestJson(r: Request): Json {
    Obj([
      Field("identity", IdentityJson(r)),
      Field("objective", Str(r.objective)),
      Field("context", Obj(r.context)),
      Field("policySet", Arr(Strings(r.policySet))),
      Field("requestedTools", Arr(Strings(r.requestedTools))),
      Field("requiresApproval", Bool(r.requiresApproval)),
      Field("evidenceRequired", Bool(r.evidenceRequired)),
      Field("createdAt", Str(r.createdAt))])
  }

  // ---------- policy ----------

  /** `evaluateExecutionPolicy`: a request is allowed when its objective is not blank. */
  predicate Allowed(r: Request) {
    !Blank(r.objective)
  }

  function InitialStatus(r: Request): Status {
    if !Allowed(r) then Rejected else if r.requiresApproval then Approval else Intake
  }

  // ---------- hashing ----------

  /** What is fixed for a deployment: key comparison, digest, and the advisory-lock key function. */
  datatype Env = Env(leq: KeyOrder, digest: string -> string, advisory: string -> int)

  function RequestHash(env: Env, r: Request): string {
    env.digest(Print(Canonicalize(env.leq, RequestJson(r))))
  }

  ghost predicate CollisionFree(env: Env) {
    forall a, b :: env.digest(a) == env.digest(b) ==> a == b
  }

  lemma RequestJsonWellFormed(r: Request)
    requires Valid(r)
    ensures WellFormed(RequestJson(r))
  {
    assert WellFormed(IdentityJson(r));
    assert WellFormed(Arr(Strings(r.policySet)));
    assert WellFormed(Arr(Strings(r.requestedTools)));
  }

  lemma FieldShows(fields: seq<Field>, i: nat)
    requires DistinctKeys(fields) && i < |fields|
    ensures fields[i].key in MeaningOfFields(fields)
    ensures MeaningOfFields(fields)[fields[i].key] == MeaningOf(fields[i].value)
  {
    FieldsMeaning(fields);
    assert fields[i] in fields;
  }

  // ---------- what a hash stands for ----------

  /** The same request, but for the order of keys inside its context. */
  ghost predicate SameRequest(r: Request, s: Request) {
    && r == s.(context := r.context)
    && MeaningOf(Obj(r.context)) == MeaningOf(Obj(s.context))
  }

  lemma StringsMean(a: seq<string>, b: seq<string>)
    requires MeaningOf(Arr(Strings(a))) == MeaningOf(Arr(Strings(b)))
    ensures a == b
  {
    assert |MeaningOfItems(Strings(a))| == |a| && |MeaningOfItems(Strings(b))| == |b|;
    forall i | 0 <= i < |a| ensures a[i] == b[i] {
      ItemMeaning(Strings(a), i);
      ItemMeaning(Strings(b), i);
    }
  }

  /** Two objects with the same keys in the same order mean the same exactly if their values do, one by one. */
  lemma FieldsMeanAlike(a: seq<Field>, b: seq<Field>, i: nat)
    requires DistinctKeys(a) && DistinctKeys(b) && |a| == |b| && forall j | 0 <= j < |a| :: a[j].key == b[j].key
    requires MeaningOfFields(a) == MeaningOfFields(b) && i < |a|
    ensures MeaningOf(a[i].value) == MeaningOf(b[i].value)
  {
    FieldShows(a, i);
    FieldShows(b, i);
  }

  lemma IdentityMeans(r: Request, s: Request)
    requires MeaningOf(IdentityJson(r)) == MeaningOf(IdentityJson(s))
    ensures r.executionId == s.executionId && r.tenantId == s.tenantId && r.actorId == s.actorId
    ensures r.agentId == s.agentId && r.agentVersion == s.agentVersion
  {
    var a, b := IdentityJson(r).fields, IdentityJson(s).fields;
    forall i | 0 <= i < 5 ensures MeaningOf(a[i].value) == MeaningOf(b[i].value) { FieldsMeanAlike(a, b, i); }
    assert MeaningOf(a[0].value) == MStr(r.executionId) && MeaningOf(a[1].value) == MStr(r.tenantId);
    assert MeaningOf(a[2].value) == MStr(r.actorId) && MeaningOf(a[3].value) == MStr(r.agentId);
    assert MeaningOf(a[4].value) == MStr(r.agentVersion);
  }

  function RequestKey(i: nat): string {
    match i
    case 0 => "identity"
    case 1 => "objective"
    case 2 => "context"
    case 3 => "policySet"
    case 4 => "requestedTools"
    case 5 => "requiresApproval"
    case 6 => "evidenceRequired"
    case _ => "createdAt"
  }

  lemma RequestKeys(r: Request)
    ensures |RequestJson(r).fields| == 8 && DistinctKeys(RequestJson(r).fields)
    ensures forall j | 0 <= j < 8 :: RequestJson(r).fields[j].key == RequestKey(j)
  {
    hide IdentityJson, Strings;
  }

  lemma FieldMeans(r: Request, s: Request, i: nat)
    requires MeaningOf(RequestJson(r)) == MeaningOf(RequestJson(s)) && i < 8
    ensures MeaningOf(RequestJson(r).fields[i].value) == MeaningOf(RequestJson(s).fields[i].value)
  {
    RequestKeys(r);
    RequestKeys(s);
    assert RequestJson(r).Obj? && RequestJson(s).Obj?;
    hide RequestJson, DistinctKeys, RequestKey;
    FieldsMeanAlike(RequestJson(r).fields, RequestJson(s).fields, i);
  }

  lemma PlainFieldsMean(r: Request, s: Request)
    requires MeaningOf(RequestJson(r)) == MeaningOf(RequestJson(s))
    ensures r.objective == s.objective && r.createdAt == s.createdAt
    ensures r.requiresApproval == s.requiresApproval && r.evidenceRequired == s.evidenceRequired
  {
    FieldMeans(r, s, 1);
    FieldMeans(r, s, 5);
    FieldMeans(r, s, 6);
    FieldMeans(r, s, 7);
    hide IdentityJson, Strings, MeaningOfFields;
  }

  /** The meaning of a request's JSON fixes the request, but for the order of its context's keys. */
  lemma MeaningFixesRequest(r: Request, s: Request)
    requires MeaningOf(RequestJson(r)) == MeaningOf(RequestJson(s))
    ensures SameRequest(r, s)
  {
    PlainFieldsMean(r, s);
    FieldMeans(r, s, 0);
    FieldMeans(r, s, 2);
    FieldMeans(r, s, 3);
    FieldMeans(r, s, 4);
    hide IdentityJson, Strings, MeaningOf;
    IdentityMeans(r, s);
    StringsMean(r.policySet, s.policySet);
    StringsMean(r.requestedTools, s.requestedTools);
  }

  lemma SameRequestMeansAlike(r: Request, s: Request)
    requires SameRequest(r, s)
    ensures MeaningOf(RequestJson(r)) == MeaningOf(RequestJson(s))
  {
    var a, b := RequestJson(r).fields, RequestJson(s).fields;
    hide IdentityJson, Strings;
    assert IdentityJson(r) == IdentityJson(s) by { SameIdentity(r, s); }
    forall j | 0 <= j < |a| ensures a[j].key == b[j].key && MeaningOf(a[j].value) == MeaningOf(b[j].value) {
      if j != 2 { assert a[j] == b[j]; }
    }
    SameKeysSameMeaning(a, b);
  }

  lemma SameIdentity(r: Request, s: Request)
    requires r == s.(context := r.context)
    ensures IdentityJson(r) == IdentityJson(s)
  {
  }

  /** With a collision-free digest, requests with one hash are the same request; so they name one execution. */
  lemma HashFixesRequest(env: Env, r: Request, s: Request)
    requires CollisionFree(env) && Valid(r) && Valid(s)
    requires RequestHash(env, r) == RequestHash(env, s)
    ensures SameRequest(r, s) && r.executionId == s.executionId
  {
    hide MeaningOf, Canonicalize, PrintThen, RequestJson, SameRequest, WellFormed, Valid;
    RequestJsonWellFormed(r);
    RequestJsonWellFormed(s);
    CanonicalTextDeterminesMeaning(env.leq, RequestJson(r), RequestJson(s));
    MeaningFixesRequest(r, s);
    SameNamesExecution(r, s);
  }

  lemma SameNamesExecution(r: Request, s: Request)
    requires SameRequest(r, s)
    ensures r.executionId == s.executionId
  {
  }

  // ---------- when a retry hashes alike ----------

  /** The names that every request has do not tie with one another. */
  predicate FixedNamesApart(leq: KeyOrder) {
    && (forall i, j | 0 <= i < j < 8 :: !(leq(RequestKey(i), RequestKey(j)) && leq(RequestKey(j), RequestKey(i))))
    && (forall i, j | 0 <= i < j < 5 :: !(leq(IdentityKey(i), IdentityKey(j)) && leq(IdentityKey(j), IdentityKey(i))))
  }

  function IdentityKey(i: nat): string {
    match i
    case 0 => "executionId"
    case 1 => "tenantId"
    case 2 => "actorId"
    case 3 => "agentId"
    case _ => "agentVersion"
  }

  lemma IdentityTieFree(leq: KeyOrder, r: Request)
    requires FixedNamesApart(leq)
    ensures TieFree(leq, IdentityJson(r))
  {
    var fields := IdentityJson(r).fields;
    assert |fields| == 5 && forall j | 0 <= j < 5 :: fields[j].key == IdentityKey(j) && fields[j].value.Str?;
    hide IdentityKey, RequestKey, IsIndex, IdentityJson;
    assert NamesApart(leq, fields);
  }

  lemma StringsTieFree(leq: KeyOrder, items: seq<string>)
    ensures TieFree(leq, Arr(Strings(items)))
  {
  }

  lemma RequestNamesApart(leq: KeyOrder, r: Request)
    requires FixedNamesApart(leq)
    ensures NamesApart(leq, RequestJson(r).fields)
  {
    RequestKeys(r);
    hide IdentityKey, RequestKey, IsIndex, RequestJson;
  }

  /** Apart from the fixed names, only the context can hold ties. */
  lemma RequestTieFree(leq: KeyOrder, r: Request)
    requires FixedNamesApart(leq) && TieFree(leq, Obj(r.context))
    ensures TieFree(leq, RequestJson(r))
  {
    RequestNamesApart(leq, r);
    IdentityTieFree(leq, r);
    StringsTieFree(leq, r.policySet);
    StringsTieFree(leq, r.requestedTools);
    RequestValues(r);
    hide NamesApart, FixedNamesApart, RequestJson;
    var fields := RequestJson(r).fields;
    forall i | 0 <= i < |fields| ensures TieFree(leq, fields[i].value) {
      if fields[i].value.Str? || fields[i].value.Bool? {
      } else {
        hide TieFree;
      }
    }
  }

  lemma RequestValues(r: Request)
    ensures RequestJson(r).Obj? && |RequestJson(r).fields| == 8
    ensures forall i | 0 <= i < 8 :: var v := RequestJson(r).fields[i].value;
      v.Str? || v.Bool? || v == IdentityJson(r) || v == Obj(r.context) || v == Arr(Strings(r.policySet))
        || v == Arr(Strings(r.requestedTools))
  {
    hide IdentityJson, Strings;
  }

  /** A retry of a request without ties: it hashes alike exactly if it is the same request. */
  lemma HashIdentifiesRequests(env: Env, r: Request, s: Request)
    requires CollisionFree(env) && TotalPreorder(env.leq) && Valid(r) && Valid(s)
    requires FixedNamesApart(env.leq) && TieFree(env.leq, Obj(r.context))
    ensures RequestHash(env, r) == RequestHash(env, s) <==> SameRequest(r, s)
  {
    hide MeaningOf, Canonicalize, PrintThen, RequestJson, SameRequest, WellFormed, Valid, TotalPreorder;
    hide TieFree, FixedNamesApart;
    if SameRequest(r, s) {
      RequestJsonWellFormed(r);
      RequestJsonWellFormed(s);
      SameRequestMeansAlike(r, s);
      RequestTieFree(env.leq, r);
      CanonicalFormUnique(env.leq, RequestJson(r), RequestJson(s));
    }
    if RequestHash(env, r) == RequestHash(env, s) {
      HashFixesRequest(env, r, s);
    }
  }

  /** A tie in the context: the same request, with two keys in another order, hashes differently. */
  lemma TieHashesApart(env: Env, r: Request) returns (s: Request)
    requires CollisionFree(env) && Valid(r) && !TieFree(env.leq, Obj(r.context))
    ensures Valid(s) && SameRequest(r, s) && RequestHash(env, s) != RequestHash(env, r)
  {
    var v := TieShows(env.leq, Obj(r.context));
    assert v.Obj?;
    s := r.(context := v.fields);
    hide MeaningOf, Canonicalize, PrintThen, WellFormed, TieFree;
    RequestJsonWellFormed(r);
    ContextReplaced(r, v.fields);
    FieldShowsThrough(env.leq, RequestJson(r).fields, 2, v);
    PrintInjective(Canonicalize(env.leq, RequestJson(s)), Canonicalize(env.leq, RequestJson(r)));
  }

  lemma ContextReplaced(r: Request, context: seq<Field>)
    ensures RequestJson(r).Obj? && |RequestJson(r).fields| == 8
    ensures RequestJson(r).fields[2].value == Obj(r.context)
    ensures RequestJson(r.(context := context))
      == Obj(RequestJson(r).fields[2 := Field(RequestJson(r).fields[2].key, Obj(context))])
  {
  }

  /** Every retry of `r` hashes alike if and only if no object in its context has two names that tie. */
  lemma RetriesHashAlikeIff(env: Env, r: Request)
    requires CollisionFree(env) && TotalPreorder(env.leq) && FixedNamesApart(env.leq) && Valid(r)
    ensures (forall s | Valid(s) && SameRequest(r, s) :: RequestHash(env, s) == RequestHash(env, r))
      <==> TieFree(env.leq, Obj(r.context))
  {
    hide RequestHash, CollisionFree, TotalPreorder, FixedNamesApart, Valid, SameRequest, TieFree;
    if TieFree(env.leq, Obj(r.context)) {
      forall s | Valid(s) && SameRequest(r, s) ensures RequestHash(env, s) == RequestHash(env, r) {
        HashIdentifiesRequests(env, r, s);
      }
    } else {
      var s := TieHashesApart(env, r);
    }
  }
}
