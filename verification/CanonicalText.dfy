/**
 * The text that is hashed, in terms of what reads it: it is JSON for a value of the same meaning whose
 * keys stand in order at every depth, and for a request that value has exactly the fields of the schema.
 */
module CanonicalText {
  import opened Base
  import opened JsonText
  import opened JsonReader
  import opened CanonicalJson
  import opened Requests

  // ---------- keys in order ----------

  /** The decimal numerals that a JavaScript object lists first: 0 to 4294967294. */
  lemma IndexNames(key: string)
    ensures IsIndex(key) <==> exists n: nat :: n < 4294967295 && NatText(n) == key
  {
    if IsIndex(key) {
      assert NatText(DigitsValue(key)) == key;
    }
    if n: nat :| n < 4294967295 && NatText(n) == key {
      DigitsRoundTrip(n);
    }
  }

  /** `a` may stand before `b`: numerals first and ascending, then names as they compare. */
  predicate MayPrecede(leq: KeyOrder, a: string, b: string) {
    if IsIndex(a) then IsIndex(b) ==> DigitsValue(a) < DigitsValue(b)
    else !IsIndex(b) && leq(a, b)
  }

  /** Keys stand in order in every object inside `v`. */
  predicate InOrder(leq: KeyOrder, v: Json) {
    match v
    case Arr(items) => forall i | 0 <= i < |items| :: InOrder(leq, items[i])
    case Obj(fields) =>
      && (forall i, j | 0 <= i < j < |fields| :: MayPrecede(leq, fields[i].key, fields[j].key))
      && (forall i | 0 <= i < |fields| :: InOrder(leq, fields[i].value))
    case _ => true
  }

  lemma IndexOrder(a: string, b: string)
    requires IsIndex(a) && IsIndex(b) && a != b && IndexLeq(a, b)
    ensures DigitsValue(a) < DigitsValue(b)
  {
  }

  lemma ArrangedInOrder(leq: KeyOrder, s: seq<Field>, i: nat, j: nat)
    requires TotalPreorder(leq) && DistinctKeys(s) && i < j < |Arrange(leq, s)|
    ensures MayPrecede(leq, Arrange(leq, s)[i].key, Arrange(leq, s)[j].key)
  {
    var t := Arrange(leq, s);
    var a, b := Sort(IndexLeq, Indexed(s)), Sort(leq, Named(s));
    ArrangeIsSortedParts(leq, s);
    ArrangeKeepsEntries(leq, s);
    Partition(s);
    SortMembers(IndexLeq, Indexed(s));
    SortMembers(leq, Named(s));
    SortSorted(IndexLeq, Indexed(s));
    SortSorted(leq, Named(s));
    assert t == a + b;
    hide IsIndex, IndexLeq, TotalPreorder, Arrange;
    if j < |a| {
      assert a[i] in Indexed(s) && a[j] in Indexed(s) && t[i].key != t[j].key;
      IndexOrder(a[i].key, a[j].key);
    } else if i < |a| {
      assert a[i] in Indexed(s) && b[j - |a|] in Named(s);
    } else {
      assert b[i - |a|] in Named(s) && b[j - |a|] in Named(s);
    }
  }

  lemma {:induction false} CanonicalIsInOrder(leq: KeyOrder, v: Json)
    requires TotalPreorder(leq) && WellFormed(v)
    ensures InOrder(leq, Canonicalize(leq, v))
  {
    match v
    case Arr(items) =>
      forall i | 0 <= i < |items| ensures InOrder(leq, CanonicalItems(leq, items)[i]) {
        CanonicalItemAt(leq, items, i);
        CanonicalIsInOrder(leq, items[i]);
      }
    case Obj(fields) =>
      var cs := CanonicalFields(leq, fields);
      var t := Arrange(leq, cs);
      CanonicalFieldsDistinct(leq, fields);
      ArrangeKeepsEntries(leq, cs);
      forall i | 0 <= i < |t| ensures InOrder(leq, t[i].value) {
        assert t[i] in cs;
        var j :| 0 <= j < |cs| && cs[j] == t[i];
        CanonicalFieldAt(leq, fields, j);
        CanonicalIsInOrder(leq, fields[j].value);
      }
      forall i, j | 0 <= i < j < |t| ensures MayPrecede(leq, t[i].key, t[j].key) {
        ArrangedInOrder(leq, cs, i, j);
      }
    case _ =>
  }

  // ---------- canonical text ----------

  /** `text` is JSON, without a superfluous character, for a value of the given meaning with its keys in order. */
  ghost predicate IsCanonicalFor(leq: KeyOrder, text: string, meaning: Meaning) {
    && Parse(text).Reads?
    && var v := Parse(text).value;
       && MeaningOf(v) == meaning && WellFormed(v) && InOrder(leq, v)
       && (forall t: string | Parse(t) == Parse(text) :: |text| <= |t|)
  }

  /** `undefined` has no canonical text; the text of any other value is canonical for its meaning. */
  lemma CanonicalTextIsCanonical(leq: KeyOrder, v: Option<Json>)
    requires TotalPreorder(leq) && (v.Some? ==> WellFormed(v.value))
    ensures match v
      case None => CanonicalJson.CanonicalJson(leq, v).None?
      case Some(u) =>
        var text := CanonicalJson.CanonicalJson(leq, v);
        text.Some? && IsCanonicalFor(leq, text.value, MeaningOf(u))
  {
    if v.Some? {
      var c := Canonicalize(leq, v.value);
      PrintedIsJson(c);
      CanonicalMeaning(leq, v.value);
      CanonicalIsInOrder(leq, v.value);
      hide Canonicalize, MeaningOf, WellFormed, InOrder, Parse, TotalPreorder;
      forall t: string | Parse(t) == Parse(Print(c)) ensures |Print(c)| <= |t| {
        PrintedIsShortest(t);
      }
    }
  }

  // ---------- the text of a request ----------

  /** The object has exactly these names. */
  ghost predicate HasNames(m: Meaning, names: seq<string>) {
    m.MObj? && forall k :: k in m.fields <==> k in names
  }

  /** What stands under a name. */
  function Under(m: Meaning, k: string): Option<Meaning> {
    if m.MObj? && k in m.fields then Some(m.fields[k]) else None
  }

  predicate AreStrings(m: Option<Meaning>, items: seq<string>) {
    && m.Some? && m.value.MArr? && |m.value.items| == |items|
    && forall i | 0 <= i < |items| :: m.value.items[i] == MStr(items[i])
  }

  ghost predicate MeansIdentity(m: Meaning, r: Request) {
    && HasNames(m, ["executionId", "tenantId", "actorId", "agentId", "agentVersion"])
    && Under(m, "executionId") == Some(MStr(r.executionId)) && Under(m, "tenantId") == Some(MStr(r.tenantId))
    && Under(m, "actorId") == Some(MStr(r.actorId)) && Under(m, "agentId") == Some(MStr(r.agentId))
    && Under(m, "agentVersion") == Some(MStr(r.agentVersion))
  }

  /** The meaning of a parsed request: every field of the schema under its name, and nothing else. */
  ghost predicate MeansRequest(m: Meaning, r: Request) {
    && HasNames(m, ["identity", "objective", "context", "policySet", "requestedTools", "requiresApproval",
                    "evidenceRequired", "createdAt"])
    && (match Under(m, "identity") case None => false case Some(identity) => MeansIdentity(identity, r))
    && Under(m, "objective") == Some(MStr(r.objective)) && Under(m, "context") == Some(MeaningOf(Obj(r.context)))
    && AreStrings(Under(m, "policySet"), r.policySet) && AreStrings(Under(m, "requestedTools"), r.requestedTools)
    && Under(m, "requiresApproval") == Some(MBool(r.requiresApproval))
    && Under(m, "evidenceRequired") == Some(MBool(r.evidenceRequired))
    && Under(m, "createdAt") == Some(MStr(r.createdAt))
  }

  lemma NamesOf(fields: seq<Field>, names: seq<string>)
    requires DistinctKeys(fields) && |names| == |fields| && forall i | 0 <= i < |fields| :: names[i] == fields[i].key
    ensures HasNames(MeaningOf(Obj(fields)), names)
  {
    FieldsMeaning(fields);
    forall k | k in MeaningOfFields(fields) ensures k in names {
      var f :| f in fields && f.key == k;
      var i :| 0 <= i < |fields| && fields[i] == f;
      assert names[i] == k;
    }
    forall k | k in names ensures k in MeaningOfFields(fields) {
      var i :| 0 <= i < |names| && names[i] == k;
      assert fields[i] in fields;
    }
  }

  /** Every name stands for the meaning of its value. */
  ghost predicate Shows(m: Meaning, fields: seq<Field>) {
    m.MObj? && forall i | 0 <= i < |fields| ::
      fields[i].key in m.fields && m.fields[fields[i].key] == MeaningOf(fields[i].value)
  }

  lemma ObjShows(fields: seq<Field>)
    requires DistinctKeys(fields)
    ensures Shows(MeaningOf(Obj(fields)), fields)
  {
    forall i | 0 <= i < |fields|
      ensures fields[i].key in MeaningOfFields(fields)
      ensures MeaningOfFields(fields)[fields[i].key] == MeaningOf(fields[i].value)
    {
      FieldShows(fields, i);
    }
  }

  lemma IdentityMeansIdentity(r: Request)
    ensures MeansIdentity(MeaningOf(IdentityJson(r)), r)
  {
    var fields := IdentityJson(r).fields;
    assert |fields| == 5 && DistinctKeys(fields);
    ObjShows(fields);
    assert fields[0] == Field("executionId", Str(r.executionId)) && fields[1] == Field("tenantId", Str(r.tenantId));
    assert fields[2] == Field("actorId", Str(r.actorId)) && fields[3] == Field("agentId", Str(r.agentId));
    assert fields[4] == Field("agentVersion", Str(r.agentVersion));
    NamesOf(fields, ["executionId", "tenantId", "actorId", "agentId", "agentVersion"]);
    hide IdentityJson, MeaningOfFields, DistinctKeys, HasNames;
  }

  lemma StringsAreStrings(items: seq<string>)
    ensures AreStrings(Some(MeaningOf(Arr(Strings(items)))), items)
  {
    forall i | 0 <= i < |items| ensures MeaningOfItems(Strings(items))[i] == MStr(items[i]) {
      ItemMeaning(Strings(items), i);
    }
  }

  lemma RequestFields(r: Request)
    ensures var fields := RequestJson(r).fields;
      && RequestJson(r) == Obj(fields) && |fields| == 8
      && fields[0] == Field("identity", IdentityJson(r)) && fields[1] == Field("objective", Str(r.objective))
      && fields[2] == Field("context", Obj(r.context)) && fields[3] == Field("policySet", Arr(Strings(r.policySet)))
      && fields[4] == Field("requestedTools", Arr(Strings(r.requestedTools)))
      && fields[5] == Field("requiresApproval", Bool(r.requiresApproval))
      && fields[6] == Field("evidenceRequired", Bool(r.evidenceRequired))
      && fields[7] == Field("createdAt", Str(r.createdAt))
  {
    hide IdentityJson, Strings;
  }

  lemma RequestNames(r: Request)
    ensures HasNames(MeaningOf(RequestJson(r)), ["identity", "objective", "context", "policySet", "requestedTools",
      "requiresApproval", "evidenceRequired", "createdAt"])
  {
    RequestFields(r);
    RequestKeys(r);
    hide RequestJson, IdentityJson, Strings, MeaningOfFields, DistinctKeys, RequestKey, HasNames;
    NamesOf(RequestJson(r).fields, ["identity", "objective", "context", "policySet", "requestedTools",
      "requiresApproval", "evidenceRequired", "createdAt"]);
  }

  /** What stands under the `i`-th name. */
  lemma RequestShows(r: Request, i: nat)
    requires i < 8
    ensures var fields, m := RequestJson(r).fields, MeaningOf(RequestJson(r));
      && RequestJson(r) == Obj(fields) && |fields| == 8 && m.MObj?
      && fields[i].key in m.fields && m.fields[fields[i].key] == MeaningOf(fields[i].value)
  {
    RequestFields(r);
    RequestKeys(r);
    hide RequestJson, IdentityJson, Strings, MeaningOfFields, DistinctKeys, RequestKey;
    ObjShows(RequestJson(r).fields);
  }

  lemma JsonMeansRequest(r: Request)
    ensures MeansRequest(MeaningOf(RequestJson(r)), r)
  {
    IdentityMeansIdentity(r);
    StringsAreStrings(r.policySet);
    StringsAreStrings(r.requestedTools);
    RequestFields(r);
    RequestNames(r);
    hide RequestJson, IdentityJson, Strings, MeaningOfFields, DistinctKeys, RequestKey, MeansIdentity, AreStrings;
    hide HasNames;
    RequestShows(r, 0);
    RequestShows(r, 1);
    RequestShows(r, 2);
    RequestShows(r, 3);
    RequestShows(r, 4);
    RequestShows(r, 5);
    RequestShows(r, 6);
    RequestShows(r, 7);
  }

  /** The hash of a request is the digest of a canonical text for exactly that request. */
  lemma HashedText(env: Env, r: Request) returns (text: string, meaning: Meaning)
    requires TotalPreorder(env.leq) && Valid(r)
    ensures RequestHash(env, r) == env.digest(text)
    ensures IsCanonicalFor(env.leq, text, meaning) && MeansRequest(meaning, r)
  {
    RequestJsonWellFormed(r);
    JsonMeansRequest(r);
    hide MeaningOf, WellFormed, Canonicalize, RequestJson, TotalPreorder, MeansRequest, IsCanonicalFor;
    CanonicalTextIsCanonical(env.leq, Some(RequestJson(r)));
    text, meaning := CanonicalJson.CanonicalJson(env.leq, Some(RequestJson(r))).value, MeaningOf(RequestJson(r));
  }
}
