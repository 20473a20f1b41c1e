/**
 * The tables of the durable kernel, as one value.
 * A transaction's writes are a value of the same shape, laid over the committed tables by `Merge`.
 */
module Tables {
  import opened Base
  import opened StateMachine
  import opened Requests

  type ApprovalId = string

  // 'REJECTED' is called Refused here and 'PENDING' dispatches are Ready, to keep the names apart.
  datatype ApprovalStatus = Pending | Approved | Refused | Expired
  datatype DispatchStatus = Ready | Processing | Dispatched

  datatype Payload =
    | Opened(objective: string, agentId: string, agentVersion: string)
    | Denied
    | Verdict(approval: ApprovalId, verdict: ApprovalStatus)
    | Note(text: string)

  datatype EventKey = EventKey(exec: ExecId, sequence: nat)
  datatype IdemKey = IdemKey(tenant: TenantId, key: string)

  datatype ExecRow = ExecRow(request: Request, status: Status)
  datatype Event = Event(status: Status, actor: string, payload: Payload)
  datatype ApprovalRow = ApprovalRow(
    exec: ExecId, tenant: TenantId, requestedBy: string,
    status: ApprovalStatus, decidedBy: Option<string>, expiresAt: Option<int>)
  datatype DispatchRow = DispatchRow(
    queue: string, status: DispatchStatus, attempts: nat, lockedUntil: Option<int>,
    lastError: Option<string>, createdAt: int, dispatchedAt: Option<int>)
  datatype IdemRow = IdemRow(exec: ExecId, hash: string)
  datatype AuditRow = AuditRow(exec: ExecId, tenant: TenantId, action: string, actor: string, allowed: bool)

  datatype Db = Db(
    tenants: set<TenantId>,
    execs: map<ExecId, ExecRow>,
    events: map<EventKey, Event>,
    approvals: map<ApprovalId, ApprovalRow>,
    dispatches: map<ExecId, DispatchRow>,
    idempotency: map<IdemKey, IdemRow>,
    audit: seq<AuditRow>)

  const NO_ROWS := Db({}, map[], map[], map[], map[], map[], [])

  /** Tables with a transaction's inserts and updates laid over them; nothing is ever deleted. */
  function Merge(db: Db, w: Db): Db {
    Db(db.tenants + w.tenants,
       db.execs + w.execs,
       db.events + w.events,
       db.approvals + w.approvals,
       db.dispatches + w.dispatches,
       db.idempotency + w.idempotency,
       db.audit + w.audit)
  }

  lemma MergeNothing(db: Db)
    ensures Merge(db, NO_ROWS) == db
  {
  }

  // ---------- sequence numbers ----------

  ghost predicate IsMaxSeq(events: map<EventKey, Event>, e: ExecId, n: nat) {
    && (n == 0 || EventKey(e, n) in events)
    && (forall k: nat :: EventKey(e, k) in events ==> k <= n)
  }

  lemma MaxSeqExists(events: map<EventKey, Event>, e: ExecId)
    ensures exists n: nat :: IsMaxSeq(events, e, n)
    decreases |events.Keys|
  {
    if k: nat :| EventKey(e, k) in events {
      var rest := events - {EventKey(e, k)};
      assert rest.Keys < events.Keys;
      MaxSeqExists(rest, e);
      var n: nat :| IsMaxSeq(rest, e, n);
      assert forall j: nat :: EventKey(e, j) in events ==> j == k || EventKey(e, j) in rest;
      assert IsMaxSeq(events, e, if n < k then k else n);
    } else {
      assert IsMaxSeq(events, e, 0);
    }
  }

  /** `coalesce(max(sequence), 0)` over the events of one execution. */
  ghost function MaxSeq(events: map<EventKey, Event>, e: ExecId): (n: nat)
    ensures IsMaxSeq(events, e, n)
  {
    MaxSeqExists(events, e);
    var n: nat :| IsMaxSeq(events, e, n);
    n
  }

  lemma MaxSeqUnique(events: map<EventKey, Event>, e: ExecId, n: nat)
    requires IsMaxSeq(events, e, n)
    ensures MaxSeq(events, e) == n
  {
    var m := MaxSeq(events, e);
    assert m <= n && n <= m;
  }

  /** Two event tables that hold the same keys for an execution agree on its maximum. */
  lemma MaxSeqSame(a: map<EventKey, Event>, b: map<EventKey, Event>, e: ExecId)
    requires forall k: nat :: EventKey(e, k) in a <==> EventKey(e, k) in b
    ensures MaxSeq(a, e) == MaxSeq(b, e)
  {
    assert IsMaxSeq(b, e, MaxSeq(a, e));
    MaxSeqUnique(b, e, MaxSeq(a, e));
  }

  /** The next number is free, and using it makes it the maximum of that execution only. */
  lemma MaxSeqNext(events: map<EventKey, Event>, e: ExecId, ev: Event)
    ensures var n := MaxSeq(events, e);
      && EventKey(e, n + 1) !in events
      && MaxSeq(events[EventKey(e, n + 1) := ev], e) == n + 1
      && forall d :: d != e ==> MaxSeq(events[EventKey(e, n + 1) := ev], d) == MaxSeq(events, d)
  {
    var n := MaxSeq(events, e);
    var after := events[EventKey(e, n + 1) := ev];
    assert IsMaxSeq(after, e, n + 1);
    MaxSeqUnique(after, e, n + 1);
    forall d | d != e ensures MaxSeq(after, d) == MaxSeq(events, d) {
      MaxSeqSame(after, events, d);
    }
  }
}
