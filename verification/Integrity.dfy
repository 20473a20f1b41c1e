/**
 * The invariant that ties the tables together, and its preservation by every service call,
 * `transition` and `fail` with arbitrary arguments included.
 */
module Integrity {
  import opened Base
  import opened StateMachine
  import opened Requests
  import opened Tables
  import opened Kernel

  // ---------- the event log ----------

  ghost function Length(db: Db, e: ExecId): nat {
    MaxSeq(db.events, e)
  }

  /** Sequences are exactly 1..n, start as policy decided, follow allowed edges, and end at the row's status. */
  ghost predicate LogOk(db: Db, e: ExecId)
    requires e in db.execs
  {
    var n := Length(db, e);
    && n >= 1
    && (forall k: nat :: EventKey(e, k) in db.events <==> 1 <= k <= n)
    && db.events[EventKey(e, 1)].status == InitialStatus(db.execs[e].request)
    && db.events[EventKey(e, n)].status == db.execs[e].status
    && (forall k: nat | 1 <= k < n ::
         CanTransition(db.events[EventKey(e, k)].status, db.events[EventKey(e, k + 1)].status))
  }

  ghost predicate ExecutionOk(db: Db, e: ExecId)
    requires e in db.execs
  {
    && LogOk(db, e)
    && db.execs[e].request.executionId == e
    && db.execs[e].request.tenantId in db.tenants
    && Valid(db.execs[e].request)
  }

  ghost predicate ExecutionsOk(db: Db) {
    && (forall e | e in db.execs :: ExecutionOk(db, e))
    && (forall k | k in db.events :: k.exec in db.execs)
  }

  /** The statuses an execution has had, oldest first. */
  ghost function Log(db: Db, e: ExecId): (log: seq<Status>)
    requires e in db.execs && LogOk(db, e)
    ensures |log| == Length(db, e)
  {
    seq(Length(db, e), i requires 0 <= i < Length(db, e) => db.events[EventKey(e, i + 1)].status)
  }

  lemma LogIsPath(db: Db, e: ExecId)
    requires e in db.execs && LogOk(db, e)
    ensures Path(Log(db, e))
  {
    forall i | 0 < i < Length(db, e) ensures CanTransition(Log(db, e)[i - 1], Log(db, e)[i]) {
      assert CanTransition(db.events[EventKey(e, i)].status, db.events[EventKey(e, i + 1)].status);
    }
  }

  /** Every durable log has at most thirteen events, repeats no status, and stops at a terminal one. */
  lemma DurableLogIsShortAndSimple(db: Db, e: ExecId)
    requires e in db.execs && LogOk(db, e)
    ensures Length(db, e) <= 13
    ensures var log := Log(db, e);
      && (forall i, j | 0 <= i < j < |log| :: log[i] != log[j])
      && (forall i | 0 <= i < |log| && Terminal(log[i]) :: i == |log| - 1)
  {
    LogIsPath(db, e);
    PathIsShortAndSimple(Log(db, e));
  }

  // ---------- approvals, dispatches, idempotency ----------

  ghost predicate BeginsWith(db: Db, e: ExecId, s: Status) {
    EventKey(e, 1) in db.events && db.events[EventKey(e, 1)].status == s
  }

  ghost predicate HasApproval(db: Db, e: ExecId) {
    exists a :: a in db.approvals && db.approvals[a].exec == e
  }

  ghost predicate HasApproved(db: Db, e: ExecId) {
    exists a :: a in db.approvals && db.approvals[a].exec == e && db.approvals[a].status == Approved
  }

  ghost predicate ApprovalOk(db: Db, a: ApprovalId)
    requires a in db.approvals
  {
    var row := db.approvals[a];
    && row.exec in db.execs
    && row.tenant == db.execs[row.exec].request.tenantId
    && row.expiresAt.Some?
    && BeginsWith(db, row.exec, Approval)
    && (row.status == Approved ==>
          EventKey(row.exec, 2) in db.events && db.events[EventKey(row.exec, 2)].status == Execution)
  }

  ghost predicate ApprovalsOk(db: Db) {
    && (forall a | a in db.approvals :: ApprovalOk(db, a))
    && (forall a, b | a in db.approvals && b in db.approvals && db.approvals[a].exec == db.approvals[b].exec :: a == b)
    && (forall e | e in db.execs && BeginsWith(db, e, Approval) :: HasApproval(db, e))
  }

  predicate DispatchRowOk(row: DispatchRow) {
    && row.queue == EXECUTION_QUEUE_NAME
    && (row.status == Processing <==> row.lockedUntil.Some?)
    && (row.status == Dispatched ==> row.dispatchedAt.Some?)
  }

  /** The approval gate: a dispatch exists exactly for open executions and approved ones. */
  ghost predicate GateOk(db: Db, e: ExecId) {
    e in db.dispatches <==> BeginsWith(db, e, Intake) || HasApproved(db, e)
  }

  ghost predicate DispatchesOk(db: Db) {
    && (forall e | e in db.dispatches :: e in db.execs && DispatchRowOk(db.dispatches[e]))
    && (forall e | e in db.execs :: GateOk(db, e))
  }

  ghost predicate IdempotencyOk(env: Env, db: Db) {
    forall k | k in db.idempotency ::
      var row := db.idempotency[k];
      && row.exec in db.execs
      && db.execs[row.exec].request.tenantId == k.tenant
      && row.hash == RequestHash(env, db.execs[row.exec].request)
  }

  ghost predicate Integral(env: Env, db: Db) {
    ExecutionsOk(db) && ApprovalsOk(db) && DispatchesOk(db) && IdempotencyOk(env, db)
  }

  lemma EmptyIsIntegral(env: Env)
    ensures Integral(env, NO_ROWS)
  {
  }

  // ---------- logs under change ----------

  ghost predicate SameLog(t: Db, u: Db, e: ExecId) {
    forall k: nat :: && (EventKey(e, k) in u.events <==> EventKey(e, k) in t.events)
                     && (EventKey(e, k) in t.events ==> u.events[EventKey(e, k)] == t.events[EventKey(e, k)])
  }

  /** The log of `e` is the old one with `ev` at its end. */
  ghost predicate OneMore(t: Db, u: Db, e: ExecId, ev: Event) {
    forall k: nat ::
      && (EventKey(e, k) in u.events <==> EventKey(e, k) in t.events || k == Length(t, e) + 1)
      && (EventKey(e, k) in u.events ==>
            u.events[EventKey(e, k)] == if k == Length(t, e) + 1 then ev else t.events[EventKey(e, k)])
  }

  lemma SameLogOk(t: Db, u: Db, e: ExecId)
    requires e in t.execs && e in u.execs && u.execs[e] == t.execs[e] && SameLog(t, u, e) && LogOk(t, e)
    ensures LogOk(u, e) && Length(u, e) == Length(t, e)
  {
    MaxSeqSame(t.events, u.events, e);
  }

  lemma LongerLogOk(t: Db, e: ExecId, ev: Event)
    requires e in t.execs && LogOk(t, e) && CanTransition(t.execs[e].status, ev.status)
    ensures LogOk(WithMove(t, e, ev), e) && Length(WithMove(t, e, ev), e) == Length(t, e) + 1
  {
    var u := WithMove(t, e, ev);
    var n := Length(t, e);
    MaxSeqNext(t.events, e, ev);
    assert Length(u, e) == n + 1;
    assert forall k: nat | k <= n :: EventKey(e, k) in t.events ==>
      u.events[EventKey(e, k)] == t.events[EventKey(e, k)];
    forall k: nat | 1 <= k < n + 1
      ensures CanTransition(u.events[EventKey(e, k)].status, u.events[EventKey(e, k + 1)].status)
    {
      if k < n {
        assert CanTransition(t.events[EventKey(e, k)].status, t.events[EventKey(e, k + 1)].status);
      }
    }
  }

  lemma MoveKeepsLog(t: Db, e: ExecId, ev: Event, d: ExecId)
    requires e in t.execs && d in t.execs && ExecutionOk(t, d) && CanTransition(t.execs[e].status, ev.status)
    ensures ExecutionOk(WithMove(t, e, ev), d)
  {
    hide Valid;
    if d == e {
      LongerLogOk(t, e, ev);
    } else {
      SameLogOk(t, WithMove(t, e, ev), d);
    }
  }

  lemma MoveKeepsLogs(t: Db, e: ExecId, ev: Event)
    requires ExecutionsOk(t) && e in t.execs && CanTransition(t.execs[e].status, ev.status)
    ensures ExecutionsOk(WithMove(t, e, ev))
  {
    hide ExecutionOk;
    forall d | d in t.execs ensures ExecutionOk(WithMove(t, e, ev), d) {
      MoveKeepsLog(t, e, ev, d);
    }
  }

  /** Nothing is lost: events stay, executions keep their request. */
  ghost predicate Grows(t: Db, u: Db) {
    && (forall k | k in t.events :: k in u.events && u.events[k] == t.events[k])
    && (forall e | e in t.execs :: e in u.execs && u.execs[e].request == t.execs[e].request)
  }

  lemma GrowsKeepsBeginning(t: Db, u: Db, e: ExecId, s: Status)
    requires Grows(t, u) && e in t.execs && ExecutionOk(t, e)
    ensures BeginsWith(u, e, s) == BeginsWith(t, e, s)
  {
    hide Valid;
    assert EventKey(e, 1) in t.events;
  }

  lemma MoveGrows(t: Db, e: ExecId, ev: Event)
    requires e in t.execs
    ensures Grows(t, WithMove(t, e, ev))
  {
    MaxSeqNext(t.events, e, ev);
  }

  // ---------- tables that only grow ----------

  lemma ApprovalGrows(t: Db, u: Db, a: ApprovalId)
    requires a in t.approvals && a in u.approvals && ApprovalOk(t, a) && Grows(t, u)
    requires u.approvals[a].exec == t.approvals[a].exec && u.approvals[a].tenant == t.approvals[a].tenant
    requires u.approvals[a].expiresAt == t.approvals[a].expiresAt
    requires u.approvals[a].status == Approved ==> t.approvals[a].status == Approved
    ensures ApprovalOk(u, a)
  {
    var e := t.approvals[a].exec;
    assert EventKey(e, 1) in t.events;
    assert t.approvals[a].status == Approved ==> EventKey(e, 2) in t.events;
  }

  lemma SameApprovals(t: Db, u: Db, e: ExecId)
    requires u.approvals == t.approvals
    ensures HasApproval(u, e) == HasApproval(t, e) && HasApproved(u, e) == HasApproved(t, e)
  {
  }

  lemma GrowthKeepsApprovals(t: Db, u: Db)
    requires ExecutionsOk(t) && ApprovalsOk(t) && Grows(t, u) && u.execs.Keys == t.execs.Keys
    requires u.approvals == t.approvals
    ensures ApprovalsOk(u)
  {
    hide ExecutionOk, BeginsWith, Grows, HasApproval;
    forall a | a in u.approvals ensures ApprovalOk(u, a) {
      ApprovalGrows(t, u, a);
    }
    hide ApprovalOk;
    forall e | e in u.execs && BeginsWith(u, e, Approval) ensures HasApproval(u, e) {
      GrowsKeepsBeginning(t, u, e, Approval);
      SameApprovals(t, u, e);
    }
  }

  lemma GrowthKeepsGate(t: Db, u: Db, e: ExecId)
    requires Grows(t, u) && e in t.execs && ExecutionOk(t, e) && GateOk(t, e)
    requires u.approvals == t.approvals && u.dispatches.Keys == t.dispatches.Keys
    ensures GateOk(u, e)
  {
    GrowsKeepsBeginning(t, u, e, Intake);
    SameApprovals(t, u, e);
  }

  lemma GrowthKeepsDispatches(t: Db, u: Db)
    requires ExecutionsOk(t) && DispatchesOk(t) && Grows(t, u) && u.execs.Keys == t.execs.Keys
    requires u.approvals == t.approvals && u.dispatches.Keys == t.dispatches.Keys
    requires forall e | e in u.dispatches :: DispatchRowOk(u.dispatches[e])
    ensures DispatchesOk(u)
  {
    forall e | e in u.execs ensures GateOk(u, e) {
      GrowthKeepsGate(t, u, e);
    }
  }

  lemma GrowthKeepsIdempotency(env: Env, t: Db, u: Db)
    requires IdempotencyOk(env, t) && Grows(t, u) && u.idempotency == t.idempotency
    ensures IdempotencyOk(env, u)
  {
  }

  /** Growth of logs alone, and any rewriting of existing dispatch rows, keep the rest. */
  lemma GrowthKeeps(env: Env, t: Db, u: Db)
    requires Integral(env, t) && ExecutionsOk(u) && Grows(t, u) && u.execs.Keys == t.execs.Keys
    requires u.approvals == t.approvals && u.idempotency == t.idempotency
    requires u.dispatches.Keys == t.dispatches.Keys
    requires forall e | e in u.dispatches :: DispatchRowOk(u.dispatches[e])
    ensures Integral(env, u)
  {
    GrowthKeepsApprovals(t, u);
    GrowthKeepsDispatches(t, u);
    GrowthKeepsIdempotency(env, t, u);
  }

  lemma MoveKeeps(env: Env, t: Db, e: ExecId, ev: Event)
    requires Integral(env, t) && e in t.execs && CanTransition(t.execs[e].status, ev.status)
    ensures Integral(env, WithMove(t, e, ev))
  {
    hide ExecutionOk, ApprovalOk, HasApproval, HasApproved, BeginsWith, Grows, IdempotencyOk;
    MoveGrows(t, e, ev);
    MoveKeepsLogs(t, e, ev);
    GrowthKeeps(env, t, WithMove(t, e, ev));
  }

  lemma SameLogsOk(t: Db, u: Db)
    requires ExecutionsOk(t) && u.tenants >= t.tenants && u.execs == t.execs && u.events == t.events
    ensures ExecutionsOk(u)
  {
    hide LogOk, Valid;
    forall e | e in u.execs ensures ExecutionOk(u, e) {
      assert ExecutionOk(t, e);
      SameLogOk(t, u, e);
    }
  }

  /** Calls that only touch dispatch rows, new tenants or the audit. */
  lemma SameRowsKeep(env: Env, t: Db, u: Db)
    requires Integral(env, t)
    requires u.tenants >= t.tenants && u.execs == t.execs && u.events == t.events && u.approvals == t.approvals
    requires u.dispatches.Keys == t.dispatches.Keys && u.idempotency == t.idempotency
    requires forall e | e in u.dispatches :: DispatchRowOk(u.dispatches[e])
    ensures Integral(env, u)
  {
    SameLogsOk(t, u);
    GrowthKeeps(env, t, u);
  }

  // ---------- verdicts ----------

  /** An execution waiting at its opening approval has exactly one event. */
  lemma WaitingHasOneEvent(db: Db, e: ExecId)
    requires e in db.execs && LogOk(db, e) && BeginsWith(db, e, Approval) && db.execs[e].status == Approval
    ensures Length(db, e) == 1
  {
    DurableLogIsShortAndSimple(db, e);
    assert Log(db, e)[0] == Log(db, e)[|Log(db, e)| - 1];
  }

  lemma VerdictSameApprovals(t: Db, a: ApprovalId, v: ApprovalStatus, who: string, e: ExecId)
    requires a in t.approvals && t.approvals[a].status == Pending
    ensures var u := WithVerdict(t, a, v, who);
      && HasApproval(u, e) == HasApproval(t, e)
      && (v != Approved ==> HasApproved(u, e) == HasApproved(t, e))
      && (v == Approved ==> HasApproved(u, e) == (HasApproved(t, e) || e == t.approvals[a].exec))
  {
    var u := WithVerdict(t, a, v, who);
    assert u.approvals[a].exec == t.approvals[a].exec;
    if b :| b in t.approvals && t.approvals[b].exec == e {
      assert b in u.approvals && u.approvals[b].exec == e;
    }
    if b :| b in t.approvals && t.approvals[b].exec == e && t.approvals[b].status == Approved {
      assert u.approvals[b] == t.approvals[b];
    }
  }

  lemma VerdictKeepsApproval(t: Db, a: ApprovalId, v: ApprovalStatus, who: string, b: ApprovalId)
    requires a in t.approvals && t.approvals[a].status == Pending && v != Approved
    requires b in t.approvals && ApprovalOk(t, b)
    ensures ApprovalOk(WithVerdict(t, a, v, who), b)
  {
    ApprovalGrows(t, WithVerdict(t, a, v, who), b);
  }

  lemma VerdictKeepsApprovals(t: Db, a: ApprovalId, v: ApprovalStatus, who: string)
    requires ExecutionsOk(t) && ApprovalsOk(t) && a in t.approvals && t.approvals[a].status == Pending && v != Approved
    ensures ApprovalsOk(WithVerdict(t, a, v, who))
  {
    hide ExecutionOk, BeginsWith, HasApproval, ApprovalOk;
    var u := WithVerdict(t, a, v, who);
    forall b | b in u.approvals ensures ApprovalOk(u, b) {
      VerdictKeepsApproval(t, a, v, who, b);
    }
    forall e | e in u.execs && BeginsWith(u, e, Approval) ensures HasApproval(u, e) {
      GrowsKeepsBeginning(t, u, e, Approval);
      VerdictSameApprovals(t, a, v, who, e);
    }
  }

  lemma VerdictKeepsDispatches(t: Db, a: ApprovalId, v: ApprovalStatus, who: string)
    requires ExecutionsOk(t) && DispatchesOk(t) && a in t.approvals && t.approvals[a].status == Pending && v != Approved
    ensures DispatchesOk(WithVerdict(t, a, v, who))
  {
    hide ExecutionOk, DispatchRowOk;
    var u := WithVerdict(t, a, v, who);
    forall e | e in u.execs ensures GateOk(u, e) {
      assert GateOk(t, e);
      hide HasApproved, BeginsWith;
      GrowsKeepsBeginning(t, u, e, Intake);
      VerdictSameApprovals(t, a, v, who, e);
    }
  }

  /** Expiring or refusing an approval keeps everything. */
  lemma VerdictKeeps(env: Env, t: Db, a: ApprovalId, v: ApprovalStatus, who: string)
    requires Integral(env, t) && a in t.approvals && t.approvals[a].status == Pending && v != Approved
    ensures Integral(env, WithVerdict(t, a, v, who))
  {
    hide ExecutionOk, ApprovalOk, GateOk, HasApproval;
    SameLogsOk(t, WithVerdict(t, a, v, who));
    VerdictKeepsApprovals(t, a, v, who);
    VerdictKeepsDispatches(t, a, v, who);
  }

  lemma AuditKeeps(env: Env, t: Db, row: AuditRow)
    requires Integral(env, t)
    ensures Integral(env, WithAudit(t, row))
  {
    SameRowsKeep(env, t, WithAudit(t, row));
  }

  /** Rejecting an execution on a verdict keeps everything. */
  lemma RejectionKeeps(env: Env, t: Db, e: ExecId, a: ApprovalId, v: ApprovalStatus, who: string, now: int)
    requires Integral(env, t) && e in t.execs && t.execs[e].status == Approval && v != Approved
    ensures Integral(env, WithConsequence(t, e, a, v, who, now))
  {
    hide Integral, WithMove;
    var ev := VerdictEvent(a, v, who);
    assert CanTransition(Approval, ev.status) by { assert AllowedTransitions(Approval)[1] == Rejected; }
    MoveKeeps(env, t, e, ev);
    AuditKeeps(env, WithMove(t, e, ev), VerdictAudit(t, e, v, who));
  }

  // ---------- approving ----------

  /** The tables after an approval is granted, before the audit row. */
  ghost function Granted(t: Db, e: ExecId, a: ApprovalId, who: string, now: int): Db
    requires a in t.approvals && e in t.execs
  {
    WithDispatch(WithMove(WithVerdict(t, a, Approved, who), e, VerdictEvent(a, Approved, who)), e, now)
  }

  ghost predicate Grantable(t: Db, e: ExecId, a: ApprovalId) {
    && a in t.approvals && t.approvals[a].status == Pending && t.approvals[a].exec == e
    && e in t.execs && t.execs[e].status == Approval
  }

  lemma GrantedLogs(t: Db, e: ExecId, a: ApprovalId, who: string, now: int)
    requires ExecutionsOk(t) && Grantable(t, e, a)
    ensures Grows(t, Granted(t, e, a, who, now)) && ExecutionsOk(Granted(t, e, a, who, now))
  {
    hide ExecutionOk;
    var v, ev := WithVerdict(t, a, Approved, who), VerdictEvent(a, Approved, who);
    var m := WithMove(v, e, ev);
    SameLogsOk(t, v);
    MoveGrows(v, e, ev);
    MoveKeepsLogs(v, e, ev);
    hide WithMove;
    SameLogsOk(m, WithDispatch(m, e, now));
    assert Grows(t, v);
  }

  lemma GrantedSecondEvent(t: Db, e: ExecId, a: ApprovalId, who: string, now: int)
    requires ExecutionsOk(t) && ApprovalsOk(t) && Grantable(t, e, a)
    ensures var u := Granted(t, e, a, who, now);
      EventKey(e, 2) in u.events && u.events[EventKey(e, 2)].status == Execution
  {
    assert ExecutionOk(t, e) && ApprovalOk(t, a);
    hide ExecutionsOk, ApprovalsOk, Valid;
    WaitingHasOneEvent(t, e);
  }

  lemma GrantedApproval(t: Db, e: ExecId, a: ApprovalId, who: string, now: int, b: ApprovalId)
    requires ExecutionsOk(t) && ApprovalsOk(t) && Grantable(t, e, a) && b in t.approvals
    ensures ApprovalOk(Granted(t, e, a, who, now), b)
  {
    hide ExecutionOk;
    var u := Granted(t, e, a, who, now);
    GrantedLogs(t, e, a, who, now);
    assert ApprovalOk(t, b);
    assert u.approvals == WithVerdict(t, a, Approved, who).approvals;
    if b == a {
      GrantedSecondEvent(t, e, a, who, now);
      hide WithMove, Granted;
    } else {
      hide WithMove, Granted, ExecutionsOk, ApprovalsOk;
      ApprovalGrows(t, u, b);
    }
  }

  lemma GrantedGate(t: Db, e: ExecId, a: ApprovalId, who: string, now: int, d: ExecId)
    requires ExecutionsOk(t) && ApprovalsOk(t) && DispatchesOk(t) && Grantable(t, e, a) && d in t.execs
    ensures GateOk(Granted(t, e, a, who, now), d)
    ensures HasApproval(Granted(t, e, a, who, now), d) == HasApproval(t, d)
  {
    hide ExecutionOk;
    var v, u := WithVerdict(t, a, Approved, who), Granted(t, e, a, who, now);
    GrantedLogs(t, e, a, who, now);
    assert GateOk(t, d);
    hide ApprovalOk, HasApproved, HasApproval, BeginsWith;
    GrowsKeepsBeginning(t, u, d, Intake);
    VerdictSameApprovals(t, a, Approved, who, d);
    SameApprovals(v, u, d);
  }

  lemma GrantedShape(t: Db, e: ExecId, a: ApprovalId, who: string, now: int)
    requires Grantable(t, e, a)
    ensures var u := Granted(t, e, a, who, now);
      && u.approvals == WithVerdict(t, a, Approved, who).approvals && u.execs.Keys == t.execs.Keys
      && u.idempotency == t.idempotency && u.dispatches.Keys == t.dispatches.Keys + {e}
      && (forall d | d in u.dispatches ::
            if d in t.dispatches then u.dispatches[d] == t.dispatches[d] else u.dispatches[d] == NewDispatch(now))
  {
  }

  lemma GrantKeepsApprovals(t: Db, e: ExecId, a: ApprovalId, who: string, now: int)
    requires ExecutionsOk(t) && ApprovalsOk(t) && DispatchesOk(t) && Grantable(t, e, a)
    ensures ApprovalsOk(Granted(t, e, a, who, now))
  {
    hide ExecutionOk, ApprovalOk, HasApproval, BeginsWith, DispatchesOk;
    var u := Granted(t, e, a, who, now);
    GrantedLogs(t, e, a, who, now);
    GrantedShape(t, e, a, who, now);
    hide Granted;
    forall b | b in u.approvals ensures ApprovalOk(u, b) { GrantedApproval(t, e, a, who, now, b); }
    forall d | d in u.execs && BeginsWith(u, d, Approval) ensures HasApproval(u, d) {
      GrowsKeepsBeginning(t, u, d, Approval);
      GrantedGate(t, e, a, who, now, d);
    }
  }

  lemma GrantKeepsDispatches(t: Db, e: ExecId, a: ApprovalId, who: string, now: int)
    requires ExecutionsOk(t) && ApprovalsOk(t) && DispatchesOk(t) && Grantable(t, e, a)
    ensures DispatchesOk(Granted(t, e, a, who, now))
  {
    hide ExecutionsOk, ApprovalsOk, GateOk;
    GrantedShape(t, e, a, who, now);
    hide Granted;
    forall d | d in t.execs ensures GateOk(Granted(t, e, a, who, now), d) { GrantedGate(t, e, a, who, now, d); }
  }

  lemma GrantKeeps(env: Env, t: Db, e: ExecId, a: ApprovalId, who: string, now: int)
    requires Integral(env, t) && Grantable(t, e, a)
    ensures Integral(env, Granted(t, e, a, who, now))
  {
    hide ExecutionsOk, ApprovalsOk, DispatchesOk;
    GrantedLogs(t, e, a, who, now);
    GrantKeepsApprovals(t, e, a, who, now);
    GrantKeepsDispatches(t, e, a, who, now);
    GrantedShape(t, e, a, who, now);
    GrowthKeepsIdempotency(env, t, Granted(t, e, a, who, now));
  }

  lemma ApprovalConsequenceKeeps(env: Env, t: Db, e: ExecId, a: ApprovalId, who: string, now: int)
    requires Integral(env, t) && Grantable(t, e, a)
    ensures Integral(env, WithConsequence(WithVerdict(t, a, Approved, who), e, a, Approved, who, now))
  {
    hide Integral;
    GrantKeeps(env, t, e, a, who, now);
    AuditKeeps(env, Granted(t, e, a, who, now), VerdictAudit(WithVerdict(t, a, Approved, who), e, Approved, who));
  }

  lemma UnrefusedIsGrantable(op: Op, db: Db)
    requires op.Decide? && DecideRefusal(op, db).None?
    ensures Grantable(db, op.exec, op.approvalId)
  {
  }

  lemma DecideKeeps(env: Env, op: Op, ch: Choice, db: Db)
    requires Integral(env, db) && op.Decide? && DecideRefusal(op, db).None?
    ensures Integral(env, After(op, ch, db))
  {
    hide Integral, WithConsequence, VerdictOf, VerdictActor, After;
    UnrefusedIsGrantable(op, db);
    AfterDecide(op, ch, db);
    var v := VerdictOf(op, db.approvals[op.approvalId], ch.clock);
    var who := VerdictActor(op, v);
    hide DecideRefusal;
    if v == Approved {
      ApprovalConsequenceKeeps(env, db, op.exec, op.approvalId, who, ch.begun);
    } else {
      VerdictKeeps(env, db, op.approvalId, v, who);
      RejectionKeeps(env, WithVerdict(db, op.approvalId, v, who), op.exec, op.approvalId, v, who, ch.begun);
    }
  }

  // ---------- start ----------

  /** `start` goes on to create: its key is unused and its execution is new. */
  predicate Creates(op: Op, db: Db)
    requires op.Start?
  {
    && !(Keyed(op) && KeyOf(op) in db.idempotency)
    && op.request.executionId !in db.execs
  }

  /** The tables after a creating start, all its rows being new. */
  function StartedTables(op: Op, ch: Choice, db: Db): Db
    requires op.Start?
  {
    var r, s := op.request, InitialStatus(op.request);
    Db(db.tenants + {r.tenantId},
       db.execs[r.executionId := ExecRow(r, s)],
       db.events[EventKey(r.executionId, 1) := FirstEvent(r)],
       if s == Approval then db.approvals[op.approvalId := NewApproval(r, ch.clock)] else db.approvals,
       if s == Intake then db.dispatches[r.executionId := NewDispatch(ch.begun)] else db.dispatches,
       if Keyed(op) then db.idempotency[KeyOf(op) := IdemRow(r.executionId, op.hash)] else db.idempotency,
       db.audit + [PolicyAudit(r)])
  }

  /** A creating start meets no leftovers of its execution. */
  lemma CreatesMeetsNothing(op: Op, db: Db)
    requires op.Start? && ExecutionsOk(db) && DispatchesOk(db) && Creates(op, db)
    ensures EventKey(op.request.executionId, 1) !in db.events && op.request.executionId !in db.dispatches
  {
  }

  /** The rows that a creating start inserts. */
  function StartedRows(op: Op, ch: Choice, db: Db): Db
    requires op.Start?
  {
    var r, s := op.request, InitialStatus(op.request);
    Db(if r.tenantId in db.tenants then {} else {r.tenantId},
       map[r.executionId := ExecRow(r, s)],
       map[EventKey(r.executionId, 1) := FirstEvent(r)],
       if s == Approval then map[op.approvalId := NewApproval(r, ch.clock)] else map[],
       if s == Intake then map[r.executionId := NewDispatch(ch.begun)] else map[],
       if Keyed(op) then map[KeyOf(op) := IdemRow(r.executionId, op.hash)] else map[],
       [PolicyAudit(r)])
  }

  lemma StartWritesShape(op: Op, ch: Choice, db: Db)
    requires op.Start? && Creates(op, db) && FreshIds(op, db) && op.request.executionId !in db.dispatches
    ensures StartWrites(op, ch, db, 5) == StartedRows(op, ch, db)
  {
    hide FirstEvent, PolicyAudit, NewApproval, NewDispatch, Valid, IsSpace, Allowed;
    var r, s := op.request, InitialStatus(op.request);
    var w0 := StartWrites(op, ch, db, 0);
    var w1 := StartWrites(op, ch, db, 1);
    assert w1 == w0.(execs := map[r.executionId := ExecRow(r, s)]);
    var w2 := StartWrites(op, ch, db, 2);
    assert w2 == w1.(events := map[EventKey(r.executionId, 1) := FirstEvent(r)]);
    var w3 := StartWrites(op, ch, db, 3);
    assert w3 == PutGate(db, w2, op, ch);
    var w4 := StartWrites(op, ch, db, 4);
    assert w4 == w3.(audit := [PolicyAudit(r)]);
  }

  lemma MergeStartedRows(op: Op, ch: Choice, db: Db)
    requires op.Start?
    ensures Merge(db, StartedRows(op, ch, db)) == StartedTables(op, ch, db)
  {
    hide FirstEvent, PolicyAudit, NewApproval, NewDispatch, InitialStatus, Keyed;
    var r := op.request;
    MergeOneRow(db.execs, r.executionId, ExecRow(r, InitialStatus(r)));
    MergeOneRow(db.events, EventKey(r.executionId, 1), FirstEvent(r));
    MergeOneRow(db.approvals, op.approvalId, NewApproval(r, ch.clock));
    MergeOneRow(db.dispatches, r.executionId, NewDispatch(ch.begun));
    if Keyed(op) {
      MergeOneRow(db.idempotency, KeyOf(op), IdemRow(r.executionId, op.hash));
    } else {
      assert db.idempotency + map[] == db.idempotency;
    }
  }

  lemma AfterStart(op: Op, ch: Choice, db: Db)
    requires op.Start? && Creates(op, db) && FreshIds(op, db)
    requires EventKey(op.request.executionId, 1) !in db.events && op.request.executionId !in db.dispatches
    ensures Effect(op, ch, db).reply == Started && After(op, ch, db) == StartedTables(op, ch, db)
  {
    hide StartWrites, StartedRows, StartedTables, Merge;
    StartWritesShape(op, ch, db);
    MergeStartedRows(op, ch, db);
  }

  lemma StartedGrows(op: Op, ch: Choice, db: Db)
    requires op.Start? && ExecutionsOk(db) && Creates(op, db)
    ensures Grows(db, StartedTables(op, ch, db))
  {
    hide ExecutionOk;
    assert EventKey(op.request.executionId, 1) !in db.events;
  }

  lemma StartedExecution(op: Op, ch: Choice, db: Db, d: ExecId)
    requires op.Start? && ExecutionsOk(db) && Creates(op, db) && Valid(op.request)
    requires d in StartedTables(op, ch, db).execs
    ensures ExecutionOk(StartedTables(op, ch, db), d)
  {
    hide Valid;
    var u := StartedTables(op, ch, db);
    if d == op.request.executionId {
      assert forall k: nat :: EventKey(d, k) !in db.events;
      assert IsMaxSeq(u.events, d, 1);
      MaxSeqUnique(u.events, d, 1);
    } else {
      assert ExecutionOk(db, d);
      SameLogOk(db, u, d);
    }
  }

  lemma StartedApprovals(op: Op, ch: Choice, db: Db)
    requires op.Start? && ExecutionsOk(db) && ApprovalsOk(db) && Creates(op, db) && FreshIds(op, db)
    ensures forall a | a in StartedTables(op, ch, db).approvals :: ApprovalOk(StartedTables(op, ch, db), a)
  {
    hide ExecutionOk, HasApproval;
    var u := StartedTables(op, ch, db);
    StartedGrows(op, ch, db);
    forall a | a in u.approvals ensures ApprovalOk(u, a) {
      if a in db.approvals {
        ApprovalGrows(db, u, a);
      }
    }
  }

  /** The new execution has a dispatch exactly when it is open, and an approval exactly when it waits. */
  lemma StartedGateHere(op: Op, ch: Choice, db: Db)
    requires op.Start? && ApprovalsOk(db) && Creates(op, db) && op.request.executionId !in db.dispatches
    ensures var u, e := StartedTables(op, ch, db), op.request.executionId;
      && (BeginsWith(u, e, Intake) <==> InitialStatus(op.request) == Intake)
      && (BeginsWith(u, e, Approval) <==> InitialStatus(op.request) == Approval)
      && (e in u.dispatches <==> InitialStatus(op.request) == Intake)
      && (HasApproval(u, e) <==> InitialStatus(op.request) == Approval) && !HasApproved(u, e)
  {
    hide Allowed;
    var u, e := StartedTables(op, ch, db), op.request.executionId;
    assert forall a | a in db.approvals :: ApprovalOk(db, a) && db.approvals[a].exec != e;
    if InitialStatus(op.request) == Approval {
      assert u.approvals[op.approvalId].exec == e;
    }
  }

  lemma StartedGate(op: Op, ch: Choice, db: Db, d: ExecId)
    requires op.Start? && ExecutionsOk(db) && ApprovalsOk(db) && DispatchesOk(db) && Creates(op, db) && FreshIds(op, db)
    requires d in StartedTables(op, ch, db).execs
    ensures GateOk(StartedTables(op, ch, db), d)
    ensures BeginsWith(StartedTables(op, ch, db), d, Approval) ==> HasApproval(StartedTables(op, ch, db), d)
  {
    if d == op.request.executionId {
      CreatesMeetsNothing(op, db);
      hide ExecutionsOk, ApprovalsOk, DispatchesOk, StartedTables, HasApproval, HasApproved, BeginsWith;
      StartedGateHere(op, ch, db);
    } else {
      hide ExecutionsOk, ApprovalsOk, DispatchesOk;
      StartedGateElsewhere(op, ch, db, d);
    }
  }

  lemma StartedGateElsewhere(op: Op, ch: Choice, db: Db, d: ExecId)
    requires op.Start? && ExecutionsOk(db) && ApprovalsOk(db) && DispatchesOk(db) && Creates(op, db) && FreshIds(op, db)
    requires d in db.execs
    ensures GateOk(StartedTables(op, ch, db), d)
    ensures BeginsWith(StartedTables(op, ch, db), d, Approval) ==> HasApproval(StartedTables(op, ch, db), d)
  {
    hide ExecutionOk, DispatchRowOk, ApprovalOk;
    var u := StartedTables(op, ch, db);
    StartedGrows(op, ch, db);
    GrowsKeepsBeginning(db, u, d, Approval);
    GrowsKeepsBeginning(db, u, d, Intake);
    assert GateOk(db, d);
    hide ExecutionsOk, Grows, BeginsWith;
    if a :| a in db.approvals && db.approvals[a].exec == d {
      assert u.approvals[a] == db.approvals[a];
    }
    if a :| a in db.approvals && db.approvals[a].exec == d && db.approvals[a].status == Approved {
      assert u.approvals[a] == db.approvals[a];
    }
  }

  lemma StartedUnique(op: Op, ch: Choice, db: Db)
    requires op.Start? && ApprovalsOk(db) && Creates(op, db) && FreshIds(op, db)
    ensures var u := StartedTables(op, ch, db);
      forall a, b | a in u.approvals && b in u.approvals && u.approvals[a].exec == u.approvals[b].exec :: a == b
  {
    hide HasApproval, BeginsWith;
    assert forall a | a in db.approvals :: ApprovalOk(db, a) && db.approvals[a].exec in db.execs;
  }

  lemma StartedIdempotency(env: Env, op: Op, ch: Choice, db: Db)
    requires op.Start? && IdempotencyOk(env, db) && Creates(op, db) && WellFormedOp(env, op)
    ensures IdempotencyOk(env, StartedTables(op, ch, db))
  {
    hide RequestHash, Valid;
  }

  lemma StartKeeps(env: Env, op: Op, ch: Choice, db: Db)
    requires Integral(env, db) && op.Start? && Creates(op, db) && FreshIds(op, db) && WellFormedOp(env, op)
    ensures Integral(env, StartedTables(op, ch, db))
  {
    hide ExecutionOk, ApprovalOk, GateOk, HasApproval, BeginsWith, RequestHash, Valid, IdempotencyOk;
    var u := StartedTables(op, ch, db);
    assert forall k | k in u.events :: k.exec in u.execs;
    assert forall e | e in u.dispatches :: e in u.execs && DispatchRowOk(u.dispatches[e]);
    hide StartedTables, DispatchRowOk;
    StartedUnique(op, ch, db);
    StartedIdempotency(env, op, ch, db);
    StartedApprovals(op, ch, db);
    forall d | d in u.execs
      ensures ExecutionOk(u, d) && GateOk(u, d) && (BeginsWith(u, d, Approval) ==> HasApproval(u, d))
    {
      StartedExecution(op, ch, db, d);
      StartedGate(op, ch, db, d);
    }
  }

  // ---------- sweep ----------

  lemma {:induction false} ExpiringKeeps(env: Env, db: Db, claims: seq<ApprovalId>, k: nat)
    requires Integral(env, db) && PendingClaims(db, claims) && k <= |claims|
    ensures var t := Merge(db, ExpireWrites(db, claims, k));
      && Integral(env, t) && t.execs == db.execs && t.approvals.Keys == db.approvals.Keys
      && (forall i | k <= i < |claims| :: t.approvals[claims[i]] == db.approvals[claims[i]])
  {
    hide Integral, Merge;
    if k == 0 {
      MergeNothing(db);
    } else {
      ExpiringKeeps(env, db, claims, k - 1);
      var w := ExpireWrites(db, claims, k - 1);
      MergeVerdict(db, w, claims[k - 1], Expired, EXPIRY_ACTOR);
      VerdictKeeps(env, Merge(db, w), claims[k - 1], Expired, EXPIRY_ACTOR);
    }
  }

  lemma {:induction false} SweepingKeeps(env: Env, db: Db, claims: seq<ApprovalId>, k: nat)
    requires Integral(env, db) && PendingClaims(db, claims) && k <= |claims|
    ensures var t := Merge(db, SweepProgress(db, claims, k).writes);
      Integral(env, t) && t.execs.Keys == db.execs.Keys
  {
    hide Integral, WithConsequence, Merge, PutConsequence;
    if k == 0 {
      ExpiringKeeps(env, db, claims, |claims|);
    } else {
      SweepingKeeps(env, db, claims, k - 1);
      var w := SweepProgress(db, claims, k - 1).writes;
      var e := db.approvals[claims[k - 1]].exec;
      if Merge(db, w).execs[e].status == Approval {
        MergeConsequence(db, w, e, claims[k - 1], Expired, EXPIRY_ACTOR, 0);
        RejectionKeeps(env, Merge(db, w), e, claims[k - 1], Expired, EXPIRY_ACTOR, 0);
        ConsequenceShape(Merge(db, w), e, claims[k - 1], Expired, EXPIRY_ACTOR, 0);
      }
    }
  }

  // ---------- every call ----------

  lemma TouchKeeps(env: Env, op: Op, ch: Choice, db: Db)
    requires Integral(env, db) && (op.ClaimDispatches? || op.MarkSucceeded? || op.MarkFailed?)
    ensures Integral(env, After(op, ch, db))
  {
    hide ExecutionsOk, ApprovalsOk, GateOk, IdempotencyOk;
    AfterTouch(op, ch, db);
    hide After;
    SameRowsKeep(env, db, After(op, ch, db));
  }

  lemma AfterMove(op: Op, ch: Choice, db: Db)
    requires op.Transition? || op.Fail?
    requires op.exec in db.execs && Accepts(op, db.execs[op.exec].status)
    ensures After(op, ch, db) == WithMove(db, op.exec, MoveEvent(op))
    ensures CanTransition(db.execs[op.exec].status, MoveEvent(op).status)
  {
    MergeNothing(db);
    MergeMove(db, NO_ROWS, op.exec, MoveEvent(op));
    FailAgreesWithTable(db.execs[op.exec].status);
  }

  lemma StartCallKeeps(env: Env, op: Op, ch: Choice, db: Db)
    requires Integral(env, db) && op.Start? && FreshIds(op, db) && WellFormedOp(env, op)
    ensures Integral(env, After(op, ch, db))
  {
    hide Integral, StartedTables, StartWrites, Merge, WellFormedOp;
    MergeNothing(db);
    if Creates(op, db) {
      assert EventKey(op.request.executionId, 1) !in db.events && op.request.executionId !in db.dispatches by {
        NothingLeftOver(env, op, db);
      }
      AfterStart(op, ch, db);
      StartKeeps(env, op, ch, db);
    } else if Effect(op, ch, db).reply.Reused? {
      ReusedWrites(env, op, ch, db);
    }
  }

  lemma NothingLeftOver(env: Env, op: Op, db: Db)
    requires Integral(env, db) && op.Start? && Creates(op, db)
    ensures EventKey(op.request.executionId, 1) !in db.events && op.request.executionId !in db.dispatches
  {
    CreatesMeetsNothing(op, db);
  }

  /** A reused start writes nothing: its tenant is already there. */
  lemma ReusedWrites(env: Env, op: Op, ch: Choice, db: Db)
    requires Integral(env, db) && op.Start? && Keyed(op) && KeyOf(op) in db.idempotency
    ensures StartWrites(op, ch, db, 0) == NO_ROWS
  {
    hide ApprovalsOk, DispatchesOk, LogOk, Valid, RequestHash;
    var row := db.idempotency[KeyOf(op)];
    assert ExecutionOk(db, row.exec);
  }

  /** Every call keeps the tables integral, whatever its arguments and whatever it replies. */
  lemma CallKeepsIntegrity(env: Env, op: Op, ch: Choice, db: Db)
    requires Integral(env, db) && WellFormedOp(env, op) && FreshIds(op, db) && Fits(op, ch, db)
    ensures Integral(env, After(op, ch, db))
  {
    hide Integral, WellFormedOp, StartEffect, PendingClaims, Merge;
    MergeNothing(db);
    match op
    case Start(_, _, _, _, _) => StartCallKeeps(env, op, ch, db);
    case Decide(_, _, _, _) =>
      if DecideRefusal(op, db).None? { DecideKeeps(env, op, ch, db); }
    case Sweep(_) => SweepingKeeps(env, db, ch.approvals, |ch.approvals|);
    case Transition(_, _, _, _) => MoveCallKeeps(env, op, ch, db);
    case Fail(_, _, _) => MoveCallKeeps(env, op, ch, db);
    case ClaimDispatches(_, _) => TouchKeeps(env, op, ch, db);
    case MarkSucceeded(_) => TouchKeeps(env, op, ch, db);
    case MarkFailed(_, _) => TouchKeeps(env, op, ch, db);
  }

  lemma MoveCallKeeps(env: Env, op: Op, ch: Choice, db: Db)
    requires Integral(env, db) && (op.Transition? || op.Fail?)
    ensures Integral(env, After(op, ch, db))
  {
    hide Integral, Merge;
    MergeNothing(db);
    if op.exec in db.execs && Accepts(op, db.execs[op.exec].status) {
      AfterMove(op, ch, db);
      MoveKeeps(env, db, op.exec, MoveEvent(op));
    }
  }
}
