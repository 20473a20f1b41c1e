/**
 * The store: the tables as fields that its methods update in place, and the transaction that can
 * put them back.  Every method says what it leaves in the tables as a whole.
 */
module Stores {
  import opened Base
  import opened StateMachine
  import opened Requests
  import opened Tables
  import opened Kernel

  /** How the store settles an approval: as decided, as expired (recorded, but raised as an error), or not at all. */
  datatype Settlement = Settles(status: ApprovalStatus) | Lapses | Refuses(error: Error)

  class Store {
    var tenants: set<TenantId>
    var execs: map<ExecId, ExecRow>
    var events: map<EventKey, Event>
    var approvals: map<ApprovalId, ApprovalRow>
    var dispatches: map<ExecId, DispatchRow>
    var idempotency: map<IdemKey, IdemRow>
    var audit: seq<AuditRow>
    var atBegin: Db

    function Tables(): Db
      reads this
    {
      Db(tenants, execs, events, approvals, dispatches, idempotency, audit)
    }

    constructor ()
      ensures Tables() == NO_ROWS
    {
      tenants, execs, events, approvals := {}, map[], map[], map[];
      dispatches, idempotency, audit, atBegin := map[], map[], [], NO_ROWS;
    }

    // ---------- transactions ----------

    method Begin()
      modifies `atBegin
      ensures atBegin == Tables()
    {
      atBegin := Tables();
    }

    method Rollback()
      modifies this
      ensures Tables() == old(atBegin)
    {
      tenants, execs, events, approvals := atBegin.tenants, atBegin.execs, atBegin.events, atBegin.approvals;
      dispatches, idempotency, audit := atBegin.dispatches, atBegin.idempotency, atBegin.audit;
    }

    // ---------- executions and events ----------

    method EnsureTenant(t: TenantId)
      modifies `tenants
      ensures Tables() == old(Tables()).(tenants := old(tenants) + {t})
    {
      tenants := tenants + {t};
    }

    /** Fails on a taken execution id. */
    method CreateExecution(request: Request, status: Status) returns (ok: bool)
      modifies `execs
      ensures ok <==> request.executionId !in old(execs)
      ensures Tables()
        == if ok then old(Tables()).(execs := old(execs)[request.executionId := ExecRow(request, status)])
                          else old(Tables())
    {
      ok := request.executionId !in execs;
      if ok {
        execs := execs[request.executionId := ExecRow(request, status)];
      }
    }

    method LockExecution(e: ExecId) returns (status: Option<Status>)
      ensures status == if e in execs then Some(execs[e].status) else None
    {
      status := if e in execs then Some(execs[e].status) else None;
    }

    method SetStatus(e: ExecId, status: Status)
      requires e in execs
      modifies `execs
      ensures Tables() == WithStatus(old(Tables()), e, status)
    {
      execs := execs[e := execs[e].(status := status)];
    }

    /** Fails on a taken (execution, sequence) pair. */
    method AppendEvent(e: ExecId, sequence: nat, ev: Event) returns (ok: bool)
      modifies `events
      ensures ok <==> EventKey(e, sequence) !in old(events)
      ensures Tables()
        == if ok then old(Tables()).(events := old(events)[EventKey(e, sequence) := ev]) else old(Tables())
    {
      ok := EventKey(e, sequence) !in events;
      if ok {
        events := events[EventKey(e, sequence) := ev];
      }
    }

    /** `coalesce(max(sequence), 0)`. */
    method MaxSequence(e: ExecId) returns (n: nat)
      ensures n == MaxSeq(events, e)
    {
      n := 0;
      var rest := events.Keys;
      while rest != {}
        invariant rest <= events.Keys
        invariant n == 0 || EventKey(e, n) in events
        invariant forall k: nat | EventKey(e, k) in events && EventKey(e, k) !in rest :: k <= n
        decreases |rest|
      {
        var k :| k in rest;
        rest := rest - {k};
        if k.exec == e && k.sequence > n {
          n := k.sequence;
        }
      }
      assert IsMaxSeq(events, e, n);
      MaxSeqUnique(events, e, n);
    }

    method LatestEvent(e: ExecId) returns (latest: Option<Event>)
      ensures latest == var n := MaxSeq(events, e);
        if n == 0 then None else Some(events[EventKey(e, n)])
    {
      var n := MaxSequence(e);
      latest := if n == 0 then None else Some(events[EventKey(e, n)]);
    }

    method LookupTenant(e: ExecId) returns (tenant: Option<TenantId>)
      ensures tenant == if e in execs then Some(execs[e].request.tenantId) else None
    {
      tenant := if e in execs then Some(execs[e].request.tenantId) else None;
    }

    method AppendAudit(row: AuditRow)
      modifies `audit
      ensures Tables() == WithAudit(old(Tables()), row)
    {
      audit := audit + [row];
    }

    // ---------- approvals ----------

    method CreateApproval(a: ApprovalId, row: ApprovalRow)
      modifies `approvals
      ensures Tables()
        == if a in old(approvals) then old(Tables()) else old(Tables()).(approvals := old(approvals)[a := row])
    {
      if a !in approvals {
        approvals := approvals[a := row];
      }
    }

    /** Tests in the order of the source: joined row, match, pending, expiry. */
    method DecideApproval(op: Op, clock: int) returns (s: Settlement)
      requires op.Decide? && op.exec in execs && execs[op.exec].status == Approval
      modifies `approvals
      ensures match DecideRefusal(op, old(Tables()))
        case Some(error) => s == Refuses(error) && Tables() == old(Tables())
        case None =>
          var v := VerdictOf(op, old(approvals)[op.approvalId], clock);
          && s == (if v == Expired then Lapses else Settles(v))
          && Tables() == WithVerdict(old(Tables()), op.approvalId, v, VerdictActor(op, v))
    {
      if op.approvalId !in approvals || approvals[op.approvalId].exec !in execs {
        return Refuses(ApprovalNotFound);
      }
      var row := approvals[op.approvalId];
      if row.exec != op.exec || row.tenant != execs[row.exec].request.tenantId {
        return Refuses(ApprovalMismatch);
      }
      if row.status != Pending {
        return Refuses(ApprovalNotPending);
      }
      if row.expiresAt.Some? && row.expiresAt.value <= clock {
        SetVerdict(op.approvalId, Expired, EXPIRY_ACTOR);
        return Lapses;
      }
      var status := if op.approve then Approved else Refused;
      SetVerdict(op.approvalId, status, op.decidedBy);
      return Settles(status);
    }

    method SetVerdict(a: ApprovalId, v: ApprovalStatus, who: string)
      requires a in approvals
      modifies `approvals
      ensures Tables() == WithVerdict(old(Tables()), a, v, who)
    {
      approvals := approvals[a := approvals[a].(status := v, decidedBy := Some(who))];
    }

    /** Marks the rows its selection found. */
    method ClaimExpiredApprovals(claims: seq<ApprovalId>)
      requires RealClaims(Tables(), claims)
      modifies `approvals
      ensures Tables() == Merge(old(Tables()), ExpireWrites(old(Tables()), claims, |claims|))
      ensures approvals.Keys == old(approvals).Keys
      ensures forall a | a in approvals :: approvals[a].exec == old(approvals)[a].exec
    {
      hide Merge;
      ghost var before := Tables();
      MergeNothing(before);
      var i := 0;
      while i < |claims|
        invariant 0 <= i <= |claims|
        invariant Tables() == Merge(before, ExpireWrites(before, claims, i))
        invariant approvals.Keys == before.approvals.Keys
        invariant forall a | a in approvals :: approvals[a].exec == before.approvals[a].exec
      {
        assert claims[i] in approvals;
        MergeVerdict(before, ExpireWrites(before, claims, i), claims[i], Expired, EXPIRY_ACTOR);
        SetVerdict(claims[i], Expired, EXPIRY_ACTOR);
        i := i + 1;
      }
    }

    // ---------- dispatches ----------

    method CreateDispatch(e: ExecId, now: int)
      modifies `dispatches
      ensures Tables() == WithDispatch(old(Tables()), e, now)
    {
      if e !in dispatches {
        dispatches := dispatches[e := NewDispatch(now)];
      }
    }

    /** Leases the rows its selection found. */
    method ClaimDispatches(rows: seq<ExecId>, limit: int, lease: int, now: int)
      requires forall e | e in rows :: e in dispatches
      requires forall i, j | 0 <= i < j < |rows| :: rows[i] != rows[j]
      modifies `dispatches
      ensures Tables() == After(Op.ClaimDispatches(limit, lease), Choice(now, now, [], rows), old(Tables()))
    {
      ghost var before := Tables();
      ghost var op, ch := Op.ClaimDispatches(limit, lease), Choice(now, now, [], rows);
      hide Merge, ClaimWrites;
      var safeLease := Min(Max(lease, 1000), 300000);
      var i := 0;
      while i < |rows|
        invariant 0 <= i <= |rows|
        invariant dispatches.Keys == before.dispatches.Keys && Tables() == before.(dispatches := dispatches)
        invariant forall e | e in dispatches ::
          dispatches[e]
            == if e in rows[..i] then ClaimedRow(before.dispatches[e], now + safeLease) else before.dispatches[e]
      {
        assert rows[..i + 1] == rows[..i] + [rows[i]];
        var row := dispatches[rows[i]];
        dispatches := dispatches[rows[i] :=
          row.(status := Processing, attempts := row.attempts + 1,
               lockedUntil := Some(now + safeLease), lastError := None)];
        i := i + 1;
      }
      assert rows[..|rows|] == rows;
      AfterTouch(op, ch, before);
      assert dispatches == After(op, ch, before).dispatches;
    }

    method MarkDispatchSucceeded(e: ExecId, now: int)
      modifies `dispatches
      ensures Tables() == After(MarkSucceeded(e), Choice(now, now, [], []), old(Tables()))
    {
      if e in dispatches {
        dispatches := dispatches[e :=
          dispatches[e].(status := Dispatched, lockedUntil := None, dispatchedAt := Some(now), lastError := None)];
      }
      AfterTouch(MarkSucceeded(e), Choice(now, now, [], []), old(Tables()));
      assert dispatches == After(MarkSucceeded(e), Choice(now, now, [], []), old(Tables())).dispatches;
    }

    method MarkDispatchFailed(e: ExecId, error: string, now: int)
      modifies `dispatches
      ensures Tables() == After(MarkFailed(e, error), Choice(now, now, [], []), old(Tables()))
    {
      if e in dispatches {
        var kept := if |error| <= 2000 then error else error[..2000];
        dispatches := dispatches[e := dispatches[e].(status := Ready, lockedUntil := None, lastError := Some(kept))];
      }
      AfterTouch(MarkFailed(e, error), Choice(now, now, [], []), old(Tables()));
      assert |error| <= 2000 ==> error[..|error|] == error;
      assert dispatches == After(MarkFailed(e, error), Choice(now, now, [], []), old(Tables())).dispatches;
    }

    // ---------- idempotency ----------

    method FindIdempotency(k: IdemKey) returns (row: Option<IdemRow>)
      ensures row == if k in idempotency then Some(idempotency[k]) else None
    {
      row := if k in idempotency then Some(idempotency[k]) else None;
    }

    method PutIdempotency(k: IdemKey, row: IdemRow)
      modifies `idempotency
      ensures Tables()
        == if k in old(idempotency) then old(Tables()) else old(Tables()).(idempotency := old(idempotency)[k := row])
    {
      if k !in idempotency {
        idempotency := idempotency[k := row];
      }
    }
  }
}
