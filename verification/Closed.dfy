/**
 * The runtime as shipped, in which only the worker moves executions, and only from INTAKE to CONTEXT:
 * approvals are pending exactly while their execution waits, and no log has more than two events.
 * Also here: what a single decision does.
 */
module Closed {
  import opened Base
  import opened StateMachine
  import opened Requests
  import opened Tables
  import opened Kernel
  import opened Integrity
  import opened Sweeps

  // ---------- the three outcomes of a decision ----------

  /**
   * A verdict as the tables show it: the approval's status, one event, one audit row, and a dispatch only
   * for a grant.
   */
  ghost predicate Settled(db: Db, t: Db, e: ExecId, a: ApprovalId, v: ApprovalStatus, who: string, now: int)
    requires e in db.execs && a in db.approvals
  {
    && t.tenants == db.tenants && t.idempotency == db.idempotency
    && t.approvals == db.approvals[a := db.approvals[a].(status := v, decidedBy := Some(who))]
    && t.execs == db.execs[e := db.execs[e].(status := if v == Approved then Execution else Rejected)]
    && OneMore(db, t, e, Event(if v == Approved then Execution else Rejected, who, Verdict(a, v)))
    && (forall d | d != e :: SameLog(db, t, d))
    && t.dispatches ==
       (if v != Approved then db.dispatches
        else db.dispatches[e := DispatchRow(EXECUTION_QUEUE_NAME, Ready, 0, None, None, now, None)])
    && t.audit == db.audit + [
         AuditRow(e, db.execs[e].request.tenantId,
           if v == Expired then "EXECUTION_APPROVAL_EXPIRED" else "EXECUTION_APPROVAL_DECISION", who, v == Approved)]
  }

  /** A clock that has not come to the approval's expiry, if it has one. */
  predicate BeforeExpiry(db: Db, a: ApprovalId, clock: int)
    requires a in db.approvals
  {
    match db.approvals[a].expiresAt
    case None => true
    case Some(t) => clock < t
  }

  /** The three ways a decision can come out. */
  ghost predicate DecisionOutcome(op: Op, ch: Choice, db: Db, reply: Reply, t: Db)
    requires op.Decide?
  {
    match reply
    case Refusal(error) => DecideRefusal(op, db) == Some(error) && t == db
    case ApprovalExpired =>
      && DecideRefusal(op, db).None? && !BeforeExpiry(db, op.approvalId, ch.clock)
      && op.exec !in t.dispatches
      && Settled(db, t, op.exec, op.approvalId, Expired, "logon.approval.expiry", ch.begun)
    case Decided(v) =>
      && DecideRefusal(op, db).None? && BeforeExpiry(db, op.approvalId, ch.clock)
      && op.exec !in db.dispatches && v == (if op.approve then Approved else Refused)
      && Settled(db, t, op.exec, op.approvalId, v, op.decidedBy, ch.begun)
    case _ => false
  }

  /**
   * `decideApproval` either settles the approval as asked, or settles it as expired and still raises
   * the expiry error, or raises another error and changes nothing.
   */
  lemma DecisionOutcomes(env: Env, op: Op, ch: Choice, db: Db)
    requires Integral(env, db) && op.Decide?
    ensures DecisionOutcome(op, ch, db, Effect(op, ch, db).reply, After(op, ch, db))
  {
    hide Integral, After, Settled, DecideRefusal, PutVerdict, PutConsequence;
    if DecideRefusal(op, db).None? {
      DecisionSettles(env, op, ch, db);
      UnrefusedNames(op, db);
      SettledDispatches(op, ch, db, After(op, ch, db));
    } else {
      RefusedChangesNothing(op, ch, db);
    }
  }

  lemma UnrefusedNames(op: Op, db: Db)
    requires op.Decide? && DecideRefusal(op, db).None?
    ensures op.exec in db.execs && op.approvalId in db.approvals
  {
  }

  lemma SettledDispatches(op: Op, ch: Choice, db: Db, t: Db)
    requires op.Decide? && DecideRefusal(op, db).None?
    requires var v := VerdictOf(op, db.approvals[op.approvalId], ch.clock);
      Settled(db, t, op.exec, op.approvalId, v, VerdictActor(op, v), ch.begun)
    ensures VerdictOf(op, db.approvals[op.approvalId], ch.clock) != Approved ==> t.dispatches == db.dispatches
  {
  }

  lemma RefusedChangesNothing(op: Op, ch: Choice, db: Db)
    requires Fits(op, ch, db) && Effect(op, ch, db).writes == NO_ROWS
    ensures After(op, ch, db) == db
  {
    hide Effect;
    MergeNothing(db);
  }

  lemma RefusedDecision(op: Op, ch: Choice, db: Db)
    requires op.Decide? && DecideRefusal(op, db).Some?
    ensures After(op, ch, db) == db
  {
    RefusedChangesNothing(op, ch, db);
  }

  lemma RefusedMove(op: Op, ch: Choice, db: Db)
    requires op.Transition? || op.Fail?
    requires !(op.exec in db.execs && Accepts(op, db.execs[op.exec].status))
    ensures After(op, ch, db) == db
  {
    hide PutMove;
    RefusedChangesNothing(op, ch, db);
  }

  lemma DecisionSettles(env: Env, op: Op, ch: Choice, db: Db)
    requires Integral(env, db) && op.Decide? && DecideRefusal(op, db).None?
    ensures op.exec !in db.dispatches
    ensures var v := VerdictOf(op, db.approvals[op.approvalId], ch.clock);
      Settled(db, After(op, ch, db), op.exec, op.approvalId, v, VerdictActor(op, v), ch.begun)
  {
    hide Integral, Settled, WithConsequence, WithVerdict, After, VerdictOf, VerdictActor;
    var v := VerdictOf(op, db.approvals[op.approvalId], ch.clock);
    AfterDecide(op, ch, db);
    UnrefusedIsGrantable(op, db);
    GrantableHasNoDispatch(env, db, op.exec, op.approvalId);
    ConsequenceSettles(db, op.exec, op.approvalId, v, VerdictActor(op, v), ch.begun);
  }

  lemma GrantableHasNoDispatch(env: Env, db: Db, e: ExecId, a: ApprovalId)
    requires Integral(env, db) && Grantable(db, e, a)
    ensures e !in db.dispatches
  {
    hide Valid, LogOk, IdempotencyOk;
    assert ApprovalOk(db, a) && GateOk(db, e) && ExecutionOk(db, e);
  }

  lemma ConsequenceSettles(db: Db, e: ExecId, a: ApprovalId, v: ApprovalStatus, who: string, now: int)
    requires e in db.execs && a in db.approvals && e !in db.dispatches
    ensures Settled(db, WithConsequence(WithVerdict(db, a, v, who), e, a, v, who, now), e, a, v, who, now)
  {
    MaxSeqNext(db.events, e, VerdictEvent(a, v, who));
  }

  // ---------- the closed runtime ----------

  /** Calls that the shipped runtime makes: no `fail`, and `transition` only to CONTEXT. */
  predicate ClosedCall(op: Op) {
    !op.Fail? && (op.Transition? ==> op.status == Context)
  }

  ghost predicate HasPending(db: Db, e: ExecId) {
    exists a :: a in db.approvals && db.approvals[a].exec == e && db.approvals[a].status == Pending
  }

  predicate ShortLife(row: ExecRow) {
    match InitialStatus(row.request)
    case Intake => row.status == Intake || row.status == Context
    case Approval => row.status == Approval || row.status == Execution || row.status == Rejected
    case _ => row.status == Rejected
  }

  ghost predicate ClosedExecution(db: Db, e: ExecId)
    requires e in db.execs
  {
    && ShortLife(db.execs[e]) && (db.execs[e].status == Approval <==> HasPending(db, e))
    && StandsByApproval(db, e)
  }

  /** Where an execution stands whose approval has status `v`. */
  function StandsAt(v: ApprovalStatus): Status {
    if v == Pending then Approval else VerdictStatus(v)
  }

  ghost predicate StandsByApproval(db: Db, e: ExecId)
    requires e in db.execs
  {
    forall a | a in db.approvals && db.approvals[a].exec == e :: db.execs[e].status == StandsAt(db.approvals[a].status)
  }

  ghost predicate ClosedOk(db: Db) {
    forall e | e in db.execs :: ClosedExecution(db, e)
  }

  lemma SettledPending(db: Db, t: Db, e: ExecId, a: ApprovalId, v: ApprovalStatus, who: string, d: ExecId)
    requires ApprovalsOk(db) && Grantable(db, e, a) && v != Pending
    requires t.approvals == db.approvals[a := db.approvals[a].(status := v, decidedBy := Some(who))]
    ensures HasPending(t, d) <==> d != e && HasPending(db, d)
  {
    hide ApprovalOk, HasApproval, BeginsWith;
    if d == e {
      assert forall b | b in db.approvals && db.approvals[b].exec == e :: b == a;
    } else {
      if b :| b in db.approvals && db.approvals[b].exec == d && db.approvals[b].status == Pending {
        assert t.approvals[b] == db.approvals[b];
      }
    }
  }

  lemma SettledStands(db: Db, t: Db, e: ExecId, a: ApprovalId, v: ApprovalStatus, who: string, d: ExecId)
    requires ApprovalsOk(db) && Grantable(db, e, a) && v != Pending && d in db.execs && StandsByApproval(db, d)
    requires t.approvals == db.approvals[a := db.approvals[a].(status := v, decidedBy := Some(who))]
    requires t.execs == db.execs[e := db.execs[e].(status := VerdictStatus(v))]
    ensures StandsByApproval(t, d)
  {
    hide ApprovalOk, HasApproval, BeginsWith, VerdictStatus;
  }

  lemma SettledExecution(db: Db, t: Db, e: ExecId, v: ApprovalStatus, d: ExecId)
    requires e in db.execs && d in db.execs && db.execs[e].status == Approval && ClosedExecution(db, d)
    requires t.execs == db.execs[e := db.execs[e].(status := VerdictStatus(v))]
    requires (HasPending(t, d) <==> d != e && HasPending(db, d)) && StandsByApproval(t, d)
    ensures ClosedExecution(t, d)
  {
    hide HasPending, StandsByApproval, Allowed;
  }

  lemma StandsInClosed(db: Db, e: ExecId)
    requires ClosedOk(db) && e in db.execs
    ensures ClosedExecution(db, e) && StandsByApproval(db, e)
  {
    hide HasPending, StandsByApproval, ShortLife;
  }

  lemma SettledStaysClosed(env: Env, db: Db, t: Db, e: ExecId, a: ApprovalId, v: ApprovalStatus, who: string, now: int)
    requires Integral(env, db) && ClosedOk(db) && Grantable(db, e, a) && v != Pending
    requires Settled(db, t, e, a, v, who, now)
    ensures ClosedOk(t)
  {
    assert ApprovalsOk(db) by { IntegralGate(env, db); }
    hide OneMore, SameLog, Integral, ApprovalsOk, HasPending, StandsByApproval, ClosedExecution, VerdictStatus;
    forall d | d in t.execs ensures ClosedExecution(t, d) {
      SettledPending(db, t, e, a, v, who, d);
      StandsInClosed(db, d);
      SettledStands(db, t, e, a, v, who, d);
      SettledExecution(db, t, e, v, d);
    }
  }

  lemma DecideStaysClosed(env: Env, op: Op, ch: Choice, db: Db)
    requires Integral(env, db) && ClosedOk(db) && op.Decide?
    ensures ClosedOk(After(op, ch, db))
  {
    hide Integral, ClosedOk, Settled, After, VerdictActor;
    if DecideRefusal(op, db).None? {
      var v := VerdictOf(op, db.approvals[op.approvalId], ch.clock);
      UnrefusedIsGrantable(op, db);
      DecisionSettles(env, op, ch, db);
      SettledStaysClosed(env, db, After(op, ch, db), op.exec, op.approvalId, v, VerdictActor(op, v), ch.begun);
    } else {
      RefusedChangesNothing(op, ch, db);
    }
  }

  lemma ClosedClaimsWait(db: Db, claims: seq<ApprovalId>)
    requires ClosedOk(db) && PendingClaims(db, claims)
    ensures forall i | 0 <= i < |claims| :: Waiting(db, claims[i])
  {
    forall i | 0 <= i < |claims| ensures Waiting(db, claims[i]) {
      assert ClosedExecution(db, db.approvals[claims[i]].exec);
    }
  }

  /** In the closed runtime every claimed approval's execution still waits, so a sweep skips nothing. */
  lemma ClosedSweepSkipsNothing(op: Op, ch: Choice, db: Db)
    requires ApprovalsOk(db) && ClosedOk(db) && op.Sweep? && PendingClaims(db, ch.approvals)
    ensures Effect(op, ch, db).reply == Swept(|ch.approvals|, |ch.approvals|, 0)
  {
    ClosedClaimsWait(db, ch.approvals);
    hide ClosedOk, ApprovalsOk, Effect, PendingClaims;
    AllWaiting(db, ch.approvals, |ch.approvals|);
    SweepReply(op, ch, db);
  }

  lemma {:induction false} AllWaiting(db: Db, claims: seq<ApprovalId>, k: nat)
    requires RealClaims(db, claims) && k <= |claims| && forall i | 0 <= i < k :: Waiting(db, claims[i])
    ensures WaitingClaims(db, claims, k) == k
  {
    if k > 0 { AllWaiting(db, claims, k - 1); }
  }

  lemma SweptPending(db: Db, t: Db, claims: seq<ApprovalId>, e: ExecId)
    requires ApprovalsOk(db) && PendingClaims(db, claims) && JustExpired(db, claims, |claims|, t)
    ensures if Touched(db, claims, |claims|, e) then !HasPending(t, e) else HasPending(t, e) == HasPending(db, e)
  {
    hide ApprovalOk, HasApproval, BeginsWith;
    assert claims[..|claims|] == claims;
    if Touched(db, claims, |claims|, e) {
      var i :| 0 <= i < |claims| && db.approvals[claims[i]].exec == e;
      assert forall b | b in db.approvals && db.approvals[b].exec == e :: b == claims[i];
    } else {
      forall b | b in db.approvals && db.approvals[b].exec == e ensures t.approvals[b] == db.approvals[b] {
        assert b !in claims;
      }
      if b :| b in db.approvals && db.approvals[b].exec == e && db.approvals[b].status == Pending {
        assert t.approvals[b] == db.approvals[b];
      }
    }
  }

  lemma SweptStatus(db: Db, t: Db, claims: seq<ApprovalId>, e: ExecId)
    requires RealClaims(db, claims) && e in db.execs && SweptTo(db, claims, |claims|, t)
    requires forall i | 0 <= i < |claims| :: Waiting(db, claims[i])
    ensures e in t.execs
    ensures t.execs[e] == if Touched(db, claims, |claims|, e) then db.execs[e].(status := Rejected) else db.execs[e]
    ensures Touched(db, claims, |claims|, e) ==> db.execs[e].status == Approval
  {
    hide SameLog, OneMore;
    if Touched(db, claims, |claims|, e) {
      var i :| 0 <= i < |claims| && db.approvals[claims[i]].exec == e;
      assert Waiting(db, claims[i]) && RejectedBy(db, t, claims[i]);
    } else {
      assert Untouched(db, t, e);
    }
  }

  lemma SweptStands(db: Db, t: Db, claims: seq<ApprovalId>, e: ExecId)
    requires ApprovalsOk(db) && PendingClaims(db, claims) && e in db.execs && StandsByApproval(db, e)
    requires e in t.execs && JustExpired(db, claims, |claims|, t)
    requires t.execs[e] == if Touched(db, claims, |claims|, e) then db.execs[e].(status := Rejected) else db.execs[e]
    ensures StandsByApproval(t, e)
  {
    hide ApprovalOk, HasApproval, BeginsWith;
    assert claims[..|claims|] == claims;
    if Touched(db, claims, |claims|, e) {
      var i :| 0 <= i < |claims| && db.approvals[claims[i]].exec == e;
      assert forall b | b in db.approvals && db.approvals[b].exec == e :: b == claims[i];
    } else {
      assert forall b | b in db.approvals && db.approvals[b].exec == e :: b !in claims;
    }
  }

  lemma SweptExecutionStaysClosed(db: Db, t: Db, claims: seq<ApprovalId>, e: ExecId)
    requires ApprovalsOk(db) && PendingClaims(db, claims) && e in db.execs && ClosedExecution(db, e)
    requires forall i | 0 <= i < |claims| :: Waiting(db, claims[i])
    requires SweptTo(db, claims, |claims|, t) && JustExpired(db, claims, |claims|, t)
    ensures e in t.execs && ClosedExecution(t, e)
  {
    hide ApprovalsOk, JustExpired, SweptTo, HasPending, Touched, StandsByApproval;
    SweptPending(db, t, claims, e);
    SweptStatus(db, t, claims, e);
    SweptStands(db, t, claims, e);
  }

  lemma SweepStaysClosed(op: Op, ch: Choice, db: Db)
    requires ApprovalsOk(db) && ClosedOk(db) && op.Sweep? && PendingClaims(db, ch.approvals)
    ensures ClosedOk(After(op, ch, db))
  {
    hide ApprovalsOk, After, ClosedExecution, SweptTo, JustExpired;
    var t := After(op, ch, db);
    ClosedClaimsWait(db, ch.approvals);
    SweepIsExact(op, ch, db);
    forall e | e in t.execs ensures ClosedExecution(t, e) {
      assert e in db.execs by { assert SweptTo(db, ch.approvals, |ch.approvals|, t); SweptKeys(db, ch.approvals, t); }
      SweptExecutionStaysClosed(db, t, ch.approvals, e);
    }
  }

  lemma StartedPending(op: Op, ch: Choice, db: Db, d: ExecId)
    requires ApprovalsOk(db) && op.Start? && Creates(op, db) && FreshIds(op, db)
    ensures var u := StartedTables(op, ch, db);
      HasPending(u, d) <==>
        if d == op.request.executionId then InitialStatus(op.request) == Approval else HasPending(db, d)
  {
    hide HasApproval, BeginsWith, InitialStatus;
    var u, e := StartedTables(op, ch, db), op.request.executionId;
    assert forall a | a in db.approvals ::
      ApprovalOk(db, a) && db.approvals[a].exec != e && u.approvals[a] == db.approvals[a];
    if InitialStatus(op.request) == Approval {
      assert u.approvals[op.approvalId].exec == e;
    }
    if a :| a in db.approvals && db.approvals[a].exec == d && db.approvals[a].status == Pending {
      assert u.approvals[a] == db.approvals[a];
    }
  }

  lemma StartedStands(op: Op, ch: Choice, db: Db, d: ExecId)
    requires ApprovalsOk(db) && op.Start? && Creates(op, db) && FreshIds(op, db)
    requires d in StartedTables(op, ch, db).execs && (d != op.request.executionId ==> StandsByApproval(db, d))
    ensures StandsByApproval(StartedTables(op, ch, db), d)
  {
    hide HasApproval, BeginsWith, InitialStatus;
    assert forall a | a in db.approvals :: ApprovalOk(db, a) && db.approvals[a].exec != op.request.executionId;
  }

  lemma StartStaysClosed(op: Op, ch: Choice, db: Db)
    requires ApprovalsOk(db) && ClosedOk(db) && op.Start? && Creates(op, db) && FreshIds(op, db)
    ensures ClosedOk(StartedTables(op, ch, db))
  {
    hide ApprovalsOk, HasPending, StandsByApproval, Allowed;
    var u := StartedTables(op, ch, db);
    forall d | d in u.execs ensures ClosedExecution(u, d) {
      StartedPending(op, ch, db, d);
      if d != op.request.executionId { StandsInClosed(db, d); }
      StartedStands(op, ch, db, d);
      assert d != op.request.executionId ==> ClosedExecution(db, d);
    }
  }

  lemma MoveStaysClosed(op: Op, ch: Choice, db: Db)
    requires ClosedOk(db) && op.Transition? && op.status == Context
    ensures ClosedOk(After(op, ch, db))
  {
    hide Merge;
    MergeNothing(db);
    if op.exec in db.execs && Accepts(op, db.execs[op.exec].status) {
      AfterMove(op, ch, db);
      OnlyIntakeLeadsToContext(db.execs[op.exec].status);
      hide After;
      var u := After(op, ch, db);
      forall d | d in u.execs ensures ClosedExecution(u, d) {
        assert ClosedExecution(db, d);
      }
    }
  }

  lemma OnlyIntakeLeadsToContext(s: Status)
    ensures CanTransition(s, Context) <==> s == Intake
  {
    assert AllowedTransitions(Intake)[0] == Context;
  }

  lemma SameRowsStayClosed(db: Db, t: Db)
    requires ClosedOk(db) && t.execs == db.execs && t.approvals == db.approvals
    ensures ClosedOk(t)
  {
    forall e | e in t.execs ensures ClosedExecution(t, e) {
      assert ClosedExecution(db, e);
    }
  }

  lemma StartCallStaysClosed(env: Env, op: Op, ch: Choice, db: Db)
    requires Integral(env, db) && ClosedOk(db) && op.Start? && FreshIds(op, db)
    ensures ClosedOk(After(op, ch, db))
  {
    hide Integral, ClosedOk, StartedTables, StartWrites, Merge;
    MergeNothing(db);
    if Creates(op, db) {
      NothingLeftOver(env, op, db);
      AfterStart(op, ch, db);
      IntegralGate(env, db);
      StartStaysClosed(op, ch, db);
    } else if Effect(op, ch, db).reply.Reused? {
      ReusedWrites(env, op, ch, db);
    }
  }

  /** Every closed call keeps the closed shape. */
  lemma CallStaysClosed(env: Env, op: Op, ch: Choice, db: Db)
    requires Integral(env, db) && ClosedOk(db) && ClosedCall(op) && FreshIds(op, db) && Fits(op, ch, db)
    ensures ClosedOk(After(op, ch, db))
  {
    hide Integral, ClosedOk, PendingClaims, After;
    match op
    case Start(_, _, _, _, _) => StartCallStaysClosed(env, op, ch, db);
    case Decide(_, _, _, _) => DecideStaysClosed(env, op, ch, db);
    case Sweep(_) => IntegralGate(env, db); SweepStaysClosed(op, ch, db);
    case Transition(_, _, _, _) => MoveStaysClosed(op, ch, db);
    case ClaimDispatches(_, _) => AfterTouch(op, ch, db); SameRowsStayClosed(db, After(op, ch, db));
    case MarkSucceeded(_) => AfterTouch(op, ch, db); SameRowsStayClosed(db, After(op, ch, db));
    case MarkFailed(_, _) => AfterTouch(op, ch, db); SameRowsStayClosed(db, After(op, ch, db));
  }

  lemma EmptyIsClosed()
    ensures ClosedOk(NO_ROWS)
  {
  }

  /** The approval of an execution, and that the two agree. */
  ghost predicate AgreesWith(db: Db, e: ExecId, a: ApprovalId)
    requires e in db.execs
  {
    && a in db.approvals && db.approvals[a].exec == e
    && (forall b | b in db.approvals && db.approvals[b].exec == e :: b == a)
    && (db.execs[e].status == Approval <==> db.approvals[a].status == Pending)
    && (db.execs[e].status == Execution <==> db.approvals[a].status == Approved)
    && (db.execs[e].status == Rejected <==> db.approvals[a].status == Refused || db.approvals[a].status == Expired)
  }

  lemma OneApproval(db: Db, e: ExecId) returns (a: ApprovalId)
    requires ApprovalsOk(db) && e in db.execs && BeginsWith(db, e, Approval)
    ensures a in db.approvals && db.approvals[a].exec == e
    ensures forall b | b in db.approvals && db.approvals[b].exec == e :: b == a
  {
    hide BeginsWith, ApprovalOk;
    assert HasApproval(db, e);
    a :| a in db.approvals && db.approvals[a].exec == e;
  }

  lemma ClosedGate(db: Db, e: ExecId) returns (a: ApprovalId)
    requires ApprovalsOk(db) && ClosedOk(db) && e in db.execs && BeginsWith(db, e, Approval)
    ensures AgreesWith(db, e, a)
  {
    hide BeginsWith, ApprovalsOk, ClosedOk, ClosedExecution;
    StandsInClosed(db, e);
    a := OneApproval(db, e);
  }
}
