/**
 * The audit trail is complete and true: one policy row for every execution, one verdict row for every
 * verdict event, each saying what the tables say.
 */
module AuditTrail {
  import opened StateMachine
  import opened Requests
  import opened Tables
  import opened Kernel
  import opened Integrity
  import opened Closed
  import opened Interleaving
  import opened Atomicity
  import opened Runs

  const POLICY_CHECK := "EXECUTION_POLICY_CHECK"
  const DECISION := "EXECUTION_APPROVAL_DECISION"
  const EXPIRATION := "EXECUTION_APPROVAL_EXPIRED"

  /** Rows about `e`: its policy rows, or all the others. */
  function Count(audit: seq<AuditRow>, e: ExecId, policy: bool): nat {
    if audit == [] then 0
    else
      var last := audit[|audit| - 1];
      var counts := last.exec == e && (last.action == POLICY_CHECK) == policy;
      Count(audit[..|audit| - 1], e, policy) + if counts then 1 else 0
  }

  lemma CountOneMore(audit: seq<AuditRow>, row: AuditRow, e: ExecId, policy: bool)
    ensures Count(audit + [row], e, policy)
      == Count(audit, e, policy) + if row.exec == e && (row.action == POLICY_CHECK) == policy then 1 else 0
  {
    assert (audit + [row])[..|audit|] == audit;
  }

  lemma {:induction false} NoRowsNoCount(audit: seq<AuditRow>, e: ExecId, policy: bool)
    requires forall i | 0 <= i < |audit| :: audit[i].exec != e
    ensures Count(audit, e, policy) == 0
  {
    if audit != [] { NoRowsNoCount(audit[..|audit| - 1], e, policy); }
  }

  ghost predicate HasVerdict(db: Db, e: ExecId) {
    exists k :: EventKey(e, k) in db.events && db.events[EventKey(e, k)].payload.Verdict?
  }

  /** The verdict event that a verdict row is about: same actor, and the row says whether it was a grant. */
  ghost predicate Backed(db: Db, row: AuditRow) {
    exists k, a, v ::
      && EventKey(row.exec, k) in db.events && db.events[EventKey(row.exec, k)] == VerdictEvent(a, v, row.actor)
      && row.allowed == (v == Approved) && row.action == (if v == Expired then EXPIRATION else DECISION)
  }

  ghost predicate Truthful(db: Db, row: AuditRow) {
    && row.exec in db.execs && row.tenant == db.execs[row.exec].request.tenantId
    && if row.action == POLICY_CHECK
       then row.actor == db.execs[row.exec].request.actorId
         && row.allowed == (InitialStatus(db.execs[row.exec].request) != Rejected)
       else Backed(db, row)
  }

  ghost predicate AuditOk(db: Db) {
    && (forall i | 0 <= i < |db.audit| :: Truthful(db, db.audit[i]))
    && (forall e | e in db.execs :: Count(db.audit, e, true) == 1)
    && (forall e | e in db.execs :: Count(db.audit, e, false) == if HasVerdict(db, e) then 1 else 0)
    && (forall e | e in db.execs :: EventKey(e, 1) in db.events && !db.events[EventKey(e, 1)].payload.Verdict?)
  }

  // ---------- steps ----------

  lemma TruthKept(t: Db, u: Db, row: AuditRow)
    requires Grows(t, u) && Truthful(t, row)
    ensures Truthful(u, row)
  {
    hide InitialStatus;
    if row.action != POLICY_CHECK {
      var k, a, v :| EventKey(row.exec, k) in t.events
        && t.events[EventKey(row.exec, k)] == VerdictEvent(a, v, row.actor)
        && row.allowed == (v == Approved) && row.action == (if v == Expired then EXPIRATION else DECISION);
      assert u.events[EventKey(row.exec, k)] == VerdictEvent(a, v, row.actor);
    }
  }

  /** Growth of logs by anything but verdicts. */
  lemma QuietKeepsAudit(t: Db, u: Db)
    requires AuditOk(t) && Grows(t, u) && u.execs.Keys == t.execs.Keys && u.audit == t.audit
    requires forall k | k in u.events && k !in t.events :: !u.events[k].payload.Verdict?
    ensures AuditOk(u)
  {
    hide Truthful;
    forall i | 0 <= i < |u.audit| ensures Truthful(u, u.audit[i]) { TruthKept(t, u, t.audit[i]); }
    forall e | e in u.execs ensures HasVerdict(u, e) == HasVerdict(t, e) { SameVerdicts(t, u, e); }
    hide HasVerdict;
  }

  lemma SameVerdicts(t: Db, u: Db, e: ExecId)
    requires Grows(t, u) && forall k | k in u.events && k !in t.events :: !u.events[k].payload.Verdict?
    ensures HasVerdict(u, e) == HasVerdict(t, e)
  {
    if HasVerdict(t, e) {
      var k :| EventKey(e, k) in t.events && t.events[EventKey(e, k)].payload.Verdict?;
      assert EventKey(e, k) in u.events && u.events[EventKey(e, k)].payload.Verdict?;
    }
  }

  lemma MoveAudited(t: Db, e: ExecId, ev: Event)
    requires AuditOk(t) && e in t.execs && !ev.payload.Verdict?
    ensures AuditOk(WithMove(t, e, ev))
  {
    MoveGrows(t, e, ev);
    NewKeyOnly(t, e, ev);
    hide WithMove, AuditOk, Grows;
    QuietKeepsAudit(t, WithMove(t, e, ev));
  }

  lemma NewKeyOnly(t: Db, e: ExecId, ev: Event)
    requires e in t.execs
    ensures var u := WithMove(t, e, ev);
      && u.audit == t.audit && u.execs.Keys == t.execs.Keys
      && (forall k | k in u.events && k !in t.events :: u.events[k] == ev)
  {
  }

  /** An execution at its opening approval has had no verdict yet. */
  lemma WaitingHasNoVerdict(t: Db, e: ExecId)
    requires AuditOk(t) && e in t.execs && LogOk(t, e) && BeginsWith(t, e, Approval) && t.execs[e].status == Approval
    ensures !HasVerdict(t, e)
  {
    WaitingHasOneEvent(t, e);
  }

  ghost predicate AddsVerdict(t: Db, u: Db, e: ExecId, a: ApprovalId, v: ApprovalStatus, who: string) {
    && e in t.execs && Grows(t, u) && u.execs.Keys == t.execs.Keys
    && u.audit == t.audit + [
         AuditRow(e, t.execs[e].request.tenantId, if v == Expired then EXPIRATION else DECISION, who, v == Approved)]
    && (exists k :: EventKey(e, k) in u.events && u.events[EventKey(e, k)] == VerdictEvent(a, v, who))
    && (forall k | k in u.events && k !in t.events :: k.exec == e)
  }

  lemma ConsequenceAdds(t: Db, e: ExecId, a: ApprovalId, v: ApprovalStatus, who: string, now: int)
    requires e in t.execs
    ensures AddsVerdict(t, WithConsequence(t, e, a, v, who, now), e, a, v, who)
  {
    var ev := VerdictEvent(a, v, who);
    MoveGrows(t, e, ev);
    NewKeyOnly(t, e, ev);
    var u := WithConsequence(t, e, a, v, who, now);
    assert u.events == WithMove(t, e, ev).events && u.execs == WithMove(t, e, ev).execs;
    assert EventKey(e, MaxSeq(t.events, e) + 1) in u.events;
    assert u.events[EventKey(e, MaxSeq(t.events, e) + 1)] == ev;
    assert forall k | k in u.events && k !in t.events :: k.exec == e;
  }

  lemma VerdictIsBacked(t: Db, u: Db, e: ExecId, a: ApprovalId, v: ApprovalStatus, who: string)
    requires AddsVerdict(t, u, e, a, v, who)
    ensures |u.audit| == |t.audit| + 1 && Truthful(u, u.audit[|t.audit|]) && HasVerdict(u, e)
  {
    var row := u.audit[|t.audit|];
    var k :| EventKey(e, k) in u.events && u.events[EventKey(e, k)] == VerdictEvent(a, v, who);
    assert row.exec == e && row.actor == who && row.action != POLICY_CHECK;
    assert Backed(u, row);
    assert u.events[EventKey(e, k)].payload.Verdict?;
  }

  lemma VerdictCounted(t: Db, u: Db, e: ExecId, a: ApprovalId, v: ApprovalStatus, who: string, d: ExecId)
    requires AuditOk(t) && !HasVerdict(t, e) && AddsVerdict(t, u, e, a, v, who) && d in u.execs
    ensures Count(u.audit, d, true) == 1
    ensures Count(u.audit, d, false) == if HasVerdict(u, d) then 1 else 0
  {
    VerdictIsBacked(t, u, e, a, v, who);
    var row := u.audit[|t.audit|];
    if d != e { OtherVerdicts(t, u, e, d); }
    hide HasVerdict, Truthful, Grows;
    CountOneMore(t.audit, row, d, true);
    CountOneMore(t.audit, row, d, false);
  }

  lemma VerdictAudited(t: Db, u: Db, e: ExecId, a: ApprovalId, v: ApprovalStatus, who: string)
    requires AuditOk(t) && !HasVerdict(t, e) && AddsVerdict(t, u, e, a, v, who)
    ensures AuditOk(u)
  {
    VerdictIsBacked(t, u, e, a, v, who);
    hide Truthful, HasVerdict;
    forall i | 0 <= i < |u.audit| ensures Truthful(u, u.audit[i]) {
      if i < |t.audit| { TruthKept(t, u, t.audit[i]); }
    }
    forall d | d in u.execs
      ensures Count(u.audit, d, true) == 1 && Count(u.audit, d, false) == if HasVerdict(u, d) then 1 else 0
    {
      VerdictCounted(t, u, e, a, v, who, d);
    }
  }

  lemma OtherVerdicts(t: Db, u: Db, e: ExecId, d: ExecId)
    requires Grows(t, u) && d != e && forall k | k in u.events && k !in t.events :: k.exec == e
    ensures HasVerdict(u, d) == HasVerdict(t, d)
  {
    if HasVerdict(t, d) {
      var k :| EventKey(d, k) in t.events && t.events[EventKey(d, k)].payload.Verdict?;
      assert EventKey(d, k) in u.events && u.events[EventKey(d, k)].payload.Verdict?;
    }
  }

  lemma ConsequenceAudited(t: Db, e: ExecId, a: ApprovalId, v: ApprovalStatus, who: string, now: int)
    requires AuditOk(t) && e in t.execs && LogOk(t, e) && BeginsWith(t, e, Approval) && t.execs[e].status == Approval
    ensures AuditOk(WithConsequence(t, e, a, v, who, now))
  {
    hide AuditOk, LogOk, BeginsWith, WithConsequence, AddsVerdict;
    WaitingHasNoVerdict(t, e);
    ConsequenceAdds(t, e, a, v, who, now);
    VerdictAudited(t, WithConsequence(t, e, a, v, who, now), e, a, v, who);
  }

  lemma SameTablesAudited(t: Db, u: Db)
    requires AuditOk(t) && u.execs == t.execs && u.events == t.events && u.audit == t.audit
    ensures AuditOk(u)
  {
    hide AuditOk;
    QuietKeepsAudit(t, u);
  }

  // ---------- calls ----------

  lemma ApprovalLog(env: Env, db: Db, a: ApprovalId)
    requires Integral(env, db) && a in db.approvals
    ensures var e := db.approvals[a].exec; e in db.execs && BeginsWith(db, e, Approval) && LogOk(db, e)
  {
    hide DispatchesOk, IdempotencyOk, BeginsWith, LogOk, Valid;
    assert ApprovalOk(db, a);
    assert ExecutionOk(db, db.approvals[a].exec);
  }

  lemma DecideAudited(env: Env, op: Op, ch: Choice, db: Db)
    requires Integral(env, db) && AuditOk(db) && op.Decide?
    ensures AuditOk(After(op, ch, db))
  {
    hide Integral, AuditOk, After, Effect, VerdictOf, VerdictActor, WithConsequence;
    if DecideRefusal(op, db).None? {
      AfterDecide(op, ch, db);
      UnrefusedIsGrantable(op, db);
      hide DecideRefusal;
      ApprovalLog(env, db, op.approvalId);
      var v := VerdictOf(op, db.approvals[op.approvalId], ch.clock);
      var t := WithVerdict(db, op.approvalId, v, VerdictActor(op, v));
      SameTablesAudited(db, t);
      SameLogOk(db, t, op.exec);
      hide LogOk;
      ConsequenceAudited(t, op.exec, op.approvalId, v, VerdictActor(op, v), ch.begun);
    } else {
      RefusedDecision(op, ch, db);
    }
  }

  lemma {:induction false} SweepingAudited(env: Env, db: Db, claims: seq<ApprovalId>, k: nat)
    requires Integral(env, db) && AuditOk(db) && PendingClaims(db, claims) && k <= |claims|
    ensures AuditOk(Merge(db, SweepProgress(db, claims, k).writes))
  {
    hide Integral, AuditOk, Merge, SweepProgress, ExpireWrites, PutConsequence;
    if k == 0 {
      FirstProgress(db, claims);
      ExpiredAudited(db, claims);
    } else {
      SweepingAudited(env, db, claims, k - 1);
      SweepingKeeps(env, db, claims, k - 1);
      HandledAudited(env, db, claims, k - 1);
    }
  }

  lemma ExpiredAudited(db: Db, claims: seq<ApprovalId>)
    requires AuditOk(db) && RealClaims(db, claims)
    ensures AuditOk(Merge(db, ExpireWrites(db, claims, |claims|)))
  {
    hide AuditOk, ExpireWrites;
    ExpireWritesKeys(db, claims, |claims|);
    SameTablesAudited(db, Merge(db, ExpireWrites(db, claims, |claims|)));
  }

  lemma HandledAudited(env: Env, db: Db, claims: seq<ApprovalId>, k: nat)
    requires RealClaims(db, claims) && k < |claims|
    requires var t := Merge(db, SweepProgress(db, claims, k).writes); AuditOk(t) && Integral(env, t)
    ensures AuditOk(Merge(db, SweepProgress(db, claims, k + 1).writes))
  {
    hide Integral, AuditOk, ExpireWrites, PutConsequence, WithConsequence;
    var w, e := SweepProgress(db, claims, k).writes, db.approvals[claims[k]].exec;
    ClaimVisible(db, claims, k, k);
    SkipOrReject(db, claims, k);
    hide SweepProgress;
    if Merge(db, w).execs[e].status == Approval {
      ApprovalLog(env, Merge(db, w), claims[k]);
      hide LogOk, BeginsWith;
      MergeConsequence(db, w, e, claims[k], Expired, EXPIRY_ACTOR, 0);
      ConsequenceAudited(Merge(db, w), e, claims[k], Expired, EXPIRY_ACTOR, 0);
    }
  }

  lemma MoveCallAudited(op: Op, ch: Choice, db: Db)
    requires AuditOk(db) && (op.Transition? || op.Fail?)
    ensures AuditOk(After(op, ch, db))
  {
    hide AuditOk, After, Effect, WithMove, Accepts;
    if op.exec in db.execs && Accepts(op, db.execs[op.exec].status) {
      AfterMove(op, ch, db);
      MoveAudited(db, op.exec, MoveEvent(op));
    } else {
      RefusedMove(op, ch, db);
    }
  }

  /** What a creating start adds, as far as the audit is concerned. */
  ghost predicate AddsExecution(op: Op, t: Db, u: Db)
    requires op.Start?
  {
    var e := op.request.executionId;
    && Grows(t, u) && e !in t.execs && !HasVerdict(t, e) && u.execs.Keys == t.execs.Keys + {e}
    && u.audit == t.audit + [PolicyAudit(op.request)] && Truthful(u, PolicyAudit(op.request))
    && EventKey(e, 1) in u.events && !u.events[EventKey(e, 1)].payload.Verdict?
    && (forall k | k in u.events && k !in t.events :: !u.events[k].payload.Verdict?)
  }

  lemma StartAddsExecution(op: Op, ch: Choice, db: Db)
    requires ExecutionsOk(db) && op.Start? && Creates(op, db)
    ensures AddsExecution(op, db, StartedTables(op, ch, db))
  {
    hide ExecutionOk;
    var u, e := StartedTables(op, ch, db), op.request.executionId;
    StartedGrows(op, ch, db);
    hide Grows;
    assert u.events[EventKey(e, 1)] == FirstEvent(op.request);
    assert forall k :: EventKey(e, k) !in db.events;
    PolicyIsTruthful(op, ch, db);
    hide Truthful, Allowed;
  }

  lemma PolicyIsTruthful(op: Op, ch: Choice, db: Db)
    requires op.Start?
    ensures Truthful(StartedTables(op, ch, db), PolicyAudit(op.request))
  {
    hide Allowed;
  }

  lemma ExecutionCounted(op: Op, t: Db, u: Db, d: ExecId)
    requires AuditOk(t) && op.Start? && AddsExecution(op, t, u) && d in u.execs
    ensures Count(u.audit, d, true) == 1
    ensures Count(u.audit, d, false) == if HasVerdict(u, d) then 1 else 0
  {
    var e := op.request.executionId;
    NobodyKnows(t, e);
    SameVerdicts(t, u, d);
    hide HasVerdict, Truthful, Grows, Allowed;
    NoRowsNoCount(t.audit, e, true);
    NoRowsNoCount(t.audit, e, false);
    CountOneMore(t.audit, PolicyAudit(op.request), d, true);
    CountOneMore(t.audit, PolicyAudit(op.request), d, false);
  }

  lemma CreationAudited(op: Op, ch: Choice, db: Db)
    requires ExecutionsOk(db) && AuditOk(db) && op.Start? && Creates(op, db)
    ensures AuditOk(StartedTables(op, ch, db))
  {
    hide ExecutionsOk, StartedTables;
    var u := StartedTables(op, ch, db);
    StartAddsExecution(op, ch, db);
    hide Truthful, HasVerdict, PolicyAudit;
    forall i | 0 <= i < |u.audit| ensures Truthful(u, u.audit[i]) {
      if i < |db.audit| { TruthKept(db, u, db.audit[i]); }
    }
    forall d | d in u.execs
      ensures Count(u.audit, d, true) == 1 && Count(u.audit, d, false) == if HasVerdict(u, d) then 1 else 0
    {
      ExecutionCounted(op, db, u, d);
    }
  }

  lemma NobodyKnows(db: Db, e: ExecId)
    requires AuditOk(db) && e !in db.execs
    ensures forall i | 0 <= i < |db.audit| :: db.audit[i].exec != e
  {
    forall i | 0 <= i < |db.audit| ensures db.audit[i].exec != e { assert Truthful(db, db.audit[i]); }
  }

  lemma StartAudited(env: Env, op: Op, ch: Choice, db: Db)
    requires Integral(env, db) && AuditOk(db) && op.Start? && FreshIds(op, db)
    ensures AuditOk(After(op, ch, db))
  {
    hide Integral, AuditOk, StartWrites, Merge, MaxSeq, StartedTables;
    MergeNothing(db);
    if Creates(op, db) {
      NothingLeftOver(env, op, db);
      AfterStart(op, ch, db);
      hide After;
      IntegralExecutions(env, db);
      CreationAudited(op, ch, db);
    } else if Effect(op, ch, db).reply.Reused? {
      ReusedWrites(env, op, ch, db);
    }
  }

  lemma IntegralExecutions(env: Env, db: Db)
    requires Integral(env, db)
    ensures ExecutionsOk(db)
  {
  }

  lemma CallAudited(env: Env, op: Op, ch: Choice, db: Db)
    requires Integral(env, db) && AuditOk(db) && FreshIds(op, db) && Fits(op, ch, db)
    ensures AuditOk(After(op, ch, db))
  {
    hide Integral, AuditOk, PendingClaims;
    match op
    case Start(_, _, _, _, _) => StartAudited(env, op, ch, db);
    case Decide(_, _, _, _) => DecideAudited(env, op, ch, db);
    case Sweep(_) => SweepingAudited(env, db, ch.approvals, |ch.approvals|);
    case Transition(_, _, _, _) => MoveCallAudited(op, ch, db);
    case Fail(_, _, _) => MoveCallAudited(op, ch, db);
    case _ => hide After; AfterTouch(op, ch, db); SameTablesAudited(db, After(op, ch, db));
  }

  lemma StepAudited(env: Env, s: System, act: Action, t: System)
    requires Inv(env, s) && Refines(s, act, t) && AuditOk(s.db)
    ensures AuditOk(t.db)
  {
    hide Integral, WellFormedOp, LocksDisjoint, DistinctIds, AuditOk, After, Effect, ClaimableRows, PendingClaims;
    if act.Commit? {
      assert ClientOk(env, s.db, s.clients[act.client]);
      hide Inv;
      CallAudited(env, s.clients[act.client].op, s.clients[act.client].local.ch, s.db);
    }
  }

  /** In every reachable state of every interleaving the audit trail is complete and true. */
  lemma {:induction false} AuditTrailIsComplete(env: Env, states: seq<System>, actions: seq<Action>, n: nat)
    requires IsRun(env, states, actions) && n < |states|
    ensures AuditOk(states[n].db)
  {
    hide Inv, Next, Replay, Refines;
    if n > 0 {
      AuditTrailIsComplete(env, states, actions, n - 1);
      RunsAreSerial(env, states, actions, n - 1);
      assert Next(env, states[n - 1], actions[n - 1], states[n]);
      hide AuditOk, IsRun;
      StepRefines(env, states[n - 1], actions[n - 1], states[n]);
      StepAudited(env, states[n - 1], actions[n - 1], states[n]);
    }
  }
}
