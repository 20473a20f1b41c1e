/**
 * What each call records and answers, row by row and in terms of the request, the clock and the call's
 * own arguments: which requests wait for approval, when a decision is in time, and what a move, a claim
 * and a mark leave behind.
 */
module Outcomes {
  import opened Base
  import opened StateMachine
  import opened Requests
  import opened Tables
  import opened Kernel
  import opened Integrity
  import opened Sweeps
  import opened Closed

  // ---------- start ----------

  /** An objective, and no need of approval. */
  predicate Opens(r: Request) {
    !Blank(r.objective) && !r.requiresApproval
  }

  /** An objective, and approval needed. */
  predicate Waits(r: Request) {
    !Blank(r.objective) && r.requiresApproval
  }

  /** The key of an idempotent start; an empty one is none. */
  function UsedKey(op: Op): Option<IdemKey>
    requires op.Start?
  {
    match op.key
    case None => None
    case Some(k) => if k == "" then None else Some(IdemKey(op.request.tenantId, k))
  }

  /**
   * The rows of a new execution: at REJECTED with neither approval nor dispatch if its objective is blank,
   * else at APPROVAL with one pending approval for a day, or at INTAKE with a dispatch, as it asks for.
   */
  ghost predicate NewRows(op: Op, ch: Choice, db: Db, t: Db)
    requires op.Start?
  {
    var r := op.request;
    var e, tenant, actor := r.executionId, r.tenantId, r.actorId;
    && t.tenants == db.tenants + {tenant}
    && t.execs == db.execs[e := ExecRow(r, if Waits(r) then Approval else if Opens(r) then Intake else Rejected)]
    && t.events == db.events[EventKey(e, 1) :=
         if Waits(r) then Event(Approval, actor, Opened(r.objective, r.agentId, r.agentVersion))
         else if Opens(r) then Event(Intake, actor, Opened(r.objective, r.agentId, r.agentVersion))
         else Event(Rejected, actor, Denied)]
    && t.approvals ==
       (if !Waits(r) then db.approvals
        else db.approvals[op.approvalId := ApprovalRow(e, tenant, actor, Pending, None, Some(ch.clock + 86400000))])
    && t.dispatches ==
       (if !Opens(r) then db.dispatches
        else db.dispatches[e := DispatchRow("logon.execution", Ready, 0, None, None, ch.begun, None)])
    && t.idempotency ==
       (match UsedKey(op) case None => db.idempotency case Some(k) => db.idempotency[k := IdemRow(e, op.hash)])
    && t.audit == db.audit + [AuditRow(e, tenant, "EXECUTION_POLICY_CHECK", actor, Waits(r) || Opens(r))]
  }

  /** A recorded key is answered by its hash alone, a taken id is refused, and anything else creates. */
  ghost predicate StartOutcome(op: Op, ch: Choice, db: Db, reply: Reply, t: Db)
    requires op.Start?
  {
    var e, key := op.request.executionId, UsedKey(op);
    if key.Some? && key.value in db.idempotency then
      var row := db.idempotency[key.value];
      t == db && reply == if row.hash == op.hash then Reused(row.exec) else Refusal(IdempotencyConflict)
    else if e in db.execs then t == db && reply == Refusal(DuplicateExecution)
    else
      && reply == Started && NewRows(op, ch, db, t)
      && e !in db.dispatches && op.approvalId !in db.approvals
      && (forall a | a in db.approvals :: db.approvals[a].exec != e) && forall n: nat :: EventKey(e, n) !in db.events
  }

  lemma KeysAgree(op: Op)
    requires op.Start?
    ensures UsedKey(op) == if Keyed(op) then Some(KeyOf(op)) else None
  {
  }

  lemma StartedCreates(op: Op, ch: Choice, db: Db)
    requires op.Start?
    ensures NewRows(op, ch, db, StartedTables(op, ch, db))
  {
    hide Blank;
  }

  lemma NothingOfIt(env: Env, db: Db, e: ExecId)
    requires Integral(env, db) && e !in db.execs
    ensures e !in db.dispatches && (forall a | a in db.approvals :: db.approvals[a].exec != e)
    ensures forall n: nat :: EventKey(e, n) !in db.events
  {
    hide ExecutionOk, DispatchRowOk, GateOk, BeginsWith, IdempotencyOk;
    forall a | a in db.approvals ensures db.approvals[a].exec != e { assert ApprovalOk(db, a); }
  }

  lemma StartUnderKey(env: Env, op: Op, ch: Choice, db: Db)
    requires Integral(env, db) && op.Start? && Keyed(op) && KeyOf(op) in db.idempotency
    ensures After(op, ch, db) == db
    ensures var row := db.idempotency[KeyOf(op)];
      Effect(op, ch, db).reply == if row.hash == op.hash then Reused(row.exec) else Refusal(IdempotencyConflict)
  {
    hide Integral, StartWrites, Merge;
    MergeNothing(db);
    ReusedWrites(env, op, ch, db);
    RecordedHasEvents(env, db, KeyOf(op));
  }

  lemma StartOfTaken(op: Op, ch: Choice, db: Db)
    requires op.Start? && !(Keyed(op) && KeyOf(op) in db.idempotency) && op.request.executionId in db.execs
    ensures After(op, ch, db) == db && Effect(op, ch, db).reply == Refusal(DuplicateExecution)
  {
    hide StartWrites, Merge;
    MergeNothing(db);
  }

  lemma StartOfNew(env: Env, op: Op, ch: Choice, db: Db)
    requires Integral(env, db) && op.Start? && FreshIds(op, db)
    requires !(Keyed(op) && KeyOf(op) in db.idempotency) && op.request.executionId !in db.execs
    ensures Effect(op, ch, db).reply == Started && NewRows(op, ch, db, After(op, ch, db))
  {
    assert Creates(op, db);
    hide Integral, After, Effect, NewRows, StartedTables;
    NothingLeftOver(env, op, db);
    AfterStart(op, ch, db);
    StartedCreates(op, ch, db);
  }

  lemma RepliesUnderKey(op: Op, ch: Choice, db: Db, reply: Reply)
    requires op.Start? && UsedKey(op).Some? && UsedKey(op).value in db.idempotency
    requires var row := db.idempotency[UsedKey(op).value];
      reply == if row.hash == op.hash then Reused(row.exec) else Refusal(IdempotencyConflict)
    ensures StartOutcome(op, ch, db, reply, db)
  {
    hide UsedKey, NewRows;
  }

  lemma RepliesTaken(op: Op, ch: Choice, db: Db)
    requires op.Start? && !(UsedKey(op).Some? && UsedKey(op).value in db.idempotency)
    requires op.request.executionId in db.execs
    ensures StartOutcome(op, ch, db, Refusal(DuplicateExecution), db)
  {
    hide UsedKey, NewRows;
  }

  lemma RepliesStarted(env: Env, op: Op, ch: Choice, db: Db, t: Db)
    requires Integral(env, db) && op.Start? && FreshIds(op, db)
    requires !(UsedKey(op).Some? && UsedKey(op).value in db.idempotency)
    requires op.request.executionId !in db.execs && NewRows(op, ch, db, t)
    ensures StartOutcome(op, ch, db, Started, t)
  {
    hide UsedKey, NewRows, Integral;
    NothingOfIt(env, db, op.request.executionId);
  }

  /** Every start, on any intact tables. */
  lemma StartIsExact(env: Env, op: Op, ch: Choice, db: Db)
    requires Integral(env, db) && op.Start? && FreshIds(op, db)
    ensures StartOutcome(op, ch, db, Effect(op, ch, db).reply, After(op, ch, db))
  {
    KeysAgree(op);
    hide Integral, After, Effect, NewRows, UsedKey, Keyed, KeyOf, StartOutcome, FreshIds;
    if Keyed(op) && KeyOf(op) in db.idempotency {
      StartUnderKey(env, op, ch, db);
      RepliesUnderKey(op, ch, db, Effect(op, ch, db).reply);
    } else if op.request.executionId in db.execs {
      StartOfTaken(op, ch, db);
      RepliesTaken(op, ch, db);
    } else {
      StartOfNew(env, op, ch, db);
      RepliesStarted(env, op, ch, db, After(op, ch, db));
    }
  }

  lemma RecordedHasEvents(env: Env, db: Db, k: IdemKey)
    requires Integral(env, db) && k in db.idempotency
    ensures MaxSeq(db.events, db.idempotency[k].exec) > 0
  {
    hide ApprovalsOk, DispatchesOk, Valid, RequestHash;
    assert ExecutionOk(db, db.idempotency[k].exec);
  }

  // ---------- refused decisions ----------

  /** The approval is there and joins an execution. */
  predicate Joined(db: Db, a: ApprovalId) {
    a in db.approvals && db.approvals[a].exec in db.execs
  }

  /** It is the named execution's, and of that execution's tenant. */
  predicate Matches(db: Db, a: ApprovalId, e: ExecId)
    requires Joined(db, a)
  {
    db.approvals[a].exec == e && db.approvals[a].tenant == db.execs[db.approvals[a].exec].request.tenantId
  }

  /** On any tables, intact or not: a decision is refused by the first test that fails, and then changes nothing. */
  lemma RefusalsAreExact(op: Op, ch: Choice, db: Db)
    requires op.Decide?
    ensures var reply := Effect(op, ch, db).reply;
      var waits := op.exec in db.execs && db.execs[op.exec].status == Approval;
      var joined := waits && Joined(db, op.approvalId);
      var matches := joined && Matches(db, op.approvalId, op.exec);
      && (reply == Refusal(ExecutionNotFound) <==> op.exec !in db.execs)
      && (reply == Refusal(NotInApproval) <==> op.exec in db.execs && !waits)
      && (reply == Refusal(ApprovalNotFound) <==> waits && !joined)
      && (reply == Refusal(ApprovalMismatch) <==> joined && !matches)
      && (reply == Refusal(ApprovalNotPending) <==> matches && db.approvals[op.approvalId].status != Pending)
      && (!reply.Refusal? <==> matches && db.approvals[op.approvalId].status == Pending)
      && (reply.Refusal? ==> After(op, ch, db) == db)
  {
    if DecideRefusal(op, db).Some? { RefusedDecision(op, ch, db); }
    hide After, PutConsequence, PutVerdict;
  }

  // ---------- transition and fail ----------

  /** One event more, at the next number, and the row at that event's status; nothing else changes. */
  ghost predicate MovedBy(db: Db, t: Db, e: ExecId, ev: Event)
    requires e in db.execs
  {
    && t == db.(execs := db.execs[e := db.execs[e].(status := ev.status)], events := t.events)
    && OneMore(db, t, e, ev) && (forall d | d != e :: SameLog(db, t, d))
  }

  /** A move along an allowed edge (`fail`: from any status but a terminal one), or a refusal that changes nothing. */
  ghost predicate MoveOutcome(op: Op, db: Db, reply: Reply, t: Db)
    requires op.Transition? || op.Fail?
  {
    if op.exec !in db.execs then t == db && reply == Refusal(ExecutionNotFound)
    else
      var from := db.execs[op.exec].status;
      match op
      case Transition(e, status, actor, note) =>
        if status !in AllowedTransitions(from) then t == db && reply == Refusal(InvalidTransition)
        else reply == Moved(Length(db, e) + 1) && MovedBy(db, t, e, Event(status, actor, Note(note)))
      case Fail(e, actor, reason) =>
        if from == Failed || from == Rejected || from == Learning then t == db && reply == Refusal(TerminalExecution)
        else reply == Moved(Length(db, e) + 1) && MovedBy(db, t, e, Event(Failed, actor, Note(reason)))
  }

  lemma WithMoveMovesBy(db: Db, e: ExecId, ev: Event)
    requires e in db.execs
    ensures MovedBy(db, WithMove(db, e, ev), e, ev)
  {
    MaxSeqNext(db.events, e, ev);
  }

  /** Every move, on any tables. */
  lemma MoveIsExact(op: Op, ch: Choice, db: Db)
    requires op.Transition? || op.Fail?
    ensures MoveOutcome(op, db, Effect(op, ch, db).reply, After(op, ch, db))
  {
    hide MovedBy, PutMove, WithMove, After;
    if op.exec in db.execs && Accepts(op, db.execs[op.exec].status) {
      AfterMove(op, ch, db);
      WithMoveMovesBy(db, op.exec, MoveEvent(op));
    } else {
      RefusedMove(op, ch, db);
    }
  }

  // ---------- claims and marks ----------

  /** A claimed row: leased for the asked-for time, held to 1 second at least and 5 minutes at most, and counted. */
  lemma ClaimIsExact(limit: int, lease: int, ch: Choice, db: Db)
    ensures var op := ClaimDispatches(limit, lease);
      var t := After(op, ch, db);
      && Effect(op, ch, db).reply == Claimed(ch.rows)
      && t == db.(dispatches := t.dispatches) && t.dispatches.Keys == db.dispatches.Keys
      && (forall e | e in db.dispatches && e !in ch.rows :: t.dispatches[e] == db.dispatches[e])
      && (forall e | e in db.dispatches && e in ch.rows ::
            var row := db.dispatches[e];
            var time := if lease < 1000 then 1000 else if lease > 300000 then 300000 else lease;
            t.dispatches[e] == DispatchRow(
              row.queue, Processing, row.attempts + 1, Some(ch.begun + time), None, row.createdAt, row.dispatchedAt))
  {
    AfterTouch(ClaimDispatches(limit, lease), ch, db);
    hide After;
  }

  /** A mark rewrites its own row, if there is one, whatever that row's status and lease. */
  lemma MarkIsExact(op: Op, ch: Choice, db: Db)
    requires op.MarkSucceeded? || op.MarkFailed?
    ensures var t := After(op, ch, db);
      && Effect(op, ch, db).reply == Marked
      && t == db.(dispatches := t.dispatches) && t.dispatches.Keys == db.dispatches.Keys
      && (forall e | e in db.dispatches && e != op.exec :: t.dispatches[e] == db.dispatches[e])
      && (op.exec in db.dispatches ==>
            var row := db.dispatches[op.exec];
            t.dispatches[op.exec] == match op
              case MarkSucceeded(_) =>
                DispatchRow(row.queue, Dispatched, row.attempts, None, None, row.createdAt, Some(ch.begun))
              case MarkFailed(_, error) =>
                DispatchRow(row.queue, Ready, row.attempts, None,
                  Some(if |error| <= 2000 then error else error[..2000]), row.createdAt, row.dispatchedAt))
  {
    AfterTouch(op, ch, db);
    if op.MarkFailed? { assert op.error[..|op.error|] == op.error; }
    hide After;
  }

  // ---------- selections ----------

  /** A sweep claims pending approvals that are due, of executions nobody has locked, the longest due first. */
  lemma SweepSelection(db: Db, busy: set<ExecId>, limit: int, now: int, claims: seq<ApprovalId>)
    requires SweepPicks(db, busy, limit, now, claims)
    ensures |claims| <= 100 && (limit < 1 ==> |claims| <= 1) && (1 <= limit ==> |claims| <= limit)
    ensures forall i | 0 <= i < |claims| ::
      && claims[i] in Due(db, now) && db.approvals[claims[i]].exec !in busy
    ensures forall b | b in Due(db, now) && db.approvals[b].exec !in busy && b !in claims ::
      && |claims| == (if limit < 1 then 1 else if limit > 100 then 100 else limit)
      && forall i | 0 <= i < |claims| :: db.approvals[claims[i]].expiresAt.value <= db.approvals[b].expiresAt.value
  {
  }
}
