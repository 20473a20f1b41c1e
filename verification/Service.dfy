/**
 * The execution service: each method is one transaction over the store, statement by statement,
 * and does exactly what `Effect` says to the tables it finds, rollbacks included.
 */
module Service {
  import opened Base
  import opened StateMachine
  import opened Requests
  import opened Tables
  import opened Kernel
  import opened Stores

  lemma MergeTenant(db: Db, t: TenantId)
    ensures Merge(db, PutTenant(db, NO_ROWS, t)) == db.(tenants := db.tenants + {t})
  {
  }

  lemma MergeExecution(db: Db, w: Db, e: ExecId, row: ExecRow)
    ensures Merge(db, PutExecution(w, e, row)) == Merge(db, w).(execs := Merge(db, w).execs[e := row])
  {
  }

  lemma MergeEvent(db: Db, w: Db, e: ExecId, n: nat, ev: Event)
    ensures Merge(db, PutEvent(w, e, n, ev)) == Merge(db, w).(events := Merge(db, w).events[EventKey(e, n) := ev])
  {
  }

  lemma MergeApproval(db: Db, w: Db, a: ApprovalId, row: ApprovalRow)
    ensures var t := Merge(db, w);
      Merge(db, PutApproval(db, w, a, row)) == if a in t.approvals then t else t.(approvals := t.approvals[a := row])
  {
  }

  lemma MergeKey(db: Db, w: Db, k: IdemKey, row: IdemRow)
    ensures var t := Merge(db, w);
      Merge(db, PutIdempotency(db, w, k, row))
        == if k in t.idempotency then t else t.(idempotency := t.idempotency[k := row])
  {
  }

  class ExecutionService {
    const env: Env
    const store: Store

    constructor (env: Env, store: Store)
      ensures this.env == env && this.store == store
    {
      this.env, this.store := env, store;
    }

    function StartOp(request: Request, key: Option<string>, approvalId: ApprovalId): Op {
      var slot := if key.Some? then SlotOf(env, IdemKey(request.tenantId, key.value)) else 0;
      Op.Start(request, RequestHash(env, request), key, slot, approvalId)
    }

    // ---------- start ----------

    /** `now` is the database clock, `clock` is `Date.now()`, and `approvalId` a random id. */
    method Start(request: Request, key: Option<string>, approvalId: ApprovalId, now: int, clock: int)
      returns (reply: Reply, event: Option<Event>)
      modifies store
      ensures var op, ch, db := StartOp(request, key, approvalId), Choice(now, clock, [], []), old(store.Tables());
        && reply == Effect(op, ch, db).reply && store.Tables() == After(op, ch, db)
        && (reply.Started? ==> event == Some(FirstEvent(request)))
        && (reply.Reused? ==> var n := MaxSeq(db.events, reply.exec);
              n > 0 && event == Some(db.events[EventKey(reply.exec, n)]))
    {
      ghost var db := store.Tables();
      ghost var op, ch := StartOp(request, key, approvalId), Choice(now, clock, [], []);
      var hash := RequestHash(env, request);
      hide RequestHash, SlotOf, Merge, Allowed, MaxSeq;
      MergeNothing(db);
      store.Begin();
      store.EnsureTenant(request.tenantId);
      MergeTenant(db, request.tenantId);
      assert store.Tables() == Merge(db, StartWrites(op, ch, db, 0));
      if key.Some? && key.value != "" {
        var existing := store.FindIdempotency(IdemKey(request.tenantId, key.value));
        if existing.Some? {
          if existing.value.hash != hash {
            store.Rollback();
            return Refusal(IdempotencyConflict), None;
          }
          event := store.LatestEvent(existing.value.exec);
          if event.None? {
            store.Rollback();
            return Refusal(NoEvents), None;
          }
          return Reused(existing.value.exec), event;
        }
      }
      reply, event := Create(request, hash, key, approvalId, now, clock, db);
    }

    /** The creating half of `start`, from the insert of the execution on. */
    method Create(
        request: Request, hash: string, key: Option<string>, approvalId: ApprovalId, now: int, clock: int, ghost db: Db)
      returns (reply: Reply, event: Option<Event>)
      requires hash == RequestHash(env, request) && store.atBegin == db
      requires var op := StartOp(request, key, approvalId);
        && store.Tables() == Merge(db, StartWrites(op, Choice(now, clock, [], []), db, 0))
        && !(Keyed(op) && KeyOf(op) in db.idempotency)
      modifies store
      ensures var op, ch := StartOp(request, key, approvalId), Choice(now, clock, [], []);
        && reply == Effect(op, ch, db).reply && store.Tables() == After(op, ch, db)
        && !reply.Reused? && (reply.Started? ==> event == Some(FirstEvent(request)))
    {
      ghost var op, ch := StartOp(request, key, approvalId), Choice(now, clock, [], []);
      var e := request.executionId;
      var status := InitialStatus(request);
      hide RequestHash, SlotOf, Allowed;
      MergeNothing(db);
      FirstTables(op, ch, db);
      hide Merge;
      ghost var w := StartWrites(op, ch, db, 0);
      var ok := store.CreateExecution(request, status);
      if !ok {
        store.Rollback();
        return Refusal(DuplicateExecution), None;
      }
      MergeExecution(db, w, e, ExecRow(request, status));
      w := StartWrites(op, ch, db, 1);
      assert store.Tables() == Merge(db, w);
      event := Some(FirstEvent(request));
      ok := store.AppendEvent(e, 1, FirstEvent(request));
      if !ok {
        store.Rollback();
        return Refusal(EventKeyTaken), None;
      }
      MergeEvent(db, w, e, 1, FirstEvent(request));
      w := StartWrites(op, ch, db, 2);
      assert store.Tables() == Merge(db, w);
      hide StartWrites;
      Gate(request, key, approvalId, now, clock, db);
      Record(request, hash, key, approvalId, now, clock, db);
      reply := Started;
    }

    lemma FirstTables(op: Op, ch: Choice, db: Db)
      requires op.Start?
      ensures var t := Merge(db, StartWrites(op, ch, db, 0));
        t.execs == db.execs && t.events == db.events && t.idempotency == db.idempotency
    {
    }

    /** Approval or dispatch, as policy decided. */
    method Gate(request: Request, key: Option<string>, approvalId: ApprovalId, now: int, clock: int, ghost db: Db)
      requires store.Tables()
        == Merge(db, StartWrites(StartOp(request, key, approvalId), Choice(now, clock, [], []), db, 2))
      modifies store`approvals, store`dispatches
      ensures store.Tables()
        == Merge(db, StartWrites(StartOp(request, key, approvalId), Choice(now, clock, [], []), db, 3))
    {
      hide RequestHash, SlotOf, Allowed, Merge;
      ghost var op, ch := StartOp(request, key, approvalId), Choice(now, clock, [], []);
      ghost var w := StartWrites(op, ch, db, 2);
      assert StartWrites(op, ch, db, 3) == PutGate(db, w, op, ch);
      hide StartWrites;
      if InitialStatus(request) == Approval {
        MergeApproval(db, w, approvalId, NewApproval(request, clock));
        store.CreateApproval(approvalId, NewApproval(request, clock));
      } else if InitialStatus(request) == Intake {
        MergeDispatch(db, w, request.executionId, now);
        store.CreateDispatch(request.executionId, now);
      }
    }

    /** The audit row and the idempotency row, with the re-read whose other outcomes are impossible. */
    method Record(
        request: Request, hash: string, key: Option<string>, approvalId: ApprovalId, now: int, clock: int, ghost db: Db)
      requires hash == RequestHash(env, request)
      requires var op := StartOp(request, key, approvalId);
        && store.Tables() == Merge(db, StartWrites(op, Choice(now, clock, [], []), db, 3))
        && (Keyed(op) ==> KeyOf(op) !in store.idempotency)
      modifies store`audit, store`idempotency
      ensures store.Tables()
        == Merge(db, StartWrites(StartOp(request, key, approvalId), Choice(now, clock, [], []), db, 5))
    {
      hide RequestHash, SlotOf, Allowed, Merge;
      ghost var op, ch := StartOp(request, key, approvalId), Choice(now, clock, [], []);
      ghost var w := StartWrites(op, ch, db, 3);
      MergeAudit(db, w, PolicyAudit(request));
      store.AppendAudit(PolicyAudit(request));
      w := StartWrites(op, ch, db, 4);
      assert store.Tables() == Merge(db, w);
      if key.Some? && key.value != "" {
        var k := IdemKey(request.tenantId, key.value);
        MergeKey(db, w, k, IdemRow(request.executionId, hash));
        store.PutIdempotency(k, IdemRow(request.executionId, hash));
        var recorded := store.FindIdempotency(k);
        if recorded.None? || recorded.value.hash != hash || recorded.value.exec != request.executionId {
          assert false;
        }
      }
    }

    // ---------- the shared move ----------

    /** Number, status update, event insert. */
    method Move(e: ExecId, ev: Event) returns (sequence: nat)
      requires e in store.execs
      modifies store`execs, store`events
      ensures sequence == MaxSeq(old(store.events), e) + 1
      ensures store.Tables() == WithMove(old(store.Tables()), e, ev)
    {
      MaxSeqNext(store.events, e, ev);
      sequence := store.MaxSequence(e);
      sequence := sequence + 1;
      store.SetStatus(e, ev.status);
      var ok := store.AppendEvent(e, sequence, ev);
      if !ok {
        assert false;
      }
    }

    /** `rejectExpiredExecution`. */
    method RejectExpired(e: ExecId, a: ApprovalId, now: int)
      requires e in store.execs
      modifies store`execs, store`events, store`audit
      ensures store.Tables() == WithConsequence(old(store.Tables()), e, a, Expired, EXPIRY_ACTOR, now)
      ensures store.execs.Keys == old(store.execs.Keys)
    {
      var tenant := store.execs[e].request.tenantId;
      var sequence := Move(e, VerdictEvent(a, Expired, EXPIRY_ACTOR));
      store.AppendAudit(AuditRow(e, tenant, "EXECUTION_APPROVAL_EXPIRED", EXPIRY_ACTOR, false));
    }

    // ---------- decideApproval ----------

    lemma DecisionReplies(op: Op, ch: Choice, db: Db)
      requires op.Decide?
      ensures match DecideRefusal(op, db)
        case Some(error) => Effect(op, ch, db).reply == Refusal(error) && After(op, ch, db) == db
        case None =>
          var v := VerdictOf(op, db.approvals[op.approvalId], ch.clock);
          Effect(op, ch, db).reply == if v == Expired then ApprovalExpired else Decided(v)
    {
      hide PutConsequence, PutVerdict, DecideRefusal;
      MergeNothing(db);
    }

    /** The tests of the execution and of the approval, in order. */
    method Examine(op: Op, clock: int) returns (s: Settlement)
      requires op.Decide?
      modifies store`approvals
      ensures match DecideRefusal(op, old(store.Tables()))
        case Some(error) => s == Refuses(error) && store.Tables() == old(store.Tables())
        case None =>
          var v := VerdictOf(op, old(store.approvals)[op.approvalId], clock);
          && s == (if v == Expired then Lapses else Settles(v))
          && store.Tables() == WithVerdict(old(store.Tables()), op.approvalId, v, VerdictActor(op, v))
    {
      var status := store.LockExecution(op.exec);
      if status.None? {
        return Refuses(ExecutionNotFound);
      }
      if status.value != Approval {
        return Refuses(NotInApproval);
      }
      s := store.DecideApproval(op, clock);
    }

    method DecideApproval(approvalId: ApprovalId, e: ExecId, approve: bool, decidedBy: string, now: int, clock: int)
      returns (reply: Reply)
      modifies store
      ensures var op, ch := Op.Decide(approvalId, e, approve, decidedBy), Choice(now, clock, [], []);
        && reply == Effect(op, ch, old(store.Tables())).reply
        && store.Tables() == After(op, ch, old(store.Tables()))
    {
      ghost var db := store.Tables();
      var op := Op.Decide(approvalId, e, approve, decidedBy);
      DecisionReplies(op, Choice(now, clock, [], []), db);
      hide Effect, After, WithConsequence, VerdictOf;
      store.Begin();
      var settled := Examine(op, clock);
      if settled.Refuses? {
        store.Rollback();
        return Refusal(settled.error);
      }
      AfterDecide(op, Choice(now, clock, [], []), db);
      hide WithVerdict, DecideRefusal, VerdictActor;
      reply := Follow(op, settled, now);
    }

    /** What follows a recorded verdict: the rejection that is then raised, or the move that was decided. */
    method Follow(op: Op, settled: Settlement, now: int) returns (reply: Reply)
      requires op.Decide? && op.exec in store.execs
      requires settled.Lapses? || (settled.Settles? && settled.status != Expired)
      modifies store`execs, store`events, store`dispatches, store`audit
      ensures var v := if settled.Lapses? then Expired else settled.status;
        && store.Tables() == WithConsequence(old(store.Tables()), op.exec, op.approvalId, v, VerdictActor(op, v), now)
        && reply == (if settled.Lapses? then ApprovalExpired else Decided(v))
    {
      hide WithConsequence;
      if settled.Lapses? {
        RejectExpired(op.exec, op.approvalId, now);
        return ApprovalExpired;
      }
      if VerdictStatus(settled.status) !in AllowedTransitions(Approval) {
        assert false;
      }
      Settle(op.approvalId, op.exec, settled.status, op.decidedBy, now);
      return Decided(settled.status);
    }

    /** What follows a verdict in time: move, dispatch if granted, audit. */
    method Settle(a: ApprovalId, e: ExecId, v: ApprovalStatus, who: string, now: int)
      requires e in store.execs && v != Expired
      modifies store`execs, store`events, store`dispatches, store`audit
      ensures store.Tables() == WithConsequence(old(store.Tables()), e, a, v, who, now)
    {
      var sequence := Move(e, VerdictEvent(a, v, who));
      if v == Approved {
        store.CreateDispatch(e, now);
      }
      var tenant := store.LookupTenant(e);
      store.AppendAudit(AuditRow(e, tenant.value, "EXECUTION_APPROVAL_DECISION", who, v == Approved));
    }

    // ---------- expireApprovalsOnce ----------

    /** The loop of a sweep has handled its first `i` claims. */
    ghost predicate Handled(db: Db, claims: seq<ApprovalId>, i: nat, t: Db, rejected: nat, skipped: nat)
      requires RealClaims(db, claims) && i <= |claims|
    {
      var p := SweepProgress(db, claims, i);
      p.rejected == rejected && p.skipped == skipped && t == Merge(db, p.writes)
    }

    lemma NoneHandled(db: Db, claims: seq<ApprovalId>)
      requires RealClaims(db, claims)
      ensures Handled(db, claims, 0, Merge(db, ExpireWrites(db, claims, |claims|)), 0, 0)
    {
    }

    lemma OneMoreHandled(db: Db, claims: seq<ApprovalId>, i: nat, t: Db, rejected: nat, skipped: nat)
      requires RealClaims(db, claims) && i < |claims| && Handled(db, claims, i, t, rejected, skipped)
      ensures var e := db.approvals[claims[i]].exec;
        && e in t.execs
        && (t.execs[e].status != Approval ==> Handled(db, claims, i + 1, t, rejected, skipped + 1))
        && (t.execs[e].status == Approval ==>
              Handled(db, claims, i + 1, WithConsequence(t, e, claims[i], Expired, EXPIRY_ACTOR, 0),
                rejected + 1, skipped))
    {
      var p, e := SweepProgress(db, claims, i), db.approvals[claims[i]].exec;
      MergeConsequence(db, p.writes, e, claims[i], Expired, EXPIRY_ACTOR, 0);
      hide PutConsequence, WithConsequence, ExpireWrites;
    }

    lemma AllHandled(limit: int, db: Db, claims: seq<ApprovalId>, now: int, t: Db, rejected: nat, skipped: nat)
      requires PendingClaims(db, claims) && Handled(db, claims, |claims|, t, rejected, skipped)
      ensures var op, ch := Op.Sweep(limit), Choice(now, now, claims, []);
        Effect(op, ch, db).reply == Swept(|claims|, rejected, skipped) && t == After(op, ch, db)
    {
      hide SweepProgress, Merge;
    }

    /** `claims` are the rows that the store's selection found and locked, whatever it had to skip. */
    method ExpireApprovalsOnce(limit: int, claims: seq<ApprovalId>, now: int)
      returns (claimed: nat, rejected: nat, skipped: nat)
      requires PendingClaims(store.Tables(), claims)
      modifies store
      ensures var op, ch, db := Op.Sweep(limit), Choice(now, now, claims, []), old(store.Tables());
        && Fits(op, ch, db)
        && Effect(op, ch, db).reply == Swept(claimed, rejected, skipped) && store.Tables() == After(op, ch, db)
    {
      ghost var db := store.Tables();
      hide PendingClaims, Handled, Effect, After;
      PendingAreReal(db, claims);
      store.Begin();
      store.ClaimExpiredApprovals(claims);
      NoneHandled(db, claims);
      rejected, skipped := HandleClaims(claims, db);
      claimed := |claims|;
      AllHandled(limit, db, claims, now, store.Tables(), rejected, skipped);
    }

    /** Claims whose execution no longer waits are skipped. */
    method HandleClaims(claims: seq<ApprovalId>, ghost db: Db) returns (rejected: nat, skipped: nat)
      requires RealClaims(db, claims) && Handled(db, claims, 0, store.Tables(), 0, 0)
      requires forall i | 0 <= i < |claims| ::
        claims[i] in store.approvals && store.approvals[claims[i]].exec == db.approvals[claims[i]].exec
      modifies store`execs, store`events, store`audit
      ensures Handled(db, claims, |claims|, store.Tables(), rejected, skipped)
    {
      hide Handled, WithConsequence;
      rejected, skipped := 0, 0;
      var i := 0;
      while i < |claims|
        invariant 0 <= i <= |claims|
        invariant Handled(db, claims, i, store.Tables(), rejected, skipped)
      {
        OneMoreHandled(db, claims, i, store.Tables(), rejected, skipped);
        var e := store.approvals[claims[i]].exec;
        var status := store.LockExecution(e);
        if status.value != Approval {
          skipped := skipped + 1;
        } else {
          RejectExpired(e, claims[i], 0);
          rejected := rejected + 1;
        }
        i := i + 1;
      }
    }

    lemma PendingAreReal(db: Db, claims: seq<ApprovalId>)
      requires PendingClaims(db, claims)
      ensures RealClaims(db, claims)
    {
    }

    // ---------- transition, fail ----------

    method Transition(e: ExecId, status: Status, actor: string, note: string) returns (reply: Reply)
      modifies store
      ensures var op, ch := Op.Transition(e, status, actor, note), Choice(0, 0, [], []);
        && reply == Effect(op, ch, old(store.Tables())).reply && store.Tables() == After(op, ch, old(store.Tables()))
    {
      ghost var db := store.Tables();
      hide Merge;
      MergeNothing(db);
      store.Begin();
      var current := store.LockExecution(e);
      if current.None? {
        store.Rollback();
        return Refusal(ExecutionNotFound);
      }
      if status !in AllowedTransitions(current.value) {
        store.Rollback();
        return Refusal(InvalidTransition);
      }
      MergeMove(db, NO_ROWS, e, Event(status, actor, Note(note)));
      var sequence := Move(e, Event(status, actor, Note(note)));
      return Moved(sequence);
    }

    method Fail(e: ExecId, actor: string, reason: string) returns (reply: Reply)
      modifies store
      ensures var op, ch := Op.Fail(e, actor, reason), Choice(0, 0, [], []);
        && reply == Effect(op, ch, old(store.Tables())).reply && store.Tables() == After(op, ch, old(store.Tables()))
    {
      ghost var db := store.Tables();
      hide Merge;
      MergeNothing(db);
      store.Begin();
      var current := store.LockExecution(e);
      if current.None? {
        store.Rollback();
        return Refusal(ExecutionNotFound);
      }
      if current.value == Failed || current.value == Rejected || current.value == Learning {
        store.Rollback();
        return Refusal(TerminalExecution);
      }
      MergeMove(db, NO_ROWS, e, Event(Failed, actor, Note(reason)));
      var sequence := Move(e, Event(Failed, actor, Note(reason)));
      return Moved(sequence);
    }
  }
}
