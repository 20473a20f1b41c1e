/**
 * Other clients' commits leave a transaction on course, so every commit is the call's `Effect` on
 * the tables it meets, and every run of the interleaved system is a serial one.
 */
module Serializability {
  import opened StateMachine
  import opened Requests
  import opened Tables
  import opened Kernel
  import opened Integrity
  import opened Interleaving
  import opened Atomicity

  // ---------- footprints ----------

  /** Writes `w` are covered by the locks `mine`. */
  ghost predicate Foot(env: Env, db: Db, w: Db, mine: set<Lock>) {
    && (forall t | t in w.tenants :: TenantLock(t) in mine)
    && (forall e | e in w.execs :: ExecLock(e) in mine && (e in db.execs ==> w.execs[e].request == db.execs[e].request))
    && (forall k | k in w.events :: ExecLock(k.exec) in mine && k !in db.events)
    && (forall a | a in w.approvals && a in db.approvals ::
          ExecLock(db.approvals[a].exec) in mine && w.approvals[a].exec == db.approvals[a].exec)
    && (forall e | e in w.dispatches :: DispatchLock(e) in mine)
    && (forall k | k in w.idempotency :: AdvisoryLock(SlotOf(env, k)) in mine && k !in db.idempotency)
  }

  /** What a client holding `held` can rely on when `db` becomes `u`. */
  ghost predicate Agree(env: Env, db: Db, u: Db, held: set<Lock>) {
    && db.tenants <= u.tenants && (forall t | TenantLock(t) in held :: t in u.tenants ==> t in db.tenants)
    && (forall e | e in db.execs :: e in u.execs && u.execs[e].request == db.execs[e].request)
    && (forall e | ExecLock(e) in held ::
         (e in u.execs ==> e in db.execs) && (e in db.execs ==> u.execs[e] == db.execs[e]))
    && (forall k | k in db.events :: k in u.events && u.events[k] == db.events[k])
    && (forall k | k in u.events && ExecLock(k.exec) in held :: k in db.events)
    && (forall a | a in db.approvals :: a in u.approvals && u.approvals[a].exec == db.approvals[a].exec
          && (ExecLock(db.approvals[a].exec) in held ==> u.approvals[a] == db.approvals[a]))
    && (forall e | e in db.dispatches ::
         e in u.dispatches && (DispatchLock(e) in held ==> u.dispatches[e] == db.dispatches[e]))
    && (forall e | e in u.dispatches && DispatchLock(e) in held :: e in db.dispatches)
    && (forall k | k in db.idempotency :: k in u.idempotency && u.idempotency[k] == db.idempotency[k])
    && (forall k | k in u.idempotency && AdvisoryLock(SlotOf(env, k)) in held :: k in db.idempotency)
  }

  lemma OthersAgree(env: Env, db: Db, w: Db, mine: set<Lock>, held: set<Lock>)
    requires Foot(env, db, w, mine) && mine !! held
    ensures Agree(env, db, Merge(db, w), held)
  {
    hide SlotOf;
  }

  // ---------- every transaction writes within its locks ----------

  lemma NoRowsFoot(env: Env, db: Db, mine: set<Lock>)
    ensures Foot(env, db, NO_ROWS, mine)
  {
  }

  lemma MoveFoot(env: Env, db: Db, w: Db, mine: set<Lock>, e: ExecId, ev: Event)
    requires Foot(env, db, w, mine) && e in db.execs && e in Merge(db, w).execs && ExecLock(e) in mine
    ensures Foot(env, db, PutMove(db, w, e, ev), mine)
    ensures Foot(env, db, PutStatus(db, w, e, ev.status), mine)
    ensures PutMove(db, w, e, ev).dispatches == w.dispatches
  {
    hide SlotOf;
    MaxSeqNext(Merge(db, w).events, e, ev);
  }

  lemma VerdictFoot(env: Env, db: Db, w: Db, mine: set<Lock>, a: ApprovalId, v: ApprovalStatus, who: string)
    requires Foot(env, db, w, mine) && a in db.approvals && ExecLock(db.approvals[a].exec) in mine
    ensures Foot(env, db, PutVerdict(db, w, a, v, who), mine)
  {
    hide SlotOf;
  }

  lemma DispatchFoot(env: Env, db: Db, w: Db, mine: set<Lock>, e: ExecId, now: int)
    requires Foot(env, db, w, mine) && (e !in db.dispatches ==> DispatchLock(e) in mine)
    ensures Foot(env, db, PutDispatch(db, w, e, now), mine)
  {
    hide SlotOf;
  }

  lemma AuditFoot(env: Env, db: Db, w: Db, mine: set<Lock>, row: AuditRow)
    requires Foot(env, db, w, mine)
    ensures Foot(env, db, PutAudit(w, row), mine)
  {
    hide SlotOf;
  }

  lemma ConsequenceFoot(
      env: Env, db: Db, w: Db, mine: set<Lock>, e: ExecId, a: ApprovalId, v: ApprovalStatus, who: string, now: int)
    requires Foot(env, db, w, mine) && e in db.execs && e in Merge(db, w).execs && ExecLock(e) in mine
    requires v == Approved && e !in db.dispatches ==> DispatchLock(e) in mine
    ensures Foot(env, db, PutConsequence(db, w, e, a, v, who, now), mine)
  {
    var moved := PutMove(db, w, e, VerdictEvent(a, v, who));
    MoveFoot(env, db, w, mine, e, VerdictEvent(a, v, who));
    hide Foot, PutMove, PutDispatch, PutAudit;
    if v == Approved {
      DispatchFoot(env, db, moved, mine, e, now);
    }
    var sent := if v == Approved then PutDispatch(db, moved, e, now) else moved;
    AuditFoot(env, db, sent, mine, VerdictAudit(Merge(db, w), e, v, who));
  }

  lemma AtMoveFoot(env: Env, db: Db, base: Db, l: Local)
    requires AtMove(db, base, l) && Foot(env, db, base, l.held)
    ensures Foot(env, db, l.writes, l.held)
  {
    MoveFoot(env, db, base, l.held, l.exec, l.event);
    DispatchFootAt(env, db, base, l);
    hide Foot, PutMove, PutDispatch, PutStatus;
  }

  lemma DispatchFootAt(env: Env, db: Db, base: Db, l: Local)
    requires AtMove(db, base, l) && Foot(env, db, PutMove(db, base, l.exec, l.event), l.held)
    ensures l.pc.InsertVerdictAudit? && l.verdict == Approved ==>
      Foot(env, db, PutDispatch(db, PutMove(db, base, l.exec, l.event), l.exec, l.ch.begun), l.held)
  {
    hide Foot, PutMove;
    if l.pc.InsertVerdictAudit? && l.verdict == Approved {
      DispatchFoot(env, db, PutMove(db, base, l.exec, l.event), l.held, l.exec, l.ch.begun);
    }
  }

  lemma PlainMoveFoot(env: Env, op: Op, l: Local, db: Db)
    requires (op.Transition? || op.Fail?) && AtPlainMove(op, l, db)
    ensures Foot(env, db, l.writes, l.held)
  {
    NoRowsFoot(env, db, l.held);
    hide Foot, AtMove, PutMove, Accepts, MoveEvent;
    if !l.pc.LockToMove? {
      if l.pc.Done? {
        MoveFoot(env, db, NO_ROWS, l.held, op.exec, MoveEvent(op));
      } else {
        AtMoveFoot(env, db, NO_ROWS, l);
      }
    }
  }

  lemma DecideFoot(env: Env, op: Op, l: Local, db: Db)
    requires op.Decide? && AtDecide(op, l, db)
    ensures Foot(env, db, l.writes, l.held)
  {
    NoRowsFoot(env, db, l.held);
    hide Foot, AtMove, PutConsequence, VerdictOf, VerdictActor, PutVerdict;
    if !l.pc.LockToDecide? && !l.pc.SelectApproval? && !l.pc.WriteVerdict? {
      var who := VerdictActor(op, l.verdict);
      var base := PutVerdict(db, NO_ROWS, op.approvalId, l.verdict, who);
      VerdictFoot(env, db, NO_ROWS, l.held, op.approvalId, l.verdict, who);
      if l.pc.Done? {
        ConsequenceFoot(env, db, base, l.held, op.exec, op.approvalId, l.verdict, who, l.ch.begun);
      } else {
        AtMoveFoot(env, db, base, l);
      }
    }
  }

  lemma {:induction false} ExpireFoot(env: Env, db: Db, claims: seq<ApprovalId>, mine: set<Lock>, k: nat)
    requires RealClaims(db, claims) && k <= |claims|
    requires forall j | 0 <= j < |claims| :: ExecLock(db.approvals[claims[j]].exec) in mine
    ensures Foot(env, db, ExpireWrites(db, claims, k), mine)
  {
    hide Foot, PutVerdict, Merge;
    if k == 0 {
      NoRowsFoot(env, db, mine);
    } else {
      ExpireFoot(env, db, claims, mine, k - 1);
      VerdictFoot(env, db, ExpireWrites(db, claims, k - 1), mine, claims[k - 1], Expired, EXPIRY_ACTOR);
    }
  }

  lemma {:induction false} ProgressFoot(env: Env, db: Db, claims: seq<ApprovalId>, mine: set<Lock>, k: nat)
    requires RealClaims(db, claims) && k <= |claims|
    requires forall j | 0 <= j < |claims| :: ExecLock(db.approvals[claims[j]].exec) in mine
    ensures Foot(env, db, SweepProgress(db, claims, k).writes, mine)
  {
    hide Foot, PutConsequence, ExpireWrites, SweepProgress;
    if k == 0 {
      ExpireFoot(env, db, claims, mine, |claims|);
      FirstProgress(db, claims);
    } else {
      ProgressFoot(env, db, claims, mine, k - 1);
      HandlingFoot(env, db, claims, mine, k - 1);
    }
  }

  lemma HandlingFoot(env: Env, db: Db, claims: seq<ApprovalId>, mine: set<Lock>, k: nat)
    requires RealClaims(db, claims) && k < |claims| && ExecLock(db.approvals[claims[k]].exec) in mine
    requires Foot(env, db, SweepProgress(db, claims, k).writes, mine)
    ensures Foot(env, db, SweepProgress(db, claims, k + 1).writes, mine)
  {
    hide Foot, PutConsequence, ExpireWrites;
    var w, e := SweepProgress(db, claims, k).writes, db.approvals[claims[k]].exec;
    ClaimIsThere(db, w, e);
    ConsequenceFoot(env, db, w, mine, e, claims[k], Expired, EXPIRY_ACTOR, 0);
    SkipOrReject(db, claims, k);
    hide SweepProgress, Merge;
  }

  lemma SweepFoot(env: Env, op: Op, l: Local, db: Db)
    requires op.Sweep? && AtSweep(op, l, db)
    ensures Foot(env, db, l.writes, l.held)
  {
    hide Foot, AtMove, SweepProgress, ExpireWrites, Merge;
    if l.pc.ClaimExpired? {
      NoRowsFoot(env, db, l.held);
    } else if l.pc.MarkExpired? {
      ExpireFoot(env, db, l.ch.approvals, l.held, l.i);
    } else if l.pc.Done? {
      ProgressFoot(env, db, l.ch.approvals, l.held, |l.ch.approvals|);
    } else {
      ProgressFoot(env, db, l.ch.approvals, l.held, l.i);
      if !l.pc.NextClaim? {
        AtMoveFoot(env, db, SweepProgress(db, l.ch.approvals, l.i).writes, l);
      }
    }
  }

  lemma OutboxFoot(env: Env, op: Op, l: Local, db: Db)
    requires (op.ClaimDispatches? || op.MarkSucceeded? || op.MarkFailed?) && AtOutbox(op, l, db)
    ensures Foot(env, db, l.writes, l.held)
  {
    hide SlotOf, ClaimedRow, MarkedRow;
  }

  lemma {:induction false} StageFoot(env: Env, op: Op, l: Local, ch: Choice, db: Db, stage: nat)
    requires op.Start? && WellFormedOp(env, op) && stage <= 5
    requires op.request.tenantId in db.tenants || TenantLock(op.request.tenantId) in l.held
    requires Keyed(op) ==> AdvisoryLock(op.slot) in l.held && KeyOf(op) !in db.idempotency
    requires stage >= 1 ==> ExecLock(op.request.executionId) in l.held && op.request.executionId !in db.execs
    requires stage >= 2 ==> EventKey(op.request.executionId, 1) !in db.events
    requires stage >= 3 && InitialStatus(op.request) == Approval ==> op.approvalId !in db.approvals
    requires stage >= 3 && InitialStatus(op.request) == Intake && op.request.executionId !in db.dispatches ==>
      DispatchLock(op.request.executionId) in l.held
    ensures Foot(env, db, StartWrites(op, ch, db, stage), l.held)
  {
    hide FirstEvent, PolicyAudit, InitialStatus, Foot, PutGate, PutExecution, PutEvent, PutAudit;
    hide PutIdempotency, WellFormedOp, SlotOf;
    if stage == 0 {
      TenantFoot(env, op, l, ch, db);
    } else {
      StageFoot(env, op, l, ch, db, stage - 1);
      var w := StartWrites(op, ch, db, stage - 1);
      if stage == 3 { GateFoot(env, op, l, ch, db, w); }
      else if stage == 1 {
        ExecutionFoot(env, db, w, l.held, op.request.executionId, ExecRow(op.request, InitialStatus(op.request)));
      }
      else if stage == 2 { EventFoot(env, db, w, l.held, op.request.executionId, FirstEvent(op.request)); }
      else if stage == 4 { AuditFoot(env, db, w, l.held, PolicyAudit(op.request)); }
      else if Keyed(op) {
        SlotIsKeys(env, op);
        KeyFoot(env, db, w, l.held, KeyOf(op), IdemRow(op.request.executionId, op.hash));
      }
    }
  }

  lemma GateFoot(env: Env, op: Op, l: Local, ch: Choice, db: Db, w: Db)
    requires op.Start? && Foot(env, db, w, l.held)
    requires InitialStatus(op.request) == Approval ==> op.approvalId !in db.approvals
    requires InitialStatus(op.request) == Intake && op.request.executionId !in db.dispatches ==>
      DispatchLock(op.request.executionId) in l.held
    ensures Foot(env, db, PutGate(db, w, op, ch), l.held)
  {
    hide InitialStatus, NewApproval, NewDispatch, SlotOf;
  }

  lemma ExecutionFoot(env: Env, db: Db, w: Db, mine: set<Lock>, e: ExecId, row: ExecRow)
    requires Foot(env, db, w, mine) && ExecLock(e) in mine && e !in db.execs
    ensures Foot(env, db, PutExecution(w, e, row), mine)
  {
    hide SlotOf;
  }

  lemma EventFoot(env: Env, db: Db, w: Db, mine: set<Lock>, e: ExecId, ev: Event)
    requires Foot(env, db, w, mine) && ExecLock(e) in mine && EventKey(e, 1) !in db.events
    ensures Foot(env, db, PutEvent(w, e, 1, ev), mine)
  {
    hide SlotOf;
  }

  lemma KeyFoot(env: Env, db: Db, w: Db, mine: set<Lock>, k: IdemKey, row: IdemRow)
    requires Foot(env, db, w, mine) && AdvisoryLock(SlotOf(env, k)) in mine && k !in db.idempotency
    ensures Foot(env, db, PutIdempotency(db, w, k, row), mine)
  {
    hide SlotOf;
  }

  lemma SlotIsKeys(env: Env, op: Op)
    requires WellFormedOp(env, op) && Keyed(op)
    ensures op.slot == SlotOf(env, KeyOf(op))
  {
  }

  lemma StartFoot(env: Env, op: Op, l: Local, db: Db)
    requires op.Start? && AtStart(op, l, db) && WellFormedOp(env, op)
    ensures Foot(env, db, l.writes, l.held)
  {
    hide Foot, StartWrites, InitialStatus, WellFormedOp;
    match l.pc
    case EnsureTenant => NoRowsFoot(env, db, l.held);
    case InsertExecution => StageFoot(env, op, l, l.ch, db, 0);
    case InsertFirstEvent => StageFoot(env, op, l, l.ch, db, 1);
    case InsertGate => StageFoot(env, op, l, l.ch, db, 2);
    case InsertPolicyAudit => StageFoot(env, op, l, l.ch, db, 3);
    case PutKey => StageFoot(env, op, l, l.ch, db, 4);
    case RecheckKey => StageFoot(env, op, l, l.ch, db, 5);
    case Done =>
      if l.reply.Reused? { TenantFoot(env, op, l, l.ch, db); } else { StageFoot(env, op, l, l.ch, db, 5); }
    case _ => TenantFoot(env, op, l, l.ch, db);
  }

  lemma TenantFoot(env: Env, op: Op, l: Local, ch: Choice, db: Db)
    requires op.Start? && (op.request.tenantId in db.tenants || TenantLock(op.request.tenantId) in l.held)
    ensures Foot(env, db, StartWrites(op, ch, db, 0), l.held)
  {
  }

  /** A transaction on course writes only under its own locks. */
  lemma WritesAreLocked(env: Env, op: Op, l: Local, db: Db)
    requires At(op, l, db) && WellFormedOp(env, op)
    ensures Foot(env, db, l.writes, l.held)
  {
    hide Foot, AtStart, AtDecide, AtSweep, AtPlainMove, AtOutbox, WellFormedOp;
    match op
    case Start(_, _, _, _, _) => StartFoot(env, op, l, db);
    case Decide(_, _, _, _) => DecideFoot(env, op, l, db);
    case Sweep(_) => SweepFoot(env, op, l, db);
    case Transition(_, _, _, _) => PlainMoveFoot(env, op, l, db);
    case Fail(_, _, _) => PlainMoveFoot(env, op, l, db);
    case _ => OutboxFoot(env, op, l, db);
  }

  // ---------- stability under other clients' commits ----------

  /** For a locked execution, moving it means the same before and after. */
  lemma MoveSame(env: Env, db: Db, u: Db, w: Db, held: set<Lock>, e: ExecId, ev: Event)
    requires Agree(env, db, u, held) && ExecLock(e) in held && e in db.execs && e in Merge(db, w).execs
    ensures e in u.execs && e in Merge(u, w).execs && Merge(u, w).execs[e] == Merge(db, w).execs[e]
    ensures MaxSeq(Merge(u, w).events, e) == MaxSeq(Merge(db, w).events, e)
    ensures PutStatus(u, w, e, ev.status) == PutStatus(db, w, e, ev.status)
    ensures PutMove(u, w, e, ev) == PutMove(db, w, e, ev)
  {
    SameMaximum(env, db, u, w, held, e);
    hide SlotOf, MaxSeq;
    assert e in Merge(u, w).execs && Merge(u, w).execs[e] == Merge(db, w).execs[e];
    hide Merge, Agree;
  }

  lemma SameMaximum(env: Env, db: Db, u: Db, w: Db, held: set<Lock>, e: ExecId)
    requires Agree(env, db, u, held) && ExecLock(e) in held
    ensures MaxSeq(Merge(u, w).events, e) == MaxSeq(Merge(db, w).events, e)
  {
    hide SlotOf;
    MaxSeqSame(Merge(db, w).events, Merge(u, w).events, e);
  }

  lemma VerdictSame(env: Env, db: Db, u: Db, w: Db, held: set<Lock>, a: ApprovalId, v: ApprovalStatus, who: string)
    requires Agree(env, db, u, held) && a in db.approvals && ExecLock(db.approvals[a].exec) in held
    ensures a in u.approvals && PutVerdict(u, w, a, v, who) == PutVerdict(db, w, a, v, who)
  {
    hide SlotOf;
  }

  lemma DispatchSame(env: Env, db: Db, u: Db, w: Db, held: set<Lock>, e: ExecId, now: int)
    requires Agree(env, db, u, held) && (e in db.dispatches || DispatchLock(e) in held)
    ensures e in u.dispatches <==> e in db.dispatches
    ensures PutDispatch(u, w, e, now) == PutDispatch(db, w, e, now)
  {
    hide SlotOf;
  }

  lemma ConsequenceSame(
      env: Env, db: Db, u: Db, w: Db, held: set<Lock>, e: ExecId, a: ApprovalId, v: ApprovalStatus, who: string,
      now: int)
    requires Agree(env, db, u, held) && ExecLock(e) in held && e in db.execs && e in Merge(db, w).execs
    requires v == Approved && e !in db.dispatches ==> DispatchLock(e) in held
    ensures e in Merge(u, w).execs
    ensures PutConsequence(u, w, e, a, v, who, now) == PutConsequence(db, w, e, a, v, who, now)
  {
    MoveSame(env, db, u, w, held, e, VerdictEvent(a, v, who));
    if v == Approved {
      DispatchSame(env, db, u, PutMove(db, w, e, VerdictEvent(a, v, who)), held, e, now);
    }
    hide Agree, Merge, PutMove, PutDispatch, MaxSeq;
  }

  lemma AtMoveSame(env: Env, db: Db, u: Db, base: Db, l: Local)
    requires Agree(env, db, u, l.held) && AtMove(db, base, l)
    ensures AtMove(u, base, l)
  {
    hide Agree, Merge, PutMove, PutStatus, PutDispatch, MaxSeq;
    MoveSame(env, db, u, base, l.held, l.exec, l.event);
    AtMoveDispatchSame(env, db, u, base, l);
  }

  lemma AtMoveDispatchSame(env: Env, db: Db, u: Db, base: Db, l: Local)
    requires Agree(env, db, u, l.held) && AtMove(db, base, l) && l.exec in Merge(db, base).execs
    ensures l.pc.InsertVerdictAudit? && l.verdict == Approved ==>
      var moved := PutMove(db, base, l.exec, l.event);
      && PutDispatch(u, moved, l.exec, l.ch.begun) == PutDispatch(db, moved, l.exec, l.ch.begun)
      && (l.exec in u.dispatches <==> l.exec in db.dispatches)
  {
    hide Agree, PutMove, PutDispatch, Merge;
    if l.pc.InsertVerdictAudit? && l.verdict == Approved {
      DispatchSame(env, db, u, PutMove(db, base, l.exec, l.event), l.held, l.exec, l.ch.begun);
    }
  }

  lemma PlainMoveStable(env: Env, op: Op, l: Local, db: Db, u: Db)
    requires (op.Transition? || op.Fail?) && AtPlainMove(op, l, db) && Agree(env, db, u, l.held)
    ensures AtPlainMove(op, l, u)
  {
    if !l.pc.LockToMove? {
      MergeNothing(db);
      MergeNothing(u);
      MoveSame(env, db, u, NO_ROWS, l.held, op.exec, MoveEvent(op));
      assert u.execs[op.exec] == db.execs[op.exec];
      hide Agree, AtMove, PutMove, Accepts, MoveEvent, Merge, MaxSeq;
      if !l.pc.Done? {
        AtMoveSame(env, db, u, NO_ROWS, l);
      }
    }
  }

  /** The refusal tests of a decision look only at locked rows. */
  lemma RefusalSame(env: Env, op: Op, db: Db, u: Db, held: set<Lock>)
    requires op.Decide? && Agree(env, db, u, held) && DecideRefusal(op, db).None? && ExecLock(op.exec) in held
    ensures DecideRefusal(op, u).None? && u.approvals[op.approvalId] == db.approvals[op.approvalId]
  {
    hide SlotOf;
  }

  lemma DecideStable(env: Env, op: Op, l: Local, db: Db, u: Db)
    requires op.Decide? && AtDecide(op, l, db) && Agree(env, db, u, l.held)
    ensures AtDecide(op, l, u)
  {
    hide SlotOf, DecideRefusal, AtMove, PutConsequence, VerdictOf, VerdictActor, PutVerdict, Merge;
    if !l.pc.LockToDecide? {
      assert op.exec in u.execs && u.execs[op.exec] == db.execs[op.exec];
      if !l.pc.SelectApproval? {
        RefusalSame(env, op, db, u, l.held);
        UnrefusedIsGrantable(op, db);
        var who := VerdictActor(op, l.verdict);
        MergeNothing(db);
        VerdictSame(env, db, u, NO_ROWS, l.held, op.approvalId, l.verdict, who);
        DecideBaseStable(env, op, l, db, u, PutVerdict(db, NO_ROWS, op.approvalId, l.verdict, who), who);
      }
    }
  }

  lemma DecideBaseStable(env: Env, op: Op, l: Local, db: Db, u: Db, base: Db, who: string)
    requires Agree(env, db, u, l.held) && op.Decide? && ExecLock(op.exec) in l.held && op.exec in db.execs
    ensures AtMove(db, base, l) ==> AtMove(u, base, l)
    ensures op.exec in Merge(db, base).execs && op.exec in Merge(u, base).execs
    ensures (l.verdict == Approved && op.exec !in db.dispatches ==> DispatchLock(op.exec) in l.held) ==>
      && PutConsequence(u, base, op.exec, op.approvalId, l.verdict, who, l.ch.begun)
        == PutConsequence(db, base, op.exec, op.approvalId, l.verdict, who, l.ch.begun)
      && (l.verdict == Approved && op.exec !in u.dispatches ==> DispatchLock(op.exec) in l.held)
  {
    ClaimIsThere(db, base, op.exec);
    MoveSame(env, db, u, base, l.held, op.exec, l.event);
    hide AtMove, PutConsequence, Merge;
    if AtMove(db, base, l) { AtMoveSame(env, db, u, base, l); }
    if l.verdict == Approved && op.exec !in db.dispatches ==> DispatchLock(op.exec) in l.held {
      ConsequenceSame(env, db, u, base, l.held, op.exec, op.approvalId, l.verdict, who, l.ch.begun);
      hide SlotOf;
    }
  }

  ghost predicate ClaimsHeld(db: Db, claims: seq<ApprovalId>, held: set<Lock>) {
    && PendingClaims(db, claims)
    && (forall j | 0 <= j < |claims| :: ExecLock(db.approvals[claims[j]].exec) in held)
  }

  lemma ClaimsSame(env: Env, db: Db, u: Db, held: set<Lock>, claims: seq<ApprovalId>)
    requires Agree(env, db, u, held) && ClaimsHeld(db, claims, held)
    ensures ClaimsHeld(u, claims, held)
    ensures forall j | 0 <= j < |claims| :: u.approvals[claims[j]] == db.approvals[claims[j]]
  {
    hide SlotOf;
  }

  lemma {:induction false} ExpireSame(env: Env, db: Db, u: Db, held: set<Lock>, claims: seq<ApprovalId>, k: nat)
    requires Agree(env, db, u, held) && ClaimsHeld(db, claims, held) && ClaimsHeld(u, claims, held) && k <= |claims|
    ensures ExpireWrites(u, claims, k) == ExpireWrites(db, claims, k)
  {
    hide Agree, PutVerdict, Merge;
    if k > 0 {
      ExpireSame(env, db, u, held, claims, k - 1);
      VerdictSame(env, db, u, ExpireWrites(db, claims, k - 1), held, claims[k - 1], Expired, EXPIRY_ACTOR);
    }
  }

  lemma {:induction false} ProgressSame(env: Env, db: Db, u: Db, held: set<Lock>, claims: seq<ApprovalId>, k: nat)
    requires Agree(env, db, u, held) && ClaimsHeld(db, claims, held) && ClaimsHeld(u, claims, held) && k <= |claims|
    requires RealClaims(db, claims) && RealClaims(u, claims)
    ensures SweepProgress(u, claims, k) == SweepProgress(db, claims, k)
  {
    hide Agree, ExpireWrites, PutConsequence, SweepProgress, ClaimsHeld;
    if k == 0 {
      FirstProgressSame(env, db, u, held, claims);
    } else {
      ProgressSame(env, db, u, held, claims, k - 1);
      HandlingSame(env, db, u, held, claims, k - 1);
    }
  }

  lemma FirstProgressSame(env: Env, db: Db, u: Db, held: set<Lock>, claims: seq<ApprovalId>)
    requires Agree(env, db, u, held) && ClaimsHeld(db, claims, held) && ClaimsHeld(u, claims, held)
    ensures SweepProgress(u, claims, 0) == SweepProgress(db, claims, 0)
  {
    hide Agree, ExpireWrites, PutConsequence;
    ExpireSame(env, db, u, held, claims, |claims|);
  }

  lemma HandlingSame(env: Env, db: Db, u: Db, held: set<Lock>, claims: seq<ApprovalId>, k: nat)
    requires Agree(env, db, u, held) && ClaimsHeld(db, claims, held) && ClaimsHeld(u, claims, held) && k < |claims|
    requires SweepProgress(u, claims, k) == SweepProgress(db, claims, k)
    ensures SweepProgress(u, claims, k + 1) == SweepProgress(db, claims, k + 1)
  {
    hide Agree, ExpireWrites, PutConsequence;
    var w, e := SweepProgress(db, claims, k).writes, db.approvals[claims[k]].exec;
    ClaimsSame(env, db, u, held, claims);
    ClaimIsThere(db, w, e);
    ClaimIsThere(u, w, e);
    MoveSame(env, db, u, w, held, e, VerdictEvent(claims[k], Expired, EXPIRY_ACTOR));
    ConsequenceSame(env, db, u, w, held, e, claims[k], Expired, EXPIRY_ACTOR, 0);
    SkipOrReject(db, claims, k);
    SkipOrReject(u, claims, k);
    hide SweepProgress, Merge, PutMove, PutStatus, MaxSeq;
  }

  lemma SweepStable(env: Env, op: Op, l: Local, db: Db, u: Db)
    requires op.Sweep? && AtSweep(op, l, db) && Agree(env, db, u, l.held)
    ensures AtSweep(op, l, u)
  {
    if !l.pc.ClaimExpired? {
      assert ClaimsHeld(db, l.ch.approvals, l.held);
      ClaimsSame(env, db, u, l.held, l.ch.approvals);
      hide Agree, AtMove, SweepProgress, ExpireWrites, PendingClaims, Merge;
      assert HoldsClaims(l, u);
      ExpireSame(env, db, u, l.held, l.ch.approvals, l.i);
      assert RealClaims(db, l.ch.approvals) && RealClaims(u, l.ch.approvals) by {
        ClaimsAreReal(db, l);
        ClaimsAreReal(u, l);
      }
      ProgressSame(env, db, u, l.held, l.ch.approvals, |l.ch.approvals|);
      ProgressSame(env, db, u, l.held, l.ch.approvals, l.i);
      if !l.pc.MarkExpired? && !l.pc.Done? && !l.pc.NextClaim? {
        RejectingSame(env, op, l, db, u);
      }
    }
  }

  lemma ClaimsAreReal(db: Db, l: Local)
    requires HoldsClaims(l, db)
    ensures RealClaims(db, l.ch.approvals)
  {
  }

  lemma RejectingSame(env: Env, op: Op, l: Local, db: Db, u: Db)
    requires op.Sweep? && AtSweep(op, l, db) && Agree(env, db, u, l.held) && HoldsClaims(l, u)
    requires !l.pc.ClaimExpired? && !l.pc.MarkExpired? && !l.pc.Done? && !l.pc.NextClaim?
    requires SweepProgress(u, l.ch.approvals, l.i) == SweepProgress(db, l.ch.approvals, l.i)
    ensures var w := SweepProgress(u, l.ch.approvals, l.i).writes;
      AtMove(u, w, l) && l.exec in Merge(u, w).execs && Merge(u, w).execs[l.exec].status == Approval
  {
    var w := SweepProgress(db, l.ch.approvals, l.i).writes;
    AtMoveSame(env, db, u, w, l);
    assert l.exec in db.execs && ExecLock(l.exec) in l.held;
    MoveSame(env, db, u, w, l.held, l.exec, l.event);
    hide Agree, AtMove, SweepProgress, PendingClaims, Merge, PutMove, PutStatus, MaxSeq;
  }

  lemma OutboxStable(env: Env, op: Op, l: Local, db: Db, u: Db)
    requires (op.ClaimDispatches? || op.MarkSucceeded? || op.MarkFailed?) && AtOutbox(op, l, db)
    requires Agree(env, db, u, l.held)
    requires op.MarkSucceeded? || op.MarkFailed? ==> op.exec in db.dispatches
    ensures AtOutbox(op, l, u)
  {
    hide SlotOf, ClaimedRow, MarkedRow;
    if l.pc.Done? && !op.ClaimDispatches? {
      assert op.exec in l.writes.dispatches;
    }
  }

  /** The locks and absences on which a starting transaction's writes rest. */
  ghost predicate StageLocks(op: Op, held: set<Lock>, db: Db, stage: nat)
    requires op.Start?
  {
    var e, s := op.request.executionId, InitialStatus(op.request);
    && (op.request.tenantId in db.tenants || TenantLock(op.request.tenantId) in held)
    && (Keyed(op) ==> AdvisoryLock(op.slot) in held && KeyOf(op) !in db.idempotency)
    && (stage >= 1 ==> ExecLock(e) in held && e !in db.execs)
    && (stage >= 2 ==> EventKey(e, 1) !in db.events)
    && (stage >= 3 && s == Approval ==> op.approvalId !in db.approvals)
    && (stage >= 3 && s == Intake && e !in db.dispatches ==> DispatchLock(e) in held)
  }

  lemma StageLocksStable(env: Env, op: Op, held: set<Lock>, db: Db, u: Db, stage: nat)
    requires op.Start? && StageLocks(op, held, db, stage) && Agree(env, db, u, held)
    requires WellFormedOp(env, op) && FreshIds(op, u)
    ensures StageLocks(op, held, u, stage)
  {
    hide InitialStatus, Valid, RequestHash, SlotOf;
  }

  lemma TenantSame(env: Env, op: Op, ch: Choice, held: set<Lock>, db: Db, u: Db)
    requires op.Start? && Agree(env, db, u, held)
    requires op.request.tenantId in db.tenants || TenantLock(op.request.tenantId) in held
    ensures op.request.tenantId in u.tenants || TenantLock(op.request.tenantId) in held
    ensures StartWrites(op, ch, u, 0) == StartWrites(op, ch, db, 0)
  {
    hide SlotOf;
  }

  lemma ApprovalSame(db: Db, u: Db, w: Db, a: ApprovalId, row: ApprovalRow)
    requires a in db.approvals <==> a in u.approvals
    ensures PutApproval(u, w, a, row) == PutApproval(db, w, a, row)
  {
    assert a in Merge(u, w).approvals <==> a in Merge(db, w).approvals;
    hide Merge;
  }

  lemma GateSame(env: Env, op: Op, ch: Choice, held: set<Lock>, db: Db, u: Db, w: Db)
    requires op.Start? && StageLocks(op, held, db, 3) && StageLocks(op, held, u, 3) && Agree(env, db, u, held)
    ensures PutGate(u, w, op, ch) == PutGate(db, w, op, ch)
  {
    var s, e := InitialStatus(op.request), op.request.executionId;
    hide InitialStatus, NewApproval, NewDispatch, PutApproval, PutDispatch, Agree;
    if s == Approval {
      ApprovalSame(db, u, w, op.approvalId, NewApproval(op.request, ch.clock));
    } else if s == Intake {
      DispatchSame(env, db, u, w, held, e, ch.begun);
    }
  }

  lemma {:induction false} StageSame(env: Env, op: Op, ch: Choice, held: set<Lock>, db: Db, u: Db, stage: nat)
    requires op.Start? && StageLocks(op, held, db, stage) && StageLocks(op, held, u, stage) && Agree(env, db, u, held)
    requires stage <= 5
    ensures StartWrites(op, ch, u, stage) == StartWrites(op, ch, db, stage)
  {
    if stage == 0 {
      TenantSame(env, op, ch, held, db, u);
    } else {
      StageSame(env, op, ch, held, db, u, stage - 1);
      var w := StartWrites(op, ch, db, stage - 1);
      if stage == 3 { GateSame(env, op, ch, held, db, u, w); }
      hide Agree, PutGate, PutTenant, FirstEvent, InitialStatus, PolicyAudit;
    }
  }

  lemma AtStageStable(env: Env, op: Op, l: Local, db: Db, u: Db, stage: nat)
    requires op.Start? && AtStage(op, l, db, stage) && Agree(env, db, u, l.held) && stage <= 5
    requires WellFormedOp(env, op) && FreshIds(op, u)
    ensures AtStage(op, l, u, stage)
  {
    hide StartWrites, InitialStatus, Agree, WellFormedOp;
    StageLocksStable(env, op, l.held, db, u, stage);
    StageSame(env, op, l.ch, l.held, db, u, stage);
  }

  lemma AtReuseStable(env: Env, op: Op, l: Local, db: Db, u: Db)
    requires op.Start? && AtReuse(op, l, db) && Agree(env, db, u, l.held)
    ensures AtReuse(op, l, u)
    ensures EventKey(l.found, l.seen) in db.events ==> EventKey(l.found, l.seen) in u.events
  {
    TenantSame(env, op, l.ch, l.held, db, u);
    hide StartWrites, SlotOf;
  }

  lemma StartStable(env: Env, op: Op, l: Local, db: Db, u: Db)
    requires op.Start? && AtStart(op, l, db) && Agree(env, db, u, l.held)
    requires WellFormedOp(env, op) && FreshIds(op, u)
    ensures AtStart(op, l, u)
  {
    hide Agree, AtStage, AtReuse, StartWrites, WellFormedOp;
    match l.pc
    case EnsureTenant =>
    case TakeAdvisory => TenantSame(env, op, l.ch, l.held, db, u);
    case FindKey => TenantSame(env, op, l.ch, l.held, db, u);
    case ReadLatest => AtReuseStable(env, op, l, db, u);
    case InsertExecution => AtStageStable(env, op, l, db, u, 0);
    case InsertFirstEvent => AtStageStable(env, op, l, db, u, 1);
    case InsertGate => AtStageStable(env, op, l, db, u, 2);
    case InsertPolicyAudit => AtStageStable(env, op, l, db, u, 3);
    case PutKey => AtStageStable(env, op, l, db, u, 4);
    case RecheckKey => AtStageStable(env, op, l, db, u, 5);
    case Done => if l.reply.Reused? { AtReuseStable(env, op, l, db, u); } else { AtStageStable(env, op, l, db, u, 5); }
    case _ =>
  }

  /** Commits of others leave a transaction where it stands. */
  lemma StaysOnCourse(env: Env, op: Op, l: Local, db: Db, u: Db)
    requires At(op, l, db) && Agree(env, db, u, l.held) && WellFormedOp(env, op) && FreshIds(op, u)
    requires op.MarkSucceeded? || op.MarkFailed? ==> op.exec in db.dispatches
    ensures At(op, l, u)
  {
    hide Agree, AtStart, AtDecide, AtSweep, AtPlainMove, AtOutbox, WellFormedOp;
    match op
    case Start(_, _, _, _, _) => StartStable(env, op, l, db, u);
    case Decide(_, _, _, _) => DecideStable(env, op, l, db, u);
    case Sweep(_) => SweepStable(env, op, l, db, u);
    case Transition(_, _, _, _) => PlainMoveStable(env, op, l, db, u);
    case Fail(_, _, _) => PlainMoveStable(env, op, l, db, u);
    case _ => OutboxStable(env, op, l, db, u);
  }
}
