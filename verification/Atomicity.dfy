/**
 * Locking makes the interleaved transactions behave as if each ran alone at its commit.
 *
 * `At` says, for every statement a client may be about to execute, exactly what its transaction has
 * written so far as a function of the committed tables.  It survives the client's own statements and,
 * because every row it speaks of is locked, everybody else's commits; at COMMIT it is `Effect`.
 */
module Atomicity {
  import opened Base
  import opened StateMachine
  import opened Requests
  import opened Tables
  import opened Kernel
  import opened Interleaving

  // ---------- where a transaction stands ----------

  /** Inside the shared move, on top of the writes `base`. */
  ghost predicate AtMove(db: Db, base: Db, l: Local) {
    && ExecLock(l.exec) in l.held && l.exec in db.execs && l.exec in Merge(db, base).execs
    && var next := MaxSeq(Merge(db, base).events, l.exec) + 1;
       match l.pc
       case ReadMax => l.writes == base
       case UpdateStatus => l.writes == base && l.sequence == next
       case InsertEvent => l.writes == PutStatus(db, base, l.exec, l.event.status) && l.sequence == next
       case InsertDispatch => l.writes == PutMove(db, base, l.exec, l.event) && l.verdict == Approved
       case InsertVerdictAudit =>
         && (l.verdict == Approved && l.exec !in db.dispatches ==> DispatchLock(l.exec) in l.held)
         && var moved := PutMove(db, base, l.exec, l.event);
            l.writes == if l.verdict == Approved then PutDispatch(db, moved, l.exec, l.ch.begun) else moved
       case _ => false
  }

  ghost predicate AtPlainMove(op: Op, l: Local, db: Db)
    requires op.Transition? || op.Fail?
  {
    if l.pc.LockToMove? then l.writes == NO_ROWS
    else
      && op.exec in db.execs && ExecLock(op.exec) in l.held && Accepts(op, db.execs[op.exec].status)
      && if l.pc.Done? then
           && l.writes == PutMove(db, NO_ROWS, op.exec, MoveEvent(op))
           && l.reply == Moved(MaxSeq(db.events, op.exec) + 1)
         else
           && l.exec == op.exec && l.event == MoveEvent(op) && AtMove(db, NO_ROWS, l)
           && !l.pc.InsertDispatch? && !l.pc.InsertVerdictAudit?
  }

  /** A creating start up to its `stage`-th write, with the locks that keep those writes valid. */
  ghost predicate AtStage(op: Op, l: Local, db: Db, stage: nat)
    requires op.Start?
  {
    var e, s := op.request.executionId, InitialStatus(op.request);
    && l.writes == StartWrites(op, l.ch, db, stage)
    && (op.request.tenantId in db.tenants || TenantLock(op.request.tenantId) in l.held)
    && (Keyed(op) ==> AdvisoryLock(op.slot) in l.held && KeyOf(op) !in db.idempotency)
    && (stage >= 1 ==> ExecLock(e) in l.held && e !in db.execs)
    && (stage >= 2 ==> EventKey(e, 1) !in db.events)
    && (stage >= 3 ==>
          && (s == Approval ==> ApprovalLock(op.approvalId) in l.held && op.approvalId !in db.approvals)
          && (s == Intake && e !in db.dispatches ==> DispatchLock(e) in l.held))
  }

  ghost predicate AtReuse(op: Op, l: Local, db: Db)
    requires op.Start?
  {
    && l.writes == StartWrites(op, l.ch, db, 0)
    && (op.request.tenantId in db.tenants || TenantLock(op.request.tenantId) in l.held)
    && Keyed(op) && KeyOf(op) in db.idempotency && db.idempotency[KeyOf(op)] == IdemRow(l.found, op.hash)
  }

  ghost predicate AtStart(op: Op, l: Local, db: Db)
    requires op.Start?
  {
    match l.pc
    case EnsureTenant => l.writes == NO_ROWS
    case TakeAdvisory => Keyed(op) && l.writes == StartWrites(op, l.ch, db, 0)
      && (op.request.tenantId in db.tenants || TenantLock(op.request.tenantId) in l.held)
    case FindKey => Keyed(op) && l.writes == StartWrites(op, l.ch, db, 0) && AdvisoryLock(op.slot) in l.held
      && (op.request.tenantId in db.tenants || TenantLock(op.request.tenantId) in l.held)
    case ReadLatest => AtReuse(op, l, db)
    case InsertExecution => AtStage(op, l, db, 0)
    case InsertFirstEvent => AtStage(op, l, db, 1)
    case InsertGate => AtStage(op, l, db, 2)
    case InsertPolicyAudit => AtStage(op, l, db, 3)
    case PutKey => Keyed(op) && AtStage(op, l, db, 4)
    case RecheckKey => Keyed(op) && AtStage(op, l, db, 5)
    case Done =>
      if l.reply.Reused? then
        && AtReuse(op, l, db) && l.reply == Reused(l.found)
        && l.seen >= 1 && EventKey(l.found, l.seen) in db.events
      else l.reply == Started && AtStage(op, l, db, 5)
    case _ => false
  }

  ghost predicate AtDecide(op: Op, l: Local, db: Db)
    requires op.Decide?
  {
    if l.pc.LockToDecide? then l.writes == NO_ROWS
    else
      && op.exec in db.execs && db.execs[op.exec].status == Approval && ExecLock(op.exec) in l.held
      && if l.pc.SelectApproval? then l.writes == NO_ROWS
         else
           && DecideRefusal(op, db).None? && ApprovalLock(op.approvalId) in l.held
           && var v := VerdictOf(op, db.approvals[op.approvalId], l.ch.clock);
              var who := VerdictActor(op, v);
              var base := PutVerdict(db, NO_ROWS, op.approvalId, v, who);
              && l.verdict == v && l.claim == op.approvalId
              && if l.pc.WriteVerdict? then l.writes == NO_ROWS
                 else if l.pc.Done? then
                   && l.writes == PutConsequence(db, base, op.exec, op.approvalId, v, who, l.ch.begun)
                   && l.reply == (if v == Expired then ApprovalExpired else Decided(v))
                   && (v == Approved && op.exec !in db.dispatches ==> DispatchLock(op.exec) in l.held)
                 else l.exec == op.exec && l.event == VerdictEvent(op.approvalId, v, who) && AtMove(db, base, l)
  }

  /** The claims are pending approvals of executions this client has locked. */
  ghost predicate HoldsClaims(l: Local, db: Db) {
    && PendingClaims(db, l.ch.approvals)
    && (forall j | 0 <= j < |l.ch.approvals| :: ExecLock(db.approvals[l.ch.approvals[j]].exec) in l.held)
  }

  ghost predicate AtSweep(op: Op, l: Local, db: Db)
    requires op.Sweep?
  {
    if l.pc.ClaimExpired? then l.writes == NO_ROWS && l.rejected == 0 && l.skipped == 0
    else
      && HoldsClaims(l, db) && l.i <= |l.ch.approvals|
      && if l.pc.MarkExpired? then
           l.writes == ExpireWrites(db, l.ch.approvals, l.i) && l.rejected == 0 && l.skipped == 0
         else if l.pc.Done? then
           && SweepProgress(db, l.ch.approvals, |l.ch.approvals|) == Progress(l.writes, l.rejected, l.skipped)
           && l.reply == Swept(|l.ch.approvals|, l.rejected, l.skipped)
         else if l.pc.NextClaim? then
           SweepProgress(db, l.ch.approvals, l.i) == Progress(l.writes, l.rejected, l.skipped)
         else
           && l.i < |l.ch.approvals|
           && var p := SweepProgress(db, l.ch.approvals, l.i);
              && p.rejected == l.rejected && p.skipped == l.skipped
              && l.claim == l.ch.approvals[l.i] && l.verdict == Expired
              && l.exec == db.approvals[l.claim].exec && l.event == VerdictEvent(l.claim, Expired, EXPIRY_ACTOR)
              && AtMove(db, p.writes, l)
              && Merge(db, p.writes).execs[l.exec].status == Approval
  }

  ghost predicate AtOutbox(op: Op, l: Local, db: Db)
    requires op.ClaimDispatches? || op.MarkSucceeded? || op.MarkFailed?
  {
    if l.pc.Done? then
      && l.writes == (if op.ClaimDispatches? then ClaimWrites(op, l.ch, db) else MarkWrites(op, l.ch, db))
      && l.reply == (if op.ClaimDispatches? then Claimed(l.ch.rows) else Marked)
      && (forall e | e in l.writes.dispatches :: DispatchLock(e) in l.held)
      && (op.ClaimDispatches? ==> ClaimableRows(db, l.ch.rows, l.ch.begun))
      && (op.ClaimDispatches? ==> forall e | e in l.ch.rows :: e in db.dispatches && DispatchLock(e) in l.held)
    else l.pc == FirstPc(op) && l.writes == NO_ROWS
  }

  ghost predicate At(op: Op, l: Local, db: Db) {
    match op
    case Start(_, _, _, _, _) => AtStart(op, l, db)
    case Decide(_, _, _, _) => AtDecide(op, l, db)
    case Sweep(_) => AtSweep(op, l, db)
    case Transition(_, _, _, _) => AtPlainMove(op, l, db)
    case Fail(_, _, _) => AtPlainMove(op, l, db)
    case _ => AtOutbox(op, l, db)
  }

  lemma AtBeginning(op: Op, begun: int, db: Db)
    ensures At(op, FirstLocal(op, begun), db)
  {
  }

  /** A transaction that is about to commit holds exactly what the call does on the current tables. */
  lemma CommitIsEffect(op: Op, l: Local, db: Db)
    requires At(op, l, db) && l.pc.Done?
    ensures Grounded(op, l.ch, db) && Effect(op, l.ch, db) == Result(l.writes, l.reply)
  {
    if op.Start? {
      hide StartWrites;
      if l.reply.Reused? {
        assert MaxSeq(db.events, l.found) >= l.seen;
      }
    }
  }

  // ---------- the client's own statements ----------

  /** After a statement: still on course, or halted with the very refusal that the call has on these tables. */
  ghost predicate OnCourse(op: Op, l: Local, db: Db) {
    if l.pc.Halted? then
      && l.reply.Refusal? && Fits(op, l.ch, db) && Effect(op, l.ch, db) == Refuse(l.reply.error)
    else At(op, l, db)
  }

  /** How `start` refuses once its key is known to be unused. */
  lemma CreateRefusals(op: Op, ch: Choice, db: Db)
    requires op.Start? && !(Keyed(op) && KeyOf(op) in db.idempotency)
    ensures op.request.executionId in db.execs ==> Effect(op, ch, db) == Refuse(DuplicateExecution)
    ensures op.request.executionId !in db.execs && EventKey(op.request.executionId, 1) in db.events ==>
      Effect(op, ch, db) == Refuse(EventKeyTaken)
  {
  }

  /** Only the statements of `start` are in play. */
  lemma StartShape(op: Op, l: Local, db: Db, inp: Input)
    requires op.Start? && !MovePc(l.pc)
    ensures Execute(op, l, db, inp) == StartStatement(op, l, db, inp).(held := l.held + Taken(op, l, db, inp))
  {
    hide StartStatement, Taken;
  }

  lemma InsertExecutionStep(op: Op, l: Local, db: Db, inp: Input)
    requires op.Start? && l.pc.InsertExecution? && AtStage(op, l, db, 0)
    ensures OnCourse(op, Execute(op, l, db, inp), db)
  {
    StartShape(op, l, db, inp);
    hide Execute, Allowed, Effect;
    StageTables(op, l.ch, db, 0);
    CreateRefusals(op, l.ch, db);
    assert StartWrites(op, l.ch, db, 1)
      == PutExecution(
        StartWrites(op, l.ch, db, 0), op.request.executionId, ExecRow(op.request, InitialStatus(op.request)));
    hide StartWrites;
  }

  lemma InsertFirstEventStep(op: Op, l: Local, db: Db, inp: Input)
    requires op.Start? && l.pc.InsertFirstEvent? && AtStage(op, l, db, 1)
    ensures OnCourse(op, Execute(op, l, db, inp), db)
  {
    StartShape(op, l, db, inp);
    hide Execute, FirstEvent, Effect;
    StageTables(op, l.ch, db, 1);
    CreateRefusals(op, l.ch, db);
    assert StartWrites(op, l.ch, db, 2)
      == PutEvent(StartWrites(op, l.ch, db, 1), op.request.executionId, 1, FirstEvent(op.request));
    hide StartWrites;
  }

  lemma InsertGateStep(op: Op, l: Local, db: Db, inp: Input)
    requires op.Start? && FreshIds(op, db) && l.pc.InsertGate? && AtStage(op, l, db, 2)
    ensures OnCourse(op, Execute(op, l, db, inp), db)
  {
    StartShape(op, l, db, inp);
    hide Execute, Effect, Merge, Allowed;
    var ch := l.ch.(clock := inp.clock);
    EarlyStageIgnoresChoice(op, l.ch, ch, db, 2);
    assert StartWrites(op, ch, db, 3) == PutGate(db, StartWrites(op, ch, db, 2), op, ch);
    hide StartWrites, PutGate, InitialStatus;
    var l' := Execute(op, l, db, inp);
    assert l'.pc == InsertPolicyAudit && l'.ch == ch && l'.writes == StartWrites(op, ch, db, 3);
    assert l.held <= l'.held;
    assert match Need(op, l, db) case Some(k) => k in l'.held case None => true;
    hide StartStatement, Taken;
  }

  lemma InsertPolicyAuditShape(op: Op, l: Local, db: Db, inp: Input)
    requires op.Start? && l.pc.InsertPolicyAudit?
    ensures var l' := Execute(op, l, db, inp);
      && l'.writes == PutAudit(l.writes, PolicyAudit(op.request)) && l'.ch == l.ch && l.held <= l'.held
      && (if Keyed(op) then l'.pc.PutKey? else l'.pc.Done? && l'.reply == Started)
  {
    StartShape(op, l, db, inp);
    hide Execute, Taken, PutAudit, PolicyAudit, View;
  }

  lemma InsertPolicyAuditStep(op: Op, l: Local, db: Db, inp: Input)
    requires op.Start? && l.pc.InsertPolicyAudit? && AtStage(op, l, db, 3)
    ensures OnCourse(op, Execute(op, l, db, inp), db)
  {
    InsertPolicyAuditShape(op, l, db, inp);
    assert StartWrites(op, l.ch, db, 4) == PutAudit(StartWrites(op, l.ch, db, 3), PolicyAudit(op.request));
    assert !Keyed(op) ==> StartWrites(op, l.ch, db, 5) == StartWrites(op, l.ch, db, 4);
    assert l.writes == StartWrites(op, l.ch, db, 3);
    hide Execute, StartWrites, PolicyAudit, PutAudit;
    var l' := Execute(op, l, db, inp);
    NextStage(op, l, l', db, 3);
    if Keyed(op) {
      hide AtStage, Effect;
    } else {
      assert AtStage(op, l', db, 5);
      hide AtStage, OnCourse;
      StageFiveIsDone(op, l', db);
    }
  }

  lemma NextStage(op: Op, l: Local, l': Local, db: Db, stage: nat)
    requires op.Start? && stage == 3 && AtStage(op, l, db, stage) && l.held <= l'.held && l'.ch == l.ch
    requires l'.writes == StartWrites(op, l.ch, db, stage + 1)
    ensures AtStage(op, l', db, stage + 1)
  {
    hide StartWrites;
  }

  lemma PutKeyStep(op: Op, l: Local, db: Db, inp: Input)
    requires op.Start? && l.pc.PutKey? && Keyed(op) && AtStage(op, l, db, 4)
    ensures OnCourse(op, Execute(op, l, db, inp), db)
  {
    StartShape(op, l, db, inp);
    hide Execute, Effect, Merge;
    assert StartWrites(op, l.ch, db, 5)
      == PutIdempotency(db, StartWrites(op, l.ch, db, 4), KeyOf(op), IdemRow(op.request.executionId, op.hash));
    hide StartWrites, PutIdempotency;
  }

  lemma OwnKeyIsVisible(op: Op, l: Local, db: Db)
    requires op.Start? && Keyed(op) && AtStage(op, l, db, 5)
    ensures KeyOf(op) in View(l, db).idempotency
    ensures View(l, db).idempotency[KeyOf(op)] == IdemRow(op.request.executionId, op.hash)
  {
    StageTables(op, l.ch, db, 4);
    assert StartWrites(op, l.ch, db, 5)
      == PutIdempotency(db, StartWrites(op, l.ch, db, 4), KeyOf(op), IdemRow(op.request.executionId, op.hash));
    hide StartWrites;
  }

  /** The re-read finds the client's own row: none of the branches behind it is ever taken. */
  lemma RecheckKeyStep(op: Op, l: Local, db: Db, inp: Input)
    requires op.Start? && l.pc.RecheckKey? && Keyed(op) && AtStage(op, l, db, 5)
    ensures OnCourse(op, Execute(op, l, db, inp), db)
    ensures Execute(op, l, db, inp).pc.Done? && Execute(op, l, db, inp).reply == Started
  {
    StartShape(op, l, db, inp);
    OwnKeyIsVisible(op, l, db);
    hide Execute, Effect, StartWrites, View, Merge, AtStage, Taken, OnCourse;
    var l' := Execute(op, l, db, inp);
    assert l' == Finish(l, Started).(held := l.held + Taken(op, l, db, inp));
    MoreLocks(op, l, l', db, 5);
    StageFiveIsDone(op, l', db);
  }

  lemma MoreLocks(op: Op, l: Local, l': Local, db: Db, stage: nat)
    requires op.Start? && AtStage(op, l, db, stage) && l.held <= l'.held && l'.writes == l.writes && l'.ch == l.ch
    ensures AtStage(op, l', db, stage)
  {
    hide StartWrites;
  }

  lemma StageFiveIsDone(op: Op, l: Local, db: Db)
    requires op.Start? && l.pc.Done? && l.reply == Started && AtStage(op, l, db, 5)
    ensures OnCourse(op, l, db)
  {
    hide AtStage;
  }

  lemma EnsureTenantStep(op: Op, l: Local, db: Db, inp: Input)
    requires op.Start? && AtStart(op, l, db) && (l.pc.EnsureTenant? || l.pc.TakeAdvisory?)
    ensures OnCourse(op, Execute(op, l, db, inp), db)
  {
    StartShape(op, l, db, inp);
    hide Execute, Merge, Effect;
    assert StartWrites(op, l.ch, db, 0) == PutTenant(db, NO_ROWS, op.request.tenantId);
    hide StartWrites;
  }

  lemma FindKeyStep(op: Op, l: Local, db: Db, inp: Input)
    requires op.Start? && AtStart(op, l, db) && l.pc.FindKey?
    ensures OnCourse(op, Execute(op, l, db, inp), db)
  {
    StartShape(op, l, db, inp);
    hide Execute;
    StageTables(op, l.ch, db, 0);
    hide StartWrites;
    assert View(l, db).idempotency == db.idempotency;
    hide Merge, View;
  }

  lemma ReadLatestStep(op: Op, l: Local, db: Db, inp: Input)
    requires op.Start? && l.pc.ReadLatest? && AtReuse(op, l, db)
    ensures OnCourse(op, Execute(op, l, db, inp), db)
  {
    StartShape(op, l, db, inp);
    hide Execute;
    StageTables(op, l.ch, db, 0);
    assert View(l, db).events == db.events;
    hide StartWrites, Merge, View;
  }

  lemma StartStep(op: Op, l: Local, db: Db, inp: Input)
    requires op.Start? && FreshIds(op, db) && AtStart(op, l, db) && !Finished(l)
    ensures OnCourse(op, Execute(op, l, db, inp), db)
  {
    hide OnCourse, Execute, AtStage, AtReuse, StartWrites;
    match l.pc
    case InsertExecution => InsertExecutionStep(op, l, db, inp);
    case InsertFirstEvent => InsertFirstEventStep(op, l, db, inp);
    case InsertGate => InsertGateStep(op, l, db, inp);
    case InsertPolicyAudit => InsertPolicyAuditStep(op, l, db, inp);
    case PutKey => PutKeyStep(op, l, db, inp);
    case RecheckKey => RecheckKeyStep(op, l, db, inp);
    case FindKey => FindKeyStep(op, l, db, inp);
    case ReadLatest => ReadLatestStep(op, l, db, inp);
    case _ => EnsureTenantStep(op, l, db, inp);
  }

  lemma {:induction false} EarlyStageIgnoresChoice(op: Op, ch: Choice, ch': Choice, db: Db, stage: nat)
    requires op.Start? && stage <= 2
    ensures StartWrites(op, ch, db, stage) == StartWrites(op, ch', db, stage)
  {
    if stage > 0 { EarlyStageIgnoresChoice(op, ch, ch', db, stage - 1); }
  }

  /** The part of the writes that the later statements of `start` look at. */
  lemma StageTables(op: Op, ch: Choice, db: Db, stage: nat)
    requires op.Start? && stage <= 4
    ensures var w := StartWrites(op, ch, db, stage);
      && w.idempotency == map[]
      && (stage == 0 ==> w.execs == map[])
      && (stage <= 1 ==> w.events == map[])
      && (stage <= 2 ==> w.approvals == map[] && w.dispatches == map[])
  {
    if stage > 0 {
      StageTables(op, ch, db, stage - 1);
    }
  }

  // ---------- the shared move ----------

  /** The fields that the move leaves alone. */
  predicate SameFrame(l: Local, l': Local) {
    && l'.exec == l.exec && l'.event == l.event && l'.claim == l.claim && l'.verdict == l.verdict && l'.ch == l.ch
    && l.held <= l'.held
  }

  lemma ReadMaxStep(op: Op, l: Local, db: Db, inp: Input, base: Db)
    requires AtMove(db, base, l) && l.pc.ReadMax?
    ensures var l' := Execute(op, l, db, inp);
      && AtMove(db, base, l') && SameFrame(l, l') && l'.pc.UpdateStatus?
      && l'.i == l.i && l'.rejected == l.rejected && l'.skipped == l.skipped
  {
    hide StartStatement, DecideStatement, SweepStatement;
    hide Merge;
  }

  lemma UpdateStatusStep(op: Op, l: Local, db: Db, inp: Input, base: Db)
    requires AtMove(db, base, l) && l.pc.UpdateStatus?
    ensures var l' := Execute(op, l, db, inp);
      && AtMove(db, base, l') && SameFrame(l, l') && l'.pc.InsertEvent?
      && l'.i == l.i && l'.rejected == l.rejected && l'.skipped == l.skipped
  {
    hide StartStatement, DecideStatement, SweepStatement;
    hide Merge, MaxSeq;
  }

  lemma InsertEventShape(op: Op, l: Local, db: Db, inp: Input)
    requires l.pc.InsertEvent? && EventKey(l.exec, l.sequence) !in View(l, db).events
    ensures var l' := Execute(op, l, db, inp);
      && l'.writes == PutEvent(l.writes, l.exec, l.sequence, l.event) && SameFrame(l, l')
      && l'.i == l.i && l'.rejected == l.rejected && l'.skipped == l.skipped
      && (if op.Transition? || op.Fail? then l'.pc.Done? && l'.reply == Moved(l.sequence)
          else l'.pc == if l.verdict == Approved then InsertDispatch else InsertVerdictAudit)
  {
    hide StartStatement, DecideStatement, SweepStatement, View;
  }

  /** The number read under the lock is still free: no event insert ever hits a taken key. */
  lemma NextNumberIsFree(l: Local, db: Db, base: Db)
    requires AtMove(db, base, l) && l.pc.InsertEvent?
    ensures EventKey(l.exec, l.sequence) !in View(l, db).events
    ensures l.exec in Merge(db, base).execs && l.sequence == MaxSeq(Merge(db, base).events, l.exec) + 1
    ensures PutEvent(l.writes, l.exec, l.sequence, l.event) == PutMove(db, base, l.exec, l.event)
  {
    assert View(l, db).events == Merge(db, base).events;
    MaxSeqNext(Merge(db, base).events, l.exec, l.event);
  }

  lemma InsertEventStep(op: Op, l: Local, db: Db, inp: Input, base: Db)
    requires AtMove(db, base, l) && l.pc.InsertEvent?
    ensures var l' := Execute(op, l, db, inp);
      && !l'.pc.Halted? && SameFrame(l, l') && l'.writes == PutMove(db, base, l.exec, l.event)
      && l'.i == l.i && l'.rejected == l.rejected && l'.skipped == l.skipped
      && (op.Transition? || op.Fail? ==> l'.pc.Done? && l'.reply == Moved(MaxSeq(Merge(db, base).events, l.exec) + 1))
      && (!op.Transition? && !op.Fail? ==> AtMove(db, base, l') && (l'.pc.InsertDispatch? || l'.pc.InsertVerdictAudit?))
  {
    hide Execute;
    NextNumberIsFree(l, db, base);
    InsertEventShape(op, l, db, inp);
    hide Merge, MaxSeq, View, PutDispatch, PutMove, PutEvent, PutStatus;
  }

  lemma InsertDispatchStep(op: Op, l: Local, db: Db, inp: Input, base: Db)
    requires AtMove(db, base, l) && l.pc.InsertDispatch?
    ensures var l' := Execute(op, l, db, inp);
      && AtMove(db, base, l') && SameFrame(l, l') && l'.pc.InsertVerdictAudit?
      && l'.i == l.i && l'.rejected == l.rejected && l'.skipped == l.skipped
  {
    hide StartStatement, DecideStatement, SweepStatement;
    hide Merge, MaxSeq, PutMove, PutDispatch;
  }

  lemma InsertVerdictAuditShape(op: Op, l: Local, db: Db, inp: Input)
    requires l.pc.InsertVerdictAudit? && (op.Decide? || op.Sweep?) && l.exec in View(l, db).execs
    ensures var l' := Execute(op, l, db, inp);
      && l'.writes == PutAudit(l.writes, VerdictAudit(View(l, db), l.exec, l.verdict, Auditor(op, l.verdict)))
      && SameFrame(l, l') && l'.skipped == l.skipped
      && (if op.Decide? then
            l'.pc.Done? && l'.reply == (if l.verdict == Expired then ApprovalExpired else Decided(l.verdict))
          else l'.pc.NextClaim? && l'.i == l.i + 1 && l'.rejected == l.rejected + 1)
  {
    hide StartStatement, DecideStatement, SweepStatement, View, Auditor;
  }

  lemma InsertVerdictAuditStep(op: Op, l: Local, db: Db, inp: Input, base: Db, who: string)
    requires AtMove(db, base, l) && l.pc.InsertVerdictAudit? && (op.Decide? || op.Sweep?)
    requires who == Auditor(op, l.verdict) && l.event == VerdictEvent(l.claim, l.verdict, who)
    ensures var l' := Execute(op, l, db, inp);
      && l'.writes == PutConsequence(db, base, l.exec, l.claim, l.verdict, who, l.ch.begun)
      && SameFrame(l, l') && l'.skipped == l.skipped
      && (if op.Decide? then
            l'.pc.Done? && l'.reply == (if l.verdict == Expired then ApprovalExpired else Decided(l.verdict))
          else l'.pc.NextClaim? && l'.i == l.i + 1 && l'.rejected == l.rejected + 1)
  {
    hide Execute, Auditor;
    var moved := PutMove(db, base, l.exec, l.event);
    assert l.writes.execs == moved.execs;
    assert moved.execs[l.exec] == Merge(db, base).execs[l.exec].(status := l.event.status);
    InsertVerdictAuditShape(op, l, db, inp);
    hide MaxSeq, PutMove, PutDispatch;
  }

  lemma PlainMoveStep(op: Op, l: Local, db: Db, inp: Input)
    requires (op.Transition? || op.Fail?) && AtPlainMove(op, l, db) && !Finished(l)
    ensures OnCourse(op, Execute(op, l, db, inp), db)
  {
    MergeNothing(db);
    if l.pc.LockToMove? {
      hide AtMove;
      LockToMoveStep(op, l, db, inp);
    } else {
      hide Execute, AtMove, PutMove, Effect, Merge, Accepts, MoveEvent, OnCourse;
      var l' := Execute(op, l, db, inp);
      if l.pc.ReadMax? { ReadMaxStep(op, l, db, inp, NO_ROWS); PlainMoveOn(op, l, l', db); }
      else if l.pc.UpdateStatus? { UpdateStatusStep(op, l, db, inp, NO_ROWS); PlainMoveOn(op, l, l', db); }
      else { PlainPcs(db, l); InsertEventStep(op, l, db, inp, NO_ROWS); PlainMoveDone(op, l, l', db); }
    }
  }

  lemma PlainMoveOn(op: Op, l: Local, l': Local, db: Db)
    requires (op.Transition? || op.Fail?) && AtPlainMove(op, l, db) && !l.pc.LockToMove? && !l.pc.Done?
    requires SameFrame(l, l') && AtMove(db, NO_ROWS, l') && (l'.pc.UpdateStatus? || l'.pc.InsertEvent?)
    ensures OnCourse(op, l', db)
  {
    hide AtMove, Accepts, MoveEvent, PutMove, Effect;
  }

  lemma PlainMoveDone(op: Op, l: Local, l': Local, db: Db)
    requires (op.Transition? || op.Fail?) && AtPlainMove(op, l, db) && !l.pc.LockToMove? && !l.pc.Done?
    requires SameFrame(l, l') && l'.pc.Done? && l'.reply == Moved(MaxSeq(db.events, l.exec) + 1)
    requires l.exec in Merge(db, NO_ROWS).execs && l'.writes == PutMove(db, NO_ROWS, l.exec, l.event)
    ensures OnCourse(op, l', db)
  {
    hide AtMove, Accepts, MoveEvent, PutMove, Effect, Merge;
  }

  lemma PlainPcs(db: Db, l: Local)
    requires AtMove(db, NO_ROWS, l) && !l.pc.InsertDispatch? && !l.pc.InsertVerdictAudit?
    ensures l.pc.ReadMax? || l.pc.UpdateStatus? || l.pc.InsertEvent?
  {
  }

  lemma LockToMoveStep(op: Op, l: Local, db: Db, inp: Input)
    requires (op.Transition? || op.Fail?) && l.pc.LockToMove? && l.writes == NO_ROWS
    ensures OnCourse(op, Execute(op, l, db, inp), db)
  {
    hide StartStatement, DecideStatement, SweepStatement;
    hide MaxSeq, PutMove;
    MergeNothing(db);
  }

  // ---------- decide ----------

  lemma DecideShape(op: Op, l: Local, db: Db, inp: Input)
    requires op.Decide? && !MovePc(l.pc)
    ensures Execute(op, l, db, inp) == DecideStatement(op, l, db, inp).(held := l.held + Taken(op, l, db, inp))
  {
    hide DecideStatement, Taken;
  }

  lemma LockToDecideStep(op: Op, l: Local, db: Db, inp: Input)
    requires op.Decide? && AtDecide(op, l, db) && (l.pc.LockToDecide? || l.pc.SelectApproval?)
    ensures OnCourse(op, Execute(op, l, db, inp), db)
  {
    hide PutVerdict, PutConsequence, VerdictOf, AtMove;
    DecideShape(op, l, db, inp);
    MergeNothing(db);
    hide Execute, Merge;
  }

  lemma WriteVerdictStep(op: Op, l: Local, db: Db, inp: Input)
    requires op.Decide? && AtDecide(op, l, db) && l.pc.WriteVerdict?
    ensures OnCourse(op, Execute(op, l, db, inp), db)
  {
    hide PutConsequence, VerdictOf, VerdictActor, Effect, MaxSeq;
    DecideShape(op, l, db, inp);
    MergeNothing(db);
    hide Execute;
  }

  /** The fields of a decision in progress, once the verdict is written. */
  ghost predicate Deciding(op: Op, l: Local, db: Db)
    requires op.Decide?
  {
    && DecideRefusal(op, db).None? && ApprovalLock(op.approvalId) in l.held && ExecLock(op.exec) in l.held
    && l.verdict == VerdictOf(op, db.approvals[op.approvalId], l.ch.clock) && l.claim == op.approvalId
    && l.exec == op.exec && l.event == VerdictEvent(op.approvalId, l.verdict, VerdictActor(op, l.verdict))
  }

  lemma DecideMoveStep(op: Op, l: Local, db: Db, inp: Input)
    requires op.Decide? && AtDecide(op, l, db) && MovePc(l.pc)
    ensures OnCourse(op, Execute(op, l, db, inp), db)
  {
    var who := VerdictActor(op, l.verdict);
    var base := PutVerdict(db, NO_ROWS, op.approvalId, l.verdict, who);
    assert Deciding(op, l, db) && AtMove(db, base, l);
    hide Execute, AtMove, PutMove, PutConsequence, Effect, VerdictOf, VerdictActor, PutVerdict, Merge, AtDecide;
    var l' := Execute(op, l, db, inp);
    if l.pc.ReadMax? { ReadMaxStep(op, l, db, inp, base); DecidingOn(op, l', db, base); }
    else if l.pc.UpdateStatus? { UpdateStatusStep(op, l, db, inp, base); DecidingOn(op, l', db, base); }
    else if l.pc.InsertEvent? { InsertEventStep(op, l, db, inp, base); DecidingOn(op, l', db, base); }
    else if l.pc.InsertDispatch? { InsertDispatchStep(op, l, db, inp, base); DecidingOn(op, l', db, base); }
    else {
      SentHoldsDispatch(db, base, l);
      InsertVerdictAuditStep(op, l, db, inp, base, who);
      DecidingDone(op, l', db, base);
    }
  }

  lemma DecidingOn(op: Op, l: Local, db: Db, base: Db)
    requires op.Decide? && Deciding(op, l, db) && AtMove(db, base, l)
    requires base == PutVerdict(db, NO_ROWS, op.approvalId, l.verdict, VerdictActor(op, l.verdict))
    ensures OnCourse(op, l, db)
  {
    hide Effect, PutConsequence, VerdictOf;
    assert !l.pc.Halted? && !l.pc.Done? && !l.pc.LockToDecide? && !l.pc.SelectApproval? && !l.pc.WriteVerdict?;
    hide AtMove;
  }

  lemma DecidingDone(op: Op, l: Local, db: Db, base: Db)
    requires op.Decide? && Deciding(op, l, db) && l.pc.Done?
    requires base == PutVerdict(db, NO_ROWS, op.approvalId, l.verdict, VerdictActor(op, l.verdict))
    requires l.exec in Merge(db, base).execs
    requires l.writes == PutConsequence(db, base, l.exec, l.claim, l.verdict, VerdictActor(op, l.verdict), l.ch.begun)
    requires l.reply == (if l.verdict == Expired then ApprovalExpired else Decided(l.verdict))
    requires l.verdict == Approved && l.exec !in db.dispatches ==> DispatchLock(l.exec) in l.held
    ensures OnCourse(op, l, db)
  {
    hide Effect, PutConsequence, VerdictOf, Merge;
  }

  lemma SentHoldsDispatch(db: Db, base: Db, l: Local)
    requires AtMove(db, base, l) && l.pc.InsertVerdictAudit?
    ensures l.exec in Merge(db, base).execs
    ensures l.verdict == Approved && l.exec !in db.dispatches ==> DispatchLock(l.exec) in l.held
  {
  }

  lemma DecideStep(op: Op, l: Local, db: Db, inp: Input)
    requires op.Decide? && AtDecide(op, l, db) && !Finished(l)
    ensures OnCourse(op, Execute(op, l, db, inp), db)
  {
    DecidePcs(op, l, db);
    hide AtDecide, Execute, OnCourse;
    if MovePc(l.pc) { DecideMoveStep(op, l, db, inp); }
    else if l.pc.WriteVerdict? { WriteVerdictStep(op, l, db, inp); }
    else { LockToDecideStep(op, l, db, inp); }
  }

  lemma DecidePcs(op: Op, l: Local, db: Db)
    requires op.Decide? && AtDecide(op, l, db) && !Finished(l)
    ensures MovePc(l.pc) || l.pc.WriteVerdict? || l.pc.LockToDecide? || l.pc.SelectApproval?
  {
  }

  // ---------- sweep ----------

  lemma SweepShape(op: Op, l: Local, db: Db, inp: Input)
    requires op.Sweep? && !MovePc(l.pc)
    ensures Execute(op, l, db, inp) == SweepStatement(op, l, db, inp).(held := l.held + Taken(op, l, db, inp))
  {
    hide SweepStatement, Taken;
  }

  lemma ClaimExpiredStep(op: Op, l: Local, db: Db, inp: Input)
    requires op.Sweep? && AtSweep(op, l, db) && l.pc.ClaimExpired? && PendingClaims(db, inp.approvals)
    ensures OnCourse(op, Execute(op, l, db, inp), db)
  {
    SweepShape(op, l, db, inp);
    hide Execute, Effect, SweepProgress, AtMove;
    var l' := Execute(op, l, db, inp);
    forall j | 0 <= j < |inp.approvals| ensures ExecLock(db.approvals[inp.approvals[j]].exec) in l'.held {
      assert ExecLock(db.approvals[inp.approvals[j]].exec) in Picks(l, db, inp);
    }
    assert l'.writes == ExpireWrites(db, inp.approvals, 0);
  }

  function ExpiredRow(row: ApprovalRow): ApprovalRow {
    row.(status := Expired, decidedBy := Some(EXPIRY_ACTOR))
  }

  lemma ExpireOne(db: Db, w: Db, a: ApprovalId)
    requires a in db.approvals && (a in w.approvals ==> w.approvals[a] == ExpiredRow(db.approvals[a]))
    ensures PutVerdict(db, w, a, Expired, EXPIRY_ACTOR)
      == w.(approvals := w.approvals[a := ExpiredRow(db.approvals[a])])
  {
  }

  lemma {:induction false} ExpireWritesKeys(db: Db, claims: seq<ApprovalId>, k: nat)
    requires RealClaims(db, claims) && k <= |claims|
    ensures var w := ExpireWrites(db, claims, k);
      && w == NO_ROWS.(approvals := w.approvals)
      && (forall a | a in w.approvals ::
           a in db.approvals && a in claims[..k] && w.approvals[a] == ExpiredRow(db.approvals[a]))
  {
    hide PutVerdict, Merge, ExpiredRow;
    if k > 0 {
      ExpireWritesKeys(db, claims, k - 1);
      assert claims[..k] == claims[..k - 1] + [claims[k - 1]];
      ExpireOne(db, ExpireWrites(db, claims, k - 1), claims[k - 1]);
    }
  }

  lemma MarkExpiredShape(op: Op, l: Local, db: Db, inp: Input)
    requires op.Sweep? && l.pc.MarkExpired?
    requires l.i < |l.ch.approvals| ==> l.ch.approvals[l.i] in View(l, db).approvals
    ensures var l' := Execute(op, l, db, inp);
      && l'.ch == l.ch && l.held <= l'.held && l'.rejected == l.rejected && l'.skipped == l.skipped
      && (if l.i < |l.ch.approvals|
          then l'.pc.MarkExpired? && l'.i == l.i + 1
               && l'.writes == PutVerdict(db, l.writes, l.ch.approvals[l.i], Expired, EXPIRY_ACTOR)
          else l'.pc.NextClaim? && l'.i == 0 && l'.writes == l.writes)
  {
    SweepShape(op, l, db, inp);
    hide Execute, Taken, PutVerdict;
  }

  lemma ClaimsMarked(op: Op, l: Local, db: Db)
    requires op.Sweep? && l.pc.MarkExpired? && HoldsClaims(l, db) && l.i <= |l.ch.approvals|
    requires l.writes == ExpireWrites(db, l.ch.approvals, l.i) && l.rejected == 0 && l.skipped == 0
    ensures OnCourse(op, l, db)
  {
    hide ExpireWrites, Effect, AtMove, HoldsClaims;
  }

  lemma MarkExpiredStep(op: Op, l: Local, db: Db, inp: Input)
    requires op.Sweep? && AtSweep(op, l, db) && l.pc.MarkExpired?
    ensures OnCourse(op, Execute(op, l, db, inp), db)
  {
    hide Effect, AtMove, OnCourse, PutVerdict, SweepProgress, ExpireWrites, Execute;
    var claims, l' := l.ch.approvals, Execute(op, l, db, inp);
    assert HoldsClaims(l, db) && RealClaims(db, claims);
    MarkExpiredShape(op, l, db, inp);
    hide PendingClaims;
    if l.i < |claims| {
      ExpireNext(db, claims, l.i);
      ClaimsMarked(op, l', db);
    } else {
      FirstProgress(db, claims);
      SweepSkipped(op, l', db);
    }
  }

  lemma FirstProgress(db: Db, claims: seq<ApprovalId>)
    requires RealClaims(db, claims)
    ensures SweepProgress(db, claims, 0) == Progress(ExpireWrites(db, claims, |claims|), 0, 0)
  {
  }

  lemma ExpireNext(db: Db, claims: seq<ApprovalId>, k: nat)
    requires RealClaims(db, claims) && k < |claims|
    ensures claims[k] in Merge(db, ExpireWrites(db, claims, k)).approvals
    ensures ExpireWrites(db, claims, k + 1)
      == PutVerdict(db, ExpireWrites(db, claims, k), claims[k], Expired, EXPIRY_ACTOR)
  {
    hide PutVerdict;
  }

  /** Handling claims adds no approvals, so every claim is still there, under its execution. */
  ghost predicate KeepsRows(db: Db, claims: seq<ApprovalId>, w: Db)
    requires RealClaims(db, claims)
  {
    && w.tenants == {} && w.dispatches == map[] && w.idempotency == map[]
    && w.approvals == ExpireWrites(db, claims, |claims|).approvals
    && (forall e | e in w.execs :: e in db.execs && w.execs[e].request == db.execs[e].request)
  }

  lemma {:induction false} ProgressKeepsRows(db: Db, claims: seq<ApprovalId>, k: nat)
    requires RealClaims(db, claims) && k <= |claims|
    ensures KeepsRows(db, claims, SweepProgress(db, claims, k).writes)
  {
    if k == 0 {
      NothingHandled(db, claims);
    } else {
      ProgressKeepsRows(db, claims, k - 1);
      HandlingKeepsRows(db, claims, k - 1);
    }
  }

  lemma HandlingKeepsRows(db: Db, claims: seq<ApprovalId>, k: nat)
    requires RealClaims(db, claims) && k < |claims| && KeepsRows(db, claims, SweepProgress(db, claims, k).writes)
    ensures KeepsRows(db, claims, SweepProgress(db, claims, k + 1).writes)
  {
    hide KeepsRows, PutConsequence, ExpireWrites;
    var w, e := SweepProgress(db, claims, k).writes, db.approvals[claims[k]].exec;
    ClaimIsThere(db, w, e);
    ConsequenceKeepsRows(db, claims, w, e, claims[k]);
    SkipOrReject(db, claims, k);
    hide SweepProgress, Merge;
  }

  lemma NothingHandled(db: Db, claims: seq<ApprovalId>)
    requires RealClaims(db, claims)
    ensures KeepsRows(db, claims, SweepProgress(db, claims, 0).writes)
  {
    ExpireWritesKeys(db, claims, |claims|);
    hide ExpireWrites;
  }

  lemma ClaimIsThere(db: Db, w: Db, e: ExecId)
    requires e in db.execs
    ensures e in Merge(db, w).execs
  {
  }

  lemma RejectionShape(db: Db, w: Db, e: ExecId, a: ApprovalId)
    requires e in Merge(db, w).execs
    ensures var x := PutConsequence(db, w, e, a, Expired, EXPIRY_ACTOR, 0);
      && x == w.(execs := x.execs, events := x.events, audit := x.audit)
      && x.execs == w.execs[e := Merge(db, w).execs[e].(status := Rejected)]
  {
    hide MaxSeq;
  }

  lemma ConsequenceKeepsRows(db: Db, claims: seq<ApprovalId>, w: Db, e: ExecId, a: ApprovalId)
    requires RealClaims(db, claims) && KeepsRows(db, claims, w) && e in db.execs && e in Merge(db, w).execs
    ensures KeepsRows(db, claims, PutConsequence(db, w, e, a, Expired, EXPIRY_ACTOR, 0))
  {
    RejectionShape(db, w, e, a);
    hide PutConsequence, ExpireWrites;
  }

  lemma ClaimVisible(db: Db, claims: seq<ApprovalId>, k: nat, i: nat)
    requires RealClaims(db, claims) && k <= |claims| && i < |claims|
    ensures var v := Merge(db, SweepProgress(db, claims, k).writes);
      && claims[i] in v.approvals && v.approvals[claims[i]].exec == db.approvals[claims[i]].exec
      && db.approvals[claims[i]].exec in v.execs
  {
    ProgressKeepsRows(db, claims, k);
    ExpireWritesKeys(db, claims, |claims|);
    hide SweepProgress, ExpireWrites;
  }

  lemma NextClaimStep(op: Op, l: Local, db: Db, inp: Input)
    requires op.Sweep? && AtSweep(op, l, db) && l.pc.NextClaim?
    ensures OnCourse(op, Execute(op, l, db, inp), db)
  {
    SweepShape(op, l, db, inp);
    var p := SweepProgress(db, l.ch.approvals, l.i);
    assert HoldsClaims(l, db) && l.i <= |l.ch.approvals| && p == Progress(l.writes, l.rejected, l.skipped);
    hide Execute, Effect, PutConsequence, AtMove, AtSweep, SweepProgress, PendingClaims, OnCourse;
    if l.i < |l.ch.approvals| {
      ClaimVisible(db, l.ch.approvals, l.i, l.i);
      SkipOrReject(db, l.ch.approvals, l.i);
      NextClaimGoesOn(op, l, db, inp);
    } else {
      hide Merge;
      SweepDone(op, Execute(op, l, db, inp), db);
    }
  }

  lemma SweepDone(op: Op, l: Local, db: Db)
    requires op.Sweep? && l.pc.Done? && HoldsClaims(l, db) && l.i == |l.ch.approvals|
    requires SweepProgress(db, l.ch.approvals, l.i) == Progress(l.writes, l.rejected, l.skipped)
    requires l.reply == Swept(|l.ch.approvals|, l.rejected, l.skipped)
    ensures OnCourse(op, l, db)
  {
    hide SweepProgress, HoldsClaims, AtMove, Effect;
  }

  lemma SweepSkipped(op: Op, l: Local, db: Db)
    requires op.Sweep? && l.pc.NextClaim? && HoldsClaims(l, db) && l.i <= |l.ch.approvals|
    requires SweepProgress(db, l.ch.approvals, l.i) == Progress(l.writes, l.rejected, l.skipped)
    ensures OnCourse(op, l, db)
  {
    hide SweepProgress, HoldsClaims, AtMove, Effect;
  }

  lemma NextClaimGoesOn(op: Op, l: Local, db: Db, inp: Input)
    requires op.Sweep? && l.pc.NextClaim? && HoldsClaims(l, db) && l.i < |l.ch.approvals|
    requires var a, p := l.ch.approvals[l.i], SweepProgress(db, l.ch.approvals, l.i);
      && p == Progress(l.writes, l.rejected, l.skipped)
      && a in View(l, db).approvals && View(l, db).approvals[a].exec == db.approvals[a].exec
      && db.approvals[a].exec in View(l, db).execs
      && (View(l, db).execs[db.approvals[a].exec].status != Approval ==>
            SweepProgress(db, l.ch.approvals, l.i + 1) == p.(skipped := p.skipped + 1))
    ensures OnCourse(op, Execute(op, l, db, inp), db)
  {
    NextClaimShape(op, l, db, inp);
    hide Execute, SweepProgress, Effect, AtMove, OnCourse, Taken, SweepStatement, Merge, View;
    var l' := Execute(op, l, db, inp);
    if l'.pc.NextClaim? {
      SweepSkipped(op, l', db);
    } else {
      AtReadMax(db, l');
      RejectingOn(op, l', db);
    }
  }

  /** A claim is skipped, or its execution is about to be moved. */
  lemma NextClaimShape(op: Op, l: Local, db: Db, inp: Input)
    requires op.Sweep? && l.pc.NextClaim? && HoldsClaims(l, db) && l.i < |l.ch.approvals|
    requires var a := l.ch.approvals[l.i];
      && a in View(l, db).approvals && View(l, db).approvals[a].exec == db.approvals[a].exec
      && db.approvals[a].exec in View(l, db).execs
    ensures var l', a := Execute(op, l, db, inp), l.ch.approvals[l.i];
      && l'.ch == l.ch && l'.writes == l.writes && l.held <= l'.held && l'.rejected == l.rejected
      && (if View(l, db).execs[db.approvals[a].exec].status != Approval
          then l'.pc.NextClaim? && l'.i == l.i + 1 && l'.skipped == l.skipped + 1
          else l'.pc.ReadMax? && l'.i == l.i && l'.skipped == l.skipped && l'.claim == a && l'.verdict == Expired
               && l'.exec == db.approvals[a].exec && l'.event == VerdictEvent(a, Expired, EXPIRY_ACTOR))
  {
    SweepShape(op, l, db, inp);
    hide Execute, Taken, Merge, View;
  }

  lemma AtReadMax(db: Db, l: Local)
    requires l.pc.ReadMax? && ExecLock(l.exec) in l.held && l.exec in db.execs && l.exec in Merge(db, l.writes).execs
    ensures AtMove(db, l.writes, l)
  {
  }

  lemma SkipOrReject(db: Db, claims: seq<ApprovalId>, k: nat)
    requires RealClaims(db, claims) && k < |claims|
    requires db.approvals[claims[k]].exec in Merge(db, SweepProgress(db, claims, k).writes).execs
    ensures var p, e := SweepProgress(db, claims, k), db.approvals[claims[k]].exec;
      SweepProgress(db, claims, k + 1) ==
        if Merge(db, p.writes).execs[e].status != Approval then p.(skipped := p.skipped + 1)
        else Progress(PutConsequence(db, p.writes, e, claims[k], Expired, EXPIRY_ACTOR, 0), p.rejected + 1, p.skipped)
  {
  }

  /** The fields of a sweep in the middle of rejecting a claim. */
  ghost predicate Rejecting(l: Local, db: Db) {
    && HoldsClaims(l, db) && l.i < |l.ch.approvals|
    && var p := SweepProgress(db, l.ch.approvals, l.i);
       && p.rejected == l.rejected && p.skipped == l.skipped
       && l.claim == l.ch.approvals[l.i] && l.verdict == Expired
       && l.exec == db.approvals[l.claim].exec && l.event == VerdictEvent(l.claim, Expired, EXPIRY_ACTOR)
       && l.exec in Merge(db, p.writes).execs && Merge(db, p.writes).execs[l.exec].status == Approval
  }

  lemma RejectingOn(op: Op, l: Local, db: Db)
    requires op.Sweep? && Rejecting(l, db) && AtMove(db, SweepProgress(db, l.ch.approvals, l.i).writes, l)
    ensures OnCourse(op, l, db)
  {
    hide Effect, SweepProgress;
    assert MovePc(l.pc);
    hide AtMove;
  }

  lemma RejectingDone(op: Op, l: Local, l': Local, db: Db)
    requires op.Sweep? && Rejecting(l, db) && SameFrame(l, l')
    requires l'.pc.NextClaim? && l'.i == l.i + 1 && l'.rejected == l.rejected + 1 && l'.skipped == l.skipped
    requires l'.writes
      == PutConsequence(
        db, SweepProgress(db, l.ch.approvals, l.i).writes, l.exec, l.claim, Expired, EXPIRY_ACTOR, l.ch.begun)
    ensures OnCourse(op, l', db)
  {
    SkipOrReject(db, l.ch.approvals, l.i);
    PlainConsequence(db, SweepProgress(db, l.ch.approvals, l.i).writes, l.exec, l.claim, l.ch.begun);
    hide Effect, SweepProgress, PutConsequence, Merge;
    assert HoldsClaims(l', db) by { hide RealClaims; }
    hide HoldsClaims, OnCourse, Rejecting;
    SweepSkipped(op, l', db);
  }

  /** The begin time only matters to a granted approval's dispatch. */
  lemma PlainConsequence(db: Db, w: Db, e: ExecId, a: ApprovalId, now: int)
    requires e in Merge(db, w).execs
    ensures PutConsequence(db, w, e, a, Expired, EXPIRY_ACTOR, now)
      == PutConsequence(db, w, e, a, Expired, EXPIRY_ACTOR, 0)
  {
  }

  lemma SweepMoveStep(op: Op, l: Local, db: Db, inp: Input)
    requires op.Sweep? && AtSweep(op, l, db) && MovePc(l.pc)
    ensures OnCourse(op, Execute(op, l, db, inp), db)
  {
    var base := SweepProgress(db, l.ch.approvals, l.i).writes;
    assert Rejecting(l, db) && AtMove(db, base, l);
    assert l.pc.InsertDispatch? ==> l.verdict == Approved;
    hide Execute, AtMove, PutMove, PutConsequence, SweepProgress, Merge, AtSweep, OnCourse;
    var l' := Execute(op, l, db, inp);
    if l.pc.ReadMax? { ReadMaxStep(op, l, db, inp, base); RejectingOn(op, l', db); }
    else if l.pc.UpdateStatus? { UpdateStatusStep(op, l, db, inp, base); RejectingOn(op, l', db); }
    else if l.pc.InsertEvent? { InsertEventStep(op, l, db, inp, base); RejectingOn(op, l', db); }
    else {
      InsertVerdictAuditStep(op, l, db, inp, base, EXPIRY_ACTOR);
      RejectingDone(op, l, l', db);
    }
  }

  lemma SweepPcs(op: Op, l: Local, db: Db)
    requires op.Sweep? && AtSweep(op, l, db) && !Finished(l)
    ensures MovePc(l.pc) || l.pc.ClaimExpired? || l.pc.MarkExpired? || l.pc.NextClaim?
  {
  }

  lemma SweepStep(op: Op, l: Local, db: Db, inp: Input)
    requires op.Sweep? && AtSweep(op, l, db) && !Finished(l)
    requires l.pc.ClaimExpired? ==> PendingClaims(db, inp.approvals)
    ensures OnCourse(op, Execute(op, l, db, inp), db)
  {
    SweepPcs(op, l, db);
    hide AtSweep, Execute, OnCourse, PendingClaims;
    if MovePc(l.pc) { SweepMoveStep(op, l, db, inp); }
    else if l.pc.ClaimExpired? { ClaimExpiredStep(op, l, db, inp); }
    else if l.pc.MarkExpired? { MarkExpiredStep(op, l, db, inp); }
    else { NextClaimStep(op, l, db, inp); }
  }

  // ---------- outbox, and every operation ----------

  lemma OutboxStep(op: Op, l: Local, db: Db, inp: Input)
    requires (op.ClaimDispatches? || op.MarkSucceeded? || op.MarkFailed?) && AtOutbox(op, l, db) && !Finished(l)
    requires op.ClaimDispatches? ==> ClaimableRows(db, inp.rows, l.ch.begun)
    ensures OnCourse(op, Execute(op, l, db, inp), db)
  {
    hide Effect, ClaimedRow, MarkedRow, MoveStatement, Claimable;
  }

  /** Every statement of every call keeps its transaction on course. */
  lemma StatementStaysOnCourse(op: Op, l: Local, db: Db, inp: Input)
    requires At(op, l, db) && !Finished(l) && FreshIds(op, db)
    requires op.Sweep? && l.pc.ClaimExpired? ==> PendingClaims(db, inp.approvals)
    requires op.ClaimDispatches? ==> ClaimableRows(db, inp.rows, l.ch.begun)
    ensures OnCourse(op, Execute(op, l, db, inp), db)
  {
    hide ClaimableRows;
    hide AtStart, AtDecide, AtSweep, AtPlainMove, AtOutbox, OnCourse, Execute, PendingClaims;
    match op
    case Start(_, _, _, _, _) => StartStep(op, l, db, inp);
    case Decide(_, _, _, _) => DecideStep(op, l, db, inp);
    case Sweep(_) => SweepStep(op, l, db, inp);
    case Transition(_, _, _, _) => PlainMoveStep(op, l, db, inp);
    case Fail(_, _, _) => PlainMoveStep(op, l, db, inp);
    case _ => OutboxStep(op, l, db, inp);
  }
}
