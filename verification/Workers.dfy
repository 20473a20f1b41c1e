/**
 * The shipped runtime end to end: whatever crashes, repeats or overlaps, every queued execution is
 * accepted at most once, and every delivery of its job returns normally unless the database fails.
 */
module Workers {
  import opened Base
  import opened StateMachine
  import opened Requests
  import opened Tables
  import opened Kernel
  import opened Integrity
  import opened Sweeps
  import opened Closed
  import opened Outcomes
  import opened Runtime

  /** Where a dispatched execution can stand. */
  predicate Underway(s: Status) {
    s == Intake || s == Context || s == Execution
  }

  ghost predicate DispatchedUnderway(db: Db) {
    forall e | e in db.dispatches :: e in db.execs && Underway(db.execs[e].status)
  }

  /** The handler's progress agrees with the execution it is about. */
  predicate WorkerSound(db: Db, t: Worker) {
    && t.exec in db.execs
    && match t.pc
       case Reading => true
       case Moving => db.execs[t.exec].status == Intake || db.execs[t.exec].status == Context
       case Rereading => db.execs[t.exec].status == Context
       case Returned => db.execs[t.exec].status == Context || db.execs[t.exec].status == Execution
       case Threw(reason) => reason == DatabaseError
  }

  ghost predicate ClosedWorld(env: Env, w: World) {
    && Outbox(env, w) && ClosedOk(w.db) && DispatchedUnderway(w.db)
    && (forall id | id in w.workers :: WorkerSound(w.db, w.workers[id]))
  }

  // ---------- what closed calls do to dispatched executions ----------

  /** Dispatched executions keep their status, and newly dispatched ones are at INTAKE or EXECUTION. */
  ghost predicate Undisturbed(db: Db, t: Db) {
    && (forall e | e in db.dispatches :: e in db.execs && e in t.execs && t.execs[e].status == db.execs[e].status)
    && (forall e | e in t.dispatches && e !in db.dispatches :: e in t.execs && Underway(t.execs[e].status))
  }

  lemma StartUndisturbs(env: Env, op: Op, ch: Choice, db: Db)
    requires Integral(env, db) && op.Start? && FreshIds(op, db)
    ensures Undisturbed(db, After(op, ch, db))
  {
    hide StartWrites, Merge, MaxSeq, ExecutionOk, ApprovalOk, GateOk, IdempotencyOk, DispatchRowOk;
    MergeNothing(db);
    if Creates(op, db) {
      NothingLeftOver(env, op, db);
      AfterStart(op, ch, db);
      hide After, Allowed;
    } else if Effect(op, ch, db).reply.Reused? {
      ReusedWrites(env, op, ch, db);
    }
  }

  lemma SettledUndisturbs(db: Db, t: Db, e: ExecId, a: ApprovalId, v: ApprovalStatus, who: string, now: int)
    requires e in db.execs && a in db.approvals && e !in db.dispatches && Settled(db, t, e, a, v, who, now)
    requires forall d | d in db.dispatches :: d in db.execs
    ensures Undisturbed(db, t)
  {
    hide OneMore, SameLog, VerdictAudit, VerdictEvent, NewDispatch;
  }

  lemma DecideUndisturbs(env: Env, op: Op, ch: Choice, db: Db)
    requires Integral(env, db) && op.Decide?
    ensures Undisturbed(db, After(op, ch, db))
  {
    DispatchedExist(env, db);
    hide Integral, After, Effect, VerdictOf, VerdictActor, Undisturbed, Settled;
    if DecideRefusal(op, db).None? {
      DecisionSettles(env, op, ch, db);
      UnrefusedIsGrantable(op, db);
      hide DecideRefusal;
      var v := VerdictOf(op, db.approvals[op.approvalId], ch.clock);
      SettledUndisturbs(db, After(op, ch, db), op.exec, op.approvalId, v, VerdictActor(op, v), ch.begun);
    } else {
      RefusedDecision(op, ch, db);
      NothingUndisturbs(db);
    }
  }

  lemma NothingUndisturbs(db: Db)
    requires forall d | d in db.dispatches :: d in db.execs
    ensures Undisturbed(db, db)
  {
  }

  lemma DispatchedExist(env: Env, db: Db)
    requires Integral(env, db)
    ensures forall e | e in db.dispatches :: e in db.execs
  {
    hide ExecutionsOk, ApprovalsOk, GateOk, IdempotencyOk;
  }

  lemma SweepUndisturbs(env: Env, op: Op, ch: Choice, db: Db)
    requires Integral(env, db) && op.Sweep? && Fits(op, ch, db) && DispatchedUnderway(db)
    ensures Undisturbed(db, After(op, ch, db))
  {
    hide Integral, After, JustExpired, Effect;
    IntegralGate(env, db);
    SweepIsExact(op, ch, db);
    var t := After(op, ch, db);
    forall e | e in db.dispatches ensures e in t.execs && t.execs[e].status == db.execs[e].status {
      SweptSpares(db, ch.approvals, t, e);
    }
    hide SweptTo;
  }

  /** A sweep moves only executions that wait. */
  lemma SweptSpares(db: Db, claims: seq<ApprovalId>, t: Db, e: ExecId)
    requires SweptTo(db, claims, |claims|, t) && e in db.execs && db.execs[e].status != Approval
    ensures e in t.execs && t.execs[e] == db.execs[e]
  {
    hide RejectedBy;
    if Sweeps.Touched(db, claims, |claims|, e) {
      var i :| 0 <= i < |claims| && db.approvals[claims[i]].exec == e;
      assert !Waiting(db, claims[i]);
      assert Untouched(db, t, e);
    } else {
      assert Untouched(db, t, e);
    }
  }

  lemma CallUndisturbs(env: Env, op: Op, ch: Choice, db: Db)
    requires Integral(env, db) && FreshIds(op, db) && Fits(op, ch, db) && Callable(ClosedApi, op)
    requires DispatchedUnderway(db)
    ensures Undisturbed(db, After(op, ch, db))
  {
    match op
    case Start(_, _, _, _, _) => StartUndisturbs(env, op, ch, db);
    case Decide(_, _, _, _) => DecideUndisturbs(env, op, ch, db);
    case Sweep(_) => SweepUndisturbs(env, op, ch, db);
  }

  lemma UndisturbedStays(db: Db, t: Db)
    requires DispatchedUnderway(db) && Undisturbed(db, t)
    ensures DispatchedUnderway(t)
  {
  }

  lemma UndisturbedWorker(db: Db, t: Db, worker: Worker)
    requires WorkerSound(db, worker) && worker.exec in db.dispatches && Undisturbed(db, t)
    ensures WorkerSound(t, worker)
  {
  }

  // ---------- the handler ----------

  function StepsLeft(pc: WorkerPc): nat {
    match pc
    case Reading => 3
    case Moving => 2
    case Rereading => 1
    case _ => 0
  }

  lemma LatestIsStatus(env: Env, db: Db, e: ExecId)
    requires Integral(env, db) && e in db.execs
    ensures Latest(db, e) == Some(db.execs[e].status)
  {
    hide ApprovalsOk, DispatchesOk, IdempotencyOk, Valid;
    assert ExecutionOk(db, e);
  }

  /** The one step the worker takes: INTAKE to CONTEXT, or nothing when another delivery was first. */
  lemma AdvanceEffect(db: Db, e: ExecId)
    requires e in db.execs && (db.execs[e].status == Intake || db.execs[e].status == Context)
    ensures var reply, t := Effect(Advancing(e), NO_READ, db).reply, After(Advancing(e), NO_READ, db);
      && t.dispatches == db.dispatches && t.approvals == db.approvals
      && t.execs == db.execs[e := db.execs[e].(status := Context)]
      && (db.execs[e].status == Intake ==> reply.Moved?)
      && (db.execs[e].status == Context ==> reply == Refusal(InvalidTransition))
  {
    hide MaxSeq, PutMove;
    OnlyIntakeLeadsToContext(db.execs[e].status);
    if db.execs[e].status == Intake {
      AfterMove(Advancing(e), NO_READ, db);
      hide After;
    } else {
      RefusedChangesNothing(Advancing(e), NO_READ, db);
      hide After;
    }
  }

  lemma ClosedIsIntegral(env: Env, w: World)
    requires ClosedWorld(env, w)
    ensures Integral(env, w.db)
  {
    hide Integral, RowTold, PublisherTold, ClosedOk;
  }

  lemma JobUnderway(env: Env, w: World, e: ExecId)
    requires ClosedWorld(env, w) && e in w.jobs
    ensures e in w.db.dispatches && e in w.db.execs && !Blank(e) && Underway(w.db.execs[e].status)
  {
    hide Integral, RowTold, PublisherTold, ClosedOk, Blank;
  }

  lemma ReadSound(env: Env, w: World, e: ExecId)
    requires ClosedWorld(env, w) && e in w.jobs
    ensures e in w.db.dispatches && e in w.db.execs && !Blank(e) && Underway(w.db.execs[e].status)
    ensures Latest(w.db, e) == Some(w.db.execs[e].status)
    ensures AfterRead(w.db, e) == if w.db.execs[e].status == Intake then Moving else Returned
  {
    hide ClosedWorld, Integral, Latest, Blank;
    JobUnderway(env, w, e);
    ClosedIsIntegral(env, w);
    LatestIsStatus(env, w.db, e);
  }

  /** What a handler step means in the closed runtime: sound, and only ever INTAKE to CONTEXT. */
  lemma HandlerStep(env: Env, w: World, t: Worker, outcome: Outcome)
    requires ClosedWorld(env, w) && t.exec in w.jobs && WorkerSound(w.db, t)
    ensures var (db, pc) := WorkStep(w.db, t, outcome);
      && WorkerSound(db, t.(pc := pc))
      && (db == w.db || (t.pc.Moving? && db == After(Advancing(t.exec), NO_READ, w.db)))
      && (outcome.Ok? && StepsLeft(t.pc) > 0 ==> !pc.Threw? && StepsLeft(pc) < StepsLeft(t.pc))
  {
    hide ClosedWorld, After, Effect, AfterRead, Latest, Blank;
    ReadSound(env, w, t.exec);
    if t.pc.Moving? {
      AdvanceEffect(w.db, t.exec);
    }
  }

  /** One execution on from INTAKE (or CONTEXT) to CONTEXT, and nothing else. */
  ghost predicate Accepted(db: Db, t: Db, e: ExecId) {
    && e in db.execs && (db.execs[e].status == Intake || db.execs[e].status == Context)
    && t.dispatches == db.dispatches && t.execs == db.execs[e := db.execs[e].(status := Context)]
  }

  lemma AcceptedStaysUnderway(db: Db, t: Db, e: ExecId)
    requires Accepted(db, t, e) && DispatchedUnderway(db)
    ensures DispatchedUnderway(t)
  {
  }

  lemma AcceptedWorker(db: Db, t: Db, e: ExecId, worker: Worker)
    requires Accepted(db, t, e) && WorkerSound(db, worker)
    ensures WorkerSound(t, worker)
  {
  }

  lemma AdvanceStaysClosed(env: Env, w: World, e: ExecId)
    requires ClosedWorld(env, w) && e in w.jobs && e in w.db.execs
    requires w.db.execs[e].status == Intake || w.db.execs[e].status == Context
    ensures var t := After(Advancing(e), NO_READ, w.db); ClosedOk(t) && DispatchedUnderway(t)
    ensures forall id | id in w.workers :: WorkerSound(After(Advancing(e), NO_READ, w.db), w.workers[id])
  {
    var t := After(Advancing(e), NO_READ, w.db);
    assert Accepted(w.db, t, e) by { AdvanceEffect(w.db, e); hide After, Effect, ClosedWorld; }
    hide After, Effect, Outbox, ClosedOk, WorkerSound, DispatchedUnderway, Accepted;
    ClosedIsIntegral(env, w);
    CallStaysClosed(env, Advancing(e), NO_READ, w.db);
    AcceptedStaysUnderway(w.db, t, e);
    forall id | id in w.workers ensures WorkerSound(t, w.workers[id]) { AcceptedWorker(w.db, t, e, w.workers[id]); }
  }

  lemma WorkerHere(env: Env, w: World, id: nat)
    requires ClosedWorld(env, w) && id in w.workers
    ensures w.workers[id].exec in w.jobs && WorkerSound(w.db, w.workers[id])
  {
    hide Integral, RowTold, PublisherTold, ClosedOk, DispatchedUnderway, Blank;
  }

  lemma WorkMoves(env: Env, w: World, id: nat, outcome: Outcome, v: World)
    requires Moves(env, ClosedApi, w, Work(id, outcome), v)
    ensures id in w.workers
    ensures var (db, pc) := WorkStep(w.db, w.workers[id], outcome);
      v == w.(db := db, workers := w.workers[id := w.workers[id].(pc := pc)])
  {
    hide WorkStep;
  }

  lemma WorkStaysClosed(env: Env, w: World, id: nat, outcome: Outcome, v: World)
    requires ClosedWorld(env, w) && Moves(env, ClosedApi, w, Work(id, outcome), v)
    ensures ClosedWorld(env, v)
  {
    hide Moves, Outbox, ClosedOk, DispatchedUnderway, WorkStep, WorkerSound;
    assert Outbox(env, v) by { StepKeepsOutbox(env, ClosedApi, w, Work(id, outcome), v); }
    WorkMoves(env, w, id, outcome, v);
    WorkerHere(env, w, id);
    var t := w.workers[id];
    HandlerStep(env, w, t, outcome);
    if v.db != w.db {
      MovingStatus(w.db, t);
      AdvanceStaysClosed(env, w, t.exec);
    }
  }

  lemma MovingStatus(db: Db, t: Worker)
    requires WorkerSound(db, t) && t.pc.Moving?
    ensures t.exec in db.execs && (db.execs[t.exec].status == Intake || db.execs[t.exec].status == Context)
  {
  }

  lemma CallStaysClosedWorld(env: Env, w: World, op: Op, ch: Choice)
    requires ClosedWorld(env, w) && Callable(ClosedApi, op) && WellFormedOp(env, op) && FreshIds(op, w.db)
    requires Fits(op, ch, w.db)
    ensures ClosedWorld(env, w.(db := After(op, ch, w.db)))
  {
    ClosedIsIntegral(env, w);
    CallKeepsOutbox(env, w, op, ch);
    WorkersDispatched(env, w);
    hide Integral, After, Outbox, ClosedOk, WellFormedOp;
    CallStaysClosed(env, op, ch, w.db);
    CallUndisturbs(env, op, ch, w.db);
    UndisturbedStays(w.db, After(op, ch, w.db));
    forall id | id in w.workers ensures WorkerSound(After(op, ch, w.db), w.workers[id]) {
      UndisturbedWorker(w.db, After(op, ch, w.db), w.workers[id]);
    }
  }

  lemma WorkersDispatched(env: Env, w: World)
    requires Outbox(env, w)
    ensures forall id | id in w.workers :: w.workers[id].exec in w.db.dispatches
  {
    hide Integral, RowTold, PublisherTold, Blank;
  }

  predicate SameOrNew(w: World, v: World, id: nat)
    requires id in v.workers
  {
    (id in w.workers && v.workers[id] == w.workers[id]) || (v.workers[id].pc.Reading? && v.workers[id].exec in v.jobs)
  }

  lemma SameOrNewSound(w: World, v: World, id: nat)
    requires id in v.workers && SameOrNew(w, v, id) && v.db.execs == w.db.execs
    requires id in w.workers ==> WorkerSound(w.db, w.workers[id])
    requires v.workers[id].exec in v.jobs ==> v.workers[id].exec in v.db.execs
    ensures WorkerSound(v.db, v.workers[id])
  {
  }

  lemma SameUnderway(db: Db, t: Db)
    requires DispatchedUnderway(db) && t.execs == db.execs && t.dispatches.Keys == db.dispatches.Keys
    ensures DispatchedUnderway(t)
  {
  }

  /** Steps that leave executions and approvals alone. */
  lemma OutboxStaysClosed(env: Env, w: World, v: World)
    requires ClosedWorld(env, w) && Outbox(env, v)
    requires v.db.execs == w.db.execs && v.db.approvals == w.db.approvals
    requires v.db.dispatches.Keys == w.db.dispatches.Keys
    requires forall id | id in v.workers :: SameOrNew(w, v, id)
    ensures ClosedWorld(env, v)
  {
    hide Outbox, ClosedOk, WorkerSound, SameOrNew, DispatchedUnderway;
    JobsExist(env, v);
    SameRowsStayClosed(w.db, v.db);
    SameUnderway(w.db, v.db);
    forall id | id in v.workers ensures WorkerSound(v.db, v.workers[id]) {
      SameOrNewSound(w, v, id);
    }
  }

  lemma JobsExist(env: Env, w: World)
    requires Outbox(env, w)
    ensures forall e | e in w.jobs :: e in w.db.execs
  {
    hide RowTold, PublisherTold, Blank;
    DispatchedExist(env, w.db);
    hide Integral;
  }

  lemma OutboxStepLeaves(env: Env, w: World, step: Step, v: World)
    requires Moves(env, ClosedApi, w, step, v) && !step.Call? && !step.Work?
    ensures v.db.execs == w.db.execs && v.db.approvals == w.db.approvals && v.db.dispatches.Keys == w.db.dispatches.Keys
    ensures forall id | id in v.workers :: SameOrNew(w, v, id)
  {
    hide After, ClaimableRows, AfterEnqueue, AfterMark, CountClaims, RecordClaims;
    match step
    case Claim(_, limit, lease, ch) => AfterTouch(ClaimDispatches(limit, lease), ch, w.db);
    case Mark(id, _, now, error) => AfterTouch(MarkOp(w.publishers[id], error), Choice(now, now, [], []), w.db);
    case _ =>
  }

  lemma StepStaysClosed(env: Env, w: World, step: Step, v: World)
    requires ClosedWorld(env, w) && Moves(env, ClosedApi, w, step, v)
    ensures ClosedWorld(env, v)
  {
    if step.Call? {
      hide ClosedWorld, After, ClaimableRows;
      CallStaysClosedWorld(env, w, step.op, step.ch);
    } else if step.Work? {
      hide ClosedWorld, Moves;
      WorkStaysClosed(env, w, step.worker, step.outcome, v);
    } else {
      OutboxStepLeaves(env, w, step, v);
      StepKeepsOutbox(env, ClosedApi, w, step, v) by { hide Outbox; }
      hide ClosedWorld, Moves, Outbox;
      OutboxStaysClosed(env, w, v);
    }
  }

  lemma {:induction false} RunStaysClosed(env: Env, worlds: seq<World>, steps: seq<Step>, n: nat)
    requires WorldRun(env, ClosedApi, worlds, steps) && n < |worlds|
    ensures ClosedWorld(env, worlds[n])
  {
    hide Moves, Outbox;
    if n == 0 {
      StartsSound(env, worlds[0]);
      EmptyIsClosed();
      hide ClosedOk;
    } else {
      hide ClosedWorld;
      RunStaysClosed(env, worlds, steps, n - 1);
      assert Moves(env, ClosedApi, worlds[n - 1], steps[n - 1], worlds[n]);
      StepStaysClosed(env, worlds[n - 1], steps[n - 1], worlds[n]);
    }
  }

  // ---------- the end-to-end guarantee ----------

  /** In the shipped runtime an execution stands at APPROVAL exactly while it has a pending approval. */
  lemma PendingIffWaiting(env: Env, worlds: seq<World>, steps: seq<Step>, n: nat, e: ExecId)
    requires WorldRun(env, ClosedApi, worlds, steps) && n < |worlds| && e in worlds[n].db.execs
    ensures worlds[n].db.execs[e].status == Approval <==> HasPending(worlds[n].db, e)
  {
    RunStaysClosed(env, worlds, steps, n);
    hide WorldRun, Outbox, HasPending, ShortLife, StandsByApproval;
    assert ClosedExecution(worlds[n].db, e);
  }

  /**
   * The gate of the shipped runtime: an execution that began at APPROVAL has one approval, and stands at
   * APPROVAL, EXECUTION or REJECTED exactly as that is pending, granted, or refused or expired.
   */
  lemma StandsAsDecided(env: Env, worlds: seq<World>, steps: seq<Step>, n: nat, e: ExecId) returns (a: ApprovalId)
    requires WorldRun(env, ClosedApi, worlds, steps) && n < |worlds| && BeginsWith(worlds[n].db, e, Approval)
    requires e in worlds[n].db.execs
    ensures AgreesWith(worlds[n].db, e, a)
  {
    RunStaysClosed(env, worlds, steps, n);
    ClosedIsIntegral(env, worlds[n]);
    IntegralGate(env, worlds[n].db);
    hide WorldRun, Integral, BeginsWith, AgreesWith, ApprovalsOk, ClosedOk, Outbox, DispatchedUnderway, WorkerSound;
    a := ClosedGate(worlds[n].db, e);
  }

  /** An execution has at most one event of each status, so it is accepted at most once. */
  lemma OneEventPerStatus(db: Db, e: ExecId, j: nat, k: nat)
    requires e in db.execs && LogOk(db, e)
    requires EventKey(e, j) in db.events && EventKey(e, k) in db.events
    requires db.events[EventKey(e, j)].status == db.events[EventKey(e, k)].status
    ensures j == k
  {
    DurableLogIsShortAndSimple(db, e);
    var log := Log(db, e);
    assert log[j - 1] == db.events[EventKey(e, j)].status && log[k - 1] == db.events[EventKey(e, k)].status;
  }

  /**
   * For any crashes, stale publishers, duplicate jobs and concurrent redeliveries: a queued execution
   * has at most one CONTEXT event, a delivery that ends does so normally unless the database failed,
   * and once it has ended normally the execution is past INTAKE and does not wait for an approval.
   */
  lemma EveryDeliveryEndsWell(env: Env, worlds: seq<World>, steps: seq<Step>, n: nat, id: nat)
    requires WorldRun(env, ClosedApi, worlds, steps) && n < |worlds| && id in worlds[n].workers
    ensures var db, t := worlds[n].db, worlds[n].workers[id];
      && t.exec in db.execs && LogOk(db, t.exec)
      && (t.pc.Threw? ==> t.pc.reason == DatabaseError)
      && (t.pc.Returned? ==> db.execs[t.exec].status == Context || db.execs[t.exec].status == Execution)
      && (forall j: nat, k: nat | EventKey(t.exec, j) in db.events && db.events[EventKey(t.exec, j)].status == Context
            && EventKey(t.exec, k) in db.events && db.events[EventKey(t.exec, k)].status == Context :: j == k)
  {
    hide ClosedWorld, WorldRun, Integral, LogOk;
    RunStaysClosed(env, worlds, steps, n);
    WorkerHere(env, worlds[n], id);
    ClosedIsIntegral(env, worlds[n]);
    var db, t := worlds[n].db, worlds[n].workers[id];
    IntegralLogs(env, db, t.exec);
    AtMostOnce(db, t.exec, Context);
  }

  lemma AtMostOnce(db: Db, e: ExecId, s: Status)
    requires e in db.execs && LogOk(db, e)
    ensures forall j: nat, k: nat | EventKey(e, j) in db.events && db.events[EventKey(e, j)].status == s
      && EventKey(e, k) in db.events && db.events[EventKey(e, k)].status == s :: j == k
  {
    hide LogOk;
    forall j: nat, k: nat | EventKey(e, j) in db.events && db.events[EventKey(e, j)].status == s
        && EventKey(e, k) in db.events && db.events[EventKey(e, k)].status == s
      ensures j == k
    {
      OneEventPerStatus(db, e, j, k);
    }
  }

  lemma IntegralLogs(env: Env, db: Db, e: ExecId)
    requires Integral(env, db) && e in db.execs
    ensures LogOk(db, e)
  {
    hide ApprovalsOk, DispatchesOk, IdempotencyOk, Valid;
    assert ExecutionOk(db, e);
  }

  /**
   * While the database answers, each of the handler's steps brings it nearer to its end: at most three to a
   * delivery.
   */
  lemma DeliveriesFinish(env: Env, worlds: seq<World>, steps: seq<Step>, n: nat, id: nat)
    requires WorldRun(env, ClosedApi, worlds, steps) && n < |steps| && steps[n] == Work(id, Ok)
    requires id in worlds[n].workers && StepsLeft(worlds[n].workers[id].pc) > 0
    ensures id in worlds[n + 1].workers
    ensures StepsLeft(worlds[n + 1].workers[id].pc) < StepsLeft(worlds[n].workers[id].pc)
    ensures !worlds[n + 1].workers[id].pc.Threw?
  {
    var w := worlds[n];
    RunStaysClosed(env, worlds, steps, n);
    hide ClosedWorld, WorkStep, Moves;
    assert Moves(env, ClosedApi, w, steps[n], worlds[n + 1]);
    WorkMoves(env, w, id, Ok, worlds[n + 1]);
    WorkerHere(env, w, id);
    HandlerStep(env, w, w.workers[id], Ok);
  }

  // ---------- who brings an execution to CONTEXT ----------

  /** Every CONTEXT event is the worker's, with its payload. */
  ghost predicate ContextsByWorker(db: Db) {
    forall k | k in db.events && db.events[k].status == Context ::
      db.events[k] == Event(Context, "logon.execution.worker", Note(
        "{\"source\":\"controlled-execution-handler\"," +
        "\"reason\":\"Worker accepted execution and advanced controlled lifecycle\"}"))
  }

  /** Events of the old log, and others that are not CONTEXT. */
  ghost predicate AddsNoContext(db: Db, t: Db) {
    forall k | k in t.events && t.events[k].status == Context :: k in db.events && t.events[k] == db.events[k]
  }

  lemma StartAddsNoContext(op: Op, ch: Choice, db: Db, reply: Reply, t: Db)
    requires op.Start? && StartOutcome(op, ch, db, reply, t)
    ensures AddsNoContext(db, t)
  {
    hide UsedKey, Blank;
  }

  lemma LogsAddNoContext(db: Db, t: Db)
    requires forall e :: SameLog(db, t, e) || exists ev: Event :: ev.status != Context && OneMore(db, t, e, ev)
    ensures AddsNoContext(db, t)
  {
    forall k | k in t.events && t.events[k].status == Context ensures k in db.events && t.events[k] == db.events[k] {
      assert EventKey(k.exec, k.sequence) == k;
      if !SameLog(db, t, k.exec) {
        var ev: Event :| ev.status != Context && OneMore(db, t, k.exec, ev);
      }
    }
  }

  lemma DecideAddsNoContext(op: Op, ch: Choice, db: Db, reply: Reply, t: Db)
    requires op.Decide? && DecisionOutcome(op, ch, db, reply, t)
    ensures AddsNoContext(db, t)
  {
    if !reply.Refusal? {
      UnrefusedNames(op, db);
      hide DecideRefusal, OneMore, SameLog, BeforeExpiry;
      LogsAddNoContext(db, t);
    }
  }

  lemma SweptLog(db: Db, claims: seq<ApprovalId>, t: Db, e: ExecId)
    requires SweptTo(db, claims, |claims|, t) && e in db.execs
    ensures SameLog(db, t, e) || exists ev: Event :: ev.status != Context && OneMore(db, t, e, ev)
  {
    hide OneMore, SameLog;
    if Sweeps.Touched(db, claims, |claims|, e) {
      var i :| 0 <= i < |claims| && db.approvals[claims[i]].exec == e;
      if Waiting(db, claims[i]) {
        assert RejectedBy(db, t, claims[i]);
        assert RejectionEvent(claims[i]).status != Context;
      } else {
        assert Untouched(db, t, e);
      }
    } else {
      assert Untouched(db, t, e);
    }
  }

  lemma SweepAddsNoContext(db: Db, claims: seq<ApprovalId>, t: Db)
    requires SweptTo(db, claims, |claims|, t) && forall k | k in t.events :: k.exec in db.execs
    ensures AddsNoContext(db, t)
  {
    hide SweptTo, OneMore, SameLog;
    forall k | k in t.events && t.events[k].status == Context ensures k in db.events && t.events[k] == db.events[k] {
      SweptLog(db, claims, t, k.exec);
      SameOrMore(db, t, k);
    }
  }

  lemma SameOrMore(db: Db, t: Db, k: EventKey)
    requires k in t.events && t.events[k].status == Context
    requires SameLog(db, t, k.exec) || exists ev: Event :: ev.status != Context && OneMore(db, t, k.exec, ev)
    ensures k in db.events && t.events[k] == db.events[k]
  {
    assert EventKey(k.exec, k.sequence) == k;
  }

  lemma EventsHaveExecutions(env: Env, db: Db)
    requires Integral(env, db)
    ensures forall k | k in db.events :: k.exec in db.execs
  {
    hide ExecutionOk, ApprovalsOk, DispatchesOk, IdempotencyOk;
  }

  lemma CallAddsNoContext(env: Env, op: Op, ch: Choice, db: Db)
    requires Integral(env, db) && WellFormedOp(env, op) && FreshIds(op, db) && Fits(op, ch, db)
    requires Callable(ClosedApi, op)
    ensures AddsNoContext(db, After(op, ch, db))
  {
    assert op.Sweep? ==> PendingClaims(db, ch.approvals);
    assert op.Start? || op.Decide? || op.Sweep?;
    hide *;
    var reply, t := Effect(op, ch, db).reply, After(op, ch, db);
    if op.Start? {
      StartIsExact(env, op, ch, db);
      StartAddsNoContext(op, ch, db, reply, t);
    } else if op.Decide? {
      DecisionOutcomes(env, op, ch, db);
      DecideAddsNoContext(op, ch, db, reply, t);
    } else {
      IntegralGate(env, db);
      SweepIsExact(op, ch, db);
      CallKeepsIntegrity(env, op, ch, db);
      EventsHaveExecutions(env, t);
      SweepKeys(db, ch.approvals, t);
      SweepAddsNoContext(db, ch.approvals, t);
    }
  }

  lemma SweepKeys(db: Db, claims: seq<ApprovalId>, t: Db)
    requires SweptTo(db, claims, |claims|, t)
    ensures t.execs.Keys == db.execs.Keys
  {
  }

  lemma AdvancingIsTheWorkers(db: Db, e: ExecId)
    requires ContextsByWorker(db)
    ensures ContextsByWorker(After(Advancing(e), NO_READ, db))
  {
    var t := After(Advancing(e), NO_READ, db);
    MoveIsExact(Advancing(e), NO_READ, db);
    hide After, Effect;
    forall k | k in t.events && t.events[k].status == Context
      ensures t.events[k] == Event(Context, WORKER_ACTOR, Note(WORKER_NOTE))
    {
      assert EventKey(k.exec, k.sequence) == k;
    }
  }

  lemma OthersKeepContexts(db: Db, t: Db)
    requires ContextsByWorker(db) && AddsNoContext(db, t)
    ensures ContextsByWorker(t)
  {
  }

  /** Steps of publishers and of the queue leave events alone. */
  lemma OutboxKeepsEvents(env: Env, w: World, step: Step, v: World)
    requires Moves(env, ClosedApi, w, step, v) && !step.Call? && !step.Work?
    ensures v.db.events == w.db.events
  {
    hide After, ClaimableRows, AfterEnqueue, AfterMark, CountClaims, RecordClaims;
    match step
    case Claim(_, limit, lease, ch) => AfterTouch(ClaimDispatches(limit, lease), ch, w.db);
    case Mark(id, _, now, error) => AfterTouch(MarkOp(w.publishers[id], error), Choice(now, now, [], []), w.db);
    case _ =>
  }

  lemma StepKeepsContexts(env: Env, w: World, step: Step, v: World)
    requires Integral(env, w.db) && ContextsByWorker(w.db) && Moves(env, ClosedApi, w, step, v)
    ensures ContextsByWorker(v.db)
  {
    if step.Call? {
      hide Integral, After, WellFormedOp, FreshIds, ContextsByWorker, AddsNoContext, ClaimableRows, PendingClaims;
      CallAddsNoContext(env, step.op, step.ch, w.db);
      OthersKeepContexts(w.db, v.db);
    } else if step.Work? {
      var t := w.workers[step.worker];
      WorkLeavesRows(w.db, t, step.outcome);
      hide Integral, After, WorkStep, ContextsByWorker;
      if t.pc.Moving? && !step.outcome.Failed? { AdvancingIsTheWorkers(w.db, t.exec); }
    } else {
      OutboxKeepsEvents(env, w, step, v);
      hide Integral, Moves;
    }
  }

  /** In every run of the shipped runtime every CONTEXT event was written by the worker. */
  lemma {:induction false} ContextIsTheWorkers(env: Env, worlds: seq<World>, steps: seq<Step>, n: nat)
    requires WorldRun(env, ClosedApi, worlds, steps) && n < |worlds|
    ensures ContextsByWorker(worlds[n].db)
  {
    hide Moves, Integral, Outbox, ClosedOk;
    if n > 0 {
      hide ContextsByWorker;
      ContextIsTheWorkers(env, worlds, steps, n - 1);
      RunStaysClosed(env, worlds, steps, n - 1);
      ClosedIsIntegral(env, worlds[n - 1]);
      assert Moves(env, ClosedApi, worlds[n - 1], steps[n - 1], worlds[n]);
      StepKeepsContexts(env, worlds[n - 1], steps[n - 1], worlds[n]);
    }
  }
}
