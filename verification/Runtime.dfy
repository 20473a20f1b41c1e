/**
 * The runtime around the kernel: publishers that claim dispatch rows and put jobs on the queue,
 * and workers that receive jobs at least once.  Each transaction is one step here, which
 * `Runs.RunsAreSerial` justifies; anything may crash, be late, or lose an answer between steps.
 */
module Runtime {
  import opened Base
  import opened StateMachine
  import opened Requests
  import opened Tables
  import opened Kernel
  import opened Integrity
  import opened Sweeps
  import opened Closed

  const MAX_LEASE := 300000

  /** How an effect on another system can come out: done, done but reported as an error, or not done. */
  datatype Outcome = Ok | Lost | Failed

  datatype Phase = Enqueueing | MarkingDone | MarkingFailed

  /** `publishOnce` in progress: its claimed rows, the end of their lease, and the row it is at. */
  datatype Publisher = Publisher(rows: seq<ExecId>, until: int, i: nat, phase: Phase, dispatched: nat, failed: nat)

  datatype Reason = BlankId | UnknownExecution | StillWaiting | LostRace | DatabaseError
  datatype WorkerPc = Reading | Moving | Rereading | Returned | Threw(reason: Reason)

  /** One delivery of a job to the controlled handler. */
  datatype Worker = Worker(exec: ExecId, pc: WorkerPc)

  /** `claims` and `lastClaim` record the history of claims of each row. */
  datatype World = World(
    db: Db, clock: int, jobs: set<ExecId>,
    publishers: map<nat, Publisher>, workers: map<nat, Worker>,
    claims: map<ExecId, nat>, lastClaim: map<ExecId, int>)

  datatype Step =
    | Advance(now: int)
    | Call(op: Op, ch: Choice)
    | Claim(publisher: nat, limit: int, lease: int, ch: Choice)
    | Enqueue(publisher: nat, outcome: Outcome)
    | Mark(publisher: nat, outcome: Outcome, now: int, error: string)
    | Leave(publisher: nat)                          // finished, or crashed at any point
    | Deliver(worker: nat, exec: ExecId)
    | Work(worker: nat, outcome: Outcome)
    | Drop(worker: nat)

  /** Which service calls others may make: anything, or only what the shipped runtime makes. */
  datatype Api = OpenApi | ClosedApi

  predicate Callable(api: Api, op: Op) {
    && !op.ClaimDispatches? && !op.MarkSucceeded? && !op.MarkFailed?
    && (api.ClosedApi? ==> !op.Transition? && !op.Fail?)
  }

  const NO_READ := Choice(0, 0, [], [])

  function CountClaims(claims: map<ExecId, nat>, rows: seq<ExecId>): map<ExecId, nat> {
    map e | e in claims.Keys + (set x | x in rows) ::
      (if e in claims then claims[e] else 0) + (if e in rows then 1 else 0)
  }

  function RecordClaims(last: map<ExecId, int>, rows: seq<ExecId>, now: int): map<ExecId, int> {
    map e | e in last.Keys + (set x | x in rows) :: if e in rows then now else last[e]
  }

  // ---------- publishers ----------

  predicate AtRow(p: Publisher) {
    p.i < |p.rows|
  }

  /** `queue.enqueue`, which refuses blank ids, and the queue ignores an add whose job id is known. */
  function AfterEnqueue(w: World, p: Publisher, outcome: Outcome): (set<ExecId>, Phase)
    requires AtRow(p)
  {
    var e := p.rows[p.i];
    if e !in w.db.dispatches || w.db.dispatches[e].queue != EXECUTION_QUEUE_NAME || Blank(e)
    then (w.jobs, MarkingFailed)
    else match outcome
         case Ok => (w.jobs + {e}, MarkingDone)
         case Lost => (w.jobs + {e}, MarkingFailed)
         case Failed => (w.jobs, MarkingFailed)
  }

  function NextRow(p: Publisher, good: bool): Publisher {
    p.(i := p.i + 1, phase := Enqueueing,
       dispatched := if good then p.dispatched + 1 else p.dispatched, failed := if good then p.failed else p.failed + 1)
  }

  function MarkOp(p: Publisher, error: string): Op
    requires AtRow(p)
  {
    if p.phase.MarkingDone? then MarkSucceeded(p.rows[p.i]) else MarkFailed(p.rows[p.i], error)
  }

  /**
   * A mark that reports an error leads from success to failure marking, and from failure marking out of
   * `publishOnce`.
   */
  function AfterMark(publishers: map<nat, Publisher>, id: nat, outcome: Outcome): map<nat, Publisher>
    requires id in publishers
  {
    var p := publishers[id];
    if outcome.Ok? then publishers[id := NextRow(p, p.phase.MarkingDone?)]
    else if p.phase.MarkingDone? then publishers[id := p.(phase := MarkingFailed)]
    else publishers - {id}
  }

  // ---------- the worker's handler ----------

  ghost function Latest(db: Db, e: ExecId): Option<Status> {
    var n := MaxSeq(db.events, e);
    if n == 0 then None else Some(db.events[EventKey(e, n)].status)
  }

  ghost function AfterRead(db: Db, e: ExecId): WorkerPc {
    if Blank(e) then Threw(BlankId)
    else match Latest(db, e)
         case None => Threw(UnknownExecution)
         case Some(s) =>
           if Terminal(s) then Returned
           else if s == Approval then Threw(StillWaiting)
           else if s == Intake then Moving
           else Returned
  }

  const WORKER_ACTOR := "logon.execution.worker"

  /** The payload of the worker's transition. */
  const WORKER_NOTE :=
    "{\"source\":\"controlled-execution-handler\"," +
    "\"reason\":\"Worker accepted execution and advanced controlled lifecycle\"}"

  function Advancing(e: ExecId): Op {
    Transition(e, Context, WORKER_ACTOR, WORKER_NOTE)
  }

  /** The handler's next step, and the tables after it. */
  ghost function WorkStep(db: Db, t: Worker, outcome: Outcome): (Db, WorkerPc) {
    match t.pc
    case Reading => if outcome.Ok? || Blank(t.exec) then (db, AfterRead(db, t.exec)) else (db, Threw(DatabaseError))
    case Moving =>
      var after := if outcome.Failed? then db else After(Advancing(t.exec), NO_READ, db);
      var reply := Effect(Advancing(t.exec), NO_READ, db).reply;
      if !outcome.Ok? then (after, Threw(DatabaseError))
      else if reply.Moved? then (after, Returned)
      else if reply == Refusal(InvalidTransition) then (after, Rereading)
      else (after, Threw(UnknownExecution))
    case Rereading =>
      if !outcome.Ok? then (db, Threw(DatabaseError))
      else if Latest(db, t.exec) == Some(Context) then (db, Returned)
      else (db, Threw(LostRace))
    case _ => (db, t.pc)
  }

  // ---------- steps ----------

  ghost predicate Moves(env: Env, api: Api, w: World, step: Step, v: World) {
    match step
    case Advance(now) => w.clock <= now && v == w.(clock := now)
    case Call(op, ch) =>
      && Callable(api, op) && WellFormedOp(env, op) && FreshIds(op, w.db) && Grounded(op, ch, w.db)
      && v == w.(db := After(op, ch, w.db))
    case Claim(id, limit, lease, ch) =>
      && id !in w.publishers && ch.begun <= w.clock
      && var op := ClaimDispatches(limit, lease);
         && Grounded(op, ch, w.db)
         && v == w.(db := After(op, ch, w.db),
                    publishers := w.publishers[
                      id := Publisher(ch.rows, ch.begun + SafeLease(lease), 0, Enqueueing, 0, 0)],
                    claims := CountClaims(w.claims, ch.rows), lastClaim := RecordClaims(w.lastClaim, ch.rows, ch.begun))
    case Enqueue(id, outcome) =>
      && id in w.publishers && AtRow(w.publishers[id]) && w.publishers[id].phase.Enqueueing?
      && var (jobs, phase) := AfterEnqueue(w, w.publishers[id], outcome);
         v == w.(jobs := jobs, publishers := w.publishers[id := w.publishers[id].(phase := phase)])
    case Mark(id, outcome, now, error) =>
      && id in w.publishers && AtRow(w.publishers[id]) && !w.publishers[id].phase.Enqueueing? && now <= w.clock
      && var op := MarkOp(w.publishers[id], error);
         v == w.(db := if outcome.Failed? then w.db else After(op, Choice(now, now, [], []), w.db),
                 publishers := AfterMark(w.publishers, id, outcome))
    case Leave(id) => id in w.publishers && v == w.(publishers := w.publishers - {id})
    case Deliver(id, e) => id !in w.workers && e in w.jobs && v == w.(workers := w.workers[id := Worker(e, Reading)])
    case Work(id, outcome) =>
      && id in w.workers
      && var (db, pc) := WorkStep(w.db, w.workers[id], outcome);
         v == w.(db := db, workers := w.workers[id := w.workers[id].(pc := pc)])
    case Drop(id) => id in w.workers && v == w.(workers := w.workers - {id})
  }

  ghost predicate Starts(w: World) {
    && w.db == NO_ROWS && w.jobs == {} && w.publishers == map[] && w.workers == map[]
    && w.claims == map[] && w.lastClaim == map[]
  }

  ghost predicate WorldRun(env: Env, api: Api, worlds: seq<World>, steps: seq<Step>) {
    && |worlds| == |steps| + 1 && Starts(worlds[0])
    && forall i | 0 <= i < |steps| :: Moves(env, api, worlds[i], steps[i], worlds[i + 1])
  }

  /** A stretch of a run of the world. */
  ghost predicate Continuation(env: Env, api: Api, worlds: seq<World>, steps: seq<Step>) {
    |worlds| == |steps| + 1 && forall i | 0 <= i < |steps| :: Moves(env, api, worlds[i], steps[i], worlds[i + 1])
  }

  lemma Prepend(env: Env, api: Api, w: World, step: Step, worlds: seq<World>, steps: seq<Step>)
    requires Continuation(env, api, worlds, steps) && Moves(env, api, w, step, worlds[0])
    ensures Continuation(env, api, [w] + worlds, [step] + steps)
  {
    hide Moves;
    forall i | 0 <= i < |[step] + steps|
      ensures Moves(env, api, ([w] + worlds)[i], ([step] + steps)[i], ([w] + worlds)[i + 1])
    {
      if i > 0 { assert Moves(env, api, worlds[i - 1], steps[i - 1], worlds[i]); }
    }
  }

  lemma Append(env: Env, api: Api, worlds: seq<World>, steps: seq<Step>, rest: seq<World>, more: seq<Step>)
    requires Continuation(env, api, worlds, steps) && Continuation(env, api, rest, more) && rest[0] == worlds[|steps|]
    ensures Continuation(env, api, worlds[..|steps|] + rest, steps + more)
  {
    hide Moves;
    var all := worlds[..|steps|] + rest;
    forall i | 0 <= i < |steps + more| ensures Moves(env, api, all[i], (steps + more)[i], all[i + 1]) {
      if i < |steps| {
        assert Moves(env, api, worlds[i], steps[i], worlds[i + 1]) && all[i] == worlds[i]
          && all[i + 1] == worlds[i + 1];
      } else {
        var k := i - |steps|;
        assert Moves(env, api, rest[k], more[k], rest[k + 1]);
      }
    }
  }

  lemma RunGoesOn(env: Env, api: Api, worlds: seq<World>, steps: seq<Step>, step: Step, v: World)
    requires worlds != [] && WorldRun(env, api, worlds, steps) && Moves(env, api, worlds[|worlds| - 1], step, v)
    ensures WorldRun(env, api, worlds + [v], steps + [step])
  {
    hide Moves;
  }

  // ---------- the outbox invariant ----------

  /** What a dispatch row says about its history of claims, and about its job. */
  ghost predicate RowTold(w: World, e: ExecId)
    requires e in w.db.dispatches
  {
    var row := w.db.dispatches[e];
    && row.attempts == (if e in w.claims then w.claims[e] else 0)
    && (row.lockedUntil.Some? ==>
          e in w.lastClaim && w.lastClaim[e] <= w.clock && row.lockedUntil.value <= w.lastClaim[e] + MAX_LEASE)
    && (row.dispatchedAt.Some? ==> e in w.jobs)
  }

  ghost predicate PublisherTold(w: World, p: Publisher) {
    && p.i <= |p.rows|
    && (forall k | 0 <= k < |p.rows| :: p.rows[k] in w.db.dispatches)
    && (p.phase.MarkingDone? && AtRow(p) ==> p.rows[p.i] in w.jobs)
    && p.i == p.dispatched + p.failed
  }

  ghost predicate Outbox(env: Env, w: World) {
    && Integral(env, w.db)
    && (forall e | e in w.db.dispatches :: RowTold(w, e))
    && (forall e | e in w.claims :: e in w.db.dispatches)
    && (forall e | e in w.jobs :: e in w.db.dispatches && !Blank(e))
    && (forall id | id in w.publishers :: PublisherTold(w, w.publishers[id]))
    && (forall id | id in w.workers :: w.workers[id].exec in w.jobs)
  }

  lemma StartsSound(env: Env, w: World)
    requires Starts(w)
    ensures Outbox(env, w)
  {
    EmptyIsIntegral(env);
  }

  /** Dispatch rows are only ever added by a service call, as new rows, and rewritten only by claims and marks. */
  ghost predicate RowsKept(db: Db, t: Db) {
    forall e | e in t.dispatches ::
      if e in db.dispatches then t.dispatches[e] == db.dispatches[e]
      else exists now :: t.dispatches[e] == DispatchRow(EXECUTION_QUEUE_NAME, Ready, 0, None, None, now, None)
  }

  lemma CallKeepsRows(env: Env, op: Op, ch: Choice, db: Db)
    requires Integral(env, db) && FreshIds(op, db) && Fits(op, ch, db)
    requires !op.ClaimDispatches? && !op.MarkSucceeded? && !op.MarkFailed?
    ensures db.dispatches.Keys <= After(op, ch, db).dispatches.Keys
    ensures RowsKept(db, After(op, ch, db))
  {
    match op
    case Start(_, _, _, _, _) => StartKeepsRows(env, op, ch, db);
    case Decide(_, _, _, _) => DecideKeepsRows(env, op, ch, db);
    case Sweep(_) =>
      hide Integral, After, SweptTo, JustExpired;
      IntegralGate(env, db);
      SweepIsExact(op, ch, db);
    case _ => hide Integral; MoveKeepsRows(op, ch, db);
  }

  lemma MoveKeepsRows(op: Op, ch: Choice, db: Db)
    requires op.Transition? || op.Fail?
    ensures After(op, ch, db).dispatches == db.dispatches
  {
    hide MaxSeq, Accepts, MoveEvent;
  }

  lemma DecideKeepsRows(env: Env, op: Op, ch: Choice, db: Db)
    requires Integral(env, db) && op.Decide?
    ensures db.dispatches.Keys <= After(op, ch, db).dispatches.Keys
    ensures RowsKept(db, After(op, ch, db))
  {
    hide Integral, After, PutVerdict, PutConsequence, VerdictActor;
    if DecideRefusal(op, db).None? {
      DecisionSettles(env, op, ch, db);
      hide OneMore, SameLog, DecideRefusal;
    } else {
      RefusedChangesNothing(op, ch, db);
    }
  }

  lemma StartKeepsRows(env: Env, op: Op, ch: Choice, db: Db)
    requires Integral(env, db) && op.Start? && FreshIds(op, db)
    ensures db.dispatches.Keys <= After(op, ch, db).dispatches.Keys
    ensures RowsKept(db, After(op, ch, db))
  {
    hide Integral, StartWrites, Merge, MaxSeq;
    MergeNothing(db);
    if Creates(op, db) {
      NothingLeftOver(env, op, db);
      AfterStart(op, ch, db);
      hide After;
    } else if Effect(op, ch, db).reply.Reused? {
      ReusedWrites(env, op, ch, db);
    }
  }

  lemma CallKeepsOutbox(env: Env, w: World, op: Op, ch: Choice)
    requires Outbox(env, w) && WellFormedOp(env, op) && FreshIds(op, w.db) && Fits(op, ch, w.db)
    requires !op.ClaimDispatches? && !op.MarkSucceeded? && !op.MarkFailed?
    ensures Outbox(env, w.(db := After(op, ch, w.db)))
  {
    hide Integral, After, WellFormedOp, Blank;
    CallKeepsIntegrity(env, op, ch, w.db);
    CallKeepsRows(env, op, ch, w.db);
  }

  /** Claims and marks rewrite rows one by one. */
  lemma TouchedRows(env: Env, op: Op, ch: Choice, db: Db)
    requires Integral(env, db) && (op.ClaimDispatches? || op.MarkSucceeded? || op.MarkFailed?)
    ensures Integral(env, After(op, ch, db))
    ensures After(op, ch, db).dispatches.Keys == db.dispatches.Keys
    ensures forall e | e in db.dispatches :: After(op, ch, db).dispatches[e] == TouchedRow(op, ch, e, db.dispatches[e])
  {
    hide Integral, TouchedRow;
    AfterTouch(op, ch, db);
    TouchKeeps(env, op, ch, db);
  }

  lemma ClaimedRowTold(w: World, v: World, op: Op, ch: Choice, e: ExecId)
    requires op.ClaimDispatches? && e in w.db.dispatches && RowTold(w, e) && e in v.db.dispatches
    requires v.db.dispatches[e] == TouchedRow(op, ch, e, w.db.dispatches[e])
    requires v.clock == w.clock && ch.begun <= w.clock && v.jobs == w.jobs
    requires v.claims == CountClaims(w.claims, ch.rows) && v.lastClaim == RecordClaims(w.lastClaim, ch.rows, ch.begun)
    ensures RowTold(v, e)
  {
    assert e in ch.rows ==> e in (set x | x in ch.rows);
  }

  lemma MarkedRowTold(w: World, v: World, op: Op, ch: Choice, e: ExecId)
    requires (op.MarkSucceeded? || op.MarkFailed?) && e in w.db.dispatches && RowTold(w, e) && e in v.db.dispatches
    requires v.db.dispatches[e] == TouchedRow(op, ch, e, w.db.dispatches[e])
    requires v.clock == w.clock && v.jobs == w.jobs && v.claims == w.claims && v.lastClaim == w.lastClaim
    requires op.MarkSucceeded? ==> op.exec in w.jobs
    ensures RowTold(v, e)
  {
  }

  lemma SamePublisherTold(w: World, v: World, p: Publisher)
    requires PublisherTold(w, p) && w.db.dispatches.Keys <= v.db.dispatches.Keys && w.jobs <= v.jobs
    ensures PublisherTold(v, p)
  {
  }

  lemma ClaimKeepsRows(env: Env, w: World, id: nat, limit: int, lease: int, ch: Choice, v: World)
    requires Outbox(env, w) && Moves(env, OpenApi, w, Claim(id, limit, lease, ch), v)
    ensures Integral(env, v.db) && v.db.dispatches.Keys == w.db.dispatches.Keys
    ensures forall e | e in v.db.dispatches :: RowTold(v, e)
  {
    var op := ClaimDispatches(limit, lease);
    TouchedRows(env, op, ch, w.db);
    hide Integral, After, ClaimableRows, Blank, RowTold, TouchedRow, CountClaims, RecordClaims, SafeLease;
    forall e | e in v.db.dispatches ensures RowTold(v, e) { ClaimedRowTold(w, v, op, ch, e); }
  }

  lemma ClaimKeepsOutbox(env: Env, w: World, id: nat, limit: int, lease: int, ch: Choice, v: World)
    requires Outbox(env, w) && Moves(env, OpenApi, w, Claim(id, limit, lease, ch), v)
    ensures Outbox(env, v)
  {
    hide Integral, After, Blank, RowTold, CountClaims, RecordClaims, SafeLease;
    PickedExist(w.db, ch.begun, ch.rows);
    CountedExist(w.claims, ch.rows);
    ClaimKeepsRows(env, w, id, limit, lease, ch, v);
    forall d | d in v.publishers ensures PublisherTold(v, v.publishers[d]) {
      if d != id { SamePublisherTold(w, v, w.publishers[d]); }
    }
    hide PublisherTold, ClaimableRows;
  }

  lemma PickedExist(db: Db, now: int, rows: seq<ExecId>)
    requires ClaimableRows(db, rows, now)
    ensures forall e | e in rows :: e in db.dispatches
  {
    forall e | e in rows ensures e in db.dispatches {
      var i :| 0 <= i < |rows| && rows[i] == e;
      assert rows[i] in db.dispatches;
    }
  }

  lemma CountedExist(claims: map<ExecId, nat>, rows: seq<ExecId>)
    ensures forall e | e in CountClaims(claims, rows) :: e in claims || e in rows
  {
  }

  /** What a mark that took effect, or did not, leaves of the rows. */
  lemma MarkKeepsRows(env: Env, w: World, id: nat, outcome: Outcome, now: int, error: string, v: World)
    requires Outbox(env, w) && Moves(env, OpenApi, w, Mark(id, outcome, now, error), v)
    ensures Integral(env, v.db) && v.db.dispatches.Keys == w.db.dispatches.Keys
    ensures forall e | e in v.db.dispatches :: RowTold(v, e)
  {
    var p := w.publishers[id];
    var op, ch := MarkOp(p, error), Choice(now, now, [], []);
    assert PublisherTold(w, p);
    TouchedRows(env, op, ch, w.db);
    hide Integral, After, Blank, RowTold, TouchedRow, AfterMark;
    forall e | e in v.db.dispatches ensures RowTold(v, e) {
      if outcome.Failed? { SameRowTold(w, v, e); } else { MarkedRowTold(w, v, op, ch, e); }
    }
  }

  lemma MarkKeepsPublishers(env: Env, w: World, id: nat, outcome: Outcome, now: int, error: string, v: World)
    requires Outbox(env, w) && Moves(env, OpenApi, w, Mark(id, outcome, now, error), v)
    requires v.db.dispatches.Keys == w.db.dispatches.Keys
    ensures forall d | d in v.publishers :: PublisherTold(v, v.publishers[d])
  {
    hide Integral, After, Blank, RowTold, MarkOp;
    assert PublisherTold(w, w.publishers[id]);
    forall d | d in v.publishers ensures PublisherTold(v, v.publishers[d]) {
      if d != id { SamePublisherTold(w, v, w.publishers[d]); }
    }
  }

  lemma MarkKeepsOutbox(env: Env, w: World, id: nat, outcome: Outcome, now: int, error: string, v: World)
    requires Outbox(env, w) && Moves(env, OpenApi, w, Mark(id, outcome, now, error), v)
    ensures Outbox(env, v)
  {
    hide Integral, After, Blank, RowTold, PublisherTold, AfterMark, MarkOp;
    MarkKeepsRows(env, w, id, outcome, now, error, v);
    MarkKeepsPublishers(env, w, id, outcome, now, error, v);
  }

  lemma SameRowTold(w: World, v: World, e: ExecId)
    requires e in w.db.dispatches && e in v.db.dispatches && RowTold(w, e) && v.db.dispatches[e] == w.db.dispatches[e]
    requires w.clock <= v.clock && w.jobs <= v.jobs && v.claims == w.claims && v.lastClaim == w.lastClaim
    ensures RowTold(v, e)
  {
  }

  lemma EnqueueKeepsOutbox(env: Env, w: World, id: nat, outcome: Outcome, v: World)
    requires Outbox(env, w) && Moves(env, OpenApi, w, Enqueue(id, outcome), v)
    ensures Outbox(env, v)
  {
    hide Integral, Blank;
    assert PublisherTold(w, w.publishers[id]);
    forall d | d in v.publishers ensures PublisherTold(v, v.publishers[d]) {
      if d != id { SamePublisherTold(w, v, w.publishers[d]); }
    }
    forall e | e in v.db.dispatches ensures RowTold(v, e) { SameRowTold(w, v, e); }
    hide PublisherTold, RowTold;
  }

  lemma WorkKeepsOutbox(env: Env, w: World, id: nat, outcome: Outcome, v: World)
    requires Outbox(env, w) && Moves(env, OpenApi, w, Work(id, outcome), v)
    ensures Outbox(env, v)
  {
    hide WorkStep, After, Effect, Latest, Integral, RowTold, PublisherTold, Blank;
    var t := w.workers[id];
    WorkLeavesRows(w.db, t, outcome);
    assert forall x | x in v.workers :: v.workers[x].exec in w.jobs;
    hide Outbox;
    if t.pc.Moving? && !outcome.Failed? {
      CallKeepsOutbox(env, w, Advancing(t.exec), NO_READ);
      WorkersAside(env, w.(db := After(Advancing(t.exec), NO_READ, w.db)), v);
    } else {
      WorkersAside(env, w, v);
    }
  }

  lemma WorkLeavesRows(db: Db, t: Worker, outcome: Outcome)
    ensures WorkStep(db, t, outcome).0
      == if t.pc.Moving? && !outcome.Failed? then After(Advancing(t.exec), NO_READ, db) else db
  {
    hide Latest, AfterRead, After, Effect;
  }

  lemma WorkersAside(env: Env, w: World, v: World)
    requires Outbox(env, w) && v == w.(workers := v.workers)
    requires forall id | id in v.workers :: v.workers[id].exec in w.jobs
    ensures Outbox(env, v)
  {
    hide Integral, Blank;
    forall e | e in v.db.dispatches ensures RowTold(v, e) { SameRowTold(w, v, e); }
    forall d | d in v.publishers ensures PublisherTold(v, v.publishers[d]) { SamePublisherTold(w, v, w.publishers[d]); }
    hide RowTold, PublisherTold;
  }

  lemma QuietKeepsOutbox(env: Env, w: World, v: World)
    requires Outbox(env, w) && v.db == w.db && v.jobs == w.jobs && w.clock <= v.clock
    requires v.claims == w.claims && v.lastClaim == w.lastClaim
    requires forall id | id in v.publishers :: id in w.publishers && v.publishers[id] == w.publishers[id]
    requires forall id | id in v.workers :: v.workers[id].exec in v.jobs
    ensures Outbox(env, v)
  {
    hide Integral, Blank;
    forall e | e in v.db.dispatches ensures RowTold(v, e) { SameRowTold(w, v, e); }
    forall d | d in v.publishers ensures PublisherTold(v, v.publishers[d]) { SamePublisherTold(w, v, w.publishers[d]); }
    hide RowTold, PublisherTold;
  }

  /** Every step, with any callers, keeps the outbox sound. */
  lemma StepKeepsOutbox(env: Env, api: Api, w: World, step: Step, v: World)
    requires Outbox(env, w) && Moves(env, api, w, step, v)
    ensures Outbox(env, v)
  {
    assert step.Call? || Moves(env, OpenApi, w, step, v);
    match step
    case Call(op, ch) => hide Outbox, After, ClaimableRows; CallKeepsOutbox(env, w, op, ch);
    case Claim(id, limit, lease, ch) => hide Moves, Outbox; ClaimKeepsOutbox(env, w, id, limit, lease, ch, v);
    case Enqueue(id, outcome) => hide Moves, Outbox; EnqueueKeepsOutbox(env, w, id, outcome, v);
    case Mark(id, outcome, now, error) => hide Moves, Outbox; MarkKeepsOutbox(env, w, id, outcome, now, error, v);
    case Work(id, outcome) => hide Moves, Outbox; WorkKeepsOutbox(env, w, id, outcome, v);
    case _ => QuietWorkers(env, w, step, v); hide Moves, Outbox; QuietKeepsOutbox(env, w, v);
  }

  lemma QuietWorkers(env: Env, w: World, step: Step, v: World)
    requires Outbox(env, w) && Moves(env, OpenApi, w, step, v)
    requires step.Advance? || step.Leave? || step.Deliver? || step.Drop?
    ensures v.db == w.db && v.jobs == w.jobs && w.clock <= v.clock && v.claims == w.claims && v.lastClaim == w.lastClaim
    ensures forall id | id in v.publishers :: id in w.publishers && v.publishers[id] == w.publishers[id]
    ensures forall id | id in v.workers :: v.workers[id].exec in v.jobs
  {
    hide Integral, Blank, RowTold, PublisherTold;
  }

  lemma {:induction false} RunKeepsOutbox(env: Env, api: Api, worlds: seq<World>, steps: seq<Step>, n: nat)
    requires WorldRun(env, api, worlds, steps) && n < |worlds|
    ensures Outbox(env, worlds[n])
  {
    hide Outbox, Moves;
    if n == 0 {
      StartsSound(env, worlds[0]);
    } else {
      RunKeepsOutbox(env, api, worlds, steps, n - 1);
      assert Moves(env, api, worlds[n - 1], steps[n - 1], worlds[n]);
      StepKeepsOutbox(env, api, worlds[n - 1], steps[n - 1], worlds[n]);
    }
  }

  // ---------- what the outbox promises ----------

  /** The approval gate, end to end: nothing reaches the queue that is not open from the start or approved. */
  lemma JobsPassedTheGate(env: Env, api: Api, worlds: seq<World>, steps: seq<Step>, n: nat, e: ExecId)
    requires WorldRun(env, api, worlds, steps) && n < |worlds| && e in worlds[n].jobs
    ensures var db := worlds[n].db;
      && e in db.execs && e in db.dispatches
      && (BeginsWith(db, e, Intake) || HasApproved(db, e))
  {
    RunKeepsOutbox(env, api, worlds, steps, n);
    hide RowTold, PublisherTold, ExecutionsOk, ApprovalsOk, HasApproved, BeginsWith, Moves;
    assert GateOk(worlds[n].db, e);
  }

  /**
   * No dispatch is lost, however publishers crash, overlap or answer late: a row is PROCESSING exactly
   * while it has a lease; one that is not DISPATCHED can be claimed now or as soon as the lease of its
   * latest claim is over; its attempts count its claims; and a row once dispatched has its job queued.
   */
  lemma NoDispatchIsLost(env: Env, api: Api, worlds: seq<World>, steps: seq<Step>, n: nat, e: ExecId)
    requires WorldRun(env, api, worlds, steps) && n < |worlds| && e in worlds[n].db.dispatches
    ensures var w := worlds[n]; var row := w.db.dispatches[e];
      && (row.status == Processing <==> row.lockedUntil.Some?)
      && (row.status != Dispatched ==>
            || Claimable(row, w.clock)
            || (e in w.lastClaim && w.lastClaim[e] <= w.clock
                && forall now | now > w.lastClaim[e] + MAX_LEASE :: Claimable(row, now)))
      && row.attempts == (if e in w.claims then w.claims[e] else 0)
      && (row.dispatchedAt.Some? || row.status == Dispatched ==> e in w.jobs)
  {
    RunKeepsOutbox(env, api, worlds, steps, n);
    assert RowTold(worlds[n], e) && DispatchRowOk(worlds[n].db.dispatches[e]);
  }
}
