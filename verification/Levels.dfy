/**
 * From statements to transactions: what commits in the statement-level system is a single step of
 * the runtime's world.  `Processes` concludes the same of whole runs.
 */
module Levels {
  import opened Base
  import opened Requests
  import opened Tables
  import opened Kernel
  import opened Integrity
  import opened Interleaving
  import opened Runs
  import Expiry
  import Runtime

  // ---------- now() is in the past ----------

  lemma BegunKept(op: Op, l: Local, db: Db, inp: Input)
    ensures Execute(op, l, db, inp).ch.begun == l.ch.begun
  {
    hide Merge, MaxSeq, Taken, PutTenant, PutGate, PutIdempotency, PutVerdict, PutStatus, PutDispatch;
    hide VerdictAudit, Auditor;
    hide ClaimWrites, MarkWrites, PolicyAudit, FirstEvent, Allowed, VerdictOf, VerdictActor, Accepts, MoveEvent;
    if MovePc(l.pc) {
      hide StartStatement, DecideStatement, SweepStatement;
    } else if op.Start? {
      hide DecideStatement, SweepStatement, MoveStatement;
    } else if op.Decide? {
      hide StartStatement, SweepStatement, MoveStatement;
    } else {
      hide StartStatement, DecideStatement, MoveStatement;
    }
  }

  ghost predicate BegunBefore(s: System) {
    forall c | c in s.clients :: s.clients[c].local.ch.begun <= s.clock
  }

  /** `now()` of a transaction is never ahead of the clock. */
  lemma StepsBeginInThePast(env: Env, s: System, a: Action, s': System)
    requires BegunBefore(s) && Next(env, s, a, s')
    ensures BegunBefore(s')
  {
    hide Execute, Enabled, Merge, WellFormedOp;
    match a
    case Run(c, inp) => BegunKept(s.clients[c].op, s.clients[c].local, s.db, inp);
    case _ =>
  }

  // ---------- commits are steps of the world ----------

  lemma CommitFacts(env: Env, s: System, c: Client, s': System)
    requires Inv(env, s) && Next(env, s, Commit(c), s')
    ensures c in s.clients
    ensures var t := s.clients[c];
      WellFormedOp(env, t.op) && FreshIds(t.op, s.db) && Grounded(t.op, t.local.ch, s.db)
      && s'.db == Kernel.After(t.op, t.local.ch, s.db)
  {
    StepRefines(env, s, Commit(c), s');
    assert ClientOk(env, s.db, s.clients[c]);
    hide Inv, Next, Grounded, WellFormedOp, Kernel.After, Effect;
  }

  /** A service call. */
  lemma CallCommitsAsOneStep(env: Env, s: System, c: Client, s': System, w: Runtime.World)
    requires Inv(env, s) && Next(env, s, Commit(c), s') && w.db == s.db
    requires Runtime.Callable(Runtime.OpenApi, s.clients[c].op)
    ensures Runtime.Moves(env, Runtime.OpenApi, w, Runtime.Call(s.clients[c].op, s.clients[c].local.ch),
      w.(db := s'.db))
  {
    CommitFacts(env, s, c, s');
    hide Inv, Next, WellFormedOp, Kernel.After, ClaimableRows, PendingClaims;
  }

  /** A publisher's claim: in the world it becomes that publisher's batch. */
  lemma ClaimCommitsAsOneStep(env: Env, s: System, c: Client, s': System, w: Runtime.World, id: nat)
    returns (v: Runtime.World)
    requires Inv(env, s) && Next(env, s, Commit(c), s') && w.db == s.db && w.clock == s.clock && BegunBefore(s)
    requires s.clients[c].op.ClaimDispatches? && id !in w.publishers
    ensures v.db == s'.db && v.jobs == w.jobs && v.clock == w.clock && v.workers == w.workers
    ensures var t := s.clients[c];
      v.publishers == w.publishers[id := Runtime.Publisher(
        t.local.ch.rows, t.local.ch.begun + SafeLease(t.op.lease), 0, Runtime.Enqueueing, 0, 0)]
    ensures var t := s.clients[c];
      Runtime.Moves(env, Runtime.OpenApi, w, Runtime.Claim(id, t.op.limit, t.op.lease, t.local.ch), v)
  {
    hide Inv, Next, WellFormedOp, Kernel.After, Grounded, Runtime.Moves;
    CommitFacts(env, s, c, s');
    var t := s.clients[c];
    assert t.local.ch.begun <= s.clock;
    hide BegunBefore;
    v := WorldClaim(env, w, id, t.op, t.local.ch);
  }

  lemma WorldClaim(env: Env, w: Runtime.World, id: nat, op: Op, ch: Choice) returns (v: Runtime.World)
    requires op.ClaimDispatches? && Grounded(op, ch, w.db) && ch.begun <= w.clock && id !in w.publishers
    ensures v.db == Kernel.After(op, ch, w.db) && v.jobs == w.jobs && v.clock == w.clock && v.workers == w.workers
    ensures v.publishers == w.publishers[
      id := Runtime.Publisher(ch.rows, ch.begun + SafeLease(op.lease), 0, Runtime.Enqueueing, 0, 0)]
    ensures Runtime.Moves(env, Runtime.OpenApi, w, Runtime.Claim(id, op.limit, op.lease, ch), v)
  {
    hide Kernel.After, ClaimableRows, Runtime.CountClaims, Runtime.RecordClaims, SafeLease;
    v := w.(db := Kernel.After(op, ch, w.db),
            publishers := w.publishers[
              id := Runtime.Publisher(ch.rows, ch.begun + SafeLease(op.lease), 0, Runtime.Enqueueing, 0, 0)],
            claims := Runtime.CountClaims(w.claims, ch.rows),
            lastClaim := Runtime.RecordClaims(w.lastClaim, ch.rows, ch.begun));
  }

  /** A publisher's mark of the row it is at, whether or not it is told so. */
  lemma MarkCommitsAsOneStep(
      env: Env, s: System, c: Client, s': System, w: Runtime.World, id: nat, outcome: Runtime.Outcome, error: string)
    returns (v: Runtime.World)
    requires Inv(env, s) && Next(env, s, Commit(c), s') && w.db == s.db && w.clock == s.clock && BegunBefore(s)
    requires s.clients[c].op.MarkSucceeded? || s.clients[c].op.MarkFailed?
    requires id in w.publishers && Runtime.AtRow(w.publishers[id]) && !w.publishers[id].phase.Enqueueing?
    requires Runtime.MarkOp(w.publishers[id], error) == s.clients[c].op && !outcome.Failed?
    ensures v == w.(db := s'.db, publishers := Runtime.AfterMark(w.publishers, id, outcome))
    ensures Runtime.Moves(env, Runtime.OpenApi, w, Runtime.Mark(id, outcome, s.clients[c].local.ch.begun, error), v)
  {
    hide Inv, Runtime.Moves, Kernel.After, Runtime.AfterMark;
    CommitFacts(env, s, c, s');
    var t := s.clients[c];
    assert t.local.ch.begun <= s.clock;
    hide Next, BegunBefore;
    MarksSeeOnlyTheirTime(t.op, t.local.ch, s.db);
    v := WorldMark(env, w, id, outcome, t.local.ch.begun, error);
  }

  lemma WorldMark(env: Env, w: Runtime.World, id: nat, outcome: Runtime.Outcome, now: int, error: string)
    returns (v: Runtime.World)
    requires id in w.publishers && Runtime.AtRow(w.publishers[id]) && !w.publishers[id].phase.Enqueueing?
    requires now <= w.clock
    ensures var op, ch := Runtime.MarkOp(w.publishers[id], error), Choice(now, now, [], []);
      v == w.(db := if outcome.Failed? then w.db else Kernel.After(op, ch, w.db),
              publishers := Runtime.AfterMark(w.publishers, id, outcome))
    ensures Runtime.Moves(env, Runtime.OpenApi, w, Runtime.Mark(id, outcome, now, error), v)
  {
    var op, ch := Runtime.MarkOp(w.publishers[id], error), Choice(now, now, [], []);
    v := w.(db := if outcome.Failed? then w.db else Kernel.After(op, ch, w.db),
            publishers := Runtime.AfterMark(w.publishers, id, outcome));
    hide Kernel.After, Runtime.AfterMark;
  }

  lemma MarksSeeOnlyTheirTime(op: Op, ch: Choice, db: Db)
    requires op.MarkSucceeded? || op.MarkFailed?
    ensures Kernel.After(op, ch, db) == Kernel.After(op, Choice(ch.begun, ch.begun, [], []), db)
  {
  }

  // ---------- expiry, down to the queue ----------

  /** `a` is past expiry time `clock` and not granted. */
  predicate Ungranted(db: Db, a: ApprovalId, clock: int) {
    && a in db.approvals && db.approvals[a].status != Approved
    && db.approvals[a].expiresAt.Some? && db.approvals[a].expiresAt.value <= clock
  }

  /** Decisions of the step read their clock at `clock` or later. */
  predicate ReadsLate(step: Runtime.Step, clock: int) {
    step.Call? && step.op.Decide? ==> clock <= step.ch.clock
  }

  lemma LateGrantIsExpiry(op: Op, ch: Choice, db: Db, clock: int)
    requires op.Decide? && Ungranted(db, op.approvalId, clock) && clock <= ch.clock
    ensures Effect(op, ch, db).reply != Decided(Approved)
  {
    hide PutConsequence, PutVerdict;
  }

  lemma CallLeavesUngranted(env: Env, op: Op, ch: Choice, db: Db, a: ApprovalId, clock: int)
    requires Integral(env, db) && FreshIds(op, db) && Fits(op, ch, db) && Ungranted(db, a, clock)
    requires op.Decide? ==> clock <= ch.clock
    ensures Ungranted(Kernel.After(op, ch, db), a, clock)
    ensures Kernel.After(op, ch, db).approvals[a].exec == db.approvals[a].exec
  {
    hide Integral, Kernel.After, Effect, PendingClaims;
    Expiry.CallFate(env, op, ch, db, a);
    if op.Decide? && op.approvalId == a { LateGrantIsExpiry(op, ch, db, clock); }
  }

  lemma StepLeavesUngranted(
      env: Env, api: Runtime.Api, w: Runtime.World, step: Runtime.Step, v: Runtime.World, a: ApprovalId, clock: int)
    requires Integral(env, w.db) && Runtime.Moves(env, api, w, step, v) && Ungranted(w.db, a, clock)
    requires ReadsLate(step, clock)
    ensures Ungranted(v.db, a, clock) && v.db.approvals[a].exec == w.db.approvals[a].exec
  {
    hide Integral, Kernel.After, Effect, Ungranted, ClaimableRows, WellFormedOp, Runtime.AfterMark;
    hide Runtime.AfterEnqueue;
    hide Runtime.CountClaims, Runtime.RecordClaims, Runtime.WorkStep;
    match step
    case Call(op, ch) => CallLeavesUngranted(env, op, ch, w.db, a, clock);
    case Claim(_, limit, lease, ch) => CallLeavesUngranted(env, ClaimDispatches(limit, lease), ch, w.db, a, clock);
    case Mark(id, _, now, error) =>
      CallLeavesUngranted(env, Runtime.MarkOp(w.publishers[id], error), Choice(now, now, [], []), w.db, a, clock);
    case Work(id, outcome) =>
      var t := w.workers[id];
      Runtime.WorkLeavesRows(w.db, t, outcome);
      CallLeavesUngranted(env, Runtime.Advancing(t.exec), Runtime.NO_READ, w.db, a, clock);
    case _ =>
  }

  /**
   * End to end: once an ungranted approval has expired, and if later decisions read their clock
   * after that, its execution is never dispatched and never queued, whatever callers, publishers and
   * workers do.
   */
  lemma {:induction false} LapsedIsNeverQueued(
      env: Env, api: Runtime.Api, worlds: seq<Runtime.World>, steps: seq<Runtime.Step>, i: nat, j: nat, a: ApprovalId)
    requires Runtime.WorldRun(env, api, worlds, steps) && i <= j < |worlds|
    requires Ungranted(worlds[i].db, a, worlds[i].clock)
    requires forall k | i <= k < j :: ReadsLate(steps[k], worlds[i].clock)
    ensures Ungranted(worlds[j].db, a, worlds[i].clock)
    ensures worlds[j].db.approvals[a].exec == worlds[i].db.approvals[a].exec
    ensures worlds[i].db.approvals[a].exec !in worlds[j].db.dispatches
    ensures worlds[i].db.approvals[a].exec !in worlds[j].jobs
    decreases j
  {
    hide Integral, Runtime.Moves, ReadsLate, Runtime.RowTold, Runtime.PublisherTold, Runtime.Starts;
    Runtime.RunKeepsOutbox(env, api, worlds, steps, j);
    if i < j {
      LapsedIsNeverQueued(env, api, worlds, steps, i, j - 1, a);
      Runtime.RunKeepsOutbox(env, api, worlds, steps, j - 1);
      assert Runtime.Moves(env, api, worlds[j - 1], steps[j - 1], worlds[j]);
      hide Ungranted;
      StepLeavesUngranted(env, api, worlds[j - 1], steps[j - 1], worlds[j], a, worlds[i].clock);
    }
    UngrantedIsNotQueued(env, worlds[j], a, worlds[i].clock);
  }

  lemma UngrantedIsNotQueued(env: Env, w: Runtime.World, a: ApprovalId, clock: int)
    requires Runtime.Outbox(env, w) && Ungranted(w.db, a, clock)
    ensures w.db.approvals[a].exec !in w.db.dispatches && w.db.approvals[a].exec !in w.jobs
  {
    hide Integral, Runtime.RowTold, Runtime.PublisherTold, Blank;
    Expiry.DispatchedIffGranted(env, w.db, a);
  }
}
