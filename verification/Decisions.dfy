/**
 * Which decisions are accepted, whatever callers do: an execution at its opening approval always has an
 * undecided approval, so the refusal "approval not pending" can never be given.
 */
module Decisions {
  import opened Base
  import opened StateMachine
  import opened Requests
  import opened Tables
  import opened Kernel
  import opened Integrity
  import opened Sweeps
  import opened Closed
  import opened Interleaving
  import opened Runs

  /** A decided approval's execution has left APPROVAL. */
  ghost predicate DecidedMovedOn(db: Db) {
    forall a | a in db.approvals && db.approvals[a].status != Pending ::
      db.approvals[a].exec in db.execs && db.execs[db.approvals[a].exec].status != Approval
  }

  lemma MovesNeverReturn(env: Env, db: Db, e: ExecId, ev: Event)
    requires Integral(env, db) && e in db.execs && CanTransition(db.execs[e].status, ev.status)
    requires BeginsWith(db, e, Approval)
    ensures ev.status != Approval
  {
    hide ApprovalsOk, DispatchesOk, IdempotencyOk, Valid;
    assert ExecutionOk(db, e);
    LongerLogOk(db, e, ev);
    hide ExecutionsOk, ExecutionOk, LogOk, WithMove;
    var u := WithMove(db, e, ev);
    FirstAndLast(db, e, ev);
    DurableLogIsShortAndSimple(u, e);
    assert Log(u, e)[0] != Log(u, e)[|Log(u, e)| - 1];
  }

  lemma FirstAndLast(db: Db, e: ExecId, ev: Event)
    requires e in db.execs && LogOk(db, e) && BeginsWith(db, e, Approval)
    requires LogOk(WithMove(db, e, ev), e) && Length(WithMove(db, e, ev), e) == Length(db, e) + 1
    ensures var log := Log(WithMove(db, e, ev), e);
      |log| >= 2 && log[0] == Approval && log[|log| - 1] == ev.status
  {
  }

  lemma MoveKeepsDecided(env: Env, op: Op, ch: Choice, db: Db)
    requires Integral(env, db) && DecidedMovedOn(db) && (op.Transition? || op.Fail?)
    ensures DecidedMovedOn(After(op, ch, db))
  {
    hide Integral, After, Effect, DecidedMovedOn, WithMove, Accepts;
    if op.exec in db.execs && Accepts(op, db.execs[op.exec].status) {
      AfterMove(op, ch, db);
      WithMoveKeepsDecided(env, db, op.exec, MoveEvent(op));
    } else {
      RefusedMove(op, ch, db);
    }
  }

  lemma WithMoveKeepsDecided(env: Env, db: Db, e: ExecId, ev: Event)
    requires Integral(env, db) && DecidedMovedOn(db) && e in db.execs && CanTransition(db.execs[e].status, ev.status)
    ensures DecidedMovedOn(WithMove(db, e, ev))
  {
    hide Integral, MaxSeq, BeginsWith;
    forall a | a in db.approvals && db.approvals[a].exec == e ensures ev.status != Approval {
      ApprovalBegins(env, db, a);
      MovesNeverReturn(env, db, e, ev);
    }
  }

  lemma ApprovalBegins(env: Env, db: Db, a: ApprovalId)
    requires Integral(env, db) && a in db.approvals
    ensures db.approvals[a].exec in db.execs && BeginsWith(db, db.approvals[a].exec, Approval)
    ensures db.approvals[a].tenant == db.execs[db.approvals[a].exec].request.tenantId
  {
    hide ExecutionsOk, DispatchesOk, IdempotencyOk, BeginsWith;
    assert ApprovalOk(db, a);
  }

  lemma DecideKeepsDecided(env: Env, op: Op, ch: Choice, db: Db)
    requires Integral(env, db) && DecidedMovedOn(db) && op.Decide?
    ensures DecidedMovedOn(After(op, ch, db))
  {
    hide Integral, After, VerdictOf, VerdictActor, Effect, Settled;
    if DecideRefusal(op, db).None? {
      UnrefusedIsGrantable(op, db);
      DecisionSettles(env, op, ch, db);
      hide DecideRefusal, DecidedMovedOn;
      var v := VerdictOf(op, db.approvals[op.approvalId], ch.clock);
      SettledKeepsDecided(db, After(op, ch, db), op.exec, op.approvalId, v, VerdictActor(op, v), ch.begun);
    } else {
      RefusedDecision(op, ch, db);
    }
  }

  lemma SettledKeepsDecided(db: Db, t: Db, e: ExecId, a: ApprovalId, v: ApprovalStatus, who: string, now: int)
    requires DecidedMovedOn(db) && Grantable(db, e, a) && Settled(db, t, e, a, v, who, now)
    ensures DecidedMovedOn(t)
  {
    hide OneMore, SameLog, VerdictAudit, VerdictEvent;
  }

  lemma SweepKeepsDecided(env: Env, op: Op, ch: Choice, db: Db)
    requires Integral(env, db) && DecidedMovedOn(db) && op.Sweep? && Fits(op, ch, db)
    ensures DecidedMovedOn(After(op, ch, db))
  {
    assert RealClaims(db, ch.approvals);
    hide Integral, After, Effect, JustExpired, SweptTo, DecidedMovedOn, PendingClaims;
    IntegralGate(env, db);
    SweepIsExact(op, ch, db);
    SweptKeepsDecided(db, ch.approvals, After(op, ch, db));
  }

  lemma SweptKeepsDecided(db: Db, claims: seq<ApprovalId>, t: Db)
    requires DecidedMovedOn(db) && RealClaims(db, claims) && SweptTo(db, claims, |claims|, t)
    requires JustExpired(db, claims, |claims|, t)
    ensures DecidedMovedOn(t)
  {
    assert claims[..|claims|] == claims;
    forall a | a in t.approvals && t.approvals[a].status != Pending
      ensures t.approvals[a].exec in t.execs && t.execs[t.approvals[a].exec].status != Approval
    {
      if a in claims {
        var i :| 0 <= i < |claims| && claims[i] == a;
        SweptAway(db, claims, t, db.approvals[a].exec, i);
      } else {
        StaysAway(db, claims, t, db.approvals[a].exec);
      }
    }
  }

  lemma SweptAway(db: Db, claims: seq<ApprovalId>, t: Db, e: ExecId, i: nat)
    requires RealClaims(db, claims) && SweptTo(db, claims, |claims|, t) && i < |claims|
    requires db.approvals[claims[i]].exec == e
    ensures e in t.execs && t.execs[e].status != Approval
  {
    hide SameLog, OneMore;
    if Waiting(db, claims[i]) {
      assert RejectedBy(db, t, claims[i]);
    } else {
      assert Untouched(db, t, e);
    }
  }

  lemma StaysAway(db: Db, claims: seq<ApprovalId>, t: Db, e: ExecId)
    requires RealClaims(db, claims) && SweptTo(db, claims, |claims|, t) && e in db.execs
    requires db.execs[e].status != Approval
    ensures e in t.execs && t.execs[e].status != Approval
  {
    hide SameLog, OneMore;
    if Touched(db, claims, |claims|, e) {
      var i :| 0 <= i < |claims| && db.approvals[claims[i]].exec == e;
      SweptAway(db, claims, t, e, i);
    } else {
      assert Untouched(db, t, e);
    }
  }

  lemma StartKeepsDecided(env: Env, op: Op, ch: Choice, db: Db)
    requires Integral(env, db) && DecidedMovedOn(db) && op.Start? && FreshIds(op, db)
    ensures DecidedMovedOn(After(op, ch, db))
  {
    hide Integral, StartWrites, Merge, MaxSeq;
    MergeNothing(db);
    if Creates(op, db) {
      NothingLeftOver(env, op, db);
      AfterStart(op, ch, db);
      hide After, InitialStatus;
    } else if Effect(op, ch, db).reply.Reused? {
      ReusedWrites(env, op, ch, db);
    }
  }

  /** Every call, `transition` and `fail` included, keeps decided approvals' executions away from APPROVAL. */
  lemma CallKeepsDecided(env: Env, op: Op, ch: Choice, db: Db)
    requires Integral(env, db) && DecidedMovedOn(db) && FreshIds(op, db) && Fits(op, ch, db)
    ensures DecidedMovedOn(After(op, ch, db))
  {
    hide Integral, DecidedMovedOn, After, PendingClaims;
    match op
    case Start(_, _, _, _, _) => StartKeepsDecided(env, op, ch, db);
    case Decide(_, _, _, _) => DecideKeepsDecided(env, op, ch, db);
    case Sweep(_) => SweepKeepsDecided(env, op, ch, db);
    case Transition(_, _, _, _) => MoveKeepsDecided(env, op, ch, db);
    case Fail(_, _, _) => MoveKeepsDecided(env, op, ch, db);
    case _ => AfterTouch(op, ch, db); SameRowsDecided(db, After(op, ch, db));
  }

  lemma SameRowsDecided(db: Db, t: Db)
    requires DecidedMovedOn(db) && t.execs == db.execs && t.approvals == db.approvals
    ensures DecidedMovedOn(t)
  {
  }

  lemma {:induction false} RunsKeepDecided(env: Env, states: seq<System>, actions: seq<Action>, n: nat)
    requires IsRun(env, states, actions) && n < |states|
    ensures DecidedMovedOn(states[n].db) && Integral(env, states[n].db)
  {
    hide Inv, Next, Integral, Replay, Refines;
    EveryRunKeepsIntegrity(env, states, actions, n);
    if n > 0 {
      RunsKeepDecided(env, states, actions, n - 1);
      RunsAreSerial(env, states, actions, n - 1);
      var s, act, t := states[n - 1], actions[n - 1], states[n];
      assert Next(env, s, act, t);
      StepRefines(env, s, act, t);
      hide DecidedMovedOn, IsRun;
      if act.Commit? {
        CommitKeepsDecided(env, s, act.client, t);
      } else {
        QuietStep(s, act, t);
      }
    } else {
      assert states[0].db == NO_ROWS;
    }
  }

  lemma QuietStep(s: System, act: Action, t: System)
    requires Refines(s, act, t) && !act.Commit?
    ensures t.db == s.db
  {
  }

  lemma CommitKeepsDecided(env: Env, s: System, c: Client, t: System)
    requires Inv(env, s) && Refines(s, Commit(c), t) && DecidedMovedOn(s.db)
    ensures DecidedMovedOn(t.db)
  {
    hide Integral, WellFormedOp, LocksDisjoint, DistinctIds, DecidedMovedOn, After, Effect, ClaimableRows;
    hide PendingClaims;
    assert ClientOk(env, s.db, s.clients[c]);
    hide Inv;
    CallKeepsDecided(env, s.clients[c].op, s.clients[c].local.ch, s.db);
  }

  // ---------- refusals, exactly ----------

  ghost predicate RefusedExactly(op: Op, db: Db)
    requires op.Decide?
  {
    var refusal := DecideRefusal(op, db);
    var waits := op.exec in db.execs && db.execs[op.exec].status == Approval;
    && (refusal.None? <==> Grantable(db, op.exec, op.approvalId))
    && (refusal == Some(ExecutionNotFound) <==> op.exec !in db.execs)
    && (refusal == Some(NotInApproval) <==> op.exec in db.execs && !waits)
    && (refusal == Some(ApprovalNotFound) <==> waits && op.approvalId !in db.approvals)
    && (refusal == Some(ApprovalMismatch) <==>
          waits && op.approvalId in db.approvals && db.approvals[op.approvalId].exec != op.exec)
    && refusal != Some(ApprovalNotPending)
  }

  lemma RefusalsAreExact(env: Env, op: Op, db: Db)
    requires op.Decide? && Integral(env, db) && DecidedMovedOn(db)
    ensures RefusedExactly(op, db)
  {
    hide Integral, BeginsWith;
    if op.approvalId in db.approvals {
      ApprovalBegins(env, db, op.approvalId);
    }
  }

  /**
   * In every reachable state, for any decision: what it is refused with is exactly determined, it is
   * accepted exactly if the named approval is a pending one of the named execution at APPROVAL, and
   * "not pending" is never the answer.
   */
  lemma DecisionsAreRefusedExactly(env: Env, states: seq<System>, actions: seq<Action>, n: nat, op: Op)
    requires IsRun(env, states, actions) && n < |states| && op.Decide?
    ensures RefusedExactly(op, states[n].db)
  {
    hide Integral, IsRun, RefusedExactly, DecidedMovedOn;
    RunsKeepDecided(env, states, actions, n);
    RefusalsAreExact(env, op, states[n].db);
  }
}
