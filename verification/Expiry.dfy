/**
 * Expiry is final.  Once the clock has reached a pending approval's expiry, only a decision that had
 * passed its expiry check before can still dispatch the execution; without one nothing ever does.
 */
module Expiry {
  import opened Requests
  import opened Tables
  import opened Kernel
  import opened Integrity
  import opened Sweeps
  import opened Closed
  import opened Interleaving
  import opened Atomicity
  import opened Runs

  /** In intact tables the execution of an approval is dispatched exactly if the approval is granted. */
  lemma DispatchedIffGranted(env: Env, db: Db, a: ApprovalId)
    requires Integral(env, db) && a in db.approvals
    ensures db.approvals[a].exec in db.dispatches <==> db.approvals[a].status == Approved
    ensures db.approvals[a].exec in db.execs
  {
    hide ExecutionsOk, IdempotencyOk, DispatchRowOk;
    assert ApprovalOk(db, a);
    assert GateOk(db, db.approvals[a].exec);
  }

  // ---------- what calls do to an approval ----------

  /** Same approval; granted before, or by this very call. */
  ghost predicate Fate(op: Op, reply: Reply, db: Db, t: Db, a: ApprovalId)
    requires a in db.approvals
  {
    && a in t.approvals
    && t.approvals[a].exec == db.approvals[a].exec && t.approvals[a].expiresAt == db.approvals[a].expiresAt
    && (t.approvals[a].status == Approved <==>
          db.approvals[a].status == Approved || (op.Decide? && op.approvalId == a && reply == Decided(Approved)))
  }

  lemma DecideFate(env: Env, op: Op, ch: Choice, db: Db, a: ApprovalId)
    requires Integral(env, db) && op.Decide? && a in db.approvals
    ensures Fate(op, Effect(op, ch, db).reply, db, After(op, ch, db), a)
  {
    hide Integral, After, PutVerdict, PutConsequence, VerdictActor;
    if DecideRefusal(op, db).None? {
      DecisionSettles(env, op, ch, db);
      UnrefusedIsGrantable(op, db);
      hide OneMore, SameLog, DecideRefusal;
    } else {
      RefusedChangesNothing(op, ch, db);
    }
  }

  lemma SweepFate(env: Env, op: Op, ch: Choice, db: Db, a: ApprovalId)
    requires Integral(env, db) && op.Sweep? && Fits(op, ch, db) && a in db.approvals
    ensures Fate(op, Effect(op, ch, db).reply, db, After(op, ch, db), a)
  {
    assert PendingClaims(db, ch.approvals);
    hide Integral, After, Effect, SweptTo, JustExpired, ApprovalsOk, PendingClaims, Fate;
    IntegralGate(env, db);
    SweepIsExact(op, ch, db);
    ExpiredFate(op, Effect(op, ch, db).reply, db, After(op, ch, db), ch.approvals, a);
  }

  lemma ExpiredFate(op: Op, reply: Reply, db: Db, t: Db, claims: seq<ApprovalId>, a: ApprovalId)
    requires op.Sweep? && PendingClaims(db, claims) && a in db.approvals && JustExpired(db, claims, |claims|, t)
    ensures Fate(op, reply, db, t, a)
  {
    assert claims[..|claims|] == claims;
    if a in claims {
      var i :| 0 <= i < |claims| && claims[i] == a;
      assert db.approvals[claims[i]].status == Pending;
    }
  }

  lemma StartFate(env: Env, op: Op, ch: Choice, db: Db, a: ApprovalId)
    requires Integral(env, db) && op.Start? && FreshIds(op, db) && a in db.approvals
    ensures Fate(op, Effect(op, ch, db).reply, db, After(op, ch, db), a)
  {
    hide Integral, StartWrites, Merge, MaxSeq;
    MergeNothing(db);
    if Creates(op, db) {
      NothingLeftOver(env, op, db);
      AfterStart(op, ch, db);
      hide After;
    } else if Effect(op, ch, db).reply.Reused? {
      ReusedWrites(env, op, ch, db);
    }
  }

  lemma MoveFate(op: Op, ch: Choice, db: Db, a: ApprovalId)
    requires (op.Transition? || op.Fail?) && a in db.approvals
    ensures Fate(op, Effect(op, ch, db).reply, db, After(op, ch, db), a)
  {
    hide MaxSeq, Accepts, MoveEvent;
  }

  lemma CallFate(env: Env, op: Op, ch: Choice, db: Db, a: ApprovalId)
    requires Integral(env, db) && FreshIds(op, db) && Fits(op, ch, db) && a in db.approvals
    ensures Fate(op, Effect(op, ch, db).reply, db, After(op, ch, db), a)
  {
    hide Integral, Effect, After, PendingClaims, Fate;
    match op
    case Start(_, _, _, _, _) => StartFate(env, op, ch, db, a);
    case Decide(_, _, _, _) => DecideFate(env, op, ch, db, a);
    case Sweep(_) => SweepFate(env, op, ch, db, a);
    case Transition(_, _, _, _) => MoveFate(op, ch, db, a);
    case Fail(_, _, _) => MoveFate(op, ch, db, a);
    case _ => TouchFate(op, ch, db, a);
  }

  lemma TouchFate(op: Op, ch: Choice, db: Db, a: ApprovalId)
    requires (op.ClaimDispatches? || op.MarkSucceeded? || op.MarkFailed?) && a in db.approvals
    ensures Fate(op, Effect(op, ch, db).reply, db, After(op, ch, db), a)
  {
    hide After, Effect;
    AfterTouch(op, ch, db);
  }

  // ---------- grants in flight ----------

  /** The transaction has read the clock before the expiry and is granting `a`. */
  predicate Granting(t: Txn, a: ApprovalId) {
    t.op.Decide? && t.op.approvalId == a && t.local.verdict == Approved
  }

  /** A decision's verdict is set once, by the check of the expiry against the clock of that moment. */
  lemma VerdictIsSetOnce(op: Op, l: Local, db: Db, inp: Input)
    requires op.Decide? && AtDecide(op, l, db) && !Finished(l)
    ensures var l' := Execute(op, l, db, inp);
      l'.verdict == l.verdict
      || (l.pc.SelectApproval? && op.approvalId in db.approvals
        && l'.verdict == VerdictOf(op, db.approvals[op.approvalId], inp.clock))
  {
    DecidePcs(op, l, db);
    MergeNothing(db);
    if MovePc(l.pc) {
      MoveKeepsVerdict(op, l, db, inp);
    } else {
      assert l.writes == NO_ROWS;
      hide AtDecide;
      DecideShape(op, l, db, inp);
      hide Execute, PutVerdict, VerdictOf, VerdictActor, Taken;
    }
  }

  lemma MoveKeepsVerdict(op: Op, l: Local, db: Db, inp: Input)
    requires MovePc(l.pc)
    ensures Execute(op, l, db, inp).verdict == l.verdict
  {
    hide Merge, MaxSeq, PutStatus, PutDispatch, Taken, VerdictAudit, Auditor, StartStatement, DecideStatement;
    hide SweepStatement;
  }

  /** Statements that a granting decision has still to execute. */
  function Left(pc: Pc): nat {
    match pc
    case WriteVerdict => 6
    case ReadMax => 5
    case UpdateStatus => 4
    case InsertEvent => 3
    case InsertDispatch => 2
    case InsertVerdictAudit => 1
    case _ => 0
  }

  /** It is granting `a`, and on its way to the commit. */
  predicate LiveGrant(t: Txn, a: ApprovalId) {
    Granting(t, a) && (t.local.pc.Done? || Left(t.local.pc) > 0)
  }

  predicate NoGrantInFlight(s: System, a: ApprovalId) {
    forall c | c in s.clients :: !LiveGrant(s.clients[c], a)
  }

  /** A grant comes to life only at its check of the clock. */
  lemma GrantsLiveFromTheCheck(op: Op, l: Local, db: Db, inp: Input, a: ApprovalId)
    requires op.Decide? && AtDecide(op, l, db) && !Finished(l) && LiveGrant(Txn(op, Execute(op, l, db, inp)), a)
    ensures LiveGrant(Txn(op, l), a)
      || (op.approvalId == a && a in db.approvals && VerdictOf(op, db.approvals[a], inp.clock) == Approved)
  {
    DecidePcs(op, l, db);
    VerdictIsSetOnce(op, l, db, inp);
    hide AtDecide, VerdictOf;
    if l.pc.LockToDecide? || l.pc.SelectApproval? {
      DecideShape(op, l, db, inp);
      hide Execute, Taken;
      assert l.pc.LockToDecide? ==> Execute(op, l, db, inp).pc.Halted? || Execute(op, l, db, inp).pc.SelectApproval?;
      assert l.pc.SelectApproval? && Execute(op, l, db, inp).pc.WriteVerdict? ==>
        op.approvalId in View(l, db).approvals;
    } else {
      hide Execute;
    }
  }

  /** `a` is past its time in `s`, and not granted. */
  predicate Lapsed(s: System, a: ApprovalId) {
    && a in s.db.approvals && s.db.approvals[a].status != Approved
    && s.db.approvals[a].expiresAt.Some? && s.db.approvals[a].expiresAt.value <= s.clock
  }

  /** The step commits a decision that grants `a`. */
  predicate GrantCommits(s: System, act: Action, a: ApprovalId) {
    act.Commit? && act.client in s.clients && Granting(s.clients[act.client], a)
  }

  lemma GrantingAnswers(op: Op, l: Local, db: Db)
    requires op.Decide? && AtDecide(op, l, db) && l.pc.Done?
    ensures l.reply == Decided(Approved) <==> l.verdict == Approved
  {
    hide VerdictOf, VerdictActor, PutConsequence, DecideRefusal;
  }

  /** One step: the approval keeps its identity, and is granted only by the commit of a grant. */
  lemma StepFate(env: Env, s: System, act: Action, s': System, a: ApprovalId)
    requires Inv(env, s) && Next(env, s, act, s') && a in s.db.approvals
    ensures Inv(env, s') && a in s'.db.approvals && s.clock <= s'.clock
    ensures s'.db.approvals[a].exec == s.db.approvals[a].exec
    ensures s'.db.approvals[a].expiresAt == s.db.approvals[a].expiresAt
    ensures s'.db.approvals[a].status == Approved <==> s.db.approvals[a].status == Approved || GrantCommits(s, act, a)
  {
    StepRefines(env, s, act, s');
    ClockOnlyAdvances(env, s, act, s');
    if act.Commit? {
      CommitFate(env, s, act.client, s', a);
      hide Inv, Next;
    } else {
      hide Inv, Next;
    }
  }

  lemma CommitFate(env: Env, s: System, c: Client, s': System, a: ApprovalId)
    requires Inv(env, s) && Refines(s, Commit(c), s') && c in s.clients && s.clients[c].local.pc.Done?
    requires a in s.db.approvals
    ensures a in s'.db.approvals
    ensures s'.db.approvals[a].exec == s.db.approvals[a].exec
    ensures s'.db.approvals[a].expiresAt == s.db.approvals[a].expiresAt
    ensures s'.db.approvals[a].status == Approved <==> s.db.approvals[a].status == Approved || Granting(s.clients[c], a)
  {
    hide Integral, At, After, Effect, Fits, ClaimableRows, WellFormedOp, LocksDisjoint, DistinctIds;
    var t := s.clients[c];
    assert ClientOk(env, s.db, t);
    hide Inv, ClientOk;
    CallFate(env, t.op, t.local.ch, s.db, a);
    if t.op.Decide? { GrantingAnswersAt(t.op, t.local, s.db); }
  }

  lemma GrantingAnswersAt(op: Op, l: Local, db: Db)
    requires op.Decide? && At(op, l, db) && l.pc.Done?
    ensures l.reply == Decided(Approved) <==> l.verdict == Approved
  {
    GrantingAnswers(op, l, db);
  }

  lemma InvIsIntegral(env: Env, s: System)
    requires Inv(env, s)
    ensures Integral(env, s.db)
  {
  }

  lemma ClockOnlyAdvances(env: Env, s: System, act: Action, s': System)
    requires Next(env, s, act, s')
    ensures s.clock <= s'.clock
  {
    hide Execute, Enabled, Merge;
  }

  /** After the expiry no decision starts granting: its check reads a clock that is past it. */
  lemma NoNewGrants(env: Env, s: System, act: Action, s': System, a: ApprovalId)
    requires Inv(env, s) && Next(env, s, act, s') && Lapsed(s, a) && NoGrantInFlight(s, a)
    ensures NoGrantInFlight(s', a)
  {
    hide Execute, Merge, Integral, LiveGrant;
    if act.Begin? {
      NotLiveAtFirst(act.op, s.clock, a);
    } else if act.Run? {
      assert ClientOk(env, s.db, s.clients[act.client]);
      EnabledInputs(s, act.client, act.input);
      EnabledClock(s, act.client, act.input);
      hide Enabled, ClientOk;
      var op, l := s.clients[act.client].op, s.clients[act.client].local;
      if LiveGrant(s'.clients[act.client], a) {
        GrantsAreDecisions(s'.clients[act.client], a);
        assert AtDecide(op, l, s.db);
        hide AtDecide;
        GrantsLiveFromTheCheck(op, l, s.db, act.input, a);
      }
    }
  }

  lemma NotLiveAtFirst(op: Op, begun: int, a: ApprovalId)
    ensures !LiveGrant(Txn(op, FirstLocal(op, begun)), a)
  {
  }

  lemma GrantsAreDecisions(t: Txn, a: ApprovalId)
    requires LiveGrant(t, a)
    ensures t.op.Decide?
  {
  }

  lemma EnabledClock(s: System, c: Client, inp: Input)
    requires c in s.clients && Enabled(s, c, inp)
    ensures inp.clock == s.clock
  {
  }

  /** A stretch of a run. */
  ghost predicate Stretch(env: Env, states: seq<System>, actions: seq<Action>) {
    |states| == |actions| + 1 && forall i | 0 <= i < |actions| :: Next(env, states[i], actions[i], states[i + 1])
  }

  /**
   * With no live grant in flight at that moment, a lapsed approval's execution is never dispatched, in any
   * continuation.
   */
  lemma {:induction false} ExpiryIsFinal(env: Env, states: seq<System>, actions: seq<Action>, n: nat, a: ApprovalId)
    requires Stretch(env, states, actions) && n < |states|
    requires Inv(env, states[0]) && Lapsed(states[0], a) && NoGrantInFlight(states[0], a)
    ensures Inv(env, states[n]) && Lapsed(states[n], a) && NoGrantInFlight(states[n], a)
    ensures states[n].db.approvals[a].exec == states[0].db.approvals[a].exec
    ensures states[0].db.approvals[a].exec !in states[n].db.dispatches
  {
    hide Next, Inv, NoGrantInFlight, Granting;
    if n > 0 {
      ExpiryIsFinal(env, states, actions, n - 1, a);
      assert Next(env, states[n - 1], actions[n - 1], states[n]);
      StepFate(env, states[n - 1], actions[n - 1], states[n], a);
      NoNewGrants(env, states[n - 1], actions[n - 1], states[n], a);
      NoCommitWithoutGrant(env, states[n - 1], actions[n - 1], states[n], a);
    }
    InvIsIntegral(env, states[n]);
    DispatchedIffGranted(env, states[n].db, a);
  }

  lemma NoCommitWithoutGrant(env: Env, s: System, act: Action, s': System, a: ApprovalId)
    requires NoGrantInFlight(s, a) && Next(env, s, act, s')
    ensures !GrantCommits(s, act, a)
  {
    hide Execute, Enabled, Merge, WellFormedOp;
  }
}
