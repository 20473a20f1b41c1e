/**
 * Whole runs of the interleaved system: one invariant for tables, locks and transactions in flight,
 * and the theorem that every run is equivalent to its commits executed one after the other.
 */
module Runs {
  import opened Base
  import opened StateMachine
  import opened Requests
  import opened Tables
  import opened Kernel
  import opened Integrity
  import opened Interleaving
  import opened Atomicity
  import opened Serializability

  ghost predicate ClientOk(env: Env, db: Db, t: Txn) {
    && WellFormedOp(env, t.op) && FreshIds(t.op, db) && MarksKnownRow(t.op, db)
    && (!t.local.pc.Halted? ==> At(t.op, t.local, db))
  }

  /** No lock has two holders. */
  predicate LocksDisjoint(clients: map<Client, Txn>) {
    forall c, d | c in clients && d in clients && c != d :: clients[c].local.held !! clients[d].local.held
  }

  predicate DistinctIds(clients: map<Client, Txn>) {
    forall c, d | c in clients && d in clients && c != d && clients[c].op.Start? && clients[d].op.Start? ::
      clients[c].op.approvalId != clients[d].op.approvalId
  }

  ghost predicate Inv(env: Env, s: System) {
    && Integral(env, s.db)
    && LocksDisjoint(s.clients) && DistinctIds(s.clients)
    && (forall c | c in s.clients :: ClientOk(env, s.db, s.clients[c]))
  }

  lemma InitialInv(env: Env, s: System)
    requires Initial(s)
    ensures Inv(env, s)
  {
    EmptyIsIntegral(env);
  }

  // ---------- one client's statement ----------

  /** The rows a claim picks are not locked by anyone else. */
  lemma PicksAreFree(s: System, c: Client, inp: Input, k: Lock)
    requires c in s.clients && Enabled(s, c, inp)
    requires s.clients[c].local.pc.ClaimExpired? ==> s.clients[c].op.Sweep?
    requires s.clients[c].local.pc.ClaimRows? ==> s.clients[c].op.ClaimDispatches?
    requires k in Picks(s.clients[c].local, s.db, inp)
    ensures Free(s, c, k)
  {
    if s.clients[c].local.pc.ClaimExpired? {
      var a :| a in inp.approvals && a in s.db.approvals && k == ExecLock(s.db.approvals[a].exec);
      var i :| 0 <= i < |inp.approvals| && inp.approvals[i] == a;
      var e := s.db.approvals[a].exec;
      assert s.db.approvals[inp.approvals[i]].exec !in BusyExecs(s, c);
      assert k in OthersLocks(s, c) ==> e in BusyExecs(s, c);
    } else {
      var e :| e in inp.rows && k == DispatchLock(e);
      var i :| 0 <= i < |inp.rows| && inp.rows[i] == e;
      assert inp.rows[i] !in BusyRows(s, c);
      assert k in OthersLocks(s, c) ==> e in BusyRows(s, c);
    }
    assert forall d | d in s.clients && d != c && k in s.clients[d].local.held :: k in OthersLocks(s, c);
  }

  /** Only a sweep is ever about to claim approvals, only a publisher about to claim rows. */
  lemma ClaimersAreClaimers(op: Op, l: Local, db: Db)
    requires At(op, l, db)
    ensures l.pc.ClaimExpired? ==> op.Sweep?
    ensures l.pc.ClaimRows? ==> op.ClaimDispatches?
  {
    hide AtStage, AtReuse, Effect, PutConsequence, PutVerdict, SweepProgress, ExpireWrites, PutMove;
  }

  lemma TakenAreFree(s: System, c: Client, inp: Input, k: Lock)
    requires c in s.clients && Enabled(s, c, inp)
    requires At(s.clients[c].op, s.clients[c].local, s.db)
    requires k in Taken(s.clients[c].op, s.clients[c].local, s.db, inp)
    ensures Free(s, c, k)
  {
    ClaimersAreClaimers(s.clients[c].op, s.clients[c].local, s.db);
    hide At, Free;
    if k in Picks(s.clients[c].local, s.db, inp) {
      hide Enabled, Need;
      PicksAreFree(s, c, inp, k);
    } else {
      hide Need, SweepPicks, ClaimPicks, Picks;
    }
  }

  lemma RunKeepsLocksDisjoint(s: System, c: Client, inp: Input)
    requires LocksDisjoint(s.clients) && c in s.clients && Enabled(s, c, inp)
    requires At(s.clients[c].op, s.clients[c].local, s.db)
    ensures var t := s.clients[c];
      LocksDisjoint(s.clients[c := Txn(t.op, Execute(t.op, t.local, s.db, inp))])
  {
    hide At, Enabled, Statement, Taken;
    var t := s.clients[c];
    var l' := Execute(t.op, t.local, s.db, inp);
    assert l'.held == t.local.held + Taken(t.op, t.local, s.db, inp);
    hide Execute;
    forall d | d in s.clients && d != c ensures l'.held !! s.clients[d].local.held {
      forall k | k in Taken(t.op, t.local, s.db, inp) ensures k !in s.clients[d].local.held {
        TakenAreFree(s, c, inp, k);
      }
    }
  }

  lemma EnabledInputs(s: System, c: Client, inp: Input)
    requires c in s.clients && Enabled(s, c, inp)
    ensures var t := s.clients[c];
      && !Finished(t.local)
      && (t.op.Sweep? && t.local.pc.ClaimExpired? ==> PendingClaims(s.db, inp.approvals))
      && (t.op.ClaimDispatches? && t.local.pc.ClaimRows? ==> ClaimableRows(s.db, inp.rows, t.local.ch.begun))
  {
    var t := s.clients[c];
    if t.op.Sweep? && t.local.pc.ClaimExpired? {
      LegalFits(t.op, t.local.ch.(approvals := inp.approvals), s.db, BusyExecs(s, c), {});
    }
    hide BusyExecs, BusyRows, Need, Free;
  }

  lemma ClaimPcs(op: Op, l: Local, db: Db)
    requires op.ClaimDispatches? && At(op, l, db) && !Finished(l)
    ensures l.pc.ClaimRows?
  {
  }

  /** What a statement achieves: still on course, or the refusal that the call deserves on these tables. */
  lemma RunStaysOnCourse(env: Env, s: System, c: Client, inp: Input)
    requires Inv(env, s) && c in s.clients && Enabled(s, c, inp)
    ensures var t := s.clients[c];
      At(t.op, t.local, s.db) && OnCourse(t.op, Execute(t.op, t.local, s.db, inp), s.db)
  {
    var t := s.clients[c];
    assert ClientOk(env, s.db, t);
    EnabledInputs(s, c, inp);
    hide At, Integral, Enabled, WellFormedOp, OnCourse, Execute, PendingClaims;
    if t.op.ClaimDispatches? { ClaimPcs(t.op, t.local, s.db); }
    StatementStaysOnCourse(t.op, t.local, s.db, inp);
  }

  lemma RunKeepsInv(env: Env, s: System, c: Client, inp: Input)
    requires Inv(env, s) && c in s.clients && Enabled(s, c, inp)
    ensures var t := s.clients[c];
      Inv(env, s.(clients := s.clients[c := Txn(t.op, Execute(t.op, t.local, s.db, inp))]))
  {
    hide Integral, At, Execute, WellFormedOp, Enabled, Effect, FreshIds;
    RunStaysOnCourse(env, s, c, inp);
    RunKeepsLocksDisjoint(s, c, inp);
    hide LocksDisjoint;
    assert ClientOk(env, s.db, s.clients[c]);
  }

  // ---------- commit ----------

  /** New approvals in a transaction's writes are the one its `start` drew. */
  lemma NewApprovalsAreDrawn(op: Op, l: Local, db: Db)
    requires At(op, l, db) && l.pc.Done?
    ensures forall a | a in l.writes.approvals :: a in db.approvals || (op.Start? && a == op.approvalId)
  {
    hide AtStage, AtReuse, SweepProgress, ExpireWrites, PutConsequence, PutVerdict, PutMove;
    if op.Start? {
      StageApprovals(op, l.ch, db, 5);
      StageApprovals(op, l.ch, db, 0);
      StageWrites(op, l, db);
    } else if op.Sweep? {
      ProgressKeepsRows(db, l.ch.approvals, |l.ch.approvals|);
      ExpireWritesKeys(db, l.ch.approvals, |l.ch.approvals|);
    } else if op.Decide? {
      DecideApprovals(op, l, db);
    } else {
      hide MarkWrites, ClaimWrites;
      PlainApprovals(op, l, db);
    }
  }

  lemma StageWrites(op: Op, l: Local, db: Db)
    requires op.Start? && AtStart(op, l, db) && l.pc.Done?
    ensures l.writes == StartWrites(op, l.ch, db, if l.reply.Reused? then 0 else 5)
  {
    hide StartWrites;
  }

  lemma {:induction false} StageApprovals(op: Op, ch: Choice, db: Db, stage: nat)
    requires op.Start?
    ensures forall a | a in StartWrites(op, ch, db, stage).approvals :: a == op.approvalId
  {
    hide InitialStatus, NewApproval, FirstEvent, PolicyAudit, Merge;
    if stage > 0 { StageApprovals(op, ch, db, stage - 1); }
  }

  lemma DecideApprovals(op: Op, l: Local, db: Db)
    requires op.Decide? && AtDecide(op, l, db) && l.pc.Done?
    ensures forall a | a in l.writes.approvals :: a in db.approvals
  {
    hide VerdictOf, VerdictActor, MaxSeq, AtMove;
  }

  lemma PlainApprovals(op: Op, l: Local, db: Db)
    requires !op.Start? && !op.Sweep? && !op.Decide? && At(op, l, db) && l.pc.Done?
    ensures l.writes.approvals == map[]
  {
    hide MaxSeq, AtMove, MoveEvent, Accepts, ClaimedRow, MarkedRow;
  }

  lemma CommitKeepsClient(env: Env, s: System, c: Client, d: Client)
    requires Inv(env, s) && c in s.clients && d in s.clients && c != d && s.clients[c].local.pc.Done?
    ensures ClientOk(env, Merge(s.db, s.clients[c].local.writes), s.clients[d])
  {
    var t, o := s.clients[c], s.clients[d];
    var u := Merge(s.db, t.local.writes);
    assert ClientOk(env, s.db, t) && ClientOk(env, s.db, o);
    hide Integral, At, WellFormedOp;
    WritesAreLocked(env, t.op, t.local, s.db);
    OthersAgree(env, s.db, t.local.writes, t.local.held, o.local.held);
    NewApprovalsAreDrawn(t.op, t.local, s.db);
    assert FreshIds(o.op, u) && MarksKnownRow(o.op, u);
    hide Foot, Agree, Merge, FreshIds;
    if !o.local.pc.Halted? {
      StaysOnCourse(env, o.op, o.local, s.db, u);
    }
  }

  lemma CommitKeepsInv(env: Env, s: System, c: Client)
    requires Inv(env, s) && c in s.clients && s.clients[c].local.pc.Done?
    ensures var t := s.clients[c];
      && Grounded(t.op, t.local.ch, s.db)
      && Merge(s.db, t.local.writes) == After(t.op, t.local.ch, s.db)
      && t.local.reply == Effect(t.op, t.local.ch, s.db).reply
      && Inv(env, System(
           Merge(s.db, t.local.writes), s.clock, s.clients - {c}, s.log + [Entry(t.op, t.local.ch, t.local.reply)]))
  {
    var t := s.clients[c];
    var u := Merge(s.db, t.local.writes);
    assert ClientOk(env, s.db, t);
    hide Integral, At, WellFormedOp, Merge, Effect, Fits, ClaimableRows;
    CommitIsEffect(t.op, t.local, s.db);
    CallKeepsIntegrity(env, t.op, t.local.ch, s.db);
    assert u == After(t.op, t.local.ch, s.db);
    hide After, ClientOk;
    forall d | d in s.clients && d != c ensures ClientOk(env, u, s.clients[d]) {
      CommitKeepsClient(env, s, c, d);
    }
  }

  // ---------- every step ----------

  lemma NewcomerFits(s: System, c: Client, t: Txn)
    requires LocksDisjoint(s.clients) && DistinctIds(s.clients) && c !in s.clients
    requires FreshInFlight(s, t.op) && t.local.held == {}
    ensures LocksDisjoint(s.clients[c := t]) && DistinctIds(s.clients[c := t])
  {
    hide FreshIds;
  }

  lemma BeginKeepsInv(env: Env, s: System, c: Client, op: Op)
    requires Inv(env, s) && c !in s.clients && WellFormedOp(env, op) && FreshInFlight(s, op) && MarksKnownRow(op, s.db)
    ensures Inv(env, s.(clients := s.clients[c := Txn(op, FirstLocal(op, s.clock))]))
  {
    assert ClientOk(env, s.db, Txn(op, FirstLocal(op, s.clock))) by {
      AtBeginning(op, s.clock, s.db);
      hide At, WellFormedOp, Integral, FirstLocal, Inv;
    }
    assert FirstLocal(op, s.clock).held == {};
    hide ClientOk, Integral, FirstLocal, WellFormedOp, MarksKnownRow;
    NewcomerFits(s, c, Txn(op, FirstLocal(op, s.clock)));
    hide LocksDisjoint, DistinctIds, FreshInFlight;
  }

  /** Apart from commits no step changes the tables, and a commit does to them what its call does alone. */
  ghost predicate Refines(s: System, a: Action, s': System) {
    if a.Commit? then
      && a.client in s.clients
      && var t := s.clients[a.client];
         && Grounded(t.op, t.local.ch, s.db) && s'.db == After(t.op, t.local.ch, s.db)
         && t.local.reply == Effect(t.op, t.local.ch, s.db).reply
         && s'.log == s.log + [Entry(t.op, t.local.ch, t.local.reply)]
    else s'.db == s.db && s'.log == s.log
  }

  lemma StepRefines(env: Env, s: System, a: Action, s': System)
    requires Inv(env, s) && Next(env, s, a, s')
    ensures Inv(env, s') && Refines(s, a, s')
  {
    match a
    case Tick(now) =>
    case Begin(c, op) => BeginKeepsInv(env, s, c, op); hide Inv;
    case Run(c, inp) => RunKeepsInv(env, s, c, inp); hide Inv, Execute, Enabled;
    case Commit(c) => CommitKeepsInv(env, s, c); hide Inv, After, Effect, Fits, Merge;
    case Rollback(c) =>
      hide ClientOk, Integral;
  }

  // ---------- refusals ----------

  /** What is false of intact tables is never answered: the defensive errors are dead code. */
  lemma DefensiveErrorsAreDead(env: Env, op: Op, ch: Choice, db: Db)
    requires Integral(env, db) && Fits(op, ch, db)
    ensures var reply := Effect(op, ch, db).reply;
      reply != Refusal(NoEvents) && reply != Refusal(RecordMissing) && reply != Refusal(EventKeyTaken)
  {
    hide Integral, StartEffect, PutConsequence, PutVerdict, PutMove, SweepProgress, ClaimWrites, MarkWrites;
    if op.Start? { StartIsNotDefensive(env, op, ch, db); }
  }

  lemma StartIsNotDefensive(env: Env, op: Op, ch: Choice, db: Db)
    requires Integral(env, db) && op.Start?
    ensures var reply := StartEffect(op, ch, db).reply;
      reply != Refusal(NoEvents) && reply != Refusal(RecordMissing) && reply != Refusal(EventKeyTaken)
  {
    hide ApprovalsOk, DispatchesOk, Valid, RequestHash, StartWrites;
    if Keyed(op) && KeyOf(op) in db.idempotency {
      assert ExecutionOk(db, db.idempotency[KeyOf(op)].exec);
    }
    hide Integral;
  }

  /**
   * A statement fails only as its call would on the committed tables; in particular no event insert
   * meets a taken (execution, sequence) key, and the idempotent re-read never comes out otherwise.
   */
  lemma RefusalsAreRight(env: Env, s: System, c: Client, inp: Input, s': System)
    requires Inv(env, s) && Next(env, s, Run(c, inp), s') && s'.clients[c].local.pc.Halted?
    ensures var t := s'.clients[c];
      && t.local.reply.Refusal? && Fits(t.op, t.local.ch, s.db)
      && Effect(t.op, t.local.ch, s.db) == Refuse(t.local.reply.error)
      && t.local.reply.error != NoEvents && t.local.reply.error != RecordMissing && t.local.reply.error != EventKeyTaken
  {
    RunStaysOnCourse(env, s, c, inp);
    var t := s'.clients[c];
    hide Execute, Enabled, At, Effect, Fits, Integral;
    DefensiveErrorsAreDead(env, t.op, t.local.ch, s.db);
  }

  // ---------- whole runs ----------

  /** The tables after the logged calls, one at a time; none if some call could not have gone that way. */
  ghost function Replay(log: seq<Entry>): Option<Db> {
    if log == [] then Some(NO_ROWS)
    else
      var before, last := Replay(log[..|log| - 1]), log[|log| - 1];
      if before.Some? && Grounded(last.op, last.ch, before.value)
         && last.reply == Effect(last.op, last.ch, before.value).reply
      then Some(After(last.op, last.ch, before.value))
      else None
  }

  /** Every interleaving is a serial execution of its commits, in commit order, with the same replies. */
  lemma {:induction false} RunsAreSerial(env: Env, states: seq<System>, actions: seq<Action>, i: nat)
    requires IsRun(env, states, actions) && i < |states|
    ensures Inv(env, states[i])
    ensures Replay(states[i].log) == Some(states[i].db)
  {
    hide Inv, Next, Refines, Replay, Initial;
    if i == 0 {
      InitialInv(env, states[0]);
      InitialReplays(states[0]);
    } else {
      RunsAreSerial(env, states, actions, i - 1);
      assert Next(env, states[i - 1], actions[i - 1], states[i]);
      StepRefines(env, states[i - 1], actions[i - 1], states[i]);
      StepReplays(states[i - 1], actions[i - 1], states[i]);
    }
  }

  lemma InitialReplays(s: System)
    requires Initial(s)
    ensures Replay(s.log) == Some(s.db)
  {
    hide Effect, After, Fits;
  }

  lemma StepReplays(s: System, a: Action, s': System)
    requires Refines(s, a, s') && Replay(s.log) == Some(s.db)
    ensures Replay(s'.log) == Some(s'.db)
  {
    hide Effect, After, Fits;
    if a.Commit? {
      assert s'.log[..|s'.log| - 1] == s.log;
    }
  }

  /**
   * In every interleaving of any number of clients the committed tables are intact: each log is
   * numbered 1..n along allowed edges and ends at its row's status, a dispatch exists exactly for
   * open or approved executions, an approval exactly for those that began waiting.
   */
  lemma EveryRunKeepsIntegrity(env: Env, states: seq<System>, actions: seq<Action>, i: nat)
    requires IsRun(env, states, actions) && i < |states|
    ensures Integral(env, states[i].db)
  {
    RunsAreSerial(env, states, actions, i);
    hide Integral, ClientOk, Replay;
  }

  /** What its own request makes of an execution: nothing without an objective, else open, or waiting for approval. */
  ghost predicate GatedAsRequested(db: Db, e: ExecId)
    requires e in db.execs
  {
    var r := db.execs[e].request;
    if Blank(r.objective) then e !in db.dispatches && !HasApproval(db, e)
    else if r.requiresApproval then HasApproval(db, e) && (e in db.dispatches <==> HasApproved(db, e))
    else e in db.dispatches && !HasApproval(db, e)
  }

  lemma GateFollowsRequest(env: Env, db: Db, e: ExecId)
    requires Integral(env, db) && e in db.execs
    ensures GatedAsRequested(db, e)
  {
    hide Valid, IdempotencyOk, DispatchRowOk, Blank;
    assert ExecutionOk(db, e) && GateOk(db, e);
    assert forall a | a in db.approvals :: ApprovalOk(db, a);
    hide Integral;
  }

  /**
   * The approval gate in every run: dispatched exactly if open or granted, one approval exactly if it began
   * waiting.
   */
  lemma GateInEveryRun(env: Env, states: seq<System>, actions: seq<Action>, i: nat, e: ExecId)
    requires IsRun(env, states, actions) && i < |states| && e in states[i].db.execs
    ensures var db := states[i].db;
      && (e in db.dispatches <==> BeginsWith(db, e, Intake) || HasApproved(db, e))
      && (HasApproval(db, e) <==> BeginsWith(db, e, Approval))
      && (forall a, b | a in db.approvals && b in db.approvals
            && db.approvals[a].exec == e && db.approvals[b].exec == e :: a == b)
      && (HasApproved(db, e) ==> EventKey(e, 2) in db.events && db.events[EventKey(e, 2)].status == Execution)
      && GatedAsRequested(db, e)
  {
    EveryRunKeepsIntegrity(env, states, actions, i);
    GateFollowsRequest(env, states[i].db, e);
    hide GatedAsRequested;
    var db := states[i].db;
    hide IsRun;
    assert GateOk(db, e) && ApprovalsOk(db);
    hide Integral, BeginsWith;
    assert forall a | a in db.approvals :: ApprovalOk(db, a);
  }
}
