/**
 * No run of the interleaved system ever deadlocks: what a client waits for is held by a client
 * further along one fixed order, so a wait-for cycle would have to climb for ever.
 */
module Deadlock {
  import opened StateMachine
  import opened Requests
  import opened Tables
  import opened Kernel
  import opened Integrity
  import opened Interleaving
  import opened Atomicity
  import opened Runs

  /** Tenant, advisory key, execution, approval (with room for a sweep above it), dispatch, idempotency key. */
  function Class(k: Lock): nat {
    match k
    case TenantLock(_) => 0
    case AdvisoryLock(_) => 1
    case ExecLock(_) => 2
    case ApprovalLock(_) => 3
    case DispatchLock(_) => 5
    case KeyLock(_) => 6
  }

  const NEVER_WAITS := 7

  /** The class of the next lock a transaction may have to wait for. */
  function Level(op: Op, pc: Pc): nat {
    match pc
    case EnsureTenant => 0
    case TakeAdvisory => 1
    case FindKey => 2
    case InsertExecution => 2
    case InsertFirstEvent => 3
    case InsertGate => if op.Start? && InitialStatus(op.request) == Intake then 5 else 3
    case InsertPolicyAudit => 6
    case PutKey => 6
    case LockToMove => 2
    case LockToDecide => 2
    case SelectApproval => 3
    case WriteVerdict => 5
    case ReadMax => 5
    case UpdateStatus => 5
    case InsertEvent => 5
    case InsertDispatch => 5
    case ClaimExpired => 2
    case MarkExpired => 4
    case ClaimRows => 5
    case UpdateDispatch => 5
    case _ => NEVER_WAITS
  }

  /** Where a sweep is past its first loop it never waits: the execution it asks for is its own already. */
  function LevelOf(op: Op, l: Local): nat {
    if op.Sweep? && !l.pc.ClaimExpired? && !l.pc.MarkExpired? then NEVER_WAITS else Level(op, l.pc)
  }

  /** Held locks are of lower classes than any lock still to be waited for; a sweep locks only approvals it claimed. */
  ghost predicate Climbing(op: Op, l: Local) {
    && (forall k | k in l.held :: Class(k) < LevelOf(op, l))
    && (op.Sweep? && !Finished(l) ==> forall k | k in l.held && k.ApprovalLock? :: k.approval in l.ch.approvals)
  }

  lemma BeginsClimbing(op: Op, begun: int)
    ensures Climbing(op, FirstLocal(op, begun))
  {
  }

  // ---------- every statement climbs ----------

  /** The next level is no lower, and above whatever the statement had to wait for. */
  ghost predicate LevelRises(op: Op, l: Local, l': Local, db: Db) {
    && Level(op, l.pc) <= Level(op, l'.pc)
    && (Need(op, l, db).Some? ==> Level(op, l.pc) < Level(op, l'.pc))
  }

  lemma NeedClass(op: Op, l: Local, db: Db)
    requires Need(op, l, db).Some?
    ensures Class(Need(op, l, db).value) <= Level(op, l.pc)
  {
    hide Allowed, Keyed, KeyOf;
  }

  lemma ClimbsOn(op: Op, l: Local, l': Local, db: Db, inp: Input)
    requires !op.Sweep? && Climbing(op, l) && LevelRises(op, l, l', db)
    requires Picks(l, db, inp) == {} && l'.held == l.held + Taken(op, l, db, inp)
    ensures Climbing(op, l')
  {
    if Need(op, l, db).Some? { NeedClass(op, l, db); }
    hide Need, Level, Class, Picks;
  }

  lemma StartClimbs(op: Op, l: Local, db: Db, inp: Input)
    requires op.Start? && AtStart(op, l, db) && Climbing(op, l) && !Finished(l)
    ensures Climbing(op, Execute(op, l, db, inp))
  {
    StartPcs(op, l, db);
    assert Picks(l, db, inp) == {};
    hide AtStart, Climbing, LevelRises, Picks, Need, StartStatement;
    StartShape(op, l, db, inp);
    hide Execute, Follows;
    StartFollows(op, l, db, inp);
    ReadLatestEnds(op, l, db, inp);
    StartLevels(op, l, Execute(op, l, db, inp), db);
    ClimbsOn(op, l, Execute(op, l, db, inp), db, inp);
  }

  /** Where each statement of `start` leads. */
  predicate Follows(op: Op, pc: Pc, next: Pc) {
    || next.Halted? || next.Done?
    || match pc
       case EnsureTenant => next.TakeAdvisory? || next.InsertExecution?
       case TakeAdvisory => next.FindKey?
       case FindKey => next.ReadLatest? || next.InsertExecution?
       case InsertExecution => next.InsertFirstEvent?
       case InsertFirstEvent => next.InsertGate?
       case InsertGate => next.InsertPolicyAudit?
       case InsertPolicyAudit => next.PutKey?
       case PutKey => next.RecheckKey?
       case RecheckKey => next.ReadLatest?
       case _ => false
  }

  lemma StartFollows(op: Op, l: Local, db: Db, inp: Input)
    requires op.Start?
    requires (l.pc.EnsureTenant? || l.pc.TakeAdvisory? || l.pc.FindKey? || l.pc.ReadLatest? || l.pc.InsertExecution?
      || l.pc.InsertFirstEvent? || l.pc.InsertGate? || l.pc.InsertPolicyAudit? || l.pc.PutKey? || l.pc.RecheckKey?)
    requires l.pc.PutKey? ==> Keyed(op)
    ensures Follows(op, l.pc, Execute(op, l, db, inp).pc)
  {
    StartShape(op, l, db, inp);
    hide Execute, Merge, MaxSeq, PutGate, PutIdempotency, PutTenant, Allowed, Taken, PolicyAudit, FirstEvent;
    hide InitialStatus, Keyed, KeyOf;
  }

  lemma ReadLatestEnds(op: Op, l: Local, db: Db, inp: Input)
    requires op.Start?
    ensures l.pc.ReadLatest? ==> Execute(op, l, db, inp).pc.Done? || Execute(op, l, db, inp).pc.Halted?
  {
    hide Merge, MaxSeq, Taken;
  }

  lemma StartLevels(op: Op, l: Local, l': Local, db: Db)
    requires op.Start? && Follows(op, l.pc, l'.pc) && (l.pc.ReadLatest? ==> l'.pc.Done? || l'.pc.Halted?)
    requires l.pc.EnsureTenant? || l.pc.TakeAdvisory? || l.pc.FindKey? || l.pc.ReadLatest? || l.pc.InsertExecution?
      || l.pc.InsertFirstEvent? || l.pc.InsertGate? || l.pc.InsertPolicyAudit? || l.pc.PutKey? || l.pc.RecheckKey?
    ensures LevelRises(op, l, l', db)
  {
    hide InitialStatus, Keyed, KeyOf;
  }

  lemma StartPcs(op: Op, l: Local, db: Db)
    requires op.Start? && AtStart(op, l, db) && !Finished(l)
    ensures !MovePc(l.pc) && !l.pc.ClaimExpired? && !l.pc.ClaimRows?
    ensures l.pc.PutKey? || l.pc.RecheckKey? || l.pc.TakeAdvisory? || l.pc.FindKey? || l.pc.ReadLatest? ==> Keyed(op)
    ensures l.pc.EnsureTenant? || l.pc.TakeAdvisory? || l.pc.FindKey? || l.pc.ReadLatest? || l.pc.InsertExecution?
      || l.pc.InsertFirstEvent? || l.pc.InsertGate? || l.pc.InsertPolicyAudit? || l.pc.PutKey? || l.pc.RecheckKey?
  {
    hide AtStage;
  }

  lemma DecideClimbs(op: Op, l: Local, db: Db, inp: Input)
    requires op.Decide? && AtDecide(op, l, db) && Climbing(op, l) && !Finished(l)
    ensures Climbing(op, Execute(op, l, db, inp))
  {
    DecidePcs(op, l, db);
    assert Picks(l, db, inp) == {};
    hide AtDecide, Climbing, LevelRises, Picks, Need, Statement;
    if MovePc(l.pc) { MoveLevels(op, l, db, inp); } else { DecideLevels(op, l, db, inp); }
    ClimbsOn(op, l, Execute(op, l, db, inp), db, inp);
  }

  lemma DecideLevels(op: Op, l: Local, db: Db, inp: Input)
    requires op.Decide? && (l.pc.LockToDecide? || l.pc.SelectApproval? || l.pc.WriteVerdict?)
    ensures LevelRises(op, l, Execute(op, l, db, inp), db)
  {
    hide LevelRises;
    DecideFollows(op, l, db, inp);
    DecidingLevels(op, l, Execute(op, l, db, inp), db);
  }

  lemma DecideFollows(op: Op, l: Local, db: Db, inp: Input)
    requires op.Decide? && (l.pc.LockToDecide? || l.pc.SelectApproval? || l.pc.WriteVerdict?)
    ensures var next := Execute(op, l, db, inp).pc;
      || next.Halted?
      || (if l.pc.LockToDecide? then next.SelectApproval?
          else if l.pc.SelectApproval? then next.WriteVerdict?
          else next.ReadMax?)
  {
    DecideShape(op, l, db, inp);
    hide Execute, Merge, PutVerdict, VerdictOf, VerdictActor, Taken;
  }

  lemma DecidingLevels(op: Op, l: Local, l': Local, db: Db)
    requires l.pc.LockToDecide? || l.pc.SelectApproval? || l.pc.WriteVerdict?
    requires var next := l'.pc;
      || next.Halted?
      || (if l.pc.LockToDecide? then next.SelectApproval?
          else if l.pc.SelectApproval? then next.WriteVerdict?
          else next.ReadMax?)
    ensures LevelRises(op, l, l', db)
  {
  }

  lemma MoveShape(op: Op, l: Local, db: Db, inp: Input)
    requires MovePc(l.pc)
    ensures Execute(op, l, db, inp) == MoveStatement(op, l, db).(held := l.held + Taken(op, l, db, inp))
  {
    hide MoveStatement, Taken;
  }

  lemma MoveLevels(op: Op, l: Local, db: Db, inp: Input)
    requires !op.Sweep? && MovePc(l.pc)
    ensures LevelRises(op, l, Execute(op, l, db, inp), db)
  {
    hide LevelRises;
    MoveFollows(op, l, db, inp);
    FollowingLevels(op, l, Execute(op, l, db, inp), db);
  }

  lemma MoveFollows(op: Op, l: Local, db: Db, inp: Input)
    requires !op.Sweep? && MovePc(l.pc)
    ensures var next := Execute(op, l, db, inp).pc;
      || next.Halted? || next.Done? || (l.pc.InsertVerdictAudit? && next.NextClaim?)
      || (!l.pc.InsertDispatch? && !l.pc.InsertVerdictAudit? && MovePc(next))
      || (l.pc.InsertDispatch? && next.InsertVerdictAudit?)
  {
    MoveShape(op, l, db, inp);
    hide Execute, Merge, MaxSeq, PutStatus, PutDispatch, Taken, VerdictAudit, Auditor, PutEvent, PutAudit;
  }

  lemma FollowingLevels(op: Op, l: Local, l': Local, db: Db)
    requires MovePc(l.pc)
    requires var next := l'.pc;
      || next.Halted? || next.Done? || (l.pc.InsertVerdictAudit? && next.NextClaim?)
      || (!l.pc.InsertDispatch? && !l.pc.InsertVerdictAudit? && MovePc(next))
      || (l.pc.InsertDispatch? && next.InsertVerdictAudit?)
    ensures LevelRises(op, l, l', db)
  {
  }

  lemma PlainMoveClimbs(op: Op, l: Local, db: Db, inp: Input)
    requires (op.Transition? || op.Fail?) && Climbing(op, l) && !Finished(l)
    requires l.pc.LockToMove? || l.pc.ReadMax? || l.pc.UpdateStatus? || l.pc.InsertEvent?
    ensures Climbing(op, Execute(op, l, db, inp))
  {
    assert Picks(l, db, inp) == {};
    hide Climbing, LevelRises, Picks, Need, Statement;
    if MovePc(l.pc) { MoveLevels(op, l, db, inp); } else { LockToMoveLevels(op, l, db, inp); }
    ClimbsOn(op, l, Execute(op, l, db, inp), db, inp);
  }

  lemma LockToMoveLevels(op: Op, l: Local, db: Db, inp: Input)
    requires (op.Transition? || op.Fail?) && l.pc.LockToMove?
    ensures LevelRises(op, l, Execute(op, l, db, inp), db)
  {
    hide Merge, Accepts, MoveEvent, Taken;
  }

  lemma OutboxClimbs(op: Op, l: Local, db: Db, inp: Input)
    requires (op.ClaimDispatches? || op.MarkSucceeded? || op.MarkFailed?) && Climbing(op, l) && l.pc == FirstPc(op)
    ensures Climbing(op, Execute(op, l, db, inp))
  {
    hide ClaimWrites, MarkWrites;
  }

  lemma SweepClimbs(op: Op, l: Local, db: Db, inp: Input)
    requires op.Sweep? && AtSweep(op, l, db) && Climbing(op, l) && !Finished(l)
    ensures Climbing(op, Execute(op, l, db, inp))
  {
    SweepPcs(op, l, db);
    SweepNeeds(op, l, db);
    hide AtSweep, Execute, Need, Picks, Climbing;
    if MovePc(l.pc) { SweepMoveGoesOn(op, l, db, inp); } else { SweepGoesOn(op, l, db, inp); }
    SweepPicksExecs(l, db, inp);
    SweepClimbsOn(op, l, Execute(op, l, db, inp), db, inp);
  }

  lemma SweepPicksExecs(l: Local, db: Db, inp: Input)
    requires !l.pc.ClaimRows?
    ensures forall k | k in Picks(l, db, inp) :: k.ExecLock? && l.pc.ClaimExpired?
  {
  }

  lemma SweepClimbsOn(op: Op, l: Local, l': Local, db: Db, inp: Input)
    requires op.Sweep? && Climbing(op, l) && !Finished(l) && l'.held == l.held + Taken(op, l, db, inp)
    requires if l.pc.ClaimExpired? then l'.pc.MarkExpired? else l'.ch == l.ch && !l'.pc.ClaimExpired?
    requires !l.pc.ClaimExpired? && !l.pc.MarkExpired? ==> !l'.pc.MarkExpired?
    requires forall k | k in Picks(l, db, inp) :: k.ExecLock? && l.pc.ClaimExpired?
    requires l.pc.ClaimExpired? ==> Need(op, l, db).None?
    requires l.pc.MarkExpired? && Need(op, l, db).Some? ==>
      exists j :: 0 <= j < |l.ch.approvals| && Need(op, l, db).value == ApprovalLock(l.ch.approvals[j])
    requires !l.pc.MarkExpired? && Need(op, l, db).Some? ==>
      Need(op, l, db).value in l.held && Need(op, l, db).value.ExecLock?
    ensures Climbing(op, l')
  {
    hide Need, Picks;
  }

  lemma SweepGoesOn(op: Op, l: Local, db: Db, inp: Input)
    requires op.Sweep? && (l.pc.ClaimExpired? || l.pc.MarkExpired? || l.pc.NextClaim?)
    ensures var l' := Execute(op, l, db, inp);
      && l'.held == l.held + Taken(op, l, db, inp)
      && (if l.pc.ClaimExpired? then l'.pc.MarkExpired? else l'.ch == l.ch && !l'.pc.ClaimExpired?)
      && (l.pc.NextClaim? ==> !l'.pc.MarkExpired?)
  {
    SweepShape(op, l, db, inp);
    hide Execute, Merge, PutVerdict, Taken;
  }

  lemma SweepMoveGoesOn(op: Op, l: Local, db: Db, inp: Input)
    requires op.Sweep? && MovePc(l.pc)
    ensures var l' := Execute(op, l, db, inp);
      && l'.held == l.held + Taken(op, l, db, inp) && l'.ch == l.ch && !l'.pc.ClaimExpired? && !l'.pc.MarkExpired?
  {
    MoveShape(op, l, db, inp);
    hide Execute, Merge, MaxSeq, PutStatus, PutDispatch, Taken, VerdictAudit, Auditor;
  }

  /** A sweep asks for the approvals it claimed, then for executions it has already locked. */
  lemma SweepNeeds(op: Op, l: Local, db: Db)
    requires op.Sweep? && AtSweep(op, l, db) && !Finished(l)
    ensures l.pc.ClaimExpired? ==> Need(op, l, db).None?
    ensures l.pc.MarkExpired? && Need(op, l, db).Some? ==>
      exists j :: 0 <= j < |l.ch.approvals| && Need(op, l, db).value == ApprovalLock(l.ch.approvals[j])
    ensures !l.pc.MarkExpired? && Need(op, l, db).Some? ==>
      Need(op, l, db).value in l.held && Need(op, l, db).value.ExecLock?
    ensures !l.pc.InsertDispatch?
  {
    hide SweepProgress, ExpireWrites, PutMove, Merge;
  }

  lemma StatementClimbs(op: Op, l: Local, db: Db, inp: Input)
    requires At(op, l, db) && Climbing(op, l) && !Finished(l)
    ensures Climbing(op, Execute(op, l, db, inp))
  {
    hide Climbing, Execute, AtStart, AtDecide, AtSweep, AtMove;
    match op
    case Start(_, _, _, _, _) => StartClimbs(op, l, db, inp);
    case Decide(_, _, _, _) => DecideClimbs(op, l, db, inp);
    case Sweep(_) => SweepClimbs(op, l, db, inp);
    case Transition(_, _, _, _) => PlainMovePcs(op, l, db); PlainMoveClimbs(op, l, db, inp);
    case Fail(_, _, _) => PlainMovePcs(op, l, db); PlainMoveClimbs(op, l, db, inp);
    case _ => OutboxClimbs(op, l, db, inp);
  }

  lemma PlainMovePcs(op: Op, l: Local, db: Db)
    requires (op.Transition? || op.Fail?) && AtPlainMove(op, l, db) && !Finished(l)
    ensures l.pc.LockToMove? || l.pc.ReadMax? || l.pc.UpdateStatus? || l.pc.InsertEvent?
  {
  }

  // ---------- runs ----------

  ghost predicate AllClimb(s: System) {
    forall c | c in s.clients :: Climbing(s.clients[c].op, s.clients[c].local)
  }

  lemma StepKeepsClimbing(env: Env, s: System, a: Action, s': System)
    requires Inv(env, s) && AllClimb(s) && Next(env, s, a, s')
    ensures AllClimb(s')
  {
    hide Climbing, Execute, Integral, At, WellFormedOp, Merge;
    match a
    case Begin(c, op) => BeginsClimbing(op, s.clock);
    case Run(c, inp) =>
      assert ClientOk(env, s.db, s.clients[c]);
      EnabledInputs(s, c, inp);
      hide Enabled;
      StatementClimbs(s.clients[c].op, s.clients[c].local, s.db, inp);
    case _ =>
  }

  lemma {:induction false} RunsClimb(env: Env, states: seq<System>, actions: seq<Action>, n: nat)
    requires IsRun(env, states, actions) && n < |states|
    ensures Inv(env, states[n]) && AllClimb(states[n])
  {
    hide Inv, Next, Climbing, Replay;
    RunsAreSerial(env, states, actions, n);
    if n > 0 {
      RunsClimb(env, states, actions, n - 1);
      assert Next(env, states[n - 1], actions[n - 1], states[n]);
      StepKeepsClimbing(env, states[n - 1], actions[n - 1], states[n]);
    }
  }

  // ---------- waiting ----------

  /** `c` cannot run its next statement because `d` holds the lock it needs. */
  ghost predicate WaitsFor(s: System, c: Client, d: Client) {
    && c in s.clients && d in s.clients && c != d && !Finished(s.clients[c].local)
    && var k := Need(s.clients[c].op, s.clients[c].local, s.db);
       k.Some? && k.value in s.clients[d].local.held
  }

  function ClientLevel(s: System, c: Client): nat
    requires c in s.clients
  {
    LevelOf(s.clients[c].op, s.clients[c].local)
  }

  /** What a client other than a sweep waits for is of its own level. */
  lemma NeedIsAtLevel(op: Op, l: Local, db: Db)
    requires At(op, l, db) && !op.Sweep? && !Finished(l) && Need(op, l, db).Some?
    ensures Class(Need(op, l, db).value) == LevelOf(op, l)
  {
    hide AtStage, AtReuse, Merge, PutVerdict, PutConsequence, VerdictOf, VerdictActor, PutMove, MaxSeq;
    hide Accepts, MoveEvent;
    hide DecideRefusal, Allowed, StartWrites;
  }

  /** Nobody else is marking approvals that a sweep has claimed: their executions are locked by that sweep alone. */
  lemma ClaimsAreMarkedByOne(env: Env, s: System, c: Client, d: Client)
    requires Inv(env, s) && AllClimb(s) && WaitsFor(s, c, d)
    requires s.clients[c].op.Sweep? && s.clients[c].local.pc.MarkExpired?
    requires s.clients[d].op.Sweep?
    ensures !s.clients[d].local.pc.MarkExpired?
  {
    var t, o := s.clients[c], s.clients[d];
    assert ClientOk(env, s.db, t) && ClientOk(env, s.db, o);
    SweepNeeds(t.op, t.local, s.db);
    var k := Need(t.op, t.local, s.db).value;
    if o.local.pc.MarkExpired? {
      assert Climbing(o.op, o.local);
      hide Need, ExpireWrites, Integral, ClientOk, Climbing;
      SharedClaim(s.db, t.local, o.local, k);
      assert false;
    }
  }

  lemma SharedClaim(db: Db, l: Local, m: Local, k: Lock)
    requires HoldsClaims(l, db) && HoldsClaims(m, db) && k.ApprovalLock?
    requires k.approval in l.ch.approvals && k.approval in m.ch.approvals
    ensures k.approval in db.approvals
    ensures ExecLock(db.approvals[k.approval].exec) in l.held && ExecLock(db.approvals[k.approval].exec) in m.held
  {
  }

  /** Waiting climbs: the holder of a wanted lock is at a strictly higher level than the client that wants it. */
  lemma WaitingClimbs(env: Env, s: System, c: Client, d: Client)
    requires Inv(env, s) && AllClimb(s) && WaitsFor(s, c, d)
    ensures ClientLevel(s, c) < ClientLevel(s, d)
  {
    var t, o := s.clients[c], s.clients[d];
    assert ClientOk(env, s.db, t) && ClientOk(env, s.db, o) && Climbing(o.op, o.local);
    var k := Need(t.op, t.local, s.db).value;
    if t.op.Sweep? {
      SweepWaits(env, s, c, d);
    } else {
      hide Need, Integral, At, WellFormedOp;
      NeedIsAtLevel(t.op, t.local, s.db);
    }
  }

  lemma SweepWaits(env: Env, s: System, c: Client, d: Client)
    requires Inv(env, s) && AllClimb(s) && WaitsFor(s, c, d) && s.clients[c].op.Sweep?
    ensures ClientLevel(s, c) < ClientLevel(s, d)
  {
    hide Inv, AllClimb, Need;
    var t, o := s.clients[c], s.clients[d];
    SweepNeedsHere(env, s, c);
    var k := Need(t.op, t.local, s.db).value;
    assert o.op.Sweep? && t.local.pc.MarkExpired? ==> !o.local.pc.MarkExpired? by {
      if o.op.Sweep? && t.local.pc.MarkExpired? { ClaimsAreMarkedByOne(env, s, c, d); }
    }
    HeldIsBelow(s, d, k);
    OneHolder(env, s, c, d, k);
    if ClientLevel(s, d) == 4 { NoOtherFour(env, s, d); }
  }

  lemma OneHolder(env: Env, s: System, c: Client, d: Client, k: Lock)
    requires Inv(env, s) && c in s.clients && d in s.clients && c != d && k in s.clients[d].local.held
    ensures k !in s.clients[c].local.held
  {
    hide Integral, ClientOk, DistinctIds;
  }

  lemma HeldIsBelow(s: System, d: Client, k: Lock)
    requires AllClimb(s) && d in s.clients && k in s.clients[d].local.held
    ensures Class(k) < ClientLevel(s, d)
  {
    assert Climbing(s.clients[d].op, s.clients[d].local);
  }

  lemma SweepNeedsHere(env: Env, s: System, c: Client)
    requires Inv(env, s) && c in s.clients && s.clients[c].op.Sweep? && !Finished(s.clients[c].local)
    ensures var t := s.clients[c]; var k := Need(t.op, t.local, s.db);
      && (t.local.pc.MarkExpired? && k.Some? ==> Class(k.value) == 3 && LevelOf(t.op, t.local) == 4)
      && (!t.local.pc.MarkExpired? && k.Some? ==> k.value in t.local.held)
  {
    var t := s.clients[c];
    assert ClientOk(env, s.db, t);
    hide Inv, AtSweep;
    SweepNeeds(t.op, t.local, s.db);
    if t.local.pc.MarkExpired? { MarkingNeeds(t.op, t.local, s.db); }
    hide Need;
  }

  lemma MarkingNeeds(op: Op, l: Local, db: Db)
    requires l.pc.MarkExpired? && op.Sweep?
    ensures Need(op, l, db).Some? ==> Class(Need(op, l, db).value) == 3
    ensures LevelOf(op, l) == 4
  {
  }

  lemma NoOtherFour(env: Env, s: System, d: Client)
    requires Inv(env, s) && d in s.clients && ClientLevel(s, d) == 4
    ensures s.clients[d].local.pc.MarkExpired? && s.clients[d].op.Sweep?
  {
    assert ClientOk(env, s.db, s.clients[d]);
    hide Inv;
    MarkersAreSweeps(s.clients[d].op, s.clients[d].local, s.db);
    hide At;
  }

  lemma MarkersAreSweeps(op: Op, l: Local, db: Db)
    requires l.pc.MarkExpired? && At(op, l, db)
    ensures op.Sweep?
  {
    hide AtStage, AtReuse, MaxSeq, PutConsequence, PutVerdict, DecideRefusal, Accepts;
  }

  /** A chain of clients, each waiting for the next. */
  ghost predicate WaitChain(s: System, chain: seq<Client>) {
    forall i | 0 <= i < |chain| - 1 :: WaitsFor(s, chain[i], chain[i + 1])
  }

  lemma {:induction false} ChainClimbs(env: Env, s: System, chain: seq<Client>)
    requires Inv(env, s) && AllClimb(s) && WaitChain(s, chain) && |chain| >= 2
    ensures chain[0] in s.clients && chain[|chain| - 1] in s.clients
    ensures ClientLevel(s, chain[0]) < ClientLevel(s, chain[|chain| - 1])
  {
    hide Inv, AllClimb;
    assert WaitsFor(s, chain[|chain| - 2], chain[|chain| - 1]);
    WaitingClimbs(env, s, chain[|chain| - 2], chain[|chain| - 1]);
    if |chain| > 2 {
      ChainClimbs(env, s, chain[..|chain| - 1]);
    }
  }

  /** No reachable state holds a cycle of clients waiting for one another. */
  lemma NoDeadlock(env: Env, states: seq<System>, actions: seq<Action>, n: nat, chain: seq<Client>)
    requires IsRun(env, states, actions) && n < |states|
    requires |chain| >= 2 && WaitChain(states[n], chain)
    ensures chain[0] != chain[|chain| - 1]
  {
    RunsClimb(env, states, actions, n);
    hide Inv, AllClimb, WaitChain, IsRun;
    ChainClimbs(env, states[n], chain);
  }

  // ---------- somebody can always go on ----------

  lemma HasTop(s: System, among: set<Client>) returns (top: Client)
    requires among != {} && forall c | c in among :: c in s.clients
    ensures top in among && forall c | c in among :: ClientLevel(s, c) <= ClientLevel(s, top)
    decreases |among|
  {
    top :| top in among;
    var rest := among - {top};
    if rest != {} {
      var other := HasTop(s, rest);
      if ClientLevel(s, top) < ClientLevel(s, other) {
        top := other;
      }
    }
  }

  /** Up to `n` distinct members of `s`, and none left out that is older than one taken. */
  ghost predicate OldestFirst<T(!new)>(s: set<T>, age: T -> int, n: nat, picks: seq<T>) {
    && (forall i | 0 <= i < |picks| :: picks[i] in s)
    && (forall i, j | 0 <= i < j < |picks| :: picks[i] != picks[j])
    && |picks| <= n
    && (forall x | x in s && x !in picks :: |picks| == n && forall i | 0 <= i < |picks| :: age(picks[i]) <= age(x))
  }

  lemma Oldest<T(!new)>(s: set<T>, age: T -> int) returns (m: T)
    requires s != {}
    ensures m in s && forall x | x in s :: age(m) <= age(x)
    decreases |s|
  {
    m :| m in s;
    var rest := s - {m};
    if rest != {} {
      var other := Oldest(rest, age);
      if age(other) < age(m) {
        m := other;
      }
    }
  }

  lemma OldestFirstExists<T(!new)>(s: set<T>, age: T -> int, n: nat) returns (picks: seq<T>)
    ensures OldestFirst(s, age, n, picks)
    decreases n
  {
    if n == 0 || s == {} {
      picks := [];
    } else {
      var m := Oldest(s, age);
      var rest := OldestFirstExists(s - {m}, age, n - 1);
      picks := [m] + rest;
    }
  }

  /** Whatever is locked, a sweep can claim something legal, if only nothing. */
  lemma SweepCanPick(db: Db, busy: set<ExecId>, limit: int, now: int) returns (claims: seq<ApprovalId>)
    ensures SweepPicks(db, busy, limit, now, claims)
  {
    var due := set a | a in db.approvals && Sweepable(db, a, now) && db.approvals[a].exec !in busy;
    var age := a => if a in db.approvals && db.approvals[a].expiresAt.Some? then db.approvals[a].expiresAt.value else 0;
    claims := OldestFirstExists(due, age, SafeLimit(limit));
    forall b | b in db.approvals && Sweepable(db, b, now) && db.approvals[b].exec !in busy && b !in claims
      ensures |claims| == SafeLimit(limit)
      ensures forall i | 0 <= i < |claims| :: db.approvals[claims[i]].expiresAt.value <= db.approvals[b].expiresAt.value
    {
      assert b in due;
      assert forall i | 0 <= i < |claims| :: age(claims[i]) <= age(b);
    }
  }

  lemma PublisherCanPick(db: Db, busy: set<ExecId>, limit: int, now: int) returns (rows: seq<ExecId>)
    ensures ClaimPicks(db, busy, limit, now, rows)
  {
    var due := set e | e in db.dispatches && Claimable(db.dispatches[e], now) && e !in busy;
    var age := e => if e in db.dispatches then db.dispatches[e].createdAt else 0;
    rows := OldestFirstExists(due, age, SafeLimit(limit));
    forall e | e in db.dispatches && Claimable(db.dispatches[e], now) && e !in busy && e !in rows
      ensures |rows| == SafeLimit(limit)
      ensures forall i | 0 <= i < |rows| :: db.dispatches[rows[i]].createdAt <= db.dispatches[e].createdAt
    {
      assert e in due;
      assert forall i | 0 <= i < |rows| :: age(rows[i]) <= age(e);
    }
  }

  lemma Unblocked(s: System, c: Client)
    requires c in s.clients && !Finished(s.clients[c].local)
    requires forall d :: !WaitsFor(s, c, d)
    ensures match Need(s.clients[c].op, s.clients[c].local, s.db) case None => true case Some(k) => Free(s, c, k)
  {
    var need := Need(s.clients[c].op, s.clients[c].local, s.db);
    if need.Some? {
      forall d | d in s.clients && d != c ensures need.value !in s.clients[d].local.held {
        assert !WaitsFor(s, c, d);
      }
    }
  }

  /**
   * Whenever transactions are in flight, one of them can finish (it is done, or halted and rolls
   * back) or can execute its next statement at once.
   */
  lemma SomebodyCanGoOn(env: Env, states: seq<System>, actions: seq<Action>, n: nat) returns (c: Client, inp: Input)
    requires IsRun(env, states, actions) && n < |states| && states[n].clients.Keys != {}
    ensures c in states[n].clients
    ensures Finished(states[n].clients[c].local) || Enabled(states[n], c, inp)
  {
    var s := states[n];
    RunsClimb(env, states, actions, n);
    hide Inv, AllClimb, IsRun, Finished, WaitsFor, Need, SweepPicks, ClaimPicks, LevelOf, Free;
    c := HasTop(s, s.clients.Keys);
    var op, l := s.clients[c].op, s.clients[c].local;
    var claims := SweepCanPick(s.db, BusyExecs(s, c), if op.Sweep? then op.limit else 0, l.ch.begun);
    var rows := PublisherCanPick(s.db, BusyRows(s, c), if op.ClaimDispatches? then op.limit else 0, l.ch.begun);
    inp := Input(s.clock, claims, rows);
    if !Finished(l) {
      forall d ensures !WaitsFor(s, c, d) {
        if WaitsFor(s, c, d) { WaitsForClients(s, c, d); WaitingClimbs(env, s, c, d); }
      }
      Unblocked(s, c);
    }
  }

  lemma WaitsForClients(s: System, c: Client, d: Client)
    requires WaitsFor(s, c, d)
    ensures c in s.clients && d in s.clients
  {
  }
}
