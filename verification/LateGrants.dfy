/**
 * Decisions that outlive an expiry: exactly while a live grant is in flight can a lapsed approval's
 * execution still be dispatched, and such states are reached.
 */
module LateGrants {
  import opened Base
  import opened StateMachine
  import opened Requests
  import opened Tables
  import opened Kernel
  import opened Integrity
  import opened Interleaving
  import opened Atomicity
  import opened Runs
  import opened Closed
  import opened Expiry
  import Deadlock

  lemma GrantGoesOn(op: Op, l: Local, db: Db, inp: Input)
    requires op.Decide? && AtDecide(op, l, db) && l.verdict == Approved && Left(l.pc) > 0
    ensures var l' := Execute(op, l, db, inp);
      l'.verdict == Approved && Left(l'.pc) == Left(l.pc) - 1 && (l'.pc.Done? <==> Left(l.pc) == 1)
  {
    hide Execute, AtMove, PutMove, PutConsequence, VerdictOf, VerdictActor, PutVerdict, Merge;
    if l.pc.WriteVerdict? {
      hide AtDecide;
      VerdictIsWritten(op, l, db, inp);
    } else {
      MergeNothing(db);
      var who := VerdictActor(op, l.verdict);
      var base := PutVerdict(db, NO_ROWS, op.approvalId, l.verdict, who);
      assert Deciding(op, l, db) && AtMove(db, base, l);
      hide AtDecide;
      GrantMoves(op, l, db, inp, base, who);
    }
  }

  lemma VerdictIsWritten(op: Op, l: Local, db: Db, inp: Input)
    requires op.Decide? && l.pc.WriteVerdict?
    ensures var l' := Execute(op, l, db, inp); l'.verdict == l.verdict && l'.pc.ReadMax?
  {
    DecideShape(op, l, db, inp);
    hide Execute, Merge, PutVerdict, Taken;
  }

  lemma LeftInOrder(pc: Pc)
    ensures Left(ReadMax) == 5 && Left(UpdateStatus) == 4 && Left(InsertEvent) == 3 && Left(InsertDispatch) == 2
    ensures Left(InsertVerdictAudit) == 1 && Left(Done) == 0
  {
  }

  lemma GrantMoves(op: Op, l: Local, db: Db, inp: Input, base: Db, who: string)
    requires op.Decide? && Deciding(op, l, db) && AtMove(db, base, l) && l.verdict == Approved
    requires who == VerdictActor(op, l.verdict)
    requires MovePc(l.pc)
    ensures var l' := Execute(op, l, db, inp);
      l'.verdict == Approved && Left(l'.pc) == Left(l.pc) - 1 && (l'.pc.Done? <==> Left(l.pc) == 1)
  {
    hide Execute, AtMove, PutMove, PutConsequence, VerdictOf, VerdictActor, Merge, Left, View, PutEvent, MaxSeq;
    LeftInOrder(l.pc);
    if l.pc.ReadMax? { ReadMaxStep(op, l, db, inp, base); }
    else if l.pc.UpdateStatus? { UpdateStatusStep(op, l, db, inp, base); }
    else if l.pc.InsertEvent? { NextNumberIsFree(l, db, base); InsertEventShape(op, l, db, inp); }
    else if l.pc.InsertDispatch? { InsertDispatchStep(op, l, db, inp, base); }
    else { InsertVerdictAuditStep(op, l, db, inp, base, who); }
  }

  lemma Joined(env: Env, first: seq<System>, began: seq<Action>, act: Action, rest: seq<System>, more: seq<Action>)
    requires Stretch(env, first, began) && Stretch(env, rest, more) && Next(env, first[|first| - 1], act, rest[0])
    ensures Stretch(env, first + rest, began + [act] + more)
  {
    hide Next;
    var states, actions := first + rest, began + [act] + more;
    forall i | 0 <= i < |actions| ensures Next(env, states[i], actions[i], states[i + 1]) {
      if i < |began| {
        assert Next(env, first[i], began[i], first[i + 1]);
      } else if i > |began| {
        var k := i - |began| - 1;
        assert Next(env, rest[k], more[k], rest[k + 1]);
      }
    }
  }

  // ---------- a decision with the tables to itself ----------

  /** The only client can always execute a statement that claims nothing. */
  lemma RunAlone(env: Env, s: System, c: Client) returns (s': System)
    requires Inv(env, s) && s.clients.Keys == {c} && !Finished(s.clients[c].local)
    requires !s.clients[c].op.Sweep? && !s.clients[c].op.ClaimDispatches?
    ensures Next(env, s, Run(c, Input(s.clock, [], [])), s') && Inv(env, s')
    ensures s'.db == s.db && s'.clock == s.clock && s'.clients.Keys == {c}
    ensures s'.clients[c]
      == Txn(s.clients[c].op, Execute(s.clients[c].op, s.clients[c].local, s.db, Input(s.clock, [], [])))
  {
    hide Execute, Inv, Need;
    var t, inp := s.clients[c], Input(s.clock, [], []);
    s' := s.(clients := s.clients[c := Txn(t.op, Execute(t.op, t.local, s.db, inp))]);
    assert Next(env, s, Run(c, inp), s');
    hide Next;
    StepRefines(env, s, Run(c, inp), s');
  }

  /** Others can roll back at any time, and leave the tables as they are. */
  lemma RollBackOthers(env: Env, s: System, c: Client) returns (states: seq<System>, actions: seq<Action>)
    requires Inv(env, s) && c in s.clients
    ensures Stretch(env, states, actions) && states[0] == s
    ensures var last := states[|states| - 1];
      && Inv(env, last) && last.db == s.db && last.clock == s.clock
      && last.clients.Keys == {c} && last.clients[c] == s.clients[c]
    decreases |s.clients.Keys|
  {
    hide Inv;
    if d :| d in s.clients && d != c {
      var s' := s.(clients := s.clients - {d});
      assert Next(env, s, Rollback(d), s');
      assert s'.clients.Keys == s.clients.Keys - {d};
      hide Next;
      StepRefines(env, s, Rollback(d), s');
      var rest, more := RollBackOthers(env, s', c);
      Joined(env, [s], [], Rollback(d), rest, more);
      states, actions := [s] + rest, [] + [Rollback(d)] + more;
    } else {
      states, actions := [s], [];
      assert s.clients.Keys == {c};
    }
  }

  lemma CommitGrant(env: Env, s: System, c: Client, a: ApprovalId) returns (s': System)
    requires Inv(env, s) && c in s.clients && Granting(s.clients[c], a) && a in s.db.approvals
    requires s.clients[c].local.pc.Done?
    ensures Next(env, s, Commit(c), s')
    ensures a in s'.db.approvals && s.db.approvals[a].exec in s'.db.dispatches
  {
    hide Inv, Merge;
    var t := s.clients[c];
    s' := System(
      Merge(s.db, t.local.writes), s.clock, s.clients - {c}, s.log + [Entry(t.op, t.local.ch, t.local.reply)]);
    assert Next(env, s, Commit(c), s');
    hide Next;
    StepFate(env, s, Commit(c), s', a);
    InvIsIntegral(env, s');
    DispatchedIffGranted(env, s'.db, a);
  }

  lemma DecidingHere(env: Env, s: System, c: Client)
    requires Inv(env, s) && c in s.clients && s.clients[c].op.Decide? && Left(s.clients[c].local.pc) > 0
    ensures AtDecide(s.clients[c].op, s.clients[c].local, s.db) && !Finished(s.clients[c].local)
  {
    hide Integral, AtDecide, WellFormedOp, LocksDisjoint, DistinctIds;
    assert ClientOk(env, s.db, s.clients[c]);
    hide Inv, ClientOk;
  }

  lemma GrantAlone(env: Env, s: System, c: Client, a: ApprovalId) returns (s': System)
    requires Inv(env, s) && s.clients.Keys == {c} && Granting(s.clients[c], a) && Left(s.clients[c].local.pc) > 0
    ensures Next(env, s, Run(c, Input(s.clock, [], [])), s') && Inv(env, s')
    ensures s'.db == s.db && s'.clients.Keys == {c} && LiveGrant(s'.clients[c], a)
    ensures Left(s'.clients[c].local.pc) == Left(s.clients[c].local.pc) - 1
  {
    hide Next, Execute, AtDecide, Inv;
    DecidingHere(env, s, c);
    s' := RunAlone(env, s, c);
    hide Left;
    GrantGoesOn(s.clients[c].op, s.clients[c].local, s.db, Input(s.clock, [], []));
  }

  /** A live grant alone with the tables runs to its commit, and the execution is dispatched. */
  lemma FinishGrant(env: Env, s: System, c: Client, a: ApprovalId) returns (states: seq<System>, actions: seq<Action>)
    requires Inv(env, s) && s.clients.Keys == {c} && LiveGrant(s.clients[c], a) && a in s.db.approvals
    ensures Stretch(env, states, actions) && states[0] == s
    ensures s.db.approvals[a].exec in states[|states| - 1].db.dispatches
    decreases Left(s.clients[c].local.pc)
  {
    hide Inv, Next, Granting, Left;
    if s.clients[c].local.pc.Done? {
      var s' := CommitGrant(env, s, c, a);
      states, actions := [s, s'], [Commit(c)];
    } else {
      var s' := GrantAlone(env, s, c, a);
      var rest, more := FinishGrant(env, s', c, a);
      Joined(env, [s], [], Run(c, Input(s.clock, [], [])), rest, more);
      states, actions := [s] + rest, [] + [Run(c, Input(s.clock, [], []))] + more;
    }
  }

  /** A live grant among any others can still dispatch: the others roll back. */
  lemma GrantCanFinish(env: Env, s: System, c: Client, a: ApprovalId)
    returns (states: seq<System>, actions: seq<Action>)
    requires Inv(env, s) && c in s.clients && LiveGrant(s.clients[c], a) && a in s.db.approvals
    ensures Stretch(env, states, actions) && states[0] == s
    ensures s.db.approvals[a].exec in states[|states| - 1].db.dispatches
  {
    hide Inv, Next, LiveGrant, Stretch;
    var alone, others := RollBackOthers(env, s, c);
    StretchIsNotEmpty(env, alone, others);
    var rest, more := FinishGrant(env, alone[|alone| - 1], c, a);
    StretchIsNotEmpty(env, rest, more);
    Chained(env, alone, others, rest, more);
    states, actions := alone + rest[1..], others + more;
    if |rest| == 1 { assert rest == [alone[|alone| - 1]]; }
  }

  lemma StretchIsNotEmpty(env: Env, states: seq<System>, actions: seq<Action>)
    requires Stretch(env, states, actions)
    ensures |states| == |actions| + 1
  {
  }

  lemma Chained(env: Env, first: seq<System>, began: seq<Action>, rest: seq<System>, more: seq<Action>)
    requires Stretch(env, first, began) && Stretch(env, rest, more) && first[|first| - 1] == rest[0]
    ensures Stretch(env, first + rest[1..], began + more)
  {
    hide Next;
    var states, actions := first + rest[1..], began + more;
    forall i | 0 <= i < |actions| ensures Next(env, states[i], actions[i], states[i + 1]) {
      if i < |began| {
        assert Next(env, first[i], began[i], first[i + 1]);
      } else {
        var k := i - |began|;
        assert Next(env, rest[k], more[k], rest[k + 1]);
        assert states[i] == rest[k];
      }
    }
  }

  // ---------- exactly when expiry is final ----------

  /** The execution of `a` is dispatched in no continuation. */
  ghost predicate NeverDispatched(env: Env, s: System, a: ApprovalId)
    requires a in s.db.approvals
  {
    forall states: seq<System>, actions: seq<Action> | Stretch(env, states, actions) && states[0] == s ::
      s.db.approvals[a].exec !in states[|states| - 1].db.dispatches
  }

  /**
   * In a reachable state, a lapsed approval's execution is never dispatched if and only if no live grant is
   * in flight.
   */
  lemma ExpiryIsFinalIff(env: Env, run: seq<System>, past: seq<Action>, i: nat, a: ApprovalId)
    requires IsRun(env, run, past) && i < |run| && Lapsed(run[i], a)
    ensures NeverDispatched(env, run[i], a) <==> NoGrantInFlight(run[i], a)
  {
    var s := run[i];
    RunsAreSerial(env, run, past, i);
    hide IsRun, Inv, Next, LiveGrant, Replay;
    if NoGrantInFlight(s, a) {
      forall states: seq<System>, actions: seq<Action> | Stretch(env, states, actions) && states[0] == s
        ensures s.db.approvals[a].exec !in states[|states| - 1].db.dispatches
      {
        hide NoGrantInFlight, Lapsed;
        ExpiryIsFinal(env, states, actions, |states| - 1, a);
      }
    } else {
      var c :| c in s.clients && LiveGrant(s.clients[c], a);
      var states, actions := GrantCanFinish(env, s, c, a);
    }
  }

  // ---------- a decision that reads its clock in time ----------

  /** The approval is undecided and in time, and its execution waits. */
  predicate Open(db: Db, a: ApprovalId, clock: int) {
    && a in db.approvals && db.approvals[a].status == Pending && BeforeExpiry(db, a, clock)
    && db.approvals[a].exec in db.execs && db.execs[db.approvals[a].exec].status == Approval
    && db.approvals[a].tenant == db.execs[db.approvals[a].exec].request.tenantId
  }

  function GrantOp(db: Db, a: ApprovalId, who: string): Op
    requires a in db.approvals
  {
    Decide(a, db.approvals[a].exec, true, who)
  }

  lemma LockingGoesOn(db: Db, a: ApprovalId, who: string, l: Local, inp: Input)
    requires Open(db, a, inp.clock) && l.pc.LockToDecide? && l.writes == NO_ROWS
    ensures var l' := Execute(GrantOp(db, a, who), l, db, inp); l'.pc.SelectApproval? && l'.writes == NO_ROWS
  {
    MergeNothing(db);
    DecideShape(GrantOp(db, a, who), l, db, inp);
    hide Execute, Merge, Taken;
  }

  lemma SelectingGoesOn(db: Db, a: ApprovalId, who: string, l: Local, inp: Input)
    requires Open(db, a, inp.clock) && l.pc.SelectApproval? && l.writes == NO_ROWS
    ensures var l' := Execute(GrantOp(db, a, who), l, db, inp); l'.pc.WriteVerdict? && l'.verdict == Approved
  {
    MergeNothing(db);
    DecideShape(GrantOp(db, a, who), l, db, inp);
    hide Execute, Merge, Taken;
  }

  lemma BeginDecision(env: Env, s: System, op: Op) returns (s': System)
    requires Inv(env, s) && s.clients == map[] && op.Decide?
    ensures Next(env, s, Begin(0, op), s') && Inv(env, s')
    ensures s'.db == s.db && s'.clock == s.clock && s'.clients.Keys == {0} && s'.clients[0].op == op
    ensures s'.clients[0].local.pc.LockToDecide? && s'.clients[0].local.writes == NO_ROWS
  {
    assert FirstLocal(op, s.clock).pc.LockToDecide? && FirstLocal(op, s.clock).writes == NO_ROWS;
    hide Inv, FirstLocal;
    s' := s.(clients := s.clients[0 := Txn(op, FirstLocal(op, s.clock))]);
    assert Next(env, s, Begin(0, op), s');
    hide Next;
    StepRefines(env, s, Begin(0, op), s');
  }

  /** A decision that begins in time reads its clock in time. */
  lemma BeginGrant(env: Env, s: System, a: ApprovalId, who: string) returns (states: seq<System>, actions: seq<Action>)
    requires Inv(env, s) && s.clients == map[] && Open(s.db, a, s.clock)
    ensures Stretch(env, states, actions) && |states| == 4 && states[0] == s && states[3].db == s.db
    ensures states[3].clock == s.clock
    ensures Inv(env, states[3]) && states[3].clients.Keys == {0} && Granting(states[3].clients[0], a)
    ensures states[3].clients[0].local.pc.WriteVerdict?
  {
    assert a in s.db.approvals;
    hide Inv, Next, Execute, Open;
    var op, inp := GrantOp(s.db, a, who), Input(s.clock, [], []);
    var s1 := BeginDecision(env, s, op);
    hide GrantOp, Granting;
    var s2 := LockAlone(env, s1, a, who);
    var s3 := SelectAlone(env, s2, a, who);
    ThreeSteps(env, s, Begin(0, op), s1, Run(0, inp), s2, Run(0, inp), s3);
    hide Stretch;
    states, actions := [s, s1, s2, s3], [Begin(0, op), Run(0, inp), Run(0, inp)];
  }

  lemma ThreeSteps(env: Env, s: System, a: Action, t: System, b: Action, u: System, c: Action, v: System)
    requires Next(env, s, a, t) && Next(env, t, b, u) && Next(env, u, c, v)
    ensures Stretch(env, [s, t, u, v], [a, b, c])
  {
    hide Next;
  }

  lemma LockAlone(env: Env, s: System, a: ApprovalId, who: string) returns (s': System)
    requires Inv(env, s) && s.clients.Keys == {0} && Open(s.db, a, s.clock) && s.clients[0].op == GrantOp(s.db, a, who)
    requires s.clients[0].local.pc.LockToDecide? && s.clients[0].local.writes == NO_ROWS
    ensures Next(env, s, Run(0, Input(s.clock, [], [])), s') && Inv(env, s')
    ensures s'.db == s.db && s'.clock == s.clock && s'.clients.Keys == {0} && s'.clients[0].op == s.clients[0].op
    ensures s'.clients[0].local.pc.SelectApproval? && s'.clients[0].local.writes == NO_ROWS
  {
    hide Inv, Next, Execute, Open;
    s' := RunAlone(env, s, 0);
    LockingGoesOn(s.db, a, who, s.clients[0].local, Input(s.clock, [], []));
  }

  lemma SelectAlone(env: Env, s: System, a: ApprovalId, who: string) returns (s': System)
    requires Inv(env, s) && s.clients.Keys == {0} && Open(s.db, a, s.clock) && s.clients[0].op == GrantOp(s.db, a, who)
    requires s.clients[0].local.pc.SelectApproval? && s.clients[0].local.writes == NO_ROWS
    ensures Next(env, s, Run(0, Input(s.clock, [], [])), s') && Inv(env, s')
    ensures s'.db == s.db && s'.clock == s.clock && s'.clients.Keys == {0}
    ensures Granting(s'.clients[0], a) && s'.clients[0].local.pc.WriteVerdict?
  {
    hide Inv, Next, Execute, Open;
    s' := RunAlone(env, s, 0);
    SelectingGoesOn(s.db, a, who, s.clients[0].local, Input(s.clock, [], []));
  }

  /**
   * Whenever an approval is undecided and in time and nothing else runs, a decision can read its clock
   * now, commit after the expiry, and dispatch: without the condition expiry is not final.
   */
  lemma GrantCanOutliveTheExpiry(env: Env, s: System, a: ApprovalId, who: string)
    returns (states: seq<System>, actions: seq<Action>, lapsed: nat)
    requires Inv(env, s) && s.clients == map[] && Open(s.db, a, s.clock) && s.db.approvals[a].expiresAt.Some?
    ensures Stretch(env, states, actions) && states[0] == s
    ensures lapsed < |states| && Lapsed(states[lapsed], a) && !NoGrantInFlight(states[lapsed], a)
    ensures states[lapsed].db.approvals[a].exec == s.db.approvals[a].exec
    ensures s.db.approvals[a].exec !in states[lapsed].db.dispatches
    ensures s.db.approvals[a].exec in states[|states| - 1].db.dispatches
  {
    hide Inv, Next;
    var first, began := BeginGrant(env, s, a, who);
    var late := LetItLapse(env, first[3], a);
    var rest, more := FinishGrant(env, late, 0, a);
    assert LiveGrant(late.clients[0], a);
    states, actions, lapsed := first + rest, began + [Tick(late.clock)] + more, 4;
    Joined(env, first, began, Tick(late.clock), rest, more);
  }

  lemma LetItLapse(env: Env, s: System, a: ApprovalId) returns (s': System)
    requires Inv(env, s) && Open(s.db, a, s.clock) && s.db.approvals[a].expiresAt.Some?
    ensures Next(env, s, Tick(s'.clock), s') && Inv(env, s') && s' == s.(clock := s'.clock) && Lapsed(s', a)
    ensures s.db.approvals[a].exec !in s.db.dispatches
  {
    hide Inv;
    s' := s.(clock := s.db.approvals[a].expiresAt.value);
    assert Next(env, s, Tick(s'.clock), s');
    hide Next;
    StepRefines(env, s, Tick(s'.clock), s');
    InvIsIntegral(env, s);
    DispatchedIffGranted(env, s.db, a);
  }

  // ---------- from the very start ----------

  const FIRST_SYSTEM := System(NO_ROWS, 0, map[], [])

  /** A request that has to wait for an approval. */
  predicate WaitingRequest(r: Request) {
    Valid(r) && InitialStatus(r) == Approval
  }

  function StartOf(env: Env, r: Request, a: ApprovalId): (op: Op)
    ensures op.Start? && !Keyed(op)
  {
    Start(r, RequestHash(env, r), None, 0, a)
  }

  /** Statements that a start without a key has still to execute. */
  function StartLeft(pc: Pc): nat {
    match pc
    case EnsureTenant => 5
    case InsertExecution => 4
    case InsertFirstEvent => 3
    case InsertGate => 2
    case InsertPolicyAudit => 1
    case _ => 0
  }

  /** The first start of all is under way by itself. */
  ghost predicate Starting(env: Env, s: System, r: Request, a: ApprovalId) {
    && Inv(env, s) && s.db == NO_ROWS && s.clients.Keys == {0} && s.clients[0].op == StartOf(env, r, a)
    && s.clients[0].local.ch.clock == s.clock
    && (s.clients[0].local.pc.Done? || StartLeft(s.clients[0].local.pc) > 0)
  }

  lemma FirstStartSucceeds(env: Env, r: Request, a: ApprovalId, ch: Choice)
    ensures Fits(StartOf(env, r, a), ch, NO_ROWS)
    ensures Effect(StartOf(env, r, a), ch, NO_ROWS).reply == Started
    ensures After(StartOf(env, r, a), ch, NO_ROWS) == StartedTables(StartOf(env, r, a), ch, NO_ROWS)
  {
    hide StartWrites, RequestHash;
    AfterStart(StartOf(env, r, a), ch, NO_ROWS);
  }

  lemma StartKeepsClock(op: Op, l: Local, db: Db, inp: Input)
    requires op.Start? && !MovePc(l.pc) && l.ch.clock == inp.clock
    ensures Execute(op, l, db, inp).ch.clock == inp.clock
  {
    StartShape(op, l, db, inp);
    hide Execute, Merge, MaxSeq, PutTenant, PutGate, PutIdempotency, PolicyAudit, FirstEvent, Allowed, Taken;
  }

  lemma StartAdvances(env: Env, op: Op, l: Local, inp: Input)
    requires op.Start? && !Keyed(op) && AtStart(op, l, NO_ROWS) && StartLeft(l.pc) > 0
    requires !Execute(op, l, NO_ROWS, inp).pc.Halted?
    requires AtStart(op, Execute(op, l, NO_ROWS, inp), NO_ROWS)
    ensures var next := Execute(op, l, NO_ROWS, inp).pc;
      StartLeft(next) < StartLeft(l.pc) && (next.Done? || StartLeft(next) > 0)
  {
    hide Keyed, Execute, AtStage, AtReuse;
    Deadlock.StartFollows(op, l, NO_ROWS, inp);
  }

  lemma StartStep(env: Env, s: System, r: Request, a: ApprovalId) returns (s': System)
    requires Starting(env, s, r, a) && !s.clients[0].local.pc.Done?
    ensures Next(env, s, Run(0, Input(s.clock, [], [])), s') && Starting(env, s', r, a)
    ensures StartLeft(s'.clients[0].local.pc) < StartLeft(s.clients[0].local.pc)
  {
    hide Inv, Next, Execute, StartOf, AtStart, OnCourse, StartLeft;
    NotYetDone(s.clients[0]);
    s' := RunAlone(env, s, 0);
    StartOnCourse(env, s, s', StartOf(env, r, a));
    StartProgress(env, r, a, s.clients[0].local, Input(s.clock, [], []));
  }

  lemma NotYetDone(t: Txn)
    ensures StartLeft(t.local.pc) > 0 ==> !Finished(t.local)
  {
  }

  lemma StartProgress(env: Env, r: Request, a: ApprovalId, l: Local, inp: Input)
    requires var op := StartOf(env, r, a);
      AtStart(op, l, NO_ROWS) && OnCourse(op, Execute(op, l, NO_ROWS, inp), NO_ROWS)
    requires StartLeft(l.pc) > 0 && l.ch.clock == inp.clock
    ensures var l' := Execute(StartOf(env, r, a), l, NO_ROWS, inp);
      && l'.ch.clock == inp.clock && StartLeft(l'.pc) < StartLeft(l.pc) && (l'.pc.Done? || StartLeft(l'.pc) > 0)
  {
    var op := StartOf(env, r, a);
    hide Execute, AtStart, OnCourse, StartOf, Keyed, StartLeft, MovePc;
    NotMoving(l.pc);
    StartKeepsClock(op, l, NO_ROWS, inp);
    NotHalted(env, r, a, Execute(op, l, NO_ROWS, inp));
    StartAdvances(env, op, l, inp);
  }

  lemma NotMoving(pc: Pc)
    ensures StartLeft(pc) > 0 ==> !MovePc(pc)
  {
  }

  /** Where the start stands, before and after its statement. */
  lemma StartOnCourse(env: Env, s: System, s': System, op: Op)
    requires Inv(env, s) && 0 in s.clients && s.clients[0].op == op && op.Start? && StartLeft(s.clients[0].local.pc) > 0
    requires Next(env, s, Run(0, Input(s.clock, [], [])), s') && s'.clients.Keys == {0}
    ensures AtStart(op, s.clients[0].local, s.db) && OnCourse(op, s'.clients[0].local, s.db)
  {
    hide Execute, Enabled, Inv, OnCourse, AtStart;
    RunStaysOnCourse(env, s, 0, Input(s.clock, [], []));
  }

  lemma NotHalted(env: Env, r: Request, a: ApprovalId, l: Local)
    requires OnCourse(StartOf(env, r, a), l, NO_ROWS)
    ensures !l.pc.Halted? && AtStart(StartOf(env, r, a), l, NO_ROWS)
  {
    FirstStartSucceeds(env, r, a, l.ch);
    hide Effect, AtStart, RequestHash, Fits;
  }

  lemma FinishStart(env: Env, s: System, r: Request, a: ApprovalId) returns (states: seq<System>, actions: seq<Action>)
    requires WaitingRequest(r) && Starting(env, s, r, a)
    ensures Stretch(env, states, actions) && states[0] == s
    ensures var last := states[|states| - 1];
      && Inv(env, last) && last.clients == map[] && Open(last.db, a, last.clock) && last.db.approvals[a].expiresAt.Some?
    decreases StartLeft(s.clients[0].local.pc)
  {
    hide Next, Inv, Open, WaitingRequest, RequestHash;
    if s.clients[0].local.pc.Done? {
      var s' := CommitStart(env, s, r, a);
      states, actions := [s, s'], [Commit(0)];
    } else {
      var s' := StartStep(env, s, r, a);
      var rest, more := FinishStart(env, s', r, a);
      Joined(env, [s], [], Run(0, Input(s.clock, [], [])), rest, more);
      states, actions := [s] + rest, [] + [Run(0, Input(s.clock, [], []))] + more;
    }
  }

  lemma CommitStart(env: Env, s: System, r: Request, a: ApprovalId) returns (s': System)
    requires WaitingRequest(r) && Starting(env, s, r, a) && s.clients[0].local.pc.Done?
    ensures Next(env, s, Commit(0), s')
    ensures Inv(env, s') && s'.clients == map[] && Open(s'.db, a, s'.clock) && s'.db.approvals[a].expiresAt.Some?
  {
    hide Inv, Merge, RequestHash, Effect, After, StartedTables;
    var t := s.clients[0];
    s' := System(
      Merge(s.db, t.local.writes), s.clock, s.clients - {0}, s.log + [Entry(t.op, t.local.ch, t.local.reply)]);
    assert Next(env, s, Commit(0), s');
    hide Next;
    StepRefines(env, s, Commit(0), s');
    FirstStartSucceeds(env, r, a, t.local.ch);
    WaitsOpenly(env, r, a, t.local.ch);
  }

  lemma WaitsOpenly(env: Env, r: Request, a: ApprovalId, ch: Choice)
    requires WaitingRequest(r)
    ensures var db := StartedTables(StartOf(env, r, a), ch, NO_ROWS);
      Open(db, a, ch.clock) && db.approvals[a].expiresAt.Some?
  {
    hide RequestHash, Valid, Allowed;
  }

  lemma BeginStart(env: Env, r: Request, a: ApprovalId) returns (s: System)
    requires WaitingRequest(r)
    ensures Next(env, FIRST_SYSTEM, Begin(0, StartOf(env, r, a)), s) && Starting(env, s, r, a)
  {
    var op := StartOf(env, r, a);
    InitialInv(env, FIRST_SYSTEM);
    hide Inv, RequestHash, Valid, Allowed;
    s := FIRST_SYSTEM.(clients := map[0 := Txn(op, FirstLocal(op, 0))]);
    Begins(env, op, s);
    hide Next;
    StepRefines(env, FIRST_SYSTEM, Begin(0, op), s);
  }

  lemma Begins(env: Env, op: Op, s: System)
    requires WellFormedOp(env, op) && op.Start?
    requires s == FIRST_SYSTEM.(clients := map[0 := Txn(op, FirstLocal(op, 0))])
    ensures Next(env, FIRST_SYSTEM, Begin(0, op), s)
  {
    hide WellFormedOp, FirstLocal;
  }

  /**
   * It happens: from the empty tables, with any request that waits for approval, a run in which the
   * approval lapses undecided and its execution is dispatched afterwards.
   */
  lemma LateGrantHappens(env: Env, r: Request, a: ApprovalId, who: string)
    returns (states: seq<System>, actions: seq<Action>, lapsed: nat)
    requires WaitingRequest(r)
    ensures IsRun(env, states, actions) && lapsed < |states| && Lapsed(states[lapsed], a)
    ensures var e := states[lapsed].db.approvals[a].exec;
      e !in states[lapsed].db.dispatches && e in states[|states| - 1].db.dispatches
  {
    hide Inv, Next, WaitingRequest, StartOf, Starting, Open;
    var s1 := BeginStart(env, r, a);
    var begun, did := FinishStart(env, s1, r, a);
    assert Stretch(env, [FIRST_SYSTEM], []);
    Joined(env, [FIRST_SYSTEM], [], Begin(0, StartOf(env, r, a)), begun, did);
    var first, past := [FIRST_SYSTEM] + begun, [] + [Begin(0, StartOf(env, r, a))] + did;
    var late, more, at := GrantCanOutliveTheExpiry(env, begun[|begun| - 1], a, who);
    hide Stretch;
    StretchIsNotEmpty(env, begun, did);
    StretchIsNotEmpty(env, late, more);
    Chained(env, first, past, late, more);
    states, actions, lapsed := first + late[1..], past + more, |first| - 1 + at;
    StretchIsRun(env, states, actions);
  }

  lemma StretchIsRun(env: Env, states: seq<System>, actions: seq<Action>)
    requires Stretch(env, states, actions) && states[0] == FIRST_SYSTEM
    ensures IsRun(env, states, actions)
  {
    hide Next;
  }
}
