/**
 * Unboundedly many clients running service calls one SQL statement at a time.
 *
 * A statement reads the committed tables with the client's own writes over them, and must first
 * obtain the row, advisory or index lock it needs; a client whose lock is taken waits.  COMMIT lays
 * the client's writes over the committed tables and frees its locks; ROLLBACK just frees them, and
 * may happen at any point (an error, a lost connection, a crash).
 */
module Interleaving {
  import opened Base
  import opened StateMachine
  import opened Requests
  import opened Tables
  import opened Kernel

  datatype Lock =
    | TenantLock(tenant: TenantId)
    | AdvisoryLock(slot: int)
    | ExecLock(exec: ExecId)
    | ApprovalLock(approval: ApprovalId)
    | DispatchLock(dispatch: ExecId)
    | KeyLock(key: IdemKey)

  /** The next statement. */
  datatype Pc =
    | EnsureTenant | TakeAdvisory | FindKey | ReadLatest | InsertExecution | InsertFirstEvent
    | InsertGate | InsertPolicyAudit | PutKey | RecheckKey      // start
    | LockToMove                                                // transition, fail
    | LockToDecide | SelectApproval | WriteVerdict              // decideApproval
    | ClaimExpired | MarkExpired | NextClaim                    // expireApprovalsOnce
    | ReadMax | UpdateStatus | InsertEvent                      // the move shared by all of them
    | InsertDispatch | InsertVerdictAudit                       // after a verdict
    | ClaimRows | UpdateDispatch                                // outbox
    | Done | Halted

  datatype Local = Local(
    pc: Pc, writes: Db, held: set<Lock>, ch: Choice,
    exec: ExecId, event: Event, sequence: nat,      // the move in progress
    claim: ApprovalId, verdict: ApprovalStatus,     // the verdict in progress
    i: nat, rejected: nat, skipped: nat,            // the sweep loop
    found: ExecId, seen: nat,                       // the reused execution and the event read for it
    reply: Reply)

  /** What the environment supplies to a statement: `Date.now()`, and the rows a claim picks. */
  datatype Input = Input(clock: int, approvals: seq<ApprovalId>, rows: seq<ExecId>)

  datatype Txn = Txn(op: Op, local: Local)
  datatype Entry = Entry(op: Op, ch: Choice, reply: Reply)
  type Client = nat

  /** `log` records the commits in order. */
  datatype System = System(db: Db, clock: int, clients: map<Client, Txn>, log: seq<Entry>)

  function FirstPc(op: Op): Pc {
    match op
    case Start(_, _, _, _, _) => EnsureTenant
    case Decide(_, _, _, _) => LockToDecide
    case Sweep(_) => ClaimExpired
    case Transition(_, _, _, _) => LockToMove
    case Fail(_, _, _) => LockToMove
    case ClaimDispatches(_, _) => ClaimRows
    case MarkSucceeded(_) => UpdateDispatch
    case MarkFailed(_, _) => UpdateDispatch
  }

  function FirstLocal(op: Op, begun: int): Local {
    Local(FirstPc(op), NO_ROWS, {}, Choice(begun, begun, [], []),
          "", Event(Failed, "", Denied), 0, "", Pending, 0, 0, 0, "", 0, Marked)
  }

  function View(l: Local, db: Db): Db {
    Merge(db, l.writes)
  }

  function Halt(l: Local, error: Error): Local {
    l.(pc := Halted, reply := Refusal(error))
  }

  function Finish(l: Local, reply: Reply): Local {
    l.(pc := Done, reply := reply)
  }

  // ---------- locks ----------

  /** The lock that the next statement blocks on, if any. */
  function Need(op: Op, l: Local, db: Db): Option<Lock> {
    match l.pc
    case EnsureTenant =>
      if op.Start? && op.request.tenantId !in db.tenants then Some(TenantLock(op.request.tenantId)) else None
    case TakeAdvisory => if op.Start? then Some(AdvisoryLock(op.slot)) else None
    case InsertExecution => if op.Start? then Some(ExecLock(op.request.executionId)) else None
    case InsertGate =>
      if !op.Start? then None
      else if InitialStatus(op.request) == Approval then Some(ApprovalLock(op.approvalId))
      else if InitialStatus(op.request) == Intake && op.request.executionId !in db.dispatches
      then Some(DispatchLock(op.request.executionId)) else None
    case PutKey => if Keyed(op) && KeyOf(op) !in db.idempotency then Some(KeyLock(KeyOf(op))) else None
    case LockToMove => if (op.Transition? || op.Fail?) && op.exec in db.execs then Some(ExecLock(op.exec)) else None
    case LockToDecide => if op.Decide? && op.exec in db.execs then Some(ExecLock(op.exec)) else None
    case SelectApproval =>
      if op.Decide? && op.approvalId in db.approvals && db.approvals[op.approvalId].exec in db.execs
      then Some(ApprovalLock(op.approvalId)) else None
    case MarkExpired => if l.i < |l.ch.approvals| then Some(ApprovalLock(l.ch.approvals[l.i])) else None
    case NextClaim =>
      if l.i < |l.ch.approvals| && l.ch.approvals[l.i] in db.approvals
      then Some(ExecLock(db.approvals[l.ch.approvals[l.i]].exec)) else None
    case InsertDispatch => if l.exec !in db.dispatches then Some(DispatchLock(l.exec)) else None
    case UpdateDispatch =>
      if (op.MarkSucceeded? || op.MarkFailed?) && op.exec in db.dispatches then Some(DispatchLock(op.exec)) else None
    case _ => None
  }

  /** The rows a claim locks without waiting (SKIP LOCKED). */
  function Picks(l: Local, db: Db, inp: Input): set<Lock> {
    match l.pc
    case ClaimExpired => set a | a in inp.approvals && a in db.approvals :: ExecLock(db.approvals[a].exec)
    case ClaimRows => set e | e in inp.rows :: DispatchLock(e)
    case _ => {}
  }

  function Taken(op: Op, l: Local, db: Db, inp: Input): set<Lock> {
    Picks(l, db, inp) + match Need(op, l, db) case None => {} case Some(k) => {k}
  }

  // ---------- one statement ----------

  ghost function StartStatement(op: Op, l: Local, db: Db, inp: Input): Local
    requires op.Start?
  {
    var r, view := op.request, View(l, db);
    var e := r.executionId;
    match l.pc
    case EnsureTenant =>
      l.(writes := PutTenant(db, l.writes, r.tenantId), pc := if Keyed(op) then TakeAdvisory else InsertExecution)
    case TakeAdvisory => l.(pc := FindKey)
    case FindKey =>
      if !Keyed(op) || KeyOf(op) !in view.idempotency then l.(pc := InsertExecution)
      else if view.idempotency[KeyOf(op)].hash != op.hash then Halt(l, IdempotencyConflict)
      else l.(pc := ReadLatest, found := view.idempotency[KeyOf(op)].exec)
    case ReadLatest =>
      if MaxSeq(view.events, l.found) == 0 then Halt(l, NoEvents)
      else Finish(l.(seen := MaxSeq(view.events, l.found)), Reused(l.found))
    case InsertExecution =>
      if e in view.execs then Halt(l, DuplicateExecution)
      else l.(writes := PutExecution(l.writes, e, ExecRow(r, InitialStatus(r))), pc := InsertFirstEvent)
    case InsertFirstEvent =>
      if EventKey(e, 1) in view.events then Halt(l, EventKeyTaken)
      else l.(writes := PutEvent(l.writes, e, 1, FirstEvent(r)), pc := InsertGate)
    case InsertGate =>
      var ch := l.ch.(clock := inp.clock);
      l.(ch := ch, writes := PutGate(db, l.writes, op, ch), pc := InsertPolicyAudit)
    case InsertPolicyAudit =>
      var audited := l.(writes := PutAudit(l.writes, PolicyAudit(r)));
      if Keyed(op) then audited.(pc := PutKey) else Finish(audited, Started)
    case PutKey =>
      if Keyed(op) then l.(writes := PutIdempotency(db, l.writes, KeyOf(op), IdemRow(e, op.hash)), pc := RecheckKey)
      else l
    case RecheckKey =>
      if !Keyed(op) || KeyOf(op) !in view.idempotency then Halt(l, RecordMissing)
      else
        var recorded := view.idempotency[KeyOf(op)];
        if recorded.hash != op.hash then Halt(l, IdempotencyConflict)
        else if recorded.exec != e then l.(pc := ReadLatest, found := recorded.exec)
        else Finish(l, Started)
    case _ => l
  }

  function DecideStatement(op: Op, l: Local, db: Db, inp: Input): Local
    requires op.Decide?
  {
    var view := View(l, db);
    match l.pc
    case LockToDecide =>
      if op.exec !in view.execs then Halt(l, ExecutionNotFound)
      else if view.execs[op.exec].status != Approval then Halt(l, NotInApproval)
      else l.(pc := SelectApproval)
    case SelectApproval =>
      if op.approvalId !in view.approvals || view.approvals[op.approvalId].exec !in view.execs then
        Halt(l, ApprovalNotFound)
      else
        var row := view.approvals[op.approvalId];
        if row.exec != op.exec || row.tenant != view.execs[row.exec].request.tenantId then Halt(l, ApprovalMismatch)
        else if row.status != Pending then Halt(l, ApprovalNotPending)
        else
          l.(ch := l.ch.(clock := inp.clock), verdict := VerdictOf(op, row, inp.clock), claim := op.approvalId,
             pc := WriteVerdict)
    case WriteVerdict =>
      var who := VerdictActor(op, l.verdict);
      l.(writes :=
           if op.approvalId in view.approvals then PutVerdict(db, l.writes, op.approvalId, l.verdict, who)
           else l.writes,
         exec := op.exec, event := VerdictEvent(op.approvalId, l.verdict, who), pc := ReadMax)
    case _ => l
  }

  function SweepStatement(op: Op, l: Local, db: Db, inp: Input): Local
    requires op.Sweep?
  {
    var view, n := View(l, db), |l.ch.approvals|;
    match l.pc
    case ClaimExpired => l.(ch := l.ch.(approvals := inp.approvals), i := 0, pc := MarkExpired)
    case MarkExpired =>
      if l.i >= n then l.(i := 0, pc := NextClaim)
      else if l.ch.approvals[l.i] !in view.approvals then l.(i := l.i + 1)
      else l.(writes := PutVerdict(db, l.writes, l.ch.approvals[l.i], Expired, EXPIRY_ACTOR), i := l.i + 1)
    case NextClaim =>
      if l.i >= n then Finish(l, Swept(n, l.rejected, l.skipped))
      else
        var a := l.ch.approvals[l.i];
        if a !in view.approvals || view.approvals[a].exec !in view.execs then Halt(l, ExecutionNotFound)
        else if view.execs[view.approvals[a].exec].status != Approval then l.(skipped := l.skipped + 1, i := l.i + 1)
        else l.(claim := a, verdict := Expired, exec := view.approvals[a].exec,
                event := VerdictEvent(a, Expired, EXPIRY_ACTOR), pc := ReadMax)
    case _ => l
  }

  /** Who the audit names for the verdict in progress. */
  function Auditor(op: Op, v: ApprovalStatus): string {
    if op.Decide? then VerdictActor(op, v) else EXPIRY_ACTOR
  }

  /** The move, and what follows it. */
  ghost function MoveStatement(op: Op, l: Local, db: Db): Local {
    var view := View(l, db);
    match l.pc
    case ReadMax => l.(sequence := MaxSeq(view.events, l.exec) + 1, pc := UpdateStatus)
    case UpdateStatus =>
      l.(writes := if l.exec in view.execs then PutStatus(db, l.writes, l.exec, l.event.status) else l.writes,
         pc := InsertEvent)
    case InsertEvent =>
      if EventKey(l.exec, l.sequence) in view.events then Halt(l, EventKeyTaken)
      else
        var moved := l.(writes := PutEvent(l.writes, l.exec, l.sequence, l.event));
        if op.Transition? || op.Fail? then Finish(moved, Moved(l.sequence))
        else moved.(pc := if l.verdict == Approved then InsertDispatch else InsertVerdictAudit)
    case InsertDispatch => l.(writes := PutDispatch(db, l.writes, l.exec, l.ch.begun), pc := InsertVerdictAudit)
    case InsertVerdictAudit =>
      if l.exec !in view.execs then Halt(l, ExecutionNotFound)
      else
        var audited := l.(writes := PutAudit(l.writes, VerdictAudit(view, l.exec, l.verdict, Auditor(op, l.verdict))));
        if op.Decide? then Finish(audited, if l.verdict == Expired then ApprovalExpired else Decided(l.verdict))
        else audited.(rejected := l.rejected + 1, i := l.i + 1, pc := NextClaim)
    case _ => l
  }

  /** The statements of `transition`, `fail` and the outbox, and the choice among the others. */
  ghost function Statement(op: Op, l: Local, db: Db, inp: Input): Local {
    if l.pc.LockToMove? && (op.Transition? || op.Fail?) then
      if op.exec !in View(l, db).execs then Halt(l, ExecutionNotFound)
      else if !Accepts(op, View(l, db).execs[op.exec].status) then
        Halt(l, if op.Transition? then InvalidTransition else TerminalExecution)
      else l.(exec := op.exec, event := MoveEvent(op), pc := ReadMax)
    else if l.pc.ClaimRows? && op.ClaimDispatches? then
      var ch := l.ch.(rows := inp.rows);
      Finish(l.(ch := ch, writes := ClaimWrites(op, ch, db)), Claimed(inp.rows))
    else if l.pc.UpdateDispatch? && (op.MarkSucceeded? || op.MarkFailed?) then
      Finish(l.(writes := MarkWrites(op, l.ch, db)), Marked)
    else if MovePc(l.pc) then MoveStatement(op, l, db)
    else if op.Start? then StartStatement(op, l, db, inp)
    else if op.Decide? then DecideStatement(op, l, db, inp)
    else if op.Sweep? then SweepStatement(op, l, db, inp)
    else l
  }

  predicate MovePc(pc: Pc) {
    pc.ReadMax? || pc.UpdateStatus? || pc.InsertEvent? || pc.InsertDispatch? || pc.InsertVerdictAudit?
  }

  /** The statement together with the locks it takes, kept to the end of the transaction. */
  ghost function Execute(op: Op, l: Local, db: Db, inp: Input): Local {
    Statement(op, l, db, inp).(held := l.held + Taken(op, l, db, inp))
  }

  // ---------- the system ----------

  predicate Finished(l: Local) {
    l.pc.Done? || l.pc.Halted?
  }

  /** The lock is free, or already the client's own. */
  predicate Free(s: System, c: Client, k: Lock) {
    forall d | d in s.clients && d != c :: k !in s.clients[d].local.held
  }

  function OthersLocks(s: System, c: Client): set<Lock> {
    set d, k | d in s.clients.Keys && d != c && k in s.clients[d].local.held :: k
  }

  function BusyExecs(s: System, c: Client): set<ExecId> {
    set k | k in OthersLocks(s, c) && k.ExecLock? :: k.exec
  }

  function BusyRows(s: System, c: Client): set<ExecId> {
    set k | k in OthersLocks(s, c) && k.DispatchLock? :: k.dispatch
  }

  datatype Action =
    | Tick(now: int)
    | Begin(client: Client, op: Op)
    | Run(client: Client, input: Input)
    | Commit(client: Client)
    | Rollback(client: Client)

  /** Random ids collide neither with stored approvals nor with those of other starts in flight. */
  predicate FreshInFlight(s: System, op: Op) {
    && FreshIds(op, s.db)
    && (op.Start? ==> forall d | d in s.clients && s.clients[d].op.Start? ::
         s.clients[d].op.approvalId != op.approvalId)
  }

  /** A publisher marks only rows it has claimed, and rows are never deleted. */
  predicate MarksKnownRow(op: Op, db: Db) {
    op.MarkSucceeded? || op.MarkFailed? ==> op.exec in db.dispatches
  }

  predicate Enabled(s: System, c: Client, inp: Input)
    requires c in s.clients
  {
    var op, l := s.clients[c].op, s.clients[c].local;
    && !Finished(l) && inp.clock == s.clock
    && (match Need(op, l, s.db) case None => true case Some(k) => Free(s, c, k))
    && (l.pc.ClaimExpired? && op.Sweep? ==> SweepPicks(s.db, BusyExecs(s, c), op.limit, l.ch.begun, inp.approvals))
    && (l.pc.ClaimRows? && op.ClaimDispatches? ==> ClaimPicks(s.db, BusyRows(s, c), op.limit, l.ch.begun, inp.rows))
  }

  ghost predicate Next(env: Env, s: System, a: Action, s': System) {
    match a
    case Tick(now) => s.clock <= now && s' == s.(clock := now)
    case Begin(c, op) =>
      && c !in s.clients && WellFormedOp(env, op) && FreshInFlight(s, op) && MarksKnownRow(op, s.db)
      && s' == s.(clients := s.clients[c := Txn(op, FirstLocal(op, s.clock))])
    case Run(c, inp) =>
      && c in s.clients && Enabled(s, c, inp)
      && var t := s.clients[c];
         s' == s.(clients := s.clients[c := Txn(t.op, Execute(t.op, t.local, s.db, inp))])
    case Commit(c) =>
      && c in s.clients && s.clients[c].local.pc.Done?
      && var t := s.clients[c];
         s' == System(
           Merge(s.db, t.local.writes), s.clock, s.clients - {c}, s.log + [Entry(t.op, t.local.ch, t.local.reply)])
    case Rollback(c) => c in s.clients && s' == s.(clients := s.clients - {c})
  }

  ghost predicate Initial(s: System) {
    s.db == NO_ROWS && s.clients == map[] && s.log == []
  }

  /** A finite run: states and the actions between them. */
  ghost predicate IsRun(env: Env, states: seq<System>, actions: seq<Action>) {
    && |states| == |actions| + 1 && Initial(states[0])
    && forall i | 0 <= i < |actions| :: Next(env, states[i], actions[i], states[i + 1])
  }
}
