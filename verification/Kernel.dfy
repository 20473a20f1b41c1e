/**
 * What each service call does to the tables when it runs by itself: its writes and its reply.
 *
 * `Effect` is the reference meaning.  The service methods are proved against it, and the
 * statement-level system is proved to commit nothing else.
 */
module Kernel {
  import opened Base
  import opened StateMachine
  import opened Requests
  import opened Tables

  const EXPIRY_ACTOR := "logon.approval.expiry"
  const EXECUTION_QUEUE_NAME := "logon.execution"
  const APPROVAL_TTL := 24 * 60 * 60 * 1000

  datatype Op =
    | Start(request: Request, hash: string, key: Option<string>, slot: int, approvalId: ApprovalId)
    | Decide(approvalId: ApprovalId, exec: ExecId, approve: bool, decidedBy: string)
    | Sweep(limit: int)
    | Transition(exec: ExecId, status: Status, actor: string, note: string)
    | Fail(exec: ExecId, actor: string, reason: string)
    | ClaimDispatches(limit: int, lease: int)
    | MarkSucceeded(exec: ExecId)
    | MarkFailed(exec: ExecId, error: string)

  /**
   * What a transaction reads besides the tables: the database clock at BEGIN, `Date.now()`, and the rows a
   * claim picked.
   */
  datatype Choice = Choice(begun: int, clock: int, approvals: seq<ApprovalId>, rows: seq<ExecId>)

  datatype Error =
    | ExecutionNotFound | InvalidTransition | NotInApproval | ApprovalNotFound
    | ApprovalMismatch | ApprovalNotPending | TerminalExecution
    | IdempotencyConflict | NoEvents | RecordMissing
    | DuplicateExecution | EventKeyTaken

  datatype Reply =
    | Started
    | Reused(exec: ExecId)
    | Decided(verdict: ApprovalStatus)
    | ApprovalExpired
    | Swept(claimed: nat, rejected: nat, skipped: nat)
    | Moved(sequence: nat)
    | Claimed(rows: seq<ExecId>)
    | Marked
    | Refusal(error: Error)

  datatype Result = Result(writes: Db, reply: Reply)

  function Refuse(error: Error): Result {
    Result(NO_ROWS, Refusal(error))
  }

  // ---------- single statements, as additions to a transaction's writes ----------

  function PutTenant(db: Db, w: Db, t: TenantId): Db {
    if t in db.tenants then w else w.(tenants := w.tenants + {t})
  }

  function PutExecution(w: Db, e: ExecId, row: ExecRow): Db {
    w.(execs := w.execs[e := row])
  }

  function PutStatus(db: Db, w: Db, e: ExecId, s: Status): Db
    requires e in Merge(db, w).execs
  {
    w.(execs := w.execs[e := Merge(db, w).execs[e].(status := s)])
  }

  function PutEvent(w: Db, e: ExecId, n: nat, ev: Event): Db {
    w.(events := w.events[EventKey(e, n) := ev])
  }

  /** Insert, or do nothing when the id is taken. */
  function PutApproval(db: Db, w: Db, a: ApprovalId, row: ApprovalRow): Db {
    if a in Merge(db, w).approvals then w else w.(approvals := w.approvals[a := row])
  }

  function PutVerdict(db: Db, w: Db, a: ApprovalId, v: ApprovalStatus, who: string): Db
    requires a in Merge(db, w).approvals
  {
    w.(approvals := w.approvals[a := Merge(db, w).approvals[a].(status := v, decidedBy := Some(who))])
  }

  /** Insert, or do nothing when the execution already has a dispatch. */
  function PutDispatch(db: Db, w: Db, e: ExecId, now: int): Db {
    if e in Merge(db, w).dispatches then w
    else w.(dispatches := w.dispatches[e := NewDispatch(now)])
  }

  function NewDispatch(now: int): DispatchRow {
    DispatchRow(EXECUTION_QUEUE_NAME, Ready, 0, None, None, now, None)
  }

  function PutIdempotency(db: Db, w: Db, k: IdemKey, row: IdemRow): Db {
    if k in Merge(db, w).idempotency then w else w.(idempotency := w.idempotency[k := row])
  }

  function PutAudit(w: Db, row: AuditRow): Db {
    w.(audit := w.audit + [row])
  }

  /** Status update and event insert: the two writes that move an execution. */
  ghost function PutMove(db: Db, w: Db, e: ExecId, ev: Event): Db
    requires e in Merge(db, w).execs
  {
    PutEvent(PutStatus(db, w, e, ev.status), e, MaxSeq(Merge(db, w).events, e) + 1, ev)
  }

  // ---------- start ----------

  /** `if (options.idempotencyKey)`: an empty key is no key. */
  predicate Keyed(op: Op) {
    op.Start? && op.key.Some? && op.key.value != ""
  }

  function KeyOf(op: Op): IdemKey
    requires Keyed(op)
  {
    IdemKey(op.request.tenantId, op.key.value)
  }

  function FirstEvent(r: Request): Event {
    Event(InitialStatus(r), r.actorId, if Allowed(r) then Opened(r.objective, r.agentId, r.agentVersion) else Denied)
  }

  function NewApproval(r: Request, clock: int): ApprovalRow {
    ApprovalRow(r.executionId, r.tenantId, r.actorId, Pending, None, Some(clock + APPROVAL_TTL))
  }

  function PolicyAudit(r: Request): AuditRow {
    AuditRow(r.executionId, r.tenantId, "EXECUTION_POLICY_CHECK", r.actorId, Allowed(r))
  }

  function PutGate(db: Db, w: Db, op: Op, ch: Choice): Db
    requires op.Start?
  {
    match InitialStatus(op.request)
    case Approval => PutApproval(db, w, op.approvalId, NewApproval(op.request, ch.clock))
    case Intake => PutDispatch(db, w, op.request.executionId, ch.begun)
    case _ => w
  }

  /** The writes of a creating `start` after its first `stage` writes. */
  function StartWrites(op: Op, ch: Choice, db: Db, stage: nat): Db
    requires op.Start?
  {
    var r := op.request;
    if stage == 0 then PutTenant(db, NO_ROWS, r.tenantId)
    else
      var w := StartWrites(op, ch, db, stage - 1);
      match stage
      case 1 => PutExecution(w, r.executionId, ExecRow(r, InitialStatus(r)))
      case 2 => PutEvent(w, r.executionId, 1, FirstEvent(r))
      case 3 => PutGate(db, w, op, ch)
      case 4 => PutAudit(w, PolicyAudit(r))
      case _ => if Keyed(op) then PutIdempotency(db, w, KeyOf(op), IdemRow(r.executionId, op.hash)) else w
  }

  ghost function StartEffect(op: Op, ch: Choice, db: Db): Result
    requires op.Start?
  {
    var e := op.request.executionId;
    if Keyed(op) && KeyOf(op) in db.idempotency then
      var row := db.idempotency[KeyOf(op)];
      if row.hash != op.hash then Refuse(IdempotencyConflict)
      else if MaxSeq(db.events, row.exec) == 0 then Refuse(NoEvents)
      else Result(StartWrites(op, ch, db, 0), Reused(row.exec))
    else if e in db.execs then Refuse(DuplicateExecution)
    else if EventKey(e, 1) in db.events then Refuse(EventKeyTaken)
    else Result(StartWrites(op, ch, db, 5), Started)
  }

  // ---------- verdicts ----------

  function VerdictStatus(v: ApprovalStatus): Status {
    if v == Approved then Execution else Rejected
  }

  function VerdictEvent(a: ApprovalId, v: ApprovalStatus, who: string): Event {
    Event(VerdictStatus(v), who, Verdict(a, v))
  }

  function VerdictAudit(view: Db, e: ExecId, v: ApprovalStatus, who: string): AuditRow
    requires e in view.execs
  {
    AuditRow(e, view.execs[e].request.tenantId,
      if v == Expired then "EXECUTION_APPROVAL_EXPIRED" else "EXECUTION_APPROVAL_DECISION", who, v == Approved)
  }

  /**
   * What follows an approval's new status: the execution moves, an approved one is dispatched, and the audit
   * says so.
   */
  ghost function PutConsequence(db: Db, w: Db, e: ExecId, a: ApprovalId, v: ApprovalStatus, who: string, now: int): Db
    requires e in Merge(db, w).execs
  {
    var moved := PutMove(db, w, e, VerdictEvent(a, v, who));
    var sent := if v == Approved then PutDispatch(db, moved, e, now) else moved;
    PutAudit(sent, VerdictAudit(Merge(db, w), e, v, who))
  }

  predicate PastExpiry(row: ApprovalRow, clock: int) {
    row.expiresAt.Some? && row.expiresAt.value <= clock
  }

  function VerdictOf(op: Op, row: ApprovalRow, clock: int): ApprovalStatus
    requires op.Decide?
  {
    if PastExpiry(row, clock) then Expired else if op.approve then Approved else Refused
  }

  function VerdictActor(op: Op, v: ApprovalStatus): string
    requires op.Decide?
  {
    if v == Expired then EXPIRY_ACTOR else op.decidedBy
  }

  /** The reasons for which `decideApproval` refuses, in the order it tests them. */
  function DecideRefusal(op: Op, db: Db): Option<Error>
    requires op.Decide?
  {
    if op.exec !in db.execs then Some(ExecutionNotFound)
    else if db.execs[op.exec].status != Approval then Some(NotInApproval)
    else if op.approvalId !in db.approvals then Some(ApprovalNotFound)
    else
      var row := db.approvals[op.approvalId];
      if row.exec !in db.execs then Some(ApprovalNotFound)
      else if row.exec != op.exec || row.tenant != db.execs[row.exec].request.tenantId then Some(ApprovalMismatch)
      else if row.status != Pending then Some(ApprovalNotPending)
      else None
  }

  ghost function DecideEffect(op: Op, ch: Choice, db: Db): Result
    requires op.Decide?
  {
    var refusal := DecideRefusal(op, db);
    if refusal.Some? then Refuse(refusal.value)
    else
      var v := VerdictOf(op, db.approvals[op.approvalId], ch.clock);
      var who := VerdictActor(op, v);
      var w := PutVerdict(db, NO_ROWS, op.approvalId, v, who);
      Result(PutConsequence(db, w, op.exec, op.approvalId, v, who, ch.begun),
             if v == Expired then ApprovalExpired else Decided(v))
  }

  // ---------- sweep ----------

  /** Approvals past their time whose execution exists: what a sweep may claim. */
  predicate Sweepable(db: Db, a: ApprovalId, now: int) {
    && a in db.approvals && db.approvals[a].status == Pending
    && PastExpiry(db.approvals[a], now) && db.approvals[a].exec in db.execs
  }

  predicate RealClaims(db: Db, claims: seq<ApprovalId>) {
    forall i | 0 <= i < |claims| :: claims[i] in db.approvals && db.approvals[claims[i]].exec in db.execs
  }

  /** The first `k` claimed approvals marked expired. */
  function ExpireWrites(db: Db, claims: seq<ApprovalId>, k: nat): Db
    requires RealClaims(db, claims) && k <= |claims|
  {
    if k == 0 then NO_ROWS
    else PutVerdict(db, ExpireWrites(db, claims, k - 1), claims[k - 1], Expired, EXPIRY_ACTOR)
  }

  datatype Progress = Progress(writes: Db, rejected: nat, skipped: nat)

  /** All claims marked, and the first `k` executions handled. */
  ghost function SweepProgress(db: Db, claims: seq<ApprovalId>, k: nat): Progress
    requires RealClaims(db, claims) && k <= |claims|
  {
    if k == 0 then Progress(ExpireWrites(db, claims, |claims|), 0, 0)
    else
      var p := SweepProgress(db, claims, k - 1);
      var e := db.approvals[claims[k - 1]].exec;
      if Merge(db, p.writes).execs[e].status != Approval then p.(skipped := p.skipped + 1)
      else Progress(PutConsequence(db, p.writes, e, claims[k - 1], Expired, EXPIRY_ACTOR, 0), p.rejected + 1, p.skipped)
  }

  ghost function SweepEffect(ch: Choice, db: Db): Result
    requires RealClaims(db, ch.approvals)
  {
    var p := SweepProgress(db, ch.approvals, |ch.approvals|);
    Result(p.writes, Swept(|ch.approvals|, p.rejected, p.skipped))
  }

  // ---------- transition, fail ----------

  predicate Accepts(op: Op, from: Status)
    requires op.Transition? || op.Fail?
  {
    if op.Transition? then CanTransition(from, op.status) else !Terminal(from)
  }

  function MoveEvent(op: Op): Event
    requires op.Transition? || op.Fail?
  {
    if op.Transition? then Event(op.status, op.actor, Note(op.note))
    else Event(Failed, op.actor, Note(op.reason))
  }

  ghost function MoveEffect(op: Op, db: Db): Result
    requires op.Transition? || op.Fail?
  {
    if op.exec !in db.execs then Refuse(ExecutionNotFound)
    else if !Accepts(op, db.execs[op.exec].status) then
      Refuse(if op.Transition? then InvalidTransition else TerminalExecution)
    else Result(PutMove(db, NO_ROWS, op.exec, MoveEvent(op)), Moved(MaxSeq(db.events, op.exec) + 1))
  }

  // ---------- outbox ----------

  predicate Claimable(row: DispatchRow, now: int) {
    row.status == Ready || (row.status == Processing && row.lockedUntil.Some? && row.lockedUntil.value < now)
  }

  function ClaimedRow(row: DispatchRow, until: int): DispatchRow {
    row.(status := Processing, attempts := row.attempts + 1, lockedUntil := Some(until), lastError := None)
  }

  function SafeLease(lease: int): (safe: int)
    ensures 1000 <= safe <= 300000 && (1000 <= lease <= 300000 ==> safe == lease)
    ensures (lease < 1000 ==> safe == 1000) && (lease > 300000 ==> safe == 300000)
  {
    Clamp(lease, 1000, 300000)
  }

  function SafeLimit(limit: int): (safe: int)
    ensures 1 <= safe <= 100 && (1 <= limit <= 100 ==> safe == limit)
    ensures (limit < 1 ==> safe == 1) && (limit > 100 ==> safe == 100)
  {
    Clamp(limit, 1, 100)
  }

  function ClaimWrites(op: Op, ch: Choice, db: Db): Db
    requires op.ClaimDispatches?
  {
    NO_ROWS.(dispatches := map e | e in ch.rows && e in db.dispatches ::
      ClaimedRow(db.dispatches[e], ch.begun + SafeLease(op.lease)))
  }

  function MarkedRow(op: Op, row: DispatchRow, now: int): DispatchRow
    requires op.MarkSucceeded? || op.MarkFailed?
  {
    if op.MarkSucceeded? then
      row.(status := Dispatched, lockedUntil := None, dispatchedAt := Some(now), lastError := None)
    else
      row.(status := Ready, lockedUntil := None, lastError := Some(op.error[..Min(|op.error|, 2000)]))
  }

  /** An update by execution id: no guard on status or owner, and nothing happens when there is no row. */
  function MarkWrites(op: Op, ch: Choice, db: Db): Db
    requires op.MarkSucceeded? || op.MarkFailed?
  {
    if op.exec in db.dispatches
    then NO_ROWS.(dispatches := map[op.exec := MarkedRow(op, db.dispatches[op.exec], ch.begun)])
    else NO_ROWS
  }

  // ---------- which rows a claim may pick ----------

  /**
   * The rows a sweep claims: past-due approvals of unlocked executions, oldest expiry first, up to the limit.
   * Selecting the rows and locking their executions is one atomic step.
   */
  predicate SweepPicks(db: Db, busy: set<ExecId>, limit: int, now: int, claims: seq<ApprovalId>) {
    && (forall i | 0 <= i < |claims| :: Sweepable(db, claims[i], now) && db.approvals[claims[i]].exec !in busy)
    && (forall i, j | 0 <= i < j < |claims| :: claims[i] != claims[j])
    && |claims| <= SafeLimit(limit)
    && (forall b | b in db.approvals && Sweepable(db, b, now) && db.approvals[b].exec !in busy && b !in claims ::
          && |claims| == SafeLimit(limit)
          && forall i | 0 <= i < |claims| :: db.approvals[claims[i]].expiresAt.value <= db.approvals[b].expiresAt.value)
  }

  /** The dispatch rows a publisher claims: claimable and unlocked, oldest first, up to the limit. */
  predicate ClaimPicks(db: Db, busy: set<ExecId>, limit: int, now: int, rows: seq<ExecId>) {
    && (forall i | 0 <= i < |rows| ::
         rows[i] in db.dispatches && Claimable(db.dispatches[rows[i]], now) && rows[i] !in busy)
    && (forall i, j | 0 <= i < j < |rows| :: rows[i] != rows[j])
    && |rows| <= SafeLimit(limit)
    && (forall e | e in db.dispatches && Claimable(db.dispatches[e], now) && e !in busy && e !in rows ::
          && |rows| == SafeLimit(limit)
          && forall i | 0 <= i < |rows| :: db.dispatches[rows[i]].createdAt <= db.dispatches[e].createdAt)
  }

  /** The choice is one the statements allow when the given rows are locked by others. */
  predicate Legal(op: Op, ch: Choice, db: Db, busyExecs: set<ExecId>, busyRows: set<ExecId>) {
    && (op.Sweep? ==> SweepPicks(db, busyExecs, op.limit, ch.begun, ch.approvals))
    && (op.ClaimDispatches? ==> ClaimPicks(db, busyRows, op.limit, ch.begun, ch.rows))
  }

  /** Every claimed approval is pending, and no two claims are the same row. */
  predicate PendingClaims(db: Db, claims: seq<ApprovalId>) {
    && RealClaims(db, claims)
    && (forall i | 0 <= i < |claims| :: db.approvals[claims[i]].status == Pending)
    && (forall i, j | 0 <= i < j < |claims| :: claims[i] != claims[j])
  }

  // ---------- the whole interface ----------

  /** The choice names rows that exist, as every legal choice does. */
  predicate Fits(op: Op, ch: Choice, db: Db) {
    op.Sweep? ==> PendingClaims(db, ch.approvals)
  }

  /** Rows of the table, none twice, each claimable at the claim's time. */
  predicate ClaimableRows(db: Db, rows: seq<ExecId>, now: int) {
    && (forall i | 0 <= i < |rows| :: rows[i] in db.dispatches && Claimable(db.dispatches[rows[i]], now))
    && (forall i, j | 0 <= i < j < |rows| :: rows[i] != rows[j])
  }

  /** What is still true of a legal choice when its transaction commits. */
  predicate Grounded(op: Op, ch: Choice, db: Db) {
    Fits(op, ch, db) && (op.ClaimDispatches? ==> ClaimableRows(db, ch.rows, ch.begun))
  }

  lemma LegalFits(op: Op, ch: Choice, db: Db, busyExecs: set<ExecId>, busyRows: set<ExecId>)
    requires Legal(op, ch, db, busyExecs, busyRows)
    ensures Fits(op, ch, db)
  {
    if op.Sweep? {
      forall i | 0 <= i < |ch.approvals|
        ensures ch.approvals[i] in db.approvals && db.approvals[ch.approvals[i]].exec in db.execs
        ensures db.approvals[ch.approvals[i]].status == Pending
      {
        assert Sweepable(db, ch.approvals[i], ch.begun);
      }
    }
  }

  ghost function Effect(op: Op, ch: Choice, db: Db): Result
    requires Fits(op, ch, db)
  {
    match op
    case Start(_, _, _, _, _) => StartEffect(op, ch, db)
    case Decide(_, _, _, _) => DecideEffect(op, ch, db)
    case Sweep(_) => SweepEffect(ch, db)
    case Transition(_, _, _, _) => MoveEffect(op, db)
    case Fail(_, _, _) => MoveEffect(op, db)
    case ClaimDispatches(_, _) => Result(ClaimWrites(op, ch, db), Claimed(ch.rows))
    case MarkSucceeded(_) => Result(MarkWrites(op, ch, db), Marked)
    case MarkFailed(_, _) => Result(MarkWrites(op, ch, db), Marked)
  }

  /** The tables after the call commits. */
  ghost function After(op: Op, ch: Choice, db: Db): Db
    requires Fits(op, ch, db)
  {
    Merge(db, Effect(op, ch, db).writes)
  }

  /** A call as the service makes it: a validated request, its hash, and the lock key of `tenant:key`. */
  predicate WellFormedOp(env: Env, op: Op) {
    op.Start? ==>
      && Valid(op.request)
      && op.hash == RequestHash(env, op.request)
      && (Keyed(op) ==> op.slot == SlotOf(env, KeyOf(op)))
  }

  function SlotOf(env: Env, k: IdemKey): int {
    env.advisory(k.tenant + ":" + k.key)
  }

  /** Approval ids are drawn at random; the model takes them as new. */
  predicate FreshIds(op: Op, db: Db) {
    op.Start? ==> op.approvalId !in db.approvals
  }

  // ---------- the same statements, on tables ----------

  function WithStatus(t: Db, e: ExecId, s: Status): Db
    requires e in t.execs
  {
    t.(execs := t.execs[e := t.execs[e].(status := s)])
  }

  ghost function WithMove(t: Db, e: ExecId, ev: Event): Db
    requires e in t.execs
  {
    WithStatus(t, e, ev.status).(events := t.events[EventKey(e, MaxSeq(t.events, e) + 1) := ev])
  }

  function WithVerdict(t: Db, a: ApprovalId, v: ApprovalStatus, who: string): Db
    requires a in t.approvals
  {
    t.(approvals := t.approvals[a := t.approvals[a].(status := v, decidedBy := Some(who))])
  }

  function WithDispatch(t: Db, e: ExecId, now: int): Db {
    if e in t.dispatches then t else t.(dispatches := t.dispatches[e := NewDispatch(now)])
  }

  function WithAudit(t: Db, row: AuditRow): Db {
    t.(audit := t.audit + [row])
  }

  lemma UpdateUnderMerge<K, V>(m: map<K, V>, w: map<K, V>, k: K, v: V)
    ensures m + w[k := v] == (m + w)[k := v]
  {
  }

  lemma MergeOneRow<K, V>(m: map<K, V>, k: K, v: V)
    ensures m + map[k := v] == m[k := v]
    ensures m + map[] == m
  {
  }

  lemma MergeVerdict(db: Db, w: Db, a: ApprovalId, v: ApprovalStatus, who: string)
    requires a in Merge(db, w).approvals
    ensures Merge(db, PutVerdict(db, w, a, v, who)) == WithVerdict(Merge(db, w), a, v, who)
  {
  }

  lemma MergeMove(db: Db, w: Db, e: ExecId, ev: Event)
    requires e in Merge(db, w).execs
    ensures Merge(db, PutMove(db, w, e, ev)) == WithMove(Merge(db, w), e, ev)
  {
    var t := Merge(db, w);
    UpdateUnderMerge(db.execs, w.execs, e, t.execs[e].(status := ev.status));
    UpdateUnderMerge(db.events, w.events, EventKey(e, MaxSeq(t.events, e) + 1), ev);
  }

  lemma MergeDispatch(db: Db, w: Db, e: ExecId, now: int)
    ensures Merge(db, PutDispatch(db, w, e, now)) == WithDispatch(Merge(db, w), e, now)
  {
    UpdateUnderMerge(db.dispatches, w.dispatches, e, NewDispatch(now));
  }

  lemma MergeAudit(db: Db, w: Db, row: AuditRow)
    ensures Merge(db, PutAudit(w, row)) == WithAudit(Merge(db, w), row)
  {
  }

  /** What claims and marks do to a dispatch row. */
  function TouchedRow(op: Op, ch: Choice, e: ExecId, row: DispatchRow): DispatchRow
    requires op.ClaimDispatches? || op.MarkSucceeded? || op.MarkFailed?
  {
    if op.ClaimDispatches? then
      if e in ch.rows then ClaimedRow(row, ch.begun + SafeLease(op.lease)) else row
    else if op.exec == e then MarkedRow(op, row, ch.begun) else row
  }

  lemma MergeDispatchRows(db: Db, rows: map<ExecId, DispatchRow>)
    ensures Merge(db, NO_ROWS.(dispatches := rows)) == db.(dispatches := db.dispatches + rows)
  {
  }

  lemma AfterTouch(op: Op, ch: Choice, db: Db)
    requires op.ClaimDispatches? || op.MarkSucceeded? || op.MarkFailed?
    ensures var t := After(op, ch, db);
      && t == db.(dispatches := t.dispatches) && t.dispatches.Keys == db.dispatches.Keys
      && (forall e | e in db.dispatches :: t.dispatches[e] == TouchedRow(op, ch, e, db.dispatches[e]))
  {
    hide Merge, ClaimedRow, MarkedRow;
    var w := Effect(op, ch, db).writes;
    assert w == NO_ROWS.(dispatches := w.dispatches);
    MergeDispatchRows(db, w.dispatches);
  }

  /** The consequence of a verdict, on tables. */
  ghost function WithConsequence(t: Db, e: ExecId, a: ApprovalId, v: ApprovalStatus, who: string, now: int): Db
    requires e in t.execs
  {
    var moved := WithMove(t, e, VerdictEvent(a, v, who));
    WithAudit(if v == Approved then WithDispatch(moved, e, now) else moved, VerdictAudit(t, e, v, who))
  }

  lemma MergeConsequence(db: Db, w: Db, e: ExecId, a: ApprovalId, v: ApprovalStatus, who: string, now: int)
    requires e in Merge(db, w).execs
    ensures Merge(db, PutConsequence(db, w, e, a, v, who, now)) == WithConsequence(Merge(db, w), e, a, v, who, now)
  {
    var moved := PutMove(db, w, e, VerdictEvent(a, v, who));
    MergeMove(db, w, e, VerdictEvent(a, v, who));
    MergeDispatch(db, moved, e, now);
    var sent := if v == Approved then PutDispatch(db, moved, e, now) else moved;
    MergeAudit(db, sent, VerdictAudit(Merge(db, w), e, v, who));
  }

  lemma ConsequenceShape(t: Db, e: ExecId, a: ApprovalId, v: ApprovalStatus, who: string, now: int)
    requires e in t.execs
    ensures var u := WithConsequence(t, e, a, v, who, now);
      && u.execs.Keys == t.execs.Keys && u.approvals == t.approvals && u.idempotency == t.idempotency
      && u.execs[e] == t.execs[e].(status := VerdictStatus(v))
      && (forall d | d in t.execs && d != e :: u.execs[d] == t.execs[d])
      && (v != Approved ==> u.dispatches == t.dispatches)
  {
  }

  /** A decided approval, on tables. */
  lemma AfterDecide(op: Op, ch: Choice, db: Db)
    requires op.Decide? && DecideRefusal(op, db).None?
    ensures var v := VerdictOf(op, db.approvals[op.approvalId], ch.clock);
      var who := VerdictActor(op, v);
      After(op, ch, db)
        == WithConsequence(WithVerdict(db, op.approvalId, v, who), op.exec, op.approvalId, v, who, ch.begun)
  {
    var v := VerdictOf(op, db.approvals[op.approvalId], ch.clock);
    var who := VerdictActor(op, v);
    MergeNothing(db);
    MergeVerdict(db, NO_ROWS, op.approvalId, v, who);
    MergeConsequence(db, PutVerdict(db, NO_ROWS, op.approvalId, v, who), op.exec, op.approvalId, v, who, ch.begun);
  }
}
