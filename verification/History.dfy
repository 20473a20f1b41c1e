/**
 * What the tables owe to the history of commits, in every interleaving: an approval lives for the day
 * after the clock of its start, neither shorter nor longer, and a dispatch row is as old as the
 * transaction that inserted it, so that the outbox is worked off in the order of those transactions.
 */
module History {
  import opened Base
  import opened Requests
  import opened Tables
  import opened Kernel
  import opened Integrity
  import opened Sweeps
  import opened Closed
  import opened Outcomes
  import opened Interleaving
  import opened Runs
  import opened Levels
  import Publishing

  // ---------- commits ----------

  /** The commit created an execution that waits for approval `a`. */
  predicate Opened(entry: Entry, a: ApprovalId) {
    entry.op.Start? && entry.reply == Started && Waits(entry.op.request) && entry.op.approvalId == a
  }

  /** The commit created `e` as an open execution, or granted it. */
  predicate Inserts(entry: Entry, e: ExecId) {
    || (entry.op.Start? && entry.reply == Started && Opens(entry.op.request) && entry.op.request.executionId == e)
    || (entry.op.Decide? && entry.reply == Decided(Approved) && entry.op.exec == e)
  }

  /** The commit decided `a`, one way or another. */
  predicate Decides(entry: Entry, a: ApprovalId) {
    entry.op.Decide? && entry.op.approvalId == a && !entry.reply.Refusal?
  }

  // ---------- what one call does to approvals and dispatches ----------

  ghost predicate ApprovalsFollow(entry: Entry, db: Db, t: Db) {
    && (forall a | a in db.approvals ::
          && a in t.approvals && t.approvals[a].exec == db.approvals[a].exec
          && t.approvals[a].expiresAt == db.approvals[a].expiresAt)
    && (forall a | a in t.approvals && a !in db.approvals :: Opened(entry, a))
    && (forall a | Opened(entry, a) ::
          && a !in db.approvals && a in t.approvals && t.approvals[a].exec == entry.op.request.executionId
          && t.approvals[a].expiresAt == Some(entry.ch.clock + 86400000))
  }

  ghost predicate DispatchesFollow(entry: Entry, db: Db, t: Db) {
    && (forall e | e in db.dispatches :: e in t.dispatches && t.dispatches[e].createdAt == db.dispatches[e].createdAt)
    && (forall e | e in t.dispatches && e !in db.dispatches :: Inserts(entry, e))
    && (forall e | Inserts(entry, e) ::
          e !in db.dispatches && e in t.dispatches && t.dispatches[e].createdAt == entry.ch.begun)
  }

  lemma StartedFollow(op: Op, ch: Choice, db: Db, reply: Reply, t: Db)
    requires op.Start? && FreshIds(op, db) && StartOutcome(op, ch, db, reply, t)
    ensures ApprovalsFollow(Entry(op, ch, reply), db, t)
    ensures DispatchesFollow(Entry(op, ch, reply), db, t)
  {
    hide UsedKey, Blank;
  }

  lemma DecidedApprovals(op: Op, ch: Choice, db: Db, reply: Reply, t: Db)
    requires op.Decide? && DecisionOutcome(op, ch, db, reply, t)
    ensures ApprovalsFollow(Entry(op, ch, reply), db, t)
  {
    hide OneMore, SameLog, BeforeExpiry;
    if !reply.Refusal? { UnrefusedNames(op, db); }
    hide DecideRefusal;
  }

  lemma DecidedDispatches(op: Op, ch: Choice, db: Db, reply: Reply, t: Db)
    requires op.Decide? && DecisionOutcome(op, ch, db, reply, t)
    ensures DispatchesFollow(Entry(op, ch, reply), db, t)
  {
    hide OneMore, SameLog, BeforeExpiry;
    if !reply.Refusal? { UnrefusedNames(op, db); }
    hide DecideRefusal;
  }

  lemma ExpiredFollow(op: Op, ch: Choice, db: Db, reply: Reply, t: Db, claims: seq<ApprovalId>)
    requires op.Sweep? && JustExpired(db, claims, |claims|, t) && t.dispatches == db.dispatches
    ensures ApprovalsFollow(Entry(op, ch, reply), db, t)
    ensures DispatchesFollow(Entry(op, ch, reply), db, t)
  {
  }

  lemma UntouchedFollow(op: Op, ch: Choice, db: Db, reply: Reply, t: Db)
    requires !op.Start? && !op.Decide? && t.approvals == db.approvals && t.dispatches.Keys == db.dispatches.Keys
    requires forall e | e in db.dispatches :: t.dispatches[e].createdAt == db.dispatches[e].createdAt
    ensures ApprovalsFollow(Entry(op, ch, reply), db, t)
    ensures DispatchesFollow(Entry(op, ch, reply), db, t)
  {
  }

  lemma OutboxKeepsAges(op: Op, ch: Choice, db: Db)
    requires op.ClaimDispatches? || op.MarkSucceeded? || op.MarkFailed?
    ensures var t := Kernel.After(op, ch, db);
      && t.approvals == db.approvals && t.dispatches.Keys == db.dispatches.Keys
      && forall e | e in db.dispatches :: t.dispatches[e].createdAt == db.dispatches[e].createdAt
  {
    if op.ClaimDispatches? { ClaimIsExact(op.limit, op.lease, ch, db); } else { MarkIsExact(op, ch, db); }
    hide Effect, Kernel.After;
  }

  lemma MovesKeepRows(op: Op, ch: Choice, db: Db)
    requires op.Transition? || op.Fail?
    ensures Kernel.After(op, ch, db).approvals == db.approvals && Kernel.After(op, ch, db).dispatches == db.dispatches
  {
    MoveIsExact(op, ch, db);
    hide Effect, Kernel.After, OneMore, SameLog;
  }

  lemma CallFollows(env: Env, op: Op, ch: Choice, db: Db)
    requires Integral(env, db) && FreshIds(op, db) && Fits(op, ch, db)
    ensures ApprovalsFollow(Entry(op, ch, Effect(op, ch, db).reply), db, Kernel.After(op, ch, db))
    ensures DispatchesFollow(Entry(op, ch, Effect(op, ch, db).reply), db, Kernel.After(op, ch, db))
  {
    assert op.Sweep? ==> PendingClaims(db, ch.approvals);
    hide *;
    var reply, t := Effect(op, ch, db).reply, Kernel.After(op, ch, db);
    if op.Start? {
      StartIsExact(env, op, ch, db);
      StartedFollow(op, ch, db, reply, t);
    } else if op.Decide? {
      DecisionOutcomes(env, op, ch, db);
      DecidedApprovals(op, ch, db, reply, t);
      DecidedDispatches(op, ch, db, reply, t);
    } else if op.Sweep? {
      IntegralGate(env, db);
      SweepIsExact(op, ch, db);
      ExpiredFollow(op, ch, db, reply, t, ch.approvals);
    } else {
      if op.Transition? || op.Fail? { MovesKeepRows(op, ch, db); } else { OutboxKeepsAges(op, ch, db); }
      UntouchedFollow(op, ch, db, reply, t);
    }
  }

  lemma ClockDecides(op: Op, ch: Choice, db: Db, reply: Reply, t: Db)
    requires op.Decide? && DecisionOutcome(op, ch, db, reply, t) && !reply.Refusal?
    ensures op.approvalId in db.approvals
    ensures db.approvals[op.approvalId].expiresAt.Some? ==>
      reply ==
        if ch.clock < db.approvals[op.approvalId].expiresAt.value then Decided(if op.approve then Approved else Refused)
        else ApprovalExpired
  {
    UnrefusedNames(op, db);
    hide Settled, DecideRefusal;
  }

  /** An unrefused decision is answered by its clock and the approval's expiry. */
  lemma DecisionByTheClock(env: Env, op: Op, ch: Choice, db: Db)
    requires Integral(env, db) && op.Decide? && !Effect(op, ch, db).reply.Refusal?
    ensures op.approvalId in db.approvals && db.approvals[op.approvalId].expiresAt.Some?
    ensures Effect(op, ch, db).reply ==
      if ch.clock < db.approvals[op.approvalId].expiresAt.value then Decided(if op.approve then Approved else Refused)
      else ApprovalExpired
  {
    assert Fits(op, ch, db);
    hide *;
    DecisionOutcomes(env, op, ch, db);
    ClockDecides(op, ch, db, Effect(op, ch, db).reply, Kernel.After(op, ch, db));
    ApprovalHasExpiry(env, db, op.approvalId);
  }

  lemma ApprovalHasExpiry(env: Env, db: Db, a: ApprovalId)
    requires Integral(env, db) && a in db.approvals
    ensures db.approvals[a].expiresAt.Some?
  {
    hide ExecutionsOk, DispatchesOk, IdempotencyOk, BeginsWith;
    assert ApprovalOk(db, a);
  }

  /** An approval becomes EXPIRED only by a decision at or after its expiry, or by a sweep that has claimed it. */
  lemma NewlyExpired(env: Env, op: Op, ch: Choice, db: Db, a: ApprovalId)
    requires Integral(env, db) && FreshIds(op, db) && Fits(op, ch, db)
    requires var t := Kernel.After(op, ch, db); a in t.approvals && t.approvals[a].status == Expired
    ensures a in db.approvals
    ensures || db.approvals[a].status == Expired
            || (op.Decide? && op.approvalId == a && !BeforeExpiry(db, a, ch.clock))
            || (op.Sweep? && a in ch.approvals)
  {
    assert op.Sweep? ==> PendingClaims(db, ch.approvals);
    hide Integral, Effect, Kernel.After, StartOutcome, DecisionOutcome, JustExpired, SweptTo, ApprovalsOk;
    hide PendingClaims, BeforeExpiry;
    var reply, t := Effect(op, ch, db).reply, Kernel.After(op, ch, db);
    if op.Start? {
      StartIsExact(env, op, ch, db);
      StartExpiresNone(op, ch, db, reply, t, a);
    } else if op.Decide? {
      DecisionOutcomes(env, op, ch, db);
      DecisionExpires(op, ch, db, reply, t, a);
    } else if op.Sweep? {
      IntegralGate(env, db);
      SweepIsExact(op, ch, db);
      SweepExpires(db, ch.approvals, t, a);
    } else if op.Transition? || op.Fail? {
      MovesKeepRows(op, ch, db);
    } else {
      OutboxKeepsAges(op, ch, db);
    }
  }

  lemma StartExpiresNone(op: Op, ch: Choice, db: Db, reply: Reply, t: Db, a: ApprovalId)
    requires op.Start? && StartOutcome(op, ch, db, reply, t) && a in t.approvals && t.approvals[a].status == Expired
    ensures a in db.approvals && db.approvals[a].status == Expired
  {
    hide UsedKey, Blank;
  }

  lemma DecisionExpires(op: Op, ch: Choice, db: Db, reply: Reply, t: Db, a: ApprovalId)
    requires op.Decide? && DecisionOutcome(op, ch, db, reply, t) && a in t.approvals && t.approvals[a].status == Expired
    ensures a in db.approvals
    ensures db.approvals[a].status == Expired || (op.approvalId == a && !BeforeExpiry(db, a, ch.clock))
  {
    if !reply.Refusal? { UnrefusedNames(op, db); }
    hide OneMore, SameLog, BeforeExpiry, DecideRefusal;
  }

  lemma SweepExpires(db: Db, claims: seq<ApprovalId>, t: Db, a: ApprovalId)
    requires JustExpired(db, claims, |claims|, t) && a in t.approvals && t.approvals[a].status == Expired
    ensures a in db.approvals && (db.approvals[a].status == Expired || a in claims)
  {
    assert claims[..|claims|] == claims;
  }

  // ---------- clocks and claims of transactions in flight ----------

  lemma ChoiceKept(op: Op, l: Local, db: Db, inp: Input)
    ensures var ch := Execute(op, l, db, inp).ch;
      && (ch.clock == l.ch.clock || ch.clock == inp.clock)
      && (ch.approvals == l.ch.approvals || (op.Sweep? && l.pc.ClaimExpired? && ch.approvals == inp.approvals))
  {
    hide Merge, MaxSeq, Taken, PutTenant, PutGate, PutIdempotency, PutVerdict, PutStatus, PutDispatch;
    hide VerdictAudit, Auditor;
    hide ClaimWrites, MarkWrites, PolicyAudit, FirstEvent, Allowed, VerdictOf, VerdictActor, Accepts, MoveEvent;
    if MovePc(l.pc) {
      hide StartStatement, DecideStatement, SweepStatement;
    } else if op.Start? {
      hide DecideStatement, SweepStatement, MoveStatement;
    } else if op.Decide? {
      hide StartStatement, SweepStatement, MoveStatement;
    } else {
      hide StartStatement, DecideStatement, MoveStatement;
    }
  }

  /** The approval was due at that time. */
  predicate DueBy(db: Db, a: ApprovalId, time: int) {
    a in db.approvals && db.approvals[a].expiresAt.Some? && db.approvals[a].expiresAt.value <= time
  }

  /** The transaction has read no clock of the future and claimed no approval before its time. */
  ghost predicate Timed(s: System, l: Local) {
    && l.ch.clock <= s.clock && l.ch.begun <= s.clock
    && forall a | a in l.ch.approvals :: DueBy(s.db, a, l.ch.begun)
  }

  ghost predicate ExpiredInTime(s: System) {
    forall a | a in s.db.approvals && s.db.approvals[a].status == Expired :: DueBy(s.db, a, s.clock)
  }

  ghost predicate AllTimed(s: System) {
    ExpiredInTime(s) && forall c | c in s.clients :: Timed(s, s.clients[c].local)
  }

  lemma PicksAreDue(s: System, c: Client, inp: Input, a: ApprovalId)
    requires c in s.clients && Enabled(s, c, inp) && s.clients[c].op.Sweep? && s.clients[c].local.pc.ClaimExpired?
    requires a in inp.approvals
    ensures DueBy(s.db, a, s.clients[c].local.ch.begun)
  {
    var i :| 0 <= i < |inp.approvals| && inp.approvals[i] == a;
    SweepSelection(s.db, BusyExecs(s, c), s.clients[c].op.limit, s.clients[c].local.ch.begun, inp.approvals);
    hide SweepPicks, Need, Free, BusyExecs;
  }

  lemma RunStaysTimed(env: Env, s: System, c: Client, inp: Input, s': System)
    requires AllTimed(s) && Next(env, s, Run(c, inp), s')
    ensures AllTimed(s')
  {
    var op, l := s.clients[c].op, s.clients[c].local;
    ChoiceKept(op, l, s.db, inp);
    BegunKept(op, l, s.db, inp);
    if op.Sweep? && l.pc.ClaimExpired? {
      forall a | a in inp.approvals ensures DueBy(s.db, a, l.ch.begun) { PicksAreDue(s, c, inp, a); }
    }
    hide Execute, DueBy, SweepPicks, ClaimPicks, Need, Free;
  }

  lemma StillDue(entry: Entry, db: Db, t: Db, a: ApprovalId, time: int, later: int)
    requires ApprovalsFollow(entry, db, t) && DueBy(db, a, time) && time <= later
    ensures DueBy(t, a, later)
  {
  }

  lemma CommitStaysTimed(env: Env, s: System, c: Client, s': System)
    requires Inv(env, s) && AllTimed(s) && Next(env, s, Commit(c), s')
    ensures AllTimed(s')
  {
    CommitFacts(env, s, c, s');
    var op, ch := s.clients[c].op, s.clients[c].local.ch;
    assert Timed(s, s.clients[c].local) && Integral(env, s.db);
    assert s'.clock == s.clock && s'.clients == s.clients - {c};
    var entry := Entry(op, ch, Effect(op, ch, s.db).reply);
    hide Inv, Next, Integral, Kernel.After, Effect, ClaimableRows, PendingClaims, WellFormedOp, FreshIds;
    CallFollows(env, op, ch, s.db);
    hide ApprovalsFollow, DispatchesFollow;
    forall a | a in s'.db.approvals && s'.db.approvals[a].status == Expired ensures DueBy(s'.db, a, s'.clock) {
      NewlyExpired(env, op, ch, s.db, a);
      if op.Decide? && op.approvalId == a && !BeforeExpiry(s.db, a, ch.clock) { assert DueBy(s.db, a, s.clock); }
      StillDue(entry, s.db, s'.db, a, s.clock, s'.clock);
    }
    forall d | d in s'.clients ensures Timed(s', s'.clients[d].local) {
      var l := s'.clients[d].local;
      assert Timed(s, l);
      forall a | a in l.ch.approvals ensures DueBy(s'.db, a, l.ch.begun) {
        StillDue(entry, s.db, s'.db, a, l.ch.begun, l.ch.begun);
      }
    }
  }

  lemma StepStaysTimed(env: Env, s: System, a: Action, s': System)
    requires Inv(env, s) && AllTimed(s) && Next(env, s, a, s')
    ensures AllTimed(s')
  {
    match a
    case Commit(c) => hide Inv, AllTimed, Next; CommitStaysTimed(env, s, c, s');
    case Run(c, inp) => hide Inv, AllTimed, Next; RunStaysTimed(env, s, c, inp, s');
    case _ => hide Inv, WellFormedOp;
  }

  // ---------- the history ----------

  ghost predicate ApprovalsTold(log: seq<Entry>, db: Db) {
    && (forall a | a in db.approvals :: exists j :: 0 <= j < |log| && Opened(log[j], a))
    && (forall j, a | 0 <= j < |log| && Opened(log[j], a) ::
          && a in db.approvals && db.approvals[a].exec == log[j].op.request.executionId
          && db.approvals[a].expiresAt == Some(log[j].ch.clock + 86400000))
  }

  ghost predicate DispatchesTold(log: seq<Entry>, db: Db) {
    && (forall e | e in db.dispatches :: exists j :: 0 <= j < |log| && Inserts(log[j], e))
    && (forall j, e | 0 <= j < |log| && Inserts(log[j], e) ::
          e in db.dispatches && db.dispatches[e].createdAt == log[j].ch.begun)
  }

  /** What the decision `entry` answers, about an approval opened when `Date.now()` was `since`. */
  predicate AnsweredBy(entry: Entry, since: int)
    requires entry.op.Decide?
  {
    entry.reply ==
      if entry.ch.clock < since + 86400000 then Decided(if entry.op.approve then Approved else Refused)
      else ApprovalExpired
  }

  ghost predicate VerdictsTold(log: seq<Entry>) {
    && (forall j, k, a | 0 <= j < |log| && 0 <= k < |log| && Opened(log[j], a) && Decides(log[k], a) ::
          j < k && AnsweredBy(log[k], log[j].ch.clock))
    && (forall j, k, a | 0 <= j < |log| && 0 <= k < |log| && Opened(log[j], a)
          && log[k].op.Sweep? && a in log[k].ch.approvals ::
          j < k && log[j].ch.clock + 86400000 <= log[k].ch.begun)
  }

  ghost predicate Told(log: seq<Entry>, db: Db) {
    ApprovalsTold(log, db) && DispatchesTold(log, db) && VerdictsTold(log)
  }

  lemma ApprovalsGoOn(log: seq<Entry>, db: Db, entry: Entry, t: Db)
    requires ApprovalsTold(log, db) && ApprovalsFollow(entry, db, t)
    ensures ApprovalsTold(log + [entry], t)
  {
    hide Opened;
    var all := log + [entry];
    assert all[|log|] == entry && forall j | 0 <= j < |log| :: all[j] == log[j];
    forall a | a in t.approvals ensures exists j :: 0 <= j < |all| && Opened(all[j], a) {
      if a in db.approvals {
        var j :| 0 <= j < |log| && Opened(log[j], a);
        assert Opened(all[j], a);
      } else {
        assert Opened(all[|log|], a);
      }
    }
  }

  lemma DispatchesGoOn(log: seq<Entry>, db: Db, entry: Entry, t: Db)
    requires DispatchesTold(log, db) && DispatchesFollow(entry, db, t)
    ensures DispatchesTold(log + [entry], t)
  {
    var all := log + [entry];
    assert all[|log|] == entry && forall j | 0 <= j < |log| :: all[j] == log[j];
    hide Inserts;
    forall e | e in t.dispatches ensures exists j :: 0 <= j < |all| && Inserts(all[j], e) {
      if e in db.dispatches {
        var j :| 0 <= j < |log| && Inserts(log[j], e);
        assert Inserts(all[j], e);
      } else {
        assert Inserts(all[|log|], e);
      }
    }
  }

  /** The approvals that the call of `entry` names are there before it, with the expiry that it goes by. */
  ghost predicate GoesByExpiry(entry: Entry, db: Db) {
    && (forall a | Decides(entry, a) ::
          && a in db.approvals && db.approvals[a].expiresAt.Some?
          && AnsweredBy(entry, db.approvals[a].expiresAt.value - 86400000))
    && (entry.op.Sweep? ==> forall a | a in entry.ch.approvals :: DueBy(db, a, entry.ch.begun))
  }

  lemma VerdictsGoOn(log: seq<Entry>, db: Db, entry: Entry, t: Db)
    requires VerdictsTold(log) && ApprovalsTold(log, db) && ApprovalsFollow(entry, db, t) && GoesByExpiry(entry, db)
    requires NamedStay(log, db)
    ensures VerdictsTold(log + [entry])
  {
    var all := log + [entry];
    assert all[|log|] == entry && forall j | 0 <= j < |log| :: all[j] == log[j];
    hide Opened, Decides;
  }

  /** Approvals once named stay. */
  ghost predicate NamedStay(log: seq<Entry>, db: Db) {
    forall k, a | 0 <= k < |log| && (Decides(log[k], a) || (log[k].op.Sweep? && a in log[k].ch.approvals)) ::
      a in db.approvals
  }

  lemma NamesGoOn(log: seq<Entry>, db: Db, entry: Entry, t: Db)
    requires NamedStay(log, db) && ApprovalsFollow(entry, db, t) && GoesByExpiry(entry, db)
    ensures NamedStay(log + [entry], t)
  {
    var all := log + [entry];
    assert all[|log|] == entry && forall j | 0 <= j < |log| :: all[j] == log[j];
    hide Opened, Decides;
  }

  lemma CommitTold(env: Env, s: System, c: Client, s': System)
    requires Inv(env, s) && AllTimed(s) && Next(env, s, Commit(c), s') && Told(s.log, s.db) && NamedStay(s.log, s.db)
    ensures Told(s'.log, s'.db) && NamedStay(s'.log, s'.db)
  {
    StepRefines(env, s, Commit(c), s');
    CommitFacts(env, s, c, s');
    var op, ch := s.clients[c].op, s.clients[c].local.ch;
    assert Timed(s, s.clients[c].local) && Integral(env, s.db);
    hide *;
    var entry := Entry(op, ch, Effect(op, ch, s.db).reply);
    CommitIsLogged(s, c, s');
    TimedClaims(env, s, c);
    CallFollows(env, op, ch, s.db);
    CallGoesByExpiry(env, op, ch, s.db);
    ToldParts(s.log, s.db);
    ApprovalsGoOn(s.log, s.db, entry, s'.db);
    DispatchesGoOn(s.log, s.db, entry, s'.db);
    VerdictsGoOn(s.log, s.db, entry, s'.db);
    NamesGoOn(s.log, s.db, entry, s'.db);
    PartsTold(s'.log, s'.db);
  }

  lemma CommitIsLogged(s: System, c: Client, s': System)
    requires Refines(s, Commit(c), s') && c in s.clients && Fits(s.clients[c].op, s.clients[c].local.ch, s.db)
    ensures var op, ch := s.clients[c].op, s.clients[c].local.ch;
      s'.log == s.log + [Entry(op, ch, Effect(op, ch, s.db).reply)]
  {
    hide Effect, Kernel.After;
  }

  lemma TimedClaims(env: Env, s: System, c: Client)
    requires Inv(env, s) && AllTimed(s) && c in s.clients
    ensures Integral(env, s.db)
    ensures forall a | a in s.clients[c].local.ch.approvals :: DueBy(s.db, a, s.clients[c].local.ch.begun)
  {
    hide Integral, ClientOk;
    assert Timed(s, s.clients[c].local);
  }

  lemma CallGoesByExpiry(env: Env, op: Op, ch: Choice, db: Db)
    requires Integral(env, db) && Fits(op, ch, db)
    requires forall a | a in ch.approvals :: DueBy(db, a, ch.begun)
    ensures GoesByExpiry(Entry(op, ch, Effect(op, ch, db).reply), db)
  {
    hide Integral, Effect, DueBy;
    if op.Decide? && !Effect(op, ch, db).reply.Refusal? { DecisionByTheClock(env, op, ch, db); }
  }

  lemma ToldParts(log: seq<Entry>, db: Db)
    requires Told(log, db)
    ensures ApprovalsTold(log, db) && DispatchesTold(log, db) && VerdictsTold(log)
  {
  }

  lemma PartsTold(log: seq<Entry>, db: Db)
    requires ApprovalsTold(log, db) && DispatchesTold(log, db) && VerdictsTold(log)
    ensures Told(log, db)
  {
  }

  lemma {:induction false} RunsTellTheirHistory(env: Env, states: seq<System>, actions: seq<Action>, n: nat)
    requires IsRun(env, states, actions) && n < |states|
    ensures AllTimed(states[n]) && Told(states[n].log, states[n].db) && NamedStay(states[n].log, states[n].db)
  {
    hide Inv, Next, Replay, AllTimed, Told, NamedStay, Refines;
    if n == 0 {
      NothingToTell(states[0]);
    } else {
      RunsTellTheirHistory(env, states, actions, n - 1);
      RunsAreSerial(env, states, actions, n - 1);
      var s, a, s' := states[n - 1], actions[n - 1], states[n];
      assert Next(env, s, a, s');
      StepStaysTimed(env, s, a, s');
      if a.Commit? {
        CommitTold(env, s, a.client, s');
      } else {
        StepRefines(env, s, a, s');
        OtherStepsTell(s, a, s');
      }
    }
  }

  lemma OtherStepsTell(s: System, a: Action, s': System)
    requires Refines(s, a, s') && !a.Commit?
    ensures s'.db == s.db && s'.log == s.log
  {
  }

  lemma NothingToTell(s: System)
    requires Initial(s)
    ensures AllTimed(s) && Told(s.log, s.db) && NamedStay(s.log, s.db)
  {
  }

  // ---------- what follows ----------

  /**
   * In every interleaving, an approval opened by a start that read clock `c` is granted or refused as
   * asked by every decision that goes through and reads its clock before c + 86400000, is expired by
   * every one from then on, is claimed by no sweep that began earlier, and is not EXPIRED earlier.
   */
  lemma ApprovalsLiveADay(env: Env, states: seq<System>, actions: seq<Action>, n: nat, j: nat, a: ApprovalId)
    requires IsRun(env, states, actions) && n < |states| && j < |states[n].log| && Opened(states[n].log[j], a)
    ensures var s := states[n];
      var since := s.log[j].ch.clock;
      && a in s.db.approvals && s.db.approvals[a].exec == s.log[j].op.request.executionId
      && (s.db.approvals[a].status == Expired ==> since + 86400000 <= s.clock)
      && (forall k | 0 <= k < |s.log| && Decides(s.log[k], a) :: j < k && AnsweredBy(s.log[k], since))
      && (forall k | 0 <= k < |s.log| && s.log[k].op.Sweep? && a in s.log[k].ch.approvals ::
            j < k && since + 86400000 <= s.log[k].ch.begun)
  {
    RunsTellTheirHistory(env, states, actions, n);
    hide IsRun, Opened, Decides, AnsweredBy, DispatchesTold, NamedStay;
  }

  /** In every interleaving a dispatch row has one commit that inserted it, and is as old as that transaction. */
  lemma DispatchesAreAsOldAsTheirCommit(
      env: Env, states: seq<System>, actions: seq<Action>, n: nat, e: ExecId) returns (j: nat)
    requires IsRun(env, states, actions) && n < |states| && e in states[n].db.dispatches
    ensures j < |states[n].log| && Inserts(states[n].log[j], e)
    ensures states[n].db.dispatches[e].createdAt == states[n].log[j].ch.begun
  {
    RunsTellTheirHistory(env, states, actions, n);
    hide IsRun, Inserts, ApprovalsTold, VerdictsTold, NamedStay;
    j :| j < |states[n].log| && Inserts(states[n].log[j], e);
  }

  /**
   * Earliest first: of two dispatch rows, the one that a publisher running alone takes in an earlier batch
   * was inserted by a transaction that began no later, unless the other one was leased at that time.
   */
  lemma EarliestFirst(env: Env, states: seq<System>, actions: seq<Action>, n: nat, x: nat, y: nat, run: seq<Db>,
                      batches: seq<seq<ExecId>>, limit: int, clocks: seq<int>, i: nat, j: nat, d: ExecId, e: ExecId)
    requires IsRun(env, states, actions) && n < |states| && run != [] && run[0] == states[n].db
    requires x < |states[n].log| && Inserts(states[n].log[x], d)
    requires y < |states[n].log| && Inserts(states[n].log[y], e)
    requires Publishing.PublishesAlone(run, batches, limit, clocks) && i < j < |batches|
    requires d in batches[i] && e in batches[j]
    ensures e in run[i].dispatches
    ensures Publishing.LeaseRuns(run[i].dispatches[e], clocks[i])
      || states[n].log[x].ch.begun <= states[n].log[y].ch.begun
  {
    RunsTellTheirHistory(env, states, actions, n);
    hide IsRun, Inserts, ApprovalsTold, VerdictsTold, NamedStay, Publishing.LeaseRuns;
    Publishing.OlderBatchesFirst(run, batches, limit, clocks, i, j, d, e);
    Publishing.AgeKept(run, batches, limit, clocks, i, d);
    Publishing.AgeKept(run, batches, limit, clocks, i, e);
  }
}
