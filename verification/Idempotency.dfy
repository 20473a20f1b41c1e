/**
 * Idempotent `start` over every interleaving: each (tenant, key) creates at most one execution, and
 * every other success under it is a reuse of that execution, with the same request hash and no change.
 */
module Idempotency {
  import opened Base
  import opened JsonText
  import opened CanonicalJson
  import opened Requests
  import opened Tables
  import opened Kernel
  import opened Integrity
  import opened Interleaving
  import opened Atomicity
  import opened Runs

  /** The `j`-th commit created an execution under key `k`. */
  predicate CreatedUnder(log: seq<Entry>, j: int, k: IdemKey) {
    0 <= j < |log| && Keyed(log[j].op) && KeyOf(log[j].op) == k && log[j].reply == Started
  }

  /** The `j`-th commit is a reuse of what the earlier `i`-th commit created under the same key and request hash. */
  predicate ReuseOf(log: seq<Entry>, i: int, j: int)
    requires 0 <= j < |log| && Keyed(log[j].op)
  {
    && i < j && CreatedUnder(log, i, KeyOf(log[j].op))
    && log[j].reply == Reused(log[i].op.request.executionId)
    && log[j].op.hash == log[i].op.hash
  }

  predicate Creation(log: seq<Entry>, j: int) {
    0 <= j < |log| && log[j].op.Start? && log[j].reply == Started
  }

  ghost predicate Explained(log: seq<Entry>, j: int)
    requires 0 <= j < |log| && Keyed(log[j].op)
  {
    log[j].reply == Started || exists i :: ReuseOf(log, i, j)
  }

  /** How the history of commits and the idempotency table belong together. */
  ghost predicate History(log: seq<Entry>, db: Db) {
    && (forall j, k | CreatedUnder(log, j, k) ::
          k in db.idempotency && db.idempotency[k] == IdemRow(log[j].op.request.executionId, log[j].op.hash))
    && (forall k | k in db.idempotency :: exists j :: CreatedUnder(log, j, k))
    && (forall i, j, k | CreatedUnder(log, i, k) && CreatedUnder(log, j, k) :: i == j)
    && (forall j | 0 <= j < |log| && Keyed(log[j].op) :: Explained(log, j))
    && (forall j | Creation(log, j) :: log[j].op.request.executionId in db.execs)
    && (forall i, j | Creation(log, i) && Creation(log, j)
          && log[i].op.request.executionId == log[j].op.request.executionId :: i == j)
  }

  // ---------- what a commit does to the idempotency table ----------

  /** A call other than a creating `start` leaves the keys alone. */
  lemma KeysOnlyFromStart(env: Env, op: Op, ch: Choice, db: Db)
    requires Integral(env, db) && Fits(op, ch, db) && FreshIds(op, db)
    requires !(op.Start? && Effect(op, ch, db).reply == Started)
    ensures After(op, ch, db).idempotency == db.idempotency
    ensures db.execs.Keys <= After(op, ch, db).execs.Keys
  {
    hide Integral, PutConsequence, SweepProgress, ExpireWrites, MaxSeq;
    if op.Start? {
      MergeNothing(db);
      hide StartWrites, Merge;
      if Keyed(op) && KeyOf(op) in db.idempotency {
        ReusedWrites(env, op, ch, db);
      }
    } else if op.Decide? {
      hide DecideRefusal, Merge;
      MergeNothing(db);
      if DecideRefusal(op, db).None? { DecidedKeys(op, ch, db); }
    } else if op.Sweep? {
      SweptKeys(env, op, ch, db);
    }
  }

  lemma DecidedKeys(op: Op, ch: Choice, db: Db)
    requires op.Decide? && DecideRefusal(op, db).None?
    ensures After(op, ch, db).idempotency == db.idempotency && After(op, ch, db).execs.Keys == db.execs.Keys
  {
    AfterDecide(op, ch, db);
    hide After, VerdictOf, VerdictActor;
    var v := VerdictOf(op, db.approvals[op.approvalId], ch.clock);
    UnrefusedIsGrantable(op, db);
    hide DecideRefusal;
    var who := VerdictActor(op, v);
    ConsequenceShape(WithVerdict(db, op.approvalId, v, who), op.exec, op.approvalId, v, who, ch.begun);
    hide WithConsequence;
  }

  lemma SweptKeys(env: Env, op: Op, ch: Choice, db: Db)
    requires Integral(env, db) && op.Sweep? && Fits(op, ch, db)
    ensures After(op, ch, db).idempotency == db.idempotency && After(op, ch, db).execs.Keys == db.execs.Keys
  {
    hide Integral, SweepProgress, ExpireWrites;
    ProgressKeepsRows(db, ch.approvals, |ch.approvals|);
    SweepingKeeps(env, db, ch.approvals, |ch.approvals|);
  }

  /** A creating `start` finds its key unused and its execution absent, and records both. */
  lemma CreationRecords(env: Env, op: Op, ch: Choice, db: Db)
    requires Integral(env, db) && op.Start? && FreshIds(op, db) && Effect(op, ch, db).reply == Started
    ensures op.request.executionId !in db.execs
    ensures After(op, ch, db).execs.Keys == db.execs.Keys + {op.request.executionId}
    ensures Keyed(op) ==> KeyOf(op) !in db.idempotency
    ensures After(op, ch, db).idempotency
      == if Keyed(op) then db.idempotency[KeyOf(op) := IdemRow(op.request.executionId, op.hash)] else db.idempotency
  {
    hide Integral, StartWrites, MaxSeq;
    assert Creates(op, db);
    NothingLeftOver(env, op, db);
    AfterStart(op, ch, db);
    hide After;
  }

  /** A reusing `start` finds its key under its own hash. */
  lemma ReuseFinds(op: Op, ch: Choice, db: Db)
    requires op.Start? && Keyed(op) && !Effect(op, ch, db).reply.Refusal? && Effect(op, ch, db).reply != Started
    ensures KeyOf(op) in db.idempotency && db.idempotency[KeyOf(op)].hash == op.hash
    ensures Effect(op, ch, db).reply == Reused(db.idempotency[KeyOf(op)].exec)
  {
    hide StartWrites, MaxSeq;
  }

  /** A `start` under a recorded key changes no table at all, whether it is reused or refused. */
  lemma RecordedKeyChangesNothing(env: Env, op: Op, ch: Choice, db: Db)
    requires Integral(env, db) && op.Start? && Keyed(op) && KeyOf(op) in db.idempotency
    ensures After(op, ch, db) == db
    ensures Effect(op, ch, db).reply
      == if db.idempotency[KeyOf(op)].hash == op.hash then Reused(db.idempotency[KeyOf(op)].exec)
        else Refusal(IdempotencyConflict)
  {
    hide Integral, StartWrites, Merge;
    MergeNothing(db);
    ReusedWrites(env, op, ch, db);
    DefensiveErrorsAreDead(env, op, ch, db);
  }

  // ---------- extending the history ----------

  lemma EarlierCreations(log: seq<Entry>, entry: Entry)
    ensures var after := log + [entry];
      && (forall j, k :: CreatedUnder(after, j, k) <==>
            CreatedUnder(log, j, k)
              || (j == |log| && Keyed(entry.op) && KeyOf(entry.op) == k && entry.reply == Started))
      && (forall j :: Creation(after, j)
           <==> Creation(log, j) || (j == |log| && entry.op.Start? && entry.reply == Started))
  {
  }

  lemma StillExplained(log: seq<Entry>, entry: Entry, j: int)
    requires 0 <= j < |log| && Keyed(log[j].op) && Explained(log, j)
    ensures Explained(log + [entry], j)
  {
    EarlierCreations(log, entry);
    if log[j].reply != Started {
      var i :| ReuseOf(log, i, j);
      assert ReuseOf(log + [entry], i, j);
    }
  }

  lemma NewcomerExplained(log: seq<Entry>, db: Db, entry: Entry)
    requires History(log, db) && Keyed(entry.op)
    requires entry.reply != Started ==>
      && KeyOf(entry.op) in db.idempotency && db.idempotency[KeyOf(entry.op)].hash == entry.op.hash
      && entry.reply == Reused(db.idempotency[KeyOf(entry.op)].exec)
    ensures Explained(log + [entry], |log|)
  {
    hide Explained;
    EarlierCreations(log, entry);
    if entry.reply != Started {
      var i :| CreatedUnder(log, i, KeyOf(entry.op));
      ReuseIsExplained(log + [entry], i, |log|);
    } else {
      StartedIsExplained(log + [entry], |log|);
    }
  }

  lemma ReuseIsExplained(log: seq<Entry>, i: int, j: int)
    requires 0 <= j < |log| && Keyed(log[j].op) && ReuseOf(log, i, j)
    ensures Explained(log, j)
  {
  }

  lemma StartedIsExplained(log: seq<Entry>, j: int)
    requires 0 <= j < |log| && Keyed(log[j].op) && log[j].reply == Started
    ensures Explained(log, j)
  {
  }

  lemma HistoryExtends(log: seq<Entry>, db: Db, entry: Entry, u: Db)
    requires History(log, db) && db.execs.Keys <= u.execs.Keys
    requires if entry.op.Start? && entry.reply == Started then
        && entry.op.request.executionId !in db.execs && entry.op.request.executionId in u.execs
        && (Keyed(entry.op) ==> KeyOf(entry.op) !in db.idempotency)
        && u.idempotency == (if Keyed(entry.op) then
                               db.idempotency[KeyOf(entry.op) := IdemRow(entry.op.request.executionId, entry.op.hash)]
                             else db.idempotency)
      else
        && u.idempotency == db.idempotency
        && (Keyed(entry.op) ==>
              && KeyOf(entry.op) in db.idempotency && db.idempotency[KeyOf(entry.op)].hash == entry.op.hash
              && entry.reply == Reused(db.idempotency[KeyOf(entry.op)].exec))
    ensures History(log + [entry], u)
  {
    var after := log + [entry];
    EarlierCreations(log, entry);
    if Keyed(entry.op) { NewcomerExplained(log, db, entry); }
    forall j | 0 <= j < |after| && Keyed(after[j].op) ensures Explained(after, j) {
      if j < |log| { StillExplained(log, entry, j); }
    }
    hide Explained, Creation, KeyOf, Keyed;
    forall k | k in u.idempotency ensures exists j :: CreatedUnder(after, j, k) {
      if k in db.idempotency {
        var j :| CreatedUnder(log, j, k);
        assert CreatedUnder(after, j, k);
      } else {
        assert CreatedUnder(after, |log|, k);
      }
    }
    hide CreatedUnder;
  }

  lemma StepExtendsHistory(env: Env, s: System, a: Action, s': System)
    requires Inv(env, s) && Next(env, s, a, s') && History(s.log, s.db)
    ensures History(s'.log, s'.db)
  {
    StepRefines(env, s, a, s');
    if a.Commit? {
      var t := s.clients[a.client];
      assert ClientOk(env, s.db, t) && Integral(env, s.db);
      assert !t.local.reply.Refusal? by { DoneIsNoRefusal(t.op, t.local, s.db); }
      hide Inv, Integral, History, After, Effect, Fits, Next, ClientOk, At;
      if t.op.Start? && t.local.reply == Started {
        CreationRecords(env, t.op, t.local.ch, s.db);
      } else {
        KeysOnlyFromStart(env, t.op, t.local.ch, s.db);
        if Keyed(t.op) { ReuseFinds(t.op, t.local.ch, s.db); }
      }
      HistoryExtends(s.log, s.db, Entry(t.op, t.local.ch, t.local.reply), s'.db);
    } else {
      hide Inv, Next, History;
    }
  }

  /** Refused calls roll back: what commits is never a refusal. */
  lemma DoneIsNoRefusal(op: Op, l: Local, db: Db)
    requires At(op, l, db) && l.pc.Done?
    ensures !l.reply.Refusal?
  {
    hide AtStage, AtReuse, AtMove, PutConsequence, PutVerdict, SweepProgress, ExpireWrites, PutMove, MaxSeq;
    hide ClaimWrites, MarkWrites;
    hide Accepts, VerdictOf, VerdictActor, DecideRefusal;
  }

  lemma EmptyHistory()
    ensures History([], NO_ROWS)
  {
  }

  lemma {:induction false} RunsKeepHistory(env: Env, states: seq<System>, actions: seq<Action>, n: nat)
    requires IsRun(env, states, actions) && n < |states|
    ensures History(states[n].log, states[n].db)
  {
    hide History, Next, Inv, Replay;
    if n == 0 {
      EmptyHistory();
    } else {
      RunsKeepHistory(env, states, actions, n - 1);
      RunsAreSerial(env, states, actions, n - 1);
      assert Next(env, states[n - 1], actions[n - 1], states[n]);
      StepExtendsHistory(env, states[n - 1], actions[n - 1], states[n]);
    }
  }

  /**
   * At most one execution per (tenant, key), whatever the interleaving and whatever the advisory
   * lock function: any two creations under a key are the same commit, and any other commit under it
   * reuses, later, exactly what that one created, for the same request hash.
   */
  lemma OneExecutionPerKey(env: Env, states: seq<System>, actions: seq<Action>, n: nat, j: nat)
    requires IsRun(env, states, actions) && n < |states|
    requires j < |states[n].log| && Keyed(states[n].log[j].op)
    ensures var log := states[n].log; var k := KeyOf(log[j].op);
      exists i :: CreatedUnder(log, i, k) && (forall x | CreatedUnder(log, x, k) :: x == i)
        && (j != i ==> ReuseOf(log, i, j))
  {
    RunsKeepHistory(env, states, actions, n);
    var log := states[n].log;
    var k := KeyOf(log[j].op);
    assert Explained(log, j);
    if log[j].reply == Started {
      assert CreatedUnder(log, j, k);
    } else {
      var i :| ReuseOf(log, i, j);
      assert CreatedUnder(log, i, k);
    }
  }

  /** No execution id is ever created twice, with or without keys. */
  lemma ExecutionsAreCreatedOnce(env: Env, states: seq<System>, actions: seq<Action>, n: nat, i: nat, j: nat)
    requires IsRun(env, states, actions) && n < |states|
    requires Creation(states[n].log, i) && Creation(states[n].log, j)
    requires states[n].log[i].op.request.executionId == states[n].log[j].op.request.executionId
    ensures i == j
  {
    RunsKeepHistory(env, states, actions, n);
    hide CreatedUnder, Explained;
  }

  /** With a collision-free digest, a reused start is told about the very execution it asked for. */
  lemma ReuseNamesTheRequest(env: Env, op: Op, ch: Choice, db: Db)
    requires Integral(env, db) && WellFormedOp(env, op) && CollisionFree(env)
    requires op.Start? && Effect(op, ch, db).reply.Reused?
    ensures Effect(op, ch, db).reply == Reused(op.request.executionId)
  {
    hide StartWrites, MaxSeq, ApprovalsOk, DispatchesOk, LogOk, RequestHash, CollisionFree, Valid;
    var row := db.idempotency[KeyOf(op)];
    assert ExecutionOk(db, row.exec);
    HashFixesRequest(env, op.request, db.execs[row.exec].request);
  }

  /**
   * What an idempotency key means: under a key whose recorded request has no tied names, a start is
   * reused if and only if it asks for that request again (key order aside), and is a conflict otherwise.
   */
  lemma RetryIsRecognized(env: Env, op: Op, ch: Choice, db: Db)
    requires Integral(env, db) && WellFormedOp(env, op)
    requires CollisionFree(env) && TotalPreorder(env.leq) && FixedNamesApart(env.leq)
    requires op.Start? && Keyed(op) && KeyOf(op) in db.idempotency
    ensures db.idempotency[KeyOf(op)].exec in db.execs
    ensures var stored := db.execs[db.idempotency[KeyOf(op)].exec].request;
      TieFree(env.leq, Obj(stored.context)) ==>
        Effect(op, ch, db).reply ==
          if SameRequest(stored, op.request) then Reused(op.request.executionId) else Refusal(IdempotencyConflict)
  {
    RecordedRow(env, db, KeyOf(op));
    hide Integral, Effect, RequestHash, CollisionFree, TotalPreorder, FixedNamesApart, TieFree, SameRequest, Valid;
    RecordedKeyChangesNothing(env, op, ch, db);
    var stored := db.execs[db.idempotency[KeyOf(op)].exec].request;
    if TieFree(env.leq, Obj(stored.context)) {
      HashIdentifiesRequests(env, stored, op.request);
      if SameRequest(stored, op.request) { SameNamesExecution(stored, op.request); }
    }
  }

  /** A start that repeats a request under a key, key order aside. */
  ghost predicate Repeats(env: Env, op: Op, k: IdemKey, stored: Request) {
    op.Start? && Keyed(op) && KeyOf(op) == k && WellFormedOp(env, op) && SameRequest(stored, op.request)
  }

  /** Exactly: every repetition under a recorded key is reused if and only if the recorded context has no tied names. */
  lemma RetriesAreRecognizedIff(env: Env, ch: Choice, db: Db, k: IdemKey)
    requires Integral(env, db) && k in db.idempotency && k.key != ""
    requires CollisionFree(env) && TotalPreorder(env.leq) && FixedNamesApart(env.leq)
    ensures db.idempotency[k].exec in db.execs
    ensures var stored := db.execs[db.idempotency[k].exec].request;
      (forall op | Repeats(env, op, k, stored) :: StartEffect(op, ch, db).reply == Reused(db.idempotency[k].exec))
        <==> TieFree(env.leq, Obj(stored.context))
  {
    RecordedRow(env, db, k);
    var stored := db.execs[db.idempotency[k].exec].request;
    hide Integral, CollisionFree, TotalPreorder, FixedNamesApart, TieFree, Valid, StartEffect, Repeats;
    if TieFree(env.leq, Obj(stored.context)) {
      forall op | Repeats(env, op, k, stored) ensures StartEffect(op, ch, db).reply == Reused(db.idempotency[k].exec) {
        RepetitionIsReused(env, op, ch, db, k);
      }
    } else {
      var op := RepetitionInConflict(env, ch, db, k);
    }
  }

  lemma RepetitionIsReused(env: Env, op: Op, ch: Choice, db: Db, k: IdemKey)
    requires Integral(env, db) && k in db.idempotency && db.idempotency[k].exec in db.execs
    requires CollisionFree(env) && TotalPreorder(env.leq) && FixedNamesApart(env.leq)
    requires TieFree(env.leq, Obj(db.execs[db.idempotency[k].exec].request.context))
    requires Repeats(env, op, k, db.execs[db.idempotency[k].exec].request)
    ensures op.Start? && StartEffect(op, ch, db).reply == Reused(db.idempotency[k].exec)
  {
    RecordedRow(env, db, k);
    hide Integral, RequestHash, CollisionFree, TotalPreorder, FixedNamesApart, TieFree, SameRequest, Valid, StartEffect;
    RetryIsRecognized(env, op, ch, db);
    SameNamesExecution(db.execs[db.idempotency[k].exec].request, op.request);
  }

  /** Where the recorded context has a tie, some repetition is answered with a conflict. */
  lemma RepetitionInConflict(env: Env, ch: Choice, db: Db, k: IdemKey) returns (op: Op)
    requires Integral(env, db) && k in db.idempotency && k.key != "" && db.idempotency[k].exec in db.execs
    requires CollisionFree(env) && !TieFree(env.leq, Obj(db.execs[db.idempotency[k].exec].request.context))
    ensures Repeats(env, op, k, db.execs[db.idempotency[k].exec].request)
    ensures StartEffect(op, ch, db).reply == Refusal(IdempotencyConflict)
  {
    RecordedRow(env, db, k);
    var stored := db.execs[db.idempotency[k].exec].request;
    hide Integral, RequestHash, CollisionFree, TieFree, SameRequest, Valid, StartEffect, Effect, After;
    hide SlotOf, WellFormedOp;
    var s := TieHashesApart(env, stored);
    op := Start(s, RequestHash(env, s), Some(k.key), SlotOf(env, k), "");
    SameTenant(stored, s);
    StartedUnder(env, op, k);
    RecordedKeyChangesNothing(env, op, ch, db);
    StartReply(op, ch, db);
  }

  lemma StartedUnder(env: Env, op: Op, k: IdemKey)
    requires op.Start? && op.key == Some(k.key) && op.request.tenantId == k.tenant && Valid(op.request)
    requires op.hash == RequestHash(env, op.request) && op.slot == SlotOf(env, k)
    ensures WellFormedOp(env, op)
  {
    hide RequestHash, Valid, SlotOf;
  }

  lemma StartReply(op: Op, ch: Choice, db: Db)
    requires op.Start?
    ensures Effect(op, ch, db) == StartEffect(op, ch, db)
  {
    hide StartEffect;
  }

  lemma SameTenant(r: Request, s: Request)
    requires SameRequest(r, s)
    ensures r.tenantId == s.tenantId
  {
  }

  lemma RecordedRow(env: Env, db: Db, k: IdemKey)
    requires Integral(env, db) && k in db.idempotency
    ensures var row := db.idempotency[k];
      && row.exec in db.execs && row.hash == RequestHash(env, db.execs[row.exec].request)
      && Valid(db.execs[row.exec].request) && db.execs[row.exec].request.executionId == row.exec
      && db.execs[row.exec].request.tenantId == k.tenant
  {
    hide ApprovalsOk, DispatchesOk, LogOk, RequestHash, Valid;
    assert ExecutionOk(db, db.idempotency[k].exec);
  }

  /** The event a reusing `start` returns is the latest committed one of the recorded execution. */
  lemma ReuseReadsLatest(env: Env, s: System, c: Client, inp: Input, s': System)
    requires Inv(env, s) && Next(env, s, Run(c, inp), s') && s.clients[c].op.Start? && s.clients[c].local.pc.ReadLatest?
    ensures var op, l, l' := s.clients[c].op, s.clients[c].local, s'.clients[c].local;
      && KeyOf(op) in s.db.idempotency && s.db.idempotency[KeyOf(op)] == IdemRow(l.found, op.hash)
      && l.found in s.db.execs && l'.pc.Done? && l'.reply == Reused(l.found)
      && l'.seen == Length(s.db, l.found) && EventKey(l.found, l'.seen) in s.db.events
      && s.db.events[EventKey(l.found, l'.seen)].status == s.db.execs[l.found].status
  {
    var op, l := s.clients[c].op, s.clients[c].local;
    hide Integral, Execute, Enabled, LogOk, Next, StartWrites, WellFormedOp;
    assert ClientOk(env, s.db, s.clients[c]) && AtReuse(op, l, s.db) && Integral(env, s.db);
    hide Inv, ClientOk, AtReuse;
    RecordedExecution(env, op, l, s.db);
    LatestStatement(op, l, s.db, inp);
    NextIsExecute(env, s, c, inp, s');
  }

  lemma NextIsExecute(env: Env, s: System, c: Client, inp: Input, s': System)
    requires c in s.clients && Next(env, s, Run(c, inp), s')
    ensures c in s'.clients && s'.clients[c].local == Execute(s.clients[c].op, s.clients[c].local, s.db, inp)
  {
    hide Execute, Enabled;
  }

  lemma RecordedExecution(env: Env, op: Op, l: Local, db: Db)
    requires Integral(env, db) && op.Start? && AtReuse(op, l, db)
    ensures Keyed(op) && KeyOf(op) in db.idempotency && db.idempotency[KeyOf(op)] == IdemRow(l.found, op.hash)
    ensures l.found in db.execs && Length(db, l.found) >= 1 && EventKey(l.found, Length(db, l.found)) in db.events
    ensures db.events[EventKey(l.found, Length(db, l.found))].status == db.execs[l.found].status
  {
    hide StartWrites, Valid, RequestHash, ApprovalsOk, DispatchesOk;
    assert ExecutionOk(db, l.found);
  }

  lemma LatestStatement(op: Op, l: Local, db: Db, inp: Input)
    requires op.Start? && l.pc.ReadLatest? && AtReuse(op, l, db) && Length(db, l.found) >= 1
    ensures var l' := Execute(op, l, db, inp);
      l'.pc.Done? && l'.reply == Reused(l.found) && l'.seen == Length(db, l.found)
  {
    StartShape(op, l, db, inp);
    StageTables(op, l.ch, db, 0);
    hide StartWrites, Execute, Keyed, AtReuse;
    assert View(l, db).events == db.events by {
      assert l.writes == StartWrites(op, l.ch, db, 0) by { AtReuseWrites(op, l, db); }
    }
    hide View;
  }

  lemma AtReuseWrites(op: Op, l: Local, db: Db)
    requires op.Start? && AtReuse(op, l, db)
    ensures l.writes == StartWrites(op, l.ch, db, 0)
  {
    hide StartWrites;
  }

  // ---------- creations under one key exclude one another ----------

  /** The client has found its key unused and is on its way to create. */
  predicate Creating(t: Txn) {
    && Keyed(t.op) && !t.local.pc.EnsureTenant? && !t.local.pc.TakeAdvisory? && !t.local.pc.FindKey?
    && !t.local.pc.ReadLatest? && !t.local.pc.Halted? && !(t.local.pc.Done? && t.local.reply.Reused?)
  }

  lemma CreatorHoldsSlot(op: Op, l: Local, db: Db)
    requires Creating(Txn(op, l)) && At(op, l, db)
    ensures AdvisoryLock(op.slot) in l.held
  {
    hide StartWrites, AtReuse;
  }

  lemma CreatorHoldsKey(env: Env, s: System, c: Client)
    requires Inv(env, s) && c in s.clients && Creating(s.clients[c])
    ensures var op := s.clients[c].op;
      && op.Start? && op.key.Some?
      && AdvisoryLock(env.advisory(op.request.tenantId + ":" + op.key.value)) in s.clients[c].local.held
  {
    assert ClientOk(env, s.db, s.clients[c]);
    hide Inv, At, RequestHash, Valid;
    CreatorHoldsSlot(s.clients[c].op, s.clients[c].local, s.db);
  }

  /**
   * In every reachable state at most one client is on its way to create under a tenant's key, and it
   * holds the lock of that key.
   */
  lemma OneCreatorPerKey(env: Env, states: seq<System>, actions: seq<Action>, n: nat, c: Client, d: Client)
    requires IsRun(env, states, actions) && n < |states| && c in states[n].clients && d in states[n].clients
    requires Creating(states[n].clients[c]) && Creating(states[n].clients[d])
    ensures var op := states[n].clients[c].op;
      && op.Start? && op.key.Some? && states[n].clients[d].op.Start?
      && AdvisoryLock(env.advisory(op.request.tenantId + ":" + op.key.value)) in states[n].clients[c].local.held
      && (states[n].clients[d].op.request.tenantId == op.request.tenantId && states[n].clients[d].op.key == op.key ==>
            c == d)
  {
    hide IsRun, Inv, Replay, Creating;
    RunsAreSerial(env, states, actions, n);
    CreatorHoldsKey(env, states[n], c);
    CreatorHoldsKey(env, states[n], d);
    if c != d { LocksApart(env, states[n], c, d); }
  }

  lemma LocksApart(env: Env, s: System, c: Client, d: Client)
    requires Inv(env, s) && c in s.clients && d in s.clients && c != d
    ensures s.clients[c].local.held !! s.clients[d].local.held
  {
    hide Integral, ClientOk;
  }
}
