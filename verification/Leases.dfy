/**
 * When DISPATCHED is final, exactly: as soon as no publisher still has the row ahead of it.  And when
 * leases exclude: if publishers finish each row before its lease ends and no mark's answer is lost.
 */
module Leases {
  import opened Base
  import opened StateMachine
  import opened Requests
  import opened Tables
  import opened Kernel
  import opened Integrity
  import opened Runtime

  /** The step keeps the publisher's side of the bargain: in time, and with an answer that can be believed. */
  predicate Timely(w: World, step: Step) {
    match step
    case Enqueue(id, _) => id in w.publishers ==> w.clock <= w.publishers[id].until
    case Mark(id, outcome, _, _) => !outcome.Lost? && (id in w.publishers ==> w.clock <= w.publishers[id].until)
    case _ => true
  }

  /** `e` is among the rows that publisher `p` has still to finish. */
  ghost predicate Ahead(p: Publisher, e: ExecId) {
    exists k :: p.i <= k < |p.rows| && p.rows[k] == e
  }

  /** It is, and the lease is running. */
  ghost predicate Holds(p: Publisher, clock: int, e: ExecId) {
    clock <= p.until && Ahead(p, e)
  }

  predicate DistinctRows(p: Publisher) {
    forall i, j | 0 <= i < j < |p.rows| :: p.rows[i] != p.rows[j]
  }

  ghost predicate Leased(w: World, p: Publisher, e: ExecId) {
    e in w.db.dispatches && w.db.dispatches[e].status == Processing && w.db.dispatches[e].lockedUntil == Some(p.until)
  }

  ghost predicate Exclusive(w: World) {
    && (forall id | id in w.publishers :: DistinctRows(w.publishers[id]))
    && (forall id, e | id in w.publishers && Holds(w.publishers[id], w.clock, e) :: Leased(w, w.publishers[id], e))
    && (forall id, x, e | id in w.publishers && x in w.publishers
          && Holds(w.publishers[id], w.clock, e) && Holds(w.publishers[x], w.clock, e) :: id == x)
  }

  ghost predicate DispatchedStays(w: World, v: World) {
    forall e | e in w.db.dispatches && w.db.dispatches[e].status == Dispatched ::
      e in v.db.dispatches && v.db.dispatches[e].status == Dispatched
  }

  lemma HeldIsNotClaimable(w: World, p: Publisher, e: ExecId, now: int)
    requires Leased(w, p, e) && w.clock <= p.until && now <= w.clock
    ensures !Claimable(w.db.dispatches[e], now)
  {
  }

  lemma PicksAreClaimable(db: Db, now: int, rows: seq<ExecId>)
    requires ClaimableRows(db, rows, now)
    ensures forall e | e in rows :: e in db.dispatches && Claimable(db.dispatches[e], now)
    ensures forall i, j | 0 <= i < j < |rows| :: rows[i] != rows[j]
  {
    forall e | e in rows ensures e in db.dispatches && Claimable(db.dispatches[e], now) {
      var i :| 0 <= i < |rows| && rows[i] == e;
    }
  }

  lemma NobodyHeldThem(w: World, rows: seq<ExecId>, now: int)
    requires Exclusive(w) && now <= w.clock
    requires forall e | e in rows :: e in w.db.dispatches && Claimable(w.db.dispatches[e], now)
    ensures forall id, e | id in w.publishers && e in rows :: !Holds(w.publishers[id], w.clock, e)
  {
    forall id, e | id in w.publishers && e in rows ensures !Holds(w.publishers[id], w.clock, e) {
      if Holds(w.publishers[id], w.clock, e) {
        HeldIsNotClaimable(w, w.publishers[id], e, now);
      }
    }
  }

  /** A claim, on rows and publishers alone. */
  lemma ClaimRows(env: Env, w: World, id: nat, limit: int, lease: int, ch: Choice, v: World)
    requires Moves(env, OpenApi, w, Claim(id, limit, lease, ch), v)
    ensures id !in w.publishers && ClaimableRows(w.db, ch.rows, ch.begun) && ch.begun <= w.clock == v.clock
    ensures var until := ch.begun + SafeLease(lease);
      && v.publishers == w.publishers[id := Publisher(ch.rows, until, 0, Enqueueing, 0, 0)]
      && v.db.dispatches.Keys == w.db.dispatches.Keys
      && (forall e | e in w.db.dispatches ::
            v.db.dispatches[e] == if e in ch.rows then ClaimedRow(w.db.dispatches[e], until) else w.db.dispatches[e])
  {
    AfterTouch(ClaimDispatches(limit, lease), ch, w.db);
    hide After, ClaimedRow, SafeLease, CountClaims, RecordClaims, ClaimableRows;
  }

  lemma ClaimExcludes(env: Env, w: World, id: nat, limit: int, lease: int, ch: Choice, v: World)
    requires Exclusive(w) && Moves(env, OpenApi, w, Claim(id, limit, lease, ch), v)
    ensures Exclusive(v) && DispatchedStays(w, v)
  {
    hide Moves;
    ClaimRows(env, w, id, limit, lease, ch, v);
    PicksAreClaimable(w.db, ch.begun, ch.rows);
    NobodyHeldThem(w, ch.rows, ch.begun);
    hide ClaimableRows, SafeLease;
    ClaimedAreNew(w, v, id, ch.rows);
    hide Holds;
  }

  lemma ClaimedAreNew(w: World, v: World, id: nat, rows: seq<ExecId>)
    requires id !in w.publishers && id in v.publishers && v.publishers[id].rows == rows && v.publishers[id].i == 0
    ensures forall e | Holds(v.publishers[id], v.clock, e) :: e in rows
  {
  }

  lemma CurrentIsHeld(p: Publisher, clock: int)
    requires AtRow(p) && clock <= p.until
    ensures Holds(p, clock, p.rows[p.i])
  {
  }

  /** Finishing a row gives up that row and no other. */
  lemma NextHoldsLess(p: Publisher, clock: int, good: bool, e: ExecId)
    requires AtRow(p) && DistinctRows(p)
    ensures Holds(NextRow(p, good), clock, e) <==> Holds(p, clock, e) && e != p.rows[p.i]
  {
    var q := NextRow(p, good);
    if Holds(p, clock, e) && e != p.rows[p.i] {
      var k :| p.i <= k < |p.rows| && p.rows[k] == e;
      assert q.i <= k;
    }
  }

  lemma FinishedExcludes(w: World, v: World, id: nat, good: bool)
    requires Exclusive(w) && id in w.publishers && AtRow(w.publishers[id]) && w.clock <= w.publishers[id].until
    requires v.clock == w.clock && v.publishers == w.publishers[id := NextRow(w.publishers[id], good)]
    requires v.db.dispatches.Keys == w.db.dispatches.Keys
    requires forall e | e in w.db.dispatches && e != w.publishers[id].rows[w.publishers[id].i] ::
      v.db.dispatches[e] == w.db.dispatches[e]
    ensures Exclusive(v)
  {
    var p := w.publishers[id];
    CurrentIsHeld(p, w.clock);
    forall e ensures Holds(v.publishers[id], v.clock, e) <==> Holds(p, w.clock, e) && e != p.rows[p.i] {
      NextHoldsLess(p, w.clock, good, e);
    }
    hide Holds;
  }

  predicate SameRest(p: Publisher, q: Publisher) {
    p.rows == q.rows && p.i == q.i && p.until == q.until
  }

  /** Publishers as before, or fewer of them; or one whose remaining rows are the same. */
  lemma SameHoldersExclude(w: World, v: World)
    requires Exclusive(w) && w.clock <= v.clock
    requires forall e | e in w.db.dispatches :: e in v.db.dispatches && v.db.dispatches[e] == w.db.dispatches[e]
    requires forall id | id in v.publishers :: id in w.publishers && SameRest(v.publishers[id], w.publishers[id])
    ensures Exclusive(v) && DispatchedStays(w, v)
  {
    forall id, e | id in v.publishers && Holds(v.publishers[id], v.clock, e)
      ensures Holds(w.publishers[id], w.clock, e)
    {
    }
    hide Holds;
  }

  /** A mark, on rows and publishers alone. */
  lemma MarkRows(env: Env, w: World, id: nat, outcome: Outcome, now: int, error: string, v: World)
    requires Moves(env, OpenApi, w, Mark(id, outcome, now, error), v)
    ensures v.clock == w.clock && v.jobs == w.jobs && id in w.publishers && AtRow(w.publishers[id])
    ensures v.publishers == AfterMark(w.publishers, id, outcome) && v.db.dispatches.Keys == w.db.dispatches.Keys
    ensures var p := w.publishers[id]; var e := p.rows[p.i];
      && (forall d | d in w.db.dispatches && d != e :: v.db.dispatches[d] == w.db.dispatches[d])
      && (e in w.db.dispatches && outcome.Failed? ==> v.db.dispatches[e] == w.db.dispatches[e])
      && (e in w.db.dispatches && !outcome.Failed? ==>
            v.db.dispatches[e] == MarkedRow(MarkOp(p, error), w.db.dispatches[e], now))
  {
    AfterTouch(MarkOp(w.publishers[id], error), Choice(now, now, [], []), w.db);
    hide After, MarkedRow, AfterMark;
  }

  lemma MarkExcludes(env: Env, w: World, id: nat, outcome: Outcome, now: int, error: string, v: World)
    requires Exclusive(w) && Moves(env, OpenApi, w, Mark(id, outcome, now, error), v)
    requires Timely(w, Mark(id, outcome, now, error))
    ensures Exclusive(v) && DispatchedStays(w, v)
  {
    hide Moves;
    MarkRows(env, w, id, outcome, now, error, v);
    var p := w.publishers[id];
    CurrentIsHeld(p, w.clock);
    assert Leased(w, p, p.rows[p.i]);
    hide Holds, Exclusive, MarkedRow, MarkOp;
    if outcome.Ok? {
      FinishedExcludes(w, v, id, p.phase.MarkingDone?);
    } else {
      SameHoldersExclude(w, v);
    }
  }

  lemma StepExcludes(env: Env, api: Api, w: World, step: Step, v: World)
    requires Outbox(env, w) && Exclusive(w) && Moves(env, api, w, step, v) && Timely(w, step)
    ensures Exclusive(v) && DispatchedStays(w, v)
  {
    assert step.Call? || Moves(env, OpenApi, w, step, v);
    hide Outbox, Exclusive, DispatchedStays;
    match step
    case Claim(id, limit, lease, ch) => hide Moves; ClaimExcludes(env, w, id, limit, lease, ch, v);
    case Mark(id, outcome, now, error) => hide Moves; MarkExcludes(env, w, id, outcome, now, error, v);
    case _ => hide Moves; SameHolders(env, api, w, step, v); SameHoldersExclude(w, v);
  }

  /** The other steps leave existing rows and everybody's remaining work alone. */
  lemma SameHolders(env: Env, api: Api, w: World, step: Step, v: World)
    requires Outbox(env, w) && Moves(env, api, w, step, v) && !step.Claim? && !step.Mark?
    ensures w.clock <= v.clock
    ensures forall e | e in w.db.dispatches :: e in v.db.dispatches && v.db.dispatches[e] == w.db.dispatches[e]
    ensures forall id | id in v.publishers :: id in w.publishers && SameRest(v.publishers[id], w.publishers[id])
  {
    hide Outbox, After, ClaimableRows, AfterEnqueue, WorkStep;
    if step.Call? {
      CallLeavesRows(env, w, step.op, step.ch);
    } else if step.Work? {
      WorkLeavesDispatches(env, w, step.worker, step.outcome, v);
    }
  }

  lemma CallLeavesRows(env: Env, w: World, op: Op, ch: Choice)
    requires Outbox(env, w) && FreshIds(op, w.db) && Fits(op, ch, w.db)
    requires !op.ClaimDispatches? && !op.MarkSucceeded? && !op.MarkFailed?
    ensures forall e | e in w.db.dispatches ::
      e in After(op, ch, w.db).dispatches && After(op, ch, w.db).dispatches[e] == w.db.dispatches[e]
  {
    hide Integral, After, RowTold, PublisherTold;
    CallKeepsRows(env, op, ch, w.db);
  }

  lemma WorkLeavesDispatches(env: Env, w: World, id: nat, outcome: Outcome, v: World)
    requires Outbox(env, w) && Moves(env, OpenApi, w, Work(id, outcome), v)
    ensures v.publishers == w.publishers && v.clock == w.clock
    ensures forall e | e in w.db.dispatches :: e in v.db.dispatches && v.db.dispatches[e] == w.db.dispatches[e]
  {
    hide Outbox, WorkStep, After, Effect, Latest;
    WorkLeavesRows(w.db, w.workers[id], outcome);
    if w.workers[id].pc.Moving? && !outcome.Failed? { CallLeavesRows(env, w, Advancing(w.workers[id].exec), NO_READ); }
  }

  ghost predicate TimelyRun(env: Env, api: Api, worlds: seq<World>, steps: seq<Step>) {
    WorldRun(env, api, worlds, steps) && forall i | 0 <= i < |steps| :: Timely(worlds[i], steps[i])
  }

  /** In a timely run no row ever has two holders, and a dispatched row stays dispatched for good. */
  lemma {:induction false} TimelyLeasesExclude(env: Env, api: Api, worlds: seq<World>, steps: seq<Step>, m: nat, n: nat)
    requires TimelyRun(env, api, worlds, steps) && m <= n < |worlds|
    ensures Exclusive(worlds[n])
    ensures DispatchedStays(worlds[m], worlds[n])
    decreases n
  {
    hide Outbox, Moves, Exclusive, Timely;
    if n == 0 {
      assert Exclusive(worlds[0]) by { NobodyYet(worlds[0]); }
    } else {
      TimelyLeasesExclude(env, api, worlds, steps, if m < n then m else n - 1, n - 1);
      RunKeepsOutbox(env, api, worlds, steps, n - 1);
      assert Moves(env, api, worlds[n - 1], steps[n - 1], worlds[n]) && Timely(worlds[n - 1], steps[n - 1]);
      StepExcludes(env, api, worlds[n - 1], steps[n - 1], worlds[n]);
      hide WorldRun;
    }
  }

  lemma NobodyYet(w: World)
    requires Starts(w)
    ensures Exclusive(w)
  {
  }

  // ---------- when DISPATCHED is final ----------

  /** `e` is dispatched, and no publisher has it still ahead, in time or not. */
  ghost predicate Final(w: World, e: ExecId) {
    && e in w.db.dispatches && w.db.dispatches[e].status == Dispatched
    && (forall id | id in w.publishers :: !Ahead(w.publishers[id], e))
  }

  lemma SameRestAhead(p: Publisher, q: Publisher, e: ExecId)
    requires SameRest(p, q)
    ensures Ahead(p, e) == Ahead(q, e)
  {
  }

  lemma NextAhead(p: Publisher, good: bool, e: ExecId)
    requires AtRow(p) && Ahead(NextRow(p, good), e)
    ensures Ahead(p, e)
  {
  }

  lemma CurrentAhead(p: Publisher)
    requires AtRow(p)
    ensures Ahead(p, p.rows[p.i])
  {
  }

  lemma ClaimKeepsFinal(env: Env, w: World, id: nat, limit: int, lease: int, ch: Choice, v: World, e: ExecId)
    requires Final(w, e) && Moves(env, OpenApi, w, Claim(id, limit, lease, ch), v)
    ensures Final(v, e)
  {
    hide Moves;
    ClaimRows(env, w, id, limit, lease, ch, v);
    PicksAreClaimable(w.db, ch.begun, ch.rows);
    hide ClaimableRows, SafeLease;
    assert e !in ch.rows;
  }

  lemma MarkKeepsFinal(env: Env, w: World, id: nat, outcome: Outcome, now: int, error: string, v: World, e: ExecId)
    requires Final(w, e) && Moves(env, OpenApi, w, Mark(id, outcome, now, error), v)
    ensures Final(v, e)
  {
    hide Moves;
    MarkRows(env, w, id, outcome, now, error, v);
    var p := w.publishers[id];
    CurrentAhead(p);
    hide MarkedRow, MarkOp;
    forall x | x in v.publishers ensures !Ahead(v.publishers[x], e) {
      if x == id {
        if outcome.Ok? {
          if Ahead(v.publishers[x], e) { NextAhead(p, p.phase.MarkingDone?, e); }
        } else {
          SameRestAhead(v.publishers[x], p, e);
        }
      }
    }
    hide Ahead;
  }

  lemma StepKeepsFinal(env: Env, api: Api, w: World, step: Step, v: World, e: ExecId)
    requires Outbox(env, w) && Final(w, e) && Moves(env, api, w, step, v)
    ensures Final(v, e)
  {
    assert step.Call? || Moves(env, OpenApi, w, step, v);
    hide Outbox, Ahead;
    match step
    case Claim(id, limit, lease, ch) => hide Moves; ClaimKeepsFinal(env, w, id, limit, lease, ch, v, e);
    case Mark(id, outcome, now, error) => hide Moves; MarkKeepsFinal(env, w, id, outcome, now, error, v, e);
    case _ =>
      hide Moves;
      SameHolders(env, api, w, step, v);
      forall id | id in v.publishers ensures !Ahead(v.publishers[id], e) {
        SameRestAhead(v.publishers[id], w.publishers[id], e);
      }
  }

  lemma {:induction false} FinalStays(env: Env, api: Api, worlds: seq<World>, steps: seq<Step>, n: nat, e: ExecId)
    requires Continuation(env, api, worlds, steps) && n < |worlds| && Outbox(env, worlds[0]) && Final(worlds[0], e)
    ensures Outbox(env, worlds[n]) && Final(worlds[n], e)
  {
    hide Moves, Outbox, Final;
    if n > 0 {
      FinalStays(env, api, worlds, steps, n - 1, e);
      assert Moves(env, api, worlds[n - 1], steps[n - 1], worlds[n]);
      StepKeepsOutbox(env, api, worlds[n - 1], steps[n - 1], worlds[n]);
      StepKeepsFinal(env, api, worlds[n - 1], steps[n - 1], worlds[n], e);
    }
  }

  /** The queue can fail at any time. */
  lemma EnqueueFails(env: Env, api: Api, w: World, id: nat) returns (v: World)
    requires id in w.publishers && AtRow(w.publishers[id]) && w.publishers[id].phase.Enqueueing?
    ensures Moves(env, api, w, Enqueue(id, Outcome.Failed), v)
    ensures v.db == w.db && v.clock == w.clock
    ensures id in v.publishers && v.publishers[id] == w.publishers[id].(phase := MarkingFailed)
  {
    var p := w.publishers[id];
    v := w.(jobs := AfterEnqueue(w, p, Outcome.Failed).0, publishers := w.publishers[id := p.(phase := MarkingFailed)]);
    hide Blank;
  }

  /** A publisher on its way to fail its current row. */
  lemma FailsOn(env: Env, api: Api, w: World, id: nat) returns (step: Step, v: World)
    requires Outbox(env, w) && id in w.publishers && AtRow(w.publishers[id]) && !w.publishers[id].phase.MarkingFailed?
    ensures Moves(env, api, w, step, v) && Outbox(env, v)
    ensures id in v.publishers && v.publishers[id] == w.publishers[id].(phase := MarkingFailed)
  {
    hide Outbox;
    if w.publishers[id].phase.Enqueueing? {
      step := Enqueue(id, Outcome.Failed);
      v := EnqueueFails(env, api, w, id);
    } else {
      step := Mark(id, Outcome.Failed, w.clock, "");
      v := MarkStep(env, w, id, Outcome.Failed, "");
      hide Moves;
      MarkRows(env, w, id, Outcome.Failed, w.clock, "", v);
    }
    hide Moves;
    StepKeepsOutbox(env, api, w, step, v);
  }

  /** A publisher that marks its current row failed, and goes on to the next. */
  lemma MarksFailed(env: Env, api: Api, w: World, id: nat) returns (v: World)
    requires Outbox(env, w) && id in w.publishers && AtRow(w.publishers[id]) && w.publishers[id].phase.MarkingFailed?
    ensures Moves(env, api, w, Mark(id, Ok, w.clock, ""), v) && Outbox(env, v)
    ensures id in v.publishers && v.publishers[id] == NextRow(w.publishers[id], false)
    ensures var e := w.publishers[id].rows[w.publishers[id].i];
      e in v.db.dispatches && v.db.dispatches[e].status == Ready
  {
    RowExists(env, w, id);
    hide Outbox;
    v := MarkStep(env, w, id, Ok, "");
    hide Moves;
    MarkRows(env, w, id, Ok, w.clock, "", v);
    FailureMark(env, w, id, "", v);
    StepKeepsOutbox(env, api, w, Mark(id, Ok, w.clock, ""), v);
  }

  lemma RowExists(env: Env, w: World, id: nat)
    requires Outbox(env, w) && id in w.publishers && AtRow(w.publishers[id])
    ensures w.publishers[id].rows[w.publishers[id].i] in w.db.dispatches
  {
    assert PublisherTold(w, w.publishers[id]);
  }

  /** Whoever still has the row ahead can come to mark it failed, whatever its status is now. */
  lemma CanBeUndone(env: Env, api: Api, w: World, id: nat, k: nat) returns (worlds: seq<World>, steps: seq<Step>)
    requires Outbox(env, w) && id in w.publishers && w.publishers[id].i <= k < |w.publishers[id].rows|
    ensures Continuation(env, api, worlds, steps) && worlds[0] == w
    ensures var last, e := worlds[|worlds| - 1], w.publishers[id].rows[k];
      e in last.db.dispatches && last.db.dispatches[e].status == Ready
    decreases k - w.publishers[id].i, w.publishers[id].phase != MarkingFailed
  {
    hide Outbox, Moves;
    if !w.publishers[id].phase.MarkingFailed? {
      var step, v := FailsOn(env, api, w, id);
      worlds, steps := CanBeUndone(env, api, v, id, k);
      Prepend(env, api, w, step, worlds, steps);
      worlds, steps := [w] + worlds, [step] + steps;
    } else {
      var v := MarksFailed(env, api, w, id);
      var step := Mark(id, Ok, w.clock, "");
      if w.publishers[id].i == k {
        worlds, steps := [w, v], [step];
      } else {
        worlds, steps := CanBeUndone(env, api, v, id, k);
        Prepend(env, api, w, step, worlds, steps);
        worlds, steps := [w] + worlds, [step] + steps;
      }
    }
  }

  /** A dispatched row is dispatched in every continuation, for any callers, timing and lost answers. */
  ghost predicate DispatchedForGood(env: Env, api: Api, w: World, e: ExecId) {
    forall worlds: seq<World>, steps: seq<Step> | Continuation(env, api, worlds, steps) && worlds[0] == w ::
      EndsDispatched(worlds, e)
  }

  predicate EndsDispatched(worlds: seq<World>, e: ExecId) {
    && worlds != []
    && var last := worlds[|worlds| - 1].db;
       e in last.dispatches && last.dispatches[e].status == Dispatched
  }

  /** Exactly: DISPATCHED is final if and only if no publisher still has the row ahead. */
  lemma DispatchedIsFinalIff(env: Env, api: Api, w: World, e: ExecId)
    requires Outbox(env, w) && e in w.db.dispatches && w.db.dispatches[e].status == Dispatched
    ensures DispatchedForGood(env, api, w, e) <==> forall id | id in w.publishers :: !Ahead(w.publishers[id], e)
  {
    hide Outbox, Moves;
    if Final(w, e) {
      forall worlds: seq<World>, steps: seq<Step> | Continuation(env, api, worlds, steps) && worlds[0] == w
        ensures EndsDispatched(worlds, e)
      {
        FinalStays(env, api, worlds, steps, |worlds| - 1, e);
      }
    } else {
      var id :| id in w.publishers && Ahead(w.publishers[id], e);
      var k :| w.publishers[id].i <= k < |w.publishers[id].rows| && w.publishers[id].rows[k] == e;
      var worlds, steps := CanBeUndone(env, api, w, id, k);
      assert Continuation(env, api, worlds, steps) && worlds[0] == w && !EndsDispatched(worlds, e);
    }
  }

  /**
   * Why answers must be believable: when a success mark commits but its answer is lost, the publisher
   * goes on to mark the row failed, and a DISPATCHED row is PENDING again, its job queued and its
   * `dispatched_at` still set.
   */
  lemma LostAnswerUndoesDispatch(env: Env, w: World, id: nat, error: string) returns (v: World, u: World)
    requires Outbox(env, w) && id in w.publishers && AtRow(w.publishers[id]) && w.publishers[id].phase.MarkingDone?
    ensures Moves(env, ClosedApi, w, Mark(id, Lost, w.clock, error), v)
    ensures Moves(env, ClosedApi, v, Mark(id, Ok, w.clock, error), u)
    ensures var p := w.publishers[id]; var e := p.rows[p.i];
      && e in v.db.dispatches && v.db.dispatches[e].status == Dispatched
      && e in u.db.dispatches && u.db.dispatches[e].status == Ready && u.db.dispatches[e].dispatchedAt.Some?
      && e in u.jobs
  {
    CurrentRowExists(env, w, id);
    hide Moves, Outbox, MarkedRow;
    v := MarkStep(env, w, id, Lost, error);
    LostMark(env, w, id, error, v);
    u := MarkStep(env, v, id, Ok, error);
    FailureMark(env, v, id, error, u);
  }

  lemma LostMark(env: Env, w: World, id: nat, error: string, v: World)
    requires Moves(env, OpenApi, w, Mark(id, Lost, w.clock, error), v) && w.publishers[id].phase.MarkingDone?
    requires w.publishers[id].rows[w.publishers[id].i] in w.db.dispatches
    ensures var p := w.publishers[id]; var e := p.rows[p.i];
      && e in v.db.dispatches && v.db.dispatches[e].status == Dispatched && v.db.dispatches[e].dispatchedAt.Some?
      && id in v.publishers && v.publishers[id] == p.(phase := MarkingFailed)
      && v.jobs == w.jobs && v.clock == w.clock
  {
    hide Moves;
    MarkRows(env, w, id, Lost, w.clock, error, v);
  }

  lemma FailureMark(env: Env, w: World, id: nat, error: string, v: World)
    requires Moves(env, OpenApi, w, Mark(id, Ok, w.clock, error), v) && w.publishers[id].phase.MarkingFailed?
    requires w.publishers[id].rows[w.publishers[id].i] in w.db.dispatches
    ensures var p := w.publishers[id]; var e := p.rows[p.i];
      && e in v.db.dispatches && v.db.dispatches[e].status == Ready
      && v.db.dispatches[e].dispatchedAt == w.db.dispatches[e].dispatchedAt && v.jobs == w.jobs
  {
    hide Moves;
    MarkRows(env, w, id, Ok, w.clock, error, v);
  }

  lemma CurrentRowExists(env: Env, w: World, id: nat)
    requires Outbox(env, w) && id in w.publishers && AtRow(w.publishers[id]) && w.publishers[id].phase.MarkingDone?
    ensures var e := w.publishers[id].rows[w.publishers[id].i]; e in w.db.dispatches && e in w.jobs
  {
    assert PublisherTold(w, w.publishers[id]);
  }

  /** Marks are always possible. */
  lemma MarkStep(env: Env, w: World, id: nat, outcome: Outcome, error: string) returns (v: World)
    requires id in w.publishers && AtRow(w.publishers[id]) && !w.publishers[id].phase.Enqueueing?
    ensures Moves(env, OpenApi, w, Mark(id, outcome, w.clock, error), v)
    ensures Moves(env, ClosedApi, w, Mark(id, outcome, w.clock, error), v)
  {
    var op := MarkOp(w.publishers[id], error);
    v := w.(db := if outcome.Failed? then w.db else After(op, Choice(w.clock, w.clock, [], []), w.db),
            publishers := AfterMark(w.publishers, id, outcome));
    hide After, AfterMark;
  }

  // ---------- it happens ----------

  const FIRST_WORLD := World(NO_ROWS, 0, {}, map[], map[], map[], map[])

  /** A request that policy lets run at once, under a name the queue accepts. */
  predicate OpenRequest(r: Request) {
    Valid(r) && InitialStatus(r) == Intake && !Blank(r.executionId)
  }

  function StartOf(env: Env, r: Request): Op {
    Start(r, RequestHash(env, r), None, 0, "")
  }

  lemma OpensFirst(env: Env, r: Request) returns (v: World)
    requires OpenRequest(r)
    ensures Moves(env, ClosedApi, FIRST_WORLD, Call(StartOf(env, r), NO_READ), v)
    ensures v == FIRST_WORLD.(db := v.db) && v.db.dispatches == map[r.executionId := NewDispatch(0)]
  {
    hide Valid, RequestHash, Blank;
    v := FIRST_WORLD.(db := After(StartOf(env, r), NO_READ, NO_ROWS));
    hide StartWrites;
    AfterStart(StartOf(env, r), NO_READ, NO_ROWS);
    hide After, Effect;
  }

  lemma ClaimsFirst(env: Env, w: World, e: ExecId) returns (v: World)
    requires w == FIRST_WORLD.(db := w.db) && w.db.dispatches == map[e := NewDispatch(0)]
    ensures Moves(env, ClosedApi, w, Claim(0, 20, 30000, Choice(0, 0, [], [e])), v)
    ensures e in v.db.dispatches && v.db.dispatches[e].queue == EXECUTION_QUEUE_NAME && v.clock == 0
    ensures v.publishers == map[0 := Publisher([e], 30000, 0, Enqueueing, 0, 0)]
  {
    var op, ch := ClaimDispatches(20, 30000), Choice(0, 0, [], [e]);
    assert ClaimableRows(w.db, ch.rows, ch.begun);
    v := w.(db := After(op, ch, w.db),
            publishers := w.publishers[0 := Publisher([e], SafeLease(30000), 0, Enqueueing, 0, 0)],
            claims := CountClaims(w.claims, [e]), lastClaim := RecordClaims(w.lastClaim, [e], 0));
    AfterTouch(op, ch, w.db);
    hide After, ClaimableRows, CountClaims, RecordClaims;
  }

  lemma EnqueuesFirst(env: Env, w: World, e: ExecId) returns (v: World)
    requires w.publishers == map[0 := Publisher([e], 30000, 0, Enqueueing, 0, 0)] && !Blank(e)
    requires e in w.db.dispatches && w.db.dispatches[e].queue == EXECUTION_QUEUE_NAME
    ensures Moves(env, ClosedApi, w, Enqueue(0, Ok), v)
    ensures v.publishers == map[0 := Publisher([e], 30000, 0, MarkingDone, 0, 0)] && v.clock == w.clock
  {
    hide Blank;
    v := w.(jobs := w.jobs + {e}, publishers := w.publishers[0 := w.publishers[0].(phase := MarkingDone)]);
  }

  lemma ClaimedFromTheStart(env: Env, r: Request) returns (worlds: seq<World>, steps: seq<Step>)
    requires OpenRequest(r)
    ensures WorldRun(env, ClosedApi, worlds, steps) && |worlds| == 3
    ensures var w, e := worlds[2], r.executionId;
      && e in w.db.dispatches && w.db.dispatches[e].queue == EXECUTION_QUEUE_NAME && w.clock == 0
      && w.publishers == map[0 := Publisher([e], 30000, 0, Enqueueing, 0, 0)]
  {
    assert WorldRun(env, ClosedApi, [FIRST_WORLD], []);
    hide Moves, OpenRequest, WorldRun;
    var w1 := OpensFirst(env, r);
    var w2 := ClaimsFirst(env, w1, r.executionId);
    var start, claim := Call(StartOf(env, r), NO_READ), Claim(0, 20, 30000, Choice(0, 0, [], [r.executionId]));
    RunGoesOn(env, ClosedApi, [FIRST_WORLD], [], start, w1);
    RunGoesOn(env, ClosedApi, [FIRST_WORLD] + [w1], [] + [start], claim, w2);
    worlds, steps := [FIRST_WORLD] + [w1] + [w2], [] + [start] + [claim];
  }

  lemma EnqueuedFromTheStart(env: Env, r: Request) returns (worlds: seq<World>, steps: seq<Step>)
    requires OpenRequest(r)
    ensures WorldRun(env, ClosedApi, worlds, steps) && |worlds| == 4 && |steps| == 3
    ensures worlds[3].publishers == map[0 := Publisher([r.executionId], 30000, 0, MarkingDone, 0, 0)]
  {
    assert !Blank(r.executionId);
    worlds, steps := ClaimedFromTheStart(env, r);
    assert |steps| == 2;
    hide Moves, OpenRequest, WorldRun, Blank;
    var w3 := EnqueuesFirst(env, worlds[2], r.executionId);
    RunGoesOn(env, ClosedApi, worlds, steps, Enqueue(0, Ok), w3);
    worlds, steps := worlds + [w3], steps + [Enqueue(0, Ok)];
  }

  /**
   * From the very start, with any open request: dispatched after four steps, pending again after five,
   * its job queued.
   */
  lemma LostAnswerHappens(env: Env, r: Request) returns (worlds: seq<World>, steps: seq<Step>)
    requires OpenRequest(r)
    ensures WorldRun(env, ClosedApi, worlds, steps) && |worlds| == 6
    ensures var e := r.executionId;
      && e in worlds[4].db.dispatches && worlds[4].db.dispatches[e].status == Dispatched
      && e in worlds[5].db.dispatches && worlds[5].db.dispatches[e].status == Ready && e in worlds[5].jobs
  {
    hide Moves, OpenRequest, WorldRun, Outbox;
    worlds, steps := EnqueuedFromTheStart(env, r);
    RunKeepsOutbox(env, ClosedApi, worlds, steps, 3);
    var now := worlds[3].clock;
    var w4, w5 := LostAnswerUndoesDispatch(env, worlds[3], 0, "");
    RunGoesOn(env, ClosedApi, worlds, steps, Mark(0, Lost, now, ""), w4);
    worlds, steps := worlds + [w4], steps + [Mark(0, Lost, now, "")];
    RunGoesOn(env, ClosedApi, worlds, steps, Mark(0, Ok, now, ""), w5);
    worlds, steps := worlds + [w5], steps + [Mark(0, Ok, now, "")];
  }
}
