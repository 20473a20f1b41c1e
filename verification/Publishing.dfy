/**
 * The queue and the outbox publisher: `publishOnce` claims a batch, enqueues and marks each row, and
 * accounts for every claim; it is a run of the publisher in the runtime's world; and run alone and
 * undisturbed it drains the outbox, oldest batch first.
 */
module Publishing {
  import opened Base
  import opened Requests
  import opened Tables
  import opened Kernel
  import opened Draining
  import opened Stores
  import Runtime

  type Outcome = Runtime.Outcome

  /** How the outside world answers for one row: the queue, the success mark, the failure mark. */
  datatype Answers = Answers(enqueue: Outcome, mark: Outcome, unmark: Outcome, clock: int, error: string)

  datatype PublishResult = PublishResult(claimed: nat, dispatched: nat, failed: nat)

  class ExecutionQueue {
    var jobs: set<ExecId>

    constructor ()
      ensures jobs == {}
    {
      jobs := {};
    }

    /** Adds the job under the execution's id, unless that is blank or the queue fails; a known id adds nothing. */
    method Enqueue(e: ExecId, answer: Outcome) returns (ok: bool)
      modifies this
      ensures ok <==> !Blank(e) && answer.Ok?
      ensures jobs == if !Blank(e) && !answer.Failed? then old(jobs) + {e} else old(jobs)
    {
      if Blank(e) {
        return false;
      }
      if !answer.Failed? {
        jobs := jobs + {e};
      }
      return answer.Ok?;
    }
  }

  // ---------- what one call comes to ----------

  /** The row's job gets queued and the row marked, both with a good answer. */
  predicate Good(row: DispatchRow, e: ExecId, a: Answers) {
    row.queue == EXECUTION_QUEUE_NAME && !Blank(e) && a.enqueue.Ok? && a.mark.Ok?
  }

  /** Tables, queue, counts, and whether the call raised. */
  datatype Published = Published(db: Db, jobs: set<ExecId>, dispatched: nat, failed: nat, raised: bool)

  /** A mark, if it takes effect. */
  ghost function Marking(db: Db, op: Op, clock: int, answer: Outcome): Db
    requires op.MarkSucceeded? || op.MarkFailed?
  {
    if answer.Failed? then db else After(op, Choice(clock, clock, [], []), db)
  }

  /** One row more. */
  ghost function RowAfter(p: Published, e: ExecId, a: Answers): Published
    requires e in p.db.dispatches
  {
    var sent := p.db.dispatches[e].queue == EXECUTION_QUEUE_NAME && !Blank(e);
    var jobs := if sent && !a.enqueue.Failed? then p.jobs + {e} else p.jobs;
    var db := if sent && a.enqueue.Ok? then Marking(p.db, MarkSucceeded(e), a.clock, a.mark) else p.db;
    if Good(p.db.dispatches[e], e, a) then Published(db, jobs, p.dispatched + 1, p.failed, false)
    else
      Published(Marking(db, MarkFailed(e, a.error), a.clock, a.unmark), jobs,
        p.dispatched, if a.unmark.Ok? then p.failed + 1 else p.failed, !a.unmark.Ok?)
  }

  /** The first `k` rows, or up to the one at which the call raises. */
  ghost function RowsAfter(p: Published, rows: seq<ExecId>, answers: seq<Answers>, k: nat): Published
    requires |answers| == |rows| && k <= |rows|
  {
    if k == 0 then p
    else
      var q := RowsAfter(p, rows, answers, k - 1);
      if q.raised || rows[k - 1] !in q.db.dispatches then q else RowAfter(q, rows[k - 1], answers[k - 1])
  }

  /** The tables once the claiming transaction has committed. */
  ghost function ClaimedTables(db: Db, limit: int, lease: int, rows: seq<ExecId>, now: int): Db {
    After(ClaimDispatches(limit, lease), Choice(now, now, [], rows), db)
  }

  /** The tables, the queue and the counts after the first `k` rows, none of which made the call raise. */
  ghost predicate Reached(db: Db, before: set<ExecId>, rows: seq<ExecId>, answers: seq<Answers>, k: nat,
                          t: Db, jobs: set<ExecId>, dispatched: nat, failed: nat)
    requires |answers| == |rows| && k <= |rows|
  {
    && RowsAfter(Published(db, before, 0, 0, false), rows, answers, k) == Published(t, jobs, dispatched, failed, false)
    && t.dispatches.Keys == db.dispatches.Keys
  }

  /** What handling one row does, and answers. */
  ghost predicate RowCameTo(
      t: Db, before: set<ExecId>, e: ExecId, a: Answers, u: Db, jobs: set<ExecId>, good: bool, raised: bool)
    requires e in t.dispatches
  {
    RowAfter(Published(t, before, 0, 0, false), e, a)
      == Published(u, jobs, if good then 1 else 0, if good || raised then 0 else 1, raised)
  }

  /** What the whole loop does, and answers. */
  ghost predicate RowsCameTo(db: Db, before: set<ExecId>, rows: seq<ExecId>, answers: seq<Answers>,
                             t: Db, jobs: set<ExecId>, result: Option<PublishResult>)
    requires |answers| == |rows|
  {
    var p := RowsAfter(Published(db, before, 0, 0, false), rows, answers, |rows|);
    && t == p.db && jobs == p.jobs
    && result == if p.raised then None else Some(PublishResult(|rows|, p.dispatched, p.failed))
  }

  /** What the claiming transaction does. */
  ghost predicate BatchTaken(db: Db, claim: Outcome, limit: int, lease: int, rows: seq<ExecId>, now: int, t: Db) {
    t == if claim.Failed? then db else ClaimedTables(db, limit, lease, rows, now)
  }

  /** What the whole call does, and answers: its claim may fail, or take effect and be reported as an error. */
  ghost predicate CallCameTo(db: Db, before: set<ExecId>, claim: Outcome, limit: int, lease: int, rows: seq<ExecId>,
                             answers: seq<Answers>, now: int, t: Db, jobs: set<ExecId>, result: Option<PublishResult>)
    requires |answers| == |rows|
  {
    match claim
    case Ok => RowsCameTo(ClaimedTables(db, limit, lease, rows, now), before, rows, answers, t, jobs, result)
    case Lost => t == ClaimedTables(db, limit, lease, rows, now) && jobs == before && result.None?
    case Failed => t == db && jobs == before && result.None?
  }

  lemma CountsAdd(db: Db, jobs: set<ExecId>, m: nat, n: nat, e: ExecId, a: Answers)
    requires e in db.dispatches
    ensures var p := RowAfter(Published(db, jobs, 0, 0, false), e, a);
      RowAfter(Published(db, jobs, m, n, false), e, a) == p.(dispatched := m + p.dispatched, failed := n + p.failed)
  {
    hide Marking, Good, Blank;
  }

  lemma {:induction false} RaisedStays(p: Published, rows: seq<ExecId>, answers: seq<Answers>, k: nat, n: nat)
    requires |answers| == |rows| && k <= n <= |rows| && RowsAfter(p, rows, answers, k).raised
    ensures RowsAfter(p, rows, answers, n) == RowsAfter(p, rows, answers, k)
  {
    hide RowAfter;
    if k < n { RaisedStays(p, rows, answers, k, n - 1); }
  }

  /** Rows of the table, none twice. */
  predicate Batch(db: Db, rows: seq<ExecId>) {
    && (forall i | 0 <= i < |rows| :: rows[i] in db.dispatches)
    && (forall i, j | 0 <= i < j < |rows| :: rows[i] != rows[j])
  }

  function CountGood(db: Db, rows: seq<ExecId>, answers: seq<Answers>, k: nat): (n: nat)
    requires Batch(db, rows) && |answers| == |rows| && k <= |rows|
    ensures n <= k
  {
    if k == 0 then 0
    else
      var good := Good(db.dispatches[rows[k - 1]], rows[k - 1], answers[k - 1]);
      CountGood(db, rows, answers, k - 1) + if good then 1 else 0
  }

  /** The job reached the queue and the queue said so. */
  predicate Sent(row: DispatchRow, e: ExecId, a: Answers) {
    row.queue == EXECUTION_QUEUE_NAME && !Blank(e) && a.enqueue.Ok?
  }

  /** What is kept of an error message. */
  function Shortened(error: string): (kept: string)
    ensures kept <= error && |kept| <= 2000 && (|kept| < 2000 ==> kept == error)
  {
    if |error| <= 2000 then error else error[..2000]
  }

  /**
   * `row` once handled: DISPATCHED at the clock of the answers, or PENDING again with what is kept of the
   * error, and then `dispatched_at` is only set if a success mark took effect all the same; unleased in both cases.
   */
  predicate Settled(row: DispatchRow, after: DispatchRow, e: ExecId, a: Answers) {
    if Good(row, e, a) then
      after == row.(status := Dispatched, lockedUntil := None, lastError := None, dispatchedAt := Some(a.clock))
    else
      after == row.(status := Ready, lockedUntil := None, lastError := Some(Shortened(a.error)),
                    dispatchedAt := if Sent(row, e, a) && a.mark.Lost? then Some(a.clock) else row.dispatchedAt)
  }

  /** A claimed row once handled; a good one has its job queued. */
  predicate Handled(row: DispatchRow, after: DispatchRow, e: ExecId, a: Answers, queued: bool) {
    && Settled(row, after.(attempts := row.attempts), e, a) && after.attempts == row.attempts + 1
    && (Good(row, e, a) ==> queued)
  }

  /** The rows of a batch after its first `k` have been handled, the rest still leased. */
  ghost predicate Progressed(
      db: Db, t: Db, rows: seq<ExecId>, answers: seq<Answers>, k: nat, until: int, jobs: set<ExecId>)
    requires Batch(db, rows) && |answers| == |rows| && k <= |rows|
  {
    && t == db.(dispatches := t.dispatches) && t.dispatches.Keys == db.dispatches.Keys
    && (forall e | e in db.dispatches && e !in rows :: t.dispatches[e] == db.dispatches[e])
    && (forall i | 0 <= i < k ::
          Handled(db.dispatches[rows[i]], t.dispatches[rows[i]], rows[i], answers[i], rows[i] in jobs))
    && (forall i | k <= i < |rows| :: t.dispatches[rows[i]] == ClaimedRow(db.dispatches[rows[i]], until))
  }

  /** What handling one row does to the tables, the queue and the counts. */
  ghost predicate RowPublished(p: Published, q: Published, e: ExecId, a: Answers) {
    && e in p.db.dispatches && q.db == p.db.(dispatches := q.db.dispatches)
    && q.db.dispatches.Keys == p.db.dispatches.Keys && p.jobs <= q.jobs
    && (forall d | d in p.db.dispatches && d != e :: q.db.dispatches[d] == p.db.dispatches[d])
    && var good := Good(p.db.dispatches[e], e, a);
       && (good ==> e in q.jobs)
       && (good || a.unmark.Ok? ==> Settled(p.db.dispatches[e], q.db.dispatches[e], e, a))
       && (q.raised <==> !good && !a.unmark.Ok?)
       && q.dispatched == (if good then p.dispatched + 1 else p.dispatched)
       && q.failed == (if !good && a.unmark.Ok? then p.failed + 1 else p.failed)
  }

  lemma RowIsPublished(p: Published, e: ExecId, a: Answers)
    requires e in p.db.dispatches
    ensures RowPublished(p, RowAfter(p, e, a), e, a)
  {
    hide Blank, After;
    var ch := Choice(a.clock, a.clock, [], []);
    AfterTouch(MarkSucceeded(e), ch, p.db);
    assert a.error[..|a.error|] == a.error;
    AfterTouch(MarkFailed(e, a.error), ch, p.db);
    AfterTouch(MarkFailed(e, a.error), ch, Marking(p.db, MarkSucceeded(e), a.clock, a.mark));
  }

  /**
   * The call raised at row `k`, which was not dispatched: the rows before it are handled, those after it
   * still leased.
   */
  ghost predicate AbandonedAt(
      db: Db, t: Db, rows: seq<ExecId>, answers: seq<Answers>, k: nat, until: int, jobs: set<ExecId>)
    requires Batch(db, rows) && |answers| == |rows| && k < |rows|
  {
    && !Good(db.dispatches[rows[k]], rows[k], answers[k]) && !answers[k].unmark.Ok?
    && t == db.(dispatches := t.dispatches) && t.dispatches.Keys == db.dispatches.Keys
    && (forall e | e in db.dispatches && e !in rows :: t.dispatches[e] == db.dispatches[e])
    && (forall i | 0 <= i < k ::
          Handled(db.dispatches[rows[i]], t.dispatches[rows[i]], rows[i], answers[i], rows[i] in jobs))
    && (forall i | k < i < |rows| :: t.dispatches[rows[i]] == ClaimedRow(db.dispatches[rows[i]], until))
  }

  ghost predicate Abandoned(db: Db, t: Db, rows: seq<ExecId>, answers: seq<Answers>, until: int, jobs: set<ExecId>)
    requires Batch(db, rows) && |answers| == |rows|
  {
    exists k: nat :: k < |rows| && AbandonedAt(db, t, rows, answers, k, until, jobs)
  }

  lemma OneMorePublished(
      db: Db, p: Published, q: Published, rows: seq<ExecId>, answers: seq<Answers>, k: nat, until: int)
    requires Batch(db, rows) && |answers| == |rows| && k < |rows|
    requires Progressed(db, p.db, rows, answers, k, until, p.jobs) && RowPublished(p, q, rows[k], answers[k])
    ensures Good(p.db.dispatches[rows[k]], rows[k], answers[k]) <==> Good(db.dispatches[rows[k]], rows[k], answers[k])
    ensures !q.raised ==> Progressed(db, q.db, rows, answers, k + 1, until, q.jobs)
    ensures q.raised ==> AbandonedAt(db, q.db, rows, answers, k, until, q.jobs)
  {
    hide Blank;
    assert p.db.dispatches[rows[k]] == ClaimedRow(db.dispatches[rows[k]], until);
    forall i | 0 <= i < k
      ensures Handled(db.dispatches[rows[i]], q.db.dispatches[rows[i]], rows[i], answers[i], rows[i] in q.jobs)
    {
      assert Handled(db.dispatches[rows[i]], p.db.dispatches[rows[i]], rows[i], answers[i], rows[i] in p.jobs);
    }
  }

  lemma NextIsThere(db: Db, t: Db, rows: seq<ExecId>, answers: seq<Answers>, k: nat, until: int, jobs: set<ExecId>)
    requires Batch(db, rows) && |answers| == |rows| && k < |rows| && Progressed(db, t, rows, answers, k, until, jobs)
    ensures rows[k] in t.dispatches
  {
    assert t.dispatches[rows[k]] == ClaimedRow(db.dispatches[rows[k]], until);
  }

  /** The first `k` rows: all accounted for, or the call has raised at one of them. */
  lemma {:induction false} RowsAccounted(
      db: Db, first: Published, rows: seq<ExecId>, answers: seq<Answers>, k: nat, until: int)
    requires Batch(db, rows) && |answers| == |rows| && k <= |rows|
    requires Progressed(db, first.db, rows, answers, 0, until, first.jobs)
    requires first.dispatched == first.failed == 0 && !first.raised
    ensures var p := RowsAfter(first, rows, answers, k);
      && first.jobs <= p.jobs
      && (p.raised ==> Abandoned(db, p.db, rows, answers, until, p.jobs))
      && (!p.raised ==>
            && p.dispatched == CountGood(db, rows, answers, k) && p.dispatched + p.failed == k
            && Progressed(db, p.db, rows, answers, k, until, p.jobs))
  {
    hide Progressed, Batch, RowAfter, Good, AbandonedAt;
    if k > 0 {
      RowsAccounted(db, first, rows, answers, k - 1, until);
      var p := RowsAfter(first, rows, answers, k - 1);
      if !p.raised {
        NextIsThere(db, p.db, rows, answers, k - 1, until, p.jobs);
        RowIsPublished(p, rows[k - 1], answers[k - 1]);
        OneMorePublished(db, p, RowAfter(p, rows[k - 1], answers[k - 1]), rows, answers, k - 1, until);
      }
    }
  }

  /** The call accounts for every claim, or has raised at a row. */
  ghost predicate Accounted(db: Db, t: Db, rows: seq<ExecId>, answers: seq<Answers>, until: int, jobs: set<ExecId>,
                            result: Option<PublishResult>)
    requires Batch(db, rows) && |answers| == |rows|
  {
    match result
    case Some(r) =>
      && r.claimed == |rows| == r.dispatched + r.failed && r.dispatched == CountGood(db, rows, answers, |rows|)
      && Progressed(db, t, rows, answers, |rows|, until, jobs)
    case None => Abandoned(db, t, rows, answers, until, jobs)
  }

  class ExecutionOutboxPublisher {
    const store: Store
    const queue: ExecutionQueue
    const batchSize: int
    const leaseMs: int

    constructor (store: Store, queue: ExecutionQueue, batchSize: Option<int>, leaseMs: Option<int>)
      ensures this.store == store && this.queue == queue
      ensures 1 <= this.batchSize <= 100 && 1000 <= this.leaseMs <= 300000
      ensures match batchSize
        case None => this.batchSize == 20
        case Some(n) => this.batchSize == if n < 1 then 1 else if n > 100 then 100 else n
      ensures match leaseMs
        case None => this.leaseMs == 30000
        case Some(n) => this.leaseMs == if n < 1000 then 1000 else if n > 300000 then 300000 else n
    {
      this.store, this.queue := store, queue;
      this.batchSize := Min(Max(match batchSize case None => 20 case Some(n) => n, 1), 100);
      this.leaseMs := Min(Max(match leaseMs case None => 30000 case Some(n) => n, 1000), 300000);
    }

    /**
     * `rows` is what the claim's selection found, whatever it had to skip, `claim` how the database
     * answers its transaction, and `answers` what the queue and the database say about each row.  No
     * result means that the call raised: at its claim, or at a failure mark that itself failed.
     */
    method PublishOnce(rows: seq<ExecId>, claim: Outcome, answers: seq<Answers>, now: int)
      returns (result: Option<PublishResult>)
      requires ClaimableRows(store.Tables(), rows, now) && |answers| == |rows|
      modifies store, queue
      ensures Batch(old(store.Tables()), rows) && old(queue.jobs) <= queue.jobs
      ensures claim.Ok? ==>
        Accounted(old(store.Tables()), store.Tables(), rows, answers, now + SafeLease(leaseMs), queue.jobs, result)
      ensures CallCameTo(old(store.Tables()), old(queue.jobs), claim, batchSize, leaseMs, rows, answers, now,
        store.Tables(), queue.jobs, result)
    {
      hide *;
      ghost var db, before := store.Tables(), queue.jobs;
      var claimed := ClaimBatch(rows, claim, now);
      if !claimed {
        Unclaimed(db, before, claim, rows, answers, now, store.Tables());
        return None;
      }
      ghost var taken := store.Tables();
      result := PublishRows(rows, answers);
      Outcome(db, before, rows, answers, now, taken, store.Tables(), queue.jobs, result);
    }

    /** The claiming transaction. */
    method ClaimBatch(rows: seq<ExecId>, claim: Outcome, now: int) returns (claimed: bool)
      requires ClaimableRows(store.Tables(), rows, now)
      modifies store
      ensures claimed <==> claim.Ok?
      ensures BatchTaken(old(store.Tables()), claim, batchSize, leaseMs, rows, now, store.Tables())
      ensures claimed ==> forall e | e in rows :: e in store.Tables().dispatches
    {
      ClaimedBatchRows(store.Tables(), rows, now);
      hide After, ClaimableRows, SafeLease;
      if !claim.Failed? {
        store.ClaimDispatches(rows, batchSize, leaseMs, now);
      }
      claimed := claim.Ok?;
    }

    /** What a claim that raises means for the batch. */
    lemma Unclaimed(
        db: Db, before: set<ExecId>, claim: Outcome, rows: seq<ExecId>, answers: seq<Answers>, now: int, t: Db)
      requires ClaimableRows(db, rows, now) && |answers| == |rows|
      requires !claim.Ok? && BatchTaken(db, claim, batchSize, leaseMs, rows, now, t)
      ensures Batch(db, rows)
      ensures CallCameTo(db, before, claim, batchSize, leaseMs, rows, answers, now, t, before, None)
    {
      ClaimedBatch(db, rows, answers, batchSize, leaseMs, now, before);
      hide ClaimedTables, ClaimableRows;
    }

    /** What the outcome of the loop means for the batch. */
    lemma Outcome(db: Db, before: set<ExecId>, rows: seq<ExecId>, answers: seq<Answers>, now: int,
                  taken: Db, t: Db, jobs: set<ExecId>, result: Option<PublishResult>)
      requires ClaimableRows(db, rows, now) && |answers| == |rows|
      requires BatchTaken(db, Runtime.Ok, batchSize, leaseMs, rows, now, taken)
      requires RowsCameTo(taken, before, rows, answers, t, jobs, result)
      ensures Batch(db, rows) && before <= jobs
      ensures CallCameTo(db, before, Runtime.Ok, batchSize, leaseMs, rows, answers, now, t, jobs, result)
      ensures Accounted(db, t, rows, answers, now + SafeLease(leaseMs), jobs, result)
    {
      hide Progressed, SafeLease, Abandoned, Batch, ClaimableRows, CountGood, ClaimedTables, RowsAfter;
      ClaimedBatch(db, rows, answers, batchSize, leaseMs, now, before);
      assert taken == ClaimedTables(db, batchSize, leaseMs, rows, now);
      hide BatchTaken;
      RowsAccounted(db, Published(taken, before, 0, 0, false), rows, answers, |rows|, now + SafeLease(leaseMs));
    }

    /** The loop over the claims. */
    method PublishRows(rows: seq<ExecId>, answers: seq<Answers>) returns (result: Option<PublishResult>)
      requires |answers| == |rows| && forall e | e in rows :: e in store.Tables().dispatches
      modifies store, queue
      ensures RowsCameTo(old(store.Tables()), old(queue.jobs), rows, answers, store.Tables(), queue.jobs, result)
    {
      ghost var db, before := store.Tables(), queue.jobs;
      assert Reached(db, before, rows, answers, 0, db, before, 0, 0);
      hide *;
      var dispatched, failed := 0, 0;
      var i := 0;
      while i < |rows|
        invariant 0 <= i <= |rows|
        invariant Reached(db, before, rows, answers, i, store.Tables(), queue.jobs, dispatched, failed)
      {
        ReachedKeys(db, before, rows, answers, i, store.Tables(), queue.jobs, dispatched, failed);
        ghost var t, jobs := store.Tables(), queue.jobs;
        var good, raised := PublishRow(rows[i], answers[i]);
        OneMoreRow(db, before, rows, answers, i, t, jobs, dispatched, failed, store.Tables(), queue.jobs, good, raised);
        if raised {
          return None;
        }
        if good {
          dispatched := dispatched + 1;
        } else {
          failed := failed + 1;
        }
        i := i + 1;
      }
      AllRows(db, before, rows, answers, store.Tables(), queue.jobs, dispatched, failed);
      return Some(PublishResult(|rows|, dispatched, failed));
    }

    lemma ReachedKeys(db: Db, before: set<ExecId>, rows: seq<ExecId>, answers: seq<Answers>, k: nat,
                      t: Db, jobs: set<ExecId>, dispatched: nat, failed: nat)
      requires |answers| == |rows| && k <= |rows| && Reached(db, before, rows, answers, k, t, jobs, dispatched, failed)
      ensures t.dispatches.Keys == db.dispatches.Keys
    {
    }

    lemma OneMoreRow(
        db: Db, before: set<ExecId>, rows: seq<ExecId>, answers: seq<Answers>, k: nat, t: Db, jobs: set<ExecId>,
        dispatched: nat, failed: nat, u: Db, after: set<ExecId>, good: bool, raised: bool)
      requires |answers| == |rows| && k < |rows| && Reached(db, before, rows, answers, k, t, jobs, dispatched, failed)
      requires rows[k] in t.dispatches && RowCameTo(t, jobs, rows[k], answers[k], u, after, good, raised)
      ensures raised ==> RowsCameTo(db, before, rows, answers, u, after, None)
      ensures !raised ==>
        Reached(db, before, rows, answers, k + 1, u, after,
          if good then dispatched + 1 else dispatched, if good then failed else failed + 1)
    {
      var first := Published(db, before, 0, 0, false);
      RowIsPublished(Published(t, jobs, 0, 0, false), rows[k], answers[k]);
      CountsAdd(t, jobs, dispatched, failed, rows[k], answers[k]);
      hide RowAfter;
      if raised { RaisedStays(first, rows, answers, k + 1, |rows|); }
    }

    lemma AllRows(db: Db, before: set<ExecId>, rows: seq<ExecId>, answers: seq<Answers>,
                  t: Db, jobs: set<ExecId>, dispatched: nat, failed: nat)
      requires |answers| == |rows| && Reached(db, before, rows, answers, |rows|, t, jobs, dispatched, failed)
      ensures RowsCameTo(db, before, rows, answers, t, jobs, Some(PublishResult(|rows|, dispatched, failed)))
    {
    }

    lemma ClaimedBatchRows(db: Db, rows: seq<ExecId>, now: int)
      requires ClaimableRows(db, rows, now)
      ensures forall e | e in rows :: e in db.dispatches
      ensures forall i, j | 0 <= i < j < |rows| :: rows[i] != rows[j]
      ensures forall e | e in rows :: e in ClaimedTables(db, batchSize, leaseMs, rows, now).dispatches
    {
      AfterTouch(ClaimDispatches(batchSize, leaseMs), Choice(now, now, [], rows), db);
      hide After;
    }

    /** One row: enqueue, mark, and on any error mark failed. */
    method PublishRow(e: ExecId, a: Answers) returns (good: bool, raised: bool)
      requires e in store.Tables().dispatches
      modifies store, queue
      ensures RowCameTo(old(store.Tables()), old(queue.jobs), e, a, store.Tables(), queue.jobs, good, raised)
    {
      good, raised := false, false;
      if store.dispatches[e].queue == EXECUTION_QUEUE_NAME {
        var queued := queue.Enqueue(e, a.enqueue);
        if queued {
          if !a.mark.Failed? {
            store.MarkDispatchSucceeded(e, a.clock);
          }
          good := a.mark.Ok?;
        }
      }
      if !good {
        if !a.unmark.Failed? {
          store.MarkDispatchFailed(e, a.error, a.clock);
        }
        raised := !a.unmark.Ok?;
      }
    }
  }

  lemma ClaimedBatch(
      db: Db, rows: seq<ExecId>, answers: seq<Answers>, limit: int, lease: int, now: int, jobs: set<ExecId>)
    requires ClaimableRows(db, rows, now) && |answers| == |rows|
    ensures Batch(db, rows)
    ensures Progressed(db, ClaimedTables(db, limit, lease, rows, now), rows, answers, 0, now + SafeLease(lease), jobs)
  {
    AfterTouch(ClaimDispatches(limit, lease), Choice(now, now, [], rows), db);
    hide After, ClaimedRow, SafeLease;
  }

  // ---------- the publisher of the runtime's world ----------

  /** A step of publisher `id`. */
  predicate StepOf(id: nat, step: Runtime.Step) {
    (step.Claim? || step.Enqueue? || step.Mark? || step.Leave?) && step.publisher == id
  }

  /** The world after publisher `id` has handled its current row as `p` says. */
  function WorldAfter(w: Runtime.World, id: nat, p: Published): Runtime.World
    requires id in w.publishers
  {
    var publisher :=
      w.publishers[id].(i := w.publishers[id].i + 1, phase := Runtime.Enqueueing,
                        dispatched := p.dispatched, failed := p.failed);
    w.(db := p.db, jobs := p.jobs,
       publishers := if p.raised then w.publishers - {id} else w.publishers[id := publisher])
  }

  function Standing(w: Runtime.World, id: nat): Published
    requires id in w.publishers
  {
    Published(w.db, w.jobs, w.publishers[id].dispatched, w.publishers[id].failed, false)
  }

  /** What the object does for one row is what its counterpart in the world does, in two or three steps. */
  lemma RowIsSteps(env: Env, api: Runtime.Api, w: Runtime.World, id: nat, a: Answers)
    returns (worlds: seq<Runtime.World>, steps: seq<Runtime.Step>)
    requires id in w.publishers && Runtime.AtRow(w.publishers[id]) && w.publishers[id].phase.Enqueueing?
    requires w.publishers[id].rows[w.publishers[id].i] in w.db.dispatches && a.clock <= w.clock
    ensures Runtime.Continuation(env, api, worlds, steps) && worlds[0] == w && 2 <= |steps| <= 3
    ensures forall i | 0 <= i < |steps| :: StepOf(id, steps[i])
    ensures var p := w.publishers[id];
      worlds[|steps|] == WorldAfter(w, id, RowAfter(Standing(w, id), p.rows[p.i], a))
  {
    hide Blank, Runtime.Moves, Runtime.AfterMark, Marking;
    var p := w.publishers[id];
    var enqueued := EnqueueStep(env, api, w, id, a);
    worlds, steps := [w, enqueued], [Runtime.Enqueue(id, a.enqueue)];
    if enqueued.publishers[id].phase.MarkingDone? {
      var marked := MarkStep(env, api, enqueued, id, a.mark, a);
      worlds, steps := worlds + [marked], steps + [Runtime.Mark(id, a.mark, a.clock, a.error)];
      MarkedAs(enqueued, id, a.mark);
      if !a.mark.Ok? {
        var unmarked := MarkStep(env, api, marked, id, a.unmark, a);
        worlds, steps := worlds + [unmarked], steps + [Runtime.Mark(id, a.unmark, a.clock, a.error)];
        MarkedAs(marked, id, a.unmark);
      }
    } else {
      var unmarked := MarkStep(env, api, enqueued, id, a.unmark, a);
      worlds, steps := worlds + [unmarked], steps + [Runtime.Mark(id, a.unmark, a.clock, a.error)];
      MarkedAs(enqueued, id, a.unmark);
    }
  }

  lemma EnqueueStep(env: Env, api: Runtime.Api, w: Runtime.World, id: nat, a: Answers) returns (v: Runtime.World)
    requires id in w.publishers && Runtime.AtRow(w.publishers[id]) && w.publishers[id].phase.Enqueueing?
    requires w.publishers[id].rows[w.publishers[id].i] in w.db.dispatches
    ensures Runtime.Moves(env, api, w, Runtime.Enqueue(id, a.enqueue), v)
    ensures var p := w.publishers[id]; var e := p.rows[p.i];
      var sent := w.db.dispatches[e].queue == EXECUTION_QUEUE_NAME && !Blank(e);
      var phase := if sent && a.enqueue.Ok? then Runtime.MarkingDone else Runtime.MarkingFailed;
      v == w.(jobs := if sent && !a.enqueue.Failed? then w.jobs + {e} else w.jobs,
              publishers := w.publishers[id := p.(phase := phase)])
  {
    hide Blank;
    var (jobs, phase) := Runtime.AfterEnqueue(w, w.publishers[id], a.enqueue);
    v := w.(jobs := jobs, publishers := w.publishers[id := w.publishers[id].(phase := phase)]);
  }

  lemma MarkStep(env: Env, api: Runtime.Api, w: Runtime.World, id: nat, answer: Outcome, a: Answers)
    returns (v: Runtime.World)
    requires id in w.publishers && Runtime.AtRow(w.publishers[id]) && !w.publishers[id].phase.Enqueueing?
    requires a.clock <= w.clock
    ensures Runtime.Moves(env, api, w, Runtime.Mark(id, answer, a.clock, a.error), v)
    ensures v == w.(db := Marking(w.db, Runtime.MarkOp(w.publishers[id], a.error), a.clock, answer),
                    publishers := Runtime.AfterMark(w.publishers, id, answer))
  {
    hide After, Runtime.AfterMark;
    v := w.(db := Marking(w.db, Runtime.MarkOp(w.publishers[id], a.error), a.clock, answer),
            publishers := Runtime.AfterMark(w.publishers, id, answer));
  }

  lemma MarkedAs(w: Runtime.World, id: nat, answer: Outcome)
    requires id in w.publishers
    ensures var p := w.publishers[id];
      Runtime.AfterMark(w.publishers, id, answer)
        == if answer.Ok? then w.publishers[id := Runtime.NextRow(p, p.phase.MarkingDone?)]
           else if p.phase.MarkingDone? then w.publishers[id := p.(phase := Runtime.MarkingFailed)]
           else w.publishers - {id}
  {
  }

  /** Publisher `id` has handled the first `k` rows of its batch as `p` says, or has left because the call raised. */
  ghost predicate Follows(w: Runtime.World, id: nat, rows: seq<ExecId>, until: int, k: nat, p: Published) {
    && w.db == p.db && w.jobs == p.jobs
    && if p.raised then id !in w.publishers
       else
         && id in w.publishers
         && w.publishers[id] == Runtime.Publisher(rows, until, k, Runtime.Enqueueing, p.dispatched, p.failed)
  }

  lemma RowFollows(
      w: Runtime.World, v: Runtime.World, id: nat, rows: seq<ExecId>, until: int, k: nat, p: Published, a: Answers)
    requires Follows(w, id, rows, until, k, p) && !p.raised && k < |rows| && rows[k] in p.db.dispatches
    requires v == WorldAfter(w, id, RowAfter(Standing(w, id), rows[k], a))
    ensures Follows(v, id, rows, until, k + 1, RowAfter(p, rows[k], a))
    ensures v.clock == w.clock
  {
    hide RowAfter;
    assert Standing(w, id) == p;
  }

  lemma {:induction false} RowsAreSteps(
      env: Env, api: Runtime.Api, w: Runtime.World, id: nat, rows: seq<ExecId>, answers: seq<Answers>, until: int,
      k: nat)
    returns (worlds: seq<Runtime.World>, steps: seq<Runtime.Step>)
    requires |answers| == |rows| && k <= |rows| && (forall i | 0 <= i < |rows| :: answers[i].clock <= w.clock)
    requires Follows(w, id, rows, until, 0, Published(w.db, w.jobs, 0, 0, false))
    requires forall i | 0 <= i < |rows| :: rows[i] in w.db.dispatches
    ensures Runtime.Continuation(env, api, worlds, steps) && worlds[0] == w
    ensures forall i | 0 <= i < |steps| :: StepOf(id, steps[i])
    ensures var p := RowsAfter(Published(w.db, w.jobs, 0, 0, false), rows, answers, k);
      && worlds[|steps|].clock == w.clock && p.db.dispatches.Keys == w.db.dispatches.Keys
      && Follows(worlds[|steps|], id, rows, until, k, p)
  {
    hide Runtime.Moves, RowAfter, Follows, WorldAfter, Standing, StepOf;
    var first := Published(w.db, w.jobs, 0, 0, false);
    if k == 0 {
      worlds, steps := [w], [];
    } else {
      worlds, steps := RowsAreSteps(env, api, w, id, rows, answers, until, k - 1);
      var p, v := RowsAfter(first, rows, answers, k - 1), worlds[|steps|];
      if p.raised {
        LeftFollows(v, id, rows, until, k - 1, p);
      } else {
        Current(v, id, rows, until, k - 1, p);
        var rest, more := RowIsSteps(env, api, v, id, answers[k - 1]);
        RowFollows(v, rest[|more|], id, rows, until, k - 1, p, answers[k - 1]);
        RowKeys(p, rows[k - 1], answers[k - 1]);
        Runtime.Append(env, api, worlds, steps, rest, more);
        worlds, steps := worlds[..|steps|] + rest, steps + more;
      }
    }
  }

  lemma LeftFollows(w: Runtime.World, id: nat, rows: seq<ExecId>, until: int, k: nat, p: Published)
    requires Follows(w, id, rows, until, k, p) && p.raised
    ensures Follows(w, id, rows, until, k + 1, p)
  {
  }

  lemma Current(w: Runtime.World, id: nat, rows: seq<ExecId>, until: int, k: nat, p: Published)
    requires Follows(w, id, rows, until, k, p) && !p.raised && k < |rows|
    ensures id in w.publishers && Runtime.AtRow(w.publishers[id]) && w.publishers[id].phase.Enqueueing?
    ensures w.publishers[id].rows[w.publishers[id].i] == rows[k] && w.db == p.db
  {
  }

  lemma RowKeys(p: Published, e: ExecId, a: Answers)
    requires e in p.db.dispatches
    ensures RowAfter(p, e, a).db.dispatches.Keys == p.db.dispatches.Keys
  {
    hide RowAfter, Good;
    RowIsPublished(p, e, a);
  }

  lemma ClaimedCallIsRun(
      env: Env, api: Runtime.Api, w: Runtime.World, id: nat, limit: int, lease: int,
      rows: seq<ExecId>, answers: seq<Answers>, now: int, t: Db, jobs: set<ExecId>, result: Option<PublishResult>)
    returns (worlds: seq<Runtime.World>, steps: seq<Runtime.Step>)
    requires id !in w.publishers && ClaimableRows(w.db, rows, now) && now <= w.clock
    requires |answers| == |rows| && forall i | 0 <= i < |rows| :: answers[i].clock <= w.clock
    requires RowsCameTo(ClaimedTables(w.db, limit, lease, rows, now), w.jobs, rows, answers, t, jobs, result)
    ensures Runtime.Continuation(env, api, worlds, steps) && worlds[0] == w
    ensures steps != [] && steps[0] == Runtime.Claim(id, limit, lease, Choice(now, now, [], rows))
    ensures forall i | 0 <= i < |steps| :: StepOf(id, steps[i])
    ensures EndsAs(worlds[|steps|], id, rows, t, jobs, result)
  {
    hide RowAfter, After, SafeLease, Runtime.CountClaims, Runtime.RecordClaims, StepOf, RowsAfter;
    var claimed := ClaimStep(env, api, w, id, limit, lease, rows, now);
    var first := Published(claimed.db, claimed.jobs, 0, 0, false);
    hide Runtime.Moves, ClaimableRows;
    worlds, steps := RowsAreSteps(env, api, claimed, id, rows, answers, now + SafeLease(lease), |rows|);
    var claim := Runtime.Claim(id, limit, lease, Choice(now, now, [], rows));
    assert StepOf(id, claim) by { IsStepOf(id, claim); }
    Runtime.Prepend(env, api, w, claim, worlds, steps);
    worlds, steps := [w] + worlds, [claim] + steps;
  }

  /** The world in which the call has ended: a publisher that raised has left it. */
  ghost predicate EndsAs(
      v: Runtime.World, id: nat, rows: seq<ExecId>, t: Db, jobs: set<ExecId>, result: Option<PublishResult>)
  {
    && v.db == t && v.jobs == jobs
    && match result
       case None => id !in v.publishers
       case Some(r) =>
         && id in v.publishers && v.publishers[id].i == |rows|
         && v.publishers[id].dispatched == r.dispatched && v.publishers[id].failed == r.failed
  }

  /**
   * A whole call of `publishOnce`, however its claim and its rows are answered, is a run of one publisher
   * of the runtime's world: its claim, unless that fails, and then the steps of its rows; tables and
   * queue come out as the object leaves them.
   */
  lemma PublishOnceIsRun(
      env: Env, api: Runtime.Api, w: Runtime.World, id: nat, claim: Outcome, limit: int, lease: int,
      rows: seq<ExecId>, answers: seq<Answers>, now: int, t: Db, jobs: set<ExecId>, result: Option<PublishResult>)
    returns (worlds: seq<Runtime.World>, steps: seq<Runtime.Step>)
    requires id !in w.publishers && ClaimableRows(w.db, rows, now) && now <= w.clock
    requires |answers| == |rows| && forall i | 0 <= i < |rows| :: answers[i].clock <= w.clock
    requires CallCameTo(w.db, w.jobs, claim, limit, lease, rows, answers, now, t, jobs, result)
    ensures Runtime.Continuation(env, api, worlds, steps) && worlds[0] == w
    ensures if claim.Failed? then steps == []
      else steps != [] && steps[0] == Runtime.Claim(id, limit, lease, Choice(now, now, [], rows))
    ensures forall i | 0 <= i < |steps| :: StepOf(id, steps[i])
    ensures EndsAs(worlds[|steps|], id, rows, t, jobs, result)
  {
    match claim
    case Ok =>
      hide RowsCameTo, ClaimedTables, EndsAs, Runtime.Moves, ClaimableRows, StepOf;
      worlds, steps := ClaimedCallIsRun(env, api, w, id, limit, lease, rows, answers, now, t, jobs, result);
    case Lost =>
      hide ClaimedTables, SafeLease;
      var v := ClaimStep(env, api, w, id, limit, lease, rows, now);
      var u := v.(publishers := v.publishers - {id});
      assert Runtime.Moves(env, api, v, Runtime.Leave(id), u);
      hide Runtime.Moves, ClaimableRows;
      worlds, steps := [w, v, u], [Runtime.Claim(id, limit, lease, Choice(now, now, [], rows)), Runtime.Leave(id)];
    case Failed =>
      worlds, steps := [w], [];
  }

  lemma IsStepOf(id: nat, step: Runtime.Step)
    requires step.Claim? && step.publisher == id
    ensures StepOf(id, step)
  {
  }

  lemma ClaimStep(
      env: Env, api: Runtime.Api, w: Runtime.World, id: nat, limit: int, lease: int, rows: seq<ExecId>, now: int)
    returns (v: Runtime.World)
    requires id !in w.publishers && ClaimableRows(w.db, rows, now) && now <= w.clock
    ensures Runtime.Moves(env, api, w, Runtime.Claim(id, limit, lease, Choice(now, now, [], rows)), v)
    ensures v.db == ClaimedTables(w.db, limit, lease, rows, now) && v.jobs == w.jobs && v.clock == w.clock
    ensures Follows(v, id, rows, now + SafeLease(lease), 0, Published(v.db, v.jobs, 0, 0, false))
    ensures forall i | 0 <= i < |rows| :: rows[i] in v.db.dispatches
  {
    var op, ch := ClaimDispatches(limit, lease), Choice(now, now, [], rows);
    AfterTouch(op, ch, w.db);
    hide After, SafeLease, Runtime.CountClaims, Runtime.RecordClaims;
    v := w.(db := After(op, ch, w.db),
            publishers := w.publishers[
              id := Runtime.Publisher(rows, now + SafeLease(lease), 0, Runtime.Enqueueing, 0, 0)],
            claims := Runtime.CountClaims(w.claims, rows), lastClaim := Runtime.RecordClaims(w.lastClaim, rows, now));
  }

  // ---------- draining ----------

  ghost function DueRows(db: Db, now: int): set<ExecId> {
    set e | e in db.dispatches && var row := db.dispatches[e];
      row.status == Ready || (row.status == Processing && row.lockedUntil.Some? && row.lockedUntil.value < now)
  }

  /** A whole call that goes well: everything the claim picked is dispatched, everything else is as it was. */
  ghost predicate PublishesAll(db: Db, t: Db, limit: int, now: int, rows: seq<ExecId>) {
    && ClaimPicks(db, {}, limit, now, rows)
    && t.dispatches.Keys == db.dispatches.Keys
    && (forall e | e in rows :: e in t.dispatches && t.dispatches[e].status == Dispatched)
    && (forall e | e in db.dispatches && e !in rows :: t.dispatches[e] == db.dispatches[e])
  }

  /** When every answer is good and no id is blank, `publishOnce` is such a call. */
  lemma GoodAnswersPublishAll(
      db: Db, t: Db, limit: int, now: int, rows: seq<ExecId>, answers: seq<Answers>, until: int, jobs: set<ExecId>)
    requires ClaimPicks(db, {}, limit, now, rows) && |answers| == |rows| && Batch(db, rows)
    requires Progressed(db, t, rows, answers, |rows|, until, jobs)
    requires forall i | 0 <= i < |rows| :: Good(db.dispatches[rows[i]], rows[i], answers[i])
    ensures PublishesAll(db, t, limit, now, rows) && forall e | e in rows :: e in jobs
  {
    hide Good;
    forall e | e in rows ensures e in t.dispatches && t.dispatches[e].status == Dispatched && e in jobs {
      var i :| 0 <= i < |rows| && rows[i] == e;
      assert Handled(db.dispatches[rows[i]], t.dispatches[rows[i]], rows[i], answers[i], rows[i] in jobs);
    }
  }

  lemma PublishingTakesWhatItCan(db: Db, limit: int, now: int, rows: seq<ExecId>)
    requires ClaimPicks(db, {}, limit, now, rows)
    ensures TakesWhatItCan(DueRows(db, now), rows, SafeLimit(limit))
  {
  }

  /** A publisher claims due rows that nobody has locked, the oldest first, up to its limit. */
  lemma ClaimSelection(db: Db, busy: set<ExecId>, limit: int, now: int, rows: seq<ExecId>)
    requires ClaimPicks(db, busy, limit, now, rows)
    ensures |rows| <= 100 && (limit < 1 ==> |rows| <= 1) && (1 <= limit ==> |rows| <= limit)
    ensures forall i | 0 <= i < |rows| :: rows[i] in DueRows(db, now) && rows[i] !in busy
    ensures forall e | e in DueRows(db, now) && e !in busy && e !in rows ::
      && |rows| == (if limit < 1 then 1 else if limit > 100 then 100 else limit)
      && forall i | 0 <= i < |rows| :: db.dispatches[rows[i]].createdAt <= db.dispatches[e].createdAt
  {
  }

  lemma DueRowsLater(db: Db, now: int, later: int)
    requires now <= later
    ensures DueRows(db, now) <= DueRows(db, later)
  {
  }

  /** Whatever the clock, the published rows are due no longer, and nothing else has changed. */
  lemma PublishedAreNoLongerDue(db: Db, t: Db, limit: int, now: int, rows: seq<ExecId>, at: int)
    requires PublishesAll(db, t, limit, now, rows)
    ensures DueRows(t, at) == DueRows(db, at) - (set e | e in rows)
  {
    hide ClaimPicks;
  }

  /**
   * Consecutive good calls, each at its own clock, with no other publisher and no new rows: the tables
   * before and after each, and its batch.
   */
  ghost predicate PublishesAlone(run: seq<Db>, batches: seq<seq<ExecId>>, limit: int, clocks: seq<int>) {
    && |run| == |batches| + 1 == |clocks| + 1
    && forall i | 0 <= i < |batches| :: PublishesAll(run[i], run[i + 1], limit, clocks[i], batches[i])
  }

  lemma {:induction false} PublishingDrainsSoFar(
      run: seq<Db>, batches: seq<seq<ExecId>>, limit: int, clocks: seq<int>, first: int, last: int, k: nat)
    requires PublishesAlone(run, batches, limit, clocks) && k < |run|
    requires first <= last && forall i | 0 <= i < |clocks| :: first <= clocks[i] <= last
    ensures Drained(DueRows(run[0], first), DueRows(run[0], last), DueRows(run[k], first), DueRows(run[k], last), k,
      SafeLimit(limit))
    ensures forall e | e in DueRows(run[0], first) && e !in DueRows(run[k], first) ::
      e in run[k].dispatches && run[k].dispatches[e].status == Dispatched
  {
    hide DueRows, TakesWhatItCan, Drained, ClaimPicks;
    if k == 0 {
      DueRowsLater(run[0], first, last);
      NothingDrained(DueRows(run[0], first), DueRows(run[0], last), SafeLimit(limit));
    } else {
      PublishingDrainsSoFar(run, batches, limit, clocks, first, last, k - 1);
      var db, t, now, rows := run[k - 1], run[k], clocks[k - 1], batches[k - 1];
      assert PublishesAll(db, t, limit, now, rows);
      PublishedAreNoLongerDue(db, t, limit, now, rows, first);
      PublishedAreNoLongerDue(db, t, limit, now, rows, last);
      DispatchedSoFar(run[0], db, t, limit, now, rows, first);
      PublishingTakesWhatItCan(db, limit, now, rows);
      DueRowsLater(db, first, now);
      DueRowsLater(db, now, last);
      hide PublishesAll, SafeLimit;
      OneMoreDrained(DueRows(run[0], first), DueRows(run[0], last), DueRows(db, first), DueRows(db, now),
        DueRows(db, last), rows, k - 1, SafeLimit(limit));
    }
  }

  /**
   * Good calls with no other publisher, whose clocks lie between `first` and `last`: ceil(N / batch) of
   * them dispatch all rows claimable at `first`, where N is what is claimable by `last`; until then each
   * takes a full batch; and when no lease runs out in between, exactly N - k * batch are left after k.
   */
  lemma PublishingDrains(
      run: seq<Db>, batches: seq<seq<ExecId>>, limit: int, clocks: seq<int>, first: int, last: int, k: nat)
    requires PublishesAlone(run, batches, limit, clocks) && k < |run|
    requires first <= last && forall i | 0 <= i < |clocks| :: first <= clocks[i] <= last
    ensures |DueRows(run[0], last)| <= k * SafeLimit(limit) ==>
      forall e | e in DueRows(run[0], first) :: e in run[k].dispatches && run[k].dispatches[e].status == Dispatched
    ensures DueRows(run[k], first) != {} ==>
      |DueRows(run[k], last)| == |DueRows(run[0], last)| - k * SafeLimit(limit)
    ensures DueRows(run[0], first) == DueRows(run[0], last) ==>
      |DueRows(run[k], first)| == Max(0, |DueRows(run[0], first)| - k * SafeLimit(limit))
    ensures forall e | e in DueRows(run[0], first) && e !in DueRows(run[k], first) ::
      e in run[k].dispatches && run[k].dispatches[e].status == Dispatched
  {
    PublishingDrainsSoFar(run, batches, limit, clocks, first, last, k);
    hide DueRows, PublishesAlone;
    WhatIsLeft(DueRows(run[0], first), DueRows(run[0], last), DueRows(run[k], first), DueRows(run[k], last), k,
      SafeLimit(limit));
  }

  lemma DispatchedSoFar(first: Db, db: Db, t: Db, limit: int, now: int, rows: seq<ExecId>, at: int)
    requires PublishesAll(db, t, limit, now, rows)
    requires forall e | e in DueRows(first, at) && e !in DueRows(db, at) ::
      e in db.dispatches && db.dispatches[e].status == Dispatched
    ensures forall e | e in DueRows(first, at) && e !in DueRows(t, at) ::
      e in t.dispatches && t.dispatches[e].status == Dispatched
  {
    PublishedAreNoLongerDue(db, t, limit, now, rows, at);
    hide ClaimPicks;
  }

  /** Rows stay as they are until they are dispatched; those a batch still takes are as they were at first. */
  lemma AgeKept(run: seq<Db>, batches: seq<seq<ExecId>>, limit: int, clocks: seq<int>, i: nat, e: ExecId)
    requires PublishesAlone(run, batches, limit, clocks) && i < |batches| && e in run[i].dispatches
    requires run[i].dispatches[e].status != Dispatched
    ensures e in run[0].dispatches && run[0].dispatches[e] == run[i].dispatches[e]
  {
    UntouchedUntilPicked(run, batches, limit, clocks, 0, i, e);
  }

  /** A lease that is running at `now`. */
  predicate LeaseRuns(row: DispatchRow, now: int) {
    row.status == Processing && row.lockedUntil.Some? && now <= row.lockedUntil.value
  }

  /** Oldest first: a row of an earlier batch is no younger than any row of a later one that was not leased then. */
  lemma OlderBatchesFirst(
      run: seq<Db>, batches: seq<seq<ExecId>>, limit: int, clocks: seq<int>, i: nat, j: nat, d: ExecId, e: ExecId)
    requires PublishesAlone(run, batches, limit, clocks) && i < j < |batches| && d in batches[i] && e in batches[j]
    ensures d in run[i].dispatches && e in run[i].dispatches && e !in batches[i]
    ensures run[i].dispatches[d].status != Dispatched && run[i].dispatches[e].status != Dispatched
    ensures LeaseRuns(run[i].dispatches[e], clocks[i])
      || run[i].dispatches[d].createdAt <= run[i].dispatches[e].createdAt
  {
    assert PublishesAll(run[i], run[i + 1], limit, clocks[i], batches[i]);
    assert PublishesAll(run[j], run[j + 1], limit, clocks[j], batches[j]);
    var y :| 0 <= y < |batches[j]| && batches[j][y] == e;
    assert Claimable(run[j].dispatches[e], clocks[j]);
    UntouchedUntilPicked(run, batches, limit, clocks, i, j, e);
    var x :| 0 <= x < |batches[i]| && batches[i][x] == d;
  }

  lemma {:induction false} UntouchedUntilPicked(
      run: seq<Db>, batches: seq<seq<ExecId>>, limit: int, clocks: seq<int>, i: nat, j: nat, e: ExecId)
    requires PublishesAlone(run, batches, limit, clocks) && i <= j < |batches| && e in run[j].dispatches
    requires run[j].dispatches[e].status != Dispatched
    ensures e in run[i].dispatches && run[i].dispatches[e] == run[j].dispatches[e] && (i < j ==> e !in batches[i])
    decreases j - i
  {
    if i < j {
      UntouchedUntilPicked(run, batches, limit, clocks, i + 1, j, e);
      assert PublishesAll(run[i], run[i + 1], limit, clocks[i], batches[i]);
      hide ClaimPicks;
    }
  }
}
