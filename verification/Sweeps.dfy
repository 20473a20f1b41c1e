/**
 * What one sweep does, exactly: the claimed approvals expire, the executions among them that
 * still wait are rejected with one event each, and nothing else changes.
 */
module Sweeps {
  import opened Base
  import opened StateMachine
  import opened Requests
  import opened Tables
  import opened Kernel
  import opened Integrity
  import opened Draining

  /** The event that a sweep appends for claim `a`. */
  function RejectionEvent(a: ApprovalId): Event {
    Event(Rejected, EXPIRY_ACTOR, Verdict(a, Expired))
  }

  predicate Waiting(db: Db, a: ApprovalId)
    requires a in db.approvals && db.approvals[a].exec in db.execs
  {
    db.execs[db.approvals[a].exec].status == Approval
  }

  /** Claims among the first `k` whose execution still waits. */
  function WaitingClaims(db: Db, claims: seq<ApprovalId>, k: nat): (n: nat)
    requires RealClaims(db, claims) && k <= |claims|
    ensures n <= k
  {
    if k == 0 then 0 else WaitingClaims(db, claims, k - 1) + if Waiting(db, claims[k - 1]) then 1 else 0
  }

  /** The audit row of a claim whose execution still waits. */
  function ExpiryRow(db: Db, e: ExecId): AuditRow
    requires e in db.execs
  {
    AuditRow(e, db.execs[e].request.tenantId, "EXECUTION_APPROVAL_EXPIRED", EXPIRY_ACTOR, false)
  }

  /** The audit rows of the first `k` claims: one for each whose execution still waits, in the order of the claims. */
  function ExpiryRows(db: Db, claims: seq<ApprovalId>, k: nat): (rows: seq<AuditRow>)
    requires RealClaims(db, claims) && k <= |claims|
    ensures |rows| == WaitingClaims(db, claims, k)
  {
    if k == 0 then []
    else
      ExpiryRows(db, claims, k - 1)
      + if Waiting(db, claims[k - 1]) then [ExpiryRow(db, db.approvals[claims[k - 1]].exec)] else []
  }

  /** `e` belongs to one of the first `k` claims. */
  ghost predicate Touched(db: Db, claims: seq<ApprovalId>, k: nat, e: ExecId)
    requires RealClaims(db, claims) && k <= |claims|
  {
    exists i :: 0 <= i < k && db.approvals[claims[i]].exec == e
  }

  ghost predicate Untouched(db: Db, t: Db, e: ExecId)
    requires e in db.execs
  {
    e in t.execs && t.execs[e] == db.execs[e] && SameLog(db, t, e)
  }

  ghost predicate RejectedBy(db: Db, t: Db, a: ApprovalId)
    requires a in db.approvals && db.approvals[a].exec in db.execs
  {
    var e := db.approvals[a].exec;
    && e in t.execs && t.execs[e] == db.execs[e].(status := Rejected)
    && OneMore(db, t, e, RejectionEvent(a))
  }

  /** The tables once the first `k` claims have been handled. */
  ghost predicate SweptTo(db: Db, claims: seq<ApprovalId>, k: nat, t: Db)
    requires k <= |claims|
  {
    && RealClaims(db, claims)
    && t.execs.Keys == db.execs.Keys
    && (forall i | 0 <= i < k && Waiting(db, claims[i]) :: RejectedBy(db, t, claims[i]))
    && (forall i | 0 <= i < k && !Waiting(db, claims[i]) :: Untouched(db, t, db.approvals[claims[i]].exec))
    && (forall e | e in db.execs && !Touched(db, claims, k, e) :: Untouched(db, t, e))
  }

  /** Approvals after the claimed ones have expired. */
  ghost predicate JustExpired(db: Db, claims: seq<ApprovalId>, k: nat, t: Db)
    requires k <= |claims|
  {
    && t.approvals.Keys == db.approvals.Keys
    && (forall a | a in db.approvals ::
          t.approvals[a]
            == if a in claims[..k] then db.approvals[a].(status := Expired, decidedBy := Some(EXPIRY_ACTOR))
               else db.approvals[a])
  }

  lemma {:induction false} ExpiringExactly(db: Db, claims: seq<ApprovalId>, k: nat)
    requires PendingClaims(db, claims) && k <= |claims|
    ensures var t := Merge(db, ExpireWrites(db, claims, k));
      JustExpired(db, claims, k, t) && t == db.(approvals := t.approvals)
  {
    hide Merge;
    if k == 0 {
      MergeNothing(db);
    } else {
      ExpiringExactly(db, claims, k - 1);
      MergeVerdict(db, ExpireWrites(db, claims, k - 1), claims[k - 1], Expired, EXPIRY_ACTOR);
      assert claims[..k] == claims[..k - 1] + [claims[k - 1]];
    }
  }

  /** Distinct claims concern distinct executions. */
  predicate DistinctExecutions(db: Db, claims: seq<ApprovalId>)
    requires RealClaims(db, claims)
  {
    forall i, j | 0 <= i < j < |claims| :: db.approvals[claims[i]].exec != db.approvals[claims[j]].exec
  }

  lemma ConsequenceExactly(t: Db, e: ExecId, a: ApprovalId)
    requires e in t.execs
    ensures var u := WithConsequence(t, e, a, Expired, EXPIRY_ACTOR, 0);
      && u == t.(execs := u.execs, events := u.events, audit := u.audit)
      && u.execs == t.execs[e := t.execs[e].(status := Rejected)]
      && OneMore(t, u, e, RejectionEvent(a)) && u.audit == t.audit + [ExpiryRow(t, e)]
      && (forall d | d != e :: SameLog(t, u, d))
  {
    MaxSeqNext(t.events, e, RejectionEvent(a));
  }

  lemma UntouchedThenSame(db: Db, t: Db, u: Db, e: ExecId)
    requires e in db.execs && Untouched(db, t, e) && e in u.execs && u.execs[e] == t.execs[e] && SameLog(t, u, e)
    ensures Untouched(db, u, e)
  {
  }

  lemma UntouchedThenRejected(db: Db, t: Db, u: Db, a: ApprovalId)
    requires a in db.approvals && db.approvals[a].exec in db.execs && Untouched(db, t, db.approvals[a].exec)
    requires var e := db.approvals[a].exec;
      e in u.execs && u.execs[e] == t.execs[e].(status := Rejected) && OneMore(t, u, e, RejectionEvent(a))
    ensures RejectedBy(db, u, a)
  {
    MaxSeqSame(db.events, t.events, db.approvals[a].exec);
  }

  lemma RejectedThenSame(db: Db, t: Db, u: Db, a: ApprovalId)
    requires a in db.approvals && db.approvals[a].exec in db.execs && RejectedBy(db, t, a)
    requires var e := db.approvals[a].exec; e in u.execs && u.execs[e] == t.execs[e] && SameLog(t, u, e)
    ensures RejectedBy(db, u, a)
  {
  }

  /** One more claim handled: its own execution moves or not, every other stays as it was. */
  lemma SweepStep(db: Db, claims: seq<ApprovalId>, k: nat, t: Db, u: Db)
    requires PendingClaims(db, claims) && DistinctExecutions(db, claims) && k < |claims|
    requires SweptTo(db, claims, k, t)
    requires u.execs.Keys == t.execs.Keys
    requires var e := db.approvals[claims[k]].exec;
      && (forall d | d in t.execs && d != e :: u.execs[d] == t.execs[d] && SameLog(t, u, d))
      && (if Waiting(db, claims[k]) then
            u.execs[e] == t.execs[e].(status := Rejected) && OneMore(t, u, e, RejectionEvent(claims[k]))
          else u.execs[e] == t.execs[e] && SameLog(t, u, e))
    ensures SweptTo(db, claims, k + 1, u)
  {
    hide Untouched, RejectedBy, OneMore, SameLog;
    var e := db.approvals[claims[k]].exec;
    assert !Touched(db, claims, k, e);
    if Waiting(db, claims[k]) {
      UntouchedThenRejected(db, t, u, claims[k]);
    } else {
      UntouchedThenSame(db, t, u, e);
    }
    forall i | 0 <= i < k && Waiting(db, claims[i]) ensures RejectedBy(db, u, claims[i]) {
      RejectedThenSame(db, t, u, claims[i]);
    }
    forall i | 0 <= i < k && !Waiting(db, claims[i]) ensures Untouched(db, u, db.approvals[claims[i]].exec) {
      UntouchedThenSame(db, t, u, db.approvals[claims[i]].exec);
    }
    forall d | d in db.execs && !Touched(db, claims, k + 1, d) ensures Untouched(db, u, d) {
      assert d != e && !Touched(db, claims, k, d);
      UntouchedThenSame(db, t, u, d);
    }
  }

  lemma {:induction false} SweepingExactly(db: Db, claims: seq<ApprovalId>, k: nat)
    requires PendingClaims(db, claims) && DistinctExecutions(db, claims) && k <= |claims|
    ensures var p := SweepProgress(db, claims, k);
      var t := Merge(db, p.writes);
      && SweptTo(db, claims, k, t) && JustExpired(db, claims, |claims|, t)
      && t == db.(execs := t.execs, events := t.events, approvals := t.approvals, audit := t.audit)
      && t.audit == db.audit + ExpiryRows(db, claims, k)
      && p.rejected == WaitingClaims(db, claims, k) && p.rejected + p.skipped == k
  {
    hide Merge, SweptTo, JustExpired, WithConsequence, PutConsequence, OneMore, SameLog;
    if k == 0 {
      ExpiringExactly(db, claims, |claims|);
      NothingSwept(db, claims, Merge(db, ExpireWrites(db, claims, |claims|)));
    } else {
      var p := SweepProgress(db, claims, k - 1);
      var t := Merge(db, p.writes);
      var e := db.approvals[claims[k - 1]].exec;
      SweepingExactly(db, claims, k - 1);
      NotYetTouched(db, claims, k - 1, t);
      if Waiting(db, claims[k - 1]) {
        MergeConsequence(db, p.writes, e, claims[k - 1], Expired, EXPIRY_ACTOR, 0);
        ConsequenceExactly(t, e, claims[k - 1]);
        var u := WithConsequence(t, e, claims[k - 1], Expired, EXPIRY_ACTOR, 0);
        SweepStep(db, claims, k - 1, t, u);
        SameApprovalsExpired(db, claims, t, u);
      } else {
        forall d ensures SameLog(t, t, d) { SameLogRefl(t, d); }
        SweepStep(db, claims, k - 1, t, t);
      }
    }
  }

  lemma SameLogRefl(t: Db, e: ExecId)
    ensures SameLog(t, t, e)
  {
  }

  lemma NothingSwept(db: Db, claims: seq<ApprovalId>, t: Db)
    requires RealClaims(db, claims) && t.execs == db.execs && t.events == db.events
    ensures SweptTo(db, claims, 0, t)
  {
  }

  lemma NotYetTouched(db: Db, claims: seq<ApprovalId>, k: nat, t: Db)
    requires RealClaims(db, claims) && DistinctExecutions(db, claims) && k < |claims| && SweptTo(db, claims, k, t)
    ensures var e := db.approvals[claims[k]].exec; e in t.execs && t.execs[e] == db.execs[e]
    ensures t.execs.Keys == db.execs.Keys
  {
    hide RejectedBy, SameLog;
    assert !Touched(db, claims, k, db.approvals[claims[k]].exec);
  }

  lemma SameApprovalsExpired(db: Db, claims: seq<ApprovalId>, t: Db, u: Db)
    requires JustExpired(db, claims, |claims|, t) && u.approvals == t.approvals
    ensures JustExpired(db, claims, |claims|, u)
  {
  }

  lemma ClaimsAreOfDistinctExecutions(db: Db, claims: seq<ApprovalId>)
    requires ApprovalsOk(db) && PendingClaims(db, claims)
    ensures DistinctExecutions(db, claims)
  {
    hide ApprovalOk, HasApproval, BeginsWith;
  }

  /**
   * A sweep accounts for every claim, expires exactly the claimed approvals, appends one REJECTED
   * event and one audit row, in the order of the claims, for exactly those whose execution still
   * waits, and touches nothing else.
   */
  lemma SweepIsExact(op: Op, ch: Choice, db: Db)
    requires ApprovalsOk(db) && op.Sweep? && PendingClaims(db, ch.approvals)
    ensures var t, n := After(op, ch, db), |ch.approvals|;
      var waiting := WaitingClaims(db, ch.approvals, n);
      && Effect(op, ch, db).reply == Swept(n, waiting, n - waiting)
      && JustExpired(db, ch.approvals, n, t) && SweptTo(db, ch.approvals, n, t)
      && t == db.(execs := t.execs, events := t.events, approvals := t.approvals, audit := t.audit)
      && t.audit == db.audit + ExpiryRows(db, ch.approvals, n)
  {
    hide ApprovalsOk, Merge, SweptTo, JustExpired;
    ClaimsAreOfDistinctExecutions(db, ch.approvals);
    SweepingExactly(db, ch.approvals, |ch.approvals|);
  }

  /** The reply alone. */
  lemma SweepReply(op: Op, ch: Choice, db: Db)
    requires ApprovalsOk(db) && op.Sweep? && PendingClaims(db, ch.approvals)
    ensures var n := |ch.approvals|; var waiting := WaitingClaims(db, ch.approvals, n);
      Effect(op, ch, db).reply == Swept(n, waiting, n - waiting)
  {
    hide ApprovalsOk, After, SweptTo, JustExpired, PendingClaims;
    SweepIsExact(op, ch, db);
  }

  // ---------- draining ----------

  /** The approvals a sweep at time `now` could claim if nothing were locked. */
  ghost function Due(db: Db, now: int): set<ApprovalId> {
    set a | a in db.approvals && db.approvals[a].status == Pending && db.approvals[a].exec in db.execs
      && db.approvals[a].expiresAt.Some? && db.approvals[a].expiresAt.value <= now
  }

  lemma SweepTakesWhatItCan(db: Db, limit: int, now: int, claims: seq<ApprovalId>)
    requires SweepPicks(db, {}, limit, now, claims)
    ensures TakesWhatItCan(Due(db, now), claims, SafeLimit(limit))
  {
  }

  lemma DueLater(db: Db, now: int, later: int)
    requires now <= later
    ensures Due(db, now) <= Due(db, later)
  {
  }

  /** Whatever the clock, the swept approvals are due no longer, and nothing else has changed. */
  lemma SweptAreNoLongerDue(op: Op, ch: Choice, db: Db, at: int)
    requires ApprovalsOk(db) && op.Sweep? && SweepPicks(db, {}, op.limit, ch.begun, ch.approvals)
    ensures Fits(op, ch, db)
    ensures Due(After(op, ch, db), at) == Due(db, at) - (set a | a in ch.approvals)
  {
    LegalFits(op, ch, db, {}, {});
    SweepIsExact(op, ch, db);
    var t := After(op, ch, db);
    SweptKeys(db, ch.approvals, t);
    hide After, Effect, ApprovalsOk, SweptTo, SweepPicks;
    DueAfter(db, ch.approvals, t, at);
    hide Due;
  }

  lemma SweptKeys(db: Db, claims: seq<ApprovalId>, t: Db)
    requires SweptTo(db, claims, |claims|, t)
    ensures t.execs.Keys == db.execs.Keys
  {
  }

  lemma DueAfter(db: Db, claims: seq<ApprovalId>, t: Db, now: int)
    requires JustExpired(db, claims, |claims|, t) && t.execs.Keys == db.execs.Keys
    ensures forall a :: a in Due(t, now) <==> a in Due(db, now) && a !in claims
  {
    assert claims[..|claims|] == claims;
  }

  /** One of a sequence of sweeps with nothing else running. */
  ghost predicate SweepsOnce(db: Db, limit: int, now: int, t: Db) {
    exists ch: Choice :: ch.begun == now && SweepPicks(db, {}, limit, now, ch.approvals)
      && Fits(Sweep(limit), ch, db) && t == After(Sweep(limit), ch, db)
  }

  /** Consecutive sweeps, each at its own clock. */
  ghost predicate SweepsAlone(env: Env, run: seq<Db>, limit: int, clocks: seq<int>) {
    && |run| == |clocks| + 1 && Integral(env, run[0])
    && forall i | 0 <= i < |clocks| :: SweepsOnce(run[i], limit, clocks[i], run[i + 1])
  }

  lemma {:induction false} SweepsDrainSoFar(
      env: Env, run: seq<Db>, limit: int, clocks: seq<int>, first: int, last: int, k: nat)
    requires SweepsAlone(env, run, limit, clocks) && k < |run|
    requires first <= last && forall i | 0 <= i < |clocks| :: first <= clocks[i] <= last
    ensures Integral(env, run[k])
    ensures Drained(Due(run[0], first), Due(run[0], last), Due(run[k], first), Due(run[k], last), k, SafeLimit(limit))
  {
    hide Integral, SweepsOnce, Due, Drained, SafeLimit;
    if k == 0 {
      DueLater(run[0], first, last);
      NothingDrained(Due(run[0], first), Due(run[0], last), SafeLimit(limit));
    } else {
      SweepsDrainSoFar(env, run, limit, clocks, first, last, k - 1);
      assert SweepsOnce(run[k - 1], limit, clocks[k - 1], run[k]);
      OneMoreSweep(env, Due(run[0], first), Due(run[0], last), run[k - 1], limit, clocks[k - 1], run[k], first, last,
        k - 1);
    }
  }

  lemma OneMoreSweep(env: Env, due0: set<ApprovalId>, later0: set<ApprovalId>, db: Db, limit: int, now: int, t: Db,
                     first: int, last: int, k: nat)
    requires Integral(env, db) && SweepsOnce(db, limit, now, t) && first <= now <= last
    requires Drained(due0, later0, Due(db, first), Due(db, last), k, SafeLimit(limit))
    ensures Integral(env, t) && Drained(due0, later0, Due(t, first), Due(t, last), k + 1, SafeLimit(limit))
  {
    var ch: Choice :| ch.begun == now && SweepPicks(db, {}, limit, now, ch.approvals)
      && Fits(Sweep(limit), ch, db) && t == After(Sweep(limit), ch, db);
    hide *;
    IntegralGate(env, db);
    SweptAreNoLongerDue(Sweep(limit), ch, db, first);
    SweptAreNoLongerDue(Sweep(limit), ch, db, last);
    CallKeepsIntegrity(env, Sweep(limit), ch, db);
    SweepTakesWhatItCan(db, limit, now, ch.approvals);
    DueLater(db, first, now);
    DueLater(db, now, last);
    OneMoreDrained(due0, later0, Due(db, first), Due(db, now), Due(db, last), ch.approvals, k, SafeLimit(limit));
  }

  /**
   * Sweeps with nothing else running, whose clocks lie between `first` and `last`: ceil(N / limit) of
   * them clear what was due at `first`, where N is what falls due by `last`; until then each takes a
   * full batch; and when nothing falls due in between, exactly N - k * limit are left after k of them.
   */
  lemma SweepsDrain(env: Env, run: seq<Db>, limit: int, clocks: seq<int>, first: int, last: int, k: nat)
    requires SweepsAlone(env, run, limit, clocks) && k < |run|
    requires first <= last && forall i | 0 <= i < |clocks| :: first <= clocks[i] <= last
    ensures |Due(run[0], last)| <= k * SafeLimit(limit) ==> Due(run[k], first) == {}
    ensures Due(run[k], first) != {} ==> |Due(run[k], last)| == |Due(run[0], last)| - k * SafeLimit(limit)
    ensures Due(run[0], first) == Due(run[0], last) ==>
      |Due(run[k], first)| == Max(0, |Due(run[0], first)| - k * SafeLimit(limit))
  {
    hide *;
    SweepsDrainSoFar(env, run, limit, clocks, first, last, k);
    WhatIsLeft(Due(run[0], first), Due(run[0], last), Due(run[k], first), Due(run[k], last), k, SafeLimit(limit));
  }

  lemma IntegralGate(env: Env, db: Db)
    requires Integral(env, db)
    ensures ApprovalsOk(db)
  {
  }
}
