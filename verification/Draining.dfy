/**
 * How batches drain what is due when the clock moves on between them: `due` is what was due at the
 * first clock, `later` what is due by the last one, and every batch takes what it can of what is due
 * when it is picked.
 */
module Draining {
  import opened Base

  lemma PickedAreDistinct<T>(picks: seq<T>)
    requires forall i, j | 0 <= i < j < |picks| :: picks[i] != picks[j]
    ensures |set x | x in picks| == |picks|
  {
    var s := set x | x in picks;
    if picks != [] {
      var init := picks[..|picks| - 1];
      PickedAreDistinct(init);
      assert s == (set x | x in init) + {picks[|picks| - 1]};
    }
  }

  /** A batch without repetition, as full as what is due allows. */
  ghost predicate TakesWhatItCan<T>(due: set<T>, picks: seq<T>, limit: int) {
    && (forall i | 0 <= i < |picks| :: picks[i] in due)
    && (forall i, j | 0 <= i < j < |picks| :: picks[i] != picks[j])
    && |picks| <= limit && (forall x | x in due && x !in picks :: |picks| == limit)
  }

  /**
   * After `k` batches: as long as anything of the first due set is left, every batch was full; and
   * when nothing fell due in between, what is left is counted exactly.
   */
  ghost predicate Drained<T>(due0: set<T>, later0: set<T>, due: set<T>, later: set<T>, k: nat, limit: int) {
    && due <= later && |later| >= |later0| - k * limit
    && (due != {} ==> |later| == |later0| - k * limit)
    && (due0 == later0 ==> due == later)
  }

  lemma NothingDrained<T>(due: set<T>, later: set<T>, limit: int)
    requires due <= later
    ensures Drained(due, later, due, later, 0, limit)
  {
  }

  lemma OneMoreDrained<T>(due0: set<T>, later0: set<T>, due: set<T>, now: set<T>, later: set<T>, picks: seq<T>,
                          k: nat, limit: int)
    requires Drained(due0, later0, due, later, k, limit) && due <= now <= later && TakesWhatItCan(now, picks, limit)
    ensures Drained(due0, later0, due - (set x | x in picks), later - (set x | x in picks), k + 1, limit)
  {
    var picked := set x | x in picks;
    PickedAreDistinct(picks);
    assert picked <= later;
    assert |later - picked| == |later| - |picks|;
    assert (k + 1) * limit == k * limit + limit;
    if x :| x in due - picked {
      assert |picks| == limit;
    }
  }

  /** So enough batches take everything that was due at first; when nothing fell due meanwhile, the rest is counted. */
  lemma WhatIsLeft<T>(due0: set<T>, later0: set<T>, due: set<T>, later: set<T>, k: nat, limit: int)
    requires Drained(due0, later0, due, later, k, limit)
    ensures |later0| <= k * limit ==> due == {}
    ensures due != {} ==> |later| == |later0| - k * limit
    ensures due0 == later0 ==> |due| == Max(0, |due0| - k * limit)
  {
    if x :| x in due {
      assert x in later;
      assert later != {};
    }
  }
}
