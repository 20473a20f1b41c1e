/**
 * The polling loops of the outbox dispatcher and the expiry sweeper: a few flags and a timer, changed
 * by stretches of code that run between awaits, in any order that the event loop may choose.
 */
module Loops {
  import opened Base

  type Timer = nat
  type Call = nat
  type Stop = nat

  /** `backsOff` tells the dispatcher from the sweeper. */
  datatype Config = Config(poll: int, maxBackoff: int, backsOff: bool)

  predicate ValidConfig(c: Config) {
    100 <= c.poll <= 300000 && c.poll <= c.maxBackoff <= 300000 && (c.backsOff ==> c.poll <= 60000)
  }

  function DispatcherConfig(poll: Option<int>, maxBackoff: Option<int>): (c: Config)
    ensures ValidConfig(c) && c.backsOff && 100 <= c.poll <= 60000
    ensures poll.None? && maxBackoff.None? ==> c.poll == 1000 && c.maxBackoff == 30000
    ensures match poll
      case None => c.poll == 1000
      case Some(n) => c.poll == if n < 100 then 100 else if n > 60000 then 60000 else n
    ensures var n := match maxBackoff case None => 30000 case Some(m) => m;
      c.maxBackoff == if n < c.poll then c.poll else if n > 300000 then 300000 else n
  {
    var p := Min(Max(if poll.Some? then poll.value else 1000, 100), 60000);
    Config(p, Min(Max(if maxBackoff.Some? then maxBackoff.value else 30000, p), 300000), true)
  }

  function SweeperConfig(poll: Option<int>): (c: Config)
    ensures ValidConfig(c) && !c.backsOff && 500 <= c.poll <= 300000
    ensures match poll
      case None => c.poll == 5000
      case Some(n) => c.poll == if n < 500 then 500 else if n > 300000 then 300000 else n
  {
    var p := Min(Max(if poll.Some? then poll.value else 5000, 500), 300000);
    Config(p, p, false)
  }

  /** The object's fields (`busy` is `publishing` or `sweeping`) and the event loop's timers with their delays. */
  datatype Flags = Flags(
    running: bool, busy: bool, timer: Option<Timer>, backoff: int,
    armed: map<Timer, int>, nextTimer: nat)

  const AT_REST := Flags(false, false, None, 0, map[], 0)

  // ---------- the stretches of code ----------

  function Scheduled(f: Flags, delay: int): Flags {
    if !f.running then f
    else f.(timer := Some(f.nextTimer), armed := f.armed[f.nextTimer := delay], nextTimer := f.nextTimer + 1)
  }

  function Started(f: Flags): Flags {
    if f.running then f else Scheduled(f.(running := true), 0)
  }

  /** `stop` up to its waiting loop. */
  function Stopping(f: Flags): Flags {
    match f.timer
    case None => f.(running := false)
    case Some(t) => f.(running := false, timer := None, armed := f.armed - {t})
  }

  /** A timer goes off; the tick does nothing, or skips because work is in progress, or begins work. */
  datatype TickStart = Dormant | Skipped | Begun

  function Ticked(f: Flags, t: Timer): (Flags, TickStart) {
    var g := f.(timer := None, armed := f.armed - {t});
    if !g.running then (g, Dormant) else if g.busy then (g, Skipped) else (g.(busy := true), Begun)
  }

  /** `runOnce` called from outside: it begins work unless some is in progress. */
  function RanOnce(f: Flags): (Flags, bool) {
    if f.busy then (f, false) else (f.(busy := true), true)
  }

  function Settled(f: Flags): Flags {
    f.(busy := false)
  }

  function NextBackoff(c: Config, backoff: int): int {
    if backoff == 0 then c.poll * 2 else Min(c.maxBackoff, backoff * 2)
  }

  function NextDelay(c: Config, f: Flags, trouble: bool): int {
    if c.backsOff && trouble then NextBackoff(c, f.backoff) else c.poll
  }

  /** The rest of a tick: trouble is a failed dispatch or an exception. */
  function Resumed(c: Config, f: Flags, trouble: bool): Flags {
    Scheduled(f.(backoff := if !c.backsOff then f.backoff else if trouble then NextBackoff(c, f.backoff) else 0),
              NextDelay(c, f, trouble))
  }

  // ---------- the loop among its callers ----------

  /**
   * `inFlight` is the work in progress and whether a tick began it, `resuming` the ticks whose call has
   * returned and how, `stops` the stops still waiting, `streak` the troubled ticks since the last clean one.
   */
  datatype Loop = Loop(
      flags: Flags, inFlight: map<Call, bool>, resuming: map<Call, bool>, stops: set<Stop>, streak: nat)

  datatype Move =
    | StartCalled
    | StopCalled(stop: Stop)
    | StopChecks(stop: Stop)
    | Fires(timer: Timer, call: Call)
    | RunOnceCalled(call: Call)
    | Settles(call: Call, trouble: bool)
    | Resumes(call: Call)

  function After(c: Config, l: Loop, m: Move): Loop {
    match m
    case StartCalled => l.(flags := Started(l.flags))
    case StopCalled(s) => l.(flags := Stopping(l.flags), stops := if l.flags.busy then l.stops + {s} else l.stops)
    case StopChecks(s) => if l.flags.busy then l else l.(stops := l.stops - {s})
    case Fires(t, call) =>
      var (f, begun) := Ticked(l.flags, t);
      if begun.Dormant? then l.(flags := f)
      else if begun.Skipped? then l.(flags := f, resuming := l.resuming[call := false])
      else l.(flags := f, inFlight := l.inFlight[call := true])
    case RunOnceCalled(call) =>
      var (f, begun) := RanOnce(l.flags);
      if begun then l.(flags := f, inFlight := l.inFlight[call := false]) else l
    case Settles(call, trouble) =>
      l.(flags := Settled(l.flags), inFlight := l.inFlight - {call},
         resuming := if call in l.inFlight && l.inFlight[call] then l.resuming[call := trouble] else l.resuming)
    case Resumes(call) =>
      var trouble := call in l.resuming && l.resuming[call];
      l.(flags := Resumed(c, l.flags, trouble), resuming := l.resuming - {call},
         streak := if trouble then l.streak + 1 else 0)
  }

  predicate Possible(l: Loop, m: Move) {
    match m
    case StartCalled => true
    case StopCalled(s) => s !in l.stops
    case StopChecks(s) => s in l.stops
    case Fires(t, call) => t in l.flags.armed && call !in l.inFlight && call !in l.resuming
    case RunOnceCalled(call) => call !in l.inFlight && call !in l.resuming
    case Settles(call, _) => call in l.inFlight
    case Resumes(call) => call in l.resuming
  }

  const FRESH := Loop(AT_REST, map[], map[], {}, 0)

  ghost predicate LoopRun(c: Config, loops: seq<Loop>, moves: seq<Move>) {
    && ValidConfig(c) && |loops| == |moves| + 1 && loops[0] == FRESH
    && forall i | 0 <= i < |moves| :: Possible(loops[i], moves[i]) && loops[i + 1] == After(c, loops[i], moves[i])
  }

  // ---------- backoff ----------

  function Pow2(k: nat): (p: nat)
    ensures p >= 1
  {
    if k == 0 then 1 else 2 * Pow2(k - 1)
  }

  /** The backoff after `k` troubled ticks in a row. */
  function BackoffAfter(c: Config, k: nat): int {
    if k == 0 then 0 else NextBackoff(c, BackoffAfter(c, k - 1))
  }

  lemma Pow2Grows(k: nat, poll: int, top: int)
    requires k >= 2 && poll >= 1
    ensures top <= Pow2(k) * poll ==> top <= Pow2(k + 1) * poll
    ensures Pow2(k + 1) * poll == 2 * (Pow2(k) * poll)
  {
  }

  /** Closed form: twice the poll interval after one, then doubling up to the cap, which the first is spared. */
  lemma {:induction false} BackoffClosedForm(c: Config, k: nat)
    requires ValidConfig(c) && k >= 1
    ensures BackoffAfter(c, k) == if k == 1 then 2 * c.poll else Min(c.maxBackoff, Pow2(k) * c.poll)
    ensures c.poll <= BackoffAfter(c, k) <= Max(c.maxBackoff, 2 * c.poll)
  {
    if k == 1 {
      assert BackoffAfter(c, 0) == 0;
    } else {
      BackoffClosedForm(c, k - 1);
      if k == 2 {
        assert Pow2(1) == 2 && Pow2(2) == 4;
      } else {
        Pow2Grows(k - 1, c.poll, c.maxBackoff);
      }
    }
  }

  // ---------- the invariant ----------

  ghost predicate Sound(c: Config, l: Loop) {
    && (forall x, y | x in l.inFlight && y in l.inFlight :: x == y)
    && (l.flags.busy <==> l.inFlight.Keys != {})
    && (forall t | t in l.flags.armed :: t < l.flags.nextTimer)
    && (l.flags.timer.Some? ==> l.flags.timer.value in l.flags.armed)
    && (forall t | t in l.flags.armed ::
         l.flags.armed[t] == 0 || c.poll <= l.flags.armed[t] <= Max(c.maxBackoff, 2 * c.poll))
    && l.flags.backoff == (if c.backsOff then BackoffAfter(c, l.streak) else 0)
  }

  lemma DelayInBounds(c: Config, l: Loop, trouble: bool)
    requires ValidConfig(c) && Sound(c, l)
    ensures c.poll <= NextDelay(c, l.flags, trouble) <= Max(c.maxBackoff, 2 * c.poll)
  {
    BackoffClosedForm(c, l.streak + 1);
  }

  lemma MoveKeepsSound(c: Config, l: Loop, m: Move)
    requires ValidConfig(c) && Sound(c, l) && Possible(l, m)
    ensures Sound(c, After(c, l, m))
  {
    if m.Resumes? {
      DelayInBounds(c, l, m.call in l.resuming && l.resuming[m.call]);
    }
    hide BackoffAfter;
    if m.Resumes? {
      assert BackoffAfter(c, l.streak + 1) == NextBackoff(c, BackoffAfter(c, l.streak)) by {
        NextBackoffAfter(c, l.streak);
      }
      assert BackoffAfter(c, 0) == 0 by { NoBackoff(c); }
    }
  }

  lemma NextBackoffAfter(c: Config, k: nat)
    ensures BackoffAfter(c, k + 1) == NextBackoff(c, BackoffAfter(c, k))
  {
  }

  lemma NoBackoff(c: Config)
    ensures BackoffAfter(c, 0) == 0
  {
  }

  lemma {:induction false} RunIsSound(c: Config, loops: seq<Loop>, moves: seq<Move>, n: nat)
    requires LoopRun(c, loops, moves) && n < |loops|
    ensures Sound(c, loops[n])
  {
    if n > 0 {
      RunIsSound(c, loops, moves, n - 1);
      MoveKeepsSound(c, loops[n - 1], moves[n - 1]);
    }
  }

  // ---------- what the loops promise ----------

  /** Over all interleavings at most one piece of work is in flight per object, and the flag says whether. */
  lemma AtMostOneInFlight(c: Config, loops: seq<Loop>, moves: seq<Move>, n: nat)
    requires LoopRun(c, loops, moves) && n < |loops|
    ensures |loops[n].inFlight| <= 1
    ensures loops[n].flags.busy <==> |loops[n].inFlight| == 1
  {
    RunIsSound(c, loops, moves, n);
    var calls := loops[n].inFlight.Keys;
    if x :| x in calls {
      assert calls == {x};
    }
  }

  /** From a call of `stop` on, until the next start, nothing runs any more and no tick begins work. */
  lemma {:induction false} NoTickWorksAfterStop(c: Config, loops: seq<Loop>, moves: seq<Move>, i: nat, j: nat)
    requires LoopRun(c, loops, moves) && i < j <= |moves| && moves[i].StopCalled?
    requires forall k | i < k < j :: !moves[k].StartCalled?
    ensures !loops[j].flags.running
    ensures j < |moves| && moves[j].Fires? ==>
      loops[j + 1].inFlight == loops[j].inFlight && loops[j + 1].resuming == loops[j].resuming
    decreases j
  {
    assert loops[j] == After(c, loops[j - 1], moves[j - 1]);
    if i + 1 < j {
      NoTickWorksAfterStop(c, loops, moves, i, j - 1);
    }
    if j < |moves| {
      assert loops[j + 1] == After(c, loops[j], moves[j]);
    }
  }

  /** `stop` has returned: at once if nothing was in progress, or at a check that found nothing in progress. */
  predicate StopReturns(l: Loop, m: Move) {
    (m.StopCalled? || m.StopChecks?) && !l.flags.busy
  }

  /**
   * When `stop` returns nothing is in flight; unless it was started again while it waited it is not
   * running, and up to the next start no tick begins work, so only a direct `runOnce` can.
   */
  lemma StopIsFinal(c: Config, loops: seq<Loop>, moves: seq<Move>, i: nat, r: nat, j: nat)
    requires LoopRun(c, loops, moves) && i <= r < j <= |moves| && moves[i].StopCalled?
    requires StopReturns(loops[r], moves[r])
    requires forall k | i < k < j :: !moves[k].StartCalled?
    ensures loops[r + 1].inFlight.Keys == {} && !loops[j].flags.running
    ensures (forall k | r < k < j :: !moves[k].RunOnceCalled?) ==> loops[j].inFlight.Keys == {}
  {
    assert loops[r + 1] == After(c, loops[r], moves[r]);
    RunIsSound(c, loops, moves, r);
    NoTickWorksAfterStop(c, loops, moves, i, j);
    if forall k | r < k < j :: !moves[k].RunOnceCalled? {
      StaysIdle(c, loops, moves, i, r, j);
    }
  }

  lemma {:induction false} StaysIdle(c: Config, loops: seq<Loop>, moves: seq<Move>, i: nat, r: nat, j: nat)
    requires LoopRun(c, loops, moves) && i <= r < j <= |moves| && moves[i].StopCalled?
    requires loops[r + 1].inFlight.Keys == {}
    requires forall k | i < k < j :: !moves[k].StartCalled?
    requires forall k | r < k < j :: !moves[k].RunOnceCalled?
    ensures loops[j].inFlight.Keys == {}
    decreases j
  {
    if r + 1 < j {
      StaysIdle(c, loops, moves, i, r, j - 1);
      NoTickWorksAfterStop(c, loops, moves, i, j - 1);
      assert loops[j] == After(c, loops[j - 1], moves[j - 1]);
    }
  }

  /** A restart while a tick's work is in flight, up to that work's end. */
  lemma Restarted(c: Config) returns (loops: seq<Loop>, moves: seq<Move>)
    ensures |loops| == |moves| + 1 == 6 && loops[0] == FRESH
    ensures moves == [StartCalled, Fires(0, 0), StopCalled(0), StartCalled, Settles(0, false)]
    ensures forall i | 0 <= i < 5 :: Possible(loops[i], moves[i]) && loops[i + 1] == After(c, loops[i], moves[i])
    ensures loops[5].flags == Flags(true, false, Some(1), 0, map[1 := 0], 2)
    ensures loops[5].stops == {0} && loops[5].resuming == map[0 := false]
    ensures !loops[3].flags.running && loops[3].inFlight == map[0 := true]
  {
    moves := [StartCalled, Fires(0, 0), StopCalled(0), StartCalled, Settles(0, false)];
    var l1 := After(c, FRESH, StartCalled);
    assert l1.flags == Flags(true, false, Some(0), 0, map[0 := 0], 1);
    var l2 := After(c, l1, Fires(0, 0));
    assert l2.flags == Flags(true, true, None, 0, map[], 1) && l2.inFlight == map[0 := true];
    var l3 := After(c, l2, StopCalled(0));
    assert l3.flags == Flags(false, true, None, 0, map[], 1) && l3.stops == {0};
    var l4 := After(c, l3, StartCalled);
    assert l4.flags == Flags(true, true, Some(1), 0, map[1 := 0], 2);
    loops := [FRESH, l1, l2, l3, l4, After(c, l4, Settles(0, false))];
  }

  // ---------- one chain of ticks, exactly ----------

  /** Ticks under way: those whose work is in flight, and those that have still to resume. */
  function Ticks(l: Loop): set<Call> {
    (set call | call in l.inFlight && l.inFlight[call]) + l.resuming.Keys
  }

  /** Timers armed and ticks under way: the chains that will go on. */
  function Chains(l: Loop): nat {
    |l.flags.armed.Keys| + |Ticks(l)|
  }

  /** A start on a stopped loop whose last tick is not over. */
  predicate OverlappingStart(l: Loop, m: Move) {
    m.StartCalled? && !l.flags.running && Ticks(l) != {}
  }

  /** The known timer is the only one, and none is armed while a tick is under way or the loop is stopped. */
  ghost predicate OneChain(l: Loop) {
    && (forall t | t in l.flags.armed :: l.flags.timer == Some(t))
    && (Ticks(l) != {} || !l.flags.running ==> l.flags.armed.Keys == {})
    && (forall x, y | x in Ticks(l) && y in Ticks(l) :: x == y)
  }

  lemma OneChainCounts(l: Loop)
    requires OneChain(l)
    ensures Chains(l) <= 1
  {
    if t :| t in l.flags.armed {
      assert l.flags.armed.Keys == {t};
    }
    if x :| x in Ticks(l) {
      assert Ticks(l) == {x};
    }
  }

  lemma TicksAfter(c: Config, l: Loop, m: Move)
    requires Possible(l, m)
    ensures var u := After(c, l, m);
      match m
      case Fires(t, call) => Ticks(u) == if l.flags.running then Ticks(l) + {call} else Ticks(l)
      case Resumes(call) => Ticks(u) <= Ticks(l) && (call !in l.inFlight ==> Ticks(u) == Ticks(l) - {call})
      case _ => Ticks(u) == Ticks(l)
  {
  }

  lemma MoveKeepsOneChain(c: Config, l: Loop, m: Move)
    requires OneChain(l) && Possible(l, m) && !OverlappingStart(l, m)
    requires m.Resumes? ==> m.call !in l.inFlight
    ensures OneChain(After(c, l, m))
  {
    TicksAfter(c, l, m);
    hide Ticks;
  }

  /** A call is in flight or resuming, not both. */
  ghost predicate Apart(l: Loop) {
    forall call | call in l.resuming :: call !in l.inFlight
  }

  lemma {:induction false} RunKeepsApart(c: Config, loops: seq<Loop>, moves: seq<Move>, n: nat)
    requires LoopRun(c, loops, moves) && n < |loops|
    ensures Apart(loops[n])
  {
    if n > 0 {
      RunKeepsApart(c, loops, moves, n - 1);
      assert Possible(loops[n - 1], moves[n - 1]) && loops[n] == After(c, loops[n - 1], moves[n - 1]);
    }
  }

  lemma {:induction false} NoOverlapOneChain(c: Config, loops: seq<Loop>, moves: seq<Move>, n: nat)
    requires LoopRun(c, loops, moves) && n < |loops|
    requires forall k | 0 <= k < n :: !OverlappingStart(loops[k], moves[k])
    ensures OneChain(loops[n])
  {
    if n > 0 {
      NoOverlapOneChain(c, loops, moves, n - 1);
      RunKeepsApart(c, loops, moves, n - 1);
      MoveKeepsOneChain(c, loops[n - 1], moves[n - 1]);
    }
  }

  lemma OverlapMakesTwo(c: Config, l: Loop, m: Move)
    requires OverlappingStart(l, m)
    ensures Chains(After(c, l, m)) >= 2
  {
    var u := After(c, l, m);
    TicksAfter(c, l, m);
    assert l.flags.nextTimer in u.flags.armed.Keys;
    var x :| x in Ticks(l);
    hide Ticks;
    assert |u.flags.armed.Keys| >= 1 && |Ticks(u)| >= 1;
  }

  /**
   * Exactly: at every moment of a run at most one timer is armed and never beside a tick under way, if
   * and only if the loop was never started while stopped with a tick under way.
   */
  lemma OneChainIffNoOverlap(c: Config, loops: seq<Loop>, moves: seq<Move>, n: nat)
    requires LoopRun(c, loops, moves) && n < |loops|
    ensures (forall m | 0 <= m <= n :: Chains(loops[m]) <= 1)
      <==> (forall k | 0 <= k < n :: !OverlappingStart(loops[k], moves[k]))
  {
    if k :| 0 <= k < n && OverlappingStart(loops[k], moves[k]) {
      assert loops[k + 1] == After(c, loops[k], moves[k]);
      OverlapMakesTwo(c, loops[k], moves[k]);
    } else {
      forall m | 0 <= m <= n ensures Chains(loops[m]) <= 1 {
        NoOverlapOneChain(c, loops, moves, m);
        OneChainCounts(loops[m]);
      }
    }
  }

  lemma ResumingArms(c: Config, l: Loop, call: Call, t: Timer)
    requires l.flags.running && call in l.resuming && t in l.flags.armed && t != l.flags.nextTimer
    ensures |After(c, l, Resumes(call)).flags.armed.Keys| >= 2
  {
    var armed := After(c, l, Resumes(call)).flags.armed.Keys;
    assert {t, l.flags.nextTimer} <= armed;
    assert |{t, l.flags.nextTimer}| == 2;
    assert |armed| == |armed - {t, l.flags.nextTimer}| + 2;
  }

  /** After any such start, the end of that tick leaves two timers armed. */
  lemma SecondChainArms(c: Config, l: Loop, call: Call, trouble: bool)
    requires Sound(c, l) && OverlappingStart(l, StartCalled) && call in Ticks(l)
    ensures var u := After(c, l, StartCalled);
      var settled := if call in l.resuming then u else After(c, u, Settles(call, trouble));
      && (call in l.resuming || Possible(u, Settles(call, trouble))) && Possible(settled, Resumes(call))
      && |After(c, settled, Resumes(call)).flags.armed.Keys| >= 2
  {
    var u := After(c, l, StartCalled);
    var settled := if call in l.resuming then u else After(c, u, Settles(call, trouble));
    ResumingArms(c, settled, call, l.flags.nextTimer);
  }

  /** And it can be reached: a restart during the first tick. */
  lemma TwoChains(c: Config) returns (loops: seq<Loop>, moves: seq<Move>)
    requires ValidConfig(c)
    ensures LoopRun(c, loops, moves) && |moves| == 6 && |loops[6].flags.armed| == 2
    ensures OverlappingStart(loops[3], moves[3])
    ensures moves == [StartCalled, Fires(0, 0), StopCalled(0), StartCalled, Settles(0, false), Resumes(0)]
    ensures loops[6].flags == Flags(true, false, Some(2), 0, map[1 := 0, 2 := c.poll], 3) && loops[6].stops == {0}
  {
    loops, moves := Restarted(c);
    var last := After(c, loops[5], Resumes(0));
    assert last.flags.armed == map[1 := 0, 2 := c.poll];
    assert last.flags.armed.Keys == {1, 2};
    assert 0 in Ticks(loops[3]);
    loops, moves := loops + [last], moves + [Resumes(0)];
  }

  /** A tick that finds work in progress begins none, counts as clean, and comes again a poll interval later. */
  lemma SkippedTickIsClean(c: Config, l: Loop, t: Timer, call: Call)
    requires Sound(c, l) && Possible(l, Fires(t, call)) && l.flags.running && l.flags.busy
    ensures var u := After(c, l, Fires(t, call));
      var w := After(c, u, Resumes(call));
      && u.inFlight == l.inFlight && Possible(u, Resumes(call)) && w.inFlight == l.inFlight
      && w.streak == 0 && (c.backsOff ==> w.flags.backoff == 0)
      && w.flags.timer == Some(l.flags.nextTimer)
      && w.flags.armed == (l.flags.armed - {t})[l.flags.nextTimer := c.poll]
  {
  }

  /** A call from outside arms no timer when its work ends, well or not. */
  lemma DirectCallsArmNothing(c: Config, l: Loop, call: Call, trouble: bool)
    requires Possible(l, Settles(call, trouble)) && !l.inFlight[call]
    ensures var u := After(c, l, Settles(call, trouble));
      u.flags == l.flags.(busy := false) && u.resuming == l.resuming && u.streak == l.streak
  {
  }

  // ---------- when a returned stop holds, exactly ----------

  /** A start that no later stop up to `r` has undone. */
  predicate RestartedSince(moves: seq<Move>, i: nat, r: nat)
    requires i <= r < |moves|
  {
    exists k :: i < k <= r && moves[k].StartCalled? && forall m | k < m <= r :: !moves[m].StopCalled?
  }

  lemma RestartedOneMore(moves: seq<Move>, i: nat, r: nat)
    requires i < r < |moves|
    ensures RestartedSince(moves, i, r)
      <==> moves[r].StartCalled? || (RestartedSince(moves, i, r - 1) && !moves[r].StopCalled?)
  {
    if RestartedSince(moves, i, r - 1) && !moves[r].StopCalled? {
      var k :| i < k <= r - 1 && moves[k].StartCalled? && forall m | k < m <= r - 1 :: !moves[m].StopCalled?;
      assert forall m | k < m <= r :: !moves[m].StopCalled?;
    }
  }

  lemma RunningAfter(c: Config, l: Loop, m: Move)
    ensures After(c, l, m).flags.running <==> m.StartCalled? || (l.flags.running && !m.StopCalled?)
  {
  }

  /** After a stop, the loop runs exactly if it has been started again since. */
  lemma {:induction false} RunningIffRestarted(c: Config, loops: seq<Loop>, moves: seq<Move>, i: nat, r: nat)
    requires LoopRun(c, loops, moves) && i <= r < |moves| && moves[i].StopCalled?
    ensures loops[r + 1].flags.running <==> RestartedSince(moves, i, r)
    decreases r
  {
    hide After, RestartedSince;
    assert loops[r + 1] == After(c, loops[r], moves[r]);
    RunningAfter(c, loops[r], moves[r]);
    if i < r {
      RunningIffRestarted(c, loops, moves, i, r - 1);
      RestartedOneMore(moves, i, r);
    } else {
      NotYetRestarted(moves, i);
    }
  }

  lemma NotYetRestarted(moves: seq<Move>, i: nat)
    requires i < |moves|
    ensures !RestartedSince(moves, i, i)
  {
  }

  /** A running loop goes on: a timer is armed, or a tick is under way that will arm one. */
  predicate GoesOn(l: Loop) {
    l.flags.running ==> l.flags.armed.Keys != {} || Ticks(l) != {}
  }

  lemma MoveKeepsGoingOn(c: Config, l: Loop, m: Move)
    requires GoesOn(l) && Possible(l, m)
    ensures GoesOn(After(c, l, m))
  {
    TicksAfter(c, l, m);
    var u := After(c, l, m);
    if (m.StartCalled? && !l.flags.running) || (m.Resumes? && l.flags.running) {
      assert l.flags.nextTimer in u.flags.armed.Keys;
    } else if m.Fires? && l.flags.running {
      assert m.call in Ticks(u);
    }
    hide Ticks;
  }

  lemma {:induction false} RunningLoopGoesOn(c: Config, loops: seq<Loop>, moves: seq<Move>, n: nat)
    requires LoopRun(c, loops, moves) && n < |loops|
    ensures GoesOn(loops[n])
  {
    if n > 0 {
      RunningLoopGoesOn(c, loops, moves, n - 1);
      MoveKeepsGoingOn(c, loops[n - 1], moves[n - 1]);
    }
  }

  /** A timer goes off and its tick begins work. */
  predicate BeginsWork(l: Loop, m: Move) {
    m.Fires? && Ticked(l.flags, m.timer).1.Begun?
  }

  /** What can follow, with no call of `start`. */
  ghost predicate Unstarted(c: Config, l: Loop, loops: seq<Loop>, moves: seq<Move>) {
    && |loops| == |moves| + 1 && loops[0] == l
    && forall i | 0 <= i < |moves| ::
         Possible(loops[i], moves[i]) && loops[i + 1] == After(c, loops[i], moves[i]) && !moves[i].StartCalled?
  }

  /** Up to the next start no tick begins work, whatever happens. */
  ghost predicate Holds(c: Config, l: Loop) {
    forall loops: seq<Loop>, moves: seq<Move> | Unstarted(c, l, loops, moves) ::
      forall k | 0 <= k < |moves| :: !BeginsWork(loops[k], moves[k])
  }

  lemma {:induction false} StaysStopped(c: Config, l: Loop, loops: seq<Loop>, moves: seq<Move>, n: nat)
    requires Unstarted(c, l, loops, moves) && n < |loops| && !l.flags.running
    ensures !loops[n].flags.running
  {
    if n > 0 {
      StaysStopped(c, l, loops, moves, n - 1);
      assert loops[n] == After(c, loops[n - 1], moves[n - 1]);
    }
  }

  lemma {:induction false} FreshCall(used: set<Call>) returns (call: Call)
    ensures forall x | x in used :: x < call
  {
    if x :| x in used {
      var rest := FreshCall(used - {x});
      call := Max(rest, x + 1);
      assert forall y | y in used :: y == x || y in used - {x};
    } else {
      call := 0;
    }
  }

  /** An idle running loop with a timer armed can begin work at once. */
  lemma CanFire(c: Config, l: Loop, t: Timer) returns (call: Call)
    requires l.flags.running && !l.flags.busy && t in l.flags.armed
    ensures Possible(l, Fires(t, call)) && BeginsWork(l, Fires(t, call))
  {
    var used := l.inFlight.Keys + l.resuming.Keys;
    call := FreshCall(used);
    assert call !in used;
  }

  lemma FiringShows(c: Config, l: Loop, t: Timer)
    requires l.flags.running && !l.flags.busy && t in l.flags.armed
    ensures !Holds(c, l)
  {
    var call := CanFire(c, l, t);
    var loops, moves := [l, After(c, l, Fires(t, call))], [Fires(t, call)];
    assert Unstarted(c, l, loops, moves) && BeginsWork(loops[0], moves[0]);
  }

  lemma ResumingShows(c: Config, l: Loop, call: Call)
    requires l.flags.running && !l.flags.busy && call in l.resuming
    ensures !Holds(c, l)
  {
    var u := After(c, l, Resumes(call));
    var next := CanFire(c, u, l.flags.nextTimer);
    var fires := Fires(l.flags.nextTimer, next);
    var loops, moves := [l, u, After(c, u, fires)], [Resumes(call), fires];
    assert Unstarted(c, l, loops, moves) && BeginsWork(loops[1], moves[1]);
  }

  /**
   * Exactly: when a stop returns, no tick begins work up to the next start if and only if the loop was
   * not started again, with no stop after that, while the stop waited.
   */
  lemma StopHoldsIff(c: Config, loops: seq<Loop>, moves: seq<Move>, i: nat, r: nat)
    requires LoopRun(c, loops, moves) && i <= r < |moves| && moves[i].StopCalled? && StopReturns(loops[r], moves[r])
    ensures Holds(c, loops[r + 1]) <==> !RestartedSince(moves, i, r)
  {
    var l := loops[r + 1];
    assert l == After(c, loops[r], moves[r]);
    RunningIffRestarted(c, loops, moves, i, r);
    if l.flags.running {
      RunningLoopGoesOn(c, loops, moves, r + 1);
      RunIsSound(c, loops, moves, r + 1);
      if t :| t in l.flags.armed {
        FiringShows(c, l, t);
      } else {
        var call :| call in Ticks(l);
        ResumingShows(c, l, call);
      }
    } else {
      forall ls: seq<Loop>, ms: seq<Move> | Unstarted(c, l, ls, ms)
        ensures forall k | 0 <= k < |ms| :: !BeginsWork(ls[k], ms[k])
      {
        forall k | 0 <= k < |ms| ensures !BeginsWork(ls[k], ms[k]) {
          StaysStopped(c, l, ls, ms, k);
        }
      }
    }
  }

  /** It happens: started again while a stop waits for a tick, whose stop then returns although the loop runs. */
  lemma StopCanReturnRunning(c: Config) returns (loops: seq<Loop>, moves: seq<Move>)
    requires ValidConfig(c)
    ensures LoopRun(c, loops, moves) && |moves| == 7 && moves[2].StopCalled?
    ensures StopReturns(loops[6], moves[6]) && moves[6] == StopChecks(moves[2].stop) && moves[2].stop in loops[6].stops
    ensures RestartedSince(moves, 2, 6) && loops[7].flags.running && !Holds(c, loops[7])
  {
    loops, moves := TwoChains(c);
    loops, moves := loops + [After(c, loops[6], StopChecks(0))], moves + [StopChecks(0)];
    assert moves[3].StartCalled?;
    FiringShows(c, loops[7], 1);
  }

  /**
   * Every delay a tick sets is the poll interval after a clean tick, twice that after one troubled
   * tick, and 2^k times it up to the cap after k >= 2 in a row; within 100 to 300000 ms in any case.
   */
  lemma TickDelays(c: Config, loops: seq<Loop>, moves: seq<Move>, n: nat)
    requires LoopRun(c, loops, moves) && n < |moves| && moves[n].Resumes? && loops[n].flags.running
    ensures var k, t := loops[n + 1].streak, loops[n].flags.nextTimer;
      && loops[n + 1].flags.timer == Some(t) && t in loops[n + 1].flags.armed
      && var delay := loops[n + 1].flags.armed[t];
         && delay == (if !c.backsOff || k == 0 then c.poll
                      else if k == 1 then 2 * c.poll
                      else Min(c.maxBackoff, Pow2(k) * c.poll))
         && c.poll <= delay <= Max(c.maxBackoff, 2 * c.poll) && 100 <= delay <= 300000
  {
    RunIsSound(c, loops, moves, n);
    assert loops[n + 1] == After(c, loops[n], moves[n]);
    var trouble := loops[n].resuming[moves[n].call];
    DelayInBounds(c, loops[n], trouble);
    BackoffClosedForm(c, loops[n].streak + 1);
    NextBackoffAfter(c, loops[n].streak);
    hide BackoffAfter, Pow2;
  }
}
