/**
 * The two loop objects, one method for each stretch of their code between awaits, proved to do to
 * their fields and the event loop's timers what the machine of `Loops` does.
 */
module LoopObjects {
  import opened Base
  import opened Loops

  /** The part of the event loop that the objects touch. */
  class EventLoop {
    var armed: map<Timer, int>
    var nextTimer: nat

    constructor ()
      ensures armed == map[] && nextTimer == 0
    {
      armed, nextTimer := map[], 0;
    }

    method SetTimeout(delay: int) returns (t: Timer)
      modifies this
      ensures t == old(nextTimer) && nextTimer == t + 1 && armed == old(armed)[t := delay]
    {
      t := nextTimer;
      armed, nextTimer := armed[t := delay], nextTimer + 1;
    }

    method ClearTimeout(t: Timer)
      modifies `armed
      ensures armed == old(armed) - {t}
    {
      armed := armed - {t};
    }
  }

  /** What `publishOnce` came to, for a tick: how many rows failed, or nothing if it raised. */
  type Publication = Option<nat>

  class ExecutionOutboxDispatcher {
    const events: EventLoop
    const pollIntervalMs: int
    const maxBackoffMs: int
    var timer: Option<Timer>
    var running: bool
    var publishing: bool
    var failureBackoffMs: int

    function Config(): Config {
      Loops.Config(pollIntervalMs, maxBackoffMs, true)
    }

    function Flags(): Flags
      reads this, events
    {
      Loops.Flags(running, publishing, timer, failureBackoffMs, events.armed, events.nextTimer)
    }

    constructor (events: EventLoop, poll: Option<int>, maxBackoff: Option<int>)
      ensures this.events == events && Config() == DispatcherConfig(poll, maxBackoff)
      ensures !running && !publishing && timer.None? && failureBackoffMs == 0
    {
      this.events := events;
      var p := Min(Max(match poll case None => 1000 case Some(n) => n, 100), 60000);
      pollIntervalMs := p;
      maxBackoffMs := Min(Max(match maxBackoff case None => 30000 case Some(n) => n, p), 300000);
      timer, running, publishing, failureBackoffMs := None, false, false, 0;
    }

    method Schedule(delay: int)
      modifies this`timer, events
      ensures Flags() == Scheduled(old(Flags()), delay)
    {
      if !running {
        return;
      }
      var t := events.SetTimeout(delay);
      timer := Some(t);
    }

    method Start()
      modifies this`timer, this`running, events
      ensures Flags() == Started(old(Flags()))
    {
      if running {
        return;
      }
      running := true;
      Schedule(0);
    }

    /** `stop` up to its loop; the answer is whether that loop has to wait. */
    method Stop() returns (waits: bool)
      modifies this`timer, this`running, events
      ensures Flags() == Stopping(old(Flags())) && waits == publishing
    {
      running := false;
      if timer.Some? {
        events.ClearTimeout(timer.value);
        timer := None;
      }
      waits := publishing;
    }

    /** `runOnce` up to its await. */
    method RunOnce() returns (begun: bool)
      modifies this`publishing
      ensures (Flags(), begun) == RanOnce(old(Flags()))
    {
      if publishing {
        return false;
      }
      publishing := true;
      return true;
    }

    /** `tick` up to its await; `t` is the timer that went off. */
    method Tick(t: Timer) returns (start: TickStart)
      modifies this`timer, this`publishing, events
      ensures (Flags(), start) == Ticked(old(Flags()), t)
    {
      events.ClearTimeout(t);
      timer := None;
      if !running {
        return Dormant;
      }
      var begun := RunOnce();
      return if begun then Begun else Skipped;
    }

    /** The `finally` of `runOnce`. */
    method Settle()
      modifies this`publishing
      ensures Flags() == Settled(old(Flags()))
    {
      publishing := false;
    }

    /** `tick` after its await. */
    method Resume(result: Publication)
      modifies this`failureBackoffMs, this`timer, events
      ensures Flags() == Resumed(Config(), old(Flags()), result.None? || result.value > 0)
    {
      var nextDelay := pollIntervalMs;
      if result.None? || result.value > 0 {
        failureBackoffMs :=
          if failureBackoffMs == 0 then pollIntervalMs * 2 else Min(maxBackoffMs, failureBackoffMs * 2);
        nextDelay := failureBackoffMs;
      } else {
        failureBackoffMs := 0;
      }
      Schedule(nextDelay);
    }
  }

  class ApprovalExpirySweeper {
    const events: EventLoop
    const pollIntervalMs: int
    const batchSize: int
    var timer: Option<Timer>
    var running: bool
    var sweeping: bool

    function Config(): Config {
      Loops.Config(pollIntervalMs, pollIntervalMs, false)
    }

    function Flags(): Flags
      reads this, events
    {
      Loops.Flags(running, sweeping, timer, 0, events.armed, events.nextTimer)
    }

    constructor (events: EventLoop, poll: Option<int>, batch: Option<int>)
      ensures this.events == events && Config() == SweeperConfig(poll) && 1 <= batchSize <= 100
      ensures match batch
        case None => batchSize == 50
        case Some(n) => batchSize == if n < 1 then 1 else if n > 100 then 100 else n
      ensures !running && !sweeping && timer.None?
    {
      this.events := events;
      pollIntervalMs := Min(Max(match poll case None => 5000 case Some(n) => n, 500), 300000);
      batchSize := Min(Max(match batch case None => 50 case Some(n) => n, 1), 100);
      timer, running, sweeping := None, false, false;
    }

    method Schedule(delay: int)
      modifies this`timer, events
      ensures Flags() == Scheduled(old(Flags()), delay)
    {
      if !running {
        return;
      }
      var t := events.SetTimeout(delay);
      timer := Some(t);
    }

    method Start()
      modifies this`timer, this`running, events
      ensures Flags() == Started(old(Flags()))
    {
      if running {
        return;
      }
      running := true;
      Schedule(0);
    }

    method Stop() returns (waits: bool)
      modifies this`timer, this`running, events
      ensures Flags() == Stopping(old(Flags())) && waits == sweeping
    {
      running := false;
      if timer.Some? {
        events.ClearTimeout(timer.value);
        timer := None;
      }
      waits := sweeping;
    }

    method RunOnce() returns (begun: bool)
      modifies this`sweeping
      ensures (Flags(), begun) == RanOnce(old(Flags()))
    {
      if sweeping {
        return false;
      }
      sweeping := true;
      return true;
    }

    method Tick(t: Timer) returns (start: TickStart)
      modifies this`timer, this`sweeping, events
      ensures (Flags(), start) == Ticked(old(Flags()), t)
    {
      events.ClearTimeout(t);
      timer := None;
      if !running {
        return Dormant;
      }
      var begun := RunOnce();
      return if begun then Begun else Skipped;
    }

    method Settle()
      modifies this`sweeping
      ensures Flags() == Settled(old(Flags()))
    {
      sweeping := false;
    }

    /** Whatever the sweep came to, the next one is a poll interval away. */
    method Resume(raised: bool)
      modifies this`timer, events
      ensures Flags() == Resumed(Config(), old(Flags()), raised)
    {
      Schedule(pollIntervalMs);
    }
  }
}
