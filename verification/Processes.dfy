/**
 * Publishers as processes among interleaved statements: between their transactions they enqueue, in
 * their transactions other clients' statements run, and each mark is one of a publisher that has
 * claimed its row and heard from the queue.  Every run of such a site is a run of the runtime's world,
 * with the same commits in the same order, and the same tables, queue, publishers and clock.
 */
module Processes {
  import opened Base
  import opened StateMachine
  import opened Requests
  import opened Tables
  import opened Kernel
  import opened Integrity
  import opened Interleaving
  import opened Runs
  import opened Levels
  import Runtime

  /** The database with its clients, the queue, the publishers, and whose mark a client's transaction is. */
  datatype Site = Site(
    s: System, jobs: set<ExecId>, publishers: map<nat, Runtime.Publisher>, marking: map<Client, nat>)

  datatype Event =
    | Statement(action: Action)
    | ClaimCommits(client: Client, publisher: nat)
    | Enqueues(publisher: nat, outcome: Runtime.Outcome)
    | MarkBegins(client: Client, publisher: nat, error: string)
    | MarkCommits(client: Client, outcome: Runtime.Outcome)
    | MarkFails(client: Client)
    | Leaves(publisher: nat)                       // finished, or crashed with no transaction open

  predicate IsMark(op: Op) {
    op.MarkSucceeded? || op.MarkFailed?
  }

  /** What anybody may do: anything but commit a claim or a mark, or end a publisher's transaction. */
  predicate Ordinary(t: Site, a: Action) {
    match a
    case Commit(c) => c in t.s.clients && !t.s.clients[c].op.ClaimDispatches? && !IsMark(t.s.clients[c].op)
    case Rollback(c) => c !in t.marking
    case _ => true
  }

  /** The site as the world sees it, apart from its history of claims. */
  function Shell(t: Site): Runtime.World {
    Runtime.World(t.s.db, t.s.clock, t.jobs, t.publishers, map[], map[], map[])
  }

  function NewPublisher(x: Txn): Runtime.Publisher
    requires x.op.ClaimDispatches?
  {
    var ch := x.local.ch;
    Runtime.Publisher(ch.rows, ch.begun + SafeLease(x.op.lease), 0, Runtime.Enqueueing, 0, 0)
  }

  ghost predicate Happens(env: Env, t: Site, e: Event, u: Site) {
    match e
    case Statement(a) => Ordinary(t, a) && Next(env, t.s, a, u.s) && u == t.(s := u.s)
    case ClaimCommits(c, id) =>
      && id !in t.publishers && c in t.s.clients && t.s.clients[c].op.ClaimDispatches?
      && Next(env, t.s, Commit(c), u.s)
      && u == t.(s := u.s, publishers := t.publishers[id := NewPublisher(t.s.clients[c])])
    case Enqueues(id, outcome) =>
      && id in t.publishers && Runtime.AtRow(t.publishers[id]) && t.publishers[id].phase.Enqueueing?
      && var (jobs, phase) := Runtime.AfterEnqueue(Shell(t), t.publishers[id], outcome);
         u == t.(jobs := jobs, publishers := t.publishers[id := t.publishers[id].(phase := phase)])
    case MarkBegins(c, id, error) =>
      && id in t.publishers && Runtime.AtRow(t.publishers[id]) && !t.publishers[id].phase.Enqueueing?
      && id !in t.marking.Values && Next(env, t.s, Begin(c, Runtime.MarkOp(t.publishers[id], error)), u.s)
      && u == t.(s := u.s, marking := t.marking[c := id])
    case MarkCommits(c, outcome) =>
      && c in t.marking && t.marking[c] in t.publishers && !outcome.Failed? && Next(env, t.s, Commit(c), u.s)
      && u == t.(s := u.s, marking := t.marking - {c},
                 publishers := Runtime.AfterMark(t.publishers, t.marking[c], outcome))
    case MarkFails(c) =>
      && c in t.marking && t.marking[c] in t.publishers && Next(env, t.s, Rollback(c), u.s)
      && u == t.(s := u.s, marking := t.marking - {c},
                 publishers := Runtime.AfterMark(t.publishers, t.marking[c], Runtime.Outcome.Failed))
    case Leaves(id) =>
      id in t.publishers && id !in t.marking.Values && u == t.(publishers := t.publishers - {id})
  }

  ghost predicate SiteRun(env: Env, sites: seq<Site>, events: seq<Event>) {
    && |sites| == |events| + 1
    && Initial(sites[0].s) && sites[0] == Site(sites[0].s, {}, map[], map[])
    && forall i | 0 <= i < |events| :: Happens(env, sites[i], events[i], sites[i + 1])
  }

  // ---------- what every event keeps ----------

  function ErrorOf(op: Op): string {
    if op.MarkFailed? then op.error else ""
  }

  /** Client `c` marks the row that its publisher is at. */
  predicate MarksItsRow(t: Site, c: Client)
    requires c in t.marking
  {
    && c in t.s.clients && t.marking[c] in t.publishers
    && var p := t.publishers[t.marking[c]];
       && Runtime.AtRow(p) && !p.phase.Enqueueing? && t.s.clients[c].op == Runtime.MarkOp(p, ErrorOf(t.s.clients[c].op))
  }

  predicate MarksInOrder(t: Site) {
    && (forall c | c in t.marking :: MarksItsRow(t, c))
    && (forall c, d | c in t.marking && d in t.marking && t.marking[c] == t.marking[d] :: c == d)
  }

  ghost predicate SiteOk(env: Env, t: Site) {
    Inv(env, t.s) && BegunBefore(t.s) && MarksInOrder(t)
  }

  /** The statement in an event, if there is one. */
  function ActionOf(t: Site, e: Event): Option<Action> {
    match e
    case Statement(a) => Some(a)
    case ClaimCommits(c, _) => Some(Commit(c))
    case MarkBegins(c, id, error) =>
      if id in t.publishers && Runtime.AtRow(t.publishers[id])
      then Some(Begin(c, Runtime.MarkOp(t.publishers[id], error))) else None
    case MarkCommits(c, _) => Some(Commit(c))
    case MarkFails(c) => Some(Rollback(c))
    case _ => None
  }

  lemma EventIsAction(env: Env, t: Site, e: Event, u: Site)
    requires Happens(env, t, e, u)
    ensures match ActionOf(t, e) case Some(a) => Next(env, t.s, a, u.s) case None => u.s == t.s
  {
    hide Next, Runtime.AfterEnqueue, Runtime.AfterMark;
  }

  /** Clients come and go, but keep their call. */
  lemma ClientsKeepTheirCall(env: Env, s: System, a: Action, s': System)
    requires Next(env, s, a, s')
    ensures forall c | c in s.clients && (a.Commit? || a.Rollback? ==> c != a.client) ::
      c in s'.clients && s'.clients[c].op == s.clients[c].op
    ensures a.Begin? ==> a.client !in s.clients && a.client in s'.clients && s'.clients[a.client].op == a.op
  {
    hide Execute, Enabled, Merge, WellFormedOp;
  }

  lemma SameMark(t: Site, u: Site, c: Client)
    requires c in t.marking && MarksItsRow(t, c) && c in u.marking && u.marking[c] == t.marking[c]
    requires c in u.s.clients && u.s.clients[c].op == t.s.clients[c].op
    requires t.marking[c] in u.publishers && u.publishers[t.marking[c]] == t.publishers[t.marking[c]]
    ensures MarksItsRow(u, c)
  {
    hide Runtime.MarkOp;
  }

  lemma PublisherKept(env: Env, t: Site, e: Event, u: Site, c: Client)
    requires MarksInOrder(t) && Happens(env, t, e, u) && c in t.marking && c in u.marking
    ensures u.marking[c] == t.marking[c] && t.marking[c] in t.publishers
    ensures t.marking[c] in u.publishers && u.publishers[t.marking[c]] == t.publishers[t.marking[c]]
  {
    assert MarksItsRow(t, c);
    if e.MarkBegins? {
      EventIsAction(env, t, e, u);
      ClientsKeepTheirCall(env, t.s, ActionOf(t, e).value, u.s);
    }
    hide Next, Runtime.AfterEnqueue, Runtime.MarkOp;
  }

  lemma CallKept(env: Env, t: Site, e: Event, u: Site, c: Client)
    requires MarksInOrder(t) && Happens(env, t, e, u) && c in t.marking && c in u.marking
    ensures c in t.s.clients && c in u.s.clients && u.s.clients[c].op == t.s.clients[c].op
  {
    MarkHere(t, c);
    EventIsAction(env, t, e, u);
    if ActionOf(t, e).Some? { ClientsKeepTheirCall(env, t.s, ActionOf(t, e).value, u.s); }
    hide Next, Runtime.AfterEnqueue, Runtime.AfterMark, Runtime.MarkOp, MarksInOrder;
  }

  lemma NewMark(env: Env, t: Site, e: Event, u: Site, c: Client)
    requires MarksInOrder(t) && Happens(env, t, e, u) && c !in t.marking && c in u.marking
    ensures MarksItsRow(u, c)
  {
    EventIsAction(env, t, e, u);
    if e.MarkBegins? { ClientsKeepTheirCall(env, t.s, ActionOf(t, e).value, u.s); }
    hide Next, Runtime.AfterEnqueue, Runtime.AfterMark, MarksInOrder;
  }

  lemma MarkersDiffer(env: Env, t: Site, e: Event, u: Site)
    requires MarksInOrder(t) && Happens(env, t, e, u)
    ensures forall c, d | c in u.marking && d in u.marking && u.marking[c] == u.marking[d] :: c == d
  {
    hide Next, Runtime.AfterEnqueue, Runtime.AfterMark, Runtime.MarkOp, MarksItsRow;
  }

  lemma EventKeepsMarks(env: Env, t: Site, e: Event, u: Site)
    requires MarksInOrder(t) && Happens(env, t, e, u)
    ensures MarksInOrder(u)
  {
    MarkersDiffer(env, t, e, u);
    forall c | c in u.marking ensures MarksItsRow(u, c) {
      if c in t.marking {
        PublisherKept(env, t, e, u, c);
        CallKept(env, t, e, u, c);
        assert MarksItsRow(t, c);
        hide Happens, MarksInOrder;
        SameMark(t, u, c);
      } else {
        NewMark(env, t, e, u, c);
      }
    }
    hide Happens, MarksItsRow;
  }

  lemma {:induction false} RunKeepsSite(env: Env, sites: seq<Site>, events: seq<Event>, n: nat)
    requires SiteRun(env, sites, events) && n < |sites|
    ensures SiteOk(env, sites[n])
  {
    hide Inv, Next, Happens, BegunBefore, MarksInOrder;
    if n == 0 {
      InitialInv(env, sites[0].s);
      NobodyMarks(sites[0]);
    } else {
      RunKeepsSite(env, sites, events, n - 1);
      assert Happens(env, sites[n - 1], events[n - 1], sites[n]);
      EventKeepsSite(env, sites[n - 1], events[n - 1], sites[n]);
    }
  }

  lemma NobodyMarks(t: Site)
    requires Initial(t.s) && t.marking == map[]
    ensures BegunBefore(t.s) && MarksInOrder(t)
  {
  }

  lemma EventKeepsSite(env: Env, t: Site, e: Event, u: Site)
    requires SiteOk(env, t) && Happens(env, t, e, u)
    ensures SiteOk(env, u)
  {
    hide Inv, Next, Happens, BegunBefore, MarksInOrder, ActionOf;
    EventKeepsMarks(env, t, e, u);
    EventIsAction(env, t, e, u);
    if ActionOf(t, e).Some? {
      StepRefines(env, t.s, ActionOf(t, e).value, u.s);
      StepsBeginInThePast(env, t.s, ActionOf(t, e).value, u.s);
    }
  }

  /** The statements of a site are an ordinary run, so that all that is proved of those holds here. */
  lemma {:induction false} SiteRunIsRun(env: Env, sites: seq<Site>, events: seq<Event>, n: nat)
    returns (states: seq<System>, actions: seq<Action>)
    requires SiteRun(env, sites, events) && n < |sites|
    ensures IsRun(env, states, actions) && states[|states| - 1] == sites[n].s
  {
    hide Next, Happens, Initial;
    if n == 0 {
      states, actions := [sites[0].s], [];
    } else {
      states, actions := SiteRunIsRun(env, sites, events, n - 1);
      assert Happens(env, sites[n - 1], events[n - 1], sites[n]);
      EventIsAction(env, sites[n - 1], events[n - 1], sites[n]);
      match ActionOf(sites[n - 1], events[n - 1])
      case Some(a) => states, actions := states + [sites[n].s], actions + [a];
      case None =>
    }
  }

  // ---------- runs of a site are runs of the world ----------

  /** What a step of the world commits. */
  function Commits(w: Runtime.World, step: Runtime.Step): seq<(Op, Choice)> {
    match step
    case Call(op, ch) => [(op, ch)]
    case Claim(_, limit, lease, ch) => [(ClaimDispatches(limit, lease), ch)]
    case Mark(id, outcome, now, error) =>
      if outcome.Failed? || id !in w.publishers || !Runtime.AtRow(w.publishers[id]) then []
      else [(Runtime.MarkOp(w.publishers[id], error), Choice(now, now, [], []))]
    case _ => []
  }

  function Committed(worlds: seq<Runtime.World>, steps: seq<Runtime.Step>): seq<(Op, Choice)>
    requires |worlds| == |steps| + 1
  {
    if steps == [] then []
    else
      var n := |steps| - 1;
      Committed(worlds[..n + 1], steps[..n]) + Commits(worlds[n], steps[n])
  }

  /** A mark sees nothing but its own `now()`. */
  function Seen(entry: Entry): (Op, Choice) {
    (entry.op, if IsMark(entry.op) then Choice(entry.ch.begun, entry.ch.begun, [], []) else entry.ch)
  }

  function Logged(log: seq<Entry>): seq<(Op, Choice)> {
    seq(|log|, k requires 0 <= k < |log| => Seen(log[k]))
  }

  ghost predicate SameAs(w: Runtime.World, t: Site) {
    w.db == t.s.db && w.clock == t.s.clock && w.jobs == t.jobs && w.publishers == t.publishers
  }

  /** The world run has come to where the site stands. */
  ghost predicate Matches(env: Env, t: Site, worlds: seq<Runtime.World>, steps: seq<Runtime.Step>) {
    && Runtime.WorldRun(env, Runtime.OpenApi, worlds, steps) && SameAs(worlds[|steps|], t)
    && Committed(worlds, steps) == Logged(t.s.log)
  }

  lemma OneMoreMatch(env: Env, t: Site, worlds: seq<Runtime.World>, steps: seq<Runtime.Step>,
                     step: Runtime.Step, v: Runtime.World, u: Site)
    requires Matches(env, t, worlds, steps) && Runtime.Moves(env, Runtime.OpenApi, worlds[|steps|], step, v)
    requires SameAs(v, u) && Logged(u.s.log) == Logged(t.s.log) + Commits(worlds[|steps|], step)
    ensures Matches(env, u, worlds + [v], steps + [step])
  {
    hide Runtime.Moves, Commits, Logged, SameAs;
    Runtime.RunGoesOn(env, Runtime.OpenApi, worlds, steps, step, v);
    var all, n := worlds + [v], |steps|;
    assert all[..n + 1] == worlds && (steps + [step])[..n] == steps;
    hide Runtime.WorldRun;
  }

  lemma OneMoreLogged(env: Env, s: System, c: Client, s': System)
    requires Next(env, s, Commit(c), s')
    ensures c in s.clients
    ensures var x := s.clients[c];
      Logged(s'.log) == Logged(s.log) + [Seen(Entry(x.op, x.local.ch, x.local.reply))]
  {
    hide Merge, Seen;
  }

  lemma CommitAdvances(env: Env, s: System, c: Client, s': System)
    requires Next(env, s, Commit(c), s')
    ensures s'.clock == s.clock
  {
    hide Merge;
  }

  lemma CallMatches(env: Env, t: Site, c: Client, u: Site, w: Runtime.World)
    returns (step: Runtime.Step, v: Runtime.World)
    requires SiteOk(env, t) && Happens(env, t, Statement(Commit(c)), u) && SameAs(w, t)
    ensures Runtime.Moves(env, Runtime.OpenApi, w, step, v) && SameAs(v, u)
    ensures Logged(u.s.log) == Logged(t.s.log) + Commits(w, step)
  {
    hide Inv, Next, BegunBefore, MarksInOrder, Logged, Runtime.Moves;
    var x := t.s.clients[c];
    step, v := Runtime.Call(x.op, x.local.ch), w.(db := u.s.db);
    CallCommitsAsOneStep(env, t.s, c, u.s, w);
    OneMoreLogged(env, t.s, c, u.s);
    CommitAdvances(env, t.s, c, u.s);
  }

  lemma ClaimMatches(env: Env, t: Site, c: Client, id: nat, u: Site, w: Runtime.World)
    returns (step: Runtime.Step, v: Runtime.World)
    requires SiteOk(env, t) && Happens(env, t, ClaimCommits(c, id), u) && SameAs(w, t)
    ensures Runtime.Moves(env, Runtime.OpenApi, w, step, v) && SameAs(v, u)
    ensures Logged(u.s.log) == Logged(t.s.log) + Commits(w, step)
  {
    hide Inv, Next, BegunBefore, MarksInOrder, Logged, Runtime.Moves, SafeLease;
    var x := t.s.clients[c];
    step := Runtime.Claim(id, x.op.limit, x.op.lease, x.local.ch);
    v := ClaimCommitsAsOneStep(env, t.s, c, u.s, w, id);
    OneMoreLogged(env, t.s, c, u.s);
    CommitAdvances(env, t.s, c, u.s);
  }

  /** The publisher that client `c` marks for, and its mark. */
  lemma MarkHere(t: Site, c: Client)
    requires MarksInOrder(t) && c in t.marking
    ensures c in t.s.clients && t.marking[c] in t.publishers
    ensures var p, op := t.publishers[t.marking[c]], t.s.clients[c].op;
      Runtime.AtRow(p) && !p.phase.Enqueueing? && IsMark(op) && op == Runtime.MarkOp(p, ErrorOf(op))
  {
    assert MarksItsRow(t, c);
  }

  lemma MarkMatches(env: Env, t: Site, c: Client, outcome: Runtime.Outcome, u: Site, w: Runtime.World)
    returns (step: Runtime.Step, v: Runtime.World)
    requires SiteOk(env, t) && Happens(env, t, MarkCommits(c, outcome), u) && SameAs(w, t)
    ensures Runtime.Moves(env, Runtime.OpenApi, w, step, v) && SameAs(v, u)
    ensures Logged(u.s.log) == Logged(t.s.log) + Commits(w, step)
  {
    hide Inv, Next, BegunBefore, MarksInOrder, IsMark, Logged, Runtime.Moves, Runtime.AfterMark, Runtime.AtRow;
    hide Runtime.MarkOp, ErrorOf;
    MarkHere(t, c);
    var x, id := t.s.clients[c], t.marking[c];
    step := Runtime.Mark(id, outcome, x.local.ch.begun, ErrorOf(x.op));
    v := CommittedMark(env, t.s, c, u.s, w, id, outcome, ErrorOf(x.op));
    OneMoreLogged(env, t.s, c, u.s);
    CommitAdvances(env, t.s, c, u.s);
  }

  lemma CommittedMark(
      env: Env, s: System, c: Client, s': System, w: Runtime.World, id: nat, outcome: Runtime.Outcome, error: string)
    returns (v: Runtime.World)
    requires Inv(env, s) && BegunBefore(s) && Next(env, s, Commit(c), s') && c in s.clients && IsMark(s.clients[c].op)
    requires w.db == s.db && w.clock == s.clock
    requires id in w.publishers && Runtime.AtRow(w.publishers[id]) && !w.publishers[id].phase.Enqueueing?
    requires Runtime.MarkOp(w.publishers[id], error) == s.clients[c].op && !outcome.Failed?
    ensures v == w.(db := s'.db, publishers := Runtime.AfterMark(w.publishers, id, outcome))
    ensures Runtime.Moves(env, Runtime.OpenApi, w, Runtime.Mark(id, outcome, s.clients[c].local.ch.begun, error), v)
  {
    hide Inv, Next, BegunBefore, Runtime.Moves, Runtime.AfterMark, Runtime.AtRow, Runtime.MarkOp;
    v := MarkCommitsAsOneStep(env, s, c, s', w, id, outcome, error);
  }

  lemma FailureMatches(env: Env, t: Site, c: Client, u: Site, w: Runtime.World)
    returns (step: Runtime.Step, v: Runtime.World)
    requires SiteOk(env, t) && Happens(env, t, MarkFails(c), u) && SameAs(w, t)
    ensures Runtime.Moves(env, Runtime.OpenApi, w, step, v) && SameAs(v, u)
    ensures Logged(u.s.log) == Logged(t.s.log) + Commits(w, step)
  {
    hide Inv, Next, BegunBefore, MarksInOrder, IsMark, Logged, Runtime.Moves, Runtime.AfterMark, Runtime.AtRow;
    hide Runtime.MarkOp, ErrorOf;
    RolledBack(env, t.s, c, u.s);
    MarkHere(t, c);
    step := Runtime.Mark(t.marking[c], Runtime.Outcome.Failed, w.clock, "");
    v := FailedMark(env, w, t.marking[c]);
  }

  lemma FailedMark(env: Env, w: Runtime.World, id: nat) returns (v: Runtime.World)
    requires id in w.publishers && Runtime.AtRow(w.publishers[id]) && !w.publishers[id].phase.Enqueueing?
    ensures v == w.(publishers := Runtime.AfterMark(w.publishers, id, Runtime.Outcome.Failed))
    ensures Runtime.Moves(env, Runtime.OpenApi, w, Runtime.Mark(id, Runtime.Outcome.Failed, w.clock, ""), v)
  {
    hide Kernel.After, Runtime.AfterMark, Runtime.Moves;
    v := WorldMark(env, w, id, Runtime.Outcome.Failed, w.clock, "");
  }

  lemma RolledBack(env: Env, s: System, c: Client, s': System)
    requires Next(env, s, Rollback(c), s')
    ensures s'.db == s.db && s'.clock == s.clock && s'.log == s.log
  {
  }

  /** Ticks of the clock, answers of the queue, and publishers that leave. */
  lemma OtherMatches(env: Env, t: Site, e: Event, u: Site, w: Runtime.World)
    returns (step: Runtime.Step, v: Runtime.World)
    requires Happens(env, t, e, u) && SameAs(w, t)
    requires e.Enqueues? || e.Leaves? || (e.Statement? && e.action.Tick?)
    ensures Runtime.Moves(env, Runtime.OpenApi, w, step, v) && SameAs(v, u)
    ensures Logged(u.s.log) == Logged(t.s.log) + Commits(w, step)
  {
    hide Logged, Blank;
    match e
    case Enqueues(id, outcome) =>
      step, v := Runtime.Enqueue(id, outcome), w.(jobs := u.jobs, publishers := u.publishers);
    case Leaves(id) => step, v := Runtime.Leave(id), w.(publishers := u.publishers);
    case Statement(a) => step, v := Runtime.Advance(a.now), w.(clock := a.now);
  }

  /** What happens inside a transaction is not yet a step of the world. */
  predicate Inside(e: Event) {
    || e.MarkBegins? || (e.Statement? && (e.action.Begin? || e.action.Run? || e.action.Rollback?))
  }

  lemma InsideMatches(env: Env, t: Site, e: Event, u: Site, worlds: seq<Runtime.World>, steps: seq<Runtime.Step>)
    requires Inside(e) && Happens(env, t, e, u) && Matches(env, t, worlds, steps)
    ensures Matches(env, u, worlds, steps)
  {
    hide Committed, Logged, Runtime.WorldRun, Execute, Enabled, WellFormedOp;
  }

  lemma EventMatches(env: Env, t: Site, e: Event, u: Site, w: Runtime.World)
    returns (step: Runtime.Step, v: Runtime.World)
    requires SiteOk(env, t) && Happens(env, t, e, u) && SameAs(w, t) && !Inside(e)
    ensures Runtime.Moves(env, Runtime.OpenApi, w, step, v) && SameAs(v, u)
    ensures Logged(u.s.log) == Logged(t.s.log) + Commits(w, step)
  {
    hide SiteOk, Happens, SameAs, Runtime.Moves, Logged, Commits;
    match e
    case ClaimCommits(c, id) => step, v := ClaimMatches(env, t, c, id, u, w);
    case MarkCommits(c, outcome) => step, v := MarkMatches(env, t, c, outcome, u, w);
    case MarkFails(c) => step, v := FailureMatches(env, t, c, u, w);
    case Statement(a) =>
      if a.Commit? {
        step, v := CallMatches(env, t, a.client, u, w);
      } else {
        step, v := OtherMatches(env, t, e, u, w);
      }
    case _ => step, v := OtherMatches(env, t, e, u, w);
  }

  /**
   * Every run of a site, with any callers and any publishers, is matched at each of its states by a run
   * of the world: the same commits in the same order, the same tables, queue, publishers and clock.
   */
  lemma {:induction false} RunIsWorldRun(env: Env, sites: seq<Site>, events: seq<Event>, n: nat)
    returns (worlds: seq<Runtime.World>, steps: seq<Runtime.Step>)
    requires SiteRun(env, sites, events) && n < |sites|
    ensures Matches(env, sites[n], worlds, steps)
  {
    hide SiteOk, Happens, Matches, Inside, Runtime.Moves, Logged, Commits, SameAs;
    if n == 0 {
      worlds, steps := StartsMatched(env, sites[0]);
    } else {
      worlds, steps := RunIsWorldRun(env, sites, events, n - 1);
      var t, e, u := sites[n - 1], events[n - 1], sites[n];
      RunKeepsSite(env, sites, events, n - 1);
      assert Happens(env, t, e, u);
      if Inside(e) {
        InsideMatches(env, t, e, u, worlds, steps);
      } else {
        WhereItStands(env, t, worlds, steps);
        var step, v := EventMatches(env, t, e, u, worlds[|steps|]);
        OneMoreMatch(env, t, worlds, steps, step, v, u);
        worlds, steps := worlds + [v], steps + [step];
      }
    }
  }

  lemma StartsMatched(env: Env, t: Site) returns (worlds: seq<Runtime.World>, steps: seq<Runtime.Step>)
    requires Initial(t.s) && t == Site(t.s, {}, map[], map[])
    ensures Matches(env, t, worlds, steps)
  {
    worlds, steps := [Shell(t)], [];
  }

  lemma WhereItStands(env: Env, t: Site, worlds: seq<Runtime.World>, steps: seq<Runtime.Step>)
    requires Matches(env, t, worlds, steps)
    ensures |worlds| == |steps| + 1 && SameAs(worlds[|steps|], t)
  {
    hide SameAs, Committed, Logged;
  }

  /** So the approval gate holds down to the queue of interleaved statements. */
  lemma QueuedPassedTheGate(env: Env, sites: seq<Site>, events: seq<Event>, n: nat, e: ExecId)
    requires SiteRun(env, sites, events) && n < |sites| && e in sites[n].jobs
    ensures var db := sites[n].s.db;
      && e in db.execs && e in db.dispatches
      && (BeginsWith(db, e, Intake) || HasApproved(db, e))
  {
    var worlds, steps := RunIsWorldRun(env, sites, events, n);
    hide SiteRun, Committed, Logged, Runtime.WorldRun, BeginsWith, HasApproved;
    WhereItStands(env, sites[n], worlds, steps);
    Runtime.JobsPassedTheGate(env, Runtime.OpenApi, worlds, steps, |steps|, e);
  }

  /** And so does the outbox: what is marked DISPATCHED has its job queued, what is PROCESSING its lease. */
  lemma DispatchedIsQueued(env: Env, sites: seq<Site>, events: seq<Event>, n: nat, e: ExecId)
    requires SiteRun(env, sites, events) && n < |sites| && e in sites[n].s.db.dispatches
    ensures var row := sites[n].s.db.dispatches[e];
      && (row.status == Dispatched || row.dispatchedAt.Some? ==> e in sites[n].jobs)
      && (row.status == Processing <==> row.lockedUntil.Some?)
  {
    var worlds, steps := RunIsWorldRun(env, sites, events, n);
    hide SiteRun, Committed, Logged, Runtime.WorldRun, Claimable;
    WhereItStands(env, sites[n], worlds, steps);
    Runtime.NoDispatchIsLost(env, Runtime.OpenApi, worlds, steps, |steps|, e);
  }

  // ---------- runs with no publishers' marks ----------

  /** The run commits no marks up to `n`. */
  predicate CommitsNoMarks(states: seq<System>, actions: seq<Action>, n: nat)
    requires n <= |actions| <= |states|
  {
    forall k, c | 0 <= k < n && actions[k] == Commit(c) && c in states[k].clients :: !IsMark(states[k].clients[c].op)
  }

  lemma FreshPublisher(used: set<nat>) returns (id: nat)
    ensures forall x | x in used :: x < id
  {
    if x :| x in used {
      var rest := FreshPublisher(used - {x});
      id := Max(rest, x + 1);
      assert forall y | y in used :: y == x || y in used - {x};
    } else {
      id := 0;
    }
  }

  /** Any run of callers and claims is the run of a site: whoever claims is a publisher that comes no further. */
  lemma {:induction false} CallersAndClaims(env: Env, states: seq<System>, actions: seq<Action>, n: nat)
    returns (sites: seq<Site>, events: seq<Event>)
    requires IsRun(env, states, actions) && n < |states| && CommitsNoMarks(states, actions, n)
    ensures SiteRun(env, sites, events) && |sites| == n + 1 && sites[n].s == states[n] && sites[n].marking == map[]
  {
    hide Next, Happens, Initial;
    if n == 0 {
      sites, events := [Site(states[0], {}, map[], map[])], [];
    } else {
      sites, events := CallersAndClaims(env, states, actions, n - 1);
      var t, a := sites[n - 1], actions[n - 1];
      assert Next(env, states[n - 1], a, states[n]);
      var e, u := AsEvent(env, t, a, states[n]);
      sites, events := sites + [u], events + [e];
    }
  }

  lemma AsEvent(env: Env, t: Site, a: Action, s': System) returns (e: Event, u: Site)
    requires Next(env, t.s, a, s') && t.marking == map[]
    requires a.Commit? && a.client in t.s.clients ==> !IsMark(t.s.clients[a.client].op)
    ensures Happens(env, t, e, u) && u.s == s' && u.marking == map[]
  {
    if a.Commit? { OneMoreLogged(env, t.s, a.client, s'); }
    hide Next;
    if a.Commit? && t.s.clients[a.client].op.ClaimDispatches? {
      var id := FreshPublisher(t.publishers.Keys);
      assert id !in t.publishers.Keys;
      e := ClaimCommits(a.client, id);
      u := t.(s := s', publishers := t.publishers[id := NewPublisher(t.s.clients[a.client])]);
    } else {
      e, u := Statement(a), t.(s := s');
    }
  }
}
