/** The execution lifecycle: fifteen statuses and the fixed table of allowed edges. */
module StateMachine {
  datatype Status =
    | Intake | Context | PolicyCheck | Planning | ToolPermissionCheck
    | Action | Validation | Approval | Execution | Evidence
    | Outcome | Evaluation | Learning | Failed | Rejected

  function AllowedTransitions(from: Status): seq<Status> {
    match from
    case Intake => [Context, Failed]
    case Context => [PolicyCheck, Failed]
    case PolicyCheck => [Planning, Rejected, Failed]
    case Planning => [ToolPermissionCheck, Failed]
    case ToolPermissionCheck => [Action, Approval, Rejected, Failed]
    case Action => [Validation, Failed]
    case Validation => [Approval, Execution, Failed]
    case Approval => [Execution, Rejected, Failed]
    case Execution => [Evidence, Failed]
    case Evidence => [Outcome, Failed]
    case Outcome => [Evaluation, Failed]
    case Evaluation => [Learning, Failed]
    case Learning => []
    case Failed => []
    case Rejected => []
  }

  predicate CanTransition(from: Status, to: Status) {
    to in AllowedTransitions(from)
  }

  /** The statuses from which a status can be entered. */
  function Predecessors(to: Status): set<Status> {
    match to
    case Intake => {}
    case Context => {Intake}
    case PolicyCheck => {Context}
    case Planning => {PolicyCheck}
    case ToolPermissionCheck => {Planning}
    case Action => {ToolPermissionCheck}
    case Validation => {Action}
    case Approval => {ToolPermissionCheck, Validation}
    case Execution => {Validation, Approval}
    case Evidence => {Execution}
    case Outcome => {Evidence}
    case Evaluation => {Outcome}
    case Learning => {Evaluation}
    case Rejected => {PolicyCheck, ToolPermissionCheck, Approval}
    case Failed =>
      {Intake, Context, PolicyCheck, Planning, ToolPermissionCheck, Action, Validation, Approval, Execution, Evidence,
       Outcome, Evaluation}
  }

  /** The table read backwards: no edge is missing and none is there that should not be. */
  lemma EdgesAreExact(from: Status, to: Status)
    ensures CanTransition(from, to) <==> from in Predecessors(to)
  {
    var edges := AllowedTransitions(from);
    if from in Predecessors(to) {
      assert exists i :: 0 <= i < |edges| && edges[i] == to by {
        if |edges| > 0 && edges[0] == to {
        } else if |edges| > 1 && edges[1] == to {
        } else if |edges| > 2 && edges[2] == to {
        } else {
          assert edges[3] == to;
        }
      }
    }
  }

  /** The statuses that `fail` and the worker name literally as terminal. */
  predicate Terminal(s: Status) {
    s == Failed || s == Rejected || s == Learning
  }

  /** The longest walk that can still be taken from a status. */
  function Rank(s: Status): nat {
    match s
    case Intake => 12
    case Context => 11
    case PolicyCheck => 10
    case Planning => 9
    case ToolPermissionCheck => 8
    case Action => 7
    case Validation => 6
    case Approval => 5
    case Execution => 4
    case Evidence => 3
    case Outcome => 2
    case Evaluation => 1
    case Learning => 0
    case Failed => 0
    case Rejected => 0
  }

  /** A log of statuses each of which follows from the one before. */
  ghost predicate Path(log: seq<Status>) {
    forall i | 0 < i < |log| :: CanTransition(log[i - 1], log[i])
  }

  lemma EdgeLowersRank(from: Status, to: Status)
    requires CanTransition(from, to)
    ensures Rank(to) < Rank(from)
  {
    var edges := AllowedTransitions(from);
    var i :| 0 <= i < |edges| && edges[i] == to;
    assert i == 0 || i == 1 || i == 2 || i == 3;
  }

  /** Ranks fall by at least one at every step, so positions are paid for in rank. */
  lemma {:induction false} RankFallsAlongPath(log: seq<Status>, i: nat, j: nat)
    requires Path(log) && i <= j < |log|
    ensures Rank(log[j]) + (j - i) <= Rank(log[i])
    decreases j
  {
    if i < j {
      RankFallsAlongPath(log, i, j - 1);
      EdgeLowersRank(log[j - 1], log[j]);
    }
  }

  /** Every walk is short, never revisits a status, and stops at a terminal one. */
  lemma PathIsShortAndSimple(log: seq<Status>)
    requires Path(log)
    ensures |log| <= 13
    ensures forall i, j | 0 <= i < j < |log| :: log[i] != log[j]
    ensures forall i | 0 <= i < |log| && Terminal(log[i]) :: i == |log| - 1
  {
    if |log| > 0 {
      RankFallsAlongPath(log, 0, |log| - 1);
    }
    forall i, j | 0 <= i < j < |log| ensures Rank(log[j]) < Rank(log[i]) && !Terminal(log[i]) {
      RankFallsAlongPath(log, i, j);
    }
  }

  /** The walk that always takes the first listed edge. */
  function FirstWalk(s: Status): (walk: seq<Status>)
    ensures |walk| > 0 && walk[0] == s
    decreases Rank(s)
  {
    if Terminal(s) then [s]
    else
      var next := AllowedTransitions(s)[0];
      EdgeLowersRank(s, next);
      [s] + FirstWalk(next)
  }

  /** The bound is tight at every status: some walk uses up the whole rank (thirteen entries from Intake). */
  lemma {:induction false} RankIsAttained(s: Status)
    ensures Path(FirstWalk(s)) && |FirstWalk(s)| == Rank(s) + 1
    decreases Rank(s)
  {
    if !Terminal(s) {
      var next := AllowedTransitions(s)[0];
      EdgeLowersRank(s, next);
      RankIsAttained(next);
      var tail := FirstWalk(next);
      forall i | 0 < i < |FirstWalk(s)| ensures CanTransition(FirstWalk(s)[i - 1], FirstWalk(s)[i]) {
        if i > 1 {
          assert FirstWalk(s)[i - 1] == tail[i - 2] && FirstWalk(s)[i] == tail[i - 1];
        }
      }
    }
  }

  /** `fail` never consults the table; its hand-written list of terminal statuses agrees with it exactly. */
  lemma FailAgreesWithTable(s: Status)
    ensures !Terminal(s) <==> CanTransition(s, Failed)
    ensures Terminal(s) <==> forall to :: !CanTransition(s, to)
  {
    var edges := AllowedTransitions(s);
    if edges != [] {
      assert edges[|edges| - 1] == Failed;
      assert CanTransition(s, Failed);
    }
  }
}
