/**
 * The controlled handler, one method for each stretch of code between two awaits: whatever others
 * do to the tables in between, each stretch is the `Runtime.WorkStep` that the world takes.
 */
module Handler {
  import opened Base
  import opened StateMachine
  import opened Requests
  import opened Tables
  import opened Kernel
  import opened Outcomes
  import opened Service
  import opened Runtime

  class Delivery {
    const service: ExecutionService
    const exec: ExecId
    var pc: WorkerPc

    constructor (service: ExecutionService, exec: ExecId)
      ensures this.service == service && this.exec == exec && pc == Reading
    {
      this.service, this.exec, pc := service, exec, Reading;
    }

    /** Blank ids, then the latest event, then what its status calls for. */
    method Read(answer: Outcome)
      requires pc == Reading
      modifies this
      ensures WorkStep(service.store.Tables(), Worker(exec, Reading), answer) == (service.store.Tables(), pc)
    {
      if Blank(exec) {
        pc := Threw(BlankId);
        return;
      }
      if !answer.Ok? {
        pc := Threw(DatabaseError);
        return;
      }
      var latest := service.store.LatestEvent(exec);
      if latest.None? {
        pc := Threw(UnknownExecution);
      } else if latest.value.status == Status.Failed || latest.value.status == Rejected
                || latest.value.status == Learning {
        pc := Returned;
      } else if latest.value.status == Approval {
        pc := Threw(StillWaiting);
      } else if latest.value.status == Intake {
        pc := Moving;
      } else {
        pc := Returned;
      }
    }

    /** The transition to CONTEXT; only an invalid transition is looked into further. */
    method Advance(answer: Outcome)
      requires pc == Moving
      modifies this, service.store
      ensures WorkStep(old(service.store.Tables()), Worker(exec, Moving), answer) == (service.store.Tables(), pc)
    {
      hide After, Effect, MaxSeq;
      if answer.Failed? {
        pc := Threw(DatabaseError);
        return;
      }
      var reply := service.Transition(exec, Context, WORKER_ACTOR, WORKER_NOTE);
      if !answer.Ok? {
        pc := Threw(DatabaseError);
      } else if reply.Moved? {
        pc := Returned;
      } else if reply == Refusal(InvalidTransition) {
        pc := Rereading;
      } else {
        pc := Threw(UnknownExecution);
      }
    }

    /** After a lost race: fine if the winner has brought the execution to CONTEXT. */
    method Reread(answer: Outcome)
      requires pc == Rereading
      modifies this
      ensures WorkStep(service.store.Tables(), Worker(exec, Rereading), answer) == (service.store.Tables(), pc)
    {
      if !answer.Ok? {
        pc := Threw(DatabaseError);
        return;
      }
      var latest := service.store.LatestEvent(exec);
      if latest.Some? && latest.value.status == Context {
        pc := Returned;
      } else {
        pc := Threw(LostRace);
      }
    }
  }

  // ---------- the steps in terms of the log ----------

  /** What a delivery makes of the latest event. */
  lemma ReadIsExact(db: Db, e: ExecId, n: nat)
    requires IsMaxSeq(db.events, e, n)
    ensures var (t, pc) := WorkStep(db, Worker(e, Reading), Ok);
      && t == db
      && pc == if Blank(e) then Threw(BlankId)
               else if n == 0 then Threw(UnknownExecution)
               else match db.events[EventKey(e, n)].status
                    case Failed => Returned
                    case Rejected => Returned
                    case Learning => Returned
                    case Approval => Threw(StillWaiting)
                    case Intake => Moving
                    case _ => Returned
    ensures WorkStep(db, Worker(e, Rereading), Ok)
      == (db, if n > 0 && db.events[EventKey(e, n)].status == Context then Returned else Threw(LostRace))
  {
    MaxSeqUnique(db.events, e, n);
  }

  /** A database error ends a delivery without a change, unless the transition took effect and the error came after. */
  lemma ErrorsAreExact(db: Db, e: ExecId, answer: Outcome)
    requires !answer.Ok? && !Blank(e)
    ensures WorkStep(db, Worker(e, Reading), answer) == (db, Threw(DatabaseError))
    ensures WorkStep(db, Worker(e, Rereading), answer) == (db, Threw(DatabaseError))
    ensures WorkStep(db, Worker(e, Moving), answer).1 == Threw(DatabaseError)
    ensures WorkStep(db, Worker(e, Moving), answer).0
      == if answer.Lost? then WorkStep(db, Worker(e, Moving), Ok).0 else db
  {
    hide After, Effect, Latest;
  }

  /**
   * The transition of the worker: from INTAKE it adds the worker's event and returns, from any other
   * status it changes nothing and goes on to read again, and an unknown execution makes it throw.
   */
  lemma AdvanceIsExact(db: Db, e: ExecId)
    ensures var (t, pc) := WorkStep(db, Worker(e, Moving), Ok);
      if e !in db.execs then t == db && pc == Threw(UnknownExecution)
      else if db.execs[e].status != Intake then t == db && pc == Rereading
      else
        && pc == Returned
        && MovedBy(db, t, e, Event(Context, "logon.execution.worker", Note(
             "{\"source\":\"controlled-execution-handler\"," +
             "\"reason\":\"Worker accepted execution and advanced controlled lifecycle\"}")))
  {
    MoveIsExact(Advancing(e), NO_READ, db);
    if e in db.execs { EdgesAreExact(db.execs[e].status, Context); }
    hide After, Effect, MovedBy, Predecessors;
  }
}
