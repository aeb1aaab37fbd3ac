/** A database session: work in progress over the committed tables, and the guarded transition that
    every state change goes through. */
module Sessions {
  import opened Options
  import opened CommandStates
  import opened Tables
  import opened Lifecycle
  import opened Store

  /** How a transition ends: done; no such command; refused by the service's table; or an error from
      the database, after which the session can only be rolled back. */
  datatype Transition = Done | NoCommand | Refused | DatabaseError

  function TransitionOf(db: Db, aborted: bool, c: CommandId, new_: CommandState, meta: Option<Metadata>): Transition {
    if aborted then DatabaseError
    else if c !in db.commands then NoCommand
    else if !PythonAccepts(db.commands[c].state, new_) then Refused
    else if !TriggerAccepts(db.commands[c].state, new_) || !Storable(new_, meta) then DatabaseError
    else Done
  }

  class Session {
    var committed: Db
    var work: Db
    var aborted: bool

    constructor (db: Db)
      ensures committed == db && Fresh()
    {
      committed, work, aborted := db, db, false;
    }

    /** Nothing is in progress. */
    predicate Fresh()
      reads this
    {
      work == committed && !aborted
    }

    /** A commit on a broken session fails and leaves the committed tables alone. */
    method Commit() returns (ok: bool)
      modifies this
      ensures Fresh() && ok == !old(aborted)
      ensures committed == if ok then old(work) else old(committed)
    {
      if aborted {
        work, aborted := committed, false;
        return false;
      }
      committed := work;
      return true;
    }

    method Rollback()
      modifies this`work, this`aborted
      ensures Fresh()
    {
      work, aborted := committed, false;
    }

    static method StampRow(row: Command, new_: CommandState, meta: Option<Metadata>, now: int)
      returns (command: Command)
      ensures command == Stamp(row, new_, meta, now)
    {
      command := row.(state := new_);
      if new_ == Delivered {
        command := command.(deliveredAt := Some(now));
      } else if new_ == Acknowledged {
        command := command.(acknowledgedAt := Some(now));
      } else if new_ == Running {
        command := command.(startedAt := Some(now));
      } else if new_ == Succeeded {
        command := command.(finishedAt := Some(now));
        if meta.Some? && meta.value.resultData.Some? {
          command := command.(resultData := meta.value.resultData.value);
        }
        if meta.Some? && meta.value.resultSummary.Some? {
          command := command.(resultSummary := meta.value.resultSummary);
        }
      } else if new_ == Failed {
        command := command.(finishedAt := Some(now));
        if meta.Some? {
          command := command.(errorCode := meta.value.errorCode, errorMessage := meta.value.errorMessage);
        }
      } else if new_ in {TimedOut, Cancelled, Expired} {
        command := command.(finishedAt := Some(now));
      }
    }

    method TransitionCommand(c: CommandId, new_: CommandState, source: string, meta: Option<Metadata>, now: int)
      returns (outcome: Transition)
      requires Linked(work)
      modifies this`work, this`aborted
      ensures Linked(work)
      ensures outcome == TransitionOf(old(work), old(aborted), c, new_, meta)
      ensures aborted == (old(aborted) || outcome == DatabaseError)
      ensures outcome == Done ==>
                && c in old(work).commands
                && work == Put(old(work), c, Moved(DossierOf(old(work), c), new_, source, meta, now), [])
      ensures outcome != Done ==> work == old(work)
    {
      hide Stamp, TriggerAccepts, AllowedTransitions, Put, Moved;
      if aborted {
        return DatabaseError;
      }
      if c !in work.commands {
        return NoCommand;
      }
      var command := work.commands[c];
      var current := command.state;
      if current in TERMINAL_STATES && current != new_ {
        return Refused;
      }
      if new_ !in AllowedTransitions(current) {
        if current != new_ {
          return Refused;
        }
      }
      command := StampRow(command, new_, meta, now);
      if !TriggerAccepts(current, new_) || !Storable(new_, meta) {
        aborted := true;
        return DatabaseError;
      }
      ghost var before := work;
      work := work.(commands := work.commands[c := command]);
      work := work.(log := work.log[c := work.log[c] + [LogEntry(Some(current), new_, source, meta)]]);
      PutMoved(before, c, new_, source, meta, now);
      return Done;
    }

    method SetTask(c: CommandId, task: Task)
      requires Linked(work) && c in work.commands
      modifies this`work
      ensures Linked(work) && work == Put(old(work), c, DossierOf(old(work), c).(task := task), [])
    {
      ghost var before := work;
      work := work.(tasks := work.tasks[c := task]);
      PutTask(before, c, task);
    }

    method SetApproval(c: CommandId, approval: Approval)
      requires Linked(work) && c in work.approvals
      modifies this`work
      ensures Linked(work) && work == Put(old(work), c, DossierOf(old(work), c).(approval := Some(approval)), [])
    {
      ghost var before := work;
      work := work.(approvals := work.approvals[c := approval]);
      PutApproval(before, c, approval);
    }

    method AddEvent(e: OutboxEvent)
      modifies this`work
      ensures work == old(work).(outbox := old(work).outbox + [e])
    {
      work := work.(outbox := work.outbox + [e]);
    }
  }

  // ---- Single-table writes seen as writes of a whole dossier ----

  lemma PutMoved(db: Db, c: CommandId, new_: CommandState, source: string, meta: Option<Metadata>, now: int)
    requires Linked(db) && c in db.commands
    ensures var d := Moved(DossierOf(db, c), new_, source, meta, now);
            && Put(db, c, d, [])
               == db.(commands := db.commands[c := Stamp(db.commands[c], new_, meta, now)],
                      log := db.log[c := db.log[c] + [LogEntry(Some(db.commands[c].state), new_, source, meta)]])
            && Linked(Put(db, c, d, []))
  {
    hide Stamp;
    var d := Moved(DossierOf(db, c), new_, source, meta, now);
    assert db.tasks[c := db.tasks[c]] == db.tasks;
    assert c in db.approvals ==> db.approvals[c := db.approvals[c]] == db.approvals;
    assert db.outbox + [] == db.outbox;
    StampDevice(db.commands[c], new_, meta, now);
    PutReads(db, c, d, []);
  }

  lemma StampDevice(cmd: Command, new_: CommandState, meta: Option<Metadata>, now: int)
    ensures SameColumns(cmd, Stamp(cmd, new_, meta, now)) && Stamp(cmd, new_, meta, now).state == new_
  {
  }

  lemma PutTask(db: Db, c: CommandId, task: Task)
    requires Linked(db) && c in db.commands
    ensures var d := DossierOf(db, c).(task := task);
            Put(db, c, d, []) == db.(tasks := db.tasks[c := task]) && Linked(Put(db, c, d, []))
  {
    assert db.commands[c := db.commands[c]] == db.commands;
    assert db.log[c := db.log[c]] == db.log;
    assert c in db.approvals ==> db.approvals[c := db.approvals[c]] == db.approvals;
    assert db.outbox + [] == db.outbox;
  }

  lemma PutApproval(db: Db, c: CommandId, approval: Approval)
    requires Linked(db) && c in db.approvals
    ensures var d := DossierOf(db, c).(approval := Some(approval));
            Put(db, c, d, []) == db.(approvals := db.approvals[c := approval]) && Linked(Put(db, c, d, []))
  {
    assert db.commands[c := db.commands[c]] == db.commands;
    assert db.log[c := db.log[c]] == db.log;
    assert db.tasks[c := db.tasks[c]] == db.tasks;
    assert db.outbox + [] == db.outbox;
  }

  lemma PutOver(db: Db, c: CommandId, d1: Dossier, d2: Dossier, events: seq<OutboxEvent>)
    requires d1.approval.Some? ==> d2.approval.Some?
    ensures Put(Put(db, c, d1, []), c, d2, events) == Put(db, c, d2, events)
  {
    assert db.outbox + [] == db.outbox;
    assert db.commands[c := d1.cmd][c := d2.cmd] == db.commands[c := d2.cmd];
    assert db.log[c := d1.log][c := d2.log] == db.log[c := d2.log];
    assert db.tasks[c := d1.task][c := d2.task] == db.tasks[c := d2.task];
    if d1.approval.Some? {
      assert db.approvals[c := d1.approval.value][c := d2.approval.value] == db.approvals[c := d2.approval.value];
    }
  }
}
