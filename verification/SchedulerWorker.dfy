/** The scheduler's pass over approvals and commands as the code runs it, with the counts it reports. */
module SchedulerWorker {
  import opened Options
  import opened CommandStates
  import opened Tables
  import opened Lifecycle
  import opened LifecycleProofs
  import opened Store
  import opened Operations
  import opened OperationProofs
  import opened Sessions
  import opened Scheduler
  import ConsumerWorker
  import Pairing

  /** The approvals that one bulk update turned to expired. */
  function NewlyExpiredApprovals(a: Db, b: Db): set<CommandId> {
    set c | c in a.approvals && c in b.approvals
            && b.approvals[c].status == ExpiredApproval && a.approvals[c].status != ExpiredApproval
  }

  /** The commands that are expired now and were not before. */
  function NewlyExpired(a: Db, b: Db): set<CommandId> {
    set c | c in a.commands && c in b.commands
            && b.commands[c].state == Expired && a.commands[c].state != Expired
  }

  /** One bulk update, whose row count is returned. */
  method ExpirePendingApprovals(s: Session, now: int) returns (count: nat)
    modifies s`work
    ensures s.work == ExpireApprovals(old(s.work), now)
    ensures count == |NewlyExpiredApprovals(old(s.work), s.work)|
  {
    var rows := set c | c in s.work.approvals && ApprovalOverdue(s.work.approvals[c], now);
    ghost var before := s.work;
    s.work := s.work.(approvals := map c | c in s.work.approvals ::
      if c in rows then s.work.approvals[c].(status := ExpiredApproval) else s.work.approvals[c]);
    assert s.work.approvals == ExpireApprovals(before, now).approvals;
    assert NewlyExpiredApprovals(before, s.work) == rows;
    return |rows|;
  }

  /** The loop over the selected commands. A refused command is logged and left as it is; the others
      are expired together with their tasks and counted. */
  method ExpireCommands(s: Session, ids: seq<CommandId>, now: int) returns (count: nat)
    requires !s.aborted && Base(s.work)
    requires Members(ids) <= OverdueCommands(s.work, now) && NoRepeats(ids)
    modifies s`work, s`aborted
    ensures !s.aborted
    ensures s.work == Operations.ExpireCommands(old(s.work), Members(ids), now)
    ensures count == |NewlyExpired(old(s.work), s.work)|
  {
    hide Base, Put, Stamp, Moved, Bulk, OnExpire, OverdueCommands, PythonAccepts, TriggerAccepts, NewlyExpired;
    ghost var db := s.work;
    PassStart(db, now);
    assert Members(ids[..0]) == {};
    var i := 0;
    count := 0;
    while i < |ids|
      invariant 0 <= i <= |ids| && !s.aborted && Linked(db) && Linked(s.work)
      invariant s.work == Bulk(db, Members(ids[..i]), d => OnExpire(d, now))
      invariant count == |NewlyExpired(db, s.work)|
    {
      PassStep(db, ids, i, now);
      var expired := ExpireCommand(s, ids[i], now);
      if expired {
        count := count + 1;
      }
      i := i + 1;
    }
    assert ids[..i] == ids;
  }

  method ExpireCommand(s: Session, c: CommandId, now: int) returns (expired: bool)
    requires !s.aborted && Linked(s.work) && c in s.work.commands
    requires PythonAccepts(s.work.commands[c].state, Expired) ==> TriggerAccepts(s.work.commands[c].state, Expired)
    modifies s`work, s`aborted
    ensures !s.aborted && Linked(s.work)
    ensures expired == Accepts(old(s.work).commands[c].state, Expired)
    ensures s.work == if expired then Put(old(s.work), c, OnExpire(DossierOf(old(s.work), c), now), []) else old(s.work)
  {
    hide Put, Stamp, Moved, PythonAccepts, TriggerAccepts;
    ConsumerWorker.MoveThenTask(s.work, c, Expired, "scheduler", None, now,
                                s.work.tasks[c].(state := TaskFailed, summary := Some("expired")));
    var outcome := s.TransitionCommand(c, Expired, "scheduler", None, now);
    if outcome != Done {
      return false;
    }
    if s.work.tasks[c].state !in {TaskSucceeded, TaskFailed, TaskCancelled} {
      s.SetTask(c, s.work.tasks[c].(state := TaskFailed, summary := Some("expired")));
    }
    return true;
  }

  lemma PassStart(db: Db, now: int)
    requires Base(db)
    ensures Linked(db) && Bulk(db, {}, d => OnExpire(d, now)) == db
    ensures NewlyExpired(db, db) == {}
  {
    BulkNone(db, d => OnExpire(d, now));
  }

  /** One turn of the loop: exactly the commands that both guards let expire are written and counted. */
  lemma PassStep(db: Db, ids: seq<CommandId>, i: nat, now: int)
    requires Base(db) && i < |ids| && NoRepeats(ids)
    requires Members(ids) <= OverdueCommands(db, now)
    ensures var f := d => OnExpire(d, now);
            var before, after, c := Bulk(db, Members(ids[..i]), f), Bulk(db, Members(ids[..i + 1]), f), ids[i];
            && Linked(db) && c in db.commands && Linked(before) && Linked(after)
            && c in before.commands && DossierOf(before, c) == DossierOf(db, c)
            && (PythonAccepts(before.commands[c].state, Expired) ==> TriggerAccepts(before.commands[c].state, Expired))
            && after == Put(before, c, OnExpire(DossierOf(before, c), now), [])
            && (!Accepts(before.commands[c].state, Expired) ==> after == before)
            && |NewlyExpired(db, after)|
               == |NewlyExpired(db, before)| + if Accepts(before.commands[c].state, Expired) then 1 else 0
  {
    hide DossiersOk, RowsMatch, KeysUnique, EventsOk, StopsRespected, Put, Bulk, Keeps, OnExpire, NewlyExpired;
    var f := d => OnExpire(d, now);
    var done, c := Members(ids[..i]), ids[i];
    MembersStep(ids, i);
    ExpireCommandsBulk(db, Members(ids[..i + 1]), now);
    BulkStep(db, done, f, c);
    BulkReads(db, done + {c}, f);
    ExpiryGuards(db, c, now);
    var before := Bulk(db, done, f);
    PutNothing(before, c);
    CountStep(db, before, c, OnExpire(DossierOf(db, c), now));
  }

  lemma ExpiryGuards(db: Db, c: CommandId, now: int)
    requires Base(db) && c in OverdueCommands(db, now)
    ensures var d := DossierOf(db, c);
            && (PythonAccepts(d.cmd.state, Expired) ==> TriggerAccepts(d.cmd.state, Expired))
            && d.cmd.state != Expired
            && (if Accepts(d.cmd.state, Expired) then OnExpire(d, now).cmd.state == Expired else OnExpire(d, now) == d)
  {
    hide DossiersOk, RowsMatch, KeysUnique, EventsOk, StopsRespected;
    SettledRow(db, c);
  }

  lemma CountStep(db: Db, before: Db, c: CommandId, d: Dossier)
    requires c in db.commands && c in before.commands && before.commands[c] == db.commands[c]
    requires db.commands[c].state != Expired
    ensures |NewlyExpired(db, Put(before, c, d, []))|
            == |NewlyExpired(db, before)| + if d.cmd.state == Expired then 1 else 0
  {
    var after := Put(before, c, d, []);
    assert c !in NewlyExpired(db, before);
    if d.cmd.state == Expired {
      assert NewlyExpired(db, after) == NewlyExpired(db, before) + {c};
    } else {
      assert NewlyExpired(db, after) == NewlyExpired(db, before);
    }
  }

  /** The whole pass in one transaction: pairings, approvals, commands. The expiry of approvals does not
      change which commands are overdue. */
  method RunTasks(s: Session, p: Pairing.PairingService, ids: seq<CommandId>, now: int)
    returns (pairings: nat, approvals: nat, commands: nat)
    requires s.Fresh() && Base(s.committed)
    requires Members(ids) <= OverdueCommands(s.committed, now) && |ids| <= BATCH_LIMIT && NoRepeats(ids)
    modifies s, p
    ensures p.View() == Pairing.ExpireStale(old(p.View()), now)
    ensures pairings == |set id | id in old(p.pairings) && Pairing.Stale(old(p.pairings)[id], now)|
    ensures s.Fresh() && s.committed == Operations.RunTasks(old(s.committed), Members(ids), now)
    ensures approvals == |NewlyExpiredApprovals(old(s.committed), s.committed)|
    ensures commands == |NewlyExpired(old(s.committed), s.committed)|
  {
    hide Base, Put, Bulk, Keeps, OnExpire, ExpireApprovals;
    ghost var db := s.work;
    pairings := p.ExpireStalePairings(now);
    approvals := ExpirePendingApprovals(s, now);
    ghost var mid := s.work;
    ApprovalsApart(db, ids, now);
    commands := ExpireCommands(s, ids, now);
    CountsApart(db, mid, s.work, Members(ids), now);
    var ok := s.Commit();
  }

  lemma ApprovalsApart(db: Db, ids: seq<CommandId>, now: int)
    requires Base(db)
    ensures var mid := ExpireApprovals(db, now);
            && Linked(db) && Linked(mid) && Base(mid)
            && OverdueCommands(mid, now) == OverdueCommands(db, now) && mid.commands == db.commands
  {
    hide DossiersOk, RowsMatch, KeysUnique, EventsOk, StopsRespected, Extends;
    ExpireApprovalsOk(db, now);
  }

  lemma CountsApart(db: Db, mid: Db, after: Db, ids: set<CommandId>, now: int)
    requires Linked(mid) && mid.commands == db.commands && after == Operations.ExpireCommands(mid, ids, now)
    ensures NewlyExpired(db, after) == NewlyExpired(mid, after)
    ensures NewlyExpiredApprovals(db, after) == NewlyExpiredApprovals(db, mid)
  {
  }
}
