/** The scheduler's bounded expiry pass: what one pass achieves and when passes make progress. */
module Scheduler {
  import opened Options
  import opened CommandStates
  import opened Tables
  import opened Lifecycle
  import opened LifecycleProofs
  import opened Store
  import opened Operations
  import opened OperationProofs

  const BATCH_LIMIT: nat := 100

  function OverdueCommands(db: Db, now: int): set<CommandId> {
    set c | c in db.commands && Overdue(db, c, now)
  }

  /** Overdue commands that both guards let expire. */
  function Expirable(db: Db, now: int): set<CommandId> {
    set c | c in db.commands && db.commands[c].state in {Queued, AwaitingApproval}
            && db.commands[c].expiresAt.Some? && db.commands[c].expiresAt.value < now
  }

  /** Overdue commands that the query selects although the state machine refuses to expire them. */
  function StuckDelivered(db: Db, now: int): set<CommandId> {
    set c | c in db.commands && db.commands[c].state == Delivered
            && db.commands[c].expiresAt.Some? && db.commands[c].expiresAt.value < now
  }

  /** What the unordered query with its limit may return when no row is locked. */
  predicate Selection(db: Db, ids: set<CommandId>, now: int) {
    && ids <= OverdueCommands(db, now)
    && |ids| == if |OverdueCommands(db, now)| < BATCH_LIMIT then |OverdueCommands(db, now)| else BATCH_LIMIT
  }

  lemma OverdueSplits(db: Db, now: int)
    requires Base(db)
    ensures OverdueCommands(db, now) == Expirable(db, now) + StuckDelivered(db, now)
  {
    hide DossiersOk, RowsMatch, KeysUnique, EventsOk, StopsRespected;
    forall c | c in db.commands
      ensures Settled(db.commands[c].state)
    {
      SettledRow(db, c);
    }
  }

  /** A pass expires exactly the expirable commands it selected, with their tasks failed, and touches
      no other command; delivered ones stay as they are. */
  lemma PassEffect(db: Db, ids: set<CommandId>, now: int, c: CommandId)
    requires Base(db) && ids <= OverdueCommands(db, now) && c in db.commands
    ensures var after := RunTasks(db, ids, now);
            && Base(after) && c in after.commands && SameColumns(after.commands[c], db.commands[c])
            && (c in ids && c in Expirable(db, now) ==> after.tasks[c].state == TaskFailed)
            && (c in ids ==> (after.commands[c].state == Expired <==> c in Expirable(db, now)))
            && (c !in ids || c in StuckDelivered(db, now) ==>
                  after.commands[c] == db.commands[c] && after.log[c] == db.log[c] && after.tasks[c] == db.tasks[c])
  {
    hide DossiersOk, RowsMatch, KeysUnique, EventsOk, StopsRespected, RunTasks, StepOk, OverdueCommands, OnExpire;
    RunTasksKeys(db, ids, now);
    OverdueSplits(db, now);
    var d := PassRow(db, ids, now, c);
    ExpireOne(d, now);
  }

  /** A pass leaves a command as it was, or expires it if it is selected. */
  lemma PassRow(db: Db, ids: set<CommandId>, now: int, c: CommandId) returns (d: Dossier)
    requires Base(db) && c in db.commands
    ensures DossierOk(d) && Linked(db)
    ensures d.cmd == db.commands[c] && d.log == db.log[c] && d.task == db.tasks[c]
    ensures var after := RunTasks(db, ids, now);
            && c in after.commands && c in after.log && c in after.tasks
            && var e := if c in ids then OnExpire(d, now) else d;
               after.commands[c] == e.cmd && after.log[c] == e.log && after.tasks[c] == e.task
  {
    hide DossierOk, RowsMatch, KeysUnique, EventsOk, StopsRespected, OnExpire, Keeps, GatesOk;
    ExpireApprovalsOk(db, now);
    var mid := ExpireApprovals(db, now);
    ExpireCommandsBulk(mid, ids, now);
    BulkReads(mid, ids, d => OnExpire(d, now));
    d := DossierOf(mid, c);
  }

  lemma ExpireOne(d: Dossier, now: int)
    requires DossierOk(d)
    ensures var after := OnExpire(d, now);
            && SameColumns(after.cmd, d.cmd)
            && (d.cmd.state in {Queued, AwaitingApproval} ==>
                  after.cmd.state == Expired && after.task.state == TaskFailed)
            && (d.cmd.state == Delivered ==> after == d && after.cmd.state != Expired)
  {
    hide LogOk, AllMetadataOk, KeysDistinct, StampsOk, OutcomeOk, CountInto, LastState, Stamp, Accepts;
    ExpireStamps(d.cmd, now);
  }

  lemma ExpireStamps(cmd: Command, now: int)
    ensures Stamp(cmd, Expired, None, now) == cmd.(state := Expired, finishedAt := Some(now))
    ensures cmd.state in {Queued, AwaitingApproval} ==> Accepts(cmd.state, Expired)
    ensures cmd.state == Delivered ==> !Accepts(cmd.state, Expired)
  {
  }

  lemma PassSets(db: Db, ids: set<CommandId>, now: int)
    requires Base(db) && ids <= OverdueCommands(db, now)
    ensures Base(RunTasks(db, ids, now))
    ensures Expirable(RunTasks(db, ids, now), now) == Expirable(db, now) - ids
    ensures StuckDelivered(RunTasks(db, ids, now), now) == StuckDelivered(db, now)
  {
    hide Base, RunTasks;
    var after := RunTasks(db, ids, now) by {
      BaseLinked(db);
    }
    RunTasksKeys(db, ids, now);
    forall c | c in db.commands
      ensures c in Expirable(after, now) <==> c in Expirable(db, now) && c !in ids
      ensures c in StuckDelivered(after, now) <==> c in StuckDelivered(db, now)
    {
      PassEffect(db, ids, now, c);
      if c in ids {
        OverdueSplits(db, now);
      }
    }
  }

  lemma RunTasksKeys(db: Db, ids: set<CommandId>, now: int)
    requires Base(db)
    ensures Linked(db) && RunTasks(db, ids, now).commands.Keys == db.commands.Keys && Base(RunTasks(db, ids, now))
  {
    hide DossierOk, RowsMatch, KeysUnique, EventsOk, StopsRespected, OnExpire;
    RunTasksOk(db, ids, now);
  }

  /** With fewer stuck commands than the batch holds, every pass expires something. */
  lemma SelectionMakesProgress(db: Db, ids: set<CommandId>, now: int)
    requires Base(db) && Selection(db, ids, now)
    requires Expirable(db, now) != {} && |StuckDelivered(db, now)| < BATCH_LIMIT
    ensures Expirable(db, now) - ids < Expirable(db, now)
  {
    hide Base;
    OverdueSplits(db, now);
    if Expirable(db, now) * ids == {} {
      assert ids <= StuckDelivered(db, now);
      Cardinality(ids, StuckDelivered(db, now));
      Cardinality(ids, OverdueCommands(db, now));
    }
  }

  /** Passes one after the other at a fixed time. */
  function Passes(db: Db, selections: seq<set<CommandId>>, now: int): Db
    requires Base(db)
    decreases |selections|
  {
    if selections == [] then db
    else
      hide Base, RunTasks;
      RunTasksKeys(db, selections[0], now);
      Passes(RunTasks(db, selections[0], now), selections[1..], now)
  }

  ghost predicate Selections(db: Db, selections: seq<set<CommandId>>, now: int)
    requires Base(db)
    decreases |selections|
  {
    selections == [] ||
    (Selection(db, selections[0], now) &&
     (hide Base, RunTasks;
      RunTasksKeys(db, selections[0], now);
      Selections(RunTasks(db, selections[0], now), selections[1..], now)))
  }

  lemma {:induction false} PassesEmpty(db: Db, selections: seq<set<CommandId>>, now: int)
    requires Base(db) && Selections(db, selections, now)
    requires |StuckDelivered(db, now)| < BATCH_LIMIT && |selections| >= |Expirable(db, now)|
    ensures Expirable(Passes(db, selections, now), now) == {}
    decreases |selections|
  {
    hide Base, RunTasks, Expirable, StuckDelivered;
    if selections != [] {
      var ids := selections[0];
      RunTasksKeys(db, ids, now);
      var next := RunTasks(db, ids, now);
      PassSets(db, ids, now);
      if Expirable(db, now) != {} {
        SelectionMakesProgress(db, ids, now);
        Cardinality(Expirable(next, now), Expirable(db, now));
      }
      PassesEmpty(next, selections[1..], now);
    }
  }

  /** With fewer than a batch of overdue delivered commands, as many passes as there are expirable
      commands leave no overdue command queued or awaiting approval, whatever each pass selects. */
  lemma PassesFinish(db: Db, selections: seq<set<CommandId>>, now: int)
    requires Base(db) && Selections(db, selections, now)
    requires |StuckDelivered(db, now)| < 100 && |selections| >= |Expirable(db, now)|
    ensures var after := Passes(db, selections, now);
            forall c :: c in after.commands && after.commands[c].state in {Queued, AwaitingApproval} ==>
              after.commands[c].expiresAt.None? || now <= after.commands[c].expiresAt.value
  {
    hide Base, Selections, Passes;
    PassesEmpty(db, selections, now);
    var after := Passes(db, selections, now);
    forall c | c in after.commands && after.commands[c].state in {Queued, AwaitingApproval}
      ensures after.commands[c].expiresAt.None? || now <= after.commands[c].expiresAt.value
    {
      assert c !in Expirable(after, now);
    }
  }

  lemma {:induction false} SubsetOfSize<T>(s: set<T>, n: nat) returns (t: set<T>)
    requires n <= |s|
    ensures t <= s && |t| == n
  {
    if n == |s| {
      t := s;
    } else {
      var x :| x in s;
      t := SubsetOfSize(s - {x}, n);
    }
  }

  /** The bound is exact: while something is expirable, a pass that expires nothing is possible if
      and only if a whole batch of overdue commands is stuck in Delivered, and since a pass leaves
      those untouched it can then be repeated for ever. */
  lemma StarvationIff(db: Db, now: int)
    requires Base(db) && Expirable(db, now) != {}
    ensures Linked(db)
    ensures (exists ids :: Selection(db, ids, now) && Expirable(RunTasks(db, ids, now), now) == Expirable(db, now)) <==>
            |StuckDelivered(db, now)| >= BATCH_LIMIT
  {
    hide Base, RunTasks, Expirable, StuckDelivered, OverdueCommands;
    BaseLinked(db);
    OverdueSplits(db, now);
    if |StuckDelivered(db, now)| >= BATCH_LIMIT {
      var ids := SubsetOfSize(StuckDelivered(db, now), BATCH_LIMIT);
      Cardinality(StuckDelivered(db, now), OverdueCommands(db, now));
      PassSets(db, ids, now);
      StuckIsNotExpirable(db, now);
      assert Expirable(db, now) - ids == Expirable(db, now);
      assert Selection(db, ids, now);
    } else {
      forall ids | Selection(db, ids, now)
        ensures Expirable(RunTasks(db, ids, now), now) != Expirable(db, now)
      {
        PassSets(db, ids, now);
        SelectionMakesProgress(db, ids, now);
      }
    }
  }

  lemma StuckIsNotExpirable(db: Db, now: int)
    ensures StuckDelivered(db, now) !! Expirable(db, now)
  {
  }
}
