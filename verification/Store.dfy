/** The store's invariant across tables, and the two ways in which operations change it:
    one command at a time, or a set of commands at once. */
module Store {
  import opened Options
  import opened CommandStates
  import opened Tables
  import opened Lifecycle
  import opened LifecycleProofs
  import Subjects

  function DossierOf(db: Db, c: CommandId): Dossier
    requires c in db.commands && c in db.log && c in db.tasks
  {
    Dossier(db.commands[c], db.log[c], db.tasks[c], if c in db.approvals then Some(db.approvals[c]) else None)
  }

  // ---- The invariant ----

  ghost predicate DossiersOk(db: Db)
    requires Linked(db)
  {
    forall c :: c in db.commands ==> DossierOk(DossierOf(db, c))
  }

  ghost predicate GatesOk(db: Db)
    requires Linked(db)
  {
    forall c :: c in db.commands ==> Gate(DossierOf(db, c))
  }

  predicate AnnouncesCommand(e: OutboxEvent, c: CommandId) {
    e.kind == CommandQueued && e.aggregateId == c
  }

  /** The outbox rows that announce a command. */
  function QueuedRows(outbox: seq<OutboxEvent>, c: CommandId): set<nat> {
    set i | 0 <= i < |outbox| && AnnouncesCommand(outbox[i], c)
  }

  /** One announcement for every entry into Queued; with DossierOk, at most one in all. */
  ghost predicate RowsMatch(db: Db)
    requires Linked(db)
  {
    forall c :: c in db.commands ==> |QueuedRows(db.outbox, c)| == CountInto(db.log[c], Queued)
  }

  ghost predicate KeysUnique(db: Db) {
    forall a, b ::
      (a in db.commands && b in db.commands
       && db.commands[a].device == db.commands[b].device && db.commands[a].key == db.commands[b].key) ==> a == b
  }

  /** An announcement carries its own command's device, type, parameters and expiry. */
  predicate EventOk(db: Db, e: OutboxEvent) {
    && (e.status == PendingEvent ==> e.attempts <= 3)
    && (e.payload.CommandPayload? ==> e.kind == CommandQueued)
    && (e.kind == CommandQueued ==>
          && e.aggregateId in db.commands
          && e.payload == PayloadOf(e.aggregateId, db.commands[e.aggregateId])
          && e.subject == Subjects.CommandReady(db.commands[e.aggregateId].device))
  }

  ghost predicate EventsOk(db: Db) {
    forall i :: 0 <= i < |db.outbox| ==> EventOk(db, db.outbox[i])
  }

  predicate CommandStopped(db: Db, c: CommandId)
    requires c in db.commands && db.commands[c].device in db.devices
  {
    StopActive(db, db.devices[db.commands[c].device].owner)
  }

  /** While an owner's stop is active, none of the owner's commands is queued. */
  ghost predicate StopsRespected(db: Db)
    requires Linked(db)
  {
    forall c :: c in db.commands && db.commands[c].state == Queued ==> !CommandStopped(db, c)
  }

  ghost predicate Base(db: Db) {
    && Linked(db) && DossiersOk(db) && RowsMatch(db) && KeysUnique(db) && EventsOk(db) && StopsRespected(db)
  }

  ghost predicate Valid(db: Db) {
    Base(db) && GatesOk(db)
  }

  lemma BaseLinked(db: Db)
    requires Base(db)
    ensures Linked(db)
  {
  }

  lemma RowOk(db: Db, c: CommandId)
    requires Linked(db) && DossiersOk(db) && c in db.commands
    ensures DossierOk(DossierOf(db, c))
  {
    hide DossierOk;
  }

  lemma BaseRow(db: Db, c: CommandId)
    requires Base(db) && c in db.commands
    ensures Linked(db) && DossierOk(DossierOf(db, c))
  {
    hide DossierOk, RowsMatch, KeysUnique, EventsOk, StopsRespected;
  }

  lemma SettledRow(db: Db, c: CommandId)
    requires Linked(db) && DossiersOk(db) && c in db.commands
    ensures Settled(db.commands[c].state)
  {
    assert DossierOk(DossierOf(db, c));
  }

  lemma Cardinality<T>(a: set<T>, b: set<T>)
    requires a <= b
    ensures |a| <= |b|
    ensures |a| == |b| ==> a == b
  {
    assert b == a + (b - a);
  }

  // ---- What no operation undoes ----

  predicate EventContinues(a: OutboxEvent, b: OutboxEvent) {
    && a.kind == b.kind && a.aggregateId == b.aggregateId && a.subject == b.subject && a.payload == b.payload
    && (a.status != PendingEvent ==> b.status == a.status)
    && a.attempts <= b.attempts
  }

  ghost predicate OutboxExtends(a: seq<OutboxEvent>, b: seq<OutboxEvent>) {
    |a| <= |b| && forall i :: 0 <= i < |a| ==> EventContinues(a[i], b[i])
  }

  /** Rows are never deleted, logs only grow, fixed columns stay, decided events stay decided. */
  ghost predicate Extends(a: Db, b: Db) {
    && Linked(a) && Linked(b)
    && (forall v :: v in a.devices ==> v in b.devices && b.devices[v].owner == a.devices[v].owner)
    && (forall c :: c in a.commands ==> c in b.commands && Continues(DossierOf(a, c), DossierOf(b, c)))
    && OutboxExtends(a.outbox, b.outbox)
  }

  lemma EventContinuesTransitive(a: OutboxEvent, b: OutboxEvent, c: OutboxEvent)
    requires EventContinues(a, b) && EventContinues(b, c)
    ensures EventContinues(a, c)
  {
  }

  lemma ContinuesTransitive(a: Dossier, b: Dossier, c: Dossier)
    requires Continues(a, b) && Continues(b, c)
    ensures Continues(a, c)
  {
  }

  lemma ExtendsTransitive(a: Db, b: Db, c: Db)
    requires Extends(a, b) && Extends(b, c)
    ensures Extends(a, c)
  {
    hide EventContinues, Continues;
    forall x | x in a.commands
      ensures x in c.commands && Continues(DossierOf(a, x), DossierOf(c, x))
    {
      ContinuesTransitive(DossierOf(a, x), DossierOf(b, x), DossierOf(c, x));
    }
    forall i | 0 <= i < |a.outbox|
      ensures EventContinues(a.outbox[i], c.outbox[i])
    {
      EventContinuesTransitive(a.outbox[i], b.outbox[i], c.outbox[i]);
    }
  }

  // ---- Changing one command ----

  /** Write back a command with its child rows and append outbox events. */
  function Put(db: Db, c: CommandId, d: Dossier, events: seq<OutboxEvent>): Db {
    db.(commands := db.commands[c := d.cmd],
        log := db.log[c := d.log],
        tasks := db.tasks[c := d.task],
        approvals := if d.approval.Some? then db.approvals[c := d.approval.value] else db.approvals,
        outbox := db.outbox + events)
  }

  lemma PutReads(db: Db, c: CommandId, d: Dossier, events: seq<OutboxEvent>)
    requires Linked(db)
    requires c in db.commands ==> (c in db.approvals) == d.approval.Some?
    requires d.cmd.device in db.devices
    ensures Linked(Put(db, c, d, events))
    ensures DossierOf(Put(db, c, d, events), c) == d
    ensures forall x :: x in db.commands && x != c ==> DossierOf(Put(db, c, d, events), x) == DossierOf(db, x)
  {
    assert c !in db.commands ==> c !in db.approvals;
  }

  lemma PutNothing(db: Db, c: CommandId)
    requires Linked(db) && c in db.commands
    ensures Put(db, c, DossierOf(db, c), []) == db
  {
    assert db.commands[c := db.commands[c]] == db.commands;
    assert db.log[c := db.log[c]] == db.log;
    assert db.tasks[c := db.tasks[c]] == db.tasks;
    assert c in db.approvals ==> db.approvals[c := db.approvals[c]] == db.approvals;
    assert db.outbox + [] == db.outbox;
  }

  lemma PutRow(db: Db, c: CommandId, d: Dossier)
    ensures c in Put(db, c, d, []).commands && Put(db, c, d, []).commands[c] == d.cmd
  {
  }

  lemma RowsAppend(outbox: seq<OutboxEvent>, e: OutboxEvent, x: CommandId)
    ensures |QueuedRows(outbox + [e], x)| == |QueuedRows(outbox, x)| + if AnnouncesCommand(e, x) then 1 else 0
  {
    if AnnouncesCommand(e, x) {
      assert QueuedRows(outbox + [e], x) == QueuedRows(outbox, x) + {|outbox|};
    } else {
      assert QueuedRows(outbox + [e], x) == QueuedRows(outbox, x);
    }
  }

  /** No event, or the announcement of the command that has just been queued. */
  predicate Announces(before: nat, c: CommandId, d: Dossier, events: seq<OutboxEvent>) {
    || (events == [] && CountInto(d.log, Queued) == before)
    || (events == [QueuedEvent(c, d.cmd)] && CountInto(d.log, Queued) == before + 1)
  }

  lemma PutRows(db: Db, c: CommandId, d: Dossier, events: seq<OutboxEvent>, x: CommandId)
    requires Announces(|QueuedRows(db.outbox, c)|, c, d, events)
    ensures |QueuedRows(db.outbox + events, x)| ==
            if x == c then CountInto(d.log, Queued) else |QueuedRows(db.outbox, x)|
  {
    if events == [] {
      assert db.outbox + events == db.outbox;
    } else {
      RowsAppend(db.outbox, events[0], x);
    }
  }

  lemma PutEvents(db: Db, c: CommandId, d: Dossier, events: seq<OutboxEvent>)
    requires EventsOk(db)
    requires c in db.commands ==> SameColumns(db.commands[c], d.cmd)
    requires events == [] || events == [QueuedEvent(c, d.cmd)]
    ensures EventsOk(Put(db, c, d, events))
  {
    var after := Put(db, c, d, events);
    forall i | 0 <= i < |after.outbox|
      ensures EventOk(after, after.outbox[i])
    {
      if i < |db.outbox| {
        assert EventOk(db, db.outbox[i]) && after.outbox[i] == db.outbox[i];
      } else {
        assert after.outbox[i] == events[0];
      }
    }
  }

  lemma PutStops(db: Db, c: CommandId, d: Dossier, events: seq<OutboxEvent>)
    requires Linked(db) && StopsRespected(db) && Linked(Put(db, c, d, events))
    requires d.cmd.device in db.devices
    requires c in db.commands ==> db.commands[c].device == d.cmd.device
    requires d.cmd.state == Queued ==>
               (c in db.commands && db.commands[c].state == Queued) || !StopActive(db, db.devices[d.cmd.device].owner)
    ensures StopsRespected(Put(db, c, d, events))
  {
    var after := Put(db, c, d, events);
    forall x | x in after.commands && after.commands[x].state == Queued
      ensures !CommandStopped(after, x)
    {
      if x != c {
        assert !CommandStopped(db, x);
      } else if c in db.commands && db.commands[c].state == Queued {
        assert !CommandStopped(db, c);
      }
    }
  }

  lemma PutDossiers(db: Db, c: CommandId, d: Dossier, events: seq<OutboxEvent>)
    requires Linked(db) && DossiersOk(db) && DossierOk(d) && d.cmd.device in db.devices
    requires c in db.commands ==> (c in db.approvals) == d.approval.Some?
    ensures var after := Put(db, c, d, events);
            && Linked(after) && DossiersOk(after)
            && (Gate(d) && GatesOk(db) ==> GatesOk(after))
  {
    hide DossierOk, Gate;
    PutReads(db, c, d, events);
  }

  lemma PutRowsMatch(db: Db, c: CommandId, d: Dossier, events: seq<OutboxEvent>)
    requires Linked(db) && RowsMatch(db) && Linked(Put(db, c, d, events))
    requires Announces(|QueuedRows(db.outbox, c)|, c, d, events)
    ensures RowsMatch(Put(db, c, d, events))
  {
    var after := Put(db, c, d, events);
    forall x | x in after.commands
      ensures |QueuedRows(after.outbox, x)| == CountInto(after.log[x], Queued)
    {
      PutRows(db, c, d, events, x);
    }
  }

  lemma ContinuesItself(db: Db)
    requires Linked(db)
    ensures forall x :: x in db.commands ==> Continues(DossierOf(db, x), DossierOf(db, x))
  {
  }

  lemma PutExtends(db: Db, c: CommandId, d: Dossier, events: seq<OutboxEvent>)
    requires Linked(db) && d.cmd.device in db.devices
    requires c in db.commands ==> Continues(DossierOf(db, c), d)
    ensures Extends(db, Put(db, c, d, events))
  {
    PutReads(db, c, d, events);
    ContinuesItself(db);
    PutOutbox(db, c, d, events);
    hide Continues, OutboxExtends, Put;
  }

  lemma PutOutbox(db: Db, c: CommandId, d: Dossier, events: seq<OutboxEvent>)
    ensures var after := Put(db, c, d, events);
            && after.devices == db.devices && after.commands.Keys == db.commands.Keys + {c}
            && after.outbox == db.outbox + events && OutboxExtends(db.outbox, after.outbox)
  {
  }

  /** An operation that keeps its own command's invariant keeps the store's. */
  lemma PutKeeps(db: Db, c: CommandId, d: Dossier, events: seq<OutboxEvent>)
    requires Base(db) && c in db.commands
    requires DossierOk(d) && Continues(DossierOf(db, c), d)
    requires Announces(CountInto(db.log[c], Queued), c, d, events)
    requires d.cmd.state == Queued ==> db.commands[c].state == Queued || !CommandStopped(db, c)
    ensures Base(Put(db, c, d, events)) && Extends(db, Put(db, c, d, events))
    ensures Gate(d) && GatesOk(db) ==> GatesOk(Put(db, c, d, events))
  {
    hide DossierOk, Gate;
    assert d.cmd.device in db.devices;
    PutDossiers(db, c, d, events);
    PutRowsMatch(db, c, d, events);
    PutEvents(db, c, d, events);
    PutStops(db, c, d, events);
    PutExtends(db, c, d, events);
    PutKeys(db, c, d, events);
  }

  lemma PutKeys(db: Db, c: CommandId, d: Dossier, events: seq<OutboxEvent>)
    requires KeysUnique(db)
    requires forall x :: x in db.commands && x != c ==>
               db.commands[x].device != d.cmd.device || db.commands[x].key != d.cmd.key
    ensures KeysUnique(Put(db, c, d, events))
  {
  }

  /** Inserting a new command with a fresh id and an unused key. */
  lemma InsertKeeps(db: Db, c: CommandId, d: Dossier, events: seq<OutboxEvent>)
    requires Base(db) && c !in db.commands && d.cmd.device in db.devices
    requires DossierOk(d) && Announces(0, c, d, events)
    requires forall x :: x in db.commands ==> db.commands[x].device != d.cmd.device || db.commands[x].key != d.cmd.key
    requires d.cmd.state == Queued ==> !StopActive(db, db.devices[d.cmd.device].owner)
    ensures Base(Put(db, c, d, events)) && Extends(db, Put(db, c, d, events))
    ensures Gate(d) && GatesOk(db) ==> GatesOk(Put(db, c, d, events))
  {
    hide DossierOk, Gate;
    NoRowsYet(db, c);
    PutDossiers(db, c, d, events);
    PutRowsMatch(db, c, d, events);
    PutEvents(db, c, d, events);
    PutStops(db, c, d, events);
    PutExtends(db, c, d, events);
    PutKeys(db, c, d, events);
  }

  lemma NoRowsYet(db: Db, c: CommandId)
    requires EventsOk(db) && c !in db.commands
    ensures QueuedRows(db.outbox, c) == {}
  {
    forall i | 0 <= i < |db.outbox|
      ensures !AnnouncesCommand(db.outbox[i], c)
    {
      assert EventOk(db, db.outbox[i]);
    }
  }

  // ---- Changing a set of commands ----

  /** Apply the same operation to every command of a set. */
  function Bulk(db: Db, ids: set<CommandId>, f: Dossier -> Dossier): Db
    requires db.log.Keys == db.commands.Keys && db.tasks.Keys == db.commands.Keys
  {
    db.(commands := map c | c in db.commands :: if c in ids then f(DossierOf(db, c)).cmd else db.commands[c],
        log := map c | c in db.commands :: if c in ids then f(DossierOf(db, c)).log else db.log[c],
        tasks := map c | c in db.commands :: if c in ids then f(DossierOf(db, c)).task else db.tasks[c])
  }

  /** The operation leaves approvals alone and keeps every command it is applied to. */
  ghost predicate BulkOk(db: Db, ids: set<CommandId>, f: Dossier -> Dossier)
    requires Linked(db)
  {
    forall c :: c in ids && c in db.commands ==>
      f(DossierOf(db, c)).approval == DossierOf(db, c).approval && Keeps(DossierOf(db, c), f(DossierOf(db, c)))
  }

  lemma BulkReads(db: Db, ids: set<CommandId>, f: Dossier -> Dossier)
    requires Linked(db) && BulkOk(db, ids, f)
    ensures Linked(Bulk(db, ids, f))
    ensures forall c :: c in db.commands ==>
              DossierOf(Bulk(db, ids, f), c) == if c in ids then f(DossierOf(db, c)) else DossierOf(db, c)
  {
    var after := Bulk(db, ids, f);
    assert after.commands.Keys == db.commands.Keys;
    assert after.log.Keys == db.commands.Keys && after.tasks.Keys == db.commands.Keys;
    forall c | c in after.commands
      ensures after.commands[c].device in after.devices
    {
      if c in ids {
        assert Keeps(DossierOf(db, c), f(DossierOf(db, c)));
      }
    }
  }

  /** Each command comes out of a bulk operation as itself, kept. */
  lemma BulkEach(db: Db, ids: set<CommandId>, f: Dossier -> Dossier, c: CommandId)
    requires Base(db) && BulkOk(db, ids, f) && c in db.commands
    ensures var after := Bulk(db, ids, f);
            && Linked(after) && c in after.commands
            && DossierOk(DossierOf(after, c)) && Continues(DossierOf(db, c), DossierOf(after, c))
            && QueuesNothing(DossierOf(db, c), DossierOf(after, c))
            && (Gate(DossierOf(db, c)) ==> Gate(DossierOf(after, c)))
  {
    hide DossierOk, Gate, Continues, QueuesNothing;
    BulkReads(db, ids, f);
    if c in ids {
      assert Keeps(DossierOf(db, c), f(DossierOf(db, c)));
    } else {
      KeepsItself(DossierOf(db, c));
    }
  }

  lemma BulkKeeps(db: Db, ids: set<CommandId>, f: Dossier -> Dossier)
    requires Base(db) && BulkOk(db, ids, f)
    ensures Base(Bulk(db, ids, f)) && Extends(db, Bulk(db, ids, f))
    ensures GatesOk(db) ==> GatesOk(Bulk(db, ids, f))
  {
    hide DossierOk, Gate, Keeps, Continues, QueuesNothing;
    var after := Bulk(db, ids, f);
    BulkReads(db, ids, f);
    forall c | c in db.commands
      ensures DossierOk(DossierOf(after, c)) && Continues(DossierOf(db, c), DossierOf(after, c))
      ensures QueuesNothing(DossierOf(db, c), DossierOf(after, c))
      ensures Gate(DossierOf(db, c)) ==> Gate(DossierOf(after, c))
    {
      BulkEach(db, ids, f, c);
    }
    SameQueueKeeps(db, after);
  }

  /** Tables that changed only inside the dossiers, and queued nothing, keep the invariant. */
  lemma SameQueueKeeps(db: Db, after: Db)
    requires Base(db) && Linked(after)
    requires after.devices == db.devices && after.outbox == db.outbox && after.stops == db.stops
    requires after.commands.Keys == db.commands.Keys
    requires forall c :: c in db.commands ==>
               && DossierOk(DossierOf(after, c)) && Continues(DossierOf(db, c), DossierOf(after, c))
               && QueuesNothing(DossierOf(db, c), DossierOf(after, c))
    ensures Base(after) && Extends(db, after)
  {
    hide DossierOk, Continues, QueuesNothing, SameColumns, DossiersOk, RowsMatch, KeysUnique, EventsOk,
         StopsRespected, OutboxExtends;
    SameQueueTables(db, after);
    SameQueueEvents(db, after);
    SameQueueStops(db, after);
  }

  lemma SameQueueTables(db: Db, after: Db)
    requires Linked(db) && RowsMatch(db) && Linked(after)
    requires after.outbox == db.outbox && after.commands.Keys == db.commands.Keys
    requires forall c :: c in db.commands ==>
               && DossierOk(DossierOf(after, c)) && Continues(DossierOf(db, c), DossierOf(after, c))
               && QueuesNothing(DossierOf(db, c), DossierOf(after, c))
    ensures DossiersOk(after) && RowsMatch(after)
    ensures forall c :: c in db.commands ==>
              && SameColumns(db.commands[c], after.commands[c])
              && (after.commands[c].state == Queued ==> db.commands[c].state == Queued)
  {
    hide DossierOk, Continues, QueuesNothing, SameColumns, CountInto, QueuedRows;
    forall c | c in db.commands
      ensures SameColumns(db.commands[c], after.commands[c])
      ensures CountInto(after.log[c], Queued) == CountInto(db.log[c], Queued)
      ensures after.commands[c].state == Queued ==> db.commands[c].state == Queued
    {
      SameQueueEach(DossierOf(db, c), DossierOf(after, c));
    }
  }

  lemma SameQueueEach(a: Dossier, b: Dossier)
    requires Continues(a, b) && QueuesNothing(a, b)
    ensures SameColumns(a.cmd, b.cmd)
    ensures CountInto(b.log, Queued) == CountInto(a.log, Queued)
    ensures b.cmd.state == Queued ==> a.cmd.state == Queued
  {
  }

  lemma SameQueueEvents(db: Db, after: Db)
    requires EventsOk(db) && KeysUnique(db) && after.outbox == db.outbox && after.commands.Keys == db.commands.Keys
    requires forall c :: c in db.commands ==> SameColumns(db.commands[c], after.commands[c])
    ensures EventsOk(after) && KeysUnique(after)
    ensures OutboxExtends(db.outbox, after.outbox)
  {
    forall i | 0 <= i < |after.outbox|
      ensures EventOk(after, after.outbox[i])
    {
      assert EventOk(db, db.outbox[i]);
    }
  }

  lemma SameQueueStops(db: Db, after: Db)
    requires Linked(db) && Linked(after) && StopsRespected(db)
    requires after.devices == db.devices && after.stops == db.stops && after.commands.Keys == db.commands.Keys
    requires forall c :: c in db.commands ==>
               && SameColumns(db.commands[c], after.commands[c])
               && (after.commands[c].state == Queued ==> db.commands[c].state == Queued)
    ensures StopsRespected(after)
  {
    forall c | c in after.commands && after.commands[c].state == Queued
      ensures !CommandStopped(after, c)
    {
      assert !CommandStopped(db, c);
    }
  }

  function Members(ids: seq<CommandId>): set<CommandId> {
    set c | c in ids
  }

  predicate NoRepeats(ids: seq<CommandId>) {
    forall i, j :: 0 <= i < j < |ids| ==> ids[i] != ids[j]
  }

  lemma MembersStep(ids: seq<CommandId>, i: nat)
    requires i < |ids| && NoRepeats(ids)
    ensures ids[i] !in Members(ids[..i]) && Members(ids[..i + 1]) == Members(ids[..i]) + {ids[i]}
    ensures ids[i] in Members(ids)
  {
    assert ids[..i + 1] == ids[..i] + [ids[i]];
  }

  /** One more step of a loop over a set of commands. */
  lemma BulkStep(db: Db, ids: set<CommandId>, f: Dossier -> Dossier, c: CommandId)
    requires Linked(db) && BulkOk(db, ids + {c}, f) && c in db.commands && c !in ids
    ensures var before := Bulk(db, ids, f);
            && Linked(before) && c in before.commands && DossierOf(before, c) == DossierOf(db, c)
            && Bulk(db, ids + {c}, f) == Put(before, c, f(DossierOf(db, c)), [])
  {
    hide Keeps, Bulk, BulkOk;
    BulkOkEach(db, ids, f, c);
    BulkReads(db, ids, f);
    BulkKeys(db, ids, f);
    var before, after := Bulk(db, ids, f), Bulk(db, ids + {c}, f);
    var d := f(DossierOf(db, c));
    BulkMaps(db, ids, f, c);
    assert after.approvals == Put(before, c, d, []).approvals;
  }

  lemma BulkOkEach(db: Db, ids: set<CommandId>, f: Dossier -> Dossier, c: CommandId)
    requires Linked(db) && BulkOk(db, ids + {c}, f) && c in db.commands
    ensures BulkOk(db, ids, f) && f(DossierOf(db, c)).approval == DossierOf(db, c).approval
  {
    hide Keeps;
  }

  lemma BulkKeys(db: Db, ids: set<CommandId>, f: Dossier -> Dossier)
    requires Linked(db)
    ensures Bulk(db, ids, f).commands.Keys == db.commands.Keys
  {
  }

  lemma BulkMaps(db: Db, ids: set<CommandId>, f: Dossier -> Dossier, c: CommandId)
    requires db.log.Keys == db.commands.Keys && db.tasks.Keys == db.commands.Keys && c in db.commands
    ensures var before, after, d := Bulk(db, ids, f), Bulk(db, ids + {c}, f), f(DossierOf(db, c));
            && after.commands == before.commands[c := d.cmd]
            && after.log == before.log[c := d.log]
            && after.tasks == before.tasks[c := d.task]
            && after.devices == before.devices && after.stops == before.stops
            && after.approvals == before.approvals == db.approvals
            && after.outbox == before.outbox == before.outbox + []
  {
  }

  lemma BulkNone(db: Db, f: Dossier -> Dossier)
    requires Linked(db)
    ensures Bulk(db, {}, f) == db
  {
    assert Bulk(db, {}, f).commands == db.commands;
    assert Bulk(db, {}, f).log == db.log;
    assert Bulk(db, {}, f).tasks == db.tasks;
  }

  /** A bulk operation does not read the stop rows. */
  lemma StopRowBulk(db: Db, stops: map<OwnerId, Stop>, ids: set<CommandId>, f: Dossier -> Dossier)
    requires Linked(db)
    ensures var rows := db.(stops := stops);
            && Linked(rows) && Bulk(rows, ids, f) == Bulk(db, ids, f).(stops := stops)
            && Bulk(rows, ids, f).outbox == db.outbox
  {
    var rows := db.(stops := stops);
    assert Bulk(rows, ids, f).commands == Bulk(db, ids, f).commands;
    assert Bulk(rows, ids, f).log == Bulk(db, ids, f).log;
    assert Bulk(rows, ids, f).tasks == Bulk(db, ids, f).tasks;
  }
}
