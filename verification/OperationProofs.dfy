/** Every service call keeps the store's invariant and undoes nothing. */
module OperationProofs {
  import opened Options
  import opened CommandStates
  import opened Tables
  import opened Lifecycle
  import opened LifecycleProofs
  import opened Store
  import opened Operations

  ghost predicate StepOk(a: Db, b: Db) {
    Base(b) && Extends(a, b) && (GatesOk(a) ==> GatesOk(b))
  }

  lemma UnchangedOk(db: Db)
    requires Base(db)
    ensures StepOk(db, db)
  {
    hide DossierOk, Gate;
  }

  /** An operation on one command that queues nothing. */
  lemma OneCommandOk(db: Db, c: CommandId, d: Dossier)
    requires Base(db) && c in db.commands && Keeps(DossierOf(db, c), d)
    ensures StepOk(db, Put(db, c, d, []))
  {
    hide DossierOk, Gate, Continues;
    PutKeeps(db, c, d, []);
  }

  /** The answer of the emergency-stop service may be a stale "active", never a stale "inactive". */
  predicate SeenOk(db: Db, owner: OwnerId, seen: bool) {
    StopActive(db, owner) ==> seen
  }

  lemma CreateOk(db: Db, c: CommandId, r: Request, owner: OwnerId, seen: bool,
                 definition: Option<Definition>, schemaOk: bool, nonceHash: string, now: int)
    requires Base(db) && c !in db.commands && SeenOk(db, owner, seen)
    ensures StepOk(db, Create(db, c, r, owner, seen, definition, schemaOk, nonceHash, now))
  {
    hide Base, StepOk, Insert;
    if !Creatable(db, r, owner, seen, definition, schemaOk) {
      UnchangedOk(db);
    } else {
      InsertOk(db, c, r, owner, definition.value, nonceHash, now);
    }
  }

  lemma InsertOk(db: Db, c: CommandId, r: Request, owner: OwnerId, definition: Definition, nonceHash: string, now: int)
    requires Base(db) && c !in db.commands && OwnsDevice(db, owner, r.device) && !KeyTaken(db, r.device, r.key)
    requires NeedsApproval(r, definition) || !StopActive(db, owner)
    ensures StepOk(db, Insert(db, c, r, owner, definition, nonceHash, now))
  {
    hide DossierOk, Gate;
    var cmd := RequestedCommand(r, definition);
    var approval := if cmd.requiresApproval then Some(PendingFor(owner, nonceHash, now)) else None;
    var d := NewDossier(cmd, approval);
    NewDossierOk(cmd, approval);
    InsertKeeps(db, c, d, if cmd.requiresApproval then [] else [QueuedEvent(c, d.cmd)]);
  }

  lemma CancelOk(db: Db, c: CommandId, owner: OwnerId, now: int)
    requires Base(db)
    ensures StepOk(db, Cancel(db, c, owner, now))
  {
    hide DossierOk, Gate, Keeps;
    if !OwnsCommand(db, owner, c) {
      UnchangedOk(db);
    } else {
      OnCancelKeeps(DossierOf(db, c), now);
      OneCommandOk(db, c, OnCancel(DossierOf(db, c), now));
    }
  }

  lemma FinishDecisionOk(db: Db, c: CommandId, approve: bool, note: Option<string>, seen: bool, now: int)
    requires Base(db) && c in db.approvals
    requires SeenOk(db, db.devices[db.commands[c].device].owner, seen)
    ensures StepOk(db, FinishDecision(db, c, approve, note, seen, now))
  {
    hide DossierOk, Gate, Continues;
    var d := DossierOf(db, c);
    if FinishDecision(db, c, approve, note, seen, now) == db {
      UnchangedOk(db);
    } else if approve {
      OnApproveKeeps(d, note, now);
      ApprovedColumns(d, note, now, c);
      PutKeeps(db, c, OnApprove(d, note, now), [QueuedEvent(c, d.cmd)]);
    } else {
      OnRejectKeeps(d, note, now);
      PutKeeps(db, c, OnReject(d, note, now), []);
    }
  }

  lemma ApprovedColumns(d: Dossier, note: Option<string>, now: int, c: CommandId)
    requires d.approval.Some?
    ensures QueuedEvent(c, OnApprove(d, note, now).cmd) == QueuedEvent(c, d.cmd)
  {
  }

  lemma ApprovalExpiryOk(db: Db, c: CommandId)
    requires Base(db) && c in db.approvals
    ensures var after := Put(db, c, OnApprovalExpiry(DossierOf(db, c)), []);
            && Base(after) && Extends(db, after)
            && (GatesOk(db) && db.approvals[c].status == PendingApproval ==> GatesOk(after))
  {
    hide DossierOk, Gate, Continues;
    OnApprovalExpiryKeeps(DossierOf(db, c));
    PutKeeps(db, c, OnApprovalExpiry(DossierOf(db, c)), []);
  }

  lemma DecideOk(db: Db, c: CommandId, owner: OwnerId, approve: bool, nonceHash: string,
                 note: Option<string>, seen: bool, now: int)
    requires Base(db)
    requires Undecided(db, c, owner) ==> SeenOk(db, db.devices[db.commands[c].device].owner, seen)
    ensures StepOk(db, Decide(db, c, owner, approve, nonceHash, note, seen, now))
  {
    hide DossierOk, Gate, Continues;
    if !Undecided(db, c, owner) {
      UnchangedOk(db);
    } else if db.approvals[c].expiresAt < now {
      ApprovalExpiryOk(db, c);
    } else if nonceHash != db.approvals[c].nonceHash {
      UnchangedOk(db);
    } else {
      FinishDecisionOk(db, c, approve, note, seen, now);
    }
  }

  /** In a valid store every command that awaits approval already has its approval row, so
      opening one by hand never succeeds. */
  lemma OpenApprovalNeverSucceeds(db: Db, c: CommandId, owner: OwnerId, nonceHash: string, expiresAt: int)
    requires Base(db)
    ensures OpenApproval(db, c, owner, nonceHash, expiresAt) == db
  {
    if c in db.commands {
      assert DossierOk(DossierOf(db, c));
    }
  }

  lemma ExpireApprovalsEach(db: Db, now: int, c: CommandId)
    requires Base(db) && c in db.commands
    ensures var after := ExpireApprovals(db, now);
            && Linked(after) && DossierOk(DossierOf(after, c))
            && Continues(DossierOf(db, c), DossierOf(after, c)) && QueuesNothing(DossierOf(db, c), DossierOf(after, c))
            && (Gate(DossierOf(db, c)) ==> Gate(DossierOf(after, c)))
  {
    hide DossierOk, Gate;
    var d := DossierOf(db, c);
    KeepsItself(d);
    if c in db.approvals && ApprovalOverdue(db.approvals[c], now) {
      OnApprovalExpiryKeeps(d);
      assert DossierOf(ExpireApprovals(db, now), c) == OnApprovalExpiry(d);
    } else {
      assert DossierOf(ExpireApprovals(db, now), c) == d;
    }
  }

  lemma ExpireApprovalsOk(db: Db, now: int)
    requires Base(db)
    ensures StepOk(db, ExpireApprovals(db, now))
  {
    hide DossierOk, Gate, Continues, QueuesNothing;
    var after := ExpireApprovals(db, now);
    assert Linked(after);
    forall c | c in db.commands
      ensures DossierOk(DossierOf(after, c)) && Continues(DossierOf(db, c), DossierOf(after, c))
      ensures QueuesNothing(DossierOf(db, c), DossierOf(after, c))
      ensures Gate(DossierOf(db, c)) ==> Gate(DossierOf(after, c))
    {
      ExpireApprovalsEach(db, now, c);
    }
    SameQueueKeeps(db, after);
  }

  lemma ExpireCommandsBulk(db: Db, ids: set<CommandId>, now: int)
    requires Base(db)
    ensures BulkOk(db, ids, d => OnExpire(d, now))
  {
    hide DossierOk, Keeps;
    forall c | c in ids && c in db.commands
      ensures Keeps(DossierOf(db, c), OnExpire(DossierOf(db, c), now))
    {
      OnExpireKeeps(DossierOf(db, c), now);
    }
  }

  lemma ExpireCommandsOk(db: Db, ids: set<CommandId>, now: int)
    requires Base(db)
    ensures StepOk(db, ExpireCommands(db, ids, now))
  {
    hide DossierOk, Gate, Keeps;
    ExpireCommandsBulk(db, ids, now);
    BulkKeeps(db, ids, d => OnExpire(d, now));
  }

  lemma StepOkTransitive(a: Db, b: Db, c: Db)
    requires StepOk(a, b) && StepOk(b, c)
    ensures StepOk(a, c)
  {
    hide Base, GatesOk;
    ExtendsTransitive(a, b, c);
  }

  lemma RunTasksOk(db: Db, ids: set<CommandId>, now: int)
    requires Base(db)
    ensures StepOk(db, RunTasks(db, ids, now))
  {
    ExpireApprovalsOk(db, now);
    ExpireCommandsOk(ExpireApprovals(db, now), ids, now);
    StepOkTransitive(db, ExpireApprovals(db, now), RunTasks(db, ids, now));
  }

  lemma ConsumeOk(db: Db, m: Message, now: int)
    requires Base(db)
    ensures StepOk(db, Consume(db, m, now))
  {
    hide DossierOk, Gate, Keeps;
    if m.id.None? || m.id.value !in db.commands {
      UnchangedOk(db);
    } else {
      var c := m.id.value;
      OnMessageKeeps(DossierOf(db, c), m, now);
      OneCommandOk(db, c, OnMessage(DossierOf(db, c), m, now));
    }
  }

  // ---- Operations on the outbox, the stops and the devices ----

  /** When the four command tables stay, what remains to show is about devices, stops and outbox. */
  lemma SameCommandTables(db: Db, after: Db)
    requires Base(db) && Linked(after)
    requires after.commands == db.commands && after.log == db.log
    requires after.tasks == db.tasks && after.approvals == db.approvals
    ensures DossiersOk(after) && KeysUnique(after) && (GatesOk(db) ==> GatesOk(after))
    ensures forall c :: c in db.commands ==> Continues(DossierOf(db, c), DossierOf(after, c))
  {
    hide DossierOk, Gate, Continues, EventsOk, StopsRespected, RowsMatch;
    forall c | c in db.commands
      ensures DossierOf(after, c) == DossierOf(db, c) && Continues(DossierOf(db, c), DossierOf(db, c))
    {
      KeepsItself(DossierOf(db, c));
    }
  }

  /** A row that announces no command. */
  predicate OtherKind(e: OutboxEvent) {
    e.kind != CommandQueued && !e.payload.CommandPayload?
  }

  lemma SameAnnouncements(old_: seq<OutboxEvent>, new_: seq<OutboxEvent>, c: CommandId)
    requires OutboxExtends(old_, new_)
    requires forall i :: |old_| <= i < |new_| ==> OtherKind(new_[i])
    ensures QueuedRows(new_, c) == QueuedRows(old_, c)
  {
    forall i | 0 <= i < |old_|
      ensures AnnouncesCommand(new_[i], c) == AnnouncesCommand(old_[i], c)
    {
      assert EventContinues(old_[i], new_[i]);
    }
  }

  lemma SameRows(db: Db, outbox: seq<OutboxEvent>)
    requires Linked(db) && RowsMatch(db) && OutboxExtends(db.outbox, outbox)
    requires forall i :: |db.outbox| <= i < |outbox| ==> OtherKind(outbox[i])
    ensures Linked(db.(outbox := outbox)) && RowsMatch(db.(outbox := outbox))
  {
    hide OutboxExtends;
    forall c | c in db.commands
      ensures QueuedRows(outbox, c) == QueuedRows(db.outbox, c)
    {
      SameAnnouncements(db.outbox, outbox, c);
    }
  }

  /** Rewriting outbox rows in place, and appending rows that announce no command. */
  lemma OutboxOk(db: Db, outbox: seq<OutboxEvent>)
    requires Base(db) && OutboxExtends(db.outbox, outbox)
    requires forall i :: 0 <= i < |outbox| && outbox[i].status == PendingEvent ==> outbox[i].attempts <= 3
    requires forall i :: |db.outbox| <= i < |outbox| ==> OtherKind(outbox[i])
    ensures StepOk(db, db.(outbox := outbox))
  {
    hide DossiersOk, RowsMatch, KeysUnique, EventsOk, GatesOk, OutboxExtends, Continues;
    var after := db.(outbox := outbox);
    SameRows(db, outbox);
    SameCommandTables(db, after);
    OutboxEventsOk(db, outbox);
  }

  lemma OutboxEventsOk(db: Db, outbox: seq<OutboxEvent>)
    requires EventsOk(db) && OutboxExtends(db.outbox, outbox)
    requires forall i :: 0 <= i < |outbox| && outbox[i].status == PendingEvent ==> outbox[i].attempts <= 3
    requires forall i :: |db.outbox| <= i < |outbox| ==> OtherKind(outbox[i])
    ensures EventsOk(db.(outbox := outbox))
  {
    var after := db.(outbox := outbox);
    forall i | 0 <= i < |outbox|
      ensures EventOk(after, outbox[i])
    {
      if i < |db.outbox| {
        assert EventContinues(db.outbox[i], outbox[i]) && EventOk(db, db.outbox[i]);
      }
    }
  }

  lemma AppendOk(db: Db, e: OutboxEvent)
    requires Base(db) && OtherKind(e) && e.attempts == 0
    ensures StepOk(db, db.(outbox := db.outbox + [e]))
  {
    hide DossierOk, DossiersOk, RowsMatch, KeysUnique, StopsRespected;
    var outbox := db.outbox + [e];
    forall i | 0 <= i < |outbox|
      ensures outbox[i].status == PendingEvent ==> outbox[i].attempts <= 3
    {
      if i < |db.outbox| {
        assert EventOk(db, db.outbox[i]);
      }
    }
    OutboxOk(db, outbox);
  }

  /** Releasing a stop, or activating one when none of the owner's commands is queued. */
  lemma StopsOk(db: Db, stops: map<OwnerId, Stop>)
    requires Base(db)
    requires forall c :: c in db.commands && db.commands[c].state == Queued ==>
               !StopActive(db.(stops := stops), db.devices[db.commands[c].device].owner)
    ensures StepOk(db, db.(stops := stops))
  {
    hide DossiersOk, RowsMatch, KeysUnique, GatesOk, OutboxExtends, Continues;
    var after := db.(stops := stops);
    SameCommandTables(db, after);
    SameOutbox(db, after);
  }

  lemma ReleaseOk(db: Db, owner: OwnerId)
    requires Base(db)
    ensures StepOk(db, Release(db, owner))
  {
    hide DossiersOk, RowsMatch, KeysUnique, EventsOk;
    if !StopActive(db, owner) {
      UnchangedOk(db);
    } else {
      var stops := db.stops[owner := db.stops[owner].(active := false)];
      forall c | c in db.commands && db.commands[c].state == Queued
        ensures !StopActive(db.(stops := stops), db.devices[db.commands[c].device].owner)
      {
        assert !CommandStopped(db, c);
      }
      StopsOk(db, stops);
      AppendOk(db.(stops := stops), StopEvent(owner, false, ""));
      StepOkTransitive(db, db.(stops := stops), Release(db, owner));
    }
  }

  lemma BlockBulk(db: Db, ids: set<CommandId>, now: int)
    requires Linked(db) && DossiersOk(db)
    ensures BulkOk(db, ids, d => OnBlock(d, "emergency_stop_activation", now))
  {
    hide DossierOk, Keeps;
    forall c | c in ids && c in db.commands
      ensures Keeps(DossierOf(db, c), OnBlock(DossierOf(db, c), "emergency_stop_activation", now))
    {
      OnBlockKeeps(DossierOf(db, c), "emergency_stop_activation", now);
    }
  }

  /** After blocking, no command of the owner is queued. */
  lemma BlockLeavesNoneQueued(db: Db, owner: OwnerId, now: int)
    requires Base(db)
    ensures var after := Bulk(db, ToBlock(db, owner), d => OnBlock(d, "emergency_stop_activation", now));
            && StepOk(db, after)
            && after.devices == db.devices && after.stops == db.stops && after.outbox == db.outbox
            && forall c :: c in after.commands && after.commands[c].state == Queued ==> !OwnsCommand(after, owner, c)
  {
    hide DossierOk, Gate, Keeps;
    var ids := ToBlock(db, owner);
    var f := d => OnBlock(d, "emergency_stop_activation", now);
    BlockBulk(db, ids, now);
    BulkKeeps(db, ids, f);
    BulkReads(db, ids, f);
    var after := Bulk(db, ids, f);
    forall c | c in after.commands && after.commands[c].state == Queued
      ensures !OwnsCommand(after, owner, c)
    {
      assert Continues(DossierOf(db, c), DossierOf(after, c));
      if c in ids {
        OnBlockKeeps(DossierOf(db, c), "emergency_stop_activation", now);
      }
    }
  }

  lemma ActivateOk(db: Db, owner: OwnerId, reason: string, now: int)
    requires Base(db)
    ensures StepOk(db, Activate(db, owner, reason, now))
  {
    hide DossiersOk, RowsMatch, KeysUnique, EventsOk, Extends;
    if StopActive(db, owner) {
      AppendOk(db, StopEvent(owner, true, db.stops[owner].reason));
    } else {
      BlockLeavesNoneQueued(db, owner, now);
      var blocked := Bulk(db, ToBlock(db, owner), d => OnBlock(d, "emergency_stop_activation", now));
      var stops := db.stops[owner := Stop(true, reason)];
      forall c | c in blocked.commands && blocked.commands[c].state == Queued
        ensures !StopActive(blocked.(stops := stops), blocked.devices[blocked.commands[c].device].owner)
      {
        assert !CommandStopped(blocked, c) && !OwnsCommand(blocked, owner, c);
      }
      StopsOk(blocked, stops);
      AppendOk(blocked.(stops := stops), StopEvent(owner, true, reason));
      StepOkTransitive(db, blocked, blocked.(stops := stops));
      StepOkTransitive(db, blocked.(stops := stops), Activate(db, owner, reason, now));
    }
  }

  lemma SetRowOk(db: Db, i: nat, e: OutboxEvent)
    requires Base(db) && i < |db.outbox| && EventContinues(db.outbox[i], e)
    requires e.status == PendingEvent ==> e.attempts <= 3
    ensures StepOk(db, db.(outbox := db.outbox[i := e]))
  {
    hide DossierOk, DossiersOk, RowsMatch, KeysUnique, StopsRespected;
    var outbox := db.outbox[i := e];
    forall j | 0 <= j < |outbox|
      ensures outbox[j].status == PendingEvent ==> outbox[j].attempts <= 3
    {
      if j != i {
        assert EventOk(db, db.outbox[j]);
      }
    }
    OutboxOk(db, outbox);
  }

  lemma PublishOneOk(db: Db, item: PublishItem, now: int)
    requires Base(db)
    ensures StepOk(db, PublishOne(db, item, now))
  {
    hide DossierOk, DossiersOk, RowsMatch, KeysUnique, StopsRespected, Extends, Keeps;
    if !Publishable(db, item) {
      UnchangedOk(db);
    } else {
      var e := db.outbox[item.index];
      assert EventOk(db, e);
      if HeldBack(db, item) {
        var c := e.aggregateId;
        var d := OnBlock(DossierOf(db, c), "outbox_enforcement", now);
        BlockedOk(db, c, now);
        var blocked := Put(db, c, d, []);
        assert blocked.outbox == db.outbox;
        SetRowOk(blocked, item.index, e.(status := FailedEvent));
        StepOkTransitive(db, blocked, PublishOne(db, item, now));
      } else {
        SetRowOk(db, item.index, AfterPublish(e, ResultOf(db, item)));
      }
    }
  }

  lemma BlockedOk(db: Db, c: CommandId, now: int)
    requires Base(db) && c in db.commands
    ensures StepOk(db, Put(db, c, OnBlock(DossierOf(db, c), "outbox_enforcement", now), []))
  {
    hide DossierOk, Keeps;
    OnBlockKeeps(DossierOf(db, c), "outbox_enforcement", now);
    OneCommandOk(db, c, OnBlock(DossierOf(db, c), "outbox_enforcement", now));
  }

  /** Adding devices, and changing the trust of known ones. */
  lemma DevicesOk(db: Db, devices: map<DeviceId, Device>)
    requires Base(db)
    requires forall v :: v in db.devices ==> v in devices && devices[v].owner == db.devices[v].owner
    ensures StepOk(db, db.(devices := devices))
  {
    hide DossiersOk, RowsMatch, KeysUnique, GatesOk, OutboxExtends, Continues;
    var after := db.(devices := devices);
    SameCommandTables(db, after);
    SameOutbox(db, after);
    forall c | c in db.commands && db.commands[c].state == Queued
      ensures !CommandStopped(after, c)
    {
      assert !CommandStopped(db, c);
    }
  }

  lemma SameOutbox(db: Db, after: Db)
    requires Linked(db) && Linked(after) && EventsOk(db) && RowsMatch(db)
    requires after.commands == db.commands && after.log == db.log && after.outbox == db.outbox
    ensures EventsOk(after) && RowsMatch(after) && OutboxExtends(db.outbox, after.outbox)
  {
    forall i | 0 <= i < |after.outbox|
      ensures EventOk(after, after.outbox[i])
    {
      assert EventOk(db, db.outbox[i]);
    }
  }

  lemma RevokeOk(db: Db, device: DeviceId, owner: OwnerId)
    requires Base(db)
    ensures StepOk(db, Revoke(db, device, owner))
  {
    hide DossiersOk, RowsMatch, KeysUnique, EventsOk, StopsRespected, Extends;
    if !OwnsDevice(db, owner, device) {
      UnchangedOk(db);
    } else {
      var devices := db.devices[device := db.devices[device].(trust := Revoked)];
      DevicesOk(db, devices);
      AppendOk(db.(devices := devices), RevokedEvent(device, owner));
      StepOkTransitive(db, db.(devices := devices), Revoke(db, device, owner));
    }
  }

  lemma AddDeviceOk(db: Db, device: DeviceId, owner: OwnerId)
    requires Base(db)
    ensures StepOk(db, AddDevice(db, device, owner))
  {
    hide DossiersOk, RowsMatch, KeysUnique, EventsOk, StopsRespected, Extends;
    if device in db.devices {
      UnchangedOk(db);
    } else {
      DevicesOk(db, db.devices[device := Device(owner, Trusted)]);
    }
  }
}
