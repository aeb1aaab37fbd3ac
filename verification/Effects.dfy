/** What each operation does, column by column: when it changes anything at all, and then exactly which
    columns get which values. The conditions are over the stored columns and the arguments alone. */
module Effects {
  import opened Options
  import opened CommandStates
  import opened Tables
  import opened Lifecycle
  import opened Store
  import opened Operations
  import opened Broker
  import opened Pipeline
  import Requests
  import Subjects

  // ---- Commands ----

  /** The device exists, belongs to the caller and is trusted; the service said "inactive"; no command of the
      device has the key; the type is known and the parameters fit its schema. */
  ghost predicate Acceptable(db: Db, r: Request, owner: OwnerId, seen: bool, definition: Option<Definition>,
                             schemaOk: bool) {
    && r.device in db.devices && db.devices[r.device].owner == owner && db.devices[r.device].trust == Trusted
    && !seen && definition.Some? && schemaOk
    && forall x :: x in db.commands ==> !(db.commands[x].device == r.device && db.commands[x].key == r.key)
  }

  /** A request is created exactly when it is acceptable. It then waits for approval, with a pending row for half
      an hour and no announcement, exactly when the type or the request asks for approval; otherwise it is
      queued and announced. */
  lemma CreateEffect(db: Db, c: CommandId, r: Request, owner: OwnerId, seen: bool, definition: Option<Definition>,
                     schemaOk: bool, nonceHash: string, now: int)
    ensures var after := Create(db, c, r, owner, seen, definition, schemaOk, nonceHash, now);
            if !Acceptable(db, r, owner, seen, definition, schemaOk) then after == db
            else
              var waits := definition.value.requiresApproval || r.requiresApproval;
              var state := if waits then AwaitingApproval else Queued;
              var risk := definition.value.risk;
              after == db.(
                commands := db.commands[c := Command(
                  r.device, r.commandType, r.parameters, risk, r.key, waits, r.expiresAt, state,
                  None, None, None, None, None, None, None, None)],
                tasks := db.tasks[c := Task(TaskPending, None, None, None)],
                log := db.log[c := [
                  LogEntry(None, Received, "api", None), LogEntry(Some(Received), Validated, "api", None),
                  LogEntry(Some(Validated), state, "api", None)]],
                approvals := if waits
                             then db.approvals[c := Approval(owner, PendingApproval, nonceHash, now + 1800, None, None)]
                             else db.approvals,
                outbox := if waits then db.outbox
                          else db.outbox + [OutboxEvent(
                                 CommandQueued, c, "veyaan.command.ready." + r.device,
                                 CommandPayload(c, r.device, r.commandType, r.parameters, r.expiresAt, risk),
                                 PendingEvent, 0)])
  {
    KeyTakenIff(db, r);
    hide KeyTaken;
    assert db.outbox + [] == db.outbox;
  }

  lemma KeyTakenIff(db: Db, r: Request)
    ensures KeyTaken(db, r.device, r.key) <==>
              !(forall x :: x in db.commands ==> !(db.commands[x].device == r.device && db.commands[x].key == r.key))
  {
  }

  /** The rows of one command that an operation on it may change. */
  lemma PutPlain(db: Db, c: CommandId, d: Dossier)
    requires Linked(db) && c in db.commands && d.approval == DossierOf(db, c).approval
    ensures Put(db, c, d, [])
            == db.(commands := db.commands[c := d.cmd], log := db.log[c := d.log], tasks := db.tasks[c := d.task])
  {
    assert db.outbox + [] == db.outbox;
    assert c in db.approvals ==> db.approvals[c := db.approvals[c]] == db.approvals;
  }

  /** The owner cancels a command that has not ended: its state, the time of its end and one log entry change,
      and its task does not. */
  lemma CancelEffect(db: Db, c: CommandId, owner: OwnerId, now: int)
    requires Linked(db)
    ensures Cancel(db, c, owner, now) ==
            if c in db.commands && db.devices[db.commands[c].device].owner == owner
               && db.commands[c].state
                  in {AwaitingApproval, Approved, Queued, Delivered, Acknowledged, Running, Cancelled}
            then db.(commands := db.commands[c := db.commands[c].(state := Cancelled, finishedAt := Some(now))],
                     log := db.log[c := db.log[c] + [LogEntry(Some(db.commands[c].state), Cancelled, "api", None)]])
            else db
  {
    hide Put, Accepts;
    if c in db.commands {
      var d := DossierOf(db, c);
      PutPlain(db, c, d);
      PutPlain(db, c, OnCancel(d, now));
      CancelAccepted(d.cmd.state);
      SameRows(db, c);
    }
  }

  lemma CancelAccepted(s: CommandState)
    ensures Accepts(s, Cancelled) <==>
              s in {AwaitingApproval, Approved, Queued, Delivered, Acknowledged, Running, Cancelled}
  {
  }

  lemma SameRows(db: Db, c: CommandId)
    requires Linked(db) && c in db.commands
    ensures db.commands[c := db.commands[c]] == db.commands && db.log[c := db.log[c]] == db.log
    ensures db.tasks[c := db.tasks[c]] == db.tasks
  {
  }

  // ---- Approvals ----

  /** A decision needs the owner, a pending row and the nonce that was handed out. After the expiry it only marks the
      row; before, it queues or rejects a waiting command with its row, its log and its announcement. */
  lemma DecideEffect(db: Db, c: CommandId, owner: OwnerId, approve: bool, nonceHash: string, note: Option<string>,
                     seen: bool, now: int)
    requires Linked(db)
    ensures var after := Decide(db, c, owner, approve, nonceHash, note, seen, now);
            if c !in db.approvals || db.approvals[c].owner != owner || db.approvals[c].status != PendingApproval
            then after == db
            else if db.approvals[c].expiresAt < now
            then after == db.(approvals := db.approvals[c := db.approvals[c].(status := ExpiredApproval)])
            else if db.approvals[c].nonceHash != nonceHash then after == db
            else if approve then ApproveEffect(db, after, c, note, seen, now)
            else RejectEffect(db, after, c, note, now)
  {
    hide Put, OnApprove, OnReject, OnApprovalExpiry, Accepts, QueuedEvent;
    if c in db.approvals {
      ExpiryRows(db, c);
      DecisionAccepted(db.commands[c].state);
      if db.commands[c].state in {AwaitingApproval, Approved} {
        ApproveRows(db, c, note, now);
      }
      if db.commands[c].state in {AwaitingApproval, Rejected} {
        RejectRows(db, c, note, now);
      }
    }
  }

  predicate ApproveEffect(db: Db, after: Db, c: CommandId, note: Option<string>, seen: bool, now: int)
    requires Linked(db) && c in db.approvals
  {
    var cmd := db.commands[c];
    if seen || cmd.state !in {AwaitingApproval, Approved} then after == db
    else
      after == db.(
        commands := db.commands[c := cmd.(state := Queued)],
        log := db.log[c := db.log[c] + [LogEntry(Some(cmd.state), Approved, "approval", None),
                                        LogEntry(Some(Approved), Queued, "approval", None)]],
        approvals := db.approvals[
          c := db.approvals[c].(status := ApprovedApproval, decidedAt := Some(now), note := note)],
        outbox := db.outbox + [OutboxEvent(
          CommandQueued, c, "veyaan.command.ready." + cmd.device,
          CommandPayload(c, cmd.device, cmd.commandType, cmd.parameters, cmd.expiresAt, cmd.risk), PendingEvent, 0)])
  }

  predicate RejectEffect(db: Db, after: Db, c: CommandId, note: Option<string>, now: int)
    requires Linked(db) && c in db.approvals
  {
    var cmd := db.commands[c];
    if cmd.state !in {AwaitingApproval, Rejected} then after == db
    else
      after == db.(
        commands := db.commands[c := cmd.(state := Rejected)],
        log := db.log[c := db.log[c] + [LogEntry(Some(cmd.state), Rejected, "approval", None)]],
        approvals := db.approvals[
          c := db.approvals[c].(status := RejectedApproval, decidedAt := Some(now), note := note)])
  }

  lemma DecisionAccepted(s: CommandState)
    ensures Accepts(s, Approved) <==> s in {AwaitingApproval, Approved}
    ensures Accepts(s, Rejected) <==> s in {AwaitingApproval, Rejected}
  {
  }

  lemma ExpiryRows(db: Db, c: CommandId)
    requires Linked(db) && c in db.approvals
    ensures Put(db, c, OnApprovalExpiry(DossierOf(db, c)), [])
            == db.(approvals := db.approvals[c := db.approvals[c].(status := ExpiredApproval)])
  {
    SameRows(db, c);
    assert db.outbox + [] == db.outbox;
  }

  lemma ApproveRows(db: Db, c: CommandId, note: Option<string>, now: int)
    requires Linked(db) && c in db.approvals && db.commands[c].state in {AwaitingApproval, Approved}
    ensures ApproveEffect(db, Put(db, c, OnApprove(DossierOf(db, c), note, now), [QueuedEvent(c, db.commands[c])]), c,
                          note, false, now)
  {
    var cmd := db.commands[c];
    var d := OnApprove(DossierOf(db, c), note, now);
    assert d.log == db.log[c] + [LogEntry(Some(cmd.state), Approved, "approval", None),
                                 LogEntry(Some(Approved), Queued, "approval", None)];
    SameRows(db, c);
  }

  lemma RejectRows(db: Db, c: CommandId, note: Option<string>, now: int)
    requires Linked(db) && c in db.approvals && db.commands[c].state in {AwaitingApproval, Rejected}
    ensures RejectEffect(db, Put(db, c, OnReject(DossierOf(db, c), note, now), []), c, note, now)
  {
    SameRows(db, c);
    assert db.outbox + [] == db.outbox;
  }

  /** Opening an approval by hand adds a pending row to an owned command that awaits approval and has none. */
  lemma OpenEffect(db: Db, c: CommandId, owner: OwnerId, nonceHash: string, expiresAt: int)
    ensures OpenApproval(db, c, owner, nonceHash, expiresAt) ==
            if c in db.commands && db.commands[c].device in db.devices
               && db.devices[db.commands[c].device].owner == owner
               && db.commands[c].state == AwaitingApproval && c !in db.approvals
            then db.(approvals := db.approvals[c := Approval(owner, PendingApproval, nonceHash, expiresAt, None, None)])
            else db
  {
  }

  /** The bulk update expires exactly the pending approvals past their expiry, and changes nothing else. */
  lemma ExpireApprovalsEffect(db: Db, now: int, c: CommandId)
    ensures var after := ExpireApprovals(db, now);
            && after == db.(approvals := after.approvals) && after.approvals.Keys == db.approvals.Keys
            && (c in db.approvals ==>
                  after.approvals[c] == if db.approvals[c].status == PendingApproval && db.approvals[c].expiresAt < now
                                        then db.approvals[c].(status := ExpiredApproval) else db.approvals[c])
  {
  }

  // ---- Scheduler ----

  /** A pass expires a selected command exactly when it is queued or awaits approval, with its task unless that
      has ended; whatever is not selected, or not in these states, stays as it is. */
  lemma ExpireEffect(db: Db, ids: set<CommandId>, now: int, c: CommandId)
    requires Linked(db) && c in db.commands
    ensures var after := ExpireCommands(db, ids, now);
            && c in after.commands && c in after.log && c in after.tasks
            && (if c in ids && db.commands[c].state in {Queued, AwaitingApproval, Expired}
                then && after.commands[c] == db.commands[c].(state := Expired, finishedAt := Some(now))
                     && after.log[c] == db.log[c] + [LogEntry(Some(db.commands[c].state), Expired, "scheduler", None)]
                     && after.tasks[c] ==
                        (if db.tasks[c].state in {TaskSucceeded, TaskFailed, TaskCancelled} then db.tasks[c]
                         else db.tasks[c].(state := TaskFailed, summary := Some("expired")))
                else && after.commands[c] == db.commands[c] && after.log[c] == db.log[c]
                     && after.tasks[c] == db.tasks[c])
  {
    hide Accepts;
    ExpiryAccepted(db.commands[c].state);
  }

  /** A whole pass does to each approval and each command what the two updates do. */
  lemma RunTasksEffect(db: Db, ids: set<CommandId>, now: int, c: CommandId)
    requires Linked(db)
    ensures var after := RunTasks(db, ids, now);
            var commands := ExpireCommands(db, ids, now);
            && after.approvals == ExpireApprovals(db, now).approvals && after.commands.Keys == db.commands.Keys
            && after.devices == db.devices && after.outbox == db.outbox && after.stops == db.stops
            && (c in db.commands ==>
                  && c in after.log && c in after.tasks
                  && c in commands.commands && c in commands.log && c in commands.tasks
                  && after.commands[c] == commands.commands[c] && after.log[c] == commands.log[c]
                  && after.tasks[c] == commands.tasks[c])
  {
    hide OnExpire;
    var mid := ExpireApprovals(db, now);
    if c in db.commands {
      BulkRow(db, ids, d => OnExpire(d, now), c);
      BulkRow(mid, ids, d => OnExpire(d, now), c);
      ExpiryIgnoresApproval(DossierOf(db, c), DossierOf(mid, c).approval, now);
    }
  }

  lemma BulkRow(db: Db, ids: set<CommandId>, f: Dossier -> Dossier, c: CommandId)
    requires Linked(db) && c in db.commands
    ensures var a := Bulk(db, ids, f);
            && c in a.commands && c in a.log && c in a.tasks
            && var d := if c in ids then f(DossierOf(db, c)) else DossierOf(db, c);
               a.commands[c] == d.cmd && a.log[c] == d.log && a.tasks[c] == d.task
  {
  }

  lemma ExpiryIgnoresApproval(d: Dossier, a: Option<Approval>, now: int)
    ensures OnExpire(d.(approval := a), now) == OnExpire(d, now).(approval := a)
  {
  }

  lemma ExpiryAccepted(s: CommandState)
    ensures Accepts(s, Expired) <==> s in {Queued, AwaitingApproval, Expired}
  {
  }

  // ---- Emergency stop ----

  /** What the gateway makes of an outbox row about a stop: whose, whether it is active, and why. */
  predicate ReadsAs(e: OutboxEvent, owner: OwnerId, active: bool, reason: string) {
    && Subjects.ReadSecuritySubject(e.subject) == Subjects.SecurityEvent(owner, active)
    && e.payload == StopPayload(owner, active, reason) && e.aggregateId == owner
    && e.kind == (if active then StopActivated else StopReleased) && e.status == PendingEvent && e.attempts == 0
  }

  /** An activation announces a stop once. The first one also writes the row and blocks the owner's queued and
      approved commands that the guards let go; a repeated one repeats the stored reason. */
  lemma ActivateEffect(db: Db, owner: OwnerId, reason: string, now: int, c: CommandId)
    requires Linked(db) && Subjects.IdText(owner)
    ensures var after := Activate(db, owner, reason, now);
            var repeated := owner in db.stops && db.stops[owner].active;
            && |after.outbox| == |db.outbox| + 1 && db.outbox <= after.outbox
            && ReadsAs(after.outbox[|db.outbox|], owner, true, if repeated then db.stops[owner].reason else reason)
            && after.devices == db.devices && after.approvals == db.approvals
            && after.stops == (if repeated then db.stops else db.stops[owner := Stop(true, reason)])
            && (repeated ==> after.commands == db.commands && after.log == db.log && after.tasks == db.tasks)
            && (c in db.commands ==>
                  && c in after.commands && c in after.log && c in after.tasks && after.tasks[c] == db.tasks[c]
                  && (if !repeated && db.devices[db.commands[c].device].owner == owner && db.commands[c].state == Queued
                      then && after.commands[c] == db.commands[c].(state := Blocked)
                           && after.log[c] ==
                              db.log[c] + [LogEntry(Some(Queued), Blocked, "emergency_stop_activation", None)]
                      else after.commands[c] == db.commands[c] && after.log[c] == db.log[c]))
  {
    hide Accepts, Subjects.ReadSecuritySubject, Subjects.IdText, Subjects.EmergencyStop, Subjects.EmergencyResume;
    Subjects.SecurityRoundTrip(owner);
    if c in db.commands {
      BlockAccepted(db.commands[c].state);
    }
  }

  lemma BlockAccepted(s: CommandState)
    ensures Accepts(s, Blocked) <==> s in {Queued, Blocked}
  {
  }

  /** A release announces the end of an active stop and touches nothing else but the stop row's flag. */
  lemma ReleaseEffect(db: Db, owner: OwnerId)
    requires Subjects.IdText(owner)
    ensures var after := Release(db, owner);
            if owner !in db.stops || !db.stops[owner].active then after == db
            else
              && |after.outbox| == |db.outbox| + 1 && ReadsAs(after.outbox[|db.outbox|], owner, false, "")
              && after == db.(stops := db.stops[owner := Stop(false, db.stops[owner].reason)],
                              outbox := db.outbox + [after.outbox[|db.outbox|]])
  {
    hide Subjects.ReadSecuritySubject, Subjects.IdText, Subjects.EmergencyStop, Subjects.EmergencyResume;
    Subjects.SecurityRoundTrip(owner);
  }

  /** Published, the announcement reaches the broker as what it is. */
  lemma StopReachesBroker(db: Db, before: seq<OutboxEvent>, broker: seq<BrokerMessage>, owner: OwnerId, active: bool,
                          reason: string, at: int, now: int)
    requires Linked(db) && Copies(broker, before) && |db.outbox| == |before| + 1 && before <= db.outbox
    requires ReadsAs(db.outbox[|before|], owner, active, reason)
    ensures var hand := Hand(PublishItem(|before|, Some(false), Acked), at);
            var stored := HandOver(broker, db, hand);
            && |stored| == |broker| + 1 && broker <= stored
            && Subjects.ReadSecuritySubject(stored[|broker|].subject) == Subjects.SecurityEvent(owner, active)
            && stored[|broker|].payload == StopPayload(owner, active, reason)
  {
    hide Linked, Subjects.ReadSecuritySubject;
    assert db.outbox == before + [db.outbox[|before|]];
    var hand := Hand(PublishItem(|before|, Some(false), Acked), at);
    Requests.PublishGives(db, before, broker, db.outbox[|before|], hand, now);
  }

  // ---- Lifecycle messages ----

  /** The log shows that a message of the kind, with this spelling of the id, took effect. */
  ghost predicate Handled(log: seq<LogEntry>, kind: MessageKind, text: string) {
    exists i :: 0 <= i < |log| && log[i].metadata.Some?
                && log[i].metadata.value.dedup.kind == kind && log[i].metadata.value.dedup.idText == text
  }

  lemma HandledIff(log: seq<LogEntry>, kind: MessageKind, text: string)
    ensures Handled(log, kind, text) <==> Duplicate(log, DedupKey(kind, text))
  {
  }

  /** A message that names another device than the command's changes nothing; progress names none. */
  lemma OtherDeviceIsIgnored(db: Db, m: Message, now: int)
    requires Linked(db) && !m.ProgressMessage? && m.id.Some? && m.id.value in db.commands
    requires m.device.Some? && m.device.value != db.commands[m.id.value].device
    ensures Consume(db, m, now) == db
  {
    hide Put, Duplicate;
    var c := m.id.value;
    assert OnMessage(DossierOf(db, c), m, now) == DossierOf(db, c);
    PutPlain(db, c, DossierOf(db, c));
    SameRows(db, c);
  }

  /** A message for an unknown command, or whose id cannot be read, changes nothing. */
  lemma UnknownIsIgnored(db: Db, m: Message, now: int)
    requires Linked(db) && (m.id.None? || m.id.value !in db.commands)
    ensures Consume(db, m, now) == db
  {
  }

  /** The right device: none named, or the command's. */
  predicate FromOwnDevice(db: Db, c: CommandId, device: Option<DeviceId>)
    requires c in db.commands
  {
    device == None || device == Some(db.commands[c].device)
  }

  lemma OwnDeviceIff(db: Db, c: CommandId, device: Option<DeviceId>)
    requires c in db.commands
    ensures FromOwnDevice(db, c, device) <==> !WrongDevice(db.commands[c], device)
  {
  }

  /** The rows after a message took effect. */
  function Changed(db: Db, c: CommandId, cmd: Command, entry: LogEntry, task: Task): Db
    requires Linked(db) && c in db.commands
  {
    db.(commands := db.commands[c := cmd], log := db.log[c := db.log[c] + [entry]], tasks := db.tasks[c := task])
  }

  lemma DeliveredEffect(db: Db, m: Message, now: int)
    requires Linked(db) && m.DeliveredMessage? && m.id.Some? && m.id.value in db.commands
    ensures var c := m.id.value;
            var cmd := db.commands[c];
            var meta := Metadata(DedupKey(Delivery, m.idText), None, None, None, None);
            Consume(db, m, now) ==
            if FromOwnDevice(db, c, m.device) && !Handled(db.log[c], Delivery, m.idText)
               && cmd.state in {Queued, Delivered}
            then Changed(db, c, cmd.(state := Delivered, deliveredAt := Some(now)),
                         LogEntry(Some(cmd.state), Delivered, "gateway", Some(meta)),
                         db.tasks[c].(state := TaskRunning))
            else db
  {
    hide Put, Accepts, Duplicate, WrongDevice, Handled, FromOwnDevice;
    var c := m.id.value;
    HandledIff(db.log[c], Delivery, m.idText);
    OwnDeviceIff(db, c, m.device);
    MessageAccepted(db.commands[c].state);
    PutPlain(db, c, OnMessage(DossierOf(db, c), m, now));
    SameRows(db, c);
  }

  lemma MessageAccepted(s: CommandState)
    ensures Accepts(s, Delivered) <==> s in {Queued, Delivered}
    ensures Accepts(s, Acknowledged) <==> s in {Delivered, Acknowledged}
    ensures Accepts(s, Running) <==> s in {Acknowledged, Running}
    ensures Accepts(s, Succeeded) <==> s in {Running, Succeeded}
    ensures Accepts(s, Failed) <==> s in {Running, Failed}
  {
  }

  lemma AcknowledgedEffect(db: Db, m: Message, now: int)
    requires Linked(db) && m.AckMessage? && m.accepted && m.id.Some? && m.id.value in db.commands
    ensures var c := m.id.value;
            var cmd := db.commands[c];
            var meta := Metadata(DedupKey(Ack, m.idText), None, None, None, None);
            Consume(db, m, now) ==
            if FromOwnDevice(db, c, m.device) && !Handled(db.log[c], Ack, m.idText)
               && cmd.state in {Delivered, Acknowledged}
            then Changed(db, c, cmd.(state := Acknowledged, acknowledgedAt := Some(now)),
                         LogEntry(Some(cmd.state), Acknowledged, "device", Some(meta)), db.tasks[c])
            else db
  {
    hide Put, Accepts, Duplicate, WrongDevice, Handled, FromOwnDevice;
    var c := m.id.value;
    HandledIff(db.log[c], Ack, m.idText);
    OwnDeviceIff(db, c, m.device);
    MessageAccepted(db.commands[c].state);
    PutPlain(db, c, OnMessage(DossierOf(db, c), m, now));
    SameRows(db, c);
  }

  /** A refusal fails a command with the device's reason, where it takes effect at all. */
  lemma RefusedEffect(db: Db, m: Message, now: int)
    requires Linked(db) && m.AckMessage? && !m.accepted && m.id.Some? && m.id.value in db.commands
    ensures var c := m.id.value;
            var cmd, task := db.commands[c], db.tasks[c];
            var meta := Metadata(DedupKey(Ack, m.idText), None, None, None, m.reason);
            Consume(db, m, now) ==
            if FromOwnDevice(db, c, m.device) && !Handled(db.log[c], Ack, m.idText) && cmd.state in {Running, Failed}
            then Changed(db, c,
                         cmd.(state := Failed, finishedAt := Some(now), errorCode := None, errorMessage := m.reason),
                         LogEntry(Some(cmd.state), Failed, "device", Some(meta)),
                         task.(state := TaskFailed,
                               errorMessage := if m.reason.Some? then m.reason else task.errorMessage))
            else db
  {
    hide Put, Accepts, Duplicate, WrongDevice, Handled, FromOwnDevice;
    var c := m.id.value;
    HandledIff(db.log[c], Ack, m.idText);
    OwnDeviceIff(db, c, m.device);
    MessageAccepted(db.commands[c].state);
    PutPlain(db, c, OnMessage(DossierOf(db, c), m, now));
    SameRows(db, c);
  }

  lemma ProgressEffect(db: Db, m: Message, now: int)
    requires Linked(db) && m.ProgressMessage? && m.id.Some? && m.id.value in db.commands
    ensures var c := m.id.value;
            var cmd := db.commands[c];
            var meta := Metadata(DedupKey(Progress, m.idText), None, None, None, None);
            Consume(db, m, now) ==
            if cmd.state == Acknowledged
            then Changed(db, c, cmd.(state := Running, startedAt := Some(now)),
                         LogEntry(Some(Acknowledged), Running, "device", Some(meta)),
                         db.tasks[c].(state := TaskRunning))
            else db
  {
    hide Put;
    var c := m.id.value;
    PutPlain(db, c, OnMessage(DossierOf(db, c), m, now));
    SameRows(db, c);
  }

  /** A success stores the report's data, in the command and in its log. */
  lemma SucceededEffect(db: Db, m: Message, now: int)
    requires Linked(db) && m.ResultMessage? && m.success && m.id.Some? && m.id.value in db.commands
    ensures var c := m.id.value;
            var cmd := db.commands[c];
            var meta := Metadata(DedupKey(Result, m.idText), Some(m.data), Some("success"), None, None);
            Consume(db, m, now) ==
            if FromOwnDevice(db, c, m.device) && !Handled(db.log[c], Result, m.idText)
               && cmd.state in {Running, Succeeded}
            then Changed(db, c,
                         cmd.(state := Succeeded, finishedAt := Some(now), resultData := m.data,
                              resultSummary := Some("success")),
                         LogEntry(Some(cmd.state), Succeeded, "device", Some(meta)),
                         db.tasks[c].(state := TaskSucceeded, summary := Some("success")))
            else db
  {
    hide Put, Accepts, Duplicate, WrongDevice, Handled, FromOwnDevice;
    var c := m.id.value;
    HandledIff(db.log[c], Result, m.idText);
    OwnDeviceIff(db, c, m.device);
    MessageAccepted(db.commands[c].state);
    PutPlain(db, c, OnMessage(DossierOf(db, c), m, now));
    SameRows(db, c);
  }

  /** A failure report stores its code and message, in the command, its log and its task, unless the code is longer
      than 50 characters. */
  lemma FailedEffect(db: Db, m: Message, now: int)
    requires Linked(db) && m.ResultMessage? && !m.success && m.id.Some? && m.id.value in db.commands
    ensures var c := m.id.value;
            var cmd, task := db.commands[c], db.tasks[c];
            var meta := Metadata(DedupKey(Result, m.idText), None, None, m.code, m.text);
            Consume(db, m, now) ==
            if FromOwnDevice(db, c, m.device) && !Handled(db.log[c], Result, m.idText) && cmd.state in {Running, Failed}
               && (m.code.Some? ==> |m.code.value| <= 50)
            then Changed(db, c,
                         cmd.(state := Failed, finishedAt := Some(now), errorCode := m.code, errorMessage := m.text),
                         LogEntry(Some(cmd.state), Failed, "device", Some(meta)),
                         task.(state := TaskFailed, errorCode := if m.code.Some? then m.code else task.errorCode,
                               errorMessage := if m.text.Some? then m.text else task.errorMessage))
            else db
  {
    hide Put, Accepts, Duplicate, WrongDevice, Handled, FromOwnDevice;
    var c := m.id.value;
    HandledIff(db.log[c], Result, m.idText);
    OwnDeviceIff(db, c, m.device);
    MessageAccepted(db.commands[c].state);
    PutPlain(db, c, OnMessage(DossierOf(db, c), m, now));
    SameRows(db, c);
  }

  // ---- Outbox ----

  /** One turn of the publisher on a pending row. With a stop active, the announcement of a stored command is given up
      and the command blocked if it is queued; otherwise the row is published, or its attempts go up to three and it
      is then given up. A question about the stop that raises counts as an attempt. */
  lemma PublishEffect(db: Db, item: PublishItem, now: int)
    requires Linked(db) && item.index < |db.outbox| && db.outbox[item.index].status == PendingEvent
    ensures var e := db.outbox[item.index];
            var about := e.kind == CommandQueued && e.aggregateId in db.commands;
            var failed := if e.attempts >= 3 then e.(status := FailedEvent) else e.(attempts := e.attempts + 1);
            PublishOne(db, item, now) ==
            if about && item.seen == Some(true) then
              var c := e.aggregateId;
              var rows := db.(outbox := db.outbox[item.index := e.(status := FailedEvent)]);
              if db.commands[c].state in {Queued, Blocked}
              then rows.(commands := db.commands[c := db.commands[c].(state := Blocked)],
                         log := db.log[c := db.log[c] + [
                           LogEntry(Some(db.commands[c].state), Blocked, "outbox_enforcement", None)]])
              else rows
            else if about && item.seen.None? then db.(outbox := db.outbox[item.index := failed])
            else if item.result.Acked? then db.(outbox := db.outbox[item.index := e.(status := PublishedEvent)])
            else db.(outbox := db.outbox[item.index := failed])
  {
    hide Put, Accepts;
    var e := db.outbox[item.index];
    if e.kind == CommandQueued && e.aggregateId in db.commands {
      var c := e.aggregateId;
      BlockAccepted(db.commands[c].state);
      PutPlain(db, c, OnBlock(DossierOf(db, c), "outbox_enforcement", now));
      SameRows(db, c);
    }
  }

  /** The broker stores a hand-over of a pending row exactly when the publisher makes it, the broker takes it, and no
      copy of the row is younger than two minutes. */
  lemma HandOverEffect(broker: seq<BrokerMessage>, db: Db, h: Hand)
    requires h.item.index < |db.outbox|
    ensures var e := db.outbox[h.item.index];
            var about := e.kind == CommandQueued && e.aggregateId in db.commands
                         && db.commands[e.aggregateId].device in db.devices;
            HandOver(broker, db, h) ==
            if e.status == PendingEvent && (about ==> h.item.seen == Some(false)) && !h.item.result.NotStored?
               && (forall k :: 0 <= k < |broker| && broker[k].eventId == h.item.index ==>
                     h.at >= broker[k].storedAt + 120)
            then broker + [BrokerMessage(h.item.index, e.subject, e.payload, h.at)]
            else broker
  {
    var e := db.outbox[h.item.index];
    RecentIff(broker, h.item.index, h.at);
    if h.item.seen.Some? {
      var b := h.item.seen.value;
      assert h.item.seen == Some(b);
      if b {
        assert h.item.seen == Some(true);
      } else {
        assert h.item.seen == Some(false);
      }
    }
  }

  lemma RecentIff(broker: seq<BrokerMessage>, id: nat, t: int)
    ensures Recent(broker, id, t) <==>
              !(forall k :: 0 <= k < |broker| && broker[k].eventId == id ==> t >= broker[k].storedAt + 120)
  {
  }

  /** A row that is not pending is left alone. */
  lemma PublishIdle(db: Db, item: PublishItem, now: int)
    requires Linked(db) && (item.index >= |db.outbox| || db.outbox[item.index].status != PendingEvent)
    ensures PublishOne(db, item, now) == db
  {
  }

  // ---- Delivery ----

  /** A message on a device's own subject that is not settled is sent, with its own fields, exactly when no stop was
      seen, the read worked, the stored command is this device's, queued and unexpired, an expiry is given and the
      connection took it. It is settled exactly when it was sent and reported, or when the check did not pass. */
  lemma DeliverEffect(w: World, k: nat, device: DeviceId, seen: bool, on: Conditions, now: int)
    requires k < |w.broker| && k !in w.settled && w.broker[k].subject == "veyaan.command.ready." + device
    ensures var p := w.broker[k].payload;
            var after := Deliver(w, k, device, seen, on, now);
            var offered := p.CommandPayload? && !seen;
            var passes := offered && on.readable && p.commandId in w.db.commands
                          && w.db.commands[p.commandId].device == device && w.db.commands[p.commandId].state == Queued
                          && (w.db.commands[p.commandId].expiresAt.Some? ==>
                                now <= w.db.commands[p.commandId].expiresAt.value);
            var sends := passes && p.expiresAt.Some? && on.alive;
            && after.db == w.db && after.broker == w.broker && after.shelves == w.shelves
            && after.sent == (if !sends then w.sent
                              else w.sent + [SentMessage(
                                     device, p.commandId, p.commandType, p.parameters, p.expiresAt.value, p.risk)])
            && after.settled == (if (sends && on.published) || (offered && !passes) then w.settled + {k} else w.settled)
  {
  }

  // ---- Devices ----

  lemma DeviceEffects(db: Db, device: DeviceId, owner: OwnerId)
    ensures Revoke(db, device, owner) ==
            if device in db.devices && db.devices[device].owner == owner
            then db.(devices := db.devices[device := Device(owner, Revoked)],
                     outbox := db.outbox + [OutboxEvent(DeviceRevoked, device, "veyaan.device.lifecycle." + device,
                                                        RevokedPayload(device, owner), PendingEvent, 0)])
            else db
    ensures AddDevice(db, device, owner) ==
            if device in db.devices then db else db.(devices := db.devices[device := Device(owner, Trusted)])
  {
  }
}
