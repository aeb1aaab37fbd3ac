/** What the pipeline promises, as statements about every state of every run. */
module Guarantees {
  import opened Options
  import opened CommandStates
  import opened Tables
  import opened Lifecycle
  import opened LifecycleProofs
  import opened Store
  import opened Operations
  import opened Broker
  import opened Pipeline
  import opened PipelineProofs

  lemma RunDossier(worlds: seq<World>, actions: seq<Action>, i: nat, c: CommandId)
    requires Run(worlds, actions) && i < |worlds| && c in worlds[i].db.commands
    ensures Linked(worlds[i].db)
    ensures DossierOk(DossierOf(worlds[i].db, c)) && Gate(DossierOf(worlds[i].db, c))
  {
    hide DossierOk, Gate, Run, BrokerOk, AllSentOk, RowsMatch, KeysUnique, EventsOk, StopsRespected, ApprovalsOwned;
    RunKeepsInvariant(worlds, actions, i);
  }

  lemma RunContinues(worlds: seq<World>, actions: seq<Action>, i: nat, j: nat, c: CommandId)
    requires Run(worlds, actions) && i <= j < |worlds| && c in worlds[i].db.commands
    ensures Linked(worlds[i].db) && Linked(worlds[j].db) && c in worlds[j].db.commands
    ensures Continues(DossierOf(worlds[i].db, c), DossierOf(worlds[j].db, c))
  {
    hide Run, Continues, OutboxExtends, Linked;
    RunGrows(worlds, actions, i, j);
  }

  /** The approval gate. A command that needs approval has exactly one approval row, and the
      row's status and the command's state determine which of the other's values are possible. */
  lemma ApprovalGate(worlds: seq<World>, actions: seq<Action>, i: nat, c: CommandId)
    requires Run(worlds, actions) && i < |worlds| && c in worlds[i].db.commands
    requires worlds[i].db.commands[c].requiresApproval
    ensures c in worlds[i].db.approvals
    ensures var s, status := worlds[i].db.commands[c].state, worlds[i].db.approvals[c].status;
            && (s in {Queued, Delivered, Acknowledged, Running, Succeeded, Failed, Blocked} ==>
                  status == ApprovedApproval)
            && (s == Rejected <==> status == RejectedApproval)
            && (status in {PendingApproval, ExpiredApproval} ==> s in {AwaitingApproval, Cancelled, Expired})
            && (s == AwaitingApproval ==> status in {PendingApproval, ExpiredApproval})
  {
    hide Run, LogOk, AllMetadataOk, KeysDistinct, StampsOk, OutcomeOk, TaskFor, CountInto;
    RunDossier(worlds, actions, i, c);
  }

  /** Every step's log entry is a table edge or a self-loop, replaying the log gives the stored
      state, at most eight entries change the state, and the log only ever grows. */
  lemma LogRefinesState(worlds: seq<World>, actions: seq<Action>, i: nat, j: nat, c: CommandId)
    requires Run(worlds, actions) && i <= j < |worlds| && c in worlds[i].db.commands
    ensures c in worlds[i].db.log && c in worlds[j].db.log && c in worlds[j].db.commands
    ensures LogOk(worlds[i].db.log[c]) && Replay(worlds[i].db.log[c]) == Some(worlds[i].db.commands[c].state)
    ensures Walk(States(worlds[i].db.log[c])) && Changes(States(worlds[i].db.log[c])) <= 8
    ensures worlds[i].db.log[c] <= worlds[j].db.log[c]
  {
    hide Run, AllMetadataOk, KeysDistinct, StampsOk, OutcomeOk, TaskFor, CountInto, Gate, Walk, Changes, Replay;
    RunDossier(worlds, actions, i, c);
    RunContinues(worlds, actions, i, j, c);
    ReplayGivesLastState(worlds[i].db.log[c]);
    LogChangesAtMostEight(worlds[i].db.log[c]);
  }

  /** A command never goes back: its rank never falls, and a terminal state is for ever. */
  lemma NoWayBack(worlds: seq<World>, actions: seq<Action>, i: nat, j: nat, c: CommandId)
    requires Run(worlds, actions) && i <= j < |worlds| && c in worlds[i].db.commands
    ensures c in worlds[j].db.commands
    ensures Rank(worlds[i].db.commands[c].state) <= Rank(worlds[j].db.commands[c].state)
    ensures worlds[i].db.commands[c].state in TERMINAL_STATES ==>
              worlds[j].db.commands[c].state == worlds[i].db.commands[c].state
  {
    hide Run, DossierOk, Gate, Continues;
    RunContinues(worlds, actions, i, j, c);
    RunDossier(worlds, actions, i, c);
    RunDossier(worlds, actions, j, c);
    HistoryStays(DossierOf(worlds[i].db, c), DossierOf(worlds[j].db, c));
  }

  /** While an owner's stop is active none of the owner's commands is queued or approved, so
      nothing of the owner's can be delivered, whatever the emergency-stop service answers. */
  lemma StoppedOwnerHasNothingQueued(worlds: seq<World>, actions: seq<Action>, i: nat, owner: OwnerId, c: CommandId,
                                     k: nat, seen: bool, on: Conditions, now: int)
    requires Run(worlds, actions) && i < |worlds|
    requires StopActive(worlds[i].db, owner) && OwnsCommand(worlds[i].db, owner, c)
    ensures worlds[i].db.commands[c].state !in {Queued, Approved}
    ensures var w := worlds[i];
            (k < |w.broker| && w.broker[k].payload.CommandPayload? && w.broker[k].payload.commandId == c) ==>
              Deliver(w, k, w.db.commands[c].device, seen, on, now).sent == w.sent
  {
    hide DossierOk, Gate, BrokerOk, AllSentOk, RowsMatch, KeysUnique, EventsOk, ApprovalsOwned;
    RunKeepsInvariant(worlds, actions, i);
    var w := worlds[i];
    SettledRow(w.db, c);
    assert CommandStopped(w.db, c);
  }

  /** A command that was ever blocked never passes the pre-delivery check again, with or
      without a release in between. */
  lemma BlockedNeverDelivered(worlds: seq<World>, actions: seq<Action>, i: nat, j: nat, c: CommandId,
                              device: DeviceId, now: int)
    requires Run(worlds, actions) && i <= j < |worlds| && c in worlds[i].db.commands
    requires worlds[i].db.commands[c].state == Blocked
    ensures !PreDeliveryCheck(worlds[j].db, c, device, now)
  {
    NoWayBack(worlds, actions, i, j, c);
  }

  /** One announcement per entry into Queued and at most one in all; a device and an
      idempotency key name at most one command. */
  lemma QueueMatchesOutbox(worlds: seq<World>, actions: seq<Action>, i: nat, c: CommandId, d: CommandId)
    requires Run(worlds, actions) && i < |worlds| && c in worlds[i].db.commands
    ensures c in worlds[i].db.log
    ensures |QueuedRows(worlds[i].db.outbox, c)| == CountInto(worlds[i].db.log[c], Queued) <= 1
    ensures (d in worlds[i].db.commands
             && worlds[i].db.commands[d].device == worlds[i].db.commands[c].device
             && worlds[i].db.commands[d].key == worlds[i].db.commands[c].key) ==> d == c
  {
    hide BrokerOk, AllSentOk, EventsOk, StopsRespected, ApprovalsOwned, GatesOk;
    RunKeepsInvariant(worlds, actions, i);
    assert DossierOk(DossierOf(worlds[i].db, c));
  }

  /** Every message put on a connection belongs to the device it was sent to and carries its
      command's own type, parameters and expiry, then and ever after. */
  lemma SentIsOwn(worlds: seq<World>, actions: seq<Action>, i: nat, j: nat, n: nat)
    requires Run(worlds, actions) && i <= j < |worlds| && n < |worlds[i].sent|
    ensures n < |worlds[j].sent| && worlds[j].sent[n] == worlds[i].sent[n]
    ensures SentOk(worlds[j].db, worlds[i].sent[n])
  {
    hide Run, Valid, BrokerOk, ApprovalsOwned, SentOk, Extends;
    RunGrows(worlds, actions, i, j);
    RunKeepsInvariant(worlds, actions, j);
  }

  /** The task column is a function of the command's state, except that a cancelled command's
      task tells whether the command had been delivered. */
  lemma TaskProjection(worlds: seq<World>, actions: seq<Action>, i: nat, c: CommandId)
    requires Run(worlds, actions) && i < |worlds| && c in worlds[i].db.commands
    ensures c in worlds[i].db.tasks && c in worlds[i].db.log
    ensures var s, t := worlds[i].db.commands[c].state, worlds[i].db.tasks[c].state;
            && (s in {AwaitingApproval, Queued, Rejected, Blocked} ==> t == TaskPending)
            && (s in {Delivered, Acknowledged, Running} ==> t == TaskRunning)
            && (s == Succeeded ==> t == TaskSucceeded)
            && (s in {Failed, Expired} ==> t == TaskFailed)
            && (s == Cancelled ==> t == if Entered(worlds[i].db.log[c], Delivered) then TaskRunning else TaskPending)
  {
    hide Run, LogOk, AllMetadataOk, KeysDistinct, StampsOk, OutcomeOk, CountInto, Gate, Entered;
    RunDossier(worlds, actions, i, c);
  }

  /** No committed command is in a passing state, and none ever times out. */
  lemma TransientStatesNeverCommit(worlds: seq<World>, actions: seq<Action>, i: nat, c: CommandId)
    requires Run(worlds, actions) && i < |worlds| && c in worlds[i].db.commands
    ensures worlds[i].db.commands[c].state !in {Received, Validated, Approved, TimedOut}
  {
    hide Run, LogOk, AllMetadataOk, KeysDistinct, StampsOk, OutcomeOk, TaskFor, CountInto, Gate;
    RunDossier(worlds, actions, i, c);
  }

  /** Hence activation meets no refusal: it blocks every command it selects. */
  lemma ActivationBlocksAll(worlds: seq<World>, actions: seq<Action>, i: nat, owner: OwnerId, reason: string,
                            now: int, c: CommandId)
    requires Run(worlds, actions) && i < |worlds| && !StopActive(worlds[i].db, owner)
    requires c in ToBlock(worlds[i].db, owner)
    ensures Linked(worlds[i].db)
    ensures PythonAccepts(worlds[i].db.commands[c].state, Blocked)
    ensures TriggerAccepts(worlds[i].db.commands[c].state, Blocked)
    ensures var after := Activate(worlds[i].db, owner, reason, now);
            c in after.commands && after.commands[c].state == Blocked
  {
    hide Run, DossierOk, Gate, Activate, ToBlock, PythonAccepts, TriggerAccepts;
    Selected(worlds[i].db, owner, c);
    RunDossier(worlds, actions, i, c);
    TransientStatesNeverCommit(worlds, actions, i, c);
    ActivateBlocks(worlds[i].db, owner, reason, now, c);
  }

  lemma Selected(db: Db, owner: OwnerId, c: CommandId)
    requires c in ToBlock(db, owner)
    ensures c in db.commands
  {
  }

  lemma ActivateBlocks(db: Db, owner: OwnerId, reason: string, now: int, c: CommandId)
    requires Linked(db) && c in ToBlock(db, owner) && db.commands[c].state != Approved && !StopActive(db, owner)
    ensures PythonAccepts(db.commands[c].state, Blocked) && TriggerAccepts(db.commands[c].state, Blocked)
    ensures var after := Activate(db, owner, reason, now);
            c in after.commands && after.commands[c].state == Blocked
  {
    assert OnBlock(DossierOf(db, c), "emergency_stop_activation", now).cmd.state == Blocked;
  }

  /** A revoked device is never trusted again in the run, and no request for it is ever created. */
  lemma {:induction false} RevocationIsFinal(worlds: seq<World>, actions: seq<Action>, i: nat, j: nat, device: DeviceId,
                                             owner: OwnerId)
    requires Run(worlds, actions) && i < j < |worlds|
    requires actions[i] == RevokeDevice(device, owner) && OwnsDevice(worlds[i].db, owner, device)
    ensures device in worlds[j].db.devices && worlds[j].db.devices[device] == Device(owner, Revoked)
    ensures forall c, r: Request, o, seen, definition, schemaOk, nonceHash, now :: r.device == device ==>
              Create(worlds[j].db, c, r, o, seen, definition, schemaOk, nonceHash, now) == worlds[j].db
    decreases j - i
  {
    hide Enabled, Linked;
    if j > i + 1 {
      RevocationIsFinal(worlds, actions, i, j - 1, device, owner);
      RevokedStays(worlds[j - 1], actions[j - 1], device, owner);
    }
    hide Apply, Run;
    forall c, r: Request, o, seen, definition, schemaOk, nonceHash, now | r.device == device
      ensures Create(worlds[j].db, c, r, o, seen, definition, schemaOk, nonceHash, now) == worlds[j].db
    {
    }
  }

  lemma RevokedStays(w: World, a: Action, device: DeviceId, owner: OwnerId)
    requires Linked(w.db) && device in w.db.devices && w.db.devices[device] == Device(owner, Revoked)
    ensures device in Apply(w, a).db.devices && Apply(w, a).db.devices[device] == Device(owner, Revoked)
  {
    hide OnMessage, OnCancel, OnApprove, OnReject, OnBlock, OnExpire, OnApprovalExpiry, Linked, PublishBatch,
         BrokerBatch, Deliver, NewDossier, QueuedEvent, StopEvent, RevokedEvent, Creatable, Accepts;
    if a.PublisherBatch? {
      BatchDevices(w.db, a.hands, a.now);
    }
    if a.GatewayDelivery? {
      DeliverShelves(w, a.k, a.device, a.seen, a.on, a.now);
    }
  }

  lemma {:induction false} BatchDevices(db: Db, hands: seq<Hand>, now: int)
    requires Linked(db)
    ensures PublishBatch(db, hands, now).devices == db.devices
  {
    if hands != [] {
      BatchDevices(db, hands[..|hands| - 1], now);
    }
  }

  /** Published and failed are final, what is published was handed to the broker under its own
      id, a pending event has been retried at most three times, and two copies of one event
      in the broker are at least the duplicate window apart. */
  lemma CrashSafeOutbox(worlds: seq<World>, actions: seq<Action>, i: nat, j: nat, e: nat)
    requires Run(worlds, actions) && i <= j < |worlds| && e < |worlds[i].db.outbox|
    ensures e < |worlds[j].db.outbox|
    ensures worlds[i].db.outbox[e].status in {PublishedEvent, FailedEvent} ==>
              worlds[j].db.outbox[e].status == worlds[i].db.outbox[e].status
    ensures worlds[i].db.outbox[e].status == PublishedEvent ==> Held(worlds[i].broker, e)
    ensures worlds[i].db.outbox[e].status == PendingEvent ==> worlds[i].db.outbox[e].attempts <= 3
    ensures Copies(worlds[i].broker, worlds[i].db.outbox)
    ensures forall k, l ::
              (&& 0 <= k < l < |worlds[i].broker|
               && worlds[i].broker[k].eventId == e && worlds[i].broker[l].eventId == e) ==>
              worlds[i].broker[l].storedAt - worlds[i].broker[k].storedAt >= DUPLICATE_WINDOW
  {
    hide Run, DossiersOk, GatesOk, RowsMatch, KeysUnique, StopsRespected, ApprovalsOwned, AllSentOk, Linked, Continues;
    RunKeepsInvariant(worlds, actions, i);
    RunGrows(worlds, actions, i, j);
    assert EventContinues(worlds[i].db.outbox[e], worlds[j].db.outbox[e]);
    assert EventOk(worlds[i].db, worlds[i].db.outbox[e]);
  }
}
