/** Every step of the pipeline keeps the invariant of the whole, so it holds in every
    state of every run. */
module PipelineProofs {
  import opened Tables
  import opened Lifecycle
  import opened LifecycleProofs
  import opened Store
  import opened Operations
  import opened OperationProofs
  import opened Broker
  import opened Pipeline
  import StopCache

  // ---- The emergency-stop service's answers ----

  /** An active stop is never answered with "inactive". */
  lemma AnswersAreSafe(w: World, owner: OwnerId, seen: bool, now: int)
    requires ShelvesOk(w) && Asked(w, owner, seen, now)
    ensures SeenOk(w.db, owner, seen)
  {
    hide StopCache.OnlyActive, StopCache.CanAnswer;
    EmptyShelfOk();
    StopCache.AnswerIsSafe(ShelfOf(w, owner), StopActive(w.db, owner), seen, now);
  }

  lemma EmptyShelfOk()
    ensures StopCache.OnlyActive(StopCache.EMPTY_SHELF)
  {
  }

  lemma ApplyShelves(w: World, a: Action)
    requires ShelvesOk(w) && Linked(w.db) && Enabled(w, a)
    ensures ShelvesOk(Apply(w, a))
  {
    hide StopCache.OnlyActive, Create, Cancel, Decide, OpenApproval, RunTasks, Activate, Release, Consume, PublishBatch,
         BrokerBatch, Revoke, AddDevice, Deliver, StopCache.Begun, StopCache.Performed, StopCache.Lost, StopCache.Says,
         Linked, StopActive;
    EmptyShelfOk();
    ActiveValues();
    match a
    case ActivateStop(owner, _, _) => StopCache.ShelfKeeps(ShelfOf(w, owner), StopCache.WRITE, 0);
    case ReleaseStop(owner) => StopCache.ShelfKeeps(ShelfOf(w, owner), StopCache.Delete, 0);
    case ReadStopRow(owner) => StopCache.ShelfKeeps(ShelfOf(w, owner), StopCache.FILL, 0);
    case CacheOperation(owner, op, now) => StopCache.ShelfKeeps(ShelfOf(w, owner), op, now);
    case CacheFailure(owner, op) => StopCache.ShelfKeeps(ShelfOf(w, owner), op, 0);
    case CacheEviction(owner) => StopCache.ShelfKeeps(ShelfOf(w, owner), StopCache.Delete, 0);
    case GatewayDelivery(k, device, seen, on, now) => DeliverShelves(w, k, device, seen, on, now);
    case _ =>
  }

  lemma DeliverShelves(w: World, k: nat, device: DeviceId, seen: bool, on: Conditions, now: int)
    ensures Deliver(w, k, device, seen, on, now).shelves == w.shelves
    ensures Deliver(w, k, device, seen, on, now).db == w.db
  {
  }

  lemma ActiveValues()
    ensures StopCache.Says(StopCache.WRITE.value) && StopCache.Says(StopCache.FILL.value)
  {
  }

  lemma {:induction false} BatchStops(db: Db, hands: seq<Hand>, now: int)
    requires Linked(db)
    ensures PublishBatch(db, hands, now).stops == db.stops
  {
    if hands != [] {
      BatchStops(db, hands[..|hands| - 1], now);
    }
  }

  // ---- One step ----

  lemma ApplyTables(w: World, a: Action)
    requires Base(w.db) && ApprovalsOwned(w.db) && ShelvesOk(w) && Enabled(w, a)
    ensures StepOk(w.db, Apply(w, a).db)
  {
    hide DossiersOk, RowsMatch, KeysUnique, EventsOk, StopsRespected, Extends, GatesOk,
         Create, Cancel, Decide, OpenApproval, RunTasks, Activate, Release, Consume, PublishBatch, BrokerBatch,
         Revoke, AddDevice, Linked, StopActive, Deliver, Asked, BatchAsked;
    var db := w.db;
    match a
    case CreateCommand(c, r, owner, seen, definition, schemaOk, nonceHash, now) =>
      AnswersAreSafe(w, owner, seen, now);
      CreateOk(db, c, r, owner, seen, definition, schemaOk, nonceHash, now);
    case CancelCommand(c, owner, now) => CancelOk(db, c, owner, now);
    case DecideApproval(c, owner, approve, nonceHash, note, seen, now) =>
      AnswersAreSafe(w, owner, seen, now);
      DecideOk(db, c, owner, approve, nonceHash, note, seen, now);
    case CreateApproval(c, owner, nonceHash, expiresAt) =>
      OpenApprovalNeverSucceeds(db, c, owner, nonceHash, expiresAt);
      UnchangedOk(db);
    case SchedulerPass(ids, now) => RunTasksOk(db, ids, now);
    case ActivateStop(owner, reason, now) => ActivateOk(db, owner, reason, now);
    case ReleaseStop(owner) => ReleaseOk(db, owner);
    case HandleMessage(m, now) => ConsumeOk(db, m, now);
    case PublisherBatch(hands, crash, now) =>
      if crash {
        UnchangedOk(db);
      } else {
        PublishBatchOk(db, hands, now);
      }
    case GatewayDelivery(k, device, seen, on, now) =>
      DeliverShelves(w, k, device, seen, on, now);
      UnchangedOk(db);
    case RevokeDevice(device, owner) => RevokeOk(db, device, owner);
    case PairDevice(device, owner) => AddDeviceOk(db, device, owner);
    case _ => UnchangedOk(db);
  }

  /** Only the publisher rewrites outbox rows; everyone else appends pending ones. */
  predicate AppendsPending(a: seq<OutboxEvent>, b: seq<OutboxEvent>) {
    a <= b && forall i :: |a| <= i < |b| ==> b[i].status == PendingEvent
  }

  /** What an operation leaves alone: the ids in the command table, and the outbox but for new rows. */
  ghost predicate KeepsIds(a: Db, b: Db) {
    b.commands.Keys == a.commands.Keys && AppendsPending(a.outbox, b.outbox)
  }

  lemma PutKeepsIds(db: Db, c: CommandId, d: Dossier, events: seq<OutboxEvent>)
    requires c in db.commands && forall i :: 0 <= i < |events| ==> events[i].status == PendingEvent
    ensures KeepsIds(db, Put(db, c, d, events)) && Put(db, c, d, events).stops == db.stops
  {
  }

  lemma DecideIds(db: Db, a: Action)
    requires Linked(db) && a.DecideApproval?
    ensures var after := Decide(db, a.c, a.owner, a.approve, a.nonceHash, a.note, a.seen, a.now);
            KeepsIds(db, after) && after.stops == db.stops
  {
    hide OnApprove, OnReject, OnApprovalExpiry, Put;
    if a.c in db.approvals {
      var d := DossierOf(db, a.c);
      PutKeepsIds(db, a.c, OnApprovalExpiry(d), []);
      PutKeepsIds(db, a.c, OnApprove(d, a.note, a.now), [QueuedEvent(a.c, d.cmd)]);
      PutKeepsIds(db, a.c, OnReject(d, a.note, a.now), []);
    }
  }

  lemma CancelIds(db: Db, c: CommandId, owner: OwnerId, now: int)
    requires Linked(db)
    ensures KeepsIds(db, Cancel(db, c, owner, now)) && Cancel(db, c, owner, now).stops == db.stops
  {
    hide OnCancel, Put;
    if c in db.commands {
      PutKeepsIds(db, c, OnCancel(DossierOf(db, c), now), []);
    }
  }

  lemma ConsumeIds(db: Db, m: Message, now: int)
    requires Linked(db)
    ensures KeepsIds(db, Consume(db, m, now)) && Consume(db, m, now).stops == db.stops
  {
    hide OnMessage, Put;
    if m.id.Some? && m.id.value in db.commands {
      PutKeepsIds(db, m.id.value, OnMessage(DossierOf(db, m.id.value), m, now), []);
    }
  }

  lemma RunTasksIds(db: Db, ids: set<CommandId>, now: int)
    requires Linked(db)
    ensures KeepsIds(db, RunTasks(db, ids, now)) && RunTasks(db, ids, now).stops == db.stops
  {
    hide OnExpire;
  }

  lemma ActivateIds(db: Db, owner: OwnerId, reason: string, now: int)
    requires Linked(db)
    ensures KeepsIds(db, Activate(db, owner, reason, now))
    ensures forall o :: StopActive(Activate(db, owner, reason, now), o) == (o == owner || StopActive(db, o))
  {
    hide OnBlock, StopEvent;
    assert StopEvent(owner, true, reason).status == PendingEvent by {
      StopEventPending(owner, reason);
    }
    if StopActive(db, owner) {
      StopEventPending(owner, db.stops[owner].reason);
    }
  }

  lemma StopEventPending(owner: OwnerId, reason: string)
    ensures StopEvent(owner, true, reason).status == PendingEvent
  {
  }

  lemma CreateIds(db: Db, a: Action)
    requires a.CreateCommand?
    ensures var after := Create(db, a.c, a.request, a.owner, a.seen, a.definition, a.schemaOk, a.nonceHash, a.now);
            AppendsPending(db.outbox, after.outbox) && after.stops == db.stops
  {
    hide NewDossier, Creatable;
  }

  /** The three tables that most operations leave alone: only the publisher rewrites outbox rows, only
      creation brings new commands, only activation and release write the stop row. */
  lemma ApplyRows(w: World, a: Action, owner: OwnerId)
    requires Linked(w.db)
    ensures !a.PublisherBatch? ==> AppendsPending(w.db.outbox, Apply(w, a).db.outbox)
    ensures !a.CreateCommand? ==> Apply(w, a).db.commands.Keys == w.db.commands.Keys
    ensures StopActive(Apply(w, a).db, owner) ==
            if a.ActivateStop? && a.owner == owner then true
            else if a.ReleaseStop? && a.owner == owner then false
            else StopActive(w.db, owner)
  {
    hide Linked, Create, Cancel, Decide, RunTasks, Activate, Consume, PublishBatch, BrokerBatch, Deliver;
    match a
    case CreateCommand(_, _, _, _, _, _, _, _) => CreateIds(w.db, a);
    case CancelCommand(c, o, now) => CancelIds(w.db, c, o, now);
    case DecideApproval(_, _, _, _, _, _, _) => DecideIds(w.db, a);
    case SchedulerPass(ids, now) => RunTasksIds(w.db, ids, now);
    case ActivateStop(o, reason, now) => ActivateIds(w.db, o, reason, now);
    case HandleMessage(m, now) => ConsumeIds(w.db, m, now);
    case PublisherBatch(hands, _, now) =>
      BatchStops(w.db, hands, now);
      BatchCommands(w.db, hands, now);
    case GatewayDelivery(k, device, seen, on, now) => DeliverShelves(w, k, device, seen, on, now);
    case _ =>
  }

  lemma ApplyBroker(w: World, a: Action)
    requires WorldOk(w) && Enabled(w, a)
    ensures BrokerOk(Apply(w, a).broker, Apply(w, a).db.outbox)
    ensures w.broker <= Apply(w, a).broker
  {
    hide DossiersOk, RowsMatch, KeysUnique, EventsOk, StopsRespected, GatesOk, BrokerOk, AllSentOk;
    if a.PublisherBatch? {
      PublisherBroker(w, a);
    } else {
      OtherBroker(w, a);
    }
  }

  lemma PublisherBroker(w: World, a: Action)
    requires WorldOk(w) && a.PublisherBatch?
    ensures BrokerOk(Apply(w, a).broker, Apply(w, a).db.outbox)
    ensures w.broker <= Apply(w, a).broker
  {
    hide DossiersOk, RowsMatch, KeysUnique, EventsOk, StopsRespected, GatesOk, BrokerOk, AllSentOk,
         PublishBatch, BrokerBatch, Linked, Extends;
    BatchOk(w.broker, w.db, a.hands, a.now);
    CrashOk(w.broker, w.db, a.hands, a.now);
  }

  lemma OtherBroker(w: World, a: Action)
    requires WorldOk(w) && Enabled(w, a) && !a.PublisherBatch?
    ensures BrokerOk(Apply(w, a).broker, Apply(w, a).db.outbox)
    ensures w.broker == Apply(w, a).broker
  {
    hide DossiersOk, RowsMatch, KeysUnique, EventsOk, StopsRespected, GatesOk, BrokerOk, AllSentOk,
         Create, Cancel, Decide, OpenApproval, RunTasks, Activate, Release, Consume, Revoke, AddDevice, Linked,
         EventContinues, Base, Enabled;
    ApplyTables(w, a);
    ApplyRows(w, a, "");
    BrokerUnmoved(w.broker, w.db.outbox, Apply(w, a).db.outbox);
  }

  lemma SentStays(s: SentMessage, a: Db, b: Db)
    requires SentOk(a, s) && Extends(a, b)
    ensures SentOk(b, s)
  {
    hide OutboxExtends;
    assert Continues(DossierOf(a, s.commandId), DossierOf(b, s.commandId));
  }

  /** What the gateway sends comes from the broker, hence from the outbox, hence from the row. */
  lemma DeliveredIsOwn(w: World, k: nat, device: DeviceId, seen: bool, on: Conditions, now: int)
    requires WorldOk(w)
    ensures var after := Deliver(w, k, device, seen, on, now);
            && after.db == w.db && after.broker == w.broker && w.sent <= after.sent && w.settled <= after.settled
            && forall i :: |w.sent| <= i < |after.sent| ==> SentOk(w.db, after.sent[i])
  {
    hide DossiersOk, RowsMatch, KeysUnique, StopsRespected, GatesOk, AllSentOk, PublishedHeld, Spaced, Linked,
         ShelvesOk;
    if k < |w.broker| {
      var e := w.db.outbox[w.broker[k].eventId];
      assert EventOk(w.db, e);
    }
  }

  lemma ApplySent(w: World, a: Action)
    requires WorldOk(w) && Enabled(w, a)
    ensures AllSentOk(Apply(w, a)) && w.sent <= Apply(w, a).sent && w.settled <= Apply(w, a).settled
  {
    hide DossiersOk, RowsMatch, KeysUnique, EventsOk, StopsRespected, GatesOk, BrokerOk, Extends, SentOk,
         Create, Cancel, Decide, OpenApproval, RunTasks, Activate, Release, Consume, PublishBatch, BrokerBatch,
         Revoke, AddDevice, Deliver;
    var after := Apply(w, a);
    ApplyTables(w, a);
    if a.GatewayDelivery? {
      DeliveredIsOwn(w, a.k, a.device, a.seen, a.on, a.now);
    }
    forall i | 0 <= i < |after.sent|
      ensures SentOk(after.db, after.sent[i])
    {
      if i < |w.sent| {
        SentStays(w.sent[i], w.db, after.db);
      }
    }
  }

  lemma ApplySettled(w: World, a: Action)
    requires WorldOk(w) && Enabled(w, a)
    ensures forall k :: k in Apply(w, a).settled ==> k < |Apply(w, a).broker|
  {
    hide Base, GatesOk, BrokerOk, AllSentOk, Apply, ApprovalsOwned, ShelvesOk, Enabled;
    BaseLinked(w.db);
    ApplyBroker(w, a);
    SettledStep(w, a);
  }

  lemma SettledStep(w: World, a: Action)
    requires Linked(w.db)
    ensures forall k :: k in Apply(w, a).settled ==> k in w.settled || k < |w.broker|
  {
    hide Create, Cancel, Decide, OpenApproval, RunTasks, Activate, Release, Consume, PublishBatch, BrokerBatch,
         Revoke, AddDevice, Linked;
  }

  lemma OwnedStays(a: Db, b: Db)
    requires Extends(a, b) && ApprovalsOwned(a)
    requires forall c :: c in b.approvals && c !in a.commands ==>
               OwnsDevice(b, b.approvals[c].owner, b.commands[c].device)
    ensures ApprovalsOwned(b)
  {
    hide OutboxExtends;
    forall c | c in b.approvals && c in a.commands
      ensures OwnsDevice(b, b.approvals[c].owner, b.commands[c].device)
    {
      assert Continues(DossierOf(a, c), DossierOf(b, c));
    }
  }

  lemma {:induction false} BatchCommands(db: Db, hands: seq<Hand>, now: int)
    requires Linked(db)
    ensures PublishBatch(db, hands, now).commands.Keys == db.commands.Keys
  {
    if hands != [] {
      BatchCommands(db, hands[..|hands| - 1], now);
    }
  }

  lemma ApplyOwned(w: World, a: Action)
    requires Base(w.db) && ApprovalsOwned(w.db) && ShelvesOk(w) && Enabled(w, a)
    ensures Linked(Apply(w, a).db) && ApprovalsOwned(Apply(w, a).db)
  {
    hide DossiersOk, RowsMatch, KeysUnique, EventsOk, StopsRespected, GatesOk,
         Cancel, Decide, OpenApproval, RunTasks, Activate, Release, Consume, PublishBatch, BrokerBatch,
         Revoke, AddDevice, Continues, OutboxExtends;
    ApplyTables(w, a);
    ApplyRows(w, a, "");
    OwnedStays(w.db, Apply(w, a).db);
  }

  /** The inductive step. */
  lemma ApplyOk(w: World, a: Action)
    requires WorldOk(w) && Enabled(w, a)
    ensures WorldOk(Apply(w, a)) && Grows(w, Apply(w, a))
  {
    hide Base, Extends, GatesOk, BrokerOk, AllSentOk, Apply, ApprovalsOwned, ShelvesOk, Enabled, Linked;
    BaseLinked(w.db);
    ApplyTables(w, a);
    ApplyShelves(w, a);
    ApplySettled(w, a);
    ApplyOwned(w, a);
    ApplyBroker(w, a);
    ApplySent(w, a);
  }

  // ---- Runs ----

  /** A run from the empty system: after each action, the world it leaves. */
  ghost predicate Run(worlds: seq<World>, actions: seq<Action>) {
    && |worlds| == |actions| + 1
    && worlds[0] == EMPTY
    && forall i :: 0 <= i < |actions| ==>
         Linked(worlds[i].db) && Enabled(worlds[i], actions[i]) && worlds[i + 1] == Apply(worlds[i], actions[i])
  }

  lemma EmptyOk()
    ensures WorldOk(EMPTY)
  {
  }

  /** Every state of every run satisfies the invariant. */
  lemma {:induction false} RunKeepsInvariant(worlds: seq<World>, actions: seq<Action>, i: nat)
    requires Run(worlds, actions) && i < |worlds|
    ensures WorldOk(worlds[i])
  {
    if i == 0 {
      EmptyOk();
    } else {
      RunKeepsInvariant(worlds, actions, i - 1);
      hide WorldOk, Apply, Enabled;
      ApplyOk(worlds[i - 1], actions[i - 1]);
    }
  }

  lemma GrowsTransitive(a: World, b: World, c: World)
    requires Grows(a, b) && Grows(b, c)
    ensures Grows(a, c)
  {
    hide Extends;
    ExtendsTransitive(a.db, b.db, c.db);
  }

  lemma GrowsItself(w: World)
    requires WorldOk(w)
    ensures Grows(w, w)
  {
    hide GatesOk, BrokerOk, AllSentOk, ApprovalsOwned;
    UnchangedOk(w.db);
  }

  /** Between any two states of a run nothing is undone. */
  lemma {:induction false} RunGrows(worlds: seq<World>, actions: seq<Action>, i: nat, j: nat)
    requires Run(worlds, actions) && i <= j < |worlds|
    ensures Grows(worlds[i], worlds[j])
    decreases j - i
  {
    hide WorldOk, Apply, Enabled, Grows;
    if i == j {
      RunKeepsInvariant(worlds, actions, i);
      GrowsItself(worlds[i]);
    } else {
      RunGrows(worlds, actions, i, j - 1);
      RunKeepsInvariant(worlds, actions, j - 1);
      ApplyOk(worlds[j - 1], actions[j - 1]);
      GrowsTransitive(worlds[i], worlds[j - 1], worlds[j]);
    }
  }
}
