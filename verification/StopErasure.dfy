/** The pipeline with the stop rule left out: everything else that its invariant says is kept by every step,
    whether or not a stopped owner has commands queued. The proof looks at the tables without their stop
    rows, which no operation reads but activation and release. */
module StopErasure {
  import opened Tables
  import opened Lifecycle
  import opened LifecycleProofs
  import opened Store
  import opened Operations
  import opened OperationProofs
  import opened Broker
  import opened Pipeline
  import opened PipelineProofs

  function Erased(db: Db): Db {
    db.(stops := map[])
  }

  /** The invariant of the pipeline's tables and cache without the stop rule. */
  ghost predicate Kept(w: World) {
    Linked(w.db) && Base(Erased(w.db)) && GatesOk(w.db) && ApprovalsOwned(w.db) && ShelvesOk(w)
  }

  lemma SameDossiers(db: Db, stops: map<OwnerId, Stop>)
    requires Linked(db)
    ensures var rows := db.(stops := stops);
            && Linked(rows) && (forall c :: c in db.commands ==> DossierOf(rows, c) == DossierOf(db, c))
            && (GatesOk(rows) <==> GatesOk(db)) && (DossiersOk(rows) <==> DossiersOk(db))
  {
    hide DossierOk, Gate;
  }

  /** The rule and the rest make up the store's invariant. */
  lemma BaseIsBoth(db: Db)
    requires Linked(db)
    ensures Base(db) <==> Base(Erased(db)) && StopsRespected(db)
  {
    hide DossierOk, RowsMatch, KeysUnique, EventsOk, DossiersOk;
    SameDossiers(db, map[]);
    SameRest(db, map[]);
  }

  lemma SameRest(db: Db, stops: map<OwnerId, Stop>)
    requires Linked(db)
    ensures var rows := db.(stops := stops);
            && Linked(rows) && (RowsMatch(rows) <==> RowsMatch(db))
            && (KeysUnique(rows) <==> KeysUnique(db)) && (EventsOk(rows) <==> EventsOk(db))
  {
    var rows := db.(stops := stops);
    forall i | 0 <= i < |db.outbox|
      ensures EventOk(rows, rows.outbox[i]) == EventOk(db, db.outbox[i])
    {
    }
  }

  lemma ErasedOk(db: Db)
    requires Base(db)
    ensures Linked(db) && Base(Erased(db)) && (GatesOk(Erased(db)) <==> GatesOk(db))
  {
    hide Base, GatesOk;
    BaseLinked(db);
    BaseIsBoth(db);
    SameDossiers(db, map[]);
  }

  lemma WorldIsKept(w: World)
    requires WorldOk(w)
    ensures Kept(w)
  {
    hide Base, GatesOk, BrokerOk, AllSentOk, ApprovalsOwned, ShelvesOk;
    ErasedOk(w.db);
  }

  // ---- Operations that do not read the stop rows ----

  lemma ExtendsBoth(a: Db, b: Db)
    requires Linked(a) && Linked(b) && Extends(Erased(a), Erased(b))
    ensures Extends(a, b)
  {
    hide Continues, OutboxExtends;
    SameDossiers(a, map[]);
    SameDossiers(b, map[]);
    forall c | c in a.commands
      ensures c in b.commands && Continues(DossierOf(a, c), DossierOf(b, c))
    {
      assert Continues(DossierOf(Erased(a), c), DossierOf(Erased(b), c));
    }
  }

  lemma DecideErased(db: Db, a: Action)
    requires Linked(db) && a.DecideApproval?
    ensures Linked(Erased(db))
    ensures Decide(Erased(db), a.c, a.owner, a.approve, a.nonceHash, a.note, a.seen, a.now)
            == Erased(Decide(db, a.c, a.owner, a.approve, a.nonceHash, a.note, a.seen, a.now))
  {
    hide OnApprove, OnReject, OnApprovalExpiry, QueuedEvent;
  }

  lemma RunTasksErased(db: Db, ids: set<CommandId>, now: int)
    requires Linked(db)
    ensures Linked(Erased(db)) && RunTasks(Erased(db), ids, now) == Erased(RunTasks(db, ids, now))
  {
    hide OnExpire, Bulk;
    assert ExpireApprovals(Erased(db), now).approvals == ExpireApprovals(db, now).approvals;
    assert ExpireApprovals(Erased(db), now) == Erased(ExpireApprovals(db, now));
    StopRowBulk(ExpireApprovals(db, now), map[], ids, d => OnExpire(d, now));
  }

  lemma {:induction false} BatchErased(db: Db, hands: seq<Hand>, now: int)
    requires Linked(db)
    ensures Linked(Erased(db)) && PublishBatch(Erased(db), hands, now) == Erased(PublishBatch(db, hands, now))
  {
    if hands != [] {
      var n := |hands| - 1;
      BatchErased(db, hands[..n], now);
      PublishErased(PublishBatch(db, hands[..n], now), hands[n].item, now);
    }
  }

  lemma PublishErased(db: Db, item: PublishItem, now: int)
    requires Linked(db)
    ensures Linked(Erased(db)) && PublishOne(Erased(db), item, now) == Erased(PublishOne(db, item, now))
  {
    hide OnBlock;
  }

  /** Activation and release change the other tables as they would without stop rows, or only append. */
  lemma SwitchErased(db: Db, owner: OwnerId, reason: string, now: int)
    requires Linked(db)
    ensures Linked(Erased(db))
    ensures Erased(Activate(db, owner, reason, now)) ==
            if StopActive(db, owner)
            then Erased(db).(outbox := db.outbox + [StopEvent(owner, true, db.stops[owner].reason)])
            else Erased(Activate(Erased(db), owner, reason, now))
    ensures Erased(Release(db, owner)) ==
            if StopActive(db, owner) then Erased(db).(outbox := db.outbox + [StopEvent(owner, false, "")])
            else Erased(db)
  {
    hide Bulk, OnBlock, StopEvent;
    assert ToBlock(Erased(db), owner) == ToBlock(db, owner);
    StopRowBulk(db, map[], ToBlock(db, owner), d => OnBlock(d, "emergency_stop_activation", now));
  }

  lemma ErasedStep(db: Db, after: Db)
    requires Base(db) && StepOk(db, after)
    ensures StepOk(db, Erased(after))
  {
    hide Base, GatesOk, OutboxExtends, Continues;
    ErasedOk(after);
    BaseLinked(db);
    SameDossiers(after, map[]);
  }

  lemma SwitchOk(db: Db, owner: OwnerId, reason: string, now: int)
    requires Linked(db) && Base(Erased(db))
    ensures StepOk(Erased(db), Erased(Activate(db, owner, reason, now)))
    ensures StepOk(Erased(db), Erased(Release(db, owner)))
  {
    hide Base, StepOk, Activate, Release, StopEvent, Linked;
    var rows := Erased(db);
    SwitchErased(db, owner, reason, now);
    UnchangedOk(rows);
    if StopActive(db, owner) {
      StopEvents(owner, db.stops[owner].reason);
      AppendOk(rows, StopEvent(owner, true, db.stops[owner].reason));
      AppendOk(rows, StopEvent(owner, false, ""));
    } else {
      ActivateOk(rows, owner, reason, now);
      ErasedStep(rows, Activate(rows, owner, reason, now));
    }
  }

  lemma StopEvents(owner: OwnerId, reason: string)
    ensures OtherKind(StopEvent(owner, true, reason)) && StopEvent(owner, true, reason).attempts == 0
    ensures OtherKind(StopEvent(owner, false, "")) && StopEvent(owner, false, "").attempts == 0
  {
  }

  // ---- Every step ----

  lemma ApplyErased(w: World, a: Action)
    requires Linked(w.db) && Base(Erased(w.db)) && Enabled(w, a)
    ensures StepOk(Erased(w.db), Erased(Apply(w, a).db))
  {
    hide Base, StepOk, Create, Cancel, Decide, OpenApproval, RunTasks, Activate, Release, Consume, PublishBatch,
         BrokerBatch, Revoke, AddDevice, Linked, StopActive, Deliver, Asked, BatchAsked;
    var rows := Erased(w.db);
    UnchangedOk(rows);
    match a
    case CreateCommand(c, r, owner, seen, definition, schemaOk, nonceHash, now) =>
      CreateOk(rows, c, r, owner, seen, definition, schemaOk, nonceHash, now) by {
        NoStops(w.db, owner);
      }
      CreateErased(w.db, a);
    case CancelCommand(c, owner, now) =>
      CancelOk(rows, c, owner, now);
      CancelErased(w.db, c, owner, now);
    case DecideApproval(c, owner, approve, nonceHash, note, seen, now) =>
      DecideOkErased(w.db, a);
      DecideErased(w.db, a);
    case CreateApproval(c, owner, nonceHash, expiresAt) =>
      OpenApprovalNeverSucceeds(rows, c, owner, nonceHash, expiresAt);
      OpenErased(w.db, c, owner, nonceHash, expiresAt);
    case SchedulerPass(ids, now) =>
      RunTasksOk(rows, ids, now);
      RunTasksErased(w.db, ids, now);
    case ActivateStop(owner, reason, now) => SwitchOk(w.db, owner, reason, now);
    case ReleaseStop(owner) => SwitchOk(w.db, owner, "", 0);
    case HandleMessage(m, now) =>
      ConsumeOk(rows, m, now);
      ConsumeErased(w.db, m, now);
    case PublisherBatch(hands, crash, now) =>
      PublishBatchOk(rows, hands, now);
      BatchErased(w.db, hands, now);
    case GatewayDelivery(k, device, seen, on, now) => DeliverShelves(w, k, device, seen, on, now);
    case RevokeDevice(device, owner) =>
      RevokeOk(rows, device, owner);
      DevicesErased(w.db, device, owner);
    case PairDevice(device, owner) =>
      AddDeviceOk(rows, device, owner);
      DevicesErased(w.db, device, owner);
    case _ =>
  }

  lemma NoStops(db: Db, owner: OwnerId)
    ensures !StopActive(Erased(db), owner)
  {
  }

  lemma CreateErased(db: Db, a: Action)
    requires a.CreateCommand?
    ensures Create(Erased(db), a.c, a.request, a.owner, a.seen, a.definition, a.schemaOk, a.nonceHash, a.now)
            == Erased(Create(db, a.c, a.request, a.owner, a.seen, a.definition, a.schemaOk, a.nonceHash, a.now))
  {
    hide NewDossier, QueuedEvent;
    assert KeyTaken(Erased(db), a.request.device, a.request.key) == KeyTaken(db, a.request.device, a.request.key);
  }

  lemma CancelErased(db: Db, c: CommandId, owner: OwnerId, now: int)
    requires Linked(db)
    ensures Linked(Erased(db)) && Cancel(Erased(db), c, owner, now) == Erased(Cancel(db, c, owner, now))
  {
    hide OnCancel;
  }

  lemma ConsumeErased(db: Db, m: Message, now: int)
    requires Linked(db)
    ensures Linked(Erased(db)) && Consume(Erased(db), m, now) == Erased(Consume(db, m, now))
  {
    hide OnMessage;
  }

  lemma DecideOkErased(db: Db, a: Action)
    requires Base(Erased(db)) && a.DecideApproval?
    ensures StepOk(Erased(db), Decide(Erased(db), a.c, a.owner, a.approve, a.nonceHash, a.note, a.seen, a.now))
  {
    hide DossiersOk, RowsMatch, KeysUnique, EventsOk, StopsRespected, StepOk, Decide;
    DecideOk(Erased(db), a.c, a.owner, a.approve, a.nonceHash, a.note, a.seen, a.now);
  }

  lemma OpenErased(db: Db, c: CommandId, owner: OwnerId, nonceHash: string, expiresAt: int)
    ensures OpenApproval(Erased(db), c, owner, nonceHash, expiresAt)
            == Erased(OpenApproval(db, c, owner, nonceHash, expiresAt))
  {
  }

  lemma DevicesErased(db: Db, device: DeviceId, owner: OwnerId)
    ensures Revoke(Erased(db), device, owner) == Erased(Revoke(db, device, owner))
    ensures AddDevice(Erased(db), device, owner) == Erased(AddDevice(db, device, owner))
  {
    hide RevokedEvent;
  }

  lemma LinkedBoth(db: Db)
    ensures Linked(Erased(db)) <==> Linked(db)
  {
  }

  /** Every step of the pipeline keeps all but the stop rule. */
  lemma ApplyKept(w: World, a: Action)
    requires Kept(w) && Enabled(w, a)
    ensures Kept(Apply(w, a)) && Extends(w.db, Apply(w, a).db)
  {
    hide Base, GatesOk, ApprovalsOwned, ShelvesOk, Apply, Enabled, Extends, Linked;
    ApplyErased(w, a);
    ApplyShelves(w, a);
    KeptTables(w.db, Apply(w, a).db);
    ApplyOwnedStill(w, a);
  }

  lemma KeptTables(db: Db, after: Db)
    requires Linked(db) && GatesOk(db) && StepOk(Erased(db), Erased(after))
    ensures Linked(after) && GatesOk(after) && Extends(db, after)
  {
    hide Base, GatesOk, Extends, Linked;
    BaseLinked(Erased(after));
    LinkedBoth(after);
    SameDossiers(db, map[]);
    SameDossiers(after, map[]);
    ExtendsBoth(db, after);
  }

  lemma ApplyOwnedStill(w: World, a: Action)
    requires Linked(w.db) && ApprovalsOwned(w.db) && Extends(w.db, Apply(w, a).db)
    ensures Linked(Apply(w, a).db) && ApprovalsOwned(Apply(w, a).db)
  {
    hide Cancel, Decide, OpenApproval, RunTasks, Activate, Release, Consume, PublishBatch, BrokerBatch, Revoke,
         AddDevice, Continues, OutboxExtends, Deliver;
    ApplyRows(w, a, "");
    OwnedStays(w.db, Apply(w, a).db);
  }
}
