/** The whole pipeline as a state machine: every service call, worker pass, device message,
    publisher batch (committed or crashed) and gateway delivery is one step. */
module Pipeline {
  import opened Options
  import opened CommandStates
  import opened Tables
  import opened Lifecycle
  import opened Store
  import opened Operations
  import opened Broker
  import StopCache
  import Subjects

  /** What the gateway put on a device's connection. */
  datatype SentMessage = SentMessage(
    device: DeviceId, commandId: CommandId, commandType: string, parameters: Json, expiresAt: int, risk: string)

  /** The tables, the broker, what was sent, the broker messages that a gateway has acknowledged, and
      each owner's part of the cache. */
  datatype World = World(
    db: Db, broker: seq<BrokerMessage>, sent: seq<SentMessage>, settled: set<nat>,
    shelves: map<OwnerId, StopCache.Shelf>)

  const EMPTY: World := World(Db(map[], map[], map[], map[], map[], [], map[]), [], [], {}, map[])

  /** What befalls one delivery: whether the check's read of the database succeeds, whether the
      connection takes the message, and whether the report of the delivery is published. */
  datatype Conditions = Conditions(readable: bool, alive: bool, published: bool)

  datatype Action =
    | CreateCommand(c: CommandId, request: Request, owner: OwnerId, seen: bool,
                    definition: Option<Definition>, schemaOk: bool, nonceHash: string, now: int)
    | CancelCommand(c: CommandId, owner: OwnerId, now: int)
    | DecideApproval(c: CommandId, owner: OwnerId, approve: bool, nonceHash: string,
                     note: Option<string>, seen: bool, now: int)
    | CreateApproval(c: CommandId, owner: OwnerId, nonceHash: string, expiresAt: int)
    | SchedulerPass(ids: set<CommandId>, now: int)
    | ActivateStop(owner: OwnerId, reason: string, now: int)
    | ReleaseStop(owner: OwnerId)
    | HandleMessage(m: Message, now: int)
    | PublisherBatch(hands: seq<Hand>, crash: bool, now: int)
    | GatewayDelivery(k: nat, device: DeviceId, seen: bool, on: Conditions, now: int)
    | RevokeDevice(device: DeviceId, owner: OwnerId)
    | PairDevice(device: DeviceId, owner: OwnerId)
    /** An is_active call reads the row; if that is active, a cache fill is under way. */
    | ReadStopRow(owner: OwnerId)
    | CacheOperation(owner: OwnerId, op: StopCache.CacheOp, now: int)
    | CacheFailure(owner: OwnerId, op: StopCache.CacheOp)
    | CacheEviction(owner: OwnerId)

  /** The gateway's last look at the database before it sends. */
  predicate PreDeliveryCheck(db: Db, c: CommandId, device: DeviceId, now: int) {
    && c in db.commands && db.commands[c].device == device
    && db.commands[c].state == Queued
    && (db.commands[c].expiresAt.Some? ==> db.commands[c].expiresAt.value >= now)
  }

  /** A device's listener takes message k of its own subject. A message whose check fails, or whose
      read fails, is acknowledged unsent; a command without an expiry cannot be put into the
      mandatory expires_at field and comes back, like one that meets a stop or a dead connection. */
  function Deliver(w: World, k: nat, device: DeviceId, seen: bool, on: Conditions, now: int): World {
    if k >= |w.broker| || k in w.settled || w.broker[k].subject != Subjects.CommandReady(device) then w
    else
      var p := w.broker[k].payload;
      if !p.CommandPayload? || seen then w
      else if !on.readable || !PreDeliveryCheck(w.db, p.commandId, device, now) then w.(settled := w.settled + {k})
      else if p.expiresAt.None? || !on.alive then w
      else
        w.(sent := w.sent + [SentMessage(device, p.commandId, p.commandType, p.parameters, p.expiresAt.value, p.risk)],
           settled := if on.published then w.settled + {k} else w.settled)
  }

  // ---- The emergency-stop service ----

  function ShelfOf(w: World, owner: OwnerId): StopCache.Shelf {
    if owner in w.shelves then w.shelves[owner] else StopCache.EMPTY_SHELF
  }

  function WithShelf(w: World, owner: OwnerId, shelf: StopCache.Shelf): World {
    w.(shelves := w.shelves[owner := shelf])
  }

  /** The service can give this answer about the owner. */
  predicate Asked(w: World, owner: OwnerId, seen: bool, now: int) {
    StopCache.CanAnswer(ShelfOf(w, owner), StopActive(w.db, owner), seen, now)
  }

  /** The publisher's question about each announcement of its batch. */
  ghost predicate BatchAsked(w: World, hands: seq<Hand>) {
    forall i :: 0 <= i < |hands| ==> HandAsked(w, hands[i])
  }

  predicate HandAsked(w: World, h: Hand) {
    h.item.index < |w.db.outbox| && AsksStop(w.db, h.item) && h.item.seen.Some? ==>
      Asked(w, w.db.devices[w.db.commands[w.db.outbox[h.item.index].aggregateId].device].owner, h.item.seen.value, h.at)
  }

  /** When a step happens, for those that look at a clock. */
  function TimeOf(a: Action): Option<int> {
    match a
    case CreateCommand(_, _, _, _, _, _, _, now) => Some(now)
    case CancelCommand(_, _, now) => Some(now)
    case DecideApproval(_, _, _, _, _, _, now) => Some(now)
    case SchedulerPass(_, now) => Some(now)
    case ActivateStop(_, _, now) => Some(now)
    case HandleMessage(_, now) => Some(now)
    case PublisherBatch(_, _, now) => Some(now)
    case GatewayDelivery(_, _, _, _, now) => Some(now)
    case CacheOperation(_, _, now) => Some(now)
    case _ => None
  }

  /** Fresh ids, a bounded selection of overdue commands, answers of the emergency-stop service that
      it can give, and cache operations that are under way. */
  ghost predicate Enabled(w: World, a: Action) {
    match a
    case CreateCommand(c, _, owner, seen, _, _, _, now) => c !in w.db.commands && Asked(w, owner, seen, now)
    case DecideApproval(_, owner, _, _, _, seen, now) => Asked(w, owner, seen, now)
    case SchedulerPass(ids, now) => |ids| <= 100 && forall c :: c in ids ==> Overdue(w.db, c, now)
    case PublisherBatch(hands, _, _) => BatchAsked(w, hands)
    case GatewayDelivery(_, device, seen, _, now) =>
      device in w.db.devices ==> Asked(w, w.db.devices[device].owner, seen, now)
    case CacheOperation(owner, op, _) => op in ShelfOf(w, owner).pending
    case CacheFailure(owner, op) => op in ShelfOf(w, owner).pending
    case _ => true
  }

  function Apply(w: World, a: Action): World
    requires Linked(w.db)
  {
    match a
    case CreateCommand(c, r, owner, seen, definition, schemaOk, nonceHash, now) =>
      w.(db := Create(w.db, c, r, owner, seen, definition, schemaOk, nonceHash, now))
    case CancelCommand(c, owner, now) => w.(db := Cancel(w.db, c, owner, now))
    case DecideApproval(c, owner, approve, nonceHash, note, seen, now) =>
      w.(db := Decide(w.db, c, owner, approve, nonceHash, note, seen, now))
    case CreateApproval(c, owner, nonceHash, expiresAt) =>
      w.(db := OpenApproval(w.db, c, owner, nonceHash, expiresAt))
    case SchedulerPass(ids, now) => w.(db := RunTasks(w.db, ids, now))
    case ActivateStop(owner, reason, now) =>
      var after := w.(db := Activate(w.db, owner, reason, now));
      if StopActive(w.db, owner) then after
      else WithShelf(after, owner, StopCache.Begun(ShelfOf(w, owner), StopCache.WRITE))
    case ReleaseStop(owner) =>
      var after := w.(db := Release(w.db, owner));
      if !StopActive(w.db, owner) then after
      else WithShelf(after, owner, StopCache.Begun(ShelfOf(w, owner), StopCache.Delete))
    case HandleMessage(m, now) => w.(db := Consume(w.db, m, now))
    case PublisherBatch(hands, crash, now) =>
      w.(db := if crash then w.db else PublishBatch(w.db, hands, now),
         broker := BrokerBatch(w.broker, w.db, hands, now))
    case GatewayDelivery(k, device, seen, on, now) => Deliver(w, k, device, seen, on, now)
    case RevokeDevice(device, owner) => w.(db := Revoke(w.db, device, owner))
    case PairDevice(device, owner) => w.(db := AddDevice(w.db, device, owner))
    case ReadStopRow(owner) =>
      if StopActive(w.db, owner) then WithShelf(w, owner, StopCache.Begun(ShelfOf(w, owner), StopCache.FILL)) else w
    case CacheOperation(owner, op, now) => WithShelf(w, owner, StopCache.Performed(ShelfOf(w, owner), op, now))
    case CacheFailure(owner, op) => WithShelf(w, owner, StopCache.Lost(ShelfOf(w, owner), op))
    case CacheEviction(owner) => WithShelf(w, owner, ShelfOf(w, owner).(entry := None))
  }

  // ---- The invariant of the whole ----

  /** A message on a device's connection carries that command's own columns. */
  predicate SentOk(db: Db, s: SentMessage) {
    && s.commandId in db.commands
    && var cmd := db.commands[s.commandId];
       s.device == cmd.device && s.commandType == cmd.commandType && s.parameters == cmd.parameters
       && Some(s.expiresAt) == cmd.expiresAt && s.risk == cmd.risk
  }

  ghost predicate AllSentOk(w: World) {
    forall i :: 0 <= i < |w.sent| ==> SentOk(w.db, w.sent[i])
  }

  /** An approval belongs to the owner of its command's device. */
  ghost predicate ApprovalsOwned(db: Db)
    requires Linked(db)
  {
    forall c :: c in db.approvals ==> OwnsDevice(db, db.approvals[c].owner, db.commands[c].device)
  }

  /** The cache holds, and is about to be given, nothing but "active". */
  ghost predicate ShelvesOk(w: World) {
    forall owner :: owner in w.shelves ==> StopCache.OnlyActive(w.shelves[owner])
  }

  ghost predicate WorldOk(w: World) {
    && Valid(w.db) && ApprovalsOwned(w.db) && BrokerOk(w.broker, w.db.outbox) && AllSentOk(w)
    && ShelvesOk(w) && (forall k :: k in w.settled ==> k < |w.broker|)
  }

  /** Nothing is undone: rows, logs, broker messages, acknowledgements and sent messages only accumulate. */
  ghost predicate Grows(a: World, b: World) {
    Extends(a.db, b.db) && a.broker <= b.broker && a.sent <= b.sent && a.settled <= b.settled
  }
}
