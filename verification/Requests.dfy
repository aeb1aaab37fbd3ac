/** From a request to its device: what a caller gets, across creation, decision, publication and delivery,
    stated in the request's own fields. */
module Requests {
  import opened Options
  import opened CommandStates
  import opened Tables
  import opened Lifecycle
  import opened LifecycleProofs
  import opened Store
  import opened Operations
  import opened Broker
  import opened Pipeline

  /** The announcement that a request leads to. */
  function AnnouncementOf(c: CommandId, r: Request, risk: string): OutboxEvent {
    OutboxEvent(CommandQueued, c, "veyaan.command.ready." + r.device,
                CommandPayload(c, r.device, r.commandType, r.parameters, r.expiresAt, risk), PendingEvent, 0)
  }

  /** A request that needs no approval is queued and announced at once; one that does waits, unannounced. */
  lemma CreateGives(db: Db, c: CommandId, r: Request, owner: OwnerId, definition: Definition, nonceHash: string,
                    now: int)
    requires Linked(db) && c !in db.commands && Creatable(db, r, owner, false, Some(definition), true)
    ensures var after := Create(db, c, r, owner, false, Some(definition), true, nonceHash, now);
            && Linked(after) && c in after.commands && after.stops == db.stops && after.devices == db.devices
            && after.commands[c].device == r.device && after.commands[c].expiresAt == r.expiresAt
            && after.commands[c].key == r.key && after.commands == db.commands[c := after.commands[c]]
            && (if definition.requiresApproval || r.requiresApproval
                then && after.commands[c].state == AwaitingApproval && after.outbox == db.outbox
                     && c in after.approvals && after.approvals[c].status == PendingApproval
                     && after.approvals[c].owner == owner && after.approvals[c].nonceHash == nonceHash
                     && after.approvals[c].expiresAt == now + 1800
                     && QueuedEvent(c, after.commands[c]) == AnnouncementOf(c, r, definition.risk)
                else && after.commands[c].state == Queued && c !in after.approvals
                     && after.outbox == db.outbox + [AnnouncementOf(c, r, definition.risk)])
  {
    hide Put;
    var cmd := RequestedCommand(r, definition);
    var d := NewDossier(cmd, if cmd.requiresApproval then Some(PendingFor(owner, nonceHash, now)) else None);
    var events := if cmd.requiresApproval then [] else [QueuedEvent(c, d.cmd)];
    PutReads(db, c, d, events);
    PutTables(db, c, d, events);
  }

  lemma PutTables(db: Db, c: CommandId, d: Dossier, events: seq<OutboxEvent>)
    ensures var after := Put(db, c, d, events);
            && after.commands == db.commands[c := d.cmd]
            && after.stops == db.stops && after.devices == db.devices && after.outbox == db.outbox + events
            && after.approvals == (if d.approval.Some? then db.approvals[c := d.approval.value] else db.approvals)
            && (events == [] ==> after.outbox == db.outbox)
  {
  }

  /** A decision on a fresh request, by its owner and with no stop active: for half an hour the nonce
      that was handed out, and no other, approves or rejects it; after that the approval expires. */
  lemma CreateThenDecide(db: Db, c: CommandId, r: Request, owner: OwnerId, definition: Definition, nonceHash: string,
                         created: int, approve: bool, presented: string, note: Option<string>, now: int)
    requires Linked(db) && c !in db.commands && Creatable(db, r, owner, false, Some(definition), true)
    requires definition.requiresApproval || r.requiresApproval
    ensures var waiting := Create(db, c, r, owner, false, Some(definition), true, nonceHash, created);
            Linked(waiting) &&
            var after := Decide(waiting, c, owner, approve, presented, note, false, now);
            && c in after.commands && c in after.approvals
            && (if now > created + 1800
                then && after.commands[c].state == AwaitingApproval && after.approvals[c].status == ExpiredApproval
                     && after.outbox == db.outbox
                else if presented != nonceHash then after == waiting
                else if approve
                then && after.commands[c].state == Queued && after.approvals[c].status == ApprovedApproval
                     && after.approvals[c].decidedAt == Some(now) && after.approvals[c].note == note
                     && after.outbox == db.outbox + [AnnouncementOf(c, r, definition.risk)]
                else && after.commands[c].state == Rejected && after.approvals[c].status == RejectedApproval
                     && after.approvals[c].decidedAt == Some(now) && after.approvals[c].note == note
                     && after.outbox == db.outbox)
  {
    hide Put, Create, Decide, QueuedEvent, AnnouncementOf, Linked;
    CreateGives(db, c, r, owner, definition, nonceHash, created);
    var waiting := Create(db, c, r, owner, false, Some(definition), true, nonceHash, created);
    DecideGives(waiting, c, owner, approve, presented, note, now);
  }

  /** What a decision makes of a waiting command, with no stop active. */
  lemma DecideGives(db: Db, c: CommandId, owner: OwnerId, approve: bool, presented: string, note: Option<string>,
                    now: int)
    requires Linked(db) && Undecided(db, c, owner) && db.commands[c].state == AwaitingApproval
    ensures var after := Decide(db, c, owner, approve, presented, note, false, now);
            && c in after.commands && c in after.approvals
            && (if now > db.approvals[c].expiresAt
                then && after.commands[c].state == AwaitingApproval && after.approvals[c].status == ExpiredApproval
                     && after.outbox == db.outbox
                else if presented != db.approvals[c].nonceHash then after == db
                else && after.commands[c].state == (if approve then Queued else Rejected)
                     && after.approvals[c].status == (if approve then ApprovedApproval else RejectedApproval)
                     && after.approvals[c].decidedAt == Some(now) && after.approvals[c].note == note
                     && after.outbox == if approve then db.outbox + [QueuedEvent(c, db.commands[c])] else db.outbox)
  {
    hide Put, OnApprove, OnReject, QueuedEvent;
    var d := DossierOf(db, c);
    PutTables(db, c, OnApprovalExpiry(d), []);
    DecisionGives(d, note, now);
    PutTables(db, c, OnApprove(d, note, now), [QueuedEvent(c, d.cmd)]);
    PutTables(db, c, OnReject(d, note, now), []);
  }

  lemma DecisionGives(d: Dossier, note: Option<string>, now: int)
    requires d.approval.Some?
    ensures var yes := OnApprove(d, note, now);
            && yes.cmd.state == Queued && yes.approval.Some? && yes.approval.value.status == ApprovedApproval
            && yes.approval.value.decidedAt == Some(now) && yes.approval.value.note == note
    ensures var no := OnReject(d, note, now);
            && no.cmd.state == Rejected && no.approval.Some? && no.approval.value.status == RejectedApproval
            && no.approval.value.decidedAt == Some(now) && no.approval.value.note == note
  {
  }

  /** An announced command reaches its device: published and then offered to the device's gateway
      before it expires, it is put on the connection with the request's own fields. */
  lemma RequestReachesDevice(w: World, c: CommandId, r: Request, owner: OwnerId, definition: Definition,
                             nonceHash: string, created: int, published: int, at: int, on: Conditions, delivered: int)
    requires WorldOk(w) && c !in w.db.commands && Creatable(w.db, r, owner, false, Some(definition), true)
    requires !definition.requiresApproval && !r.requiresApproval && r.expiresAt.Some? && delivered <= r.expiresAt.value
    requires on.readable && on.alive
    ensures var w1 := w.(db := Create(w.db, c, r, owner, false, Some(definition), true, nonceHash, created));
            var hand := Hand(PublishItem(|w.db.outbox|, Some(false), Acked), at);
            Linked(w1.db) &&
            var w2 := Apply(w1, PublisherBatch([hand], false, published));
            && w2.db.outbox == w.db.outbox + [AnnouncementOf(c, r, definition.risk).(status := PublishedEvent)]
            && Deliver(w2, |w.broker|, r.device, false, on, delivered).sent
               == w.sent + [SentMessage(r.device, c, r.commandType, r.parameters, r.expiresAt.value, definition.risk)]
  {
    hide Create, Deliver, PublishOne, HandOver, Base, GatesOk, ApprovalsOwned, AllSentOk, PublishedHeld, Spaced;
    BaseLinked(w.db);
    CreateGives(w.db, c, r, owner, definition, nonceHash, created);
    var w1 := w.(db := Create(w.db, c, r, owner, false, Some(definition), true, nonceHash, created));
    var hand := Hand(PublishItem(|w.db.outbox|, Some(false), Acked), at);
    var w2 := Apply(w1, PublisherBatch([hand], false, published));
    BatchOfOne(w1.broker, w1.db, hand, published);
    PublishGives(w1.db, w.db.outbox, w.broker, AnnouncementOf(c, r, definition.risk), hand, published);
    DeliverGives(w2, |w.broker|, c, r, definition.risk, on, delivered);
  }

  lemma BatchOfOne(broker: seq<BrokerMessage>, db: Db, h: Hand, now: int)
    requires Linked(db)
    ensures PublishBatch(db, [h], now) == PublishOne(db, h.item, now)
    ensures BrokerBatch(broker, db, [h], now) == HandOver(broker, db, h)
  {
    hide PublishOne, HandOver;
    assert [h][..0] == [];
    assert PublishBatch(db, [h][..0], now) == db && BrokerBatch(broker, db, [h][..0], now) == broker;
  }

  lemma PublishGives(db: Db, outbox: seq<OutboxEvent>, broker: seq<BrokerMessage>, e: OutboxEvent, h: Hand, now: int)
    requires Linked(db) && db.outbox == outbox + [e] && e.status == PendingEvent && Copies(broker, outbox)
    requires h.item == PublishItem(|outbox|, Some(false), Acked)
    ensures var after := PublishOne(db, h.item, now);
            after == db.(outbox := outbox + [e.(status := PublishedEvent)])
    ensures HandOver(broker, db, h) == broker + [BrokerMessage(|outbox|, e.subject, e.payload, h.at)]
  {
    hide Linked;
    assert db.outbox[|outbox|] == e;
    assert !Recent(broker, |outbox|, h.at);
  }

  lemma DeliverGives(w: World, k: nat, c: CommandId, r: Request, risk: string, on: Conditions, now: int)
    requires k < |w.broker| && k !in w.settled && on.readable && on.alive
    requires w.broker[k].subject == AnnouncementOf(c, r, risk).subject
    requires w.broker[k].payload == AnnouncementOf(c, r, risk).payload
    requires c in w.db.commands && w.db.commands[c].device == r.device && w.db.commands[c].state == Queued
    requires w.db.commands[c].expiresAt == r.expiresAt && r.expiresAt.Some? && now <= r.expiresAt.value
    ensures Deliver(w, k, r.device, false, on, now).sent
            == w.sent + [SentMessage(r.device, c, r.commandType, r.parameters, r.expiresAt.value, risk)]
  {
  }
}
