/** The publisher's hand-over of outbox events to the broker, with crashes between the
    hand-over and the commit. */
module Broker {
  import opened Tables
  import opened Store
  import opened Operations
  import opened OperationProofs

  /** The broker drops a message whose id it has stored less than this long ago. */
  const DUPLICATE_WINDOW: int := 120

  datatype BrokerMessage = BrokerMessage(eventId: nat, subject: string, payload: Payload, storedAt: int)

  predicate Recent(broker: seq<BrokerMessage>, id: nat, t: int) {
    exists k :: 0 <= k < |broker| && broker[k].eventId == id && t - broker[k].storedAt < DUPLICATE_WINDOW
  }

  function StoreMessage(broker: seq<BrokerMessage>, id: nat, e: OutboxEvent, t: int): seq<BrokerMessage> {
    if Recent(broker, id, t) then broker else broker + [BrokerMessage(id, e.subject, e.payload, t)]
  }

  /** One event of a batch, and the broker's time when it is handed over. */
  datatype Hand = Hand(item: PublishItem, at: int)

  function HandOver(broker: seq<BrokerMessage>, db: Db, h: Hand): seq<BrokerMessage> {
    if Publishable(db, h.item) && !HeldBack(db, h.item) && !ResultOf(db, h.item).NotStored?
    then StoreMessage(broker, h.item.index, db.outbox[h.item.index], h.at)
    else broker
  }

  /** The tables after a batch has been worked through. */
  function PublishBatch(db: Db, hands: seq<Hand>, now: int): (after: Db)
    requires Linked(db)
    ensures Linked(after)
  {
    if hands == [] then db
    else
      var before := PublishBatch(db, hands[..|hands| - 1], now);
      PublishOneLinked(before, hands[|hands| - 1].item, now);
      PublishOne(before, hands[|hands| - 1].item, now)
  }

  lemma PublishOneLinked(db: Db, item: PublishItem, now: int)
    requires Linked(db)
    ensures Linked(PublishOne(db, item, now))
  {
    if Publishable(db, item) && HeldBack(db, item) {
      var c := db.outbox[item.index].aggregateId;
      PutReads(db, c, Lifecycle.OnBlock(DossierOf(db, c), "outbox_enforcement", now), []);
    }
  }

  /** The broker after the same batch. */
  function BrokerBatch(broker: seq<BrokerMessage>, db: Db, hands: seq<Hand>, now: int): seq<BrokerMessage>
    requires Linked(db)
  {
    if hands == [] then broker
    else
      var k := |hands| - 1;
      HandOver(BrokerBatch(broker, db, hands[..k], now), PublishBatch(db, hands[..k], now), hands[k])
  }

  // ---- What the two stores have in common ----

  /** Every message is a copy of an outbox row, under the row's own id. */
  ghost predicate Copies(broker: seq<BrokerMessage>, outbox: seq<OutboxEvent>) {
    forall k :: 0 <= k < |broker| ==>
      && broker[k].eventId < |outbox|
      && broker[k].subject == outbox[broker[k].eventId].subject
      && broker[k].payload == outbox[broker[k].eventId].payload
  }

  predicate Held(broker: seq<BrokerMessage>, id: nat) {
    exists k :: 0 <= k < |broker| && broker[k].eventId == id
  }

  /** Every event marked as published was handed over. */
  ghost predicate PublishedHeld(broker: seq<BrokerMessage>, outbox: seq<OutboxEvent>) {
    forall i :: 0 <= i < |outbox| && outbox[i].status == PublishedEvent ==> Held(broker, i)
  }

  /** Two copies of one event are at least the duplicate window apart. */
  ghost predicate Spaced(broker: seq<BrokerMessage>) {
    forall k, l :: 0 <= k < l < |broker| && broker[k].eventId == broker[l].eventId ==>
      broker[l].storedAt - broker[k].storedAt >= DUPLICATE_WINDOW
  }

  ghost predicate BrokerOk(broker: seq<BrokerMessage>, outbox: seq<OutboxEvent>) {
    Copies(broker, outbox) && PublishedHeld(broker, outbox) && Spaced(broker)
  }

  lemma HeldGrows(a: seq<BrokerMessage>, b: seq<BrokerMessage>, id: nat)
    requires a <= b && Held(a, id)
    ensures Held(b, id)
  {
    var k :| 0 <= k < |a| && a[k].eventId == id;
    assert b[k].eventId == id;
  }

  lemma StoreMessageOk(broker: seq<BrokerMessage>, outbox: seq<OutboxEvent>, id: nat, t: int)
    requires id < |outbox| && Copies(broker, outbox) && Spaced(broker)
    ensures var after := StoreMessage(broker, id, outbox[id], t);
            Copies(after, outbox) && Spaced(after) && broker <= after && Held(after, id)
  {
    var after := StoreMessage(broker, id, outbox[id], t);
    if Recent(broker, id, t) {
      var k :| 0 <= k < |broker| && broker[k].eventId == id && t - broker[k].storedAt < DUPLICATE_WINDOW;
    } else {
      assert after[|broker|].eventId == id;
    }
  }

  lemma CopiesExtend(broker: seq<BrokerMessage>, a: seq<OutboxEvent>, b: seq<OutboxEvent>)
    requires Copies(broker, a) && OutboxExtends(a, b)
    ensures Copies(broker, b)
  {
    forall k | 0 <= k < |broker|
      ensures broker[k].eventId < |b|
      ensures broker[k].subject == b[broker[k].eventId].subject && broker[k].payload == b[broker[k].eventId].payload
    {
      assert EventContinues(a[broker[k].eventId], b[broker[k].eventId]);
    }
  }

  /** A change to the tables that publishes nothing keeps the two stores in step. */
  lemma BrokerUnmoved(broker: seq<BrokerMessage>, a: seq<OutboxEvent>, b: seq<OutboxEvent>)
    requires BrokerOk(broker, a) && OutboxExtends(a, b)
    requires forall i :: 0 <= i < |b| && b[i].status == PublishedEvent ==> i < |a| && a[i].status == PublishedEvent
    ensures BrokerOk(broker, b)
  {
    CopiesExtend(broker, a, b);
  }

  lemma PublishOneOutbox(db: Db, item: PublishItem, now: int)
    requires Linked(db)
    ensures PublishOne(db, item, now).outbox ==
            if !Publishable(db, item) then db.outbox
            else if HeldBack(db, item) then db.outbox[item.index := db.outbox[item.index].(status := FailedEvent)]
            else db.outbox[item.index := AfterPublish(db.outbox[item.index], ResultOf(db, item))]
  {
    if Publishable(db, item) && HeldBack(db, item) {
      assert db.outbox + [] == db.outbox;
    }
  }

  /** One event handed over and marked: the mark never runs ahead of the broker. */
  lemma HandOverOk(broker: seq<BrokerMessage>, db: Db, h: Hand, now: int)
    requires Base(db) && BrokerOk(broker, db.outbox)
    ensures var after := HandOver(broker, db, h);
            BrokerOk(after, PublishOne(db, h.item, now).outbox) && broker <= after
  {
    hide DossiersOk, RowsMatch, KeysUnique, EventsOk, StopsRespected, Extends;
    var outbox := PublishOne(db, h.item, now).outbox;
    var after := HandOver(broker, db, h);
    assert OutboxExtends(db.outbox, outbox) by {
      PublishOneRows(db, h.item, now);
    }
    PublishOneLength(db, h.item, now);
    if after != broker {
      StoreMessageOk(broker, db.outbox, h.item.index, h.at);
    }
    CopiesExtend(after, db.outbox, outbox);
    forall i | 0 <= i < |outbox| && outbox[i].status == PublishedEvent
      ensures Held(after, i)
    {
      HeldAfter(broker, db, h, now, i);
    }
  }

  lemma PublishOneRows(db: Db, item: PublishItem, now: int)
    requires Base(db)
    ensures OutboxExtends(db.outbox, PublishOne(db, item, now).outbox)
  {
    hide Base;
    PublishOneOk(db, item, now);
  }

  lemma PublishOneLength(db: Db, item: PublishItem, now: int)
    requires Base(db)
    ensures |PublishOne(db, item, now).outbox| == |db.outbox|
  {
    PublishOneOutbox(db, item, now);
  }

  lemma HeldAfter(broker: seq<BrokerMessage>, db: Db, h: Hand, now: int, i: nat)
    requires Linked(db) && BrokerOk(broker, db.outbox)
    requires var outbox := PublishOne(db, h.item, now).outbox; i < |outbox| && outbox[i].status == PublishedEvent
    ensures Held(HandOver(broker, db, h), i)
  {
    hide Linked;
    PublishOneOutbox(db, h.item, now);
    var after := HandOver(broker, db, h);
    if i < |db.outbox| && db.outbox[i].status == PublishedEvent {
      if after != broker {
        StoreMessageOk(broker, db.outbox, h.item.index, h.at);
        HeldGrows(broker, after, i);
      }
    } else {
      assert i == h.item.index;
      StoreMessageOk(broker, db.outbox, i, h.at);
    }
  }

  lemma {:induction false} PublishBatchOk(db: Db, hands: seq<Hand>, now: int)
    requires Base(db)
    ensures StepOk(db, PublishBatch(db, hands, now))
  {
    hide DossiersOk, RowsMatch, KeysUnique, EventsOk, StopsRespected, Extends, GatesOk;
    if hands == [] {
      UnchangedOk(db);
    } else {
      var k := |hands| - 1;
      PublishBatchOk(db, hands[..k], now);
      var before := PublishBatch(db, hands[..k], now);
      PublishOneOk(before, hands[k].item, now);
      StepOkTransitive(db, before, PublishBatch(db, hands, now));
    }
  }

  /** A whole batch, committed. */
  lemma {:induction false} BatchOk(broker: seq<BrokerMessage>, db: Db, hands: seq<Hand>, now: int)
    requires Base(db) && BrokerOk(broker, db.outbox)
    ensures BrokerOk(BrokerBatch(broker, db, hands, now), PublishBatch(db, hands, now).outbox)
    ensures broker <= BrokerBatch(broker, db, hands, now)
  {
    hide DossiersOk, RowsMatch, KeysUnique, EventsOk, StopsRespected, Extends, GatesOk, BrokerOk;
    if hands != [] {
      var k := |hands| - 1;
      BatchOk(broker, db, hands[..k], now);
      PublishBatchOk(db, hands[..k], now);
      HandOverOk(BrokerBatch(broker, db, hands[..k], now), PublishBatch(db, hands[..k], now), hands[k], now);
    }
  }

  /** A batch whose commit never happened: the broker may have gained messages, the tables
      have not changed, and the two are still in step. */
  lemma CrashOk(broker: seq<BrokerMessage>, db: Db, hands: seq<Hand>, now: int)
    requires Base(db) && BrokerOk(broker, db.outbox)
    ensures BrokerOk(BrokerBatch(broker, db, hands, now), db.outbox)
    ensures broker <= BrokerBatch(broker, db, hands, now)
  {
    hide Base, GatesOk;
    BatchOk(broker, db, hands, now);
    PublishBatchOk(db, hands, now);
    var after := PublishBatch(db, hands, now);
    var b := BrokerBatch(broker, db, hands, now);
    PublishBatchLength(db, hands, now);
    forall k | 0 <= k < |b|
      ensures b[k].eventId < |db.outbox|
      ensures b[k].subject == db.outbox[b[k].eventId].subject && b[k].payload == db.outbox[b[k].eventId].payload
    {
      assert EventContinues(db.outbox[b[k].eventId], after.outbox[b[k].eventId]);
    }
    forall i | 0 <= i < |db.outbox| && db.outbox[i].status == PublishedEvent
      ensures Held(b, i)
    {
      HeldGrows(broker, b, i);
    }
  }

  lemma {:induction false} PublishBatchLength(db: Db, hands: seq<Hand>, now: int)
    requires Linked(db)
    ensures |PublishBatch(db, hands, now).outbox| == |db.outbox|
  {
    if hands != [] {
      var k := |hands| - 1;
      PublishBatchLength(db, hands[..k], now);
      PublishOneOutbox(PublishBatch(db, hands[..k], now), hands[k].item, now);
    }
  }

  // ---- Crash and retry ----

  function CopyCount(broker: seq<BrokerMessage>, id: nat): nat {
    |set k | 0 <= k < |broker| && broker[k].eventId == id|
  }

  lemma CopyCountAppend(broker: seq<BrokerMessage>, m: BrokerMessage)
    ensures CopyCount(broker + [m], m.eventId) == CopyCount(broker, m.eventId) + 1
  {
    var a := set k | 0 <= k < |broker| && broker[k].eventId == m.eventId;
    var b := set k | 0 <= k < |broker + [m]| && (broker + [m])[k].eventId == m.eventId;
    assert b == a + {|broker|};
  }

  /** An event handed over at t, not marked because of a crash, and handed over again at
      t' leaves one copy exactly when the retry comes within the duplicate window. */
  lemma CrashRetryCopies(broker: seq<BrokerMessage>, id: nat, e: OutboxEvent, t: int, t': int)
    requires !Held(broker, id)
    ensures var twice := StoreMessage(StoreMessage(broker, id, e, t), id, e, t');
            CopyCount(twice, id) == if t' - t < 120 then 1 else 2
  {
    assert (set k | 0 <= k < |broker| && broker[k].eventId == id) == {};
    var m := BrokerMessage(id, e.subject, e.payload, t);
    var m' := BrokerMessage(id, e.subject, e.payload, t');
    var once := broker + [m];
    assert !Recent(broker, id, t);
    CopyCountAppend(broker, m);
    assert once[|broker|] == m;
    CopyCountAppend(once, m');
    if t' - t >= DUPLICATE_WINDOW {
      forall k | 0 <= k < |once| && once[k].eventId == id
        ensures k == |broker|
      {
      }
    }
  }
}
