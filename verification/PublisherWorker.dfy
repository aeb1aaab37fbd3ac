/** The outbox publisher's batch as the code runs it: events handed over and marked one at a time,
    one commit at the end. */
module PublisherWorker {
  import opened Options
  import opened CommandStates
  import opened Tables
  import opened Lifecycle
  import opened Store
  import opened Operations
  import opened Sessions
  import opened Broker

  const BATCH_SIZE: nat := 100

  /** What the environment answers for one event: the emergency-stop service, the broker, and when. */
  datatype Answer = Answer(seen: Option<bool>, result: PublishResult, at: int)

  /** The broker's stream of stored messages. */
  class Stream {
    var messages: seq<BrokerMessage>

    method Publish(id: nat, e: OutboxEvent, answer: Answer) returns (acked: bool)
      modifies this
      ensures messages ==
              if answer.result.NotStored? then old(messages) else StoreMessage(old(messages), id, e, answer.at)
      ensures acked == answer.result.Acked?
    {
      if !answer.result.NotStored? && !Recent(messages, id, answer.at) {
        messages := messages + [BrokerMessage(id, e.subject, e.payload, answer.at)];
      }
      return answer.result.Acked?;
    }
  }

  // ---- The outbox repository ----

  /** The pending rows among the first n, oldest first. */
  function PendingRows(outbox: seq<OutboxEvent>, n: nat): seq<nat>
    requires n <= |outbox|
  {
    if n == 0 then []
    else PendingRows(outbox, n - 1) + if outbox[n - 1].status == PendingEvent then [n - 1] else []
  }

  function Unpublished(outbox: seq<OutboxEvent>, limit: nat): seq<nat> {
    var rows := PendingRows(outbox, |outbox|);
    if |rows| <= limit then rows else rows[..limit]
  }

  lemma {:induction false} PendingRowsAre(outbox: seq<OutboxEvent>, n: nat)
    requires n <= |outbox|
    ensures var rows := PendingRows(outbox, n);
            && (forall i :: 0 <= i < |rows| ==> rows[i] < n && outbox[rows[i]].status == PendingEvent)
            && (forall i, j :: 0 <= i < j < |rows| ==> rows[i] < rows[j])
            && (forall k :: 0 <= k < n && outbox[k].status == PendingEvent ==> k in rows)
  {
    if n > 0 {
      PendingRowsAre(outbox, n - 1);
    }
  }

  /** The query returns pending rows only, each once, oldest first; a pending row it leaves out is
      younger than all of a full batch. */
  lemma UnpublishedAre(outbox: seq<OutboxEvent>, limit: nat)
    ensures var rows := Unpublished(outbox, limit);
            && |rows| <= limit
            && (forall i :: 0 <= i < |rows| ==> rows[i] < |outbox| && outbox[rows[i]].status == PendingEvent)
            && (forall i, j :: 0 <= i < j < |rows| ==> rows[i] < rows[j])
            && (forall k :: 0 <= k < |outbox| && outbox[k].status == PendingEvent && k !in rows ==>
                  |rows| == limit && forall i :: 0 <= i < |rows| ==> rows[i] < k)
  {
    PendingRowsAre(outbox, |outbox|);
    var all := PendingRows(outbox, |outbox|);
    var rows := Unpublished(outbox, limit);
    forall k | 0 <= k < |outbox| && outbox[k].status == PendingEvent && k !in rows
      ensures |rows| == limit && forall i :: 0 <= i < |rows| ==> rows[i] < k
    {
      var j :| 0 <= j < |all| && all[j] == k;
      assert rows == all[..|rows|];
      assert j >= |rows|;
    }
  }

  method MarkPublished(s: Session, id: nat)
    requires id < |s.work.outbox|
    modifies s`work
    ensures var e := old(s.work).outbox[id];
            s.work == old(s.work).(outbox := old(s.work).outbox[id := e.(status := PublishedEvent)])
  {
    s.work := s.work.(outbox := s.work.outbox[id := s.work.outbox[id].(status := PublishedEvent)]);
  }

  method MarkFailed(s: Session, id: nat)
    requires id < |s.work.outbox|
    modifies s`work
    ensures s.work == old(s.work).(outbox := old(s.work).outbox[id := old(s.work).outbox[id].(status := FailedEvent)])
  {
    s.work := s.work.(outbox := s.work.outbox[id := s.work.outbox[id].(status := FailedEvent)]);
  }

  method IncrementAttempt(s: Session, id: nat)
    requires id < |s.work.outbox|
    modifies s`work
    ensures var e := old(s.work).outbox[id];
            s.work == old(s.work).(
              outbox := old(s.work).outbox[id := e.(attempts := e.attempts + 1, status := PendingEvent)])
  {
    var e := s.work.outbox[id];
    s.work := s.work.(outbox := s.work.outbox[id := e.(attempts := e.attempts + 1, status := PendingEvent)]);
  }

  // ---- One event ----

  function HandFor(id: nat, answer: Answer): Hand {
    Hand(PublishItem(id, answer.seen, answer.result), answer.at)
  }

  method PublishEvent(s: Session, stream: Stream, id: nat, answer: Answer, now: int) returns (published: bool)
    requires !s.aborted && Base(s.work) && id < |s.work.outbox| && s.work.outbox[id].status == PendingEvent
    modifies s`work, s`aborted, stream
    ensures !s.aborted && s.work == PublishOne(old(s.work), HandFor(id, answer).item, now)
    ensures stream.messages == HandOver(old(stream.messages), old(s.work), HandFor(id, answer))
    ensures |s.work.outbox| == |old(s.work).outbox|
    ensures published <==> s.work.outbox[id].status == PublishedEvent
  {
    hide DossiersOk, RowsMatch, KeysUnique, EventsOk, StopsRespected, Put, Stamp, Moved, OnBlock, PythonAccepts,
         TriggerAccepts;
    var e := s.work.outbox[id];
    var asks := e.kind == CommandQueued && e.aggregateId in s.work.commands
                && s.work.commands[e.aggregateId].device in s.work.devices;
    if asks && answer.seen == Some(true) {
      BlockedRows(s.work, e.aggregateId, now);
      var outcome := s.TransitionCommand(e.aggregateId, Blocked, "outbox_enforcement", None, now);
      MarkFailed(s, id);
      return false;
    }
    var acked := false;
    if !asks || answer.seen.Some? {
      acked := stream.Publish(id, e, answer);
    }
    if acked {
      MarkPublished(s, id);
      return true;
    }
    RecordFailure(s, id);
    return false;
  }

  method RecordFailure(s: Session, id: nat)
    requires id < |s.work.outbox|
    requires s.work.outbox[id].status == PendingEvent
    modifies s`work
    ensures var e := old(s.work).outbox[id];
            && s.work == old(s.work).(outbox := old(s.work).outbox[id := AfterPublish(e, NotStored)])
            && AfterPublish(e, NotStored) == AfterPublish(e, AckLost)
            && AfterPublish(e, NotStored).status != PublishedEvent
  {
    if s.work.outbox[id].attempts >= MAX_ATTEMPTS {
      MarkFailed(s, id);
    } else {
      IncrementAttempt(s, id);
    }
  }

  /** A refused block leaves the command alone; on committed rows the trigger is never what refuses. */
  lemma BlockedRows(db: Db, c: CommandId, now: int)
    requires Base(db) && c in db.commands
    ensures PythonAccepts(db.commands[c].state, Blocked) ==> TriggerAccepts(db.commands[c].state, Blocked)
    ensures Put(db, c, OnBlock(DossierOf(db, c), "outbox_enforcement", now), [])
            == if Accepts(db.commands[c].state, Blocked)
               then Put(db, c, Moved(DossierOf(db, c), Blocked, "outbox_enforcement", None, now), [])
               else db
    ensures Put(db, c, OnBlock(DossierOf(db, c), "outbox_enforcement", now), []).outbox == db.outbox
  {
    hide DossiersOk, RowsMatch, KeysUnique, EventsOk, StopsRespected, Put, Stamp, Moved;
    PutNothing(db, c);
    SettledRow(db, c);
    PutOutbox(db, c, OnBlock(DossierOf(db, c), "outbox_enforcement", now), []);
  }

  // ---- A batch ----

  function Hands(rows: seq<nat>, answers: nat -> Answer): (hands: seq<Hand>)
    ensures |hands| == |rows|
  {
    seq(|rows|, i requires 0 <= i < |rows| => HandFor(rows[i], answers(i)))
  }

  /** The batch the publisher works through on these tables. */
  function BatchOf(db: Db, answers: nat -> Answer): seq<Hand> {
    Hands(Unpublished(db.outbox, BATCH_SIZE), answers)
  }

  /** A batch holds the oldest pending rows, a hundred at most, each with its own answers. */
  lemma BatchHolds(db: Db, answers: nat -> Answer, k: nat)
    ensures var hands := BatchOf(db, answers);
            && |hands| <= 100
            && (forall i :: 0 <= i < |hands| ==>
                  && hands[i].item.index < |db.outbox| && db.outbox[hands[i].item.index].status == PendingEvent
                  && hands[i].item.seen == answers(i).seen && hands[i].item.result == answers(i).result
                  && hands[i].at == answers(i).at)
            && (k < |db.outbox| && db.outbox[k].status == PendingEvent ==>
                  || (exists i :: 0 <= i < |hands| && hands[i].item.index == k)
                  || (|hands| == 100 && forall i :: 0 <= i < |hands| ==> hands[i].item.index < k))
  {
    var rows := Unpublished(db.outbox, BATCH_SIZE);
    UnpublishedAre(db.outbox, BATCH_SIZE);
    var hands := BatchOf(db, answers);
    hide Unpublished;
    forall i | 0 <= i < |hands|
      ensures hands[i] == HandFor(rows[i], answers(i))
    {
    }
    if k < |db.outbox| && db.outbox[k].status == PendingEvent && k in rows {
      var i :| 0 <= i < |rows| && rows[i] == k;
      assert hands[i].item.index == k;
    }
  }

  function NewlyPublished(a: seq<OutboxEvent>, b: seq<OutboxEvent>): set<nat> {
    set i | 0 <= i < |a| && i < |b| && a[i].status == PendingEvent && b[i].status == PublishedEvent
  }

  /** With `crash` the process dies before it handles the event of that position, or before the
      commit: the broker keeps what it has been given, the tables lose the whole batch. */
  method ProcessBatch(s: Session, stream: Stream, answers: nat -> Answer, crash: Option<nat>, now: int)
    returns (published: nat)
    requires s.Fresh() && Base(s.committed)
    modifies s, stream
    ensures s.Fresh()
    ensures var hands := BatchOf(old(s.committed), answers);
            var done := if crash.Some? && crash.value < |hands| then hands[..crash.value] else hands;
            && stream.messages == BrokerBatch(old(stream.messages), old(s.committed), done, now)
            && s.committed == (if crash.Some? then old(s.committed) else PublishBatch(old(s.committed), hands, now))
            && (crash.None? ==> published == |NewlyPublished(old(s.committed).outbox, s.committed.outbox)|)
  {
    hide Base, PublishOne, HandOver, PublishBatch, BrokerBatch, NewlyPublished, Hands, HandFor, Unpublished;
    ghost var db, broker := s.work, stream.messages;
    var rows := Unpublished(s.work.outbox, BATCH_SIZE);
    ghost var hands := Hands(rows, answers);
    BatchStart(db, broker, hands, now);
    var n := if crash.Some? && crash.value < |rows| then crash.value else |rows|;
    published := 0;
    var i := 0;
    while i < n
      invariant 0 <= i <= n && !s.aborted && s.committed == db && Linked(db)
      invariant s.work == PublishBatch(db, hands[..i], now)
      invariant stream.messages == BrokerBatch(broker, db, hands[..i], now)
      invariant Waiting(db.outbox, s.work.outbox, rows, i)
      invariant published == |NewlyPublished(db.outbox, s.work.outbox)|
    {
      BatchTurn(db, broker, answers, i, now);
      var marked := PublishEvent(s, stream, rows[i], answers(i), now);
      if marked {
        published := published + 1;
      }
      i := i + 1;
    }
    assert hands[..|hands|] == hands;
    if crash.Some? {
      s.Rollback();
    } else {
      var ok := s.Commit();
    }
  }

  /** The events from the i-th on have not been touched by the batch. */
  ghost predicate Waiting(start: seq<OutboxEvent>, now: seq<OutboxEvent>, rows: seq<nat>, i: nat) {
    && |now| == |start|
    && (forall j :: i <= j < |rows| ==>
          rows[j] < |start| && now[rows[j]] == start[rows[j]] && now[rows[j]].status == PendingEvent)
  }

  lemma BatchStart(db: Db, broker: seq<BrokerMessage>, hands: seq<Hand>, now: int)
    requires Base(db)
    ensures Linked(db) && PublishBatch(db, hands[..0], now) == db && BrokerBatch(broker, db, hands[..0], now) == broker
    ensures NewlyPublished(db.outbox, db.outbox) == {}
    ensures Waiting(db.outbox, db.outbox, Unpublished(db.outbox, BATCH_SIZE), 0)
  {
    UnpublishedAre(db.outbox, BATCH_SIZE);
  }

  /** One turn of the loop: the event is still pending, and the next state of both stores is the
      specification's. */
  lemma BatchTurn(db: Db, broker: seq<BrokerMessage>, answers: nat -> Answer, i: nat, now: int)
    requires Base(db) && i < |Unpublished(db.outbox, BATCH_SIZE)|
    requires var rows := Unpublished(db.outbox, BATCH_SIZE);
             Waiting(db.outbox, PublishBatch(db, Hands(rows, answers)[..i], now).outbox, rows, i)
    ensures var rows := Unpublished(db.outbox, BATCH_SIZE);
            var hands := Hands(rows, answers);
            var before, after := PublishBatch(db, hands[..i], now), PublishBatch(db, hands[..i + 1], now);
            && Base(before) && rows[i] < |before.outbox| == |after.outbox|
            && before.outbox[rows[i]].status == PendingEvent
            && after == PublishOne(before, HandFor(rows[i], answers(i)).item, now)
            && BrokerBatch(broker, db, hands[..i + 1], now)
               == HandOver(BrokerBatch(broker, db, hands[..i], now), before, HandFor(rows[i], answers(i)))
            && Waiting(db.outbox, after.outbox, rows, i + 1)
            && |NewlyPublished(db.outbox, after.outbox)|
               == |NewlyPublished(db.outbox, before.outbox)|
                  + if after.outbox[rows[i]].status == PublishedEvent then 1 else 0
  {
    hide Base, PublishOne, HandOver, NewlyPublished, Hands, HandFor, Unpublished;
    var rows := Unpublished(db.outbox, BATCH_SIZE);
    var hands := Hands(rows, answers);
    BaseLinked(db);
    UnpublishedAre(db.outbox, BATCH_SIZE);
    BatchStep(db, broker, rows, answers, i, now);
    PublishBatchOk(db, hands[..i], now);
    var before, after := PublishBatch(db, hands[..i], now), PublishBatch(db, hands[..i + 1], now);
    OneRow(before, HandFor(rows[i], answers(i)).item, now);
    assert HandFor(rows[i], answers(i)).item.index == rows[i] by {
      HandAt(rows[i], answers(i));
    }
    CountPublished(db.outbox, before.outbox, after.outbox, rows[i]);
  }

  lemma HandAt(id: nat, answer: Answer)
    ensures HandFor(id, answer).item.index == id
  {
  }

  lemma OneRow(db: Db, item: PublishItem, now: int)
    requires Linked(db)
    ensures var after := PublishOne(db, item, now).outbox;
            |after| == |db.outbox| && forall j :: 0 <= j < |after| && j != item.index ==> after[j] == db.outbox[j]
  {
    hide Linked;
    PublishOneOutbox(db, item, now);
  }

  lemma BatchStep(db: Db, broker: seq<BrokerMessage>, rows: seq<nat>, answers: nat -> Answer, i: nat, now: int)
    requires Linked(db) && i < |rows|
    ensures var hands := Hands(rows, answers);
            && hands[i] == HandFor(rows[i], answers(i))
            && PublishBatch(db, hands[..i + 1], now)
               == PublishOne(PublishBatch(db, hands[..i], now), hands[i].item, now)
            && BrokerBatch(broker, db, hands[..i + 1], now)
               == HandOver(BrokerBatch(broker, db, hands[..i], now), PublishBatch(db, hands[..i], now), hands[i])
  {
    hide PublishOne, HandOver;
    var hands := Hands(rows, answers);
    assert hands[..i + 1][..i] == hands[..i];
  }

  lemma CountPublished(start: seq<OutboxEvent>, before: seq<OutboxEvent>, after: seq<OutboxEvent>, k: nat)
    requires |start| == |before| == |after| && k < |start|
    requires start[k].status == before[k].status == PendingEvent
    requires forall j :: 0 <= j < |after| && j != k ==> after[j] == before[j]
    ensures |NewlyPublished(start, after)|
            == |NewlyPublished(start, before)| + if after[k].status == PublishedEvent then 1 else 0
  {
    assert k !in NewlyPublished(start, before);
    if after[k].status == PublishedEvent {
      assert NewlyPublished(start, after) == NewlyPublished(start, before) + {k};
    } else {
      assert NewlyPublished(start, after) == NewlyPublished(start, before);
    }
  }
}
