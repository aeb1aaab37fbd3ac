/** Which queued commands can still be brought to their devices in time. */
module Delivery {
  import opened Options
  import opened CommandStates
  import opened Tables
  import opened Lifecycle
  import opened LifecycleProofs
  import opened Store
  import opened Operations
  import opened Broker
  import opened Pipeline
  import opened PipelineProofs
  import opened Gateway
  import Requests

  // ---- Continuations with a clock ----

  /** The step happens between two times: what looks at a clock reads the later one, and the hand-overs of a
      batch lie in between. */
  ghost predicate Timed(a: Action, from: int, to: int) {
    && from <= to && (TimeOf(a).Some? ==> TimeOf(a).value == to)
    && (a.PublisherBatch? ==> forall i :: 0 <= i < |a.hands| ==> from <= a.hands[i].at <= to)
  }

  ghost predicate Leads(w: World, from: int, a: Action, v: World, to: int) {
    Linked(w.db) && Enabled(w, a) && Timed(a, from, to) && v == Apply(w, a)
  }

  /** Steps from the first world on, with the time at each; it never goes back. */
  ghost predicate Path(worlds: seq<World>, actions: seq<Action>, clocks: seq<int>) {
    && |worlds| == |clocks| == |actions| + 1
    && forall i :: 0 <= i < |actions| ==> Leads(worlds[i], clocks[i], actions[i], worlds[i + 1], clocks[i + 1])
  }

  /** Some continuation of the world at time t sends the command. */
  ghost predicate Sendable(w: World, c: CommandId, t: int) {
    exists worlds, actions, clocks, n: nat ::
      Path(worlds, actions, clocks) && worlds[0] == w && clocks[0] == t && |w.sent| <= n && EndsWith(worlds, n, c)
  }

  /** The last world has put the command on a connection, as its n-th message. */
  predicate EndsWith(worlds: seq<World>, n: nat, c: CommandId) {
    worlds != [] && n < |worlds[|worlds| - 1].sent| && worlds[|worlds| - 1].sent[n].commandId == c
  }

  // ---- The condition ----

  ghost predicate OpenMessage(w: World, c: CommandId) {
    exists k :: 0 <= k < |w.broker| && Concerns(w.broker[k], c) && k !in w.settled
  }

  ghost predicate PendingAnnouncement(w: World, c: CommandId) {
    exists e :: 0 <= e < |w.db.outbox| && AnnouncesCommand(w.db.outbox[e], c) && w.db.outbox[e].status == PendingEvent
  }

  /** No stored copy keeps a new one out of the broker up to the time. */
  ghost predicate WindowOver(w: World, c: CommandId, time: int) {
    forall k :: 0 <= k < |w.broker| && Concerns(w.broker[k], c) ==> w.broker[k].storedAt + DUPLICATE_WINDOW <= time
  }

  /** A queued command that has not expired at t can still be sent, by some continuation that never turns the clock
      back, if and only if one of its messages is unacknowledged, or its announcement is pending and the duplicate
      window of every stored copy ends by the expiry. */
  lemma SendableIff(w: World, c: CommandId, t: int)
    requires WorldOk(w) && c in w.db.commands && w.db.commands[c].state == Queued
    requires w.db.commands[c].expiresAt.Some? && t <= w.db.commands[c].expiresAt.value
    ensures Sendable(w, c, t) <==>
              OpenMessage(w, c) || (PendingAnnouncement(w, c) && WindowOver(w, c, w.db.commands[c].expiresAt.value))
  {
    hide WorldOk, OpenMessage, PendingAnnouncement, WindowOver, Leads, EndsWith;
    var e := w.db.commands[c].expiresAt.value;
    if Sendable(w, c, t) && !OpenMessage(w, c) && !(PendingAnnouncement(w, c) && WindowOver(w, c, e)) {
      var worlds, actions, clocks, n: nat :|
        Path(worlds, actions, clocks) && worlds[0] == w && clocks[0] == t && |w.sent| <= n && EndsWith(worlds, n, c);
      StartDoomed(w, c, e, t);
      DoomedSendsNothing(worlds, actions, clocks, c, e, n);
    }
    if OpenMessage(w, c) {
      OpenIsSendable(w, c, t);
    } else if PendingAnnouncement(w, c) && WindowOver(w, c, e) {
      PendingIsSendable(w, c, t);
    }
  }

  // ---- What can be sent ----

  lemma StopFree(w: World, c: CommandId)
    requires WorldOk(w) && c in w.db.commands && w.db.commands[c].state == Queued
    ensures Linked(w.db) && w.db.commands[c].device in w.db.devices
    ensures !StopActive(w.db, w.db.devices[w.db.commands[c].device].owner)
  {
    hide DossiersOk, RowsMatch, KeysUnique, EventsOk, GatesOk, AllSentOk, ApprovalsOwned, ShelvesOk, BrokerOk;
    assert !CommandStopped(w.db, c);
  }

  /** An unacknowledged message of a queued, unexpired command can be delivered at once. */
  lemma Delivered(w: World, k: nat, c: CommandId, t: int) returns (a: Action, v: World)
    requires WorldOk(w) && k < |w.broker| && k !in w.settled && Concerns(w.broker[k], c)
    requires c in w.db.commands && w.db.commands[c].state == Queued
    requires w.db.commands[c].expiresAt.Some? && t <= w.db.commands[c].expiresAt.value
    ensures Leads(w, t, a, v, t) && |v.sent| == |w.sent| + 1 && v.sent[|w.sent|].commandId == c
  {
    hide DossiersOk, RowsMatch, KeysUnique, StopsRespected, GatesOk, AllSentOk, ApprovalsOwned, ShelvesOk,
         PublishedHeld, Spaced, StopActive;
    StopFree(w, c);
    a := GatewayDelivery(k, w.db.commands[c].device, false, Conditions(true, true, true), t);
    assert EventOk(w.db, w.db.outbox[w.broker[k].eventId]);
    v := Apply(w, a);
  }

  lemma OpenIsSendable(w: World, c: CommandId, t: int)
    requires WorldOk(w) && c in w.db.commands && w.db.commands[c].state == Queued && OpenMessage(w, c)
    requires w.db.commands[c].expiresAt.Some? && t <= w.db.commands[c].expiresAt.value
    ensures Sendable(w, c, t)
  {
    hide WorldOk, Leads;
    var k :| 0 <= k < |w.broker| && Concerns(w.broker[k], c) && k !in w.settled;
    var a, v := Delivered(w, k, c, t);
    assert Path([w, v], [a], [t, t]) && EndsWith([w, v], |w.sent|, c);
  }

  /** The time at which all windows are over. */
  function WindowEnd(broker: seq<BrokerMessage>, c: CommandId, t: int): (end: int)
    ensures t <= end
    ensures forall k :: 0 <= k < |broker| && Concerns(broker[k], c) ==> broker[k].storedAt + DUPLICATE_WINDOW <= end
    ensures end == t || exists k ::
              0 <= k < |broker| && Concerns(broker[k], c) && end == broker[k].storedAt + DUPLICATE_WINDOW
  {
    if broker == [] then t
    else
      var n := |broker| - 1;
      var end := WindowEnd(broker[..n], c, t);
      var own := broker[n].storedAt + DUPLICATE_WINDOW;
      if Concerns(broker[n], c) && end < own then own else end
  }

  /** A pending announcement can be published as a new message when the windows are over. */
  lemma Published(w: World, c: CommandId, e: nat, t: int, at: int) returns (a: Action, v: World)
    requires WorldOk(w) && c in w.db.commands && w.db.commands[c].state == Queued
    requires e < |w.db.outbox| && AnnouncesCommand(w.db.outbox[e], c) && w.db.outbox[e].status == PendingEvent
    requires t <= at && WindowOver(w, c, at)
    ensures Leads(w, t, a, v, at) && WorldOk(v) && v.db.commands == w.db.commands && v.sent == w.sent
    ensures |v.broker| == |w.broker| + 1 && Concerns(v.broker[|w.broker|], c) && v.settled == w.settled
  {
    hide Base, GatesOk, AllSentOk, ApprovalsOwned, ShelvesOk, BrokerOk, WindowOver, Apply, AnnouncesCommand, Concerns,
         Linked;
    StopFree(w, c);
    var hand := Hand(PublishItem(e, Some(false), Acked), at);
    a := PublisherBatch([hand], false, at);
    HandIsAsked(w, c, hand);
    ApplyOk(w, a);
    v := Apply(w, a);
    NotRecent(w, c, e, at);
    HandStored(w, c, hand);
  }

  lemma HandIsAsked(w: World, c: CommandId, h: Hand)
    requires c in w.db.commands && w.db.commands[c].device in w.db.devices && h.item.index < |w.db.outbox|
    requires AnnouncesCommand(w.db.outbox[h.item.index], c) && h.item.seen == Some(false)
    requires !StopActive(w.db, w.db.devices[w.db.commands[c].device].owner)
    ensures HandAsked(w, h)
  {
  }

  /** A hand-over that is not a duplicate stores a message about the command. */
  lemma HandStored(w: World, c: CommandId, h: Hand)
    requires WorldOk(w) && h.item.index < |w.db.outbox| && AnnouncesCommand(w.db.outbox[h.item.index], c)
    requires w.db.outbox[h.item.index].status == PendingEvent
    requires h.item == PublishItem(h.item.index, Some(false), Acked) && !Recent(w.broker, h.item.index, h.at)
    ensures Linked(w.db)
    ensures var v := Apply(w, PublisherBatch([h], false, h.at));
            && v.db.commands == w.db.commands && v.sent == w.sent && v.settled == w.settled
            && |v.broker| == |w.broker| + 1 && Concerns(v.broker[|w.broker|], c)
  {
    hide DossiersOk, RowsMatch, KeysUnique, StopsRespected, GatesOk, AllSentOk, ApprovalsOwned, ShelvesOk, BrokerOk,
         PublishBatch, BrokerBatch;
    assert EventOk(w.db, w.db.outbox[h.item.index]);
    Requests.BatchOfOne(w.broker, w.db, h, h.at);
  }

  lemma NotRecent(w: World, c: CommandId, e: nat, at: int)
    requires WorldOk(w) && e < |w.db.outbox| && AnnouncesCommand(w.db.outbox[e], c) && WindowOver(w, c, at)
    ensures !Recent(w.broker, e, at)
  {
    hide DossiersOk, RowsMatch, KeysUnique, StopsRespected, GatesOk, AllSentOk, ApprovalsOwned, ShelvesOk,
         PublishedHeld, Spaced, Linked;
    assert EventOk(w.db, w.db.outbox[e]);
    forall k | 0 <= k < |w.broker| && w.broker[k].eventId == e
      ensures Concerns(w.broker[k], c)
    {
    }
  }

  lemma PendingIsSendable(w: World, c: CommandId, t: int)
    requires WorldOk(w) && c in w.db.commands && w.db.commands[c].state == Queued && PendingAnnouncement(w, c)
    requires w.db.commands[c].expiresAt.Some? && t <= w.db.commands[c].expiresAt.value
    requires WindowOver(w, c, w.db.commands[c].expiresAt.value)
    ensures Sendable(w, c, t)
  {
    hide Leads, Base, GatesOk, AllSentOk, ApprovalsOwned, ShelvesOk, BrokerOk, AnnouncesCommand, Concerns;
    var e :| 0 <= e < |w.db.outbox| && AnnouncesCommand(w.db.outbox[e], c) && w.db.outbox[e].status == PendingEvent;
    var at := WindowEnd(w.broker, c, t);
    var a, v := Published(w, c, e, t, at);
    var b, u := Delivered(v, |w.broker|, c, at);
    assert Path([w, v, u], [a, b], [t, at, at]) && EndsWith([w, v, u], |w.sent|, c);
  }

  // ---- What cannot ----

  /** Until the command expires all its messages are acknowledged and none is added: its announcement is not
      pending, or a copy keeps others out beyond the expiry. */
  ghost predicate Doomed(w: World, c: CommandId, e: int, clock: int) {
    && c in w.db.commands && w.db.commands[c].expiresAt == Some(e)
    && (clock <= e ==> AllSettled(w, c) && (Spent(w, c) || KeptOut(w, c, e)))
  }

  ghost predicate AllSettled(w: World, c: CommandId) {
    forall k :: 0 <= k < |w.broker| && Concerns(w.broker[k], c) ==> k in w.settled
  }

  ghost predicate Spent(w: World, c: CommandId) {
    exists e :: 0 <= e < |w.db.outbox| && AnnouncesCommand(w.db.outbox[e], c) && w.db.outbox[e].status != PendingEvent
  }

  ghost predicate KeptOut(w: World, c: CommandId, e: int) {
    exists k :: 0 <= k < |w.broker| && Concerns(w.broker[k], c) && e < w.broker[k].storedAt + DUPLICATE_WINDOW
  }

  /** A queued command has its announcement. */
  lemma Announcement(db: Db, c: CommandId) returns (e: nat)
    requires Base(db) && c in db.commands && db.commands[c].state == Queued
    ensures e < |db.outbox| && AnnouncesCommand(db.outbox[e], c)
  {
    hide DossierOk, CountInto, KeysUnique, EventsOk, StopsRespected, AnnouncesCommand;
    BaseRow(db, c);
    QueuedIsCounted(DossierOf(db, c));
    assert QueuedRows(db.outbox, c) != {};
    var i :| i in QueuedRows(db.outbox, c);
    e := i;
  }

  lemma StartDoomed(w: World, c: CommandId, e: int, t: int)
    requires WorldOk(w) && c in w.db.commands && w.db.commands[c].state == Queued
    requires w.db.commands[c].expiresAt == Some(e)
    requires !OpenMessage(w, c) && !(PendingAnnouncement(w, c) && WindowOver(w, c, e))
    ensures Doomed(w, c, e, t)
  {
    hide Base, GatesOk, AllSentOk, ApprovalsOwned, ShelvesOk, BrokerOk, AnnouncesCommand, Concerns;
    var row := Announcement(w.db, c);
    if w.db.outbox[row].status == PendingEvent {
      assert PendingAnnouncement(w, c);
      assert KeptOut(w, c, e);
    } else {
      assert Spent(w, c);
    }
  }

  /** What a timed batch hands over about the command before its expiry is dropped as a duplicate. */
  lemma {:induction false} NoCopyAdded(w: World, hands: seq<Hand>, now: int, c: CommandId, e: int, l: nat)
    requires WorldOk(w) && KeptOut(w, c, e) && (forall i :: 0 <= i < |hands| ==> hands[i].at <= e)
    requires Linked(w.db) && |w.broker| <= l < |BrokerBatch(w.broker, w.db, hands, now)|
    ensures !Concerns(BrokerBatch(w.broker, w.db, hands, now)[l], c)
  {
    hide DossiersOk, RowsMatch, KeysUnique, EventsOk, StopsRespected, GatesOk, AllSentOk, ApprovalsOwned, ShelvesOk,
         BrokerOk, Concerns, PublishOne, KeptOut, Linked;
    if hands != [] {
      var n := |hands| - 1;
      var broker, db := BrokerBatch(w.broker, w.db, hands[..n], now), PublishBatch(w.db, hands[..n], now);
      if l < |broker| {
        NoCopyAdded(w, hands[..n], now, c, e, l);
      } else {
        BatchOk(w.broker, w.db, hands[..n], now);
        NewMessages(w.broker, w.db, hands, now, l);
        CopyIsRecent(w, broker, c, e, hands[n], BrokerBatch(w.broker, w.db, hands, now)[l]);
      }
    }
  }

  /** A copy of the command's announcement would have been recognised. */
  lemma CopyIsRecent(w: World, broker: seq<BrokerMessage>, c: CommandId, e: int, h: Hand, m: BrokerMessage)
    requires WorldOk(w) && KeptOut(w, c, e) && w.broker <= broker && h.at <= e
    requires m.eventId == h.item.index && !Recent(broker, m.eventId, h.at)
    requires m.eventId < |w.db.outbox| && m.payload == w.db.outbox[m.eventId].payload
    ensures !Concerns(m, c)
  {
    hide DossiersOk, RowsMatch, KeysUnique, StopsRespected, GatesOk, AllSentOk, ApprovalsOwned, ShelvesOk,
         PublishedHeld, Spaced, Linked;
    var k :| 0 <= k < |w.broker| && Concerns(w.broker[k], c) && e < w.broker[k].storedAt + DUPLICATE_WINDOW;
    assert broker[k] == w.broker[k];
    if Concerns(m, c) {
      ConcernsAnnounced(w.db, m.eventId, m, c);
      ConcernsAnnounced(w.db, w.broker[k].eventId, w.broker[k], c);
      OneAnnouncement(w.db, c, m.eventId, w.broker[k].eventId);
    }
  }

  lemma NothingAdded(w: World, from: int, a: Action, v: World, to: int, c: CommandId, e: int, k: nat)
    requires WorldOk(w) && Leads(w, from, a, v, to) && to <= e && (Spent(w, c) || KeptOut(w, c, e))
    requires |w.broker| <= k < |v.broker|
    ensures !Concerns(v.broker[k], c)
  {
    hide Base, GatesOk, BrokerOk, AllSentOk, ShelvesOk, ApprovalsOwned, Concerns, AnnouncesCommand, Apply, Enabled,
         KeptOut, WorldOk, TimeOf, Linked;
    if Spent(w, c) {
      var row :|
        0 <= row < |w.db.outbox| && AnnouncesCommand(w.db.outbox[row], c) && w.db.outbox[row].status != PendingEvent;
      NoNewMessage(w, a, c, row, k);
    } else if a.PublisherBatch? {
      BatchBroker(w, a);
      NoCopyAdded(w, a.hands, a.now, c, e, k);
    } else {
      SameBroker(w, a);
    }
  }

  lemma BatchBroker(w: World, a: Action)
    requires Linked(w.db) && a.PublisherBatch?
    ensures Apply(w, a).broker == BrokerBatch(w.broker, w.db, a.hands, a.now)
  {
  }

  lemma DoomedStep(w: World, from: int, a: Action, v: World, to: int, c: CommandId, e: int)
    requires WorldOk(w) && Leads(w, from, a, v, to) && Doomed(w, c, e, from)
    ensures Doomed(v, c, e, to) && WorldOk(v) && w.sent <= v.sent
    ensures forall n :: |w.sent| <= n < |v.sent| ==> v.sent[n].commandId != c
  {
    hide Base, GatesOk, BrokerOk, AllSentOk, ShelvesOk, ApprovalsOwned, Concerns, AnnouncesCommand, Apply, Enabled,
         TimeOf, Extends, Linked, KeptOut, Spent;
    ApplyOk(w, a);
    ColumnsStay(w.db, v.db, c);
    if to <= e {
      forall k | 0 <= k < |v.broker| && Concerns(v.broker[k], c)
        ensures k in v.settled
      {
        if k >= |w.broker| {
          NothingAdded(w, from, a, v, to, c, e, k);
        }
      }
      if Spent(w, c) {
        SpentStays(w, v, c);
      } else {
        KeptOutStays(w, v, c, e);
      }
      SentFromUnsettled(w, a, c);
    } else {
      ExpiredIsNotSent(w, a, c, e, to);
    }
  }

  lemma ColumnsStay(a: Db, b: Db, c: CommandId)
    requires Extends(a, b) && c in a.commands
    ensures c in b.commands && b.commands[c].expiresAt == a.commands[c].expiresAt
  {
    hide OutboxExtends;
    assert Continues(DossierOf(a, c), DossierOf(b, c));
  }

  lemma SpentStays(w: World, v: World, c: CommandId)
    requires Spent(w, c) && Extends(w.db, v.db)
    ensures Spent(v, c)
  {
    hide Extends;
    var e :| 0 <= e < |w.db.outbox| && AnnouncesCommand(w.db.outbox[e], c) && w.db.outbox[e].status != PendingEvent;
    AnnouncementStays(w.db, v.db, e, c);
  }

  lemma KeptOutStays(w: World, v: World, c: CommandId, e: int)
    requires KeptOut(w, c, e) && w.broker <= v.broker
    ensures KeptOut(v, c, e)
  {
    var k :| 0 <= k < |w.broker| && Concerns(w.broker[k], c) && e < w.broker[k].storedAt + DUPLICATE_WINDOW;
    assert v.broker[k] == w.broker[k];
  }

  /** After its expiry a command is not sent. */
  lemma ExpiredIsNotSent(w: World, a: Action, c: CommandId, e: int, to: int)
    requires Linked(w.db) && c in w.db.commands && w.db.commands[c].expiresAt == Some(e) && e < to
    requires TimeOf(a).Some? ==> TimeOf(a).value == to
    ensures forall n :: |w.sent| <= n < |Apply(w, a).sent| ==> Apply(w, a).sent[n].commandId != c
  {
    hide Linked, Create, Cancel, Decide, OpenApproval, RunTasks, Activate, Release, Consume, Revoke, AddDevice,
         PublishBatch, BrokerBatch;
  }

  lemma {:induction false} DoomedPath(worlds: seq<World>, actions: seq<Action>, clocks: seq<int>, c: CommandId, e: int,
                                      i: nat, n: nat)
    requires Path(worlds, actions, clocks) && WorldOk(worlds[0]) && Doomed(worlds[0], c, e, clocks[0]) && i < |worlds|
    ensures Doomed(worlds[i], c, e, clocks[i]) && WorldOk(worlds[i])
    ensures |worlds[0].sent| <= n < |worlds[i].sent| ==> worlds[i].sent[n].commandId != c
  {
    hide WorldOk, Doomed, Leads;
    if i > 0 {
      DoomedPath(worlds, actions, clocks, c, e, i - 1, n);
      DoomedStep(worlds[i - 1], clocks[i - 1], actions[i - 1], worlds[i], clocks[i], c, e);
    }
  }

  lemma DoomedSendsNothing(worlds: seq<World>, actions: seq<Action>, clocks: seq<int>, c: CommandId, e: int, n: nat)
    requires Path(worlds, actions, clocks) && WorldOk(worlds[0]) && Doomed(worlds[0], c, e, clocks[0])
    requires |worlds[0].sent| <= n
    ensures !EndsWith(worlds, n, c)
  {
    hide WorldOk, Doomed, Leads;
    DoomedPath(worlds, actions, clocks, c, e, |worlds| - 1, n);
  }
}
