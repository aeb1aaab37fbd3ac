/** The WebSocket gateway: what it does with a message for a device, and which connection of a
    device counts while connections replace one another across gateway processes. */
module Gateway {
  import opened Options
  import opened CommandStates
  import opened Tables
  import opened Lifecycle
  import opened LifecycleProofs
  import opened Store
  import opened Operations
  import opened Broker
  import opened Pipeline
  import opened PipelineProofs
  import opened Guarantees
  import Subjects

  // ---- Delivery ----

  /** Acknowledged messages are gone; refused ones come back. */
  datatype Reply = Acknowledge | Refuse

  /** The listener's handling of message k, on its device's own subject. The emergency-stop question
      may raise; a failed read fails the check; the report after the send may fail. */
  method OnReady(w: World, k: nat, device: DeviceId, seen: Option<bool>, on: Conditions, now: int)
    returns (sent: Option<SentMessage>, reply: Reply)
    requires k < |w.broker| && k !in w.settled && w.broker[k].subject == Subjects.CommandReady(device)
    ensures seen.None? ==> sent.None? && reply == Refuse
    ensures seen.Some? ==>
              Deliver(w, k, device, seen.value, on, now)
              == w.(sent := w.sent + (if sent.Some? then [sent.value] else []),
                    settled := w.settled + (if reply == Acknowledge then {k} else {}))
    ensures var p := w.broker[k].payload;
            reply == Acknowledge <==>
              || (sent.Some? && on.published)
              || (p.CommandPayload? && seen == Some(false)
                  && !(on.readable && PreDeliveryCheck(w.db, p.commandId, device, now)))
  {
    var p := w.broker[k].payload;
    assert w.sent + [] == w.sent && w.settled + {} == w.settled;
    if !p.CommandPayload? || seen != Some(false) {
      return None, Refuse;
    }
    var passed := CheckBeforeDelivery(w.db, on.readable, p.commandId, device, now);
    if !passed {
      return None, Acknowledge;
    }
    if p.expiresAt.None? || !on.alive {
      return None, Refuse;
    }
    sent := Some(SentMessage(device, p.commandId, p.commandType, p.parameters, p.expiresAt.value, p.risk));
    reply := if on.published then Acknowledge else Refuse;
  }

  /** A read that raises is caught and counts as a failed check. */
  method CheckBeforeDelivery(db: Db, readable: bool, c: CommandId, device: DeviceId, now: int) returns (passed: bool)
    ensures passed == (readable && PreDeliveryCheck(db, c, device, now))
  {
    if !readable || c !in db.commands {
      return false;
    }
    var command := db.commands[c];
    if command.device != device {
      return false;
    }
    if command.state != Queued {
      return false;
    }
    if command.expiresAt.Some? && command.expiresAt.value < now {
      return false;
    }
    return true;
  }

  /** What passes the check is cleared for delivery: no stop of the owner is active, although the
      check does not look, and an approval that was needed has been given. */
  lemma CheckedIsCleared(worlds: seq<World>, actions: seq<Action>, i: nat, c: CommandId, device: DeviceId, now: int)
    requires Run(worlds, actions) && i < |worlds| && PreDeliveryCheck(worlds[i].db, c, device, now)
    ensures device in worlds[i].db.devices && !StopActive(worlds[i].db, worlds[i].db.devices[device].owner)
    ensures worlds[i].db.commands[c].requiresApproval ==>
              c in worlds[i].db.approvals && worlds[i].db.approvals[c].status == ApprovedApproval
  {
    hide DossiersOk, GatesOk, BrokerOk, AllSentOk, RowsMatch, KeysUnique, EventsOk, ApprovalsOwned, Run;
    RunKeepsInvariant(worlds, actions, i);
    assert !CommandStopped(worlds[i].db, c);
    if worlds[i].db.commands[c].requiresApproval {
      ApprovalGate(worlds, actions, i, c);
    }
  }

  /** No run that passes through the world ever lets the command pass the check again. */
  ghost predicate NeverAgain(w: World, c: CommandId, device: DeviceId, now: int) {
    forall worlds: seq<World>, actions: seq<Action>, i: nat, j: nat, later: int ::
      Run(worlds, actions) && i <= j < |worlds| && worlds[i] == w && now <= later ==>
        !PreDeliveryCheck(worlds[j].db, c, device, later)
  }

  /** A message that is acknowledged unsent was past delivering if and only if the check's read
      succeeded or the check would have failed anyway. */
  lemma DiscardIsSafeIff(worlds: seq<World>, actions: seq<Action>, i: nat, k: nat, device: DeviceId, on: Conditions,
                         now: int)
    requires Run(worlds, actions) && i < |worlds| && k < |worlds[i].broker|
    requires worlds[i].broker[k].payload.CommandPayload?
    requires !(on.readable && PreDeliveryCheck(worlds[i].db, worlds[i].broker[k].payload.commandId, device, now))
    ensures var c := worlds[i].broker[k].payload.commandId;
            NeverAgain(worlds[i], c, device, now) <==> on.readable || !PreDeliveryCheck(worlds[i].db, c, device, now)
  {
    hide Run, PreDeliveryCheck;
    var w, c := worlds[i], worlds[i].broker[k].payload.commandId;
    if PreDeliveryCheck(w.db, c, device, now) {
      assert !NeverAgain(w, c, device, now);
    } else {
      forall ws: seq<World>, acts: seq<Action>, i': nat, j: nat, later: int |
        Run(ws, acts) && i' <= j < |ws| && ws[i'] == w && now <= later
        ensures !PreDeliveryCheck(ws[j].db, c, device, later)
      {
        UncheckedStaysSo(ws, acts, i', j, k, device, now, later);
      }
    }
  }

  /** A command that was offered once and fails the check fails it ever after. */
  lemma UncheckedStaysSo(worlds: seq<World>, actions: seq<Action>, i: nat, j: nat, k: nat,
                                    device: DeviceId, now: int, later: int)
    requires Run(worlds, actions) && i <= j < |worlds| && k < |worlds[i].broker| && now <= later
    requires worlds[i].broker[k].payload.CommandPayload?
    requires !PreDeliveryCheck(worlds[i].db, worlds[i].broker[k].payload.commandId, device, now)
    ensures !PreDeliveryCheck(worlds[j].db, worlds[i].broker[k].payload.commandId, device, later)
  {
    hide Run, DossierOk, Gate, Rank, Linked;
    var c := worlds[i].broker[k].payload.commandId;
    OfferedWasQueued(worlds, actions, i, k);
    NoWayBack(worlds, actions, i, j, c);
    FixedColumns(worlds, actions, i, j, c);
    OnlyQueuedRanksSo(worlds[i].db.commands[c].state);
  }

  lemma FixedColumns(worlds: seq<World>, actions: seq<Action>, i: nat, j: nat, c: CommandId)
    requires Run(worlds, actions) && i <= j < |worlds| && c in worlds[i].db.commands
    ensures c in worlds[j].db.commands && SameColumns(worlds[i].db.commands[c], worlds[j].db.commands[c])
  {
    hide Run;
    RunContinues(worlds, actions, i, j, c);
  }

  /** A command offered to a gateway is stored and has been queued. */
  lemma OfferedWasQueued(worlds: seq<World>, actions: seq<Action>, i: nat, k: nat)
    requires Run(worlds, actions) && i < |worlds| && k < |worlds[i].broker|
    requires worlds[i].broker[k].payload.CommandPayload?
    ensures var c := worlds[i].broker[k].payload.commandId;
            && c in worlds[i].db.commands
            && Rank(worlds[i].db.commands[c].state) >= Rank(Queued)
  {
    hide Run, DossiersOk, GatesOk, AllSentOk, RowsMatch, KeysUnique, StopsRespected, ApprovalsOwned, Rank,
         PublishedHeld, Spaced;
    RunKeepsInvariant(worlds, actions, i);
    var db, id := worlds[i].db, worlds[i].broker[k].eventId;
    assert EventOk(db, db.outbox[id]);
    AnnouncedWasQueued(db, id);
  }

  lemma AnnouncedWasQueued(db: Db, id: nat)
    requires Base(db) && id < |db.outbox| && db.outbox[id].kind == CommandQueued
    ensures var c := db.outbox[id].aggregateId;
            c in db.commands && Rank(db.commands[c].state) >= Rank(Queued)
  {
    hide DossierOk, KeysUnique, StopsRespected, Rank;
    var c := db.outbox[id].aggregateId;
    assert EventOk(db, db.outbox[id]);
    assert id in QueuedRows(db.outbox, c);
    RankOnceQueued(DossierOf(db, c));
  }

  // ---- Lost messages ----

  /** The command's announcement is out of the outbox and all its messages have been acknowledged. */
  ghost predicate Silent(w: World, c: CommandId) {
    && (exists e ::
          0 <= e < |w.db.outbox| && AnnouncesCommand(w.db.outbox[e], c) && w.db.outbox[e].status != PendingEvent)
    && (forall k :: 0 <= k < |w.broker| && Concerns(w.broker[k], c) ==> k in w.settled)
  }

  predicate Concerns(m: BrokerMessage, c: CommandId) {
    m.payload.CommandPayload? && m.payload.commandId == c
  }

  /** New broker messages are copies of pending rows. */
  lemma {:induction false} NewMessages(broker: seq<BrokerMessage>, db: Db, hands: seq<Hand>, now: int, l: nat)
    requires Base(db) && |broker| <= l < |BrokerBatch(broker, db, hands, now)|
    ensures var m := BrokerBatch(broker, db, hands, now)[l];
            && m.eventId < |db.outbox| && db.outbox[m.eventId].status == PendingEvent
            && m.payload == db.outbox[m.eventId].payload
  {
    hide Base, PublishOne, GatesOk;
    BaseLinked(db);
    if hands != [] {
      var n := |hands| - 1;
      var before := PublishBatch(db, hands[..n], now);
      PublishBatchOk(db, hands[..n], now);
      PublishBatchLength(db, hands[..n], now);
      if l < |BrokerBatch(broker, db, hands[..n], now)| {
        NewMessages(broker, db, hands[..n], now, l);
      } else {
        assert Publishable(before, hands[n].item);
        assert EventContinues(db.outbox[hands[n].item.index], before.outbox[hands[n].item.index]);
      }
    }
  }

  /** A command has one announcement. */
  lemma OneAnnouncement(db: Db, c: CommandId, a: nat, b: nat)
    requires Base(db) && a < |db.outbox| && b < |db.outbox|
    requires AnnouncesCommand(db.outbox[a], c) && AnnouncesCommand(db.outbox[b], c)
    ensures a == b
  {
    hide KeysUnique, StopsRespected, DossierOk, CountInto;
    assert EventOk(db, db.outbox[a]);
    QueuedAtMostOnce(DossierOf(db, c));
    var rows := QueuedRows(db.outbox, c);
    assert a in rows && b in rows;
    if a != b {
      Cardinality({a, b}, rows);
    }
  }

  /** A message that concerns a command is a copy of its announcement. */
  lemma ConcernsAnnounced(db: Db, id: nat, m: BrokerMessage, c: CommandId)
    requires EventsOk(db) && id < |db.outbox| && m.payload == db.outbox[id].payload && Concerns(m, c)
    ensures AnnouncesCommand(db.outbox[id], c)
  {
    assert EventOk(db, db.outbox[id]);
  }

  lemma SilentStep(w: World, a: Action, c: CommandId)
    requires WorldOk(w) && Enabled(w, a) && Silent(w, c)
    ensures Silent(Apply(w, a), c)
    ensures forall n :: |w.sent| <= n < |Apply(w, a).sent| ==> Apply(w, a).sent[n].commandId != c
  {
    hide Base, GatesOk, BrokerOk, AllSentOk, Apply, Enabled, ApprovalsOwned, ShelvesOk, Concerns, AnnouncesCommand,
         Extends;
    BaseLinked(w.db);
    var after := Apply(w, a);
    ApplyOk(w, a);
    var e :| 0 <= e < |w.db.outbox| && AnnouncesCommand(w.db.outbox[e], c) && w.db.outbox[e].status != PendingEvent;
    AnnouncementStays(w.db, after.db, e, c);
    forall k | 0 <= k < |after.broker| && Concerns(after.broker[k], c)
      ensures k in after.settled
    {
      if k >= |w.broker| {
        NoNewMessage(w, a, c, e, k);
      }
    }
    SentFromUnsettled(w, a, c);
  }

  lemma AnnouncementStays(a: Db, b: Db, e: nat, c: CommandId)
    requires Extends(a, b) && e < |a.outbox| && AnnouncesCommand(a.outbox[e], c) && a.outbox[e].status != PendingEvent
    ensures e < |b.outbox| && AnnouncesCommand(b.outbox[e], c) && b.outbox[e].status != PendingEvent
  {
    hide Linked;
    assert EventContinues(a.outbox[e], b.outbox[e]);
  }

  /** Nothing more is published about a command whose announcement is not pending. */
  lemma NoNewMessage(w: World, a: Action, c: CommandId, e: nat, k: nat)
    requires WorldOk(w) && Enabled(w, a) && e < |w.db.outbox|
    requires AnnouncesCommand(w.db.outbox[e], c) && w.db.outbox[e].status != PendingEvent
    requires |w.broker| <= k < |Apply(w, a).broker|
    ensures !Concerns(Apply(w, a).broker[k], c)
  {
    hide DossiersOk, RowsMatch, KeysUnique, EventsOk, StopsRespected, GatesOk, BrokerOk, AllSentOk, ShelvesOk,
         ApprovalsOwned, Concerns, AnnouncesCommand, BrokerBatch, PublishBatch, Deliver, Create, Cancel, Decide,
         OpenApproval, RunTasks, Activate, Release, Consume, Revoke, AddDevice, Enabled;
    if a.PublisherBatch? {
      var m := Apply(w, a).broker[k];
      NewMessages(w.broker, w.db, a.hands, a.now, k);
      if Concerns(m, c) {
        ConcernsAnnounced(w.db, m.eventId, m, c);
        OneAnnouncement(w.db, c, e, m.eventId);
      }
    } else {
      SameBroker(w, a);
    }
  }

  lemma SameBroker(w: World, a: Action)
    requires Linked(w.db) && !a.PublisherBatch?
    ensures Apply(w, a).broker == w.broker
  {
    hide Linked, Create, Cancel, Decide, OpenApproval, RunTasks, Activate, Release, Consume, Revoke, AddDevice;
  }

  lemma SentFromUnsettled(w: World, a: Action, c: CommandId)
    requires Linked(w.db) && forall k :: 0 <= k < |w.broker| && Concerns(w.broker[k], c) ==> k in w.settled
    ensures forall n :: |w.sent| <= n < |Apply(w, a).sent| ==> Apply(w, a).sent[n].commandId != c
  {
    hide Linked, Create, Cancel, Decide, OpenApproval, RunTasks, Activate, Release, Consume, Revoke, AddDevice,
         PublishBatch,
         BrokerBatch;
  }

  /** A command whose only messages have been acknowledged is never sent again in any run, whatever its
      state says. */
  lemma {:induction false} SilentForGood(worlds: seq<World>, actions: seq<Action>, i: nat, j: nat, c: CommandId, n: nat)
    requires Run(worlds, actions) && i <= j < |worlds| && Silent(worlds[i], c)
    requires |worlds[i].sent| <= n < |worlds[j].sent|
    ensures Silent(worlds[j], c) && worlds[j].sent[n].commandId != c
    decreases j - i
  {
    hide WorldOk, Apply, Enabled, Silent, Grows;
    SilentRun(worlds, actions, i, j - 1, c);
    RunKeepsInvariant(worlds, actions, j - 1);
    SilentStep(worlds[j - 1], actions[j - 1], c);
    if n < |worlds[j - 1].sent| {
      SilentForGood(worlds, actions, i, j - 1, c, n);
      SentStaysPut(worlds, actions, j - 1, n);
    }
  }

  lemma SentStaysPut(worlds: seq<World>, actions: seq<Action>, j: nat, n: nat)
    requires Run(worlds, actions) && j + 1 < |worlds| && n < |worlds[j].sent|
    ensures n < |worlds[j + 1].sent| && worlds[j + 1].sent[n] == worlds[j].sent[n]
  {
    hide Run, Extends;
    RunGrows(worlds, actions, j, j + 1);
  }

  lemma {:induction false} SilentRun(worlds: seq<World>, actions: seq<Action>, i: nat, j: nat, c: CommandId)
    requires Run(worlds, actions) && i <= j < |worlds| && Silent(worlds[i], c)
    ensures Silent(worlds[j], c)
    decreases j - i
  {
    hide WorldOk, Apply, Enabled, Silent;
    if i < j {
      SilentRun(worlds, actions, i, j - 1, c);
      RunKeepsInvariant(worlds, actions, j - 1);
      SilentStep(worlds[j - 1], actions[j - 1], c);
    }
  }

  /** In every state of every run, a queued and unexpired command with an expiry whose announcement is
      published has a message in the broker, and if that has not been acknowledged its delivery
      sends the command's own fields. */
  lemma PublishedIsDeliverable(worlds: seq<World>, actions: seq<Action>, i: nat, c: CommandId, e: nat, on: Conditions,
                               now: int)
    returns (k: nat)
    requires Run(worlds, actions) && i < |worlds| && c in worlds[i].db.commands && e < |worlds[i].db.outbox|
    requires AnnouncesCommand(worlds[i].db.outbox[e], c) && worlds[i].db.outbox[e].status == PublishedEvent
    requires worlds[i].db.commands[c].state == Queued && worlds[i].db.commands[c].expiresAt.Some?
    requires now <= worlds[i].db.commands[c].expiresAt.value && on.readable && on.alive
    ensures k < |worlds[i].broker| && Concerns(worlds[i].broker[k], c)
    ensures var w, cmd := worlds[i], worlds[i].db.commands[c];
            k !in w.settled ==>
              Deliver(w, k, cmd.device, false, on, now).sent
              == w.sent + [SentMessage(cmd.device, c, cmd.commandType, cmd.parameters, cmd.expiresAt.value, cmd.risk)]
  {
    hide Run, DossiersOk, GatesOk, AllSentOk, RowsMatch, KeysUnique, StopsRespected, ApprovalsOwned, Spaced,
         ShelvesOk, Linked;
    RunKeepsInvariant(worlds, actions, i);
    var w := worlds[i];
    assert Held(w.broker, e);
    k :| 0 <= k < |w.broker| && w.broker[k].eventId == e;
    assert EventOk(w.db, w.db.outbox[e]);
  }

  // ---- Connections ----

  type ConnectionId = string
  type GatewayId = string

  /** What happens to connections, in all gateway processes together. A disconnect first looks at the
      shared record, then deletes it if it saw its own id, then forgets its own connection; other
      processes may act in between. */
  datatype Event =
    | Registered(gateway: GatewayId, device: DeviceId, id: ConnectionId)
    | RecordLooked(device: DeviceId, id: ConnectionId)
    | RecordDropped(device: DeviceId, id: ConnectionId)
    | Disconnected(gateway: GatewayId, device: DeviceId, id: ConnectionId)
    | RecordExpired(device: DeviceId)

  /** A device's connections in one gateway's memory, and the record that all gateways share. */
  datatype Connections = Connections(
    active: map<(GatewayId, DeviceId), ConnectionId>, records: map<DeviceId, ConnectionId>)

  function After(s: Connections, e: Event): Connections {
    match e
    case Registered(g, device, id) =>
      Connections(s.active[(g, device) := id], s.records[device := id])
    case RecordLooked(_, _) => s
    case RecordDropped(device, _) => s.(records := s.records - {device})
    case Disconnected(g, device, id) =>
      if (g, device) in s.active && s.active[(g, device)] == id then s.(active := s.active - {(g, device)}) else s
    case RecordExpired(device) => s.(records := s.records - {device})
  }

  function Outcome(events: seq<Event>): Connections {
    if events == [] then Connections(map[], map[])
    else After(Outcome(events[..|events| - 1]), events[|events| - 1])
  }

  predicate EndsHere(e: Event, g: GatewayId, device: DeviceId, id: ConnectionId) {
    || (e.Registered? && e.gateway == g && e.device == device)
    || e == Disconnected(g, device, id)
  }

  predicate EndsRecord(e: Event, device: DeviceId) {
    (e.Registered? || e.RecordDropped? || e.RecordExpired?) && e.device == device
  }

  ghost predicate HereSince(events: seq<Event>, p: nat, g: GatewayId, device: DeviceId, id: ConnectionId) {
    && p < |events| && events[p] == Registered(g, device, id)
    && forall q :: p < q < |events| ==> !EndsHere(events[q], g, device, id)
  }

  ghost predicate RecordedSince(events: seq<Event>, p: nat, device: DeviceId, id: ConnectionId) {
    && p < |events| && events[p].Registered? && events[p].device == device && events[p].id == id
    && forall q :: p < q < |events| ==> !EndsRecord(events[q], device)
  }

  /** A gateway holds exactly the connection last registered with it and not itself disconnected
      since: a late disconnect of a replaced connection never takes its successor down. */
  lemma {:induction false} HeldIffCurrent(events: seq<Event>, g: GatewayId, device: DeviceId, id: ConnectionId)
    ensures (g, device) in Outcome(events).active && Outcome(events).active[(g, device)] == id
            <==> exists p: nat :: HereSince(events, p, g, device, id)
  {
    if events != [] {
      var n := |events| - 1;
      var before, e := events[..n], events[n];
      HeldIffCurrent(before, g, device, id);
      if e == Registered(g, device, id) {
        assert HereSince(events, n, g, device, id);
      } else {
        forall p: nat
          ensures HereSince(events, p, g, device, id) <==>
                    HereSince(before, p, g, device, id) && !EndsHere(e, g, device, id)
        {
          assert p < n ==> events[p] == before[p];
          if HereSince(events, p, g, device, id) {
            assert forall q :: p < q < n ==> before[q] == events[q];
          }
        }
      }
    }
  }

  ghost predicate Records(s: Connections, device: DeviceId, id: ConnectionId) {
    device in s.records && s.records[device] == id
  }

  /** The shared record names exactly the connection that registered last anywhere, as long as the record
      has neither been deleted, by whichever disconnect, nor expired. */
  lemma {:induction false} RecordIffCurrent(events: seq<Event>, device: DeviceId, id: ConnectionId)
    ensures Records(Outcome(events), device, id) <==> exists p: nat :: RecordedSince(events, p, device, id)
  {
    if events != [] {
      var n := |events| - 1;
      var before, e := events[..n], events[n];
      RecordIffCurrent(before, device, id);
      if e.Registered? && e.device == device && e.id == id {
        assert RecordedSince(events, n, device, id);
      } else {
        forall p: nat
          ensures RecordedSince(events, p, device, id) <==>
                    RecordedSince(before, p, device, id) && !EndsRecord(e, device)
        {
          assert p < n ==> events[p] == before[p];
          if RecordedSince(events, p, device, id) {
            assert forall q :: p < q < n ==> before[q] == events[q];
          }
        }
      }
    }
  }

  /** A disconnect that saw its own id at m and deletes at n removes the record of another connection if
      and only if that one registered between the two and is still current. */
  lemma DropHitsSuccessorIff(events: seq<Event>, m: nat, n: nat, device: DeviceId, id: ConnectionId,
                             other: ConnectionId)
    requires m <= n <= |events| && other != id && Records(Outcome(events[..m]), device, id)
    ensures Records(Outcome(events[..n]), device, other) <==>
              exists p: nat :: m <= p && RecordedSince(events[..n], p, device, other)
  {
    hide Records;
    RecordIffCurrent(events[..n], device, other);
    forall p: nat | RecordedSince(events[..n], p, device, other)
      ensures m <= p
    {
      if p < m {
        assert events[..n][..m] == events[..m];
        assert forall q :: p < q < m ==> events[..m][q] == events[..n][q];
        assert RecordedSince(events[..m], p, device, other);
        RecordIffCurrent(events[..m], device, other);
        OneRecord(Outcome(events[..m]), device, id, other);
      }
    }
  }

  lemma OneRecord(s: Connections, device: DeviceId, a: ConnectionId, b: ConnectionId)
    requires Records(s, device, a) && Records(s, device, b)
    ensures a == b
  {
  }

  /** The smallest such interleaving: the successor's record is gone although its connection is held. */
  lemma SuccessorLosesRecord()
    ensures var events :=
              [Registered("g", "d", "1"), RecordLooked("d", "1"), Registered("h", "d", "2"), RecordDropped("d", "1")];
            && Records(Outcome(events[..1]), "d", "1")
            && "d" !in Outcome(events).records
            && ("h", "d") in Outcome(events).active && Outcome(events).active[("h", "d")] == "2"
  {
    var events :=
      [Registered("g", "d", "1"), RecordLooked("d", "1"), Registered("h", "d", "2"), RecordDropped("d", "1")];
    assert events[..3] == [events[0], events[1], events[2]] && events[..2] == [events[0], events[1]];
    assert events[..1] == [events[0]] && events[..4] == events;
    assert events[..3][..2] == events[..2] && events[..2][..1] == events[..1] && events[..1][..0] == [];
  }

  /** The records in the cache that all gateways share. */
  class ConnectionRecords {
    var records: map<DeviceId, ConnectionId>
  }

  class ConnectionManager {
    const gateway: GatewayId
    const shared: ConnectionRecords
    var active: map<DeviceId, ConnectionId>

    constructor (gateway: GatewayId, shared: ConnectionRecords)
      ensures this.gateway == gateway && this.shared == shared && active == map[]
    {
      this.gateway, this.shared, active := gateway, shared, map[];
    }

    /** This process's part of the connections, seen from a device. */
    ghost predicate Shows(s: Connections, device: DeviceId)
      reads this, shared
    {
      && ((gateway, device) in s.active <==> device in active)
      && (device in active ==> s.active[(gateway, device)] == active[device])
      && (device in s.records <==> device in shared.records)
      && (device in shared.records ==> s.records[device] == shared.records[device])
    }

    method Register(device: DeviceId, id: ConnectionId) returns (replaced: Option<ConnectionId>)
      modifies this, shared
      ensures forall s, d :: old(Shows(s, d)) ==> Shows(After(s, Registered(gateway, device, id)), d)
      ensures replaced == if device in old(active) then Some(old(active)[device]) else None
    {
      replaced := if device in active then Some(active[device]) else None;
      active := active[device := id];
      shared.records := shared.records[device := id];
    }

    /** A disconnect that nobody interrupts. */
    method Unregister(device: DeviceId, id: ConnectionId)
      modifies this, shared
      ensures forall s, d :: old(Shows(s, d)) ==> Shows(AfterUnregister(s, gateway, device, id), d)
    {
      if device in shared.records && shared.records[device] == id {
        shared.records := shared.records - {device};
      }
      if device in active && active[device] == id {
        active := active - {device};
      }
    }
  }

  function AfterUnregister(s: Connections, g: GatewayId, device: DeviceId, id: ConnectionId): Connections {
    var own := device in s.records && s.records[device] == id;
    After(if own then After(s, RecordDropped(device, id)) else s, Disconnected(g, device, id))
  }
}
