/** Runs in which a promise that the code does not keep is broken, each from a world that the pipeline
    reaches. The exact conditions are where the promises are. */
module Counterexamples {
  import opened Options
  import opened CommandStates
  import opened Tables
  import opened Lifecycle
  import opened Store
  import opened Operations
  import opened Broker
  import opened Pipeline
  import opened PipelineProofs
  import opened MessageOrder
  import opened Reachability
  import AtMostOnce
  import Delivery
  import Gateway
  import Races
  import Requests
  import Scheduler
  import StopErasure
  import StopRaces

  // ---- The approval gate ----

  /** The late expiry happens: an approval read at the last valid second, another decision read a second
      later, and a queued command whose approval says "expired". */
  lemma LateExpiryHappens() returns (races: seq<Races.Race>, steps: seq<Races.RaceStep>)
    ensures Races.RaceRun(races, steps, "c") && Reached(races[0].w) && |races| == 5
    ensures steps == [Races.Read("o", "n", true, 1800), Races.Read("o", "n", true, 1801),
                      Races.Finish(Races.Approve, None, false, 1801), Races.Finish(Races.Expire, None, false, 1801)]
    ensures "c" in races[4].w.db.commands && races[4].w.db.commands["c"].state == Queued
    ensures "c" in races[4].w.db.approvals && races[4].w.db.approvals["c"].status == ExpiredApproval
  {
    hide Reached, Races.RaceRun;
    var w := Created(true, 0);
    RacesStart(w, "c");
    races, steps := Races.LateExpiryBreaksGate(Races.Race(w, 0, multiset{}, 0, 0), "c", 1800, 1801, None, 1801);
    RaceLength(races, steps);
  }

  /** Every reached world with a command starts a race. */
  lemma RacesStart(w: World, c: CommandId)
    requires Reached(w) && c in w.db.commands
    ensures Races.RaceRun([Races.Race(w, 0, multiset{}, 0, 0)], [], c)
  {
    hide Reached, Base, GatesOk, AllSentOk, ApprovalsOwned, ShelvesOk;
    ReachedOk(w);
  }

  lemma RaceLength(races: seq<Races.Race>, steps: seq<Races.RaceStep>)
    requires Races.RaceRun(races, steps, "c")
    ensures |races| == |steps| + 1
  {
    hide Races.RaceOk, Races.Leads;
  }

  // ---- The emergency stop ----

  /** A creation that was told "inactive" and is overtaken by an activation leaves a queued command under
      an active stop. */
  lemma StopIsOvertaken() returns (races: seq<StopRaces.StopRace>, steps: seq<StopRaces.Step>, call: StopRaces.Call)
    ensures StopRaces.StopRun(races, steps) && Reached(races[0].w) && |races| == 4
    ensures steps == [StopRaces.Test(call, false, 0), StopRaces.Other(ActivateStop("o", "", 1)),
                      StopRaces.Finish(call, 2)]
    ensures var db := races[3].w.db;
            "c" in db.commands && db.commands["c"].state == Queued && OwnsCommand(db, "o", "c") && StopActive(db, "o")
  {
    hide Reached, StopRaces.Leads, StopErasure.Kept;
    var w := Paired();
    call := StopRaces.Creating("c", Sample(false, 3600), "o", Some(Definition("low", false)), true, "n");
    var r := StopRaces.StopRace(w, multiset{});
    ReachedOk(w);
    BaseLinked(w.db);
    StopErasure.WorldIsKept(w);
    var r1, r2, r3 := OvertakingSteps(r, call);
    races := [r, r1, r2, r3];
    steps := [StopRaces.Test(call, false, 0), StopRaces.Other(ActivateStop("o", "", 1)), StopRaces.Finish(call, 2)];
  }

  lemma OvertakingSteps(r: StopRaces.StopRace, call: StopRaces.Call)
    returns (r1: StopRaces.StopRace, r2: StopRaces.StopRace, r3: StopRaces.StopRace)
    requires Linked(r.w.db) && r.w.db.commands == map[] && !StopActive(r.w.db, "o")
    requires OwnsDevice(r.w.db, "o", "d") && r.w.db.devices["d"].trust == Trusted
    requires call == StopRaces.Creating("c", Sample(false, 3600), "o", Some(Definition("low", false)), true, "n")
    ensures StopRaces.Leads(r, StopRaces.Test(call, false, 0), r1)
    ensures StopRaces.Leads(r1, StopRaces.Other(ActivateStop("o", "", 1)), r2)
    ensures StopRaces.Leads(r2, StopRaces.Finish(call, 2), r3)
    ensures var db := r3.w.db;
            "c" in db.commands && db.commands["c"].state == Queued && OwnsCommand(db, "o", "c") && StopActive(db, "o")
  {
    hide Activate, Insert;
    r1 := StopRaces.After(r, StopRaces.Test(call, false, 0));
    ActivateOnNothing(r.w.db);
    r2 := StopRaces.After(r1, StopRaces.Other(ActivateStop("o", "", 1)));
    r3 := StopRaces.After(r2, StopRaces.Finish(call, 2));
    StopRaces.InsertGives(r2.w.db, call, 2);
    OvertakenRow(r2.w.db);
  }

  lemma ActivateOnNothing(db: Db)
    requires Linked(db) && db.commands == map[]
    ensures var after := Activate(db, "o", "", 1);
            && Linked(after) && after.commands == map[] && StopActive(after, "o") && after.devices == db.devices
  {
  }

  lemma OvertakenRow(db: Db)
    requires OwnsDevice(db, "o", "d")
    ensures var after := Insert(db, "c", Sample(false, 3600), "o", Definition("low", false), "n", 2);
            OwnsCommand(after, "o", "c") && after.stops == db.stops
  {
  }

  // ---- Delivery ----

  /** One failed read of the check loses a queued, unexpired command: the delivery of its only message passes no
      other check and finds no stop, yet it acknowledges the message unsent, and nothing will ever be sent. */
  lemma FailedReadLosesCommand() returns (before: World, w: World)
    ensures Reached(before) && Linked(before.db) && |before.broker| == 1 && Gateway.Concerns(before.broker[0], "c")
    ensures before.settled == {} && PreDeliveryCheck(before.db, "c", "d", 0)
    ensures w == Apply(before, GatewayDelivery(0, "d", false, Conditions(false, true, true), 0)) && Reached(w)
    ensures 0 in w.settled && PreDeliveryCheck(w.db, "c", "d", 0) && Gateway.Silent(w, "c") && w.sent == []
    ensures Apply(before, GatewayDelivery(0, "d", false, Conditions(true, true, true), 0)).sent != []
  {
    hide Reached, Base, GatesOk, AllSentOk, ApprovalsOwned, ShelvesOk, BrokerOk;
    var created := Created(false, 3600);
    ReachedOk(created);
    BaseLinked(created.db);
    var e := Requests.AnnouncementOf("c", Sample(false, 3600), "low");
    var hand := Hand(PublishItem(0, Some(false), Acked), 0);
    before := PublishedFrom(created, e, hand);
    ReachedOk(before);
    BaseLinked(before.db);
    w := DroppedFrom(before, e);
    Requests.DeliverGives(before, 0, "c", Sample(false, 3600), "low", Conditions(true, true, true), 0);
  }

  /** A command can be lost while its announcement is pending: a batch hands it over at 0 and dies before the commit,
      a failed read acknowledges the message at 1, and up to its expiry at 100 the broker drops every further copy. */
  lemma DuplicateLosesCommand() returns (before: World, w: World)
    ensures Reached(before) && Linked(before.db) && before.sent == []
    ensures w == Apply(before, GatewayDelivery(0, "d", false, Conditions(false, true, true), 1)) && Reached(w)
    ensures PreDeliveryCheck(w.db, "c", "d", 1) && w.db.commands["c"].expiresAt == Some(100) && w.sent == []
    ensures Delivery.PendingAnnouncement(w, "c") && !Gateway.Silent(w, "c") && !Delivery.Sendable(w, "c", 1)
  {
    hide Reached, Base, GatesOk, AllSentOk, ApprovalsOwned, ShelvesOk, BrokerOk, Delivery.Sendable;
    var created := Created(false, 100);
    var e := Requests.AnnouncementOf("c", Sample(false, 100), "low");
    before := CrashedFrom(created, e);
    w := DroppedUnmarked(before, e);
    ReachedOk(w);
    UnsettledNone(w, e);
    Delivery.SendableIff(w, "c", 1);
  }

  lemma CrashedFrom(before: World, e: OutboxEvent) returns (w: World)
    requires Reached(before) && before.db.outbox == [e] && e.status == PendingEvent && before.broker == []
    requires !StopActive(before.db, "o") && OwnsCommand(before.db, "o", "c")
    requires e.kind == CommandQueued && e.aggregateId == "c"
    ensures Reached(w) && Linked(w.db) && w == before.(broker := [BrokerMessage(0, e.subject, e.payload, 0)])
  {
    hide Reached, PublishBatch, BrokerBatch, PublishOne, HandOver, Base, GatesOk, AllSentOk, ApprovalsOwned, ShelvesOk;
    ReachedOk(before);
    BaseLinked(before.db);
    var hand := Hand(PublishItem(0, Some(false), Acked), 0);
    var a := PublisherBatch([hand], true, 0);
    assert HandAsked(before, hand);
    ReachedStep(before, a);
    w := Apply(before, a);
    Requests.BatchOfOne(before.broker, before.db, hand, 0);
    Requests.PublishGives(before.db, [], before.broker, e, hand, 0);
  }

  lemma DroppedUnmarked(before: World, e: OutboxEvent) returns (w: World)
    requires Reached(before) && Linked(before.db) && before.db.outbox == [e]
    requires before.settled == {} && before.sent == []
    requires e == Requests.AnnouncementOf("c", Sample(false, 100), "low")
    requires before.broker == [BrokerMessage(0, e.subject, e.payload, 0)]
    requires OwnsDevice(before.db, "o", "d") && !StopActive(before.db, "o")
    ensures Reached(w) && w == Apply(before, GatewayDelivery(0, "d", false, Conditions(false, true, true), 1))
    ensures w == before.(settled := {0})
  {
    hide Reached, PreDeliveryCheck;
    var a := GatewayDelivery(0, "d", false, Conditions(false, true, true), 1);
    ReachedStep(before, a);
    w := Apply(before, a);
  }

  lemma UnsettledNone(w: World, e: OutboxEvent)
    requires w.db.outbox == [e] && e == Requests.AnnouncementOf("c", Sample(false, 100), "low")
    requires w.broker == [BrokerMessage(0, e.subject, e.payload, 0)] && w.settled == {0}
    ensures !Delivery.OpenMessage(w, "c") && Delivery.PendingAnnouncement(w, "c")
    ensures !Delivery.WindowOver(w, "c", 100) && !Gateway.Silent(w, "c")
  {
    assert AnnouncesCommand(w.db.outbox[0], "c");
    assert Gateway.Concerns(w.broker[0], "c");
  }

  /** Four hand-overs that the broker does not store lose a command too: its announcement is given up. */
  lemma FailedAnnouncementLosesCommand() returns (w: World)
    ensures Reached(w) && w.broker == [] && w.sent == []
    ensures PreDeliveryCheck(w.db, "c", "d", 0) && Gateway.Silent(w, "c")
  {
    hide Reached, Base, GatesOk, AllSentOk, ApprovalsOwned, ShelvesOk, BrokerOk;
    var created := Created(false, 3600);
    ReachedOk(created);
    BaseLinked(created.db);
    w := HandedOverInVain(created, 4);
    assert AnnouncesCommand(w.db.outbox[0], "c");
  }

  /** The announcement after n hand-overs in vain. */
  function InVain(n: nat): OutboxEvent {
    var e := Requests.AnnouncementOf("c", Sample(false, 3600), "low");
    if n <= 3 then e.(attempts := n) else e.(attempts := 3, status := FailedEvent)
  }

  lemma {:induction false} HandedOverInVain(created: World, n: nat) returns (w: World)
    requires n <= 4 && Reached(created) && Linked(created.db) && created.db.outbox == [InVain(0)]
    requires created.broker == [] && !StopActive(created.db, "o") && created.sent == [] && created.settled == {}
    requires OwnsCommand(created.db, "o", "c")
    ensures Reached(w) && w == created.(db := created.db.(outbox := [InVain(n)]))
  {
    hide Reached;
    if n == 0 {
      w := created;
    } else {
      var before := HandedOverInVain(created, n - 1);
      w := OnceMoreInVain(before, n - 1);
    }
  }

  lemma OnceMoreInVain(before: World, n: nat) returns (w: World)
    requires n <= 3 && Reached(before) && Linked(before.db) && before.db.outbox == [InVain(n)]
    requires before.broker == [] && !StopActive(before.db, "o") && OwnsCommand(before.db, "o", "c")
    ensures Reached(w) && w == before.(db := before.db.(outbox := [InVain(n + 1)]))
  {
    hide Reached, PublishBatch, BrokerBatch, Linked;
    var hand := Hand(PublishItem(0, Some(false), NotStored), 0);
    var a := PublisherBatch([hand], false, 0);
    assert HandAsked(before, hand);
    ReachedStep(before, a);
    w := Apply(before, a);
    Requests.BatchOfOne(before.broker, before.db, hand, 0);
    assert [InVain(n)][0 := InVain(n + 1)] == [InVain(n + 1)];
  }

  lemma PublishedFrom(before: World, e: OutboxEvent, hand: Hand) returns (w: World)
    requires Reached(before) && Linked(before.db) && before.db.outbox == [e] && e.status == PendingEvent
    requires before.broker == [] && !StopActive(before.db, "o") && before.settled == {} && before.sent == []
    requires "c" in before.db.commands && e.kind == CommandQueued && e.aggregateId == "c"
    requires OwnsCommand(before.db, "o", "c")
    requires hand == Hand(PublishItem(0, Some(false), Acked), 0)
    ensures Reached(w) && w.db.commands == before.db.commands && w.db.devices == before.db.devices
    ensures w.db.stops == before.db.stops
    ensures w.db.outbox == [e.(status := PublishedEvent)] && w.settled == {} && w.sent == []
    ensures w.broker == [BrokerMessage(0, e.subject, e.payload, 0)]
  {
    hide Reached, PublishBatch, BrokerBatch, Linked, PublishOne, HandOver;
    var a := PublisherBatch([hand], false, 0);
    assert HandAsked(before, hand);
    ReachedStep(before, a);
    w := Apply(before, a);
    Requests.BatchOfOne(before.broker, before.db, hand, 0);
    Requests.PublishGives(before.db, [], before.broker, e, hand, 0);
  }

  lemma DroppedFrom(before: World, e: OutboxEvent) returns (w: World)
    requires Reached(before) && e == Requests.AnnouncementOf("c", Sample(false, 3600), "low")
    requires before.db.outbox == [e.(status := PublishedEvent)]
    requires before.broker == [BrokerMessage(0, e.subject, e.payload, 0)]
    requires before.settled == {} && before.sent == [] && OwnsDevice(before.db, "o", "d") && !StopActive(before.db, "o")
    requires PreDeliveryCheck(before.db, "c", "d", 0)
    ensures Linked(before.db) && w == Apply(before, GatewayDelivery(0, "d", false, Conditions(false, true, true), 0))
    ensures 0 in w.settled
    ensures Reached(w) && PreDeliveryCheck(w.db, "c", "d", 0) && Gateway.Silent(w, "c") && w.sent == []
  {
    hide Reached, PreDeliveryCheck;
    var a := GatewayDelivery(0, "d", false, Conditions(false, true, true), 0);
    ReachedStep(before, a);
    w := Apply(before, a);
    assert AnnouncesCommand(w.db.outbox[0], "c");
  }

  // ---- At-most-once ----

  /** A succeeded command's result is rewritten, with whatever data, by a report that spells the command's id
      in another way. */
  lemma ResultIsRewritten(data: Option<Json>) returns (w: World, m: Message, after: World)
    ensures Reached(w) && "c" in w.db.commands && w.db.commands["c"].state == Succeeded
    ensures w.db.commands["c"].resultData == FIRST_RESULT
    ensures m.ResultMessage? && m.id == Some("c") && m.idText != m.id.value
    ensures Linked(w.db) && after == Apply(w, HandleMessage(m, 0)) && Reached(after)
    ensures "c" in after.db.commands && after.db.commands["c"].state == Succeeded
    ensures after.db.commands["c"].resultData == data
  {
    hide Reached, DossierOk, Base, GatesOk, AllSentOk, ApprovalsOwned, ShelvesOk, Consume, AtMostOnce.TextsAre;
    w := StageReached(4);
    m := ResultMessage("C", Some("c"), None, true, data, None, None);
    ReachedOk(w);
    BaseLinked(w.db);
    BaseRow(w.db, "c");
    ReachedStep(w, HandleMessage(m, 0));
    after := Apply(w, HandleMessage(m, 0));
    NewSpelling(w.db, m);
  }

  lemma NewSpelling(db: Db, m: Message)
    requires Linked(db) && "c" in db.commands && DossierOk(DossierOf(db, "c")) && db.commands["c"].state == Succeeded
    requires AtMostOnce.TextsAre(db.log["c"], "c") && m.ResultMessage? && m.success && m.device.None?
    requires m.id == Some("c") && m.idText == "C"
    ensures var after := Consume(db, m, 0);
            "c" in after.commands && after.commands["c"].state == Succeeded && after.commands["c"].resultData == m.data
  {
    hide DossierOk, Consume, OnMessage;
    var d := DossierOf(db, "c");
    assert !Duplicate(d.log, DedupKey(Result, m.idText));
    AtMostOnce.SuccessRepeatsIffNewSpelling(d, m, 0);
    SuccessStays(d, m);
    ConsumeReads(db, Arrival(m, 0));
    assert DossierOf(Consume(db, m, 0), "c").cmd.resultData == m.data;
  }

  lemma SuccessStays(d: Dossier, m: Message)
    requires m.ResultMessage? && m.success && d.cmd.state == Succeeded
    ensures OnMessage(d, m, 0) == OnResult(d, m, 0) && OnResult(d, m, 0).cmd.state == Succeeded
  {
  }

  // ---- The scheduler ----

  function Name(i: nat): string {
    seq(i + 1, _ => 'c')
  }

  function Names(n: nat): set<CommandId> {
    set i | 0 <= i < n :: Name(i)
  }

  lemma {:induction false} NamesCounted(n: nat)
    ensures |Names(n)| == n && Name(n) !in Names(n)
  {
    forall i | 0 <= i < n
      ensures Name(i) != Name(n)
    {
      assert |Name(i)| == i + 1 && |Name(n)| == n + 1;
    }
    if n > 0 {
      NamesCounted(n - 1);
      assert Names(n) == Names(n - 1) + {Name(n - 1)};
    }
  }

  function Nth(n: nat): Request {
    Request("d", "t", "{}", Name(n), false, Some(0))
  }

  /** The world holds n commands, all delivered and with an expiry at time 0. */
  ghost predicate Crowd(w: World, n: nat) {
    && Reached(w) && !StopActive(w.db, "o") && OwnsDevice(w.db, "o", "d") && w.db.devices["d"].trust == Trusted
    && w.db.commands.Keys == Names(n)
    && forall i :: 0 <= i < n ==> DeliveredAs(w.db, i)
  }

  predicate DeliveredAs(db: Db, i: nat) {
    && Name(i) in db.commands && db.commands[Name(i)].state == Delivered
    && db.commands[Name(i)].expiresAt == Some(0) && db.commands[Name(i)].key == Name(i)
  }

  /** One more command, queued. */
  lemma CrowdCreates(w: World, n: nat) returns (after: World)
    requires Crowd(w, n)
    ensures Reached(after) && Linked(after.db) && !StopActive(after.db, "o") && Name(n) in after.db.commands
    ensures after.db.devices == w.db.devices
    ensures after.db.commands == w.db.commands[Name(n) := after.db.commands[Name(n)]]
    ensures var cmd := after.db.commands[Name(n)];
            cmd.state == Queued && cmd.expiresAt == Some(0) && cmd.key == Name(n) && cmd.device == "d"
  {
    hide Reached, Create, Names, Name;
    ReachedOk(w);
    BaseLinked(w.db);
    NamesCounted(n);
    NewKey(w.db, n);
    after := CreatedIn(w, Name(n), Nth(n));
    Requests.CreateGives(w.db, Name(n), Nth(n), "o", Definition("low", false), "n", 0);
    ReachedOk(after);
    BaseLinked(after.db);
  }

  lemma NewKey(db: Db, n: nat)
    requires db.commands.Keys == Names(n) && forall i :: 0 <= i < n ==> DeliveredAs(db, i)
    ensures !KeyTaken(db, "d", Name(n))
  {
    forall c | c in db.commands
      ensures db.commands[c].key != Name(n)
    {
      assert c in Names(n);
      var i :| 0 <= i < n && c == Name(i);
      assert DeliveredAs(db, i);
      assert |Name(i)| == i + 1 && |Name(n)| == n + 1;
    }
  }

  lemma {:induction false} CrowdReached(n: nat) returns (w: World)
    ensures Crowd(w, n)
  {
    if n == 0 {
      w := Paired();
    } else {
      var before := CrowdReached(n - 1);
      var queued := CrowdCreates(before, n - 1);
      w := CrowdDelivers(before, queued, n - 1);
    }
  }

  lemma CrowdDelivers(before: World, queued: World, n: nat) returns (w: World)
    requires Crowd(before, n) && Reached(queued) && Linked(queued.db) && !StopActive(queued.db, "o")
    requires Name(n) in queued.db.commands && queued.db.devices == before.db.devices
    requires queued.db.commands == before.db.commands[Name(n) := queued.db.commands[Name(n)]]
    requires var cmd := queued.db.commands[Name(n)];
             cmd.state == Queued && cmd.expiresAt == Some(0) && cmd.key == Name(n) && cmd.device == "d"
    ensures Crowd(w, n + 1)
  {
    hide Reached, Base, GatesOk, AllSentOk, ApprovalsOwned, ShelvesOk, Consume, Names, Name, StopActive, DeliveredAs;
    var c := Name(n);
    var m := DeliveredMessage(c, Some(c), None);
    ReachedOk(queued);
    ReachedStep(queued, HandleMessage(m, 0));
    w := Apply(queued, HandleMessage(m, 0));
    ApplyRows(queued, HandleMessage(m, 0), "o");
    ConsumeTables(queued.db, m);
    NamesGrow(n);
    CrowdStays(before.db, queued.db, m, n);
  }

  lemma CrowdStays(before: Db, queued: Db, m: Message, n: nat)
    requires before.commands.Keys == Names(n) && (forall i :: 0 <= i < n ==> DeliveredAs(before, i))
    requires Base(queued) && Name(n) in queued.commands
    requires queued.commands == before.commands[Name(n) := queued.commands[Name(n)]]
    requires var cmd := queued.commands[Name(n)]; cmd.state == Queued && cmd.expiresAt == Some(0) && cmd.key == Name(n)
    requires m == DeliveredMessage(Name(n), Some(Name(n)), None)
    ensures Linked(queued) && forall i :: 0 <= i < n + 1 ==> DeliveredAs(Consume(queued, m, 0), i)
  {
    hide Base, Consume, Names, Name;
    BaseLinked(queued);
    DeliveryMoves(queued, m, Name(n));
    NamesCounted(n);
    forall i | 0 <= i < n + 1
      ensures DeliveredAs(Consume(queued, m, 0), i)
    {
      if i < n {
        assert DeliveredAs(before, i);
        NameIn(i, n);
        OthersStay(queued, m, Name(i));
      }
    }
  }

  lemma NamesGrow(n: nat)
    ensures Names(n + 1) == Names(n) + {Name(n)}
  {
  }

  lemma NameIn(i: nat, n: nat)
    requires i < n
    ensures Name(i) in Names(n)
  {
  }

  lemma ConsumeTables(db: Db, m: Message)
    requires Linked(db)
    ensures Consume(db, m, 0).devices == db.devices && Consume(db, m, 0).commands.Keys == db.commands.Keys
  {
    hide OnMessage;
  }

  lemma DeliveryMoves(db: Db, m: Message, c: CommandId)
    requires Base(db) && c in db.commands && db.commands[c].state == Queued && m == DeliveredMessage(c, Some(c), None)
    ensures var after := Consume(db, m, 0);
            && c in after.commands && after.commands[c].state == Delivered
            && SameColumns(db.commands[c], after.commands[c])
  {
    hide Base, Consume, OnMessage;
    BaseLinked(db);
    OneArrival(db, Arrival(m, 0), c, 0);
    ConsumeReads(db, Arrival(m, 0));
    SameColumnsOnMessage(DossierOf(db, c), m, 0);
    assert DossierOf(Consume(db, m, 0), c).cmd == Consume(db, m, 0).commands[c];
  }

  lemma OthersStay(db: Db, m: Message, x: CommandId)
    requires Linked(db) && x in db.commands && m.id != Some(x)
    ensures var after := Consume(db, m, 0); x in after.commands && after.commands[x] == db.commands[x]
  {
    hide OnMessage;
  }

  /** A hundred overdue delivered commands and one that could expire: a full pass that expires nothing. */
  lemma SchedulerStarves() returns (w: World, ids: set<CommandId>)
    ensures Reached(w) && Enabled(w, SchedulerPass(ids, 1)) && Scheduler.Selection(w.db, ids, 1) && Linked(w.db)
    ensures Scheduler.Expirable(w.db, 1) != {}
    ensures Scheduler.Expirable(RunTasks(w.db, ids, 1), 1) == Scheduler.Expirable(w.db, 1)
  {
    hide Reached, Base, GatesOk, AllSentOk, ApprovalsOwned, ShelvesOk, Names, Name, RunTasks;
    var crowd := CrowdReached(100);
    w := CrowdCreates(crowd, 100);
    ReachedOk(w);
    HundredStuck(crowd.db, w.db);
    Scheduler.StarvationIff(w.db, 1);
    ids :| Scheduler.Selection(w.db, ids, 1)
           && Scheduler.Expirable(RunTasks(w.db, ids, 1), 1) == Scheduler.Expirable(w.db, 1);
  }

  lemma HundredStuck(before: Db, db: Db)
    requires before.commands.Keys == Names(100) && forall i :: 0 <= i < 100 ==> DeliveredAs(before, i)
    requires Name(100) in db.commands && db.commands == before.commands[Name(100) := db.commands[Name(100)]]
    requires db.commands[Name(100)].state == Queued && db.commands[Name(100)].expiresAt == Some(0)
    ensures Name(100) in Scheduler.Expirable(db, 1) && |Scheduler.StuckDelivered(db, 1)| >= 100
  {
    NamesCounted(100);
    hide Name;
    forall c | c in Names(100)
      ensures c in Scheduler.StuckDelivered(db, 1)
    {
      var i :| 0 <= i < 100 && c == Name(i);
      assert DeliveredAs(before, i);
    }
    Cardinality(Names(100), Scheduler.StuckDelivered(db, 1));
  }
}
