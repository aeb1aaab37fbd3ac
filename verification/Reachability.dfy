/** Which states a committed command can be in: for each of them there is a run that gets there. */
module Reachability {
  import opened Options
  import opened CommandStates
  import opened Tables
  import opened Lifecycle
  import opened Store
  import opened Operations
  import opened Pipeline
  import opened PipelineProofs
  import opened Guarantees
  import opened MessageOrder
  import AtMostOnce
  import Requests

  /** Some run ends in this world. */
  ghost predicate Reached(w: World) {
    exists worlds, actions :: Run(worlds, actions) && worlds[|worlds| - 1] == w
  }

  /** Some run ends with a command in this state. */
  ghost predicate Reachable(s: CommandState) {
    exists w, c :: Reached(w) && c in w.db.commands && w.db.commands[c].state == s
  }

  lemma ReachedOk(w: World)
    requires Reached(w)
    ensures WorldOk(w)
  {
    hide WorldOk, Apply, Enabled;
    var worlds, actions :| Run(worlds, actions) && worlds[|worlds| - 1] == w;
    RunKeepsInvariant(worlds, actions, |worlds| - 1);
  }

  lemma ReachedEmpty()
    ensures Reached(EMPTY)
  {
    var actions: seq<Action> := [];
    assert Run([EMPTY], actions);
    assert [EMPTY][|[EMPTY]| - 1] == EMPTY;
  }

  lemma ReachedStep(w: World, a: Action)
    requires Reached(w) && Enabled(w, a)
    ensures Linked(w.db) && Reached(Apply(w, a))
  {
    hide Apply, Enabled;
    ReachedOk(w);
    var worlds, actions :| Run(worlds, actions) && worlds[|worlds| - 1] == w;
    var longer, more := worlds + [Apply(w, a)], actions + [a];
    forall i | 0 <= i < |more|
      ensures Linked(longer[i].db) && Enabled(longer[i], more[i]) && longer[i + 1] == Apply(longer[i], more[i])
    {
      if i < |actions| {
        assert Enabled(worlds[i], actions[i]);
      }
    }
    assert Run(longer, more) && longer[|longer| - 1] == Apply(w, a);
  }

  // ---- A first command ----

  function Sample(approval: bool, expiresAt: int): Request {
    Request("d", "t", "{}", "k", approval, Some(expiresAt))
  }

  lemma Paired() returns (w: World)
    ensures Reached(w) && w.db.commands == map[] && w.db.outbox == [] && !StopActive(w.db, "o")
    ensures w.broker == [] && w.sent == [] && w.settled == {}
    ensures OwnsDevice(w.db, "o", "d") && w.db.devices["d"].trust == Trusted
  {
    ReachedEmpty();
    ReachedStep(EMPTY, PairDevice("d", "o"));
    w := Apply(EMPTY, PairDevice("d", "o"));
  }

  /** A new command waits for its approval or is queued, depending on the request. */
  lemma Created(approval: bool, expiresAt: int) returns (w: World)
    ensures Reached(w) && "c" in w.db.commands && OwnsCommand(w.db, "o", "c") && !StopActive(w.db, "o")
    ensures w.db.commands["c"].state == (if approval then AwaitingApproval else Queued)
    ensures w.db.commands["c"].device == "d" && w.db.commands["c"].expiresAt == Some(expiresAt)
    ensures "c" in w.db.log && AtMostOnce.TextsAre(w.db.log["c"], "c")
    ensures w.broker == [] && w.sent == [] && w.settled == {}
    ensures approval ==>
              && "c" in w.db.approvals && w.db.approvals["c"].status == PendingApproval
              && w.db.approvals["c"].owner == "o" && w.db.approvals["c"].nonceHash == "n"
              && w.db.approvals["c"].expiresAt == 1800
    ensures !approval ==> w.db.outbox == [Requests.AnnouncementOf("c", Sample(false, expiresAt), "low")]
  {
    hide Reached;
    var before := Paired();
    var r := Sample(approval, expiresAt);
    ReachedOk(before);
    BaseLinked(before.db);
    w := CreatedIn(before, "c", r);
    Requests.CreateGives(before.db, "c", r, "o", Definition("low", false), "n", 0);
    NewTexts(before.db, "c", r);
  }

  /** Any further request for the device, with a fresh id and key and no stop, can be created. */
  lemma CreatedIn(before: World, c: CommandId, r: Request) returns (w: World)
    requires Reached(before) && Linked(before.db) && c !in before.db.commands && !StopActive(before.db, "o")
    requires Creatable(before.db, r, "o", false, Some(Definition("low", false)), true)
    ensures Reached(w)
    ensures w == before.(db := Create(before.db, c, r, "o", false, Some(Definition("low", false)), true, "n", 0))
  {
    hide Reached, Create, Linked, Creatable, StopActive;
    var a := CreateCommand(c, r, "o", false, Some(Definition("low", false)), true, "n", 0);
    ReachedStep(before, a);
    w := Apply(before, a);
  }

  lemma NewTexts(db: Db, c: CommandId, r: Request)
    requires Creatable(db, r, "o", false, Some(Definition("low", false)), true)
    ensures var after := Create(db, c, r, "o", false, Some(Definition("low", false)), true, "n", 0);
            c in after.log && AtMostOnce.TextsAre(after.log[c], c)
  {
  }

  // ---- The other states, one step each ----

  lemma RejectedReached()
    ensures Reachable(Rejected)
  {
    hide Reached, Decide, Base, GatesOk, AllSentOk, ApprovalsOwned, ShelvesOk, StopActive;
    var w := Created(true, 0);
    ReachedOk(w);
    BaseLinked(w.db);
    ReachedStep(w, DecideApproval("c", "o", false, "n", None, false, 0));
    Requests.DecideGives(w.db, "c", "o", false, "n", None, 0);
  }

  lemma CancelledReached()
    ensures Reachable(Cancelled)
  {
    hide Reached, Cancel, Base, GatesOk, AllSentOk, ApprovalsOwned, ShelvesOk;
    var w := Created(false, 0);
    ReachedOk(w);
    BaseLinked(w.db);
    ReachedStep(w, CancelCommand("c", "o", 0));
    CancelMoves(w.db);
  }

  lemma CancelMoves(db: Db)
    requires Linked(db) && OwnsCommand(db, "o", "c") && db.commands["c"].state == Queued
    ensures var after := Cancel(db, "c", "o", 0); "c" in after.commands && after.commands["c"].state == Cancelled
  {
  }

  lemma BlockedReached()
    ensures Reachable(Blocked)
  {
    hide Reached, Activate;
    var w := Created(false, 0);
    var a := ActivateStop("o", "", 0);
    ReachedStep(w, a);
    assert "c" in ToBlock(w.db, "o");
    ActivateBlocks(w.db, "o", "", 0, "c");
  }

  lemma ExpiredReached()
    ensures Reachable(Expired)
  {
    hide Reached, Apply;
    var w := Created(false, 0);
    var a := SchedulerPass({"c"}, 1);
    ReachedStep(w, a);
    ExpireGives(w);
  }

  lemma ExpireGives(w: World)
    requires Linked(w.db) && "c" in w.db.commands && w.db.commands["c"].state == Queued
    ensures var after := Apply(w, SchedulerPass({"c"}, 1)).db;
            "c" in after.commands && after.commands["c"].state == Expired
  {
    hide OnExpire;
    var mid := ExpireApprovals(w.db, 1);
    assert OnExpire(DossierOf(mid, "c"), 1).cmd.state == Expired by {
      ExpireMoves(DossierOf(mid, "c"));
    }
  }

  lemma ExpireMoves(d: Dossier)
    requires d.cmd.state == Queued
    ensures OnExpire(d, 1).cmd.state == Expired
  {
  }

  // ---- Along the lifecycle messages ----

  const FIRST_RESULT: Option<Json> := Some("{}")

  function StageMessage(k: nat): Message {
    match k
    case 0 => DeliveredMessage("c", Some("c"), None)
    case 1 => AckMessage("c", Some("c"), None, true, None)
    case 2 => ProgressMessage("c", Some("c"))
    case _ => ResultMessage("c", Some("c"), None, true, FIRST_RESULT, None, None)
  }

  lemma {:induction false} StageReached(k: nat) returns (w: World)
    requires k <= 4
    ensures Reached(w) && "c" in w.db.commands && w.db.commands["c"].state == StateAfter(k)
    ensures "c" in w.db.log && AtMostOnce.TextsAre(w.db.log["c"], "c")
    ensures k == 4 ==> w.db.commands["c"].resultData == FIRST_RESULT
  {
    hide Reached, Base, Consume, AtMostOnce.TextsAre, GatesOk, AllSentOk, ApprovalsOwned, ShelvesOk;
    if k == 0 {
      w := Created(false, 0);
    } else {
      var before := StageReached(k - 1);
      var a := HandleMessage(StageMessage(k - 1), 0);
      ReachedOk(before);
      ReachedStep(before, a);
      w := Apply(before, a);
      OneArrival(before.db, Arrival(StageMessage(k - 1), 0), "c", k - 1);
      BaseLinked(before.db);
      StageTexts(before.db, StageMessage(k - 1));
      if k == 4 {
        FirstResult(before.db);
      }
    }
  }

  lemma FirstResult(db: Db)
    requires Base(db) && "c" in db.commands && db.commands["c"].state == Running
    ensures var after := Consume(db, StageMessage(3), 0);
            "c" in after.commands && after.commands["c"].resultData == FIRST_RESULT
  {
    hide Base, Consume, OnMessage, DossierOk;
    BaseLinked(db);
    BaseRow(db, "c");
    ResultStored(DossierOf(db, "c"));
    ConsumeReads(db, Arrival(StageMessage(3), 0));
    assert DossierOf(Consume(db, StageMessage(3), 0), "c").cmd.resultData == FIRST_RESULT;
  }

  lemma ResultStored(d: Dossier)
    requires DossierOk(d) && d.cmd.state == Running
    ensures OnMessage(d, StageMessage(3), 0).cmd.resultData == FIRST_RESULT
  {
    hide DossierOk;
    NextKeyIsNew(d, StageMessage(3));
  }

  lemma StageTexts(db: Db, m: Message)
    requires Linked(db) && "c" in db.commands && AtMostOnce.TextsAre(db.log["c"], "c") && m.id == Some("c")
    requires m.idText == "c"
    ensures var after := Consume(db, m, 0); "c" in after.log && AtMostOnce.TextsAre(after.log["c"], "c")
  {
    hide OnMessage, AtMostOnce.TextsAre;
    AtMostOnce.TextsMessage(DossierOf(db, "c"), m, 0);
  }

  lemma FailedReached()
    ensures Reachable(Failed)
  {
    hide Reached, DossierOk, Consume, RowsMatch, KeysUnique, EventsOk, StopsRespected, GatesOk, AllSentOk,
         ApprovalsOwned;
    var w := StageReached(3);
    ReachedOk(w);
    ReachedStep(w, HandleMessage(Failure(), 0));
    FailureStep(w.db);
  }

  function Failure(): Message {
    ResultMessage("c", Some("c"), None, false, None, None, None)
  }

  lemma FailureStep(db: Db)
    requires Linked(db) && "c" in db.commands && db.commands["c"].state == Running && DossierOk(DossierOf(db, "c"))
    ensures var after := Consume(db, Failure(), 0); "c" in after.commands && after.commands["c"].state == Failed
  {
    hide DossierOk, Consume, OnMessage;
    FailureGives(DossierOf(db, "c"), Failure());
    ConsumeReads(db, Arrival(Failure(), 0));
    assert DossierOf(Consume(db, Failure(), 0), "c").cmd.state == Failed;
  }

  lemma FailureGives(d: Dossier, m: Message)
    requires DossierOk(d) && d.cmd.state == Running && m.ResultMessage? && !m.success && m.device.None? && m.code.None?
    ensures OnMessage(d, m, 0).cmd.state == Failed
  {
    hide DossierOk;
    NextKeyIsNew(d, m);
  }

  lemma StageIsReachable(k: nat)
    requires k <= 4
    ensures Reachable(StateAfter(k))
  {
    hide Reached;
    var w := StageReached(k);
  }

  lemma WaitingReached()
    ensures Reachable(AwaitingApproval)
  {
    hide Reached;
    var w := Created(true, 0);
  }

  /** A committed command can be in a state if and only if it is not one of the four that only exist
      inside a transaction or are never entered. */
  lemma ReachableIffSettled(s: CommandState)
    ensures Reachable(s) <==> Settled(s)
  {
    hide Reached;
    if Reachable(s) {
      var w, c :| Reached(w) && c in w.db.commands && w.db.commands[c].state == s;
      ReachedSettled(w, c);
    }
    hide Reachable;
    match s
    case AwaitingApproval => WaitingReached();
    case Rejected => RejectedReached();
    case Cancelled => CancelledReached();
    case Blocked => BlockedReached();
    case Expired => ExpiredReached();
    case Failed => FailedReached();
    case Queued => StageIsReachable(0);
    case Delivered => StageIsReachable(1);
    case Acknowledged => StageIsReachable(2);
    case Running => StageIsReachable(3);
    case Succeeded => StageIsReachable(4);
    case _ =>
  }

  lemma ReachedSettled(w: World, c: CommandId)
    requires Reached(w) && c in w.db.commands
    ensures Settled(w.db.commands[c].state)
  {
    hide Reached, DossiersOk, GatesOk, RowsMatch, KeysUnique, EventsOk, StopsRespected, AllSentOk, ApprovalsOwned;
    ReachedOk(w);
    SettledRow(w.db, c);
  }
}
