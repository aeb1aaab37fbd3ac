/** Calls that ask the emergency-stop service first and commit later, with anything in between. */
module StopRaces {
  import opened Options
  import opened CommandStates
  import opened Tables
  import opened Lifecycle
  import opened LifecycleProofs
  import opened Store
  import opened Operations
  import opened OperationProofs
  import opened Pipeline
  import opened PipelineProofs
  import opened StopErasure
  import Broker
  import Guarantees
  import StopCache

  /** The two calls that queue commands. */
  datatype Call =
    | Creating(c: CommandId, request: Request, owner: OwnerId, definition: Option<Definition>, schemaOk: bool,
               nonceHash: string)
    | Approving(c: CommandId, owner: OwnerId, note: Option<string>)

  /** The pipeline, and the calls that were told "inactive" and have not finished. */
  datatype StopRace = StopRace(w: World, told: multiset<Call>)

  datatype Step =
    | Test(call: Call, seen: bool, now: int)
    | Finish(call: Call, now: int)
    | Other(a: Action)

  ghost predicate StepEnabled(r: StopRace, s: Step) {
    match s
    case Test(call, seen, now) =>
      && Asked(r.w, call.owner, seen, now)
      && (call.Creating? ==>
            OwnsDevice(r.w.db, call.owner, call.request.device) && r.w.db.devices[call.request.device].trust == Trusted)
    case Finish(call, _) =>
      && call in r.told
      && (if call.Creating? then call.c !in r.w.db.commands && OwnsDevice(r.w.db, call.owner, call.request.device)
          else call.c in r.w.db.approvals && r.w.db.approvals[call.c].owner == call.owner)
    case Other(a) => Enabled(r.w, a)
  }

  /** What a call that was told "inactive" commits. */
  function Committed(db: Db, call: Call, now: int): Db
    requires Linked(db) && (call.Approving? ==> call.c in db.approvals)
  {
    match call
    case Creating(c, r, owner, definition, schemaOk, nonceHash) =>
      if KeyTaken(db, r.device, r.key) || definition.None? || !schemaOk then db
      else Insert(db, c, r, owner, definition.value, nonceHash, now)
    case Approving(c, _, note) => FinishDecision(db, c, true, note, false, now)
  }

  /** The commit leaves a queued command behind. */
  predicate Queues(db: Db, call: Call)
    requires call.Approving? ==> call.c in db.commands
  {
    match call
    case Creating(c, r, _, definition, schemaOk, _) =>
      !KeyTaken(db, r.device, r.key) && definition.Some? && schemaOk && !NeedsApproval(r, definition.value)
    case Approving(c, _, _) => Accepts(db.commands[c].state, Approved)
  }

  function After(r: StopRace, s: Step): StopRace
    requires Linked(r.w.db) && (s.Finish? && s.call.Approving? ==> s.call.c in r.w.db.approvals)
  {
    match s
    case Test(call, seen, _) => if seen then r else r.(told := r.told + multiset{call})
    case Finish(call, now) => StopRace(r.w.(db := Committed(r.w.db, call, now)), r.told - multiset{call})
    case Other(a) => r.(w := Apply(r.w, a))
  }

  /** A test and its commit with nothing in between are the atomic call. */
  lemma CallIsTestThenFinish(db: Db, call: Call, nonceHash: string, now: int)
    requires Linked(db)
    requires call.Creating? ==> OwnsDevice(db, call.owner, call.request.device)
                                && db.devices[call.request.device].trust == Trusted
    requires call.Approving? ==> Undecided(db, call.c, call.owner) && now <= db.approvals[call.c].expiresAt
                                 && nonceHash == db.approvals[call.c].nonceHash
    ensures Committed(db, call, now) ==
            match call
            case Creating(c, r, owner, definition, schemaOk, nonce) =>
              Create(db, c, r, owner, false, definition, schemaOk, nonce, now)
            case Approving(c, owner, note) => Decide(db, c, owner, true, nonceHash, note, false, now)
  {
    hide Insert, FinishDecision, KeyTaken;
  }

  // ---- Violations of the stop rule ----

  /** A queued command whose owner's stop is active. */
  predicate Violation(db: Db, c: CommandId) {
    && c in db.commands && db.commands[c].device in db.devices && db.commands[c].state == Queued
    && StopActive(db, db.devices[db.commands[c].device].owner)
  }

  lemma RespectedIffNone(db: Db)
    requires Linked(db)
    ensures StopsRespected(db) <==> forall c :: !Violation(db, c)
  {
    if StopsRespected(db) {
      forall c
        ensures !Violation(db, c)
      {
        assert c in db.commands && db.commands[c].state == Queued ==> !CommandStopped(db, c);
      }
    }
    forall c | c in db.commands && db.commands[c].state == Queued && CommandStopped(db, c)
      ensures Violation(db, c)
    {
    }
  }

  /** Without a new announcement, what is queued was queued. */
  lemma WasQueued(a: Db, b: Db, c: CommandId)
    requires Linked(a) && Linked(b) && Base(Erased(a)) && Base(Erased(b)) && Extends(a, b) && c in a.commands
    requires c in b.commands && b.commands[c].state == Queued
    requires QueuedRows(b.outbox, c) == QueuedRows(a.outbox, c)
    ensures a.commands[c].state == Queued
    ensures b.commands[c].device == a.commands[c].device && a.commands[c].device in a.devices
    ensures a.commands[c].device in b.devices
    ensures b.devices[a.commands[c].device].owner == a.devices[a.commands[c].device].owner
  {
    hide DossierOk, CountInto, QueuedRows, KeysUnique, EventsOk, StopsRespected, OutboxExtends, Rank;
    var d, e := DossierOf(a, c), DossierOf(b, c);
    assert d == DossierOf(Erased(a), c) && e == DossierOf(Erased(b), c);
    BaseRow(Erased(a), c);
    BaseRow(Erased(b), c);
    QueuedIsCounted(e);
    assert CountInto(d.log, Queued) == |QueuedRows(a.outbox, c)| == CountInto(e.log, Queued);
    RankOnceQueued(d);
    HistoryStays(d, e);
    OnlyQueuedRanksSo(d.cmd.state);
  }

  /** Only creations and decisions announce commands. */
  lemma SameAnnounced(w: World, a: Action, c: CommandId)
    requires Linked(w.db) && !a.CreateCommand? && !a.DecideApproval? && Extends(w.db, Apply(w, a).db)
    ensures QueuedRows(Apply(w, a).db.outbox, c) == QueuedRows(w.db.outbox, c)
  {
    hide OnMessage, OnCancel, OnBlock, OnExpire, Linked, Broker.PublishBatch, Broker.BrokerBatch, EventContinues,
         Continues, QueuedRows, Deliver;
    if a.PublisherBatch? {
      Broker.PublishBatchLength(w.db, a.hands, a.now);
    }
    if a.GatewayDelivery? {
      DeliverShelves(w, a.k, a.device, a.seen, a.on, a.now);
    }
    SameAnnouncements(w.db.outbox, Apply(w, a).db.outbox, c);
  }

  /** No step of the pipeline, with its calls atomic, makes a violation. */
  lemma NoNewViolation(w: World, a: Action, c: CommandId)
    requires Kept(w) && Enabled(w, a) && Violation(Apply(w, a).db, c)
    ensures Violation(w.db, c)
  {
    hide Base, GatesOk, ApprovalsOwned, ShelvesOk, Apply, Enabled, Linked, Extends, StopActive;
    ApplyKept(w, a);
    if a.CreateCommand? {
      CreateMakesNone(w, a, c);
    } else if a.DecideApproval? {
      DecideMakesNone(w, a, c);
    } else {
      OthersMakeNone(w, a, c);
    }
  }

  lemma CreateMakesNone(w: World, a: Action, c: CommandId)
    requires Linked(w.db) && ShelvesOk(w) && a.CreateCommand? && Enabled(w, a) && Violation(Apply(w, a).db, c)
    ensures Violation(w.db, c)
  {
    hide Linked, ShelvesOk, Asked, QueuedEvent;
    AnswersAreSafe(w, a.owner, a.seen, a.now);
  }

  lemma DecideMakesNone(w: World, a: Action, c: CommandId)
    requires Linked(w.db) && ShelvesOk(w) && ApprovalsOwned(w.db) && a.DecideApproval? && Enabled(w, a)
    requires Violation(Apply(w, a).db, c)
    ensures Violation(w.db, c)
  {
    hide ShelvesOk, Asked, QueuedEvent, OnApprove, OnReject, Decide;
    AnswersAreSafe(w, a.owner, a.seen, a.now);
    DecideRow(w.db, a, c);
  }

  /** A decision changes no command but its own, and queues that only if it was told "inactive". */
  lemma DecideRow(db: Db, a: Action, c: CommandId)
    requires Linked(db) && a.DecideApproval?
    ensures var after := Decide(db, a.c, a.owner, a.approve, a.nonceHash, a.note, a.seen, a.now);
            && after.stops == db.stops && after.devices == db.devices && after.commands.Keys == db.commands.Keys
            && (c in db.commands ==>
                  && after.commands[c].device == db.commands[c].device
                  && (after.commands[c].state == Queued && db.commands[c].state != Queued ==>
                        c == a.c && Undecided(db, a.c, a.owner) && !a.seen))
  {
    hide OnApprove, OnReject, OnApprovalExpiry, QueuedEvent, Put, Accepts;
    if a.c in db.approvals {
      var d := DossierOf(db, a.c);
      ApproveLeaves(d, a.note, a.now);
      RejectLeaves(d, a.note, a.now);
      PutOnly(db, a.c, OnApprovalExpiry(d), [], c);
      PutOnly(db, a.c, OnApprove(d, a.note, a.now), [QueuedEvent(a.c, d.cmd)], c);
      PutOnly(db, a.c, OnReject(d, a.note, a.now), [], c);
    }
  }

  lemma RejectLeaves(d: Dossier, note: Option<string>, now: int)
    requires d.approval.Some?
    ensures OnReject(d, note, now).cmd.state == Rejected && OnReject(d, note, now).cmd.device == d.cmd.device
    ensures OnApprovalExpiry(d).cmd == d.cmd
  {
  }

  lemma PutOnly(db: Db, c: CommandId, d: Dossier, events: seq<OutboxEvent>, x: CommandId)
    requires c in db.commands
    ensures var after := Put(db, c, d, events);
            && after.stops == db.stops && after.devices == db.devices && after.commands.Keys == db.commands.Keys
            && (x in db.commands ==> after.commands[x] == if x == c then d.cmd else db.commands[x])
  {
  }

  lemma OthersMakeNone(w: World, a: Action, c: CommandId)
    requires Kept(w) && Kept(Apply(w, a)) && Extends(w.db, Apply(w, a).db)
    requires !a.CreateCommand? && !a.DecideApproval? && Violation(Apply(w, a).db, c)
    ensures Violation(w.db, c)
  {
    hide Base, GatesOk, ApprovalsOwned, ShelvesOk, Apply, Linked, Extends, StopActive, QueuedRows;
    var owner := Apply(w, a).db.devices[Apply(w, a).db.commands[c].device].owner;
    ApplyRows(w, a, owner);
    SameAnnounced(w, a, c);
    WasQueued(w.db, Apply(w, a).db, c);
    if a.ActivateStop? && a.owner == owner && !StopActive(w.db, owner) {
      ActivatedIsBlocked(w, a, c);
    }
  }

  lemma ActivatedIsBlocked(w: World, a: Action, c: CommandId)
    requires Linked(w.db) && a.ActivateStop? && !StopActive(w.db, a.owner)
    requires OwnsCommand(w.db, a.owner, c) && w.db.commands[c].state == Queued
    ensures c in Apply(w, a).db.commands && Apply(w, a).db.commands[c].state == Blocked
  {
    hide Activate, Linked;
    Guarantees.ActivateBlocks(w.db, a.owner, a.reason, a.now, c);
  }

  // ---- One step of a race ----

  /** Everything but the stop rule is kept by the steps of a race. */
  lemma StepKeeps(r: StopRace, s: Step)
    requires Kept(r.w) && StepEnabled(r, s)
    ensures Kept(After(r, s).w)
  {
    hide Base, GatesOk, ApprovalsOwned, ShelvesOk, Apply, Enabled, Linked, Extends, Committed;
    match s
    case Test(_, _, _) =>
    case Finish(call, now) => CommittedKept(r.w, call, now);
    case Other(a) => ApplyKept(r.w, a);
  }

  lemma CommittedKept(w: World, call: Call, now: int)
    requires Kept(w)
    requires if call.Creating? then call.c !in w.db.commands && OwnsDevice(w.db, call.owner, call.request.device)
             else call.c in w.db.approvals && w.db.approvals[call.c].owner == call.owner
    ensures Kept(w.(db := Committed(w.db, call, now)))
  {
    hide Base, GatesOk, Linked, Extends, Committed, StepOk, ApprovalsOwned, KeyTaken, StopCache.OnlyActive;
    CommittedErased(w.db, call, now);
    CommittedOk(w.db, call, now);
    var after := Committed(w.db, call, now);
    KeptTables(w.db, after);
    StepIsBase(Erased(w.db), Erased(after));
    CommittedOwned(w.db, call, now);
  }

  lemma StepIsBase(a: Db, b: Db)
    requires StepOk(a, b)
    ensures Base(b)
  {
    hide Base, GatesOk, Extends;
  }

  lemma CommittedErased(db: Db, call: Call, now: int)
    requires Linked(db) && (call.Approving? ==> call.c in db.approvals)
    ensures Linked(Erased(db)) && Committed(Erased(db), call, now) == Erased(Committed(db, call, now))
  {
    hide NewDossier, QueuedEvent, OnApprove, OnReject, Accepts;
    if call.Creating? {
      var device, key := call.request.device, call.request.key;
      assert KeyTaken(Erased(db), device, key) == KeyTaken(db, device, key);
    }
  }

  lemma CommittedOk(db: Db, call: Call, now: int)
    requires Linked(db) && Base(Erased(db))
    requires if call.Creating? then call.c !in db.commands && OwnsDevice(db, call.owner, call.request.device)
             else call.c in db.approvals
    ensures Linked(Erased(db)) && StepOk(Erased(db), Committed(Erased(db), call, now))
  {
    hide DossiersOk, RowsMatch, KeysUnique, EventsOk, StopsRespected, StepOk, Insert, FinishDecision, KeyTaken;
    var rows := Erased(db);
    if call.Approving? {
      FinishDecisionOk(rows, call.c, true, call.note, false, now);
    } else if Committed(rows, call, now) == rows {
      UnchangedOk(rows);
    } else {
      InsertOk(rows, call.c, call.request, call.owner, call.definition.value, call.nonceHash, now);
    }
  }

  lemma CommittedOwned(db: Db, call: Call, now: int)
    requires Linked(db) && ApprovalsOwned(db) && (call.Approving? ==> call.c in db.approvals)
    requires call.Creating? ==> call.c !in db.commands && OwnsDevice(db, call.owner, call.request.device)
    requires Extends(db, Committed(db, call, now))
    ensures Linked(Committed(db, call, now)) && ApprovalsOwned(Committed(db, call, now))
  {
    hide Continues, OutboxExtends, OnApprove, OnReject, QueuedEvent, KeyTaken;
    OwnedStays(db, Committed(db, call, now));
  }

  /** A step makes a violation exactly when it is the commit of a call that queues a command although the stop is
      active by now, and then only of that command. */
  lemma NewViolationIff(r: StopRace, s: Step, c: CommandId)
    requires Kept(r.w) && StepEnabled(r, s)
    ensures Linked(After(r, s).w.db)
    ensures Violation(After(r, s).w.db, c) && !Violation(r.w.db, c) <==>
              s.Finish? && c == s.call.c && Queues(r.w.db, s.call) && StopActive(r.w.db, s.call.owner)
  {
    hide Base, GatesOk, ShelvesOk, Apply, Enabled, Extends, Asked, Committed, Queues, StopActive, KeyTaken, Violation;
    StepKeeps(r, s);
    match s
    case Test(_, _, _) =>
    case Finish(call, now) =>
      if call.Creating? {
        CreatingViolates(r.w.db, call, now, c);
      } else {
        BaseRow(Erased(r.w.db), call.c);
        ApprovingViolates(r.w.db, call, now, c);
      }
    case Other(a) =>
      if Violation(Apply(r.w, a).db, c) {
        NoNewViolation(r.w, a, c);
      }
  }

  lemma CreatingViolates(db: Db, call: Call, now: int, c: CommandId)
    requires Linked(db) && call.Creating? && call.c !in db.commands && OwnsDevice(db, call.owner, call.request.device)
    ensures Violation(Committed(db, call, now), c) && !Violation(db, c) <==>
              c == call.c && Queues(db, call) && StopActive(db, call.owner)
  {
    hide KeyTaken, QueuedEvent;
  }

  lemma ApprovingViolates(db: Db, call: Call, now: int, c: CommandId)
    requires Linked(db) && ApprovalsOwned(db)
    requires call.Approving? && call.c in db.approvals && db.approvals[call.c].owner == call.owner
    ensures Violation(Committed(db, call, now), c) && !Violation(db, c) <==>
              c == call.c && Queues(db, call) && StopActive(db, call.owner)
  {
    hide QueuedEvent, OnApprove, Put, PythonAccepts, TriggerAccepts;
    var d := DossierOf(db, call.c);
    ApproveLeaves(d, call.note, now);
    NotFromQueued(d.cmd.state);
    PutOnly(db, call.c, OnApprove(d, call.note, now), [QueuedEvent(call.c, d.cmd)], c);
  }

  lemma NotFromQueued(s: CommandState)
    ensures Accepts(s, Approved) ==> s != Queued
  {
  }

  /** Where the stop rule holds, it survives a step exactly when the step is not the commit of a queued command
      under an active stop. */
  lemma StopKeptIff(r: StopRace, s: Step)
    requires Kept(r.w) && StopsRespected(r.w.db) && StepEnabled(r, s)
    ensures Linked(After(r, s).w.db)
    ensures StopsRespected(After(r, s).w.db) <==>
              !(s.Finish? && Queues(r.w.db, s.call) && StopActive(r.w.db, s.call.owner))
  {
    hide Base, GatesOk, ApprovalsOwned, ShelvesOk, After, Queues, StopActive, Violation, StopsRespected, Asked, Enabled;
    StepKeeps(r, s);
    RespectedIffNone(r.w.db);
    RespectedIffNone(After(r, s).w.db);
    forall c
      ensures Violation(After(r, s).w.db, c) <==>
                s.Finish? && c == s.call.c && Queues(r.w.db, s.call) && StopActive(r.w.db, s.call.owner)
    {
      NewViolationIff(r, s, c);
    }
    if s.Finish? {
      NewViolationIff(r, s, s.call.c);
    }
  }

  lemma InsertGives(db: Db, call: Call, now: int)
    requires Linked(db) && call.Creating? && call.c !in db.commands && OwnsDevice(db, call.owner, call.request.device)
    requires call.definition.Some? && !NeedsApproval(call.request, call.definition.value)
    ensures var after := Insert(db, call.c, call.request, call.owner, call.definition.value, call.nonceHash, now);
            && Linked(after) && call.c in after.commands && after.commands[call.c].state == Queued && after != db
            && (StopActive(db, call.owner) ==> CommandStopped(after, call.c))
  {
    var cmd := RequestedCommand(call.request, call.definition.value);
    PutReads(db, call.c, NewDossier(cmd, None), [QueuedEvent(call.c, NewDossier(cmd, None).cmd)]);
  }

  // ---- Since the test ----

  /** The last activation or release of the owner's stop among the steps. */
  function LastSwitch(steps: seq<Step>, owner: OwnerId): Option<bool> {
    if steps == [] then None
    else
      var s := steps[|steps| - 1];
      if s.Other? && s.a.ActivateStop? && s.a.owner == owner then Some(true)
      else if s.Other? && s.a.ReleaseStop? && s.a.owner == owner then Some(false)
      else LastSwitch(steps[..|steps| - 1], owner)
  }

  ghost predicate StopRun(races: seq<StopRace>, steps: seq<Step>) {
    && |races| == |steps| + 1 && Kept(races[0].w)
    && forall i :: 0 <= i < |steps| ==> Leads(races[i], steps[i], races[i + 1])
  }

  ghost predicate Leads(r: StopRace, s: Step, after: StopRace) {
    Linked(r.w.db) && StepEnabled(r, s) && after == After(r, s)
  }

  lemma CommittedStops(db: Db, call: Call, now: int)
    requires Linked(db) && (call.Approving? ==> call.c in db.approvals)
    ensures Committed(db, call, now).stops == db.stops
  {
    hide OnApprove, OnReject, NewDossier, QueuedEvent;
  }

  /** Between two states of a run the stop row follows the activations and releases. */
  lemma {:induction false} RowFollowsSwitches(races: seq<StopRace>, steps: seq<Step>, i: nat, j: nat, owner: OwnerId)
    requires StopRun(races, steps) && i <= j < |races|
    ensures var last := LastSwitch(steps[i..j], owner);
            StopActive(races[j].w.db, owner) == if last.Some? then last.value else StopActive(races[i].w.db, owner)
    decreases j - i
  {
    hide StepEnabled, After, StopActive, Linked;
    if i < j {
      RowFollowsSwitches(races, steps, i, j - 1, owner);
      assert steps[i..j][..j - 1 - i] == steps[i..j - 1];
      var r, s := races[j - 1], steps[j - 1];
      assert Leads(r, s, races[j]);
      SwitchStep(r, s, owner);
    }
  }

  lemma SwitchStep(r: StopRace, s: Step, owner: OwnerId)
    requires Linked(r.w.db) && StepEnabled(r, s)
    ensures StopActive(After(r, s).w.db, owner) ==
            if s.Other? && s.a.ActivateStop? && s.a.owner == owner then true
            else if s.Other? && s.a.ReleaseStop? && s.a.owner == owner then false
            else StopActive(r.w.db, owner)
  {
    hide Linked, Apply, Enabled, Committed;
    match s
    case Test(_, _, _) =>
    case Finish(call, now) => CommittedStops(r.w.db, call, now);
    case Other(a) => ApplyRows(r.w, a, owner);
  }

  /** In every state of every race, whatever rules its calls have broken, all but the stop rule holds: logs, tasks,
      outbox, keys and the approval gate. */
  lemma {:induction false} StopRunKeeps(races: seq<StopRace>, steps: seq<Step>, i: nat)
    requires StopRun(races, steps) && i < |races|
    ensures Kept(races[i].w)
  {
    hide Kept, StepEnabled, After;
    if i > 0 {
      StopRunKeeps(races, steps, i - 1);
      assert Leads(races[i - 1], steps[i - 1], races[i]);
      StepKeeps(races[i - 1], steps[i - 1]);
    }
  }

  /** A call that was told "inactive" makes a violation with its commit if and only if it queues a command and, of
      the owner's activations and releases since its test, the last is an activation; the violation is its own
      command and no other. */
  lemma BreaksIffActivatedSince(races: seq<StopRace>, steps: seq<Step>, i: nat, j: nat, c: CommandId)
    requires StopRun(races, steps) && i < j < |steps|
    requires steps[i].Test? && !steps[i].seen && steps[j].Finish? && steps[j].call == steps[i].call
    ensures steps[j].call.Approving? ==> steps[j].call.c in races[j].w.db.commands
    ensures Violation(races[j + 1].w.db, c) && !Violation(races[j].w.db, c) <==>
              && c == steps[j].call.c && Queues(races[j].w.db, steps[j].call)
              && LastSwitch(steps[i..j], steps[j].call.owner) == Some(true)
  {
    var call := steps[j].call;
    assert Leads(races[i], steps[i], races[i + 1]) && Leads(races[j], steps[j], races[j + 1]);
    hide Base, GatesOk, ShelvesOk, ApprovalsOwned, Queues, LastSwitch, After, StopRun, StopActive, Asked, Violation;
    StopRunKeeps(races, steps, i);
    StopRunKeeps(races, steps, j);
    AnswersAreSafe(races[i].w, call.owner, false, steps[i].now);
    RowFollowsSwitches(races, steps, i, j, call.owner);
    NewViolationIff(races[j], steps[j], c);
  }
}
