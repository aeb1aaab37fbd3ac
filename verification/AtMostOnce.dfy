/** Redelivery: what the deduplication keys achieve, and what they depend on. */
module AtMostOnce {
  import opened Options
  import opened CommandStates
  import opened Tables
  import opened Lifecycle
  import opened LifecycleProofs
  import opened Store
  import opened Operations
  import opened Broker
  import opened Pipeline
  import opened PipelineProofs
  import opened Guarantees

  /** Over every run a command has at most one log entry per deduplication key. */
  lemma OneEntryPerKey(worlds: seq<World>, actions: seq<Action>, i: nat, c: CommandId, a: nat, b: nat)
    requires Run(worlds, actions) && i < |worlds| && c in worlds[i].db.commands && c in worlds[i].db.log
    requires a < |worlds[i].db.log[c]| && b < |worlds[i].db.log[c]|
    requires var log := worlds[i].db.log[c];
             && log[a].metadata.Some? && log[b].metadata.Some?
             && log[a].metadata.value.dedup == log[b].metadata.value.dedup
    ensures a == b
  {
    RunDossier(worlds, actions, i, c);
  }

  // ---- The exact reach of one message ----

  /** A second success for a succeeded command rewrites the stored result exactly when its id
      text is one that no handled result message carried. */
  lemma SuccessRepeatsIffNewSpelling(d: Dossier, m: Message, now: int)
    requires DossierOk(d) && d.cmd.state == Succeeded
    requires m.ResultMessage? && m.success && !WrongDevice(d.cmd, m.device)
    ensures OnResult(d, m, now) == d <==> Duplicate(d.log, DedupKey(Result, m.idText))
    ensures !Duplicate(d.log, DedupKey(Result, m.idText)) ==>
              OnResult(d, m, now).cmd.resultData == m.data
              && CountInto(OnResult(d, m, now).log, Succeeded) == CountInto(d.log, Succeeded) + 1
  {
    hide DossierOk;
    if !Duplicate(d.log, DedupKey(Result, m.idText)) {
      var e := LogEntry(Some(Succeeded), Succeeded, "device",
                        Some(Metadata(DedupKey(Result, m.idText), Some(m.data), Some("success"), None, None)));
      assert OnResult(d, m, now).log == d.log + [e];
      AppendCounts(d.log, e, Succeeded);
    }
  }

  /** A device's refusal of a command takes effect only on a command that is already running
      or failed, and only if no acknowledgement with the same id text was handled. A command
      that has just been delivered is never failed by its device's refusal. */
  lemma RefusalTakesEffectIff(d: Dossier, m: Message, now: int)
    requires DossierOk(d) && m.AckMessage? && !m.accepted
    ensures OnAck(d, m, now) != d <==>
              && d.cmd.state in {Running, Failed}
              && !WrongDevice(d.cmd, m.device)
              && !Duplicate(d.log, DedupKey(Ack, m.idText))
  {
    hide DossierOk;
    var key := DedupKey(Ack, m.idText);
    if !Duplicate(d.log, key) && !WrongDevice(d.cmd, m.device) && Accepts(d.cmd.state, Failed) {
      assert |OnAck(d, m, now).log| == |d.log| + 1;
    }
    RefusalGuard(d);
  }

  lemma RefusalGuard(d: Dossier)
    requires DossierOk(d)
    ensures Accepts(d.cmd.state, Failed) <==> d.cmd.state in {Running, Failed}
  {
  }

  // ---- Runs in which every message spells its command's id canonically ----

  predicate Canonical(a: Action) {
    a.HandleMessage? && a.m.id.Some? ==> a.m.idText == a.m.id.value
  }

  ghost predicate CanonicalRun(worlds: seq<World>, actions: seq<Action>) {
    Run(worlds, actions) && forall i :: 0 <= i < |actions| ==> Canonical(actions[i])
  }

  ghost predicate TextsAre(log: seq<LogEntry>, t: string) {
    forall i :: 0 <= i < |log| && log[i].metadata.Some? ==> log[i].metadata.value.dedup.idText == t
  }

  ghost predicate AllTexts(db: Db) {
    forall c :: c in db.log ==> TextsAre(db.log[c], c)
  }

  lemma TextsPut(db: Db, c: CommandId, d: Dossier, events: seq<OutboxEvent>)
    requires AllTexts(db) && TextsAre(d.log, c)
    ensures AllTexts(Put(db, c, d, events))
  {
  }

  lemma TextsBulk(db: Db, ids: set<CommandId>, f: Dossier -> Dossier)
    requires Linked(db) && AllTexts(db)
    requires forall c :: c in ids && c in db.commands ==> TextsAre(f(DossierOf(db, c)).log, c)
    ensures AllTexts(Bulk(db, ids, f))
  {
  }

  lemma TextsMessage(d: Dossier, m: Message, now: int)
    requires TextsAre(d.log, m.idText)
    ensures TextsAre(OnMessage(d, m, now).log, m.idText)
  {
  }

  lemma TextsQuiet(d: Dossier, note: Option<string>, source: string, now: int, t: string)
    requires TextsAre(d.log, t)
    ensures TextsAre(OnCancel(d, now).log, t) && TextsAre(OnBlock(d, source, now).log, t)
    ensures TextsAre(OnExpire(d, now).log, t)
    ensures d.approval.Some? ==> TextsAre(OnApprove(d, note, now).log, t) && TextsAre(OnReject(d, note, now).log, t)
  {
    hide Accepts, Stamp;
  }

  lemma TextsOne(db: Db, item: PublishItem, now: int)
    requires Linked(db) && AllTexts(db)
    ensures AllTexts(PublishOne(db, item, now))
  {
    hide OnBlock;
    if Publishable(db, item) && HeldBack(db, item) {
      var c := db.outbox[item.index].aggregateId;
      TextsQuiet(DossierOf(db, c), None, "outbox_enforcement", now, c);
      TextsPut(db, c, OnBlock(DossierOf(db, c), "outbox_enforcement", now), []);
    }
  }

  lemma {:induction false} TextsBatch(db: Db, hands: seq<Hand>, now: int)
    requires Linked(db) && AllTexts(db)
    ensures AllTexts(PublishBatch(db, hands, now))
  {
    hide Linked, PublishOne;
    if hands != [] {
      var k := |hands| - 1;
      TextsBatch(db, hands[..k], now);
      TextsOne(PublishBatch(db, hands[..k], now), hands[k].item, now);
    }
  }

  lemma TextsExpire(db: Db, ids: set<CommandId>, now: int)
    requires Linked(db) && AllTexts(db)
    ensures AllTexts(RunTasks(db, ids, now))
  {
    hide OnExpire;
    var mid := ExpireApprovals(db, now);
    assert Linked(mid) && AllTexts(mid);
    forall c | c in ids && c in mid.commands
      ensures TextsAre(OnExpire(DossierOf(mid, c), now).log, c)
    {
      TextsQuiet(DossierOf(mid, c), None, "", now, c);
    }
    TextsBulk(mid, ids, d => OnExpire(d, now));
  }

  lemma TextsActivate(db: Db, owner: OwnerId, reason: string, now: int)
    requires Linked(db) && AllTexts(db)
    ensures AllTexts(Activate(db, owner, reason, now))
  {
    hide OnBlock;
    var ids := ToBlock(db, owner);
    forall c | c in ids && c in db.commands
      ensures TextsAre(OnBlock(DossierOf(db, c), "emergency_stop_activation", now).log, c)
    {
      TextsQuiet(DossierOf(db, c), None, "emergency_stop_activation", now, c);
    }
    TextsBulk(db, ids, d => OnBlock(d, "emergency_stop_activation", now));
  }

  lemma TextsDecide(db: Db, a: Action)
    requires Linked(db) && AllTexts(db) && a.DecideApproval?
    ensures AllTexts(Decide(db, a.c, a.owner, a.approve, a.nonceHash, a.note, a.seen, a.now))
  {
    hide OnApprove, OnReject;
    if a.c in db.approvals {
      TextsQuiet(DossierOf(db, a.c), a.note, "", a.now, a.c);
    }
  }

  lemma TextsApply(w: World, a: Action)
    requires Linked(w.db) && AllTexts(w.db) && Canonical(a)
    ensures AllTexts(Apply(w, a).db)
  {
    hide Create, Cancel, Consume, Decide, RunTasks, Activate, PublishBatch, BrokerBatch, Linked, TextsAre;
    match a
    case CreateCommand(c, r, _, _, definition, _, _, _) => TextsCreate(w.db, a);
    case CancelCommand(c, owner, now) => TextsCancel(w.db, c, owner, now);
    case DecideApproval(_, _, _, _, _, _, _) => TextsDecide(w.db, a);
    case SchedulerPass(ids, now) => TextsExpire(w.db, ids, now);
    case ActivateStop(owner, reason, now) => TextsActivate(w.db, owner, reason, now);
    case HandleMessage(m, now) => TextsConsume(w.db, m, now);
    case PublisherBatch(hands, _, now) => TextsBatch(w.db, hands, now);
    case _ =>
  }

  lemma TextsCancel(db: Db, c: CommandId, owner: OwnerId, now: int)
    requires Linked(db) && AllTexts(db)
    ensures AllTexts(Cancel(db, c, owner, now))
  {
    hide OnCancel;
    if c in db.commands {
      TextsQuiet(DossierOf(db, c), None, "", now, c);
    }
  }

  lemma TextsCreate(db: Db, a: Action)
    requires AllTexts(db) && a.CreateCommand?
    ensures AllTexts(Create(db, a.c, a.request, a.owner, a.seen, a.definition, a.schemaOk, a.nonceHash, a.now))
  {
  }

  lemma TextsConsume(db: Db, m: Message, now: int)
    requires Linked(db) && AllTexts(db) && (m.id.Some? ==> m.idText == m.id.value)
    ensures AllTexts(Consume(db, m, now))
  {
    hide OnMessage;
    if m.id.Some? && m.id.value in db.commands {
      TextsMessage(DossierOf(db, m.id.value), m, now);
    }
  }

  lemma {:induction false} CanonicalTexts(worlds: seq<World>, actions: seq<Action>, i: nat)
    requires CanonicalRun(worlds, actions) && i < |worlds|
    ensures AllTexts(worlds[i].db)
  {
    hide Apply, Enabled;
    if i > 0 {
      CanonicalTexts(worlds, actions, i - 1);
      TextsApply(worlds[i - 1], actions[i - 1]);
    }
  }

  /** Two entries that the same message kind causes with the same text are one. */
  lemma {:induction false} OneSuccess(log: seq<LogEntry>, t: string)
    requires AllMetadataOk(log) && KeysDistinct(log) && TextsAre(log, t)
    ensures CountInto(log, Succeeded) <= 1
  {
    if log != [] {
      var k := |log| - 1;
      assert TextsAre(log[..k], t);
      OneSuccess(log[..k], t);
      if log[k].next == Succeeded {
        CountedIsEntered(log[..k], Succeeded);
        assert MetadataOk(log[k]);
        forall i | 0 <= i < k
          ensures log[..k][i].next != Succeeded
        {
          assert MetadataOk(log[i]);
        }
      }
    }
  }

  /** In a canonical run the result of a command is written at most once, and once it is
      written it stays. */
  lemma ResultWrittenOnce(worlds: seq<World>, actions: seq<Action>, i: nat, j: nat, c: CommandId)
    requires CanonicalRun(worlds, actions) && i <= j < |worlds| && c in worlds[i].db.commands
    ensures c in worlds[j].db.log && c in worlds[j].db.commands
    ensures CountInto(worlds[j].db.log[c], Succeeded) <= 1
    ensures worlds[i].db.commands[c].state == Succeeded ==>
              worlds[j].db.commands[c].resultData == worlds[i].db.commands[c].resultData
  {
    hide Run, DossierOk, Gate, Continues;
    RunContinues(worlds, actions, i, j, c);
    RunDossier(worlds, actions, i, c);
    RunDossier(worlds, actions, j, c);
    CanonicalTexts(worlds, actions, j);
    CanonicalOutcome(DossierOf(worlds[i].db, c), DossierOf(worlds[j].db, c), c);
  }

  lemma CanonicalOutcome(a: Dossier, b: Dossier, c: CommandId)
    requires DossierOk(a) && DossierOk(b) && Continues(a, b) && TextsAre(b.log, c)
    ensures CountInto(b.log, Succeeded) <= 1
    ensures a.cmd.state == Succeeded ==> b.cmd.resultData == a.cmd.resultData
  {
    OneSuccess(b.log, c);
    if a.cmd.state == Succeeded {
      var k, n := |a.log| - 1, |b.log| - 1;
      assert a.log[k] == b.log[k];
      RankRises(b.log, k, n);
      assert MetadataOk(b.log[k]) && MetadataOk(b.log[n]);
      assert k == n;
    }
  }

  /** In a canonical run a device's refusal never changes anything: the command was either not
      acknowledged yet, and both guards refuse, or its acknowledgement has used up the key. */
  lemma RefusalNeverTakesEffect(worlds: seq<World>, actions: seq<Action>, i: nat, m: Message, now: int)
    requires CanonicalRun(worlds, actions) && i < |worlds|
    requires m.AckMessage? && !m.accepted && (m.id.Some? ==> m.idText == m.id.value)
    ensures Linked(worlds[i].db) && Consume(worlds[i].db, m, now) == worlds[i].db
  {
    hide Run, DossierOk, Gate;
    var db := worlds[i].db;
    RunLinked(worlds, actions, i);
    if m.id.Some? && m.id.value in db.commands {
      var c := m.id.value;
      RunDossier(worlds, actions, i, c);
      CanonicalTexts(worlds, actions, i);
      RefusalIsDuplicate(DossierOf(db, c), m, now);
      PutNothing(db, c);
    }
  }

  lemma RunLinked(worlds: seq<World>, actions: seq<Action>, i: nat)
    requires Run(worlds, actions) && i < |worlds|
    ensures Linked(worlds[i].db)
  {
    hide Run, BrokerOk, AllSentOk, ApprovalsOwned, GatesOk;
    RunKeepsInvariant(worlds, actions, i);
  }

  lemma RefusalIsDuplicate(d: Dossier, m: Message, now: int)
    requires DossierOk(d) && m.AckMessage? && !m.accepted && TextsAre(d.log, m.idText)
    ensures OnAck(d, m, now) == d
  {
    RefusalTakesEffectIff(d, m, now);
    if d.cmd.state in {Running, Failed} {
      WasAcknowledged(d);
      var i :| 0 <= i < |d.log| && d.log[i].next == Acknowledged;
      assert MetadataOk(d.log[i]);
    }
  }

  lemma WasAcknowledged(d: Dossier)
    requires DossierOk(d) && d.cmd.state in {Running, Failed}
    ensures Entered(d.log, Acknowledged)
  {
    hide KeysDistinct, AllMetadataOk, StampsOk, OutcomeOk, TaskFor;
    assert d.log[|d.log| - 1].next == d.cmd.state;
    if d.cmd.state == Failed {
      CameThrough(d.log, Failed, Running);
    }
    CameThrough(d.log, Running, Acknowledged);
  }
}
