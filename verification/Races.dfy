/** Decisions on one approval that read the approval row without a lock, finish in any order
    and interleave with everything else the pipeline does. */
module Races {
  import opened Options
  import opened CommandStates
  import opened Tables
  import opened Lifecycle
  import opened LifecycleProofs
  import opened Store
  import opened Operations
  import opened OperationProofs
  import opened Pipeline
  import opened PipelineProofs
  import StopCache

  /** What a decision intends after its unlocked read found the approval pending. */
  datatype Intent = Approve | Reject | Expire

  /** What a decision does after reading the row: nothing for a stranger, a decided approval or a
      wrong nonce; otherwise the clock and the request choose. */
  function IntentOf(a: Approval, owner: OwnerId, nonceHash: string, approve: bool, now: int): Option<Intent> {
    if a.owner != owner || a.status != PendingApproval then None
    else if a.expiresAt < now then Some(Expire)
    else if nonceHash != a.nonceHash then None
    else if approve then Some(Approve) else Some(Reject)
  }

  /** The tables, the time of the last step, the decisions on command c that have read but not
      finished, and what the finished ones committed. */
  datatype Race = Race(w: World, clock: int, reading: multiset<Intent>, approvals: nat, rejections: nat)

  datatype RaceStep =
    /** The unlocked read of a decision. */
    | Read(owner: OwnerId, nonceHash: string, approve: bool, now: int)
    /** The locked part of a decision. */
    | Finish(intent: Intent, note: Option<string>, seen: bool, now: int)
    /** Any other step of the pipeline. */
    | Other(a: Action)

  ghost predicate StepEnabled(r: Race, c: CommandId, s: RaceStep) {
    match s
    case Read(_, _, _, now) => r.clock <= now && c in r.w.db.approvals
    case Finish(intent, _, seen, now) =>
      && r.clock <= now && intent in r.reading && c in r.w.db.approvals
      && Asked(r.w, r.w.db.approvals[c].owner, seen, now)
    case Other(a) =>
      && (TimeOf(a).Some? ==> r.clock <= TimeOf(a).value)
      && Enabled(r.w, a) && !(a.DecideApproval? && a.c == c)
  }

  function After(r: Race, c: CommandId, s: RaceStep): Race
    requires Linked(r.w.db) && (!s.Other? ==> c in r.w.db.approvals)
  {
    match s
    case Read(owner, nonceHash, approve, now) =>
      var intent := IntentOf(r.w.db.approvals[c], owner, nonceHash, approve, now);
      r.(clock := now, reading := if intent.Some? then r.reading + multiset{intent.value} else r.reading)
    case Finish(intent, note, seen, now) =>
      var rest := r.reading - multiset{intent};
      if intent == Expire then
        r.(clock := now, reading := rest,
           w := r.w.(db := Put(r.w.db, c, OnApprovalExpiry(DossierOf(r.w.db, c)), [])))
      else
        var db := FinishDecision(r.w.db, c, intent == Approve, note, seen, now);
        var committed := if intent == Approve then !seen && Accepts(r.w.db.commands[c].state, Approved)
                         else Accepts(r.w.db.commands[c].state, Rejected);
        Race(r.w.(db := db), now, rest,
             r.approvals + (if committed && intent == Approve then 1 else 0),
             r.rejections + (if committed && intent == Reject then 1 else 0))
    case Other(a) =>
      r.(w := Apply(r.w, a), clock := if TimeOf(a).Some? then TimeOf(a).value else r.clock)
  }

  /** A read and its end with nothing in between are the atomic decision. */
  lemma DecisionIsReadThenFinish(r: Race, c: CommandId, owner: OwnerId, approve: bool, nonceHash: string,
                                 note: Option<string>, seen: bool, now: int)
    requires Linked(r.w.db) && c in r.w.db.approvals
    ensures var intent := IntentOf(r.w.db.approvals[c], owner, nonceHash, approve, now);
            var after := Decide(r.w.db, c, owner, approve, nonceHash, note, seen, now);
            if intent.None? then after == r.w.db
            else
              var read := After(r, c, Read(owner, nonceHash, approve, now));
              && read.w == r.w && intent.value in read.reading
              && After(read, c, Finish(intent.value, note, seen, now)).w.db == after
  {
    hide OnApprove, OnReject, OnApprovalExpiry, Accepts, Put;
  }

  /** The pipeline's invariant without the gate, and what the committed decisions left in the
      command: a committed approval has queued it, a committed rejection has rejected it. A
      decision about to write "expired" read after the expiry. */
  ghost predicate RaceOk(r: Race, c: CommandId) {
    && Base(r.w.db) && ApprovalsOwned(r.w.db) && ShelvesOk(r.w) && c in r.w.db.commands
    && ReadLate(r, c)
    && r.approvals <= 1
    && (r.approvals > 0 ==> Entered(r.w.db.log[c], Queued))
    && (r.rejections > 0 ==> r.w.db.commands[c].state == Rejected)
  }

  predicate ReadLate(r: Race, c: CommandId) {
    Expire in r.reading ==> c in r.w.db.approvals && r.w.db.approvals[c].expiresAt < r.clock
  }

  // ---- A queued command can no longer be approved or rejected ----

  predicate OnceQueued(s: CommandState) {
    s in {Queued, Delivered, Acknowledged, Running, Succeeded, Failed, TimedOut, Cancelled, Expired, Blocked}
  }

  lemma {:induction false} EnteredQueued(log: seq<LogEntry>)
    requires LogOk(log) && Entered(log, Queued)
    ensures OnceQueued(LastState(log))
  {
    var k := |log| - 1;
    if log[k].next != Queued {
      var earlier := log[..k];
      assert LogOk(earlier) && Accepts(log[k - 1].next, log[k].next);
      EnteredAppend(earlier, log[k], Queued);
      assert earlier + [log[k]] == log;
      EnteredQueued(earlier);
    }
  }

  lemma QueuedRefusesDecisions(d: Dossier)
    requires DossierOk(d) && Entered(d.log, Queued)
    ensures !Accepts(d.cmd.state, Approved) && !Accepts(d.cmd.state, Rejected)
  {
    hide KeysDistinct, AllMetadataOk, StampsOk, OutcomeOk, TaskFor;
    EnteredQueued(d.log);
  }

  /** What a committed decision leaves behind stays true under every later step. */
  lemma MarksStay(a: Dossier, b: Dossier)
    requires DossierOk(a) && DossierOk(b) && Continues(a, b)
    ensures Entered(a.log, Queued) ==> Entered(b.log, Queued)
    ensures a.cmd.state == Rejected ==> b.cmd.state == Rejected
  {
    if Entered(a.log, Queued) {
      var i :| 0 <= i < |a.log| && a.log[i].next == Queued;
      assert b.log[i].next == Queued;
    }
    assert LogOk(b.log) && a.log[|a.log| - 1] == b.log[|a.log| - 1];
    RankRises(b.log, |a.log| - 1, |b.log| - 1);
  }

  lemma StepKeepsMarks(r: Race, c: CommandId, w: World, clock: int)
    requires RaceOk(r, c) && StepOk(r.w.db, w.db) && ApprovalsOwned(w.db) && ShelvesOk(w) && r.clock <= clock
    ensures RaceOk(r.(w := w, clock := clock), c)
  {
    hide DossierOk, Gate, Continues, RowsMatch, KeysUnique, EventsOk, StopsRespected, ApprovalsOwned, OutboxExtends,
         Entered, ShelvesOk;
    MarksStay(DossierOf(r.w.db, c), DossierOf(w.db, c));
    if c in r.w.db.approvals {
      TermsStay(r.w.db, w.db, c);
    }
  }

  lemma TermsStay(a: Db, b: Db, c: CommandId)
    requires Extends(a, b) && c in a.approvals
    ensures c in b.approvals && b.approvals[c].expiresAt == a.approvals[c].expiresAt
  {
    hide OutboxExtends;
    assert Continues(DossierOf(a, c), DossierOf(b, c));
  }

  lemma OwnedAfter(a: Db, b: Db)
    requires Extends(a, b) && ApprovalsOwned(a) && b.commands.Keys == a.commands.Keys
    ensures ApprovalsOwned(b)
  {
    hide Continues, OutboxExtends;
    OwnedStays(a, b);
  }

  lemma FinishKeys(db: Db, c: CommandId, approve: bool, note: Option<string>, seen: bool, now: int)
    requires Linked(db) && c in db.approvals
    ensures FinishDecision(db, c, approve, note, seen, now).commands.Keys == db.commands.Keys
    ensures Put(db, c, OnApprovalExpiry(DossierOf(db, c)), []).commands.Keys == db.commands.Keys
  {
    hide OnApprove, OnReject;
  }

  lemma FinishTables(r: Race, c: CommandId, s: RaceStep)
    requires RaceOk(r, c) && StepEnabled(r, c, s) && s.Finish?
    ensures var db := After(r, c, s).w.db;
            Base(db) && Extends(r.w.db, db) && ApprovalsOwned(db)
  {
    hide DossiersOk, RowsMatch, KeysUnique, EventsOk, StopsRespected, Entered, OnApprovalExpiry, FinishDecision, Put,
         StopActive, Extends, ShelvesOk, Asked;
    var db := r.w.db;
    AnswersAreSafe(r.w, db.approvals[c].owner, s.seen, s.now);
    FinishKeys(db, c, s.intent == Approve, s.note, s.seen, s.now);
    if s.intent == Expire {
      ApprovalExpiryOk(db, c);
    } else {
      FinishDecisionOk(db, c, s.intent == Approve, s.note, s.seen, s.now);
    }
    OwnedAfter(db, After(r, c, s).w.db);
  }

  /** A committed approval queues the command, a committed rejection rejects it. */
  lemma FinishMarks(db: Db, c: CommandId, approve: bool, note: Option<string>, seen: bool, now: int)
    requires Base(db) && c in db.approvals
    ensures var after := FinishDecision(db, c, approve, note, seen, now);
            && c in after.commands && c in after.log
            && (approve && !seen && Accepts(db.commands[c].state, Approved) ==> Entered(after.log[c], Queued))
            && (!approve && Accepts(db.commands[c].state, Rejected) ==> after.commands[c].state == Rejected)
  {
    hide DossiersOk, RowsMatch, KeysUnique, EventsOk, StopsRespected, Entered, OnApprove;
    ApproveEnters(DossierOf(db, c), note, now);
  }

  /** Finishing a decision: it commits only where neither an approval nor, for an approval, a
      rejection has been committed before. */
  lemma FinishOk(r: Race, c: CommandId, s: RaceStep)
    requires RaceOk(r, c) && StepEnabled(r, c, s) && s.Finish?
    ensures RaceOk(After(r, c, s), c)
  {
    hide DossierOk, Gate, Continues, RowsMatch, KeysUnique, EventsOk, StopsRespected, ApprovalsOwned, OutboxExtends,
         Entered,
         FinishDecision, Put, Accepts, StopActive, Asked;
    FinishTables(r, c, s);
    TermsStay(r.w.db, After(r, c, s).w.db, c);
    SameShelves(r, c, s);
    RowOk(r.w.db, c);
    RowOk(After(r, c, s).w.db, c);
    hide DossiersOk, ShelvesOk;
    var d := DossierOf(r.w.db, c);
    MarksStay(d, DossierOf(After(r, c, s).w.db, c));
    if r.approvals > 0 {
      QueuedRefusesDecisions(d);
    }
    if s.intent != Expire {
      FinishMarks(r.w.db, c, s.intent == Approve, s.note, s.seen, s.now);
    }
  }

  lemma SameShelves(r: Race, c: CommandId, s: RaceStep)
    requires RaceOk(r, c) && StepEnabled(r, c, s) && s.Finish?
    ensures ShelvesOk(After(r, c, s).w)
  {
    hide Base, ApprovalsOwned, FinishDecision, Put, Accepts, StopCache.OnlyActive, OnApprovalExpiry;
    BaseLinked(r.w.db);
  }

  lemma ApproveEnters(d: Dossier, note: Option<string>, now: int)
    requires d.approval.Some?
    ensures Entered(OnApprove(d, note, now).log, Queued)
    ensures OnApprove(d, note, now).cmd.state == Queued
  {
    var l := OnApprove(d, note, now).log;
    assert l[|l| - 1].next == Queued;
  }

  lemma OneStep(r: Race, c: CommandId, s: RaceStep)
    requires RaceOk(r, c) && StepEnabled(r, c, s)
    ensures RaceOk(After(r, c, s), c)
  {
    hide DossiersOk, RowsMatch, KeysUnique, EventsOk, StopsRespected, Entered, Apply, Enabled, ApprovalsOwned, TimeOf,
         Asked;
    match s
    case Read(_, _, _, _) =>
    case Finish(_, _, _, _) => FinishOk(r, c, s);
    case Other(a) =>
      ApplyTables(r.w, a);
      ApplyOwned(r.w, a);
      ApplyShelves(r.w, a);
      StepKeepsMarks(r, c, Apply(r.w, a), After(r, c, s).clock);
  }

  // ---- Whole races ----

  ghost predicate RaceRun(races: seq<Race>, steps: seq<RaceStep>, c: CommandId) {
    && |races| == |steps| + 1
    && RaceOk(races[0], c) && races[0].reading == multiset{} && races[0].approvals == 0 && races[0].rejections == 0
    && forall i :: 0 <= i < |steps| ==> Leads(races[i], c, steps[i], races[i + 1])
  }

  ghost predicate Leads(r: Race, c: CommandId, s: RaceStep, after: Race) {
    Linked(r.w.db) && StepEnabled(r, c, s) && after == After(r, c, s)
  }

  lemma {:induction false} RaceKeeps(races: seq<Race>, steps: seq<RaceStep>, c: CommandId, i: nat)
    requires RaceRun(races, steps, c) && i < |races|
    ensures RaceOk(races[i], c)
  {
    hide RaceOk, After, StepEnabled;
    if i > 0 {
      RaceKeeps(races, steps, c, i - 1);
      assert Leads(races[i - 1], c, steps[i - 1], races[i]);
      OneStep(races[i - 1], c, steps[i - 1]);
    }
  }

  /** However the decisions on one approval interleave with each other and with the rest of the
      pipeline: at most one approval commits, an approval and a rejection never both commit,
      and the command is announced at most once. */
  lemma DecisionsDoNotConflict(races: seq<Race>, steps: seq<RaceStep>, c: CommandId, i: nat)
    requires RaceRun(races, steps, c) && i < |races|
    ensures races[i].approvals <= 1
    ensures races[i].approvals == 0 || races[i].rejections == 0
    ensures |QueuedRows(races[i].w.db.outbox, c)| <= 1
  {
    hide RaceRun, EventsOk, StopsRespected, ApprovalsOwned, KeysUnique, DossierOk, Entered, QueuedRows, CountInto;
    RaceKeeps(races, steps, c, i);
    var d := DossierOf(races[i].w.db, c);
    QueuedAtMostOnce(d);
    if races[i].approvals > 0 {
      QueuedRefusesDecisions(d);
    }
  }

  // ---- The gate under races ----

  predicate BeforeQueue(s: CommandState) {
    s in {AwaitingApproval, Cancelled, Expired}
  }

  lemma ExpiryGate(d: Dossier)
    requires d.approval.Some?
    ensures Gate(OnApprovalExpiry(d)) <==> BeforeQueue(d.cmd.state)
  {
  }

  /** The gate survives a step exactly when the step is not a late expiry write: a decision that
      read "pending", found the approval past its expiry, and writes "expired" after another
      decision has moved the command on. That can only be after the approval's expiry. */
  lemma GateKeptIff(r: Race, c: CommandId, s: RaceStep)
    requires RaceOk(r, c) && StepEnabled(r, c, s) && GatesOk(r.w.db)
    ensures Linked(After(r, c, s).w.db)
    ensures GatesOk(After(r, c, s).w.db) <==>
              !(s.Finish? && s.intent == Expire && !BeforeQueue(r.w.db.commands[c].state))
    ensures !GatesOk(After(r, c, s).w.db) ==> r.w.db.approvals[c].expiresAt < s.now
  {
    hide DossiersOk, RowsMatch, KeysUnique, EventsOk, StopsRespected, Entered, Apply, Enabled, Extends,
         FinishDecision, Gate, Asked, ShelvesOk;
    var db := r.w.db;
    match s
    case Read(_, _, _, _) =>
    case Finish(intent, note, seen, now) =>
      AnswersAreSafe(r.w, db.approvals[c].owner, seen, now);
      if intent == Expire {
        LateExpiry(db, c);
      } else {
        FinishDecisionOk(db, c, intent == Approve, note, seen, now);
      }
    case Other(a) => ApplyTables(r.w, a);
  }

  lemma LateExpiry(db: Db, c: CommandId)
    requires Base(db) && GatesOk(db) && c in db.approvals
    ensures var after := Put(db, c, OnApprovalExpiry(DossierOf(db, c)), []);
            Linked(after) && (GatesOk(after) <==> BeforeQueue(db.commands[c].state))
  {
    hide DossiersOk, RowsMatch, KeysUnique, EventsOk, StopsRespected, Gate;
    var d := OnApprovalExpiry(DossierOf(db, c));
    PutReads(db, c, d, []);
    ExpiryGate(DossierOf(db, c));
    var after := Put(db, c, d, []);
    assert c in after.commands && DossierOf(after, c) == d;
  }

  /** Such a race exists from every state with a pending approval, a waiting command and no stop: an
      approval that reads at or before the expiry, another decision that reads after it, then the
      approval's end and the late expiry leave a queued command whose approval says "expired". */
  lemma LateExpiryBreaksGate(r: Race, c: CommandId, t1: int, t2: int, note: Option<string>, now: int)
    returns (races: seq<Race>, steps: seq<RaceStep>)
    requires c in r.w.db.approvals && c in r.w.db.commands
    requires r.w.db.approvals[c].status == PendingApproval && r.w.db.commands[c].state == AwaitingApproval
    requires !StopActive(r.w.db, r.w.db.approvals[c].owner)
    requires r.clock <= t1 <= r.w.db.approvals[c].expiresAt < t2 <= now
    requires RaceRun([r], [], c)
    ensures |races| == 5 && races[0] == r && RaceRun(races, steps, c)
    ensures var a := r.w.db.approvals[c];
            steps == [Read(a.owner, a.nonceHash, true, t1), Read(a.owner, a.nonceHash, true, t2),
                      Finish(Approve, note, false, now), Finish(Expire, None, false, now)]
    ensures c in races[4].w.db.commands && races[4].w.db.commands[c].state == Queued
    ensures c in races[4].w.db.approvals && races[4].w.db.approvals[c].status == ExpiredApproval
  {
    hide RaceRun, RaceOk, Leads, Base, StopActive;
    var r1, r2 := TwoReads(r, c, t1, t2);
    var r3, r4 := TwoFinishes(r2, c, note, now);
    var a := r.w.db.approvals[c];
    steps := [Read(a.owner, a.nonceHash, true, t1), Read(a.owner, a.nonceHash, true, t2),
              Finish(Approve, note, false, now), Finish(Expire, None, false, now)];
    races := [r, r1, r2, r3, r4];
    FourSteps(races, steps, c);
  }

  lemma FourSteps(races: seq<Race>, steps: seq<RaceStep>, c: CommandId)
    requires |races| == 5 && |steps| == 4 && RaceRun([races[0]], [], c)
    requires Leads(races[0], c, steps[0], races[1]) && Leads(races[1], c, steps[1], races[2])
    requires Leads(races[2], c, steps[2], races[3]) && Leads(races[3], c, steps[3], races[4])
    ensures RaceRun(races, steps, c)
  {
    hide RaceOk, Leads;
  }

  /** One read before the expiry and one after it leave both decisions under way. */
  lemma TwoReads(r: Race, c: CommandId, t1: int, t2: int) returns (r1: Race, r2: Race)
    requires RaceRun([r], [], c) && c in r.w.db.approvals && r.w.db.approvals[c].status == PendingApproval
    requires r.clock <= t1 <= r.w.db.approvals[c].expiresAt < t2
    ensures var a := r.w.db.approvals[c];
            && Leads(r, c, Read(a.owner, a.nonceHash, true, t1), r1)
            && Leads(r1, c, Read(a.owner, a.nonceHash, true, t2), r2)
    ensures Base(r.w.db) && r2.w == r.w && r2.clock == t2 && Approve in r2.reading && Expire in r2.reading
  {
    hide DossiersOk, RowsMatch, KeysUnique, EventsOk, StopsRespected, ApprovalsOwned, ShelvesOk;
    var a := r.w.db.approvals[c];
    r1 := After(r, c, Read(a.owner, a.nonceHash, true, t1));
    r2 := After(r1, c, Read(a.owner, a.nonceHash, true, t2));
  }

  lemma TwoFinishes(r: Race, c: CommandId, note: Option<string>, now: int) returns (r3: Race, r4: Race)
    requires Base(r.w.db) && c in r.w.db.approvals && r.w.db.commands[c].state == AwaitingApproval
    requires !StopActive(r.w.db, r.w.db.approvals[c].owner)
    requires r.clock <= now && Approve in r.reading && Expire in r.reading
    ensures Leads(r, c, Finish(Approve, note, false, now), r3) && Leads(r3, c, Finish(Expire, None, false, now), r4)
    ensures c in r4.w.db.commands && r4.w.db.commands[c].state == Queued
    ensures c in r4.w.db.approvals && r4.w.db.approvals[c].status == ExpiredApproval
  {
    hide Base, FinishDecision, Put, OnApprovalExpiry, Accepts, Linked;
    ApproveThenExpire(r.w.db, c, note, now);
    r3 := After(r, c, Finish(Approve, note, false, now));
    r4 := After(r3, c, Finish(Expire, None, false, now));
  }

  lemma ApproveThenExpire(db: Db, c: CommandId, note: Option<string>, now: int)
    requires Base(db) && c in db.approvals && db.commands[c].state == AwaitingApproval
    ensures Linked(db)
    ensures var db1 := FinishDecision(db, c, true, note, false, now);
            && Linked(db1) && c in db1.commands && c in db1.approvals && db1.stops == db.stops
            && db1.approvals[c].owner == db.approvals[c].owner
            && var db2 := Put(db1, c, OnApprovalExpiry(DossierOf(db1, c)), []);
               && c in db2.commands && db2.commands[c].state == Queued
               && c in db2.approvals && db2.approvals[c].status == ExpiredApproval
  {
    hide DossiersOk, RowsMatch, KeysUnique, EventsOk, StopsRespected, OnApprove, QueuedEvent, OnApprovalExpiry, Put,
         FinishDecision;
    var d := OnApprove(DossierOf(db, c), note, now);
    ApproveLeaves(DossierOf(db, c), note, now);
    ApproveFinishes(db, c, note, now);
    PutReads(db, c, d, [QueuedEvent(c, db.commands[c])]);
    ExpiryWrites(FinishDecision(db, c, true, note, false, now), c);
  }

  lemma ApproveFinishes(db: Db, c: CommandId, note: Option<string>, now: int)
    requires Linked(db) && c in db.approvals && db.commands[c].state == AwaitingApproval
    ensures var d := OnApprove(DossierOf(db, c), note, now);
            var after := Put(db, c, d, [QueuedEvent(c, db.commands[c])]);
            && FinishDecision(db, c, true, note, false, now) == after && after.stops == db.stops
            && c in after.commands && after.commands[c] == d.cmd
            && c in after.approvals && after.approvals[c] == d.approval.value
  {
    hide QueuedEvent, OnApprove;
    ApproveLeaves(DossierOf(db, c), note, now);
  }

  lemma ExpiryWrites(db: Db, c: CommandId)
    requires Linked(db) && c in db.approvals
    ensures var after := Put(db, c, OnApprovalExpiry(DossierOf(db, c)), []);
            && c in after.commands && after.commands[c].state == db.commands[c].state
            && c in after.approvals && after.approvals[c].status == ExpiredApproval
  {
  }
}
