/** Every operation on one command keeps the command's invariant, its gate, its fixed
    columns and its history. */
module LifecycleProofs {
  import opened Options
  import opened CommandStates
  import opened Tables
  import opened Lifecycle

  /** The columns of an approval that are written once. */
  predicate SameTerms(a: Approval, b: Approval) {
    a.owner == b.owner && a.nonceHash == b.nonceHash && a.expiresAt == b.expiresAt
  }

  /** What no operation undoes: the fixed columns, the log written so far and the
      approval row with its terms. */
  predicate Continues(before: Dossier, after: Dossier) {
    && SameColumns(before.cmd, after.cmd)
    && before.log <= after.log
    && before.approval.Some? == after.approval.Some?
    && (before.approval.Some? ==> SameTerms(before.approval.value, after.approval.value))
  }

  /** The operation did not queue the command. */
  predicate QueuesNothing(before: Dossier, after: Dossier) {
    && CountInto(after.log, Queued) == CountInto(before.log, Queued)
    && (after.cmd.state == Queued ==> before.cmd.state == Queued)
  }

  ghost predicate Keeps(before: Dossier, after: Dossier) {
    && DossierOk(after)
    && Continues(before, after)
    && QueuesNothing(before, after)
    && (Gate(before) ==> Gate(after))
  }

  lemma KeepsItself(d: Dossier)
    requires DossierOk(d)
    ensures Keeps(d, d)
  {
  }

  lemma GateMoves(status: ApprovalStatus, s: CommandState, new_: CommandState)
    requires GateFor(status, s) && Accepts(s, new_) && Settled(new_) && new_ != Rejected
    ensures GateFor(status, new_)
  {
  }

  lemma MoveContinues(d: Dossier, new_: CommandState, source: string, meta: Option<Metadata>, now: int, task: Task)
    requires new_ != Queued
    ensures var after := Moved(d, new_, source, meta, now).(task := task);
            Continues(d, after) && QueuesNothing(d, after) && after.cmd.state == new_
  {
    AppendCounts(d.log, LogEntry(Some(d.cmd.state), new_, source, meta), Queued);
  }

  lemma MoveKeepsAll(d: Dossier, new_: CommandState, source: string, meta: Option<Metadata>, now: int, task: Task)
    requires DossierOk(d)
    requires Accepts(d.cmd.state, new_) && Settled(new_) && new_ !in {Queued, Rejected}
    requires MetadataOk(LogEntry(Some(d.cmd.state), new_, source, meta))
    requires meta.Some? ==> !Duplicate(d.log, meta.value.dedup)
    requires task.state == TaskFor(new_, Moved(d, new_, source, meta, now).log)
    ensures Keeps(d, Moved(d, new_, source, meta, now).(task := task))
  {
    var after := Moved(d, new_, source, meta, now).(task := task);
    assert DossierOk(after) by {
      MovedKeeps(d, new_, source, meta, now, task);
    }
    MoveContinues(d, new_, source, meta, now, task);
    assert Gate(d) ==> Gate(after) by {
      if d.approval.Some? && Gate(d) {
        GateMoves(d.approval.value.status, d.cmd.state, new_);
      }
    }
  }

  lemma OnDeliveredKeeps(d: Dossier, m: Message, now: int)
    requires DossierOk(d) && m.DeliveredMessage?
    ensures Keeps(d, OnDelivered(d, m, now))
  {
    if OnDelivered(d, m, now) != d {
      var meta := Some(Metadata(DedupKey(Delivery, m.idText), None, None, None, None));
      MoveKeepsAll(d, Delivered, "gateway", meta, now, d.task.(state := TaskRunning));
    }
  }

  lemma OnAckKeeps(d: Dossier, m: Message, now: int)
    requires DossierOk(d) && m.AckMessage?
    ensures Keeps(d, OnAck(d, m, now))
  {
    var key := DedupKey(Ack, m.idText);
    if OnAck(d, m, now) != d {
      if m.accepted {
        AckAccepted(d, key, now);
      } else {
        var meta := Some(Metadata(key, None, None, None, m.reason));
        MoveKeepsAll(d, Failed, "device", meta, now, TaskWith(d.task, TaskFailed, None, None, m.reason));
      }
    }
  }

  lemma AckAccepted(d: Dossier, key: DedupKey, now: int)
    requires DossierOk(d) && key.kind == Ack && !Duplicate(d.log, key) && Accepts(d.cmd.state, Acknowledged)
    ensures Keeps(d, Moved(d, Acknowledged, "device", Some(Metadata(key, None, None, None, None)), now))
  {
    assert d.task.state == TaskRunning;
    MoveKeepsAll(d, Acknowledged, "device", Some(Metadata(key, None, None, None, None)), now, d.task);
  }

  /** The progress handler looks up no key: a second entry with the same key would need a
      way back to Acknowledged, and there is none. */
  lemma ProgressKeyIsNew(d: Dossier, key: DedupKey)
    requires DossierOk(d) && d.cmd.state == Acknowledged && key.kind == Progress
    ensures !Duplicate(d.log, key)
  {
    NotYetEntered(d.log, Running);
    assert forall i :: 0 <= i < |d.log| ==> MetadataOk(d.log[i]);
  }

  lemma OnProgressKeeps(d: Dossier, m: Message, now: int)
    requires DossierOk(d) && m.ProgressMessage?
    ensures Keeps(d, OnProgress(d, m, now))
  {
    if d.cmd.state == Acknowledged {
      var key := DedupKey(Progress, m.idText);
      ProgressKeyIsNew(d, key);
      MoveKeepsAll(d, Running, "device", Some(Metadata(key, None, None, None, None)), now,
                   d.task.(state := TaskRunning));
    }
  }

  lemma OnResultKeeps(d: Dossier, m: Message, now: int)
    requires DossierOk(d) && m.ResultMessage?
    ensures Keeps(d, OnResult(d, m, now))
  {
    var key := DedupKey(Result, m.idText);
    if OnResult(d, m, now) != d {
      if m.success {
        var meta := Some(Metadata(key, Some(m.data), Some("success"), None, None));
        MoveKeepsAll(d, Succeeded, "device", meta, now, TaskWith(d.task, TaskSucceeded, Some("success"), None, None));
      } else {
        var meta := Some(Metadata(key, None, None, m.code, m.text));
        MoveKeepsAll(d, Failed, "device", meta, now, TaskWith(d.task, TaskFailed, None, m.code, m.text));
      }
    }
  }

  lemma OnMessageKeeps(d: Dossier, m: Message, now: int)
    requires DossierOk(d)
    ensures Keeps(d, OnMessage(d, m, now))
  {
    match m
    case DeliveredMessage(_, _, _) => OnDeliveredKeeps(d, m, now);
    case AckMessage(_, _, _, _, _) => OnAckKeeps(d, m, now);
    case ProgressMessage(_, _) => OnProgressKeeps(d, m, now);
    case ResultMessage(_, _, _, _, _, _, _) => OnResultKeeps(d, m, now);
  }

  /** A cancelled command's task stays as it was, which tells whether the command was delivered. */
  lemma CancelledTask(d: Dossier, e: LogEntry)
    requires DossierOk(d) && Accepts(d.cmd.state, Cancelled) && e.next == Cancelled
    ensures d.task.state == TaskFor(Cancelled, d.log + [e])
  {
    EnteredAppend(d.log, e, Delivered);
    if d.cmd.state != Cancelled {
      DeliveryIsVisible(d.log);
    }
  }

  lemma OnCancelKeeps(d: Dossier, now: int)
    requires DossierOk(d)
    ensures Keeps(d, OnCancel(d, now))
  {
    if Accepts(d.cmd.state, Cancelled) {
      CancelledTask(d, LogEntry(Some(d.cmd.state), Cancelled, "api", None));
      MoveKeepsAll(d, Cancelled, "api", None, now, d.task);
    }
  }

  lemma OnBlockKeeps(d: Dossier, source: string, now: int)
    requires DossierOk(d)
    ensures Keeps(d, OnBlock(d, source, now))
    ensures OnBlock(d, source, now).cmd.state != Queued
  {
    if Accepts(d.cmd.state, Blocked) {
      assert d.cmd.state in {Queued, Blocked};
      MoveKeepsAll(d, Blocked, source, None, now, d.task);
    }
  }

  lemma OnExpireKeeps(d: Dossier, now: int)
    requires DossierOk(d)
    ensures Keeps(d, OnExpire(d, now))
  {
    if Accepts(d.cmd.state, Expired) {
      assert d.cmd.state in {AwaitingApproval, Queued, Expired};
      MoveKeepsAll(d, Expired, "scheduler", None, now, OnExpire(d, now).task);
    }
  }

  /** Two unmarked entries, into Approved and on into Queued. */
  lemma TwoEntries(log: seq<LogEntry>, e1: LogEntry, e2: LogEntry)
    requires LogOk(log) && AllMetadataOk(log) && KeysDistinct(log) && LastState(log) == AwaitingApproval
    requires e1 == LogEntry(Some(AwaitingApproval), Approved, "approval", None)
    requires e2 == LogEntry(Some(Approved), Queued, "approval", None)
    ensures var l := log + [e1] + [e2];
            LogOk(l) && AllMetadataOk(l) && KeysDistinct(l) && LastState(l) == Queued
  {
    AppendKeepsLog(log, e1);
    AppendKeepsKeys(log, e1);
    AppendKeepsLog(log + [e1], e2);
    AppendKeepsKeys(log + [e1], e2);
  }

  lemma CountsOfTwo(log: seq<LogEntry>, e1: LogEntry, e2: LogEntry)
    requires e1.next == Approved && e2.next == Queued
    ensures CountInto(log + [e1] + [e2], Queued) == CountInto(log, Queued) + 1
    ensures CountInto(log + [e1] + [e2], Approved) == CountInto(log, Approved) + 1
  {
    AppendCounts(log, e1, Queued);
    AppendCounts(log + [e1], e2, Queued);
    AppendCounts(log, e1, Approved);
    AppendCounts(log + [e1], e2, Approved);
  }

  lemma EnteredByTwo(log: seq<LogEntry>, e1: LogEntry, e2: LogEntry, s: CommandState)
    requires e1.next == Approved && e2.next == Queued && s !in {Approved, Queued}
    ensures Entered(log + [e1] + [e2], s) <==> Entered(log, s)
  {
    EnteredAppend(log, e1, s);
    EnteredAppend(log + [e1], e2, s);
  }

  /** Only a command that awaits approval can be approved, and it has not been queued before. */
  lemma OnApproveKeeps(d: Dossier, note: Option<string>, now: int)
    requires DossierOk(d) && d.approval.Some? && Accepts(d.cmd.state, Approved)
    ensures var after := OnApprove(d, note, now);
            && DossierOk(after) && Continues(d, after) && Gate(after)
            && d.cmd.state == AwaitingApproval && after.cmd.state == Queued
            && CountInto(d.log, Queued) == 0 && CountInto(after.log, Queued) == 1
            && CountInto(d.log, Approved) == 0 && CountInto(after.log, Approved) == 1
  {
    hide LogOk, AllMetadataOk, KeysDistinct, StampsOk, OutcomeOk, CountInto, Entered;
    assert d.cmd.state == AwaitingApproval;
    NotYetEntered(d.log, Queued);
    NotYetEntered(d.log, Approved);
    var e1 := LogEntry(Some(AwaitingApproval), Approved, "approval", None);
    var e2 := LogEntry(Some(Approved), Queued, "approval", None);
    var after := OnApprove(d, note, now);
    assert after.log == d.log + [e1] + [e2];
    TwoEntries(d.log, e1, e2);
    CountsOfTwo(d.log, e1, e2);
    ApprovedColumnsOk(d, note, now);
  }

  lemma ApprovedColumnsOk(d: Dossier, note: Option<string>, now: int)
    requires d.approval.Some? && d.cmd.state == AwaitingApproval && d.log != [] && StampsOk(d) && OutcomeOk(d)
    ensures var after := OnApprove(d, note, now); after.log != [] && StampsOk(after) && OutcomeOk(after)
  {
    hide Entered;
    var e1 := LogEntry(Some(AwaitingApproval), Approved, "approval", None);
    var e2 := LogEntry(Some(Approved), Queued, "approval", None);
    assert OnApprove(d, note, now).log == d.log + [e1] + [e2];
    EnteredByTwo(d.log, e1, e2, Delivered);
    EnteredByTwo(d.log, e1, e2, Acknowledged);
    EnteredByTwo(d.log, e1, e2, Running);
  }

  lemma QueuedAtMostOnce(d: Dossier)
    requires DossierOk(d)
    ensures CountInto(d.log, Queued) <= 1
    ensures d.cmd.state == Rejected ==> Accepts(d.cmd.state, Rejected)
  {
    hide LogOk, AllMetadataOk, KeysDistinct, StampsOk, OutcomeOk;
  }

  lemma ApproveLeaves(d: Dossier, note: Option<string>, now: int)
    requires d.approval.Some?
    ensures var after := OnApprove(d, note, now);
            && after.cmd.state == Queued && after.cmd.device == d.cmd.device
            && after.approval.Some? && after.approval.value.owner == d.approval.value.owner
  {
  }

  lemma OnRejectKeeps(d: Dossier, note: Option<string>, now: int)
    requires DossierOk(d) && d.approval.Some? && Accepts(d.cmd.state, Rejected)
    ensures var after := OnReject(d, note, now);
            && DossierOk(after) && Continues(d, after) && QueuesNothing(d, after) && Gate(after)
            && d.cmd.state in {AwaitingApproval, Rejected} && after.cmd.state == Rejected
            && CountInto(after.log, Approved) == CountInto(d.log, Approved)
  {
    hide LogOk, AllMetadataOk, KeysDistinct, StampsOk, OutcomeOk, CountInto, Stamp;
    var e := LogEntry(Some(d.cmd.state), Rejected, "approval", None);
    assert d.cmd.state in {AwaitingApproval, Rejected};
    StampRejected(d.cmd, now);
    MovedKeeps(d, Rejected, "approval", None, now, d.task);
    OtherApproval(Moved(d, Rejected, "approval", None, now), OnReject(d, note, now).approval.value);
    AppendCounts(d.log, e, Queued);
    AppendCounts(d.log, e, Approved);
  }

  lemma StampRejected(cmd: Command, now: int)
    ensures Stamp(cmd, Rejected, None, now) == cmd.(state := Rejected)
  {
  }

  /** A command's own invariant does not depend on what its approval row says. */
  lemma OtherApproval(d: Dossier, a: Approval)
    requires DossierOk(d) && d.approval.Some?
    ensures DossierOk(d.(approval := Some(a)))
  {
    hide LogOk, AllMetadataOk, KeysDistinct, CountInto, Entered;
  }

  /** Expiring the approval touches nothing else; it keeps the gate when the approval was pending. */
  lemma OnApprovalExpiryKeeps(d: Dossier)
    requires DossierOk(d) && d.approval.Some?
    ensures var after := OnApprovalExpiry(d);
            && DossierOk(after) && Continues(d, after) && QueuesNothing(d, after)
            && (Gate(d) && d.approval.value.status == PendingApproval ==> Gate(after))
  {
  }

  // ---- Histories ----

  lemma HistoryStays(a: Dossier, b: Dossier)
    requires DossierOk(a) && DossierOk(b) && Continues(a, b)
    ensures Rank(a.cmd.state) <= Rank(b.cmd.state)
    ensures a.cmd.state in TERMINAL_STATES ==> b.cmd.state == a.cmd.state
  {
    assert LogOk(b.log) && a.log[|a.log| - 1] == b.log[|a.log| - 1];
    RankRises(b.log, |a.log| - 1, |b.log| - 1);
  }

  lemma OnlyQueuedRanksSo(s: CommandState)
    ensures Rank(s) >= Rank(Queued) ==> (Rank(s) <= Rank(Queued) <==> s == Queued)
  {
  }

  lemma RankOnceQueued(d: Dossier)
    requires DossierOk(d) && CountInto(d.log, Queued) > 0
    ensures Rank(d.cmd.state) >= Rank(Queued)
  {
    hide Rank;
    CountedIsEntered(d.log, Queued);
    var p :| 0 <= p < |d.log| && d.log[p].next == Queued;
    RankRises(d.log, p, |d.log| - 1);
  }

  lemma QueuedIsCounted(d: Dossier)
    requires DossierOk(d) && d.cmd.state == Queued
    ensures CountInto(d.log, Queued) > 0
  {
    assert d.log[|d.log| - 1].next == Queued;
    CountedIsEntered(d.log, Queued);
  }

  // ---- The dossier of a new command ----

  function NewCommand(device: DeviceId, commandType: string, parameters: Json, risk: string, key: string,
                      requiresApproval: bool, expiresAt: Option<int>, state: CommandState): Command {
    Command(device, commandType, parameters, risk, key, requiresApproval, expiresAt, state,
            None, None, None, None, None, None, None, None)
  }

  /** What an accepted request leaves behind: the command waits for approval or is queued,
      with the three log entries that lead there. */
  function NewDossier(cmd: Command, approval: Option<Approval>): Dossier {
    var last := if approval.Some? then AwaitingApproval else Queued;
    Dossier(cmd.(state := last),
            [LogEntry(None, Received, "api", None),
             LogEntry(Some(Received), Validated, "api", None),
             LogEntry(Some(Validated), last, "api", None)],
            Task(TaskPending, None, None, None),
            approval)
  }

  lemma NewLogOk(last: CommandState)
    requires last in {AwaitingApproval, Queued}
    ensures var l := [LogEntry(None, Received, "api", None),
                      LogEntry(Some(Received), Validated, "api", None),
                      LogEntry(Some(Validated), last, "api", None)];
            LogOk(l) && AllMetadataOk(l) && KeysDistinct(l)
  {
  }

  lemma NewDossierOk(cmd: Command, approval: Option<Approval>)
    requires cmd == NewCommand(cmd.device, cmd.commandType, cmd.parameters, cmd.risk, cmd.key,
                               cmd.requiresApproval, cmd.expiresAt, cmd.state)
    requires cmd.requiresApproval == approval.Some?
    requires approval.Some? ==> approval.value.status == PendingApproval
    ensures var d := NewDossier(cmd, approval);
            DossierOk(d) && Gate(d) && CountInto(d.log, Queued) == if approval.Some? then 0 else 1
  {
    var d := NewDossier(cmd, approval);
    var l := d.log;
    assert l[..2][..1] == l[..1] && l[..1][..0] == [];
    assert CountInto(l[..1], Queued) == 0;
    assert CountInto(l[..2], Queued) == 0;
    NewLogOk(if approval.Some? then AwaitingApproval else Queued);
    hide LogOk, AllMetadataOk, KeysDistinct;
  }
}
