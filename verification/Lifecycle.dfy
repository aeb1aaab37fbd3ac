/** One command with its child rows, what each operation does to it, and what every
    operation keeps. */
module Lifecycle {
  import opened Options
  import opened CommandStates
  import opened Tables

  /** A command row together with its log, its task and its approval. */
  datatype Dossier = Dossier(cmd: Command, log: seq<LogEntry>, task: Task, approval: Option<Approval>)

  // ---- The guarded transition ----

  function Stamp(cmd: Command, new_: CommandState, meta: Option<Metadata>, now: int): Command {
    match new_
    case Delivered => cmd.(state := new_, deliveredAt := Some(now))
    case Acknowledged => cmd.(state := new_, acknowledgedAt := Some(now))
    case Running => cmd.(state := new_, startedAt := Some(now))
    case Succeeded =>
      cmd.(state := new_, finishedAt := Some(now),
           resultData :=
             if meta.Some? && meta.value.resultData.Some? then meta.value.resultData.value else cmd.resultData,
           resultSummary :=
             if meta.Some? && meta.value.resultSummary.Some? then meta.value.resultSummary else cmd.resultSummary)
    case Failed =>
      cmd.(state := new_, finishedAt := Some(now),
           errorCode := if meta.Some? then meta.value.errorCode else cmd.errorCode,
           errorMessage := if meta.Some? then meta.value.errorMessage else cmd.errorMessage)
    case TimedOut => cmd.(state := new_, finishedAt := Some(now))
    case Cancelled => cmd.(state := new_, finishedAt := Some(now))
    case Expired => cmd.(state := new_, finishedAt := Some(now))
    case _ => cmd.(state := new_)
  }

  function Moved(d: Dossier, new_: CommandState, source: string, meta: Option<Metadata>, now: int): Dossier {
    d.(cmd := Stamp(d.cmd, new_, meta, now),
       log := d.log + [LogEntry(Some(d.cmd.state), new_, source, meta)])
  }

  // ---- What the columns hold ----

  const ERROR_CODE_LIMIT: nat := 50

  predicate Fits(code: Option<string>) {
    code.Some? ==> |code.value| <= ERROR_CODE_LIMIT
  }

  /** The error code is written with a failure only, and its column is bounded. */
  predicate Storable(new_: CommandState, meta: Option<Metadata>) {
    new_ == Failed && meta.Some? ==> Fits(meta.value.errorCode)
  }

  // ---- The lifecycle messages ----

  datatype Message =
    | DeliveredMessage(idText: string, id: Option<CommandId>, device: Option<DeviceId>)
    | AckMessage(idText: string, id: Option<CommandId>, device: Option<DeviceId>,
                 accepted: bool, reason: Option<string>)
    | ProgressMessage(idText: string, id: Option<CommandId>)
    | ResultMessage(idText: string, id: Option<CommandId>, device: Option<DeviceId>,
                    success: bool, data: Option<Json>, code: Option<string>, text: Option<string>)

  predicate Duplicate(log: seq<LogEntry>, key: DedupKey) {
    exists i :: 0 <= i < |log| && log[i].metadata.Some? && log[i].metadata.value.dedup == key
  }

  predicate WrongDevice(cmd: Command, device: Option<DeviceId>) {
    device.Some? && device.value != cmd.device
  }

  function OnDelivered(d: Dossier, m: Message, now: int): Dossier
    requires m.DeliveredMessage?
  {
    var key := DedupKey(Delivery, m.idText);
    if Duplicate(d.log, key) || WrongDevice(d.cmd, m.device) || !Accepts(d.cmd.state, Delivered) then d
    else
      Moved(d, Delivered, "gateway", Some(Metadata(key, None, None, None, None)), now)
        .(task := d.task.(state := TaskRunning))
  }

  function OnAck(d: Dossier, m: Message, now: int): Dossier
    requires m.AckMessage?
  {
    var key := DedupKey(Ack, m.idText);
    if Duplicate(d.log, key) || WrongDevice(d.cmd, m.device) then d
    else if m.accepted then
      if !Accepts(d.cmd.state, Acknowledged) then d
      else Moved(d, Acknowledged, "device", Some(Metadata(key, None, None, None, None)), now)
    else
      if !Accepts(d.cmd.state, Failed) then d
      else
        Moved(d, Failed, "device", Some(Metadata(key, None, None, None, m.reason)), now)
          .(task := TaskWith(d.task, TaskFailed, None, None, m.reason))
  }

  function OnProgress(d: Dossier, m: Message, now: int): Dossier
    requires m.ProgressMessage?
  {
    if d.cmd.state != Acknowledged then d
    else
      Moved(d, Running, "device", Some(Metadata(DedupKey(Progress, m.idText), None, None, None, None)), now)
        .(task := d.task.(state := TaskRunning))
  }

  function OnResult(d: Dossier, m: Message, now: int): Dossier
    requires m.ResultMessage?
  {
    var key := DedupKey(Result, m.idText);
    if Duplicate(d.log, key) || WrongDevice(d.cmd, m.device) then d
    else if m.success then
      if !Accepts(d.cmd.state, Succeeded) then d
      else
        Moved(d, Succeeded, "device", Some(Metadata(key, Some(m.data), Some("success"), None, None)), now)
          .(task := TaskWith(d.task, TaskSucceeded, Some("success"), None, None))
    else
      if !Accepts(d.cmd.state, Failed) || !Fits(m.code) then d
      else
        Moved(d, Failed, "device", Some(Metadata(key, None, None, m.code, m.text)), now)
          .(task := TaskWith(d.task, TaskFailed, None, m.code, m.text))
  }

  function TaskWith(t: Task, state: TaskState, summary: Option<string>,
                    code: Option<string>, text: Option<string>): Task {
    Task(state,
         if summary.Some? then summary else t.summary,
         if code.Some? then code else t.errorCode,
         if text.Some? then text else t.errorMessage)
  }

  function OnMessage(d: Dossier, m: Message, now: int): Dossier {
    match m
    case DeliveredMessage(_, _, _) => OnDelivered(d, m, now)
    case AckMessage(_, _, _, _, _) => OnAck(d, m, now)
    case ProgressMessage(_, _) => OnProgress(d, m, now)
    case ResultMessage(_, _, _, _, _, _, _) => OnResult(d, m, now)
  }

  // ---- The other operations on one command ----

  function OnCancel(d: Dossier, now: int): Dossier {
    if Accepts(d.cmd.state, Cancelled) then Moved(d, Cancelled, "api", None, now) else d
  }

  function OnBlock(d: Dossier, source: string, now: int): Dossier {
    if Accepts(d.cmd.state, Blocked) then Moved(d, Blocked, source, None, now) else d
  }

  function OnExpire(d: Dossier, now: int): Dossier {
    if !Accepts(d.cmd.state, Expired) then d
    else
      var moved := Moved(d, Expired, "scheduler", None, now);
      if d.task.state in {TaskSucceeded, TaskFailed, TaskCancelled} then moved
      else moved.(task := d.task.(state := TaskFailed, summary := Some("expired")))
  }

  /** The approval row carries the decision; the command runs through Approved to Queued. */
  function OnApprove(d: Dossier, note: Option<string>, now: int): Dossier
    requires d.approval.Some?
  {
    Moved(Moved(d, Approved, "approval", None, now), Queued, "approval", None, now)
      .(approval := Some(d.approval.value.(status := ApprovedApproval, decidedAt := Some(now), note := note)))
  }

  function OnReject(d: Dossier, note: Option<string>, now: int): Dossier
    requires d.approval.Some?
  {
    Moved(d, Rejected, "approval", None, now)
      .(approval := Some(d.approval.value.(status := RejectedApproval, decidedAt := Some(now), note := note)))
  }

  function OnApprovalExpiry(d: Dossier): Dossier
    requires d.approval.Some?
  {
    d.(approval := Some(d.approval.value.(status := ExpiredApproval)))
  }

  // ---- The log ----

  /** Chained entries: the first enters Received, every later one continues from the state
      before it and passed both guards. */
  ghost predicate LogOk(log: seq<LogEntry>) {
    && |log| > 0
    && log[0].previous == None && log[0].next == Received
    && forall i :: 0 < i < |log| ==> log[i].previous == Some(log[i - 1].next) && Accepts(log[i - 1].next, log[i].next)
  }

  function LastState(log: seq<LogEntry>): CommandState
    requires log != []
  {
    log[|log| - 1].next
  }

  function CountInto(log: seq<LogEntry>, s: CommandState): nat {
    if log == [] then 0
    else CountInto(log[..|log| - 1], s) + if log[|log| - 1].next == s then 1 else 0
  }

  predicate Entered(log: seq<LogEntry>, s: CommandState) {
    exists i :: 0 <= i < |log| && log[i].next == s
  }

  /** The states of a log, in order. */
  function States(log: seq<LogEntry>): (p: seq<CommandState>)
    ensures |p| == |log|
    ensures forall i :: 0 <= i < |log| ==> p[i] == log[i].next
  {
    seq(|log|, i requires 0 <= i < |log| => log[i].next)
  }

  /** Reading the log from nothing: each entry must continue from the state reached so far. */
  function Replay(log: seq<LogEntry>): Option<CommandState> {
    if log == [] then None
    else
      var e := log[|log| - 1];
      if e.previous == Replay(log[..|log| - 1]) then Some(e.next) else None
  }

  lemma {:induction false} ReplayGivesLastState(log: seq<LogEntry>)
    requires LogOk(log)
    ensures Replay(log) == Some(LastState(log))
  {
    var k := |log| - 1;
    if k > 0 {
      assert LogOk(log[..k]);
      ReplayGivesLastState(log[..k]);
    }
  }

  /** A command's whole history changes state at most eight times. */
  lemma LogChangesAtMostEight(log: seq<LogEntry>)
    requires LogOk(log)
    ensures Walk(States(log)) && Changes(States(log)) <= 8
  {
    AtMostEightChanges(States(log));
  }

  lemma {:induction false} RankRises(log: seq<LogEntry>, i: nat, j: nat)
    requires LogOk(log) && i <= j < |log|
    ensures Rank(log[i].next) <= Rank(log[j].next)
    ensures log[i].next in TERMINAL_STATES ==> log[j].next == log[i].next
    decreases j - i
  {
    if i < j {
      RankRises(log, i, j - 1);
      assert Accepts(log[j - 1].next, log[j].next);
    }
  }

  lemma {:induction false} CountedIsEntered(log: seq<LogEntry>, s: CommandState)
    ensures CountInto(log, s) > 0 <==> Entered(log, s)
  {
    if log != [] {
      var k := |log| - 1;
      CountedIsEntered(log[..k], s);
      if Entered(log[..k], s) {
        var i :| 0 <= i < k && log[..k][i].next == s;
        assert log[i].next == s;
      }
      if Entered(log, s) && log[k].next != s {
        var i :| 0 <= i < |log| && log[i].next == s;
        assert log[..k][i].next == s;
      }
    }
  }

  /** A state above the current rank has not been entered yet. */
  lemma NotYetEntered(log: seq<LogEntry>, s: CommandState)
    requires LogOk(log) && Rank(LastState(log)) < Rank(s)
    ensures !Entered(log, s) && CountInto(log, s) == 0
  {
    forall i | 0 <= i < |log|
      ensures log[i].next != s
    {
      RankRises(log, i, |log| - 1);
    }
    CountedIsEntered(log, s);
  }

  predicate AfterDelivery(s: CommandState) {
    s in {Delivered, Acknowledged, Running, Succeeded, Failed, TimedOut}
  }

  /** Except for a cancelled command, the current state tells whether it was ever delivered. */
  lemma {:induction false} DeliveryIsVisible(log: seq<LogEntry>)
    requires LogOk(log) && LastState(log) != Cancelled
    ensures Entered(log, Delivered) <==> AfterDelivery(LastState(log))
  {
    var k := |log| - 1;
    if k > 0 {
      var earlier := log[..k];
      assert LogOk(earlier);
      assert Accepts(log[k - 1].next, log[k].next);
      DeliveryIsVisible(earlier);
      EnteredAppend(earlier, log[k], Delivered);
      assert earlier + [log[k]] == log;
    }
  }

  lemma EnteredAppend(log: seq<LogEntry>, e: LogEntry, s: CommandState)
    ensures Entered(log + [e], s) <==> Entered(log, s) || e.next == s
  {
    var all := log + [e];
    assert all[|log|] == e;
    if Entered(log, s) {
      var i :| 0 <= i < |log| && log[i].next == s;
      assert all[i].next == s;
    }
    if Entered(all, s) && e.next != s {
      var i :| 0 <= i < |all| && all[i].next == s;
      assert log[i].next == s;
    }
  }

  /** A state that only one state leads to has been preceded by it. */
  lemma {:induction false} CameThrough(log: seq<LogEntry>, s: CommandState, before: CommandState)
    requires LogOk(log) && Entered(log, s) && s != Received && s != before
    requires forall t :: t != s && Accepts(t, s) ==> t == before
    ensures Entered(log, before)
  {
    var i :| 0 <= i < |log| && log[i].next == s;
    if log[i - 1].next == s {
      assert LogOk(log[..i]);
      assert log[..i][i - 1].next == s;
      CameThrough(log[..i], s, before);
      var j :| 0 <= j < i && log[..i][j].next == before;
      assert log[j].next == before;
    } else {
      assert Accepts(log[i - 1].next, s);
      assert log[i - 1].next == before;
    }
  }

  // ---- What every operation keeps ----

  /** Entries made by the consumer carry the key of the message that caused them. */
  predicate MetadataOk(e: LogEntry) {
    match e.next
    case Delivered => e.metadata.Some? && e.metadata.value.dedup.kind == Delivery
    case Acknowledged => e.metadata.Some? && e.metadata.value.dedup.kind == Ack
    case Running => e.metadata.Some? && e.metadata.value.dedup.kind == Progress
    case Succeeded => e.metadata.Some? && e.metadata.value.dedup.kind == Result && e.metadata.value.resultData.Some?
    case Failed => e.metadata.Some? && e.metadata.value.dedup.kind in {Ack, Result}
    case _ => e.metadata.None?
  }

  ghost predicate AllMetadataOk(log: seq<LogEntry>) {
    forall i :: 0 <= i < |log| ==> MetadataOk(log[i])
  }

  ghost predicate KeysDistinct(log: seq<LogEntry>) {
    forall i, j :: 0 <= i < j < |log| && log[i].metadata.Some? && log[j].metadata.Some? ==>
      log[i].metadata.value.dedup != log[j].metadata.value.dedup
  }

  /** The task column as a function of the command's state and history. */
  function TaskFor(s: CommandState, log: seq<LogEntry>): TaskState {
    match s
    case Delivered => TaskRunning
    case Acknowledged => TaskRunning
    case Running => TaskRunning
    case Succeeded => TaskSucceeded
    case Failed => TaskFailed
    case Expired => TaskFailed
    case Cancelled => if Entered(log, Delivered) then TaskRunning else TaskPending
    case _ => TaskPending
  }

  /** Each time stamp is present exactly when its state was entered; the end of a blocked or
      rejected command is never stamped. */
  predicate StampsOk(d: Dossier) {
    && (d.cmd.deliveredAt.Some? <==> Entered(d.log, Delivered))
    && (d.cmd.acknowledgedAt.Some? <==> Entered(d.log, Acknowledged))
    && (d.cmd.startedAt.Some? <==> Entered(d.log, Running))
    && (d.cmd.finishedAt.Some? <==> d.cmd.state in {Succeeded, Failed, Cancelled, Expired})
  }

  /** The stored outcome is the one in the last log entry. */
  predicate OutcomeOk(d: Dossier)
    requires d.log != []
  {
    var last := d.log[|d.log| - 1];
    && (d.cmd.state == Succeeded ==>
          last.metadata.Some? && last.metadata.value.resultData == Some(d.cmd.resultData))
    && (d.cmd.state == Failed ==>
          last.metadata.Some? && last.metadata.value.errorMessage == d.cmd.errorMessage
          && last.metadata.value.errorCode == d.cmd.errorCode)
    && (d.cmd.state != Succeeded ==> d.cmd.resultData == None && d.cmd.resultSummary == None)
    && (d.cmd.state != Failed ==> d.cmd.errorCode == None && d.cmd.errorMessage == None)
  }

  /** States that no committed row is ever in. */
  predicate Settled(s: CommandState) {
    s !in {Received, Validated, Approved, TimedOut}
  }

  ghost predicate DossierOk(d: Dossier) {
    && LogOk(d.log) && LastState(d.log) == d.cmd.state
    && AllMetadataOk(d.log) && KeysDistinct(d.log)
    && CountInto(d.log, Queued) <= 1
    && Settled(d.cmd.state)
    && d.task.state == TaskFor(d.cmd.state, d.log)
    && StampsOk(d) && OutcomeOk(d)
    && d.cmd.requiresApproval == d.approval.Some?
    && (d.approval.None? ==> d.cmd.state !in {AwaitingApproval, Rejected})
  }

  /** The approval gate: which states go with which approval status. */
  predicate GateFor(status: ApprovalStatus, s: CommandState) {
    match status
    case PendingApproval => s in {AwaitingApproval, Cancelled, Expired}
    case ExpiredApproval => s in {AwaitingApproval, Cancelled, Expired}
    case RejectedApproval => s == Rejected
    case ApprovedApproval =>
      s in {Queued, Delivered, Acknowledged, Running, Succeeded, Failed, Blocked, Cancelled, Expired}
  }

  predicate Gate(d: Dossier) {
    d.approval.Some? ==> GateFor(d.approval.value.status, d.cmd.state)
  }

  // ---- One guarded entry more ----

  lemma AppendKeepsLog(log: seq<LogEntry>, e: LogEntry)
    requires LogOk(log) && AllMetadataOk(log)
    requires e.previous == Some(LastState(log)) && Accepts(LastState(log), e.next) && MetadataOk(e)
    ensures LogOk(log + [e]) && AllMetadataOk(log + [e])
    ensures LastState(log + [e]) == e.next
  {
  }

  lemma AppendKeepsKeys(log: seq<LogEntry>, e: LogEntry)
    requires KeysDistinct(log)
    requires e.metadata.Some? ==> !Duplicate(log, e.metadata.value.dedup)
    ensures KeysDistinct(log + [e])
  {
  }

  lemma AppendCounts(log: seq<LogEntry>, e: LogEntry, s: CommandState)
    ensures CountInto(log + [e], s) == CountInto(log, s) + if e.next == s then 1 else 0
  {
    assert (log + [e])[..|log|] == log;
  }

  lemma MovedStamps(d: Dossier, new_: CommandState, source: string, meta: Option<Metadata>, now: int)
    requires StampsOk(d) && Accepts(d.cmd.state, new_) && Settled(d.cmd.state) && Settled(new_)
    ensures StampsOk(Moved(d, new_, source, meta, now))
  {
    var e := LogEntry(Some(d.cmd.state), new_, source, meta);
    EnteredAppend(d.log, e, Delivered);
    EnteredAppend(d.log, e, Acknowledged);
    EnteredAppend(d.log, e, Running);
  }

  lemma MovedOutcome(d: Dossier, new_: CommandState, source: string, meta: Option<Metadata>, now: int)
    requires d.log != [] && OutcomeOk(d) && Accepts(d.cmd.state, new_)
    requires MetadataOk(LogEntry(Some(d.cmd.state), new_, source, meta))
    ensures OutcomeOk(Moved(d, new_, source, meta, now))
  {
  }

  /** A guarded move into any state but Queued keeps everything except the task column. */
  lemma MovedKeeps(d: Dossier, new_: CommandState, source: string, meta: Option<Metadata>, now: int, task: Task)
    requires DossierOk(d)
    requires Accepts(d.cmd.state, new_) && Settled(new_) && new_ != Queued
    requires MetadataOk(LogEntry(Some(d.cmd.state), new_, source, meta))
    requires meta.Some? ==> !Duplicate(d.log, meta.value.dedup)
    requires task.state == TaskFor(new_, Moved(d, new_, source, meta, now).log)
    requires new_ == Rejected ==> d.approval.Some?
    ensures DossierOk(Moved(d, new_, source, meta, now).(task := task))
  {
    var e := LogEntry(Some(d.cmd.state), new_, source, meta);
    var after := Moved(d, new_, source, meta, now);
    assert LogOk(after.log) && AllMetadataOk(after.log) && LastState(after.log) == new_ by {
      AppendKeepsLog(d.log, e);
    }
    assert KeysDistinct(after.log) by {
      AppendKeepsKeys(d.log, e);
    }
    assert CountInto(after.log, Queued) <= 1 by {
      AppendCounts(d.log, e, Queued);
    }
    MovedStamps(d, new_, source, meta, now);
    MovedOutcome(d, new_, source, meta, now);
  }
}
