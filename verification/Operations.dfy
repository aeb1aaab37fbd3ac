/** What each service call does to the store, as a function of the committed tables. */
module Operations {
  import opened Options
  import opened CommandStates
  import opened Tables
  import opened Lifecycle
  import opened LifecycleProofs
  import opened Store
  import Subjects

  const APPROVAL_TTL_SECONDS: int := 30 * 60
  const MAX_ATTEMPTS: nat := 3

  // ---- Commands ----

  datatype Request = Request(
    device: DeviceId, commandType: string, parameters: Json, key: string,
    requiresApproval: bool, expiresAt: Option<int>)

  /** The registry's entry for a command type. */
  datatype Definition = Definition(risk: string, requiresApproval: bool)

  predicate KeyTaken(db: Db, device: DeviceId, key: string) {
    exists c :: c in db.commands && db.commands[c].device == device && db.commands[c].key == key
  }

  predicate OwnsDevice(db: Db, owner: OwnerId, device: DeviceId) {
    device in db.devices && db.devices[device].owner == owner
  }

  /** Every check a request passes before a row is written. `seen` is the answer of the
      emergency-stop service, `definition` the registry's answer and `schemaOk` the
      verdict of the parameter schema. */
  predicate Creatable(db: Db, r: Request, owner: OwnerId, seen: bool,
                      definition: Option<Definition>, schemaOk: bool) {
    && OwnsDevice(db, owner, r.device) && db.devices[r.device].trust == Trusted
    && !seen
    && !KeyTaken(db, r.device, r.key)
    && definition.Some? && schemaOk
  }

  function RequestedCommand(r: Request, definition: Definition): Command {
    NewCommand(r.device, r.commandType, r.parameters, definition.risk, r.key,
               NeedsApproval(r, definition), r.expiresAt, Received)
  }

  function PendingFor(owner: OwnerId, nonceHash: string, now: int): Approval {
    Approval(owner, PendingApproval, nonceHash, now + APPROVAL_TTL_SECONDS, None, None)
  }

  function Create(db: Db, c: CommandId, r: Request, owner: OwnerId, seen: bool,
                  definition: Option<Definition>, schemaOk: bool, nonceHash: string, now: int): Db {
    if !Creatable(db, r, owner, seen, definition, schemaOk) then db
    else Insert(db, c, r, owner, definition.value, nonceHash, now)
  }

  predicate NeedsApproval(r: Request, definition: Definition) {
    definition.requiresApproval || r.requiresApproval
  }

  /** The rows of an accepted request. */
  function Insert(db: Db, c: CommandId, r: Request, owner: OwnerId, definition: Definition, nonceHash: string,
                  now: int): Db {
    var cmd := RequestedCommand(r, definition);
    var d := NewDossier(cmd, if cmd.requiresApproval then Some(PendingFor(owner, nonceHash, now)) else None);
    Put(db, c, d, if cmd.requiresApproval then [] else [QueuedEvent(c, d.cmd)])
  }

  predicate OwnsCommand(db: Db, owner: OwnerId, c: CommandId) {
    c in db.commands && OwnsDevice(db, owner, db.commands[c].device)
  }

  function Cancel(db: Db, c: CommandId, owner: OwnerId, now: int): Db
    requires Linked(db)
  {
    if !OwnsCommand(db, owner, c) then db else Put(db, c, OnCancel(DossierOf(db, c), now), [])
  }

  // ---- Approvals ----

  predicate Undecided(db: Db, c: CommandId, owner: OwnerId) {
    c in db.approvals && db.approvals[c].owner == owner && db.approvals[c].status == PendingApproval
  }

  /** The part of a decision that runs under the row locks: it overwrites the approval row
      whatever its status has become, and rolls back when a guard refuses the command. */
  function FinishDecision(db: Db, c: CommandId, approve: bool, note: Option<string>, seen: bool, now: int): Db
    requires Linked(db) && c in db.approvals
  {
    var d := DossierOf(db, c);
    if approve then
      if seen || !Accepts(d.cmd.state, Approved) then db
      else Put(db, c, OnApprove(d, note, now), [QueuedEvent(c, d.cmd)])
    else if !Accepts(d.cmd.state, Rejected) then db
    else Put(db, c, OnReject(d, note, now), [])
  }

  function Decide(db: Db, c: CommandId, owner: OwnerId, approve: bool, nonceHash: string,
                  note: Option<string>, seen: bool, now: int): Db
    requires Linked(db)
  {
    if !Undecided(db, c, owner) then db
    else if db.approvals[c].expiresAt < now then Put(db, c, OnApprovalExpiry(DossierOf(db, c)), [])
    else if nonceHash != db.approvals[c].nonceHash then db
    else FinishDecision(db, c, approve, note, seen, now)
  }

  /** Opening an approval by hand; the unique command_id column refuses a second row. */
  function OpenApproval(db: Db, c: CommandId, owner: OwnerId, nonceHash: string, expiresAt: int): Db {
    if OwnsCommand(db, owner, c) && db.commands[c].state == AwaitingApproval && c !in db.approvals then
      db.(approvals := db.approvals[c := Approval(owner, PendingApproval, nonceHash, expiresAt, None, None)])
    else db
  }

  predicate ApprovalOverdue(a: Approval, now: int) {
    a.status == PendingApproval && a.expiresAt < now
  }

  function ExpireApprovals(db: Db, now: int): Db {
    db.(approvals := map c | c in db.approvals ::
          if ApprovalOverdue(db.approvals[c], now) then db.approvals[c].(status := ExpiredApproval)
          else db.approvals[c])
  }

  // ---- Scheduler ----

  predicate Overdue(db: Db, c: CommandId, now: int) {
    && c in db.commands
    && db.commands[c].state in {Queued, AwaitingApproval, Approved, Delivered}
    && db.commands[c].expiresAt.Some? && db.commands[c].expiresAt.value < now
  }

  function ExpireCommands(db: Db, ids: set<CommandId>, now: int): Db
    requires Linked(db)
  {
    Bulk(db, ids, d => OnExpire(d, now))
  }

  /** One pass of the scheduler over approvals and commands, in one transaction. */
  function RunTasks(db: Db, ids: set<CommandId>, now: int): Db
    requires Linked(db)
  {
    ExpireCommands(ExpireApprovals(db, now), ids, now)
  }

  // ---- Emergency stop ----

  function StopEvent(owner: OwnerId, active: bool, reason: string): OutboxEvent {
    OutboxEvent(if active then StopActivated else StopReleased, owner,
                if active then Subjects.EmergencyStop(owner) else Subjects.EmergencyResume(owner),
                StopPayload(owner, active, reason), PendingEvent, 0)
  }

  function ToBlock(db: Db, owner: OwnerId): set<CommandId> {
    set c | c in db.commands && OwnsCommand(db, owner, c) && db.commands[c].state in {Queued, Approved}
  }

  function Activate(db: Db, owner: OwnerId, reason: string, now: int): Db
    requires Linked(db)
  {
    if StopActive(db, owner) then db.(outbox := db.outbox + [StopEvent(owner, true, db.stops[owner].reason)])
    else
      Bulk(db, ToBlock(db, owner), d => OnBlock(d, "emergency_stop_activation", now))
        .(stops := db.stops[owner := Stop(true, reason)],
          outbox := db.outbox + [StopEvent(owner, true, reason)])
  }

  function Release(db: Db, owner: OwnerId): Db {
    if !StopActive(db, owner) then db
    else
      db.(stops := db.stops[owner := db.stops[owner].(active := false)],
          outbox := db.outbox + [StopEvent(owner, false, "")])
  }

  // ---- Consumer ----

  function Consume(db: Db, m: Message, now: int): Db
    requires Linked(db)
  {
    if m.id.None? || m.id.value !in db.commands then db
    else Put(db, m.id.value, OnMessage(DossierOf(db, m.id.value), m, now), [])
  }

  // ---- Outbox ----

  /** What happened to one hand-over to the broker: acknowledged; stored although the
      acknowledgement was lost; or not stored at all. */
  datatype PublishResult = Acked | AckLost | NotStored

  /** One event of a batch; the question about the owner's stop may raise and then has no answer. */
  datatype PublishItem = PublishItem(index: nat, seen: Option<bool>, result: PublishResult)

  /** The publisher asks about the stop before it announces a stored command. */
  predicate AsksStop(db: Db, item: PublishItem)
    requires item.index < |db.outbox|
  {
    var e := db.outbox[item.index];
    e.kind == CommandQueued && e.aggregateId in db.commands && db.commands[e.aggregateId].device in db.devices
  }

  /** The publisher holds the announcement back and blocks the command. */
  predicate HeldBack(db: Db, item: PublishItem)
    requires item.index < |db.outbox|
  {
    AsksStop(db, item) && item.seen == Some(true)
  }

  /** A question that raises counts as a failed hand-over. */
  function ResultOf(db: Db, item: PublishItem): PublishResult
    requires item.index < |db.outbox|
  {
    if AsksStop(db, item) && item.seen.None? then NotStored else item.result
  }

  predicate Publishable(db: Db, item: PublishItem) {
    item.index < |db.outbox| && db.outbox[item.index].status == PendingEvent
  }

  function AfterPublish(e: OutboxEvent, result: PublishResult): OutboxEvent {
    if result.Acked? then e.(status := PublishedEvent)
    else if e.attempts >= MAX_ATTEMPTS then e.(status := FailedEvent)
    else e.(attempts := e.attempts + 1)
  }

  function PublishOne(db: Db, item: PublishItem, now: int): Db
    requires Linked(db)
  {
    if !Publishable(db, item) then db
    else
      var e := db.outbox[item.index];
      if HeldBack(db, item) then
        var blocked := Put(db, e.aggregateId, OnBlock(DossierOf(db, e.aggregateId), "outbox_enforcement", now), []);
        blocked.(outbox := blocked.outbox[item.index := e.(status := FailedEvent)])
      else db.(outbox := db.outbox[item.index := AfterPublish(e, ResultOf(db, item))])
  }

  // ---- Devices ----

  function RevokedEvent(device: DeviceId, owner: OwnerId): OutboxEvent {
    OutboxEvent(DeviceRevoked, device, Subjects.DeviceLifecycle(device), RevokedPayload(device, owner), PendingEvent, 0)
  }

  function Revoke(db: Db, device: DeviceId, owner: OwnerId): Db {
    if !OwnsDevice(db, owner, device) then db
    else
      db.(devices := db.devices[device := db.devices[device].(trust := Revoked)],
          outbox := db.outbox + [RevokedEvent(device, owner)])
  }

  /** A confirmed pairing inserts a trusted device under a fresh id. */
  function AddDevice(db: Db, device: DeviceId, owner: OwnerId): Db {
    if device in db.devices then db else db.(devices := db.devices[device := Device(owner, Trusted)])
  }
}
