/** The rows of the transactional store and the store as one value. */
module Tables {
  import opened Options
  import opened CommandStates
  import Subjects

  // Ids are represented by their canonical text.
  type CommandId = string
  type DeviceId = string
  type OwnerId = string
  type Json = string

  datatype TrustStatus = Trusted | Revoked | PendingTrust

  datatype Device = Device(owner: OwnerId, trust: TrustStatus)

  datatype Command = Command(
    device: DeviceId, commandType: string, parameters: Json, risk: string, key: string,
    requiresApproval: bool, expiresAt: Option<int>,
    state: CommandState,
    deliveredAt: Option<int>, acknowledgedAt: Option<int>, startedAt: Option<int>, finishedAt: Option<int>,
    resultData: Option<Json>, resultSummary: Option<string>,
    errorCode: Option<string>, errorMessage: Option<string>)

  /** The columns that are written once, when the row is inserted. */
  predicate SameColumns(a: Command, b: Command) {
    && a.device == b.device && a.commandType == b.commandType && a.parameters == b.parameters
    && a.risk == b.risk && a.key == b.key && a.requiresApproval == b.requiresApproval
    && a.expiresAt == b.expiresAt
  }

  datatype MessageKind = Delivery | Ack | Progress | Result

  /** The text "<kind>:<id text>" by which the consumer recognises a message it has handled. */
  datatype DedupKey = DedupKey(kind: MessageKind, idText: string)

  datatype Metadata = Metadata(
    dedup: DedupKey,
    resultData: Option<Option<Json>>, resultSummary: Option<string>,
    errorCode: Option<string>, errorMessage: Option<string>)

  datatype LogEntry = LogEntry(
    previous: Option<CommandState>, next: CommandState, source: string, metadata: Option<Metadata>)

  datatype TaskState =
    | TaskPending | TaskQueued | TaskDelivered | TaskAcknowledged | TaskRunning
    | TaskSucceeded | TaskFailed | TaskTimedOut | TaskCancelled

  datatype Task = Task(
    state: TaskState, summary: Option<string>, errorCode: Option<string>, errorMessage: Option<string>)

  datatype ApprovalStatus = PendingApproval | ApprovedApproval | RejectedApproval | ExpiredApproval

  datatype Approval = Approval(
    owner: OwnerId, status: ApprovalStatus, nonceHash: string, expiresAt: int,
    decidedAt: Option<int>, note: Option<string>)

  datatype EventKind = CommandQueued | StopActivated | StopReleased | DeviceRevoked

  datatype Payload =
    | CommandPayload(commandId: CommandId, deviceId: DeviceId, commandType: string, parameters: Json,
                     expiresAt: Option<int>, risk: string)
    | StopPayload(ownerId: OwnerId, active: bool, reason: string)
    | RevokedPayload(revokedId: DeviceId, revokedOwner: OwnerId)

  datatype OutboxStatus = PendingEvent | PublishedEvent | FailedEvent

  datatype OutboxEvent = OutboxEvent(
    kind: EventKind, aggregateId: string, subject: string, payload: Payload,
    status: OutboxStatus, attempts: nat)

  datatype Stop = Stop(active: bool, reason: string)

  /** Tasks, approvals and the state log hang off their command: task and approval rows are
      addressed by their unique command_id column, log entries are kept in insertion order.
      Outbox rows are kept in creation order and an event's id is its position. */
  datatype Db = Db(
    devices: map<DeviceId, Device>,
    commands: map<CommandId, Command>,
    log: map<CommandId, seq<LogEntry>>,
    tasks: map<CommandId, Task>,
    approvals: map<CommandId, Approval>,
    outbox: seq<OutboxEvent>,
    stops: map<OwnerId, Stop>)

  predicate StopActive(db: Db, owner: OwnerId) {
    owner in db.stops && db.stops[owner].active
  }

  /** Foreign keys and the one-to-one child rows. */
  ghost predicate Linked(db: Db) {
    && db.log.Keys == db.commands.Keys
    && db.tasks.Keys == db.commands.Keys
    && db.approvals.Keys <= db.commands.Keys
    && (forall c :: c in db.commands ==> db.commands[c].device in db.devices)
  }

  function PayloadOf(c: CommandId, cmd: Command): Payload {
    CommandPayload(c, cmd.device, cmd.commandType, cmd.parameters, cmd.expiresAt, cmd.risk)
  }

  /** The outbox row that announces a queued command to its device. */
  function QueuedEvent(c: CommandId, cmd: Command): OutboxEvent {
    OutboxEvent(CommandQueued, c, Subjects.CommandReady(cmd.device), PayloadOf(c, cmd), PendingEvent, 0)
  }
}
