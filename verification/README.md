# Veyaan command pipeline: a verified model

The backend sends commands to paired devices. A command is created through the API, may need a human
approval, is announced through a transactional outbox, published to a message broker, delivered by a
WebSocket gateway, and followed to its end by a consumer of the device's lifecycle messages; a scheduler
expires what is late and an emergency stop blocks what is queued. Several processes share one database,
one cache and one broker. This project models that pipeline in Dafny and proves what it keeps over every run.

`dafny verify dfyconfig.toml` checks everything.

## How the model is built

| files | content |
|---|---|
| `CommandStates` | the transition table, the SQL trigger, and what both allow together |
| `Tables`, `Lifecycle`, `LifecycleProofs` | the rows; one command with its log, task and approval (a *dossier*); what each operation does to it and keeps |
| `Store`, `Operations`, `OperationProofs` | the invariant across tables; every service call as a function of the committed tables; each keeps the invariant and undoes nothing |
| `Sessions`, `Services`, `ConsumerWorker`, `SchedulerWorker`, `PublisherWorker` | the same calls as the code makes them, row by row inside a session with commit and rollback, each proved to commit exactly what `Operations` says |
| `Effects` | what each operation does, column by column and in the columns alone |
| `Broker`, `Pipeline`, `PipelineProofs` | outbox against broker with crashes; the pipeline as one state machine and its runs |
| `Guarantees`, `MessageOrder`, `AtMostOnce`, `Races`, `Scheduler`, `Gateway` | the theorems about all runs |
| `Delivery` | which queued commands can still be sent in time |
| `Requests`, `Reachability` | a request followed to its device; runs that reach every state a committed command can be in |
| `StopErasure`, `StopRaces`, `StopTiming` | the invariant without the stop rule; the emergency-stop test apart from the commit; the cache's late answers over runs of the pipeline |
| `Counterexamples` | for each promise that the code does not keep, a run from a reached world that breaks it |
| `StopCache`, `Pairing`, `RateLimit`, `Subjects` | the emergency-stop cache, device pairing, the rate limiter, subject routing |

`Pipeline.Action` lists the steps of the pipeline, `PipelineProofs.Run` is a run from the empty store, and the
theorems of `Guarantees` speak about every state, or every two states, of every run. The class methods and
the pure specification are tied by equality (`s.committed == Decide(old(s.committed), ...)`), so a theorem about
`Operations` is a theorem about what the methods commit.

### Modelling decisions

- A service call is one atomic step, and a session commits on normal exit and rolls back on an exception. Where
  interleaving matters it is modelled step by step: the unlocked approval read (`Races`), the emergency-stop
  test against the commit (`StopRaces`), database against cache (`StopCache`, and the cache steps of `Pipeline`),
  publish against commit (`Broker`, `PublisherWorker`), and the two parts of a disconnect (`Gateway`).
- The pipeline carries each owner's cache entry and the cache operations under way. The answer `seen` that a call
  gets must be one the service can give there: the value of a live entry, or the row after a miss that may lie back.
  That an active stop is never answered with "inactive" is then a theorem (`PipelineProofs.AnswersAreSafe`).
- A decision's read takes its intent from the row, the clock and the request; the steps of a race never go back in time.
- A delivery meets conditions that the gateway does not control: whether the check's database read succeeds, whether
  the connection takes the message, and whether the delivery report is published. Acknowledged broker messages are
  gone; refused ones come back without limit.
- The state column is guarded twice. A change happens when both the table and the trigger accept it; when only the
  table does, the database raises and the session can only be rolled back. Re-entering a state is accepted, also for
  terminal states: it appends a log entry and stamps `finished_at` again, so only the *state* of a terminal command is fixed.
- Ids are canonical text. Task and approval rows are addressed by their unique `command_id`; an outbox row's id is
  its position. A message carries the id both as sent and as parsed, because the duplicate key is built from the raw text.
- `trust_status` is an enumeration, and the `get_task` call of `create_command` is the lookup by command id.
- `expires_at` is mandatory in the message to a device, so a command without an expiry is announced and never sent.
- Logging is a no-op. (The publisher and the scheduler pass keyword arguments that the standard logger rejects.)
- Hashes of nonces and pairing codes are compared as opaque strings; time stamps are integers in seconds. The number of
  pairing attempts and the lifetime of a code are constants without a fixed value.
- The broker drops a repeated message id for 120 seconds, the duplicate window of app/events/nats_client.py:41, and not for ever.
- Which rows an unordered, limited query returns is a parameter (`ids`), restricted to what the query can select.

### What turned out not to hold, and exactly when it does

- The gate "a queued command's approval is approved" survives every step except one: a decision that read the
  approval as pending, found it past its expiry, and writes "expired" after another decision has moved the
  command on. `Races.GateKeptIff` is the exact condition, `Races.LateExpiryBreaksGate` the steps that break it, and
  `Counterexamples.LateExpiryHappens` a run with reads one second apart.
- The rule "a stopped owner has nothing queued" holds while calls are atomic. A call commits after it has asked, and
  `StopRaces.BreaksIffActivatedSince` is the exact condition under which that breaks the rule; `Counterexamples.StopIsOvertaken`
  is a run.
- "An acknowledged message could not have been delivered any more" fails when the check's database read raises: the
  exception counts as a failed check, and the command is lost for good although QUEUED. `Gateway.DiscardIsSafeIff` is the
  exact condition, `Gateway.SilentForGood` the consequence, `Counterexamples.FailedReadLosesCommand` a run.
- An announcement that fails four hand-overs is given up, and its command stays QUEUED unsent
  (`Counterexamples.FailedAnnouncementLosesCommand`). A command can be lost while its announcement is still pending, too: a
  copy that was handed over before a crash, and acknowledged unsent, keeps further copies out of the broker beyond the
  command's expiry (`Counterexamples.DuplicateLosesCommand`). `Delivery.SendableIff` says exactly which commands can still be
  sent in time.
- "A pairing's code is compared at most the configured number of times" holds for wrong codes. The right code of a pairing
  whose device type the table of devices refuses (it admits macbook, iphone and ipad, while pairings take any text) fails at
  the insert, which rolls the counter back, and can be compared again and again: `Pairing.BoundedIffAdmitted`,
  `Pairing.ComparedOften`.
- A failure report with an error code of more than 50 characters never takes effect: `ConsumerWorker.RaisesIff`.
- A disconnect may delete its successor's connection record: exactly when the successor registers between the look and
  the deletion (`Gateway.DropHitsSuccessorIff`, `Gateway.SuccessorLosesRecord`).
- A device's refusal (`accepted = false`) is meant to fail the command. In runs whose messages spell ids canonically
  it never changes anything (`AtMostOnce.RefusalNeverTakesEffect`): before RUNNING the trigger refuses the change and
  the message is returned to the broker (`ConsumerWorker.RaisesIff`), afterwards the key is used up.
- "The result is written at most once" needs canonical spelling: `AtMostOnce.SuccessRepeatsIffNewSpelling`, with a run in
  `Counterexamples.ResultIsRewritten`.
- The scheduler selects overdue DELIVERED commands that it can never expire. With a hundred of them a pass can select
  nothing else: `Scheduler.StarvationIff`, with such a store in `Counterexamples.SchedulerStarves`.
- The trigger alone allows an endless QUEUED/BLOCKED cycle: `CommandStates.TriggerAloneCyclesForever`.
- A retry after a crash duplicates a broker message exactly when it comes after the duplicate window: `Broker.CrashRetryCopies`.
- Every call restarts the rate limiter's window, so a refused client that keeps calling stays refused: `RateLimit.RefusedWhileCalling`.
- Opening an approval by hand never succeeds, because every command that awaits approval already has its row:
  `OperationProofs.OpenApprovalNeverSucceeds`. TIMED_OUT is never reached: `Reachability.ReachableIffSettled`.
- `_pre_delivery_check` documents an emergency-stop test that its code does not make; `Gateway.CheckedIsCleared` shows
  that with atomic steps the promise holds all the same.

## Model

| member | source | states |
|---|---|---|
| CommandStates.AtMostEightChanges | app/commands/state_machine.py:20-94 | Under table and trigger together, no walk of any length changes state more than eight times |
| CommandStates.EightChangesReached | app/commands/state_machine.py:20-61 | The bound is reached: an approved and successful life makes eight changes |
| CommandStates.TerminalStatesFixed | app/commands/state_machine.py:63-94 | A walk that starts in any of the seven terminal states stays in it for ever |
| CommandStates.FailedOnlyFromRunning | migrations/versions/007_add_state_transition_constraints.py:65-85 | Although the table lists FAILED after four states, both guards together let it be entered only from RUNNING |
| CommandStates.TriggerAloneCyclesForever | migrations/versions/007_add_state_transition_constraints.py:38-116 | For every n the trigger alone permits n changes between QUEUED and BLOCKED, a walk the composed guard refuses as soon as it leaves BLOCKED |
| CommandStates.GuardsDisagree | migrations/versions/007_add_state_transition_constraints.py:38-116 | The exact pairs of states on which the table and the trigger disagree, both ways |
| CommandStates.AcceptedChanges | app/commands/state_machine.py:20-94 | The twenty-one changes of state that both guards let through, and no other |
| Lifecycle.ReplayGivesLastState | app/commands/state_machine.py:121-131 | Replaying a chained log from nothing gives the state of its last entry |
| Lifecycle.LogChangesAtMostEight | app/commands/state_machine.py:88-131 | A command's whole history is a walk under both guards with at most eight changes |
| Lifecycle.DeliveryIsVisible | app/commands/state_machine.py:20-61 | Unless it was cancelled, a command's state tells whether its log contains DELIVERED, both directions |
| Lifecycle.CameThrough | app/commands/state_machine.py:20-61 | A state that only one other state leads to was preceded by it in the log |
| LifecycleProofs.OnMessageKeeps | app/workers/command_consumer.py:99-315 | Every lifecycle message keeps the command's invariant (chained log, unique dedup keys, task, stamps, stored outcome) and the gate, queues nothing and undoes nothing |
| LifecycleProofs.ProgressKeyIsNew | app/workers/command_consumer.py:211-243 | Without a duplicate lookup, a progress message that takes effect still has an unused key, because nothing leads back to ACKNOWLEDGED |
| LifecycleProofs.OnApproveKeeps | app/approvals/service.py:143-201 | Only a command awaiting approval can be approved; it goes through APPROVED to QUEUED once, and its invariant and gate hold afterwards |
| LifecycleProofs.OnRejectKeeps | app/approvals/service.py:203-211 | A rejection leaves a rejected command whose invariant and gate hold, and queues nothing |
| LifecycleProofs.OnExpireKeeps | app/workers/scheduler.py:108-135 | Expiry keeps the command's invariant: state, log, task and stamps change together |
| LifecycleProofs.NewDossierOk | app/commands/service.py:74-141 | The rows of a new command satisfy the invariant and the gate, with one entry into QUEUED exactly when no approval is needed |
| Sessions.Session.Commit | app/database/session.py:22-33 | A commit makes the work in progress durable, or fails on a broken session and leaves the tables alone |
| Sessions.Session.Rollback | app/database/session.py:22-33 | A rollback returns to the last commit |
| Sessions.Session.TransitionCommand | app/commands/state_machine.py:74-133 | Missing command, refusal by the table, error from the trigger, or success: exactly one command and its log change, and only when both guards accept |
| Services.CreateCommand | app/commands/service.py:24-152 | Commits exactly what the specification says; the answer is fixed by the first check that fails; a used key gives its command or, for another type, a conflict; a new command waits exactly when the type or the request asks for approval |
| Services.VerdictIsOne | app/commands/models.py:102-104 | Because device and key are unique, that answer is determined |
| Services.InsertCommand | app/commands/service.py:74-143 | Row by row, two transitions and an approval or an announcement amount to one write of the new command's rows |
| Services.CancelCommand | app/commands/service.py:159-171 | Cancels if and only if the owner owns the command and both guards accept; otherwise nothing changes |
| Services.DecideApproval | app/approvals/service.py:96-238 | Commits exactly the specified decision; the answer is fixed by the first check that fails; "decided" leaves approval and command in matching states, any other refusal but expiry changes nothing |
| Services.FinishLocked | app/approvals/service.py:143-232 | From the approval's update to the commit: all or nothing, whatever a guard or the stop answers |
| Services.OpenByHand | app/approvals/service.py:34-77 | Adds an approval row only for an owned command that awaits approval and has none |
| Services.RevokeDevice | app/devices/service.py:217-259 | Revokes exactly an owned device and announces it in the same transaction |
| Services.BlockCommands | app/emergency_stop/service.py:243-286 | The loop blocks exactly the owner's queued and approved commands; no refusal is met on committed rows |
| Services.ActivateStop | app/emergency_stop/service.py:70-156 | Stop row, blocked commands and event are committed together; a repeated activation only announces again |
| Services.ReleaseStop | app/emergency_stop/service.py:175-223 | Releases exactly an active stop, touches no command |
| ConsumerWorker.UpdateTask | app/workers/command_consumer.py:73-94 | Only the given fields of the task change |
| ConsumerWorker.HandleDelivered | app/workers/command_consumer.py:99-146 | Commits what the specification says and raises exactly when the trigger refuses what the table accepted |
| ConsumerWorker.HandleAcknowledged | app/workers/command_consumer.py:149-208 | The same for an acknowledgement or refusal |
| ConsumerWorker.HandleProgress | app/workers/command_consumer.py:211-243 | The same for progress, which has no duplicate lookup |
| ConsumerWorker.HandleResult | app/workers/command_consumer.py:246-315 | The same for a success or failure report, where the error code's column may refuse as well |
| ConsumerWorker.RaisesIff | migrations/versions/007_add_state_transition_constraints.py:65-80 | On committed rows a handler raises exactly for a refusal or failure report while the command is queued, delivered or acknowledged, or later with an error code too long for its column |
| ConsumerWorker.PollBatch | app/workers/command_consumer.py:359-388 | A batch commits the fold of the handlers that the subjects select; messages without a handler are acknowledged, undecodable ones and those whose handler raised are not |
| ConsumerWorker.ArrivalsAreThemselves | app/workers/command_consumer.py:320-332 | On its own built subject, a body of each kind is read with its own fields |
| ConsumerWorker.SettlesIff | app/workers/command_consumer.py:363-388 | A message that no handler serves is acknowledged, an undecodable one is not, and one whose id cannot be read is |
| OperationProofs.CreateOk | app/commands/service.py:24-143 | Creation keeps the store's invariant and undoes nothing |
| OperationProofs.CancelOk | app/commands/service.py:159-171 | Cancellation keeps the store's invariant and undoes nothing |
| OperationProofs.DecideOk | app/approvals/service.py:96-238 | A decision keeps the store's invariant and undoes nothing |
| OperationProofs.ActivateOk | app/emergency_stop/service.py:70-156 | Activation keeps the store's invariant, of which it is part that the owner of an active stop has nothing queued |
| OperationProofs.PublishOneOk | app/workers/outbox_publisher.py:43-99 | Publishing, holding back or failing one event keeps the store's invariant and undoes nothing |
| OperationProofs.OpenApprovalNeverSucceeds | app/approvals/service.py:34-77 | In a valid store opening an approval by hand changes nothing |
| PipelineProofs.RunKeepsInvariant | app/database/session.py:22-33 | Every state of every run of the pipeline satisfies the invariant across all tables, broker and sent messages |
| PipelineProofs.RunGrows | app/commands/state_machine.py:121-131 | Between any two states of a run nothing is undone: rows stay, logs and broker only grow, decided events stay decided |
| Guarantees.ApprovalGate | app/approvals/service.py:114-232 | In every state of every run, a command that needs approval is QUEUED or beyond only if its approval is APPROVED, is REJECTED exactly if its approval is, and a PENDING or EXPIRED approval goes with AWAITING_APPROVAL, CANCELLED or EXPIRED |
| Guarantees.LogRefinesState | app/commands/state_machine.py:88-131 | In every run each log is chained from (none, RECEIVED), every step passed both guards, replaying it gives the stored state, and it only grows |
| Guarantees.NoWayBack | app/commands/state_machine.py:63-94 | A command's rank never falls during a run, and a terminal state is for ever |
| Guarantees.StoppedOwnerHasNothingQueued | app/emergency_stop/service.py:82-156 | While an owner's stop is active none of the owner's commands is QUEUED or APPROVED, so none can be delivered whatever the stop service answers |
| Guarantees.BlockedNeverDelivered | app/emergency_stop/service.py:175-181 | A command that was ever blocked never passes a later pre-delivery check, also after a release |
| Guarantees.QueueMatchesOutbox | app/commands/service.py:46-141 | The announcements of a command equal its entries into QUEUED and are at most one; device and idempotency key name at most one command |
| Guarantees.SentIsOwn | app/websocket/gateway.py:378-401 | Every message put on a connection carries its command's own device, type, parameters, expiry and risk, then and ever after |
| Guarantees.TaskProjection | app/workers/command_consumer.py:73-315 | The task state is determined by the command's state, and for a cancelled command by whether its log contains DELIVERED |
| Guarantees.TransientStatesNeverCommit | app/approvals/service.py:162-168 | No committed command is RECEIVED, VALIDATED, APPROVED or TIMED_OUT |
| Guarantees.ActivationBlocksAll | app/emergency_stop/service.py:265-286 | In every reachable state both guards accept every block of an activation, and every selected command ends BLOCKED |
| Guarantees.CrashSafeOutbox | app/workers/outbox_publisher.py:33-107 | With crashes anywhere before the commit: PUBLISHED and FAILED are final, what is published was handed over under its own id, a pending event has at most three attempts, copies are a duplicate window apart |
| Guarantees.RevocationIsFinal | app/devices/service.py:217-259 | In every run a revoked device is never trusted again, and no request for it is ever created |
| Requests.CreateGives | app/commands/service.py:69-143 | In the request's own fields: if the type or the request asks for approval it waits unannounced with a pending row that expires after half an hour, otherwise it is queued and announced |
| Requests.CreateThenDecide | app/approvals/service.py:96-232 | Creation followed by a decision at any time: for half an hour exactly the nonce handed out approves (queued and announced) or rejects, afterwards the approval expires and the command still waits |
| Requests.RequestReachesDevice | app/websocket/gateway.py:359-405 | In every valid world, creation, publication and delivery before the expiry put one message with the request's own fields on its device's connection |
| Effects.CreateEffect | app/commands/service.py:24-143 | Creation happens exactly for an owned, trusted device, an inactive stop, an unused key, a known type and fitting parameters; then every column of every row |
| Effects.CancelEffect | app/commands/service.py:159-171 | Cancellation happens exactly for the owner of an unfinished command; then state, end and one log entry change and nothing else |
| Effects.DecideEffect | app/approvals/service.py:96-232 | Owner, pending row, expiry, nonce, stop and state decide, in this order, and every column of the outcome follows |
| Effects.OpenEffect | app/approvals/service.py:34-77 | A pending row is added exactly to an owned waiting command without one |
| Effects.ExpireApprovalsEffect | app/approvals/repository.py:122-132 | Exactly the pending approvals past their expiry become EXPIRED, and nothing else changes |
| Effects.ExpireEffect | app/workers/scheduler.py:108-135 | A selected command expires exactly from QUEUED or AWAITING_APPROVAL (or again), with its log entry and its unfinished task |
| Effects.RunTasksEffect | app/workers/scheduler.py:39-53 | The pass does both updates, each to its own tables |
| Effects.ActivateEffect | app/emergency_stop/service.py:82-156 | One outbox row that the gateway reads as this owner's active stop with the right reason; on the first activation the stop row, and BLOCKED exactly for the owner's QUEUED commands |
| Effects.ReleaseEffect | app/emergency_stop/service.py:175-223 | One outbox row that the gateway reads as the end of this owner's stop, and the stop row's flag |
| Effects.StopReachesBroker | app/websocket/gateway.py:631-645 | Published, such a row is stored as a message that the gateway reads the same way |
| Effects.OtherDeviceIsIgnored | app/workers/command_consumer.py:122-129 | A message that names another device than the command's changes nothing |
| Effects.UnknownIsIgnored | app/workers/command_consumer.py:104-120 | A message for an unknown or unreadable id changes nothing |
| Effects.DeliveredEffect | app/workers/command_consumer.py:99-146 | A delivery takes effect exactly from its own device, under an unused key, from QUEUED (or again), with the time, the log entry and the running task |
| Effects.AcknowledgedEffect | app/workers/command_consumer.py:149-208 | The same for an accepted acknowledgement, from DELIVERED |
| Effects.RefusedEffect | app/workers/command_consumer.py:186-203 | The same for a refusal, from RUNNING, with the device's reason in command, log and task |
| Effects.ProgressEffect | app/workers/command_consumer.py:211-243 | Progress starts exactly an acknowledged command |
| Effects.SucceededEffect | app/workers/command_consumer.py:246-289 | A success takes effect exactly from RUNNING (or again) and stores the report's data |
| Effects.FailedEffect | app/workers/command_consumer.py:290-315 | A failure takes effect exactly from RUNNING (or again) with a code of at most 50 characters, and stores code and message in command, log and task |
| Effects.PublishEffect | app/workers/outbox_publisher.py:43-102 | Held back: the announcement FAILED and a QUEUED command BLOCKED; else PUBLISHED, or one attempt more up to three, then FAILED |
| Effects.PublishIdle | app/events/outbox.py:38-47 | A row that is not pending is left alone |
| Effects.HandOverEffect | app/events/nats_client.py:81-95 | A pending row is stored in the broker exactly when it is handed over, taken, and has no copy younger than two minutes |
| Effects.DeliverEffect | app/websocket/gateway.py:359-415 | A message is sent, and acknowledged, exactly under the listed conditions, with its own fields |
| Effects.DeviceEffects | app/devices/service.py:217-259 | Revocation changes exactly an owned device's trust and announces it; a confirmed pairing adds a trusted device |
| Reachability.ReachableIffSettled | app/commands/state_machine.py:20-71 | Some run ends with a command in a state if and only if the state is none of RECEIVED, VALIDATED, APPROVED and TIMED_OUT |
| Counterexamples.LateExpiryHappens | app/approvals/service.py:117-132 | A run from a reached world: reads at 1800 and 1801 of an approval that expires at 1800, then a QUEUED command with an EXPIRED approval |
| Counterexamples.StopIsOvertaken | app/commands/service.py:38-143 | A run from a reached world: a creation told "inactive", an activation, and the commit of a QUEUED command under the active stop |
| Counterexamples.FailedReadLosesCommand | app/websocket/gateway.py:605-628 | A delivery in a reached world, of the only message of a QUEUED, unexpired command, that sends with a working read and with a failed one acknowledges the message unsent and silences the command for good |
| Counterexamples.FailedAnnouncementLosesCommand | app/workers/outbox_publisher.py:93-102 | A reached world in which four failed hand-overs have given up the announcement of a QUEUED command |
| Counterexamples.DuplicateLosesCommand | app/workers/outbox_publisher.py:85-105 | A reached world in which a crashed batch, a failed read and the duplicate window lose a QUEUED, unexpired command although its announcement is pending |
| Counterexamples.ResultIsRewritten | app/workers/command_consumer.py:258-289 | In a reached world a succeeded command has a stored result, and one report that spells its id in another way replaces it by any data |
| Counterexamples.SchedulerStarves | app/workers/scheduler.py:96-108 | A reached store with a hundred overdue DELIVERED commands and an expirable one, and a full pass that expires nothing |
| StopErasure.ApplyKept | app/database/session.py:22-33 | Every step of the pipeline keeps all of the invariant but the stop rule, without assuming the rule |
| StopRaces.StopRunKeeps | app/commands/service.py:38-143 | In every state of every race between stop tests and commits, logs, tasks, outbox, keys and the approval gate hold, whatever violations there have been |
| StopRaces.NewViolationIff | app/commands/service.py:38-143 | A step makes a violation of the stop rule if and only if it commits a queued command under an active stop, and then of that command only |
| StopRaces.StopKeptIff | app/commands/service.py:38-143 | Where the rule that a stopped owner has nothing queued holds, it survives a step if and only if the step does not commit a queued command under an active stop |
| StopRaces.BreaksIffActivatedSince | app/approvals/service.py:150-168 | In every race, a call told "inactive" makes a violation if and only if it queues a command and the last activation or release since its test is an activation |
| StopRaces.CallIsTestThenFinish | app/approvals/service.py:150-168 | A stop test and its commit with nothing in between are the atomic call |
| Broker.BatchOk | app/workers/outbox_publisher.py:85-105 | A committed batch keeps outbox and broker in step: copies only of rows, published only if held, copies spaced |
| Broker.CrashOk | app/workers/outbox_publisher.py:85-105 | A batch that dies before its commit keeps outbox and broker in step as well |
| Broker.CrashRetryCopies | app/events/nats_client.py:81-95 | A retried hand-over leaves one copy if and only if it comes within the duplicate window |
| PublisherWorker.UnpublishedAre | app/events/outbox.py:38-47 | The query returns pending rows only, each once, oldest first; a pending row left out is younger than all of a full batch |
| PublisherWorker.BatchHolds | app/workers/outbox_publisher.py:33-42 | A batch holds the oldest pending rows, a hundred at most |
| PublisherWorker.PublishEvent | app/workers/outbox_publisher.py:43-102 | One turn of the loop changes tables and broker as specified, also when the emergency-stop question raises and counts as an attempt; it reports true exactly for an event now published |
| PublisherWorker.ProcessBatch | app/workers/outbox_publisher.py:33-107 | A batch commits the fold over the oldest pending events and returns the number newly published; a crash before any event or before the commit keeps the broker's messages and none of the tables' changes |
| MessageOrder.EndsAtLongestPrefix | app/workers/command_consumer.py:99-315 | From QUEUED, any finite sequence of delivered, accepted, progress and success messages, interleaved with messages for other commands and from other devices, ends exactly at the longest prefix of that order that is a subsequence of the messages of its own device |
| MessageOrder.SucceedsIffInOrder | app/workers/command_consumer.py:99-315 | SUCCEEDED is reached if and only if all four stages occur in order as a subsequence |
| AtMostOnce.OneEntryPerKey | app/workers/command_consumer.py:62-70 | In every run a command's log holds at most one entry per dedup key, under arbitrary redelivery |
| AtMostOnce.SuccessRepeatsIffNewSpelling | app/workers/command_consumer.py:258-289 | A second success report from the right device rewrites the result of a succeeded command if and only if no handled result message spelt the id that way |
| AtMostOnce.ResultWrittenOnce | app/commands/state_machine.py:107-112 | With canonically spelt ids the result is written at most once and then stays |
| AtMostOnce.RefusalTakesEffectIff | app/workers/command_consumer.py:186-203 | A refusal changes a command if and only if the command is already RUNNING or FAILED, the device is the right one and no acknowledgement spelt the id that way |
| AtMostOnce.RefusalNeverTakesEffect | app/workers/command_consumer.py:186-203 | In runs with canonically spelt ids no refusal changes anything |
| Races.DecisionsDoNotConflict | app/approvals/service.py:117-209 | Decisions that all read PENDING and finish in any order, interleaved with the whole pipeline: at most one approval commits, never an approval and a rejection, and the command is announced at most once |
| Races.DecisionIsReadThenFinish | app/approvals/service.py:117-232 | A read and its end with nothing in between are the atomic decision, for every owner, nonce, decision and time |
| Races.GateKeptIff | app/approvals/service.py:117-132 | The gate survives a step of such a race if and only if the step is not an expiry write after the command has moved on, and it can break only after the approval's expiry |
| Races.LateExpiryBreaksGate | app/approvals/service.py:117-132 | From every state with a pending approval, a waiting command and no stop: one approval that reads at or before the expiry, another that reads after it, and their ends leave a QUEUED command with an EXPIRED approval |
| Scheduler.PassEffect | app/workers/scheduler.py:75-149 | A selected command is expired, with its task, if and only if it is queued or awaits approval and its expiry has passed; overdue DELIVERED ones and all others are unchanged |
| Scheduler.OverdueSplits | app/workers/scheduler.py:86-105 | The query can select exactly the queued, waiting and delivered commands whose expiry has passed |
| Scheduler.PassesFinish | app/workers/scheduler.py:96-108 | With fewer than a hundred delivered commands past their expiry, enough passes leave no QUEUED or AWAITING_APPROVAL command past its expiry, whatever each pass selects |
| Scheduler.StarvationIff | app/workers/scheduler.py:84-108 | A pass that expires nothing although something is expirable is possible if and only if a hundred overdue commands are stuck in DELIVERED |
| SchedulerWorker.ExpirePendingApprovals | app/approvals/repository.py:122-132 | Exactly the overdue pending approvals become EXPIRED, and the count is their number |
| SchedulerWorker.ExpireCommand | app/workers/scheduler.py:110-135 | One command and its unfinished task are expired together, exactly when both guards accept |
| SchedulerWorker.ExpireCommands | app/workers/scheduler.py:75-149 | The loop commits the specified expiry and returns exactly the number of commands newly EXPIRED |
| SchedulerWorker.RunTasks | app/workers/scheduler.py:39-53 | Pairings, approvals and commands are expired in one pass, with exact counts |
| Gateway.OnReady | app/websocket/gateway.py:359-415 | What is sent is what the specification delivers; a message is acknowledged exactly when it was sent and reported, or when the check failed or its read raised; a raising stop test, a failed send and a failed report give it back |
| Gateway.CheckBeforeDelivery | app/websocket/gateway.py:595-628 | The early returns decide the pre-delivery check, and a read that raises counts as a failed check |
| Gateway.CheckedIsCleared | app/websocket/gateway.py:595-604 | In every run, a command that passes the check has no active stop and, where needed, an APPROVED approval |
| Gateway.DiscardIsSafeIff | app/websocket/gateway.py:378-391 | A message acknowledged unsent can never pass the check again, in any run through that world and at any later time, if and only if the check's read succeeded or the check would have failed anyway |
| Gateway.SilentForGood | app/websocket/gateway.py:378-391 | Once a command's announcement has left the outbox and all its messages are acknowledged, no continuation of the run ever sends it, whatever its state |
| Delivery.SendableIff | app/websocket/gateway.py:359-415 | A QUEUED command that has not expired can still be sent, by a continuation whose clock never goes back, if and only if one of its messages is unacknowledged, or its announcement is pending and the duplicate window of every stored copy ends by the expiry |
| Gateway.PublishedIsDeliverable | app/websocket/gateway.py:359-405 | In every state of every run, a QUEUED, unexpired command with an expiry and a published announcement has a broker message whose delivery, unless it was acknowledged, sends the command's own fields |
| Gateway.HeldIffCurrent | app/websocket/gateway.py:67-92 | After any interleaving of registrations and disconnects in any gateways, a gateway holds a connection exactly if it was the last one registered there and not itself disconnected |
| Gateway.RecordIffCurrent | app/websocket/gateway.py:67-88 | With the look at the record and its deletion as separate steps, the shared record names a connection exactly if that was the last one registered anywhere and no deletion or expiry came since |
| Gateway.DropHitsSuccessorIff | app/websocket/gateway.py:83-88 | A disconnect deletes another connection's record if and only if that one registered between the disconnect's look and its deletion and is still current |
| Gateway.SuccessorLosesRecord | app/websocket/gateway.py:83-88 | Four events after which a held connection has lost its record to its predecessor's disconnect |
| Gateway.ConnectionManager.Register | app/websocket/gateway.py:67-81 | Registering replaces the device's connection and the shared record |
| Gateway.ConnectionManager.Unregister | app/websocket/gateway.py:83-92 | An uninterrupted disconnect removes connection and record only where they carry the same connection id |
| StopCache.RunSound | app/emergency_stop/service.py:42-66 | Over every interleaving, every value in the cache or on its way there says "active", with one of the two lifetimes |
| StopCache.NeverFalselyInactive | app/emergency_stop/service.py:42-66 | However cache and database operations interleave, a cached value read with `.get("active", False)` or a row never gives false while the row is active at the read |
| PipelineProofs.AnswersAreSafe | app/emergency_stop/service.py:42-66 | In the pipeline, whatever the service can answer about an active stop is "active" |
| StopTiming.NoCallIsToldWrongly | app/emergency_stop/service.py:42-66 | In every state of every run, no call is told "inactive" about an active stop |
| StopTiming.OwnerRun | app/emergency_stop/service.py:42-227 | Every run of the pipeline is, for each owner, a run of the single-owner cache machine, so its results carry over |
| StopTiming.StaleAnswersEnd | app/emergency_stop/service.py:156-169 | In every run, a stop inactive for an hour with no cache write under way at the start is answered from the row again |
| StopCache.WrongActiveIsLateWrite | app/emergency_stop/service.py:49-64 | While the row stays inactive, a cache entry was there before or was written by an operation already under way, with that operation's lifetime |
| StopCache.StaleAnswerEnds | app/emergency_stop/service.py:156-169 | Once no earlier write is under way, a wrong "active" ends with the lifetime of the entry then cached |
| StopCache.WrongActiveAtMostAnHour | app/emergency_stop/service.py:156-169 | An hour later the cache no longer answers "active" for an inactive row |
| StopCache.LateWriteLastsItsLifetime | app/emergency_stop/service.py:223-227 | When the deletion overtakes the activation's write, the wrong answer lasts exactly an hour |
| StopCache.LateFillLastsAMinute | app/emergency_stop/service.py:56-64 | When it overtakes a fill, the wrong answer lasts exactly a minute |
| StopCache.OtherValues | app/emergency_stop/service.py:43-47 | A cached dictionary without the field reads as inactive, any other value by its truth |
| StopCache.StopService.IsActive | app/emergency_stop/service.py:42-66 | With calls one at a time, the answer equals the row, from cache or table |
| StopCache.StopService.Activate | app/emergency_stop/service.py:70-169 | Row and cache agree after activation; only a first activation writes the cache |
| StopCache.StopService.Release | app/emergency_stop/service.py:175-229 | Row and cache agree after a release, which deletes the cache entry |
| Pairing.PairingService.ConfirmPairing | app/devices/service.py:78-193 | Every outcome with its durable effect: counter and status are kept when the call fails, except that a refused device insert takes the counter back |
| Pairing.PairingService.ExpireStalePairings | app/workers/scheduler.py:60-69 | Exactly the overdue pending pairings expire, and the count is their number |
| Pairing.PairingBudget | app/devices/service.py:115-141 | Over every run a wrong code is compared at most the configured number of times, and so is any code where the table of devices admits the type; there are as many devices as confirmed pairings |
| Pairing.BoundedIffAdmitted | migrations/versions/002_add_device_tables.py:101-104 | The comparisons of a type's pairings are bounded over all runs if and only if the table of devices admits the type, or no attempt is allowed |
| Pairing.ComparedOften | app/devices/service.py:142-157 | For every n, a run in which a pairing of another type is compared n times while its counter stays at 0 |
| Pairing.StartThenConfirm | app/devices/service.py:46-76 | A fresh pairing confirms if and only if the code is right, in time, and of a type that the table of devices admits; the device then has the caller as owner and the type and identity of the start |
| Pairing.ConfirmEffect | app/devices/service.py:78-193 | Every column after a confirmation, in every case |
| Pairing.OutcomeIs | app/devices/service.py:92-157 | What the caller is told, in every case |
| Pairing.ExpireStaleEffect | app/workers/scheduler.py:60-69 | Exactly the pending pairings past their expiry become EXPIRED |
| Pairing.SpentPairingStaysSpent | app/devices/service.py:98-127 | Over every run the counter never falls, a pairing that left PENDING never changes again, and then even the right code pairs nothing |
| RateLimit.RateLimiter.Check | app/cache/__init__.py:124-135 | The count goes on while the counter lives and else starts at one; allowed up to the limit, with what remains of it; without a client everything is allowed and nothing changes |
| RateLimit.RateBound | app/cache/__init__.py:124-135 | For every timed sequence of calls on a key, a half-open interval no longer than the smallest window contains at most the largest limit of allowed calls |
| RateLimit.AllowedIffWithinLimit | app/cache/__init__.py:124-135 | Call k is allowed if and only if the calls since the last silence of at least a window, k included, are within its limit |
| RateLimit.RefusedWhileCalling | app/cache/__init__.py:128-131 | A client at its limit is refused for as long as it calls again before its last window ends |
| RateLimit.AllowedAfterSilence | app/cache/__init__.py:128-131 | After a silence of a whole window a call with a positive limit is allowed |
| Subjects.RouteHandler | app/workers/command_consumer.py:320-332 | The loop over the handler table finds the first handler whose key occurs in the subject |
| Subjects.RouteRoundTrip | app/events/subjects.py:7-28 | For every id over hexadecimal digits and dashes each lifecycle subject reaches its own handler despite substring matching, and ready and cancel subjects reach none |
| Subjects.SecurityRoundTrip | app/websocket/gateway.py:637-645 | Splitting a built stop or resume subject gives back the owner id and the active flag |

## Left out

- HTTP routes, middleware, request and response schemas, health checks and metrics: plumbing without a property across steps.
- JWT, Ed25519, SHA-256 and random tokens: hashes are opaque strings and ids are fresh by precondition.
- Audit rows, device credentials, `updated_at`, `last_error` and published-at columns: written, never read by the modelled code.
- Row locks: `FOR UPDATE` and `SKIP LOCKED` appear only as atomicity and as the freedom of which rows a query returns; two publishers working at once are not interleaved.
- `available_at` of outbox rows: it is set to the insertion time, so a row is always available.
- The broker's limits: a refused message comes back without limit, and no message vanishes, while the commands stream keeps seven days and a million messages (app/events/nats_client.py:31-42). `Gateway.PublishedIsDeliverable` and `Delivery.SendableIff` rely on unacknowledged messages staying.
- Heartbeats, presence keys, stale-presence detection and protocol violations of connections: informational.
- The lifecycle message that the gateway publishes after a delivery: messages to the consumer are arbitrary inputs of a run instead.
- Unused alternates that bypass the guarded path in app/commands/repository.py, app/approvals/repository.py, app/devices/repository.py and the unguarded methods of app/commands/service.py.
- Values that PostgreSQL cannot store at all, such as NUL characters in texts: of the column limits only the error code's and the device type's are modelled.
- Notifications, storage, users, tracing, list and filter queries: easy or without state that matters here.
- Scheduler.PassesFinish: states progress at a fixed time and for selections that fill the batch, because rows locked by other transactions are outside the model.
- Pairing tables in the runs of the pipeline: a confirmed pairing enters as a step that adds a trusted device, and `Pairing` has its own runs.
