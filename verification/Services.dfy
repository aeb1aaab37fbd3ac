/** The service calls as the code makes them, row by row inside a session, each proved to leave in the
    committed tables exactly what its specification in Operations says. */
module Services {
  import opened Options
  import opened CommandStates
  import opened Tables
  import opened Lifecycle
  import opened LifecycleProofs
  import opened Store
  import opened Operations
  import opened OperationProofs
  import opened Sessions

  // ---- Commands ----

  datatype CreateOutcome =
    | DeviceNotFound | DeviceNotTrusted | StopIsActive | IdempotencyConflict | UnknownType | BadParameters
    | Existing(c: CommandId) | Created(state: CommandState)

  predicate HasKey(db: Db, c: CommandId, r: Request) {
    c in db.commands && db.commands[c].device == r.device && db.commands[c].key == r.key
  }

  /** What a request is answered: the first check that fails decides; a used key gives its command, or a
      conflict when that command is of another type. */
  ghost predicate Verdict(db: Db, r: Request, owner: OwnerId, seen: bool, definition: Option<Definition>,
                          schemaOk: bool,
                          outcome: CreateOutcome) {
    if !OwnsDevice(db, owner, r.device) then outcome == DeviceNotFound
    else if db.devices[r.device].trust != Trusted then outcome == DeviceNotTrusted
    else if seen then outcome == StopIsActive
    else if KeyTaken(db, r.device, r.key) then
      exists c :: HasKey(db, c, r)
                  && outcome == if db.commands[c].commandType == r.commandType then Existing(c) else IdempotencyConflict
    else if definition.None? then outcome == UnknownType
    else if !schemaOk then outcome == BadParameters
    else
      outcome == Created(if definition.value.requiresApproval || r.requiresApproval then AwaitingApproval else Queued)
  }

  /** A key names one command, so the answer is determined. */
  lemma VerdictIsOne(db: Db, r: Request, owner: OwnerId, seen: bool, definition: Option<Definition>, schemaOk: bool,
                     a: CreateOutcome, b: CreateOutcome)
    requires KeysUnique(db)
    requires Verdict(db, r, owner, seen, definition, schemaOk, a)
    requires Verdict(db, r, owner, seen, definition, schemaOk, b)
    ensures a == b
  {
  }

  method CreateCommand(s: Session, c: CommandId, r: Request, owner: OwnerId, seen: bool,
                       definition: Option<Definition>, schemaOk: bool, nonceHash: string, now: int)
    returns (outcome: CreateOutcome)
    requires s.Fresh() && Linked(s.committed) && c !in s.committed.commands
    modifies s
    ensures s.Fresh()
    ensures s.committed == Create(old(s.committed), c, r, owner, seen, definition, schemaOk, nonceHash, now)
    ensures outcome.Created? <==> Creatable(old(s.committed), r, owner, seen, definition, schemaOk)
    ensures Verdict(old(s.committed), r, owner, seen, definition, schemaOk, outcome)
  {
    if r.device !in s.work.devices || s.work.devices[r.device].owner != owner {
      return DeviceNotFound;
    }
    if s.work.devices[r.device].trust != Trusted {
      return DeviceNotTrusted;
    }
    if seen {
      return StopIsActive;
    }
    if KeyTaken(s.work, r.device, r.key) {
      var existing :| existing in s.work.commands
        && s.work.commands[existing].device == r.device && s.work.commands[existing].key == r.key;
      assert HasKey(s.work, existing, r);
      if s.work.commands[existing].commandType != r.commandType {
        return IdempotencyConflict;
      }
      return Existing(existing);
    }
    if definition.None? {
      return UnknownType;
    }
    if !schemaOk {
      return BadParameters;
    }
    var state := InsertCommand(s, c, r, owner, definition.value, nonceHash, now);
    var ok := s.Commit();
    return Created(state);
  }

  /** The rows of an accepted request: command, task and first log entry, two transitions, then an
      approval row or an announcement. */
  method InsertCommand(s: Session, c: CommandId, r: Request, owner: OwnerId, definition: Definition,
                       nonceHash: string, now: int) returns (state: CommandState)
    requires !s.aborted && Linked(s.work) && c !in s.work.commands && r.device in s.work.devices
    modifies s`work, s`aborted
    ensures !s.aborted
    ensures s.work == Insert(old(s.work), c, r, owner, definition, nonceHash, now)
    ensures state == if definition.requiresApproval || r.requiresApproval then AwaitingApproval else Queued
  {
    hide Put, Stamp, Moved, NewDossier, QueuedEvent, PythonAccepts, TriggerAccepts;
    ghost var before := s.work;
    var command := NewCommand(r.device, r.commandType, r.parameters, definition.risk, r.key,
                              definition.requiresApproval || r.requiresApproval, r.expiresAt, Received);
    InsertRows(s, c, command);
    ghost var d0 := FirstDossier(command);
    NewSteps(command, now);
    Advance(s, before, c, d0, Validated, "api", now);
    ghost var d1 := Moved(d0, Validated, "api", None, now);
    if command.requiresApproval {
      Advance(s, before, c, d1, AwaitingApproval, "api", now);
      NewWaiting(before, c, command, PendingFor(owner, nonceHash, now), now);
      s.work := s.work.(approvals := s.work.approvals[c := PendingFor(owner, nonceHash, now)]);
      state := AwaitingApproval;
    } else {
      Advance(s, before, c, d1, Queued, "api", now);
      NewQueued(before, c, command, now);
      s.AddEvent(QueuedEvent(c, s.work.commands[c]));
      state := Queued;
    }
  }

  method InsertRows(s: Session, c: CommandId, command: Command)
    requires Linked(s.work) && c !in s.work.commands && command.device in s.work.devices
    modifies s`work
    ensures s.work == Put(old(s.work), c, FirstDossier(command), [])
  {
    ghost var before := s.work;
    s.work := s.work.(commands := s.work.commands[c := command]);
    s.work := s.work.(tasks := s.work.tasks[c := Task(TaskPending, None, None, None)]);
    s.work := s.work.(log := s.work.log[c := [LogEntry(None, Received, "api", None)]]);
    assert before.outbox + [] == before.outbox;
  }

  /** The rows as they are first inserted. */
  function FirstDossier(command: Command): Dossier {
    Dossier(command, [LogEntry(None, Received, "api", None)], Task(TaskPending, None, None, None), None)
  }

  /** A transition that both guards let through, on rows written earlier in the same transaction. */
  method Advance(s: Session, ghost db: Db, c: CommandId, ghost d: Dossier, new_: CommandState, source: string, now: int)
    requires !s.aborted && s.work == Put(db, c, d, []) && Rewritable(db, c, d)
    requires Accepts(d.cmd.state, new_)
    modifies s`work, s`aborted
    ensures !s.aborted && s.work == Put(db, c, Moved(d, new_, source, None, now), [])
    ensures Rewritable(db, c, Moved(d, new_, source, None, now))
    ensures c in s.work.commands && s.work.commands[c] == Moved(d, new_, source, None, now).cmd
  {
    hide Put, Stamp, PythonAccepts, TriggerAccepts;
    Rewrite(db, c, d, Moved(d, new_, source, None, now), new_, now);
    var outcome := s.TransitionCommand(c, new_, source, None, now);
  }

  /** A dossier that can be written at the id, over the stored one or as a new one. */
  ghost predicate Rewritable(db: Db, c: CommandId, d: Dossier) {
    && Linked(db) && d.cmd.device in db.devices
    && (c in db.commands ==> (c in db.approvals) == d.approval.Some?)
  }

  lemma Rewrite(db: Db, c: CommandId, d: Dossier, after: Dossier, new_: CommandState, now: int)
    requires Rewritable(db, c, d)
    requires after.cmd == Stamp(d.cmd, new_, None, now) && after.approval == d.approval
    ensures Rewritable(db, c, after)
    ensures Linked(Put(db, c, d, [])) && c in Put(db, c, d, []).commands && DossierOf(Put(db, c, d, []), c) == d
    ensures Put(Put(db, c, d, []), c, after, []) == Put(db, c, after, [])
    ensures c in Put(db, c, after, []).commands && Put(db, c, after, []).commands[c] == after.cmd
  {
    hide Put, Stamp;
    PutRow(db, c, d);
    PutRow(db, c, after);
    StampDevice(d.cmd, new_, None, now);
    PutReads(db, c, d, []);
    PutReads(db, c, after, []);
    PutOver(db, c, d, after, []);
  }

  lemma NewSteps(command: Command, now: int)
    requires command.state == Received
    ensures var d1 := Moved(FirstDossier(command), Validated, "api", None, now);
            && Accepts(Received, Validated) && d1.cmd.state == Validated
            && Accepts(Validated, AwaitingApproval) && Accepts(Validated, Queued)
  {
  }

  lemma NewWaiting(db: Db, c: CommandId, command: Command, approval: Approval, now: int)
    requires command.state == Received
    ensures var validated := Moved(FirstDossier(command), Validated, "api", None, now);
            var d := Moved(validated, AwaitingApproval, "api", None, now);
            && Put(db, c, d, []).(approvals := Put(db, c, d, []).approvals[c := approval])
               == Put(db, c, NewDossier(command, Some(approval)), [])
            && NewDossier(command, Some(approval)).cmd.state == AwaitingApproval
  {
    var d := Moved(Moved(FirstDossier(command), Validated, "api", None, now), AwaitingApproval, "api", None, now);
    assert d.log == NewDossier(command, Some(approval)).log;
    assert db.outbox + [] == db.outbox;
  }

  lemma NewQueued(db: Db, c: CommandId, command: Command, now: int)
    requires command.state == Received
    ensures var d := Moved(Moved(FirstDossier(command), Validated, "api", None, now), Queued, "api", None, now);
            var rows := Put(db, c, d, []);
            && d == NewDossier(command, None) && d.cmd.state == Queued
            && rows.(outbox := rows.outbox + [QueuedEvent(c, d.cmd)]) == Put(db, c, d, [QueuedEvent(c, d.cmd)])
  {
    hide QueuedEvent;
    assert db.outbox + [] == db.outbox;
  }

  method CancelCommand(s: Session, c: CommandId, owner: OwnerId, now: int) returns (cancelled: bool)
    requires s.Fresh() && Linked(s.committed) && DossiersOk(s.committed)
    modifies s
    ensures s.Fresh() && s.committed == Cancel(old(s.committed), c, owner, now)
    ensures cancelled <==>
              OwnsCommand(old(s.committed), owner, c) && Accepts(old(s.committed).commands[c].state, Cancelled)
  {
    hide DossiersOk, Moved, Put, PythonAccepts, TriggerAccepts;
    if c !in s.work.commands || s.work.devices[s.work.commands[c].device].owner != owner {
      return false;
    }
    CancelGuards(s.work, c, now);
    var outcome := s.TransitionCommand(c, Cancelled, "api", None, now);
    if outcome == Refused {
      s.Rollback();
      return false;
    }
    cancelled := s.Commit();
  }

  /** On committed rows the two guards agree about cancelling. */
  lemma CancelGuards(db: Db, c: CommandId, now: int)
    requires Linked(db) && DossiersOk(db) && c in db.commands
    ensures PythonAccepts(db.commands[c].state, Cancelled) <==> Accepts(db.commands[c].state, Cancelled)
    ensures !Accepts(db.commands[c].state, Cancelled) ==> Put(db, c, OnCancel(DossierOf(db, c), now), []) == db
  {
    hide Put, Stamp, DossiersOk;
    PutNothing(db, c);
    SettledRow(db, c);
  }

  // ---- Approvals ----

  datatype DecideOutcome =
    | NoApproval | AlreadyDecided | ApprovalHasExpired | WrongNonce | BlockedByStop | InvalidState | Decided

  /** What a decision is answered: the first check that fails decides. */
  ghost predicate DecisionVerdict(db: Db, c: CommandId, owner: OwnerId, approve: bool, nonceHash: string, seen: bool,
                                  now: int, outcome: DecideOutcome)
    requires Linked(db)
  {
    if c !in db.approvals || db.approvals[c].owner != owner then outcome == NoApproval
    else if db.approvals[c].status != PendingApproval then outcome == AlreadyDecided
    else if db.approvals[c].expiresAt < now then outcome == ApprovalHasExpired
    else if db.approvals[c].nonceHash != nonceHash then outcome == WrongNonce
    else outcome == FinishVerdict(db.commands[c].state, approve, seen)
  }

  function FinishVerdict(state: CommandState, approve: bool, seen: bool): DecideOutcome {
    if approve && seen then BlockedByStop
    else if state in (if approve then {AwaitingApproval, Approved} else {AwaitingApproval, Rejected}) then Decided
    else InvalidState
  }

  lemma FinishVerdictIs(state: CommandState, approve: bool, seen: bool)
    ensures FinishVerdict(state, approve, seen) ==
            if approve && seen then BlockedByStop
            else if PythonAccepts(state, if approve then Approved else Rejected)
                    && TriggerAccepts(state, if approve then Approved else Rejected) then Decided
            else InvalidState
  {
  }

  method DecideApproval(s: Session, c: CommandId, owner: OwnerId, approve: bool, nonceHash: string,
                        note: Option<string>, seen: bool, now: int) returns (outcome: DecideOutcome)
    requires s.Fresh() && Linked(s.committed)
    modifies s
    ensures s.Fresh()
    ensures s.committed == Decide(old(s.committed), c, owner, approve, nonceHash, note, seen, now)
    ensures DecisionVerdict(old(s.committed), c, owner, approve, nonceHash, seen, now, outcome)
    ensures outcome == Decided ==>
              && c in s.committed.approvals
              && s.committed.approvals[c].status == (if approve then ApprovedApproval else RejectedApproval)
              && s.committed.commands[c].state == (if approve then Queued else Rejected)
    ensures outcome !in {Decided, ApprovalHasExpired} ==> s.committed == old(s.committed)
  {
    hide Put, Stamp;
    if c !in s.work.approvals || s.work.approvals[c].owner != owner {
      return NoApproval;
    }
    var approval := s.work.approvals[c];
    if approval.status != PendingApproval {
      return AlreadyDecided;
    }
    if approval.expiresAt < now {
      s.SetApproval(c, approval.(status := ExpiredApproval));
      var ok := s.Commit();
      return ApprovalHasExpired;
    }
    if nonceHash != approval.nonceHash {
      return WrongNonce;
    }
    outcome := FinishLocked(s, c, approve, note, seen, now);
  }

  /** From the approval's update to the commit. */
  method FinishLocked(s: Session, c: CommandId, approve: bool, note: Option<string>, seen: bool, now: int)
    returns (outcome: DecideOutcome)
    requires s.Fresh() && Linked(s.committed) && c in s.committed.approvals
    modifies s
    ensures s.Fresh() && s.committed == FinishDecision(old(s.committed), c, approve, note, seen, now)
    ensures outcome == FinishVerdict(old(s.committed).commands[c].state, approve, seen)
    ensures outcome == Decided ==>
              && c in s.committed.approvals && c in s.committed.commands
              && s.committed.approvals[c].status == (if approve then ApprovedApproval else RejectedApproval)
              && s.committed.commands[c].state == (if approve then Queued else Rejected)
    ensures outcome != Decided ==> s.committed == old(s.committed)
  {
    hide Put, Stamp, Moved, OnApprove, OnReject, QueuedEvent, PythonAccepts, TriggerAccepts, FinishVerdict;
    ghost var db := s.work;
    ghost var d := DossierOf(db, c);
    FinishVerdictIs(db.commands[c].state, approve, seen);
    var approval := s.work.approvals[c].(
      status := if approve then ApprovedApproval else RejectedApproval, decidedAt := Some(now), note := note);
    s.SetApproval(c, approval);
    ghost var d1 := d.(approval := Some(approval));
    WrittenDossier(db, c, d1);
    if approve {
      if seen {
        s.Rollback();
        return BlockedByStop;
      }
      var first := s.TransitionCommand(c, Approved, "approval", None, now);
      if first != Done {
        s.Rollback();
        return InvalidState;
      }
      ghost var d2 := Moved(d1, Approved, "approval", None, now);
      ApproveRows(db, c, d, note, now);
      Advance(s, db, c, d2, Queued, "approval", now);
      s.AddEvent(QueuedEvent(c, s.work.commands[c]));
    } else {
      var only := s.TransitionCommand(c, Rejected, "approval", None, now);
      if only != Done {
        s.Rollback();
        return InvalidState;
      }
      RejectRows(db, c, d, note, now);
    }
    var ok := s.Commit();
    return Decided;
  }

  lemma WrittenDossier(db: Db, c: CommandId, d: Dossier)
    requires Linked(db) && c in db.commands && d.cmd.device in db.devices && (c in db.approvals) == d.approval.Some?
    ensures Linked(Put(db, c, d, [])) && c in Put(db, c, d, []).commands && DossierOf(Put(db, c, d, []), c) == d
    ensures Put(db, c, d, []).commands[c] == d.cmd
  {
    PutReads(db, c, d, []);
  }

  lemma ApproveRows(db: Db, c: CommandId, d: Dossier, note: Option<string>, now: int)
    requires Linked(db) && c in db.approvals && d.approval.Some? && d.cmd.device in db.devices
    ensures var a := d.approval.value.(status := ApprovedApproval, decidedAt := Some(now), note := note);
            var d1 := d.(approval := Some(a));
            var d2 := Moved(d1, Approved, "approval", None, now);
            var d3 := Moved(d2, Queued, "approval", None, now);
            && Put(Put(db, c, d1, []), c, d2, []) == Put(db, c, d2, []) && Rewritable(db, c, d2)
            && d2.cmd.state == Approved && Accepts(Approved, Queued)
            && d3 == OnApprove(d, note, now) && QueuedEvent(c, d3.cmd) == QueuedEvent(c, d.cmd)
            && Announced(db, c, d3) && d3.approval == Some(a)
  {
    hide Put;
    var a := d.approval.value.(status := ApprovedApproval, decidedAt := Some(now), note := note);
    var d1 := d.(approval := Some(a));
    var d2 := Moved(d1, Approved, "approval", None, now);
    PutOver(db, c, d1, d2, []);
    PutAnnouncement(db, c, Moved(d2, Queued, "approval", None, now));
  }

  /** Appending a queued command's announcement to its rows is writing the two together. */
  ghost predicate Announced(db: Db, c: CommandId, d: Dossier) {
    var rows := Put(db, c, d, []);
    var all := Put(db, c, d, [QueuedEvent(c, d.cmd)]);
    && rows.(outbox := rows.outbox + [QueuedEvent(c, d.cmd)]) == all
    && c in all.commands && all.commands[c].state == Queued
    && (d.approval.Some? ==> c in all.approvals && all.approvals[c] == d.approval.value)
  }

  lemma PutAnnouncement(db: Db, c: CommandId, d: Dossier)
    requires d.cmd.state == Queued
    ensures Announced(db, c, d)
  {
    assert db.outbox + [] == db.outbox;
  }

  lemma RejectRows(db: Db, c: CommandId, d: Dossier, note: Option<string>, now: int)
    requires d.approval.Some?
    ensures var a := d.approval.value.(status := RejectedApproval, decidedAt := Some(now), note := note);
            var d1 := d.(approval := Some(a));
            var d2 := Moved(d1, Rejected, "approval", None, now);
            var all := Put(db, c, d2, []);
            && Put(Put(db, c, d1, []), c, d2, []) == all
            && d2 == OnReject(d, note, now)
            && c in all.approvals && all.approvals[c].status == RejectedApproval
            && c in all.commands && all.commands[c].state == Rejected
  {
    var a := d.approval.value.(status := RejectedApproval, decidedAt := Some(now), note := note);
    var d1 := d.(approval := Some(a));
    var d2 := Moved(d1, Rejected, "approval", None, now);
    PutOver(db, c, d1, d2, []);
  }

  /** Opening an approval by hand. A second row for a command violates the unique column, which
      rolls the call back. */
  method OpenByHand(s: Session, c: CommandId, owner: OwnerId, nonceHash: string, expiresAt: int) returns (added: bool)
    requires s.Fresh() && Linked(s.committed)
    modifies s
    ensures s.Fresh() && s.committed == OpenApproval(old(s.committed), c, owner, nonceHash, expiresAt)
    ensures added <==> c !in old(s.committed).approvals && c in s.committed.approvals
  {
    if c !in s.work.commands || s.work.devices[s.work.commands[c].device].owner != owner {
      return false;
    }
    if s.work.commands[c].state != AwaitingApproval {
      return false;
    }
    if c in s.work.approvals {
      s.Rollback();
      return false;
    }
    var approval := Approval(owner, PendingApproval, nonceHash, expiresAt, None, None);
    s.work := s.work.(approvals := s.work.approvals[c := approval]);
    added := s.Commit();
  }

  // ---- Devices ----

  method RevokeDevice(s: Session, device: DeviceId, owner: OwnerId) returns (revoked: bool)
    requires s.Fresh()
    modifies s
    ensures s.Fresh() && s.committed == Revoke(old(s.committed), device, owner)
    ensures revoked <==> OwnsDevice(old(s.committed), owner, device)
    ensures revoked ==> device in s.committed.devices && s.committed.devices[device].trust == Revoked
  {
    if device !in s.work.devices || s.work.devices[device].owner != owner {
      return false;
    }
    s.work := s.work.(devices := s.work.devices[device := s.work.devices[device].(trust := Revoked)]);
    s.AddEvent(RevokedEvent(device, owner));
    revoked := s.Commit();
  }

  // ---- Emergency stop ----

  /** The commands selected by a query, in some order. */
  method Rows(ids: set<CommandId>) returns (rows: seq<CommandId>)
    ensures Members(rows) == ids && NoRepeats(rows)
  {
    var rest := ids;
    rows := [];
    while rest != {}
      invariant Members(rows) + rest == ids && Members(rows) !! rest && NoRepeats(rows)
      decreases rest
    {
      var c :| c in rest;
      assert Members(rows + [c]) == Members(rows) + {c};
      assert c !in Members(rows);
      rows, rest := rows + [c], rest - {c};
    }
  }

  /** The loop over the selected commands; a refusal would be logged and passed over, but on committed
      rows there is none. */
  method BlockCommands(s: Session, owner: OwnerId, now: int)
    requires !s.aborted && Linked(s.work) && DossiersOk(s.work)
    modifies s`work, s`aborted
    ensures !s.aborted
    ensures s.work == Bulk(old(s.work), ToBlock(old(s.work), owner), d => OnBlock(d, "emergency_stop_activation", now))
  {
    hide DossiersOk, Put, Stamp, OnBlock, Bulk, Keeps, ToBlock, BulkOk, PythonAccepts, TriggerAccepts;
    ghost var db := s.work;
    var ids := Rows(ToBlock(s.work, owner));
    BulkNone(db, d => OnBlock(d, "emergency_stop_activation", now));
    assert Members(ids[..0]) == {};
    var i := 0;
    while i < |ids|
      invariant 0 <= i <= |ids| && !s.aborted && Linked(s.work)
      invariant s.work == Bulk(db, Members(ids[..i]), d => OnBlock(d, "emergency_stop_activation", now))
    {
      BlockStep(db, ids, i, owner, now);
      var outcome := s.TransitionCommand(ids[i], Blocked, "emergency_stop_activation", None, now);
      i := i + 1;
    }
    assert ids[..i] == ids;
  }

  /** One turn of the loop: the row is as it was, both guards let it be blocked. */
  lemma BlockStep(db: Db, ids: seq<CommandId>, i: nat, owner: OwnerId, now: int)
    requires Linked(db) && DossiersOk(db) && i < |ids| && NoRepeats(ids) && Members(ids) == ToBlock(db, owner)
    ensures var f := d => OnBlock(d, "emergency_stop_activation", now);
            var before, c := Bulk(db, Members(ids[..i]), f), ids[i];
            && c in db.commands && Linked(before) && c in before.commands && DossierOf(before, c) == DossierOf(db, c)
            && Accepts(before.commands[c].state, Blocked)
            && Bulk(db, Members(ids[..i + 1]), f)
               == Put(before, c, Moved(DossierOf(db, c), Blocked, "emergency_stop_activation", None, now), [])
            && Linked(Bulk(db, Members(ids[..i + 1]), f))
  {
    hide DossiersOk, Put, Stamp, Bulk, Keeps, OnBlock;
    var f := d => OnBlock(d, "emergency_stop_activation", now);
    MembersStep(ids, i);
    BlockBulk(db, Members(ids[..i + 1]), now);
    BulkStep(db, Members(ids[..i]), f, ids[i]);
    BulkReads(db, Members(ids[..i + 1]), f);
    BlockGuards(db, ids[i], owner, now);
  }

  lemma BlockGuards(db: Db, c: CommandId, owner: OwnerId, now: int)
    requires Linked(db) && DossiersOk(db) && c in ToBlock(db, owner)
    ensures var d := DossierOf(db, c);
            && Accepts(d.cmd.state, Blocked)
            && OnBlock(d, "emergency_stop_activation", now) == Moved(d, Blocked, "emergency_stop_activation", None, now)
  {
    hide DossiersOk, Stamp;
    SettledRow(db, c);
  }

  method ActivateStop(s: Session, owner: OwnerId, reason: string, now: int)
    requires s.Fresh() && Linked(s.committed) && DossiersOk(s.committed)
    modifies s
    ensures s.Fresh() && s.committed == Activate(old(s.committed), owner, reason, now)
  {
    hide DossiersOk, Bulk, ToBlock;
    ghost var db := s.work;
    if owner in s.work.stops && s.work.stops[owner].active {
      s.AddEvent(StopEvent(owner, true, s.work.stops[owner].reason));
      var ok := s.Commit();
      return;
    }
    s.work := s.work.(stops := s.work.stops[owner := Stop(true, reason)]);
    StopRowApart(db, s.work.stops, owner, now);
    BlockCommands(s, owner, now);
    s.AddEvent(StopEvent(owner, true, reason));
    var ok := s.Commit();
  }

  /** Blocking the commands does not depend on the stop row written before it. */
  lemma StopRowApart(db: Db, stops: map<OwnerId, Stop>, owner: OwnerId, now: int)
    requires Linked(db) && DossiersOk(db)
    ensures var rows := db.(stops := stops);
            var f := d => OnBlock(d, "emergency_stop_activation", now);
            && Linked(rows) && DossiersOk(rows) && ToBlock(rows, owner) == ToBlock(db, owner)
            && Bulk(rows, ToBlock(rows, owner), f) == Bulk(db, ToBlock(db, owner), f).(stops := stops)
            && Bulk(rows, ToBlock(rows, owner), f).outbox == db.outbox
  {
    hide OnBlock, DossierOk;
    var rows := db.(stops := stops);
    forall c | c in db.commands
      ensures DossierOf(rows, c) == DossierOf(db, c)
    {
    }
    assert ToBlock(rows, owner) == ToBlock(db, owner);
    StopRowBulk(db, stops, ToBlock(db, owner), d => OnBlock(d, "emergency_stop_activation", now));
  }

  method ReleaseStop(s: Session, owner: OwnerId) returns (released: bool)
    requires s.Fresh()
    modifies s
    ensures s.Fresh() && s.committed == Release(old(s.committed), owner)
    ensures released == StopActive(old(s.committed), owner) && !StopActive(s.committed, owner)
  {
    if owner !in s.work.stops || !s.work.stops[owner].active {
      return false;
    }
    s.work := s.work.(stops := s.work.stops[owner := s.work.stops[owner].(active := false)]);
    s.AddEvent(StopEvent(owner, false, ""));
    released := s.Commit();
  }
}
