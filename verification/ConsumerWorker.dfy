/** The lifecycle consumer as the code runs it: a session for each message, rows changed one by one. */
module ConsumerWorker {
  import opened Options
  import opened CommandStates
  import opened Tables
  import opened Lifecycle
  import opened Store
  import opened Operations
  import opened Sessions
  import opened MessageOrder
  import Subjects

  method UpdateTask(s: Session, c: CommandId, state: TaskState, summary: Option<string>,
                    code: Option<string>, text: Option<string>)
    requires Linked(s.work) && c in s.work.commands
    modifies s`work
    ensures Linked(s.work)
    ensures var d := DossierOf(old(s.work), c);
            s.work == Put(old(s.work), c, d.(task := TaskWith(d.task, state, summary, code, text)), [])
  {
    hide Put;
    var task := s.work.tasks[c].(state := state);
    if summary.Some? {
      task := task.(summary := summary);
    }
    if code.Some? {
      task := task.(errorCode := code);
    }
    if text.Some? {
      task := task.(errorMessage := text);
    }
    s.SetTask(c, task);
  }

  /** A transition followed by a task update is one write of both. */
  lemma MoveThenTask(db: Db, c: CommandId, new_: CommandState, source: string, meta: Option<Metadata>, now: int,
                     task: Task)
    requires Linked(db) && c in db.commands
    ensures var d := Moved(DossierOf(db, c), new_, source, meta, now);
            var rows := Put(db, c, d, []);
            && Linked(rows) && c in rows.commands && DossierOf(rows, c) == d && d.task == db.tasks[c]
            && Put(rows, c, d.(task := task), []) == Put(db, c, d.(task := task), [])
  {
    hide Put, Stamp;
    var d := Moved(DossierOf(db, c), new_, source, meta, now);
    StampDevice(db.commands[c], new_, meta, now);
    PutReads(db, c, d, []);
    PutOver(db, c, d, d.(task := task), []);
    PutRow(db, c, d);
  }

  /** The state a message asks for. */
  function Target(m: Message): CommandState {
    match m
    case DeliveredMessage(_, _, _) => Delivered
    case AckMessage(_, _, _, accepted, _) => if accepted then Acknowledged else Failed
    case ProgressMessage(_, _) => Running
    case ResultMessage(_, _, _, success, _, _, _) => if success then Succeeded else Failed
  }

  predicate Ignored(d: Dossier, m: Message) {
    match m
    case DeliveredMessage(text, _, device) => Duplicate(d.log, DedupKey(Delivery, text)) || WrongDevice(d.cmd, device)
    case AckMessage(text, _, device, _, _) => Duplicate(d.log, DedupKey(Ack, text)) || WrongDevice(d.cmd, device)
    case ProgressMessage(_, _) => d.cmd.state != Acknowledged
    case ResultMessage(text, _, device, _, _, _, _) =>
      Duplicate(d.log, DedupKey(Result, text)) || WrongDevice(d.cmd, device)
  }

  /** The error code a message asks to store. */
  function CodeOf(m: Message): Option<string> {
    if m.ResultMessage? && !m.success then m.code else None
  }

  /** The handler ends in a database error: the service's table lets the change through, and the
      trigger or the error code's column does not. */
  predicate Raises(db: Db, m: Message)
    requires db.log.Keys == db.commands.Keys && db.tasks.Keys == db.commands.Keys
  {
    && m.id.Some? && m.id.value in db.commands
    && var d := DossierOf(db, m.id.value);
       && !Ignored(d, m) && PythonAccepts(d.cmd.state, Target(m))
       && (!TriggerAccepts(d.cmd.state, Target(m)) || !Fits(CodeOf(m)))
  }

  /** On committed rows only a device's refusal or failure report can raise, and it does so exactly while
      the command is queued, delivered or acknowledged, or later with an error code that is too long. */
  lemma RaisesIff(db: Db, m: Message)
    requires Base(db) && m.id.Some? && m.id.value in db.commands
    ensures var d := DossierOf(db, m.id.value);
            Raises(db, m) <==>
              && !Ignored(d, m) && Target(m) == Failed
              && (|| d.cmd.state in {Queued, Delivered, Acknowledged}
                  || (d.cmd.state in {Running, Failed} && !Fits(CodeOf(m))))
  {
    hide DossiersOk, RowsMatch, KeysUnique, EventsOk, StopsRespected, Ignored, Duplicate, PythonAccepts, TriggerAccepts;
    SettledRow(db, m.id.value);
    GuardsApart(db.commands[m.id.value].state, Target(m));
  }

  lemma GuardsApart(s: CommandState, new_: CommandState)
    requires Settled(s) && new_ in {Delivered, Acknowledged, Running, Succeeded, Failed}
    ensures PythonAccepts(s, new_) && !TriggerAccepts(s, new_) <==>
              new_ == Failed && s in {Queued, Delivered, Acknowledged}
    ensures PythonAccepts(s, Failed) <==> s in {Queued, Delivered, Acknowledged, Running, Failed}
  {
  }

  /** A transition with its task update and the commit; a refusal or an error leaves nothing behind. */
  method Conclude(s: Session, c: CommandId, new_: CommandState, source: string, meta: Option<Metadata>,
                  state: TaskState, summary: Option<string>, code: Option<string>, text: Option<string>, now: int)
    returns (outcome: Transition)
    requires s.Fresh() && Linked(s.committed) && c in s.committed.commands
    modifies s
    ensures s.Fresh() && outcome == TransitionOf(old(s.committed), false, c, new_, meta)
    ensures var d := DossierOf(old(s.committed), c);
            s.committed ==
            if outcome != Done then old(s.committed)
            else Put(old(s.committed), c, Moved(d, new_, source, meta, now)
                       .(task := TaskWith(d.task, state, summary, code, text)), [])
  {
    hide Put, Stamp, Moved, PythonAccepts, TriggerAccepts, TaskWith;
    MoveThenTask(s.work, c, new_, source, meta, now, TaskWith(s.work.tasks[c], state, summary, code, text));
    outcome := s.TransitionCommand(c, new_, source, meta, now);
    if outcome != Done {
      s.Rollback();
      return;
    }
    UpdateTask(s, c, state, summary, code, text);
    var ok := s.Commit();
  }

  method HandleDelivered(s: Session, m: Message, now: int) returns (raised: bool)
    requires m.DeliveredMessage? && s.Fresh() && Linked(s.committed)
    modifies s
    ensures s.Fresh() && s.committed == Consume(old(s.committed), m, now)
    ensures raised == Raises(old(s.committed), m)
  {
    hide Put, Stamp, Moved, Duplicate, PythonAccepts, TriggerAccepts;
    if m.id.None? {
      return false;
    }
    var c := m.id.value;
    var key := DedupKey(Delivery, m.idText);
    if c !in s.work.commands {
      return false;
    }
    PutNothing(s.work, c);
    if Duplicate(s.work.log[c], key) {
      return false;
    }
    if m.device.Some? && s.work.commands[c].device != m.device.value {
      return false;
    }
    var meta := Some(Metadata(key, None, None, None, None));
    var outcome := Conclude(s, c, Delivered, "gateway", meta, TaskRunning, None, None, None, now);
    return outcome == DatabaseError;
  }

  method HandleAcknowledged(s: Session, m: Message, now: int) returns (raised: bool)
    requires m.AckMessage? && s.Fresh() && Linked(s.committed)
    modifies s
    ensures s.Fresh() && s.committed == Consume(old(s.committed), m, now)
    ensures raised == Raises(old(s.committed), m)
  {
    hide Put, Stamp, Moved, Duplicate, PythonAccepts, TriggerAccepts, TaskWith;
    if m.id.None? {
      return false;
    }
    var c := m.id.value;
    var key := DedupKey(Ack, m.idText);
    if c !in s.work.commands {
      return false;
    }
    PutNothing(s.work, c);
    if Duplicate(s.work.log[c], key) {
      return false;
    }
    if m.device.Some? && s.work.commands[c].device != m.device.value {
      return false;
    }
    if m.accepted {
      var outcome := s.TransitionCommand(c, Acknowledged, "device", Some(Metadata(key, None, None, None, None)), now);
      if outcome != Done {
        s.Rollback();
        return outcome == DatabaseError;
      }
      var ok := s.Commit();
      return false;
    }
    var meta := Some(Metadata(key, None, None, None, m.reason));
    var outcome := Conclude(s, c, Failed, "device", meta, TaskFailed, None, None, m.reason, now);
    return outcome == DatabaseError;
  }

  /** No duplicate lookup here: only an acknowledged command starts to run. */
  method HandleProgress(s: Session, m: Message, now: int) returns (raised: bool)
    requires m.ProgressMessage? && s.Fresh() && Linked(s.committed)
    modifies s
    ensures s.Fresh() && s.committed == Consume(old(s.committed), m, now)
    ensures raised == Raises(old(s.committed), m)
  {
    hide Put, Stamp, Moved, Duplicate;
    if m.id.None? || m.id.value !in s.work.commands {
      return false;
    }
    var c := m.id.value;
    PutNothing(s.work, c);
    if s.work.commands[c].state == Acknowledged {
      var meta := Some(Metadata(DedupKey(Progress, m.idText), None, None, None, None));
      var outcome := Conclude(s, c, Running, "device", meta, TaskRunning, None, None, None, now);
    }
    return false;
  }

  method HandleResult(s: Session, m: Message, now: int) returns (raised: bool)
    requires m.ResultMessage? && s.Fresh() && Linked(s.committed)
    modifies s
    ensures s.Fresh() && s.committed == Consume(old(s.committed), m, now)
    ensures raised == Raises(old(s.committed), m)
  {
    hide Put, Stamp, Moved, Duplicate, PythonAccepts, TriggerAccepts, TaskWith;
    if m.id.None? {
      return false;
    }
    var c := m.id.value;
    var key := DedupKey(Result, m.idText);
    if c !in s.work.commands {
      return false;
    }
    PutNothing(s.work, c);
    if Duplicate(s.work.log[c], key) {
      return false;
    }
    if m.device.Some? && s.work.commands[c].device != m.device.value {
      return false;
    }
    if m.success {
      var meta := Some(Metadata(key, Some(m.data), Some("success"), None, None));
      var outcome :=
        Conclude(s, c, Succeeded, "device", meta, TaskSucceeded, Some("success"), None, None, now);
      return outcome == DatabaseError;
    }
    var meta := Some(Metadata(key, None, None, m.code, m.text));
    var outcome := Conclude(s, c, Failed, "device", meta, TaskFailed, None, m.code, m.text, now);
    return outcome == DatabaseError;
  }

  // ---- The polling loop ----

  /** A decoded message body: the command's id as sent and as parsed, and the other fields with the
      defaults that the handlers give to missing ones. */
  datatype Body = Body(
    idText: string, id: Option<CommandId>, device: Option<DeviceId>, accepted: bool, reason: Option<string>,
    success: bool, data: Option<Json>, code: Option<string>, text: Option<string>)

  /** A fetched message. It has no body when its data cannot be decoded, is not an object, or has a command id
      that is neither text nor null, which the handlers do not expect. */
  datatype Incoming = Incoming(subject: string, body: Option<Body>, now: int)

  /** The handler that the subject selects decides how the body is read. */
  function ArrivalOf(x: Incoming): Option<Arrival> {
    if x.body.None? then None
    else
      var b := x.body.value;
      match Subjects.Route(x.subject, Subjects.HANDLERS)
      case HandleDelivered => Some(Arrival(DeliveredMessage(b.idText, b.id, b.device), x.now))
      case HandleAcknowledged => Some(Arrival(AckMessage(b.idText, b.id, b.device, b.accepted, b.reason), x.now))
      case HandleProgress => Some(Arrival(ProgressMessage(b.idText, b.id), x.now))
      case HandleResult =>
        Some(Arrival(ResultMessage(b.idText, b.id, b.device, b.success, b.data, b.code, b.text), x.now))
      case NoHandler => None
  }

  /** On the subject that the gateway builds for it, each kind of message is read as itself. */
  lemma ArrivalsAreThemselves(id: string, b: Body, now: int)
    requires Subjects.IdText(id)
    ensures ArrivalOf(Incoming(Subjects.CommandDelivered(id), Some(b), now))
            == Some(Arrival(DeliveredMessage(b.idText, b.id, b.device), now))
    ensures ArrivalOf(Incoming(Subjects.CommandAcknowledged(id), Some(b), now))
            == Some(Arrival(AckMessage(b.idText, b.id, b.device, b.accepted, b.reason), now))
    ensures ArrivalOf(Incoming(Subjects.CommandProgress(id), Some(b), now))
            == Some(Arrival(ProgressMessage(b.idText, b.id), now))
    ensures ArrivalOf(Incoming(Subjects.CommandResult(id), Some(b), now))
            == Some(Arrival(ResultMessage(b.idText, b.id, b.device, b.success, b.data, b.code, b.text), now))
    ensures ArrivalOf(Incoming(Subjects.CommandReady(id), Some(b), now)).None?
  {
    hide Subjects.Route;
    Subjects.RouteRoundTrip(id);
  }

  function Arrivals(batch: seq<Incoming>): seq<Arrival> {
    if batch == [] then []
    else
      var a := ArrivalOf(batch[|batch| - 1]);
      Arrivals(batch[..|batch| - 1]) + if a.Some? then [a.value] else []
  }

  /** Nobody's messages are acknowledged, undecodable ones are not; the others are unless their handler
      raises. */
  predicate Settles(db: Db, x: Incoming)
    requires db.log.Keys == db.commands.Keys && db.tasks.Keys == db.commands.Keys
  {
    || Subjects.Route(x.subject, Subjects.HANDLERS) == Subjects.NoHandler
    || (ArrivalOf(x).Some? && !Raises(db, ArrivalOf(x).value.m))
  }

  /** Nobody's messages are acknowledged, undecodable ones are given back. */
  lemma SettlesIff(db: Db, id: string, body: Option<Body>, now: int)
    requires Linked(db) && Subjects.IdText(id)
    ensures Settles(db, Incoming(Subjects.CommandReady(id), body, now))
    ensures body.None? ==> !Settles(db, Incoming(Subjects.CommandDelivered(id), body, now))
    ensures body.None? ==> !Settles(db, Incoming(Subjects.CommandResult(id), body, now))
    ensures body.Some? && body.value.id.None? ==> Settles(db, Incoming(Subjects.CommandResult(id), body, now))
  {
    hide Subjects.Route;
    Subjects.RouteRoundTrip(id);
  }

  /** A fetched batch. */
  method PollBatch(s: Session, batch: seq<Incoming>) returns (acked: seq<bool>)
    requires s.Fresh() && Linked(s.committed)
    modifies s
    ensures s.Fresh() && s.committed == ConsumeAll(old(s.committed), Arrivals(batch))
    ensures |acked| == |batch|
    ensures forall i :: 0 <= i < |batch| ==>
              acked[i] == Settles(ConsumeAll(old(s.committed), Arrivals(batch[..i])), batch[i])
  {
    hide Raises, Settles, ArrivalOf, ConsumeAll;
    ghost var db := s.committed;
    acked := [];
    var i := 0;
    NoArrivals(db);
    while i < |batch|
      invariant 0 <= i <= |batch| && s.Fresh() && Linked(db) && |acked| == i
      invariant s.committed == ConsumeAll(db, Arrivals(batch[..i]))
      invariant forall k :: 0 <= k < i ==> acked[k] == Settles(ConsumeAll(db, Arrivals(batch[..k])), batch[k])
    {
      assert batch[..i + 1][..i] == batch[..i];
      OneMore(db, Arrivals(batch[..i]), batch[i]);
      var done := Poll(s, batch[i]);
      acked := acked + [done];
      i := i + 1;
    }
    assert batch[..i] == batch;
  }

  lemma NoArrivals(db: Db)
    requires Linked(db)
    ensures ConsumeAll(db, []) == db
  {
  }

  lemma OneMore(db: Db, before: seq<Arrival>, x: Incoming)
    requires Linked(db)
    ensures ConsumeAll(db, before + if ArrivalOf(x).Some? then [ArrivalOf(x).value] else [])
            == if ArrivalOf(x).Some? then Consume(ConsumeAll(db, before), ArrivalOf(x).value.m, ArrivalOf(x).value.now)
               else ConsumeAll(db, before)
  {
    hide ArrivalOf, Consume;
    if ArrivalOf(x).Some? {
      assert (before + [ArrivalOf(x).value])[..|before|] == before;
    } else {
      assert before + [] == before;
    }
  }

  /** One fetched message. */
  method Poll(s: Session, x: Incoming) returns (done: bool)
    requires s.Fresh() && Linked(s.committed)
    modifies s
    ensures s.Fresh() && done == Settles(old(s.committed), x)
    ensures s.committed ==
            if ArrivalOf(x).Some? then Consume(old(s.committed), ArrivalOf(x).value.m, ArrivalOf(x).value.now)
            else old(s.committed)
  {
    hide Raises, Consume, Subjects.Route;
    var h := Subjects.RouteHandler(x.subject);
    if h == Subjects.NoHandler {
      return true;
    }
    if x.body.None? {
      return false;
    }
    var b := x.body.value;
    var raised: bool;
    match h {
      case HandleDelivered => raised := HandleDelivered(s, DeliveredMessage(b.idText, b.id, b.device), x.now);
      case HandleAcknowledged =>
        raised := HandleAcknowledged(s, AckMessage(b.idText, b.id, b.device, b.accepted, b.reason), x.now);
      case HandleProgress => raised := HandleProgress(s, ProgressMessage(b.idText, b.id), x.now);
      case HandleResult =>
        raised := HandleResult(s, ResultMessage(b.idText, b.id, b.device, b.success, b.data, b.code, b.text), x.now);
    }
    return !raised;
  }
}
