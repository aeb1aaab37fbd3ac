/** The consumer under messages that come in any order, any number of times. */
module MessageOrder {
  import opened Options
  import opened CommandStates
  import opened Tables
  import opened Lifecycle
  import opened Store
  import opened Operations
  import opened OperationProofs

  datatype Arrival = Arrival(m: Message, now: int)

  /** The handlers folded over a sequence of arrivals. */
  function ConsumeAll(db: Db, arrivals: seq<Arrival>): (after: Db)
    requires Linked(db)
    ensures Linked(after)
  {
    if arrivals == [] then db
    else
      var k := |arrivals| - 1;
      var before := ConsumeAll(db, arrivals[..k]);
      ConsumeReads(before, arrivals[k]);
      Consume(before, arrivals[k].m, arrivals[k].now)
  }

  lemma SameColumnsOnMessage(d: Dossier, m: Message, now: int)
    ensures SameColumns(d.cmd, OnMessage(d, m, now).cmd) && OnMessage(d, m, now).approval == d.approval
  {
  }

  /** A message touches its own command and no other. */
  lemma ConsumeReads(db: Db, a: Arrival)
    requires Linked(db)
    ensures Linked(Consume(db, a.m, a.now))
    ensures forall c :: c in db.commands ==>
              && c in Consume(db, a.m, a.now).commands
              && DossierOf(Consume(db, a.m, a.now), c) ==
                 if a.m.id == Some(c) then OnMessage(DossierOf(db, c), a.m, a.now) else DossierOf(db, c)
  {
    hide OnMessage;
    if a.m.id.Some? && a.m.id.value in db.commands {
      var c := a.m.id.value;
      var d := OnMessage(DossierOf(db, c), a.m, a.now);
      SameColumnsOnMessage(DossierOf(db, c), a.m, a.now);
      PutReads(db, c, d, []);
    }
  }

  // ---- The order of a successful life ----

  /** Delivered, accepted acknowledgement, progress and successful result, from the right device. */
  predicate Favourable(m: Message, device: DeviceId) {
    match m
    case DeliveredMessage(_, _, d) => d == None || d == Some(device)
    case AckMessage(_, _, d, accepted, _) => accepted && (d == None || d == Some(device))
    case ProgressMessage(_, _) => true
    case ResultMessage(_, _, d, success, _, _, _) => success && (d == None || d == Some(device))
  }

  /** A message that names another device than the command's; progress names none. */
  predicate Foreign(m: Message, device: DeviceId) {
    !m.ProgressMessage? && m.device.Some? && m.device.value != device
  }

  function StageOf(m: Message): nat {
    match m
    case DeliveredMessage(_, _, _) => 0
    case AckMessage(_, _, _, _, _) => 1
    case ProgressMessage(_, _) => 2
    case ResultMessage(_, _, _, _, _, _, _) => 3
  }

  function StateAfter(k: nat): CommandState {
    match k
    case 0 => Queued
    case 1 => Delivered
    case 2 => Acknowledged
    case 3 => Running
    case _ => Succeeded
  }

  /** The stages of the messages addressed to one command, in order of arrival; those that name another device
      count for nothing. */
  function Stages(arrivals: seq<Arrival>, c: CommandId, device: DeviceId): seq<nat> {
    if arrivals == [] then []
    else
      var a := arrivals[|arrivals| - 1];
      Stages(arrivals[..|arrivals| - 1], c, device)
      + if a.m.id == Some(c) && !Foreign(a.m, device) then [StageOf(a.m)] else []
  }

  predicate Subsequence(p: seq<nat>, s: seq<nat>) {
    || p == []
    || (s != [] && (|| Subsequence(p, s[..|s| - 1])
                    || (p[|p| - 1] == s[|s| - 1] && Subsequence(p[..|p| - 1], s[..|s| - 1]))))
  }

  const ORDER: seq<nat> := [0, 1, 2, 3]

  /** k is the length of the longest prefix of the order found in the stages. */
  ghost predicate Longest(k: nat, stages: seq<nat>) {
    k <= 4 && forall j :: 0 <= j <= 4 ==> (Subsequence(ORDER[..j], stages) <==> j <= k)
  }

  lemma LongestGrows(k: nat, stages: seq<nat>, t: nat)
    requires Longest(k, stages) && t < 4
    ensures Longest(if t == k then k + 1 else k, stages + [t])
  {
    var longer := stages + [t];
    assert longer[..|stages|] == stages;
    forall j | 0 <= j <= 4
      ensures Subsequence(ORDER[..j], longer) <==> j <= if t == k then k + 1 else k
    {
      if j > 0 {
        assert ORDER[..j][..j - 1] == ORDER[..j - 1] && ORDER[j - 1] == j - 1;
      }
    }
  }

  /** The key of the next message of the order is not in the log yet. */
  lemma NextKeyIsNew(d: Dossier, m: Message)
    requires DossierOk(d) && StageOf(m) < 4 && d.cmd.state == StateAfter(StageOf(m))
    ensures m.DeliveredMessage? ==> !Duplicate(d.log, DedupKey(Delivery, m.idText))
    ensures m.AckMessage? ==> !Duplicate(d.log, DedupKey(Ack, m.idText))
    ensures m.ResultMessage? ==> !Duplicate(d.log, DedupKey(Result, m.idText))
  {
    forall i | 0 <= i < |d.log|
      ensures Rank(d.log[i].next) <= Rank(d.cmd.state) && MetadataOk(d.log[i])
    {
      RankRises(d.log, i, |d.log| - 1);
    }
  }

  lemma FavourableStep(d: Dossier, m: Message, now: int, k: nat)
    requires DossierOk(d) && k <= 4 && d.cmd.state == StateAfter(k) && Favourable(m, d.cmd.device)
    ensures OnMessage(d, m, now).cmd.state == StateAfter(if StageOf(m) == k then k + 1 else k)
  {
    hide DossierOk;
    if StageOf(m) == k {
      NextKeyIsNew(d, m);
    }
  }

  lemma LongestOfNone()
    ensures Longest(0, [])
  {
  }

  lemma ForeignStep(d: Dossier, m: Message, now: int)
    requires Foreign(m, d.cmd.device)
    ensures OnMessage(d, m, now) == d
  {
    hide Duplicate;
  }

  /** One arrival: the command moves on by its next stage, stays otherwise, and the store is kept. */
  lemma OneArrival(db: Db, a: Arrival, c: CommandId, k: nat)
    requires Base(db) && c in db.commands && k <= 4 && db.commands[c].state == StateAfter(k)
    requires a.m.id == Some(c) ==> Favourable(a.m, db.commands[c].device) || Foreign(a.m, db.commands[c].device)
    ensures var after := Consume(db, a.m, a.now);
            var counts := a.m.id == Some(c) && !Foreign(a.m, db.commands[c].device) && StageOf(a.m) == k;
            && Base(after) && c in after.commands && after.commands[c].device == db.commands[c].device
            && after.commands[c].state == StateAfter(if counts then k + 1 else k)
  {
    hide DossierOk, RowsMatch, KeysUnique, EventsOk, StopsRespected, OnMessage, Favourable, Foreign;
    assert Base(Consume(db, a.m, a.now)) by {
      ConsumeOk(db, a.m, a.now);
    }
    ConsumeReads(db, a);
    if a.m.id == Some(c) {
      if Foreign(a.m, db.commands[c].device) {
        ForeignStep(DossierOf(db, c), a.m, a.now);
      } else {
        FavourableStep(DossierOf(db, c), a.m, a.now, k);
      }
      SameColumnsOnMessage(DossierOf(db, c), a.m, a.now);
    }
  }

  /** From Queued, any finite mixture of favourable messages for a command, with anything at all for other
      commands and from other devices in between, ends exactly at the longest prefix of the order that is a
      subsequence of the messages from its own device. */
  lemma {:induction false} EndsAtLongestPrefix(db: Db, arrivals: seq<Arrival>, c: CommandId) returns (k: nat)
    requires Base(db) && c in db.commands && db.commands[c].state == Queued
    requires forall i :: 0 <= i < |arrivals| && arrivals[i].m.id == Some(c) ==>
               Favourable(arrivals[i].m, db.commands[c].device) || Foreign(arrivals[i].m, db.commands[c].device)
    ensures Base(ConsumeAll(db, arrivals)) && c in ConsumeAll(db, arrivals).commands
    ensures ConsumeAll(db, arrivals).commands[c].device == db.commands[c].device
    ensures Longest(k, Stages(arrivals, c, db.commands[c].device))
    ensures ConsumeAll(db, arrivals).commands[c].state == StateAfter(k)
  {
    hide DossiersOk, RowsMatch, KeysUnique, EventsOk, StopsRespected, Consume, Favourable, Subsequence, Longest,
         StageOf, Foreign;
    var device := db.commands[c].device;
    if arrivals == [] {
      k := 0;
      LongestOfNone();
    } else {
      var n := |arrivals| - 1;
      var a := arrivals[n];
      k := EndsAtLongestPrefix(db, arrivals[..n], c);
      OneArrival(ConsumeAll(db, arrivals[..n]), a, c, k) by {
        LongestAtMostFour(k, Stages(arrivals[..n], c, device));
        assert a.m.id == Some(c) ==> Favourable(arrivals[n].m, device) || Foreign(arrivals[n].m, device);
      }
      if a.m.id == Some(c) && !Foreign(a.m, device) {
        StageBound(a.m);
        LongestGrows(k, Stages(arrivals[..n], c, device), StageOf(a.m));
        k := if StageOf(a.m) == k then k + 1 else k;
      } else {
        assert Stages(arrivals, c, device) == Stages(arrivals[..n], c, device);
      }
    }
  }

  lemma LongestAtMostFour(k: nat, stages: seq<nat>)
    requires Longest(k, stages)
    ensures k <= 4
  {
  }

  lemma StageBound(m: Message)
    ensures StageOf(m) < 4
  {
  }

  /** Success is reached exactly when all four stages arrive in order as a subsequence. */
  lemma SucceedsIffInOrder(db: Db, arrivals: seq<Arrival>, c: CommandId)
    requires Base(db) && c in db.commands && db.commands[c].state == Queued
    requires forall i :: 0 <= i < |arrivals| && arrivals[i].m.id == Some(c) ==>
               Favourable(arrivals[i].m, db.commands[c].device) || Foreign(arrivals[i].m, db.commands[c].device)
    ensures c in ConsumeAll(db, arrivals).commands
    ensures ConsumeAll(db, arrivals).commands[c].state == Succeeded <==>
              Subsequence(ORDER, Stages(arrivals, c, db.commands[c].device))
  {
    hide Base, ConsumeAll;
    var k := EndsAtLongestPrefix(db, arrivals, c);
    assert ORDER[..4] == ORDER;
  }
}
