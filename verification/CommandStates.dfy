/** The command state machine: the table in the service code, the database trigger
    that guards the same column, and what the two guards allow together. */
module CommandStates {

  datatype CommandState =
    | Received | Validated | AwaitingApproval | Approved | Rejected | Queued
    | Delivered | Acknowledged | Running | Succeeded | Failed | TimedOut
    | Cancelled | Expired | Blocked

  const TERMINAL_STATES: set<CommandState> :=
    {Succeeded, Failed, TimedOut, Cancelled, Expired, Rejected, Blocked}

  function AllowedTransitions(s: CommandState): set<CommandState> {
    match s
    case Received => {Validated}
    case Validated => {AwaitingApproval, Queued, Rejected, Blocked}
    case AwaitingApproval => {Approved, Rejected, Expired, Cancelled}
    case Approved => {Queued, Blocked, Expired, Cancelled}
    case Queued => {Delivered, Blocked, Expired, Cancelled, Failed}
    case Delivered => {Acknowledged, TimedOut, Cancelled, Failed}
    case Acknowledged => {Running, Failed, Cancelled}
    case Running => {Succeeded, Failed, TimedOut, Cancelled}
    case _ => {}
  }

  /** The check made by the service code. A state may always be re-entered. */
  predicate PythonAccepts(old_: CommandState, new_: CommandState) {
    if old_ in TERMINAL_STATES && old_ != new_ then false
    else new_ in AllowedTransitions(old_) || old_ == new_
  }

  /** The check made by the row trigger. */
  predicate TriggerAccepts(old_: CommandState, new_: CommandState) {
    old_ == new_ ||
    match old_
    case Received => new_ in {Validated, AwaitingApproval, Queued, Cancelled}
    case Validated => new_ in {AwaitingApproval, Queued, Cancelled}
    case AwaitingApproval => new_ in {Approved, Rejected, Expired, Cancelled}
    case Approved => new_ in {Queued, Cancelled}
    case Queued => new_ in {Delivered, Expired, Cancelled, Blocked}
    case Delivered => new_ in {Acknowledged, Expired, Cancelled}
    case Acknowledged => new_ in {Running, Expired, Cancelled}
    case Running => new_ in {Succeeded, Failed, Cancelled, TimedOut}
    case Blocked => new_ in {Queued, Cancelled}
    case _ => false
  }

  /** A write to the state column happens only when both guards let it through. */
  predicate Accepts(old_: CommandState, new_: CommandState) {
    PythonAccepts(old_, new_) && TriggerAccepts(old_, new_)
  }

  /** The changes that both guards let through. */
  lemma AcceptedChanges(a: CommandState, b: CommandState)
    requires a != b
    ensures Accepts(a, b) <==>
              (a, b) in {(Received, Validated), (Validated, AwaitingApproval), (Validated, Queued),
                         (AwaitingApproval, Approved), (AwaitingApproval, Rejected), (AwaitingApproval, Expired),
                         (AwaitingApproval, Cancelled), (Approved, Queued), (Approved, Cancelled),
                         (Queued, Delivered), (Queued, Blocked), (Queued, Expired), (Queued, Cancelled),
                         (Delivered, Acknowledged), (Delivered, Cancelled), (Acknowledged, Running),
                         (Acknowledged, Cancelled), (Running, Succeeded), (Running, Failed), (Running, TimedOut),
                         (Running, Cancelled)}
  {
  }

  /** Every change of state that both guards accept raises the rank. */
  function Rank(s: CommandState): nat {
    match s
    case Received => 0
    case Validated => 1
    case AwaitingApproval => 2
    case Approved => 3
    case Queued => 4
    case Delivered => 5
    case Acknowledged => 6
    case Running => 7
    case _ => 8
  }

  ghost predicate WalkUnder(guard: (CommandState, CommandState) -> bool, p: seq<CommandState>) {
    forall i :: 0 < i < |p| ==> guard(p[i - 1], p[i])
  }

  ghost predicate Walk(p: seq<CommandState>) {
    forall i :: 0 < i < |p| ==> Accepts(p[i - 1], p[i])
  }

  /** The number of steps of a walk that change the state. */
  function Changes(p: seq<CommandState>): nat {
    if |p| < 2 then 0
    else Changes(p[..|p| - 1]) + if p[|p| - 2] != p[|p| - 1] then 1 else 0
  }

  lemma {:induction false} ChangesRaiseRank(p: seq<CommandState>)
    requires p != [] && Walk(p)
    ensures Rank(p[0]) + Changes(p) <= Rank(p[|p| - 1])
  {
    if |p| == 1 {
    } else {
      var q := p[..|p| - 1];
      assert Accepts(p[|p| - 2], p[|p| - 1]);
      ChangesRaiseRank(q);
    }
  }

  /** No command changes state more than eight times, however long it lives. */
  lemma AtMostEightChanges(p: seq<CommandState>)
    requires Walk(p)
    ensures Changes(p) <= 8
  {
    if p != [] {
      ChangesRaiseRank(p);
    }
  }

  function LongestLifeState(i: nat): CommandState {
    match i
    case 0 => Received
    case 1 => Validated
    case 2 => AwaitingApproval
    case 3 => Approved
    case 4 => Queued
    case 5 => Delivered
    case 6 => Acknowledged
    case 7 => Running
    case _ => Succeeded
  }

  function LongestLife(n: nat): (p: seq<CommandState>)
    ensures |p| == n + 1
    ensures forall i :: 0 <= i <= n ==> p[i] == LongestLifeState(i)
  {
    seq(n + 1, i requires 0 <= i <= n => LongestLifeState(i))
  }

  /** Eight is reached: the first n changes of an approved and successful life. */
  lemma {:induction false} EightChangesReached(n: nat)
    requires n <= 8
    ensures Walk(LongestLife(n)) && Changes(LongestLife(n)) == n
  {
    var p := LongestLife(n);
    if n > 0 {
      EightChangesReached(n - 1);
      assert p[..n] == LongestLife(n - 1);
    }
  }

  /** Queued, blocked, queued, blocked, ... */
  function QueuedBlockedCycle(n: nat): (p: seq<CommandState>)
    ensures |p| == n + 1
  {
    seq(n + 1, i => if i % 2 == 0 then Queued else Blocked)
  }

  /** The trigger alone sets no bound: for every n it lets a command change state n times,
      on a walk that the composed guard refuses as soon as it tries to leave Blocked. */
  lemma {:induction false} TriggerAloneCyclesForever(n: nat)
    ensures WalkUnder(TriggerAccepts, QueuedBlockedCycle(n))
    ensures Changes(QueuedBlockedCycle(n)) == n
    ensures Walk(QueuedBlockedCycle(n)) <==> n < 2
  {
    var p := QueuedBlockedCycle(n);
    if n > 0 {
      TriggerAloneCyclesForever(n - 1);
      assert p[..n] == QueuedBlockedCycle(n - 1);
    }
    if n >= 2 {
      assert !Accepts(p[1], p[2]);
    }
  }

  lemma {:induction false} TerminalStatesFixed(p: seq<CommandState>, i: nat)
    requires Walk(p) && i < |p| && p[0] in TERMINAL_STATES
    ensures p[i] == p[0]
  {
    if i > 0 {
      TerminalStatesFixed(p, i - 1);
      assert Accepts(p[i - 1], p[i]);
    }
  }

  /** Although the table lists Failed after four states, both guards let it be entered
      only from Running. */
  lemma {:induction false} FailedOnlyFromRunning(p: seq<CommandState>)
    requires Walk(p) && p != [] && p[0] != Failed && p[|p| - 1] == Failed
    ensures exists i :: 0 < i < |p| && p[i - 1] == Running && p[i] == Failed
  {
    var k := |p| - 1;
    assert Accepts(p[k - 1], p[k]);
    if p[k - 1] == Failed {
      FailedOnlyFromRunning(p[..k]);
      var i :| 0 < i < k && p[..k][i - 1] == Running && p[..k][i] == Failed;
      assert p[i - 1] == Running && p[i] == Failed;
    } else {
      assert p[k - 1] == Running && p[k] == Failed;
    }
  }

  /** Exactly where the two guards disagree on a change of state. */
  lemma GuardsDisagree(a: CommandState, b: CommandState)
    requires a != b
    ensures PythonAccepts(a, b) && !TriggerAccepts(a, b) <==>
            (a, b) in {(Validated, Rejected), (Validated, Blocked), (Approved, Blocked), (Approved, Expired),
                       (Queued, Failed), (Delivered, TimedOut), (Delivered, Failed), (Acknowledged, Failed)}
    ensures !PythonAccepts(a, b) && TriggerAccepts(a, b) <==>
            (a, b) in {(Received, AwaitingApproval), (Received, Queued), (Received, Cancelled), (Validated, Cancelled),
                       (Delivered, Expired), (Acknowledged, Expired), (Blocked, Queued), (Blocked, Cancelled)}
  {
  }
}
