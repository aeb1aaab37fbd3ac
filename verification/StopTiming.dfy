/** The pipeline's cache, owner by owner, behaves as the single-owner machine of StopCache, so what is
    proved there about late answers holds in every run of the pipeline. */
module StopTiming {
  import opened Tables
  import opened Operations
  import opened Pipeline
  import opened PipelineProofs
  import Broker
  import StopCache

  /** One owner's stop as the single-owner machine sees it. */
  function View(w: World, owner: OwnerId, clock: int): StopCache.State {
    StopCache.State(StopActive(w.db, owner), ShelfOf(w, owner), clock)
  }

  ghost predicate Moves(before: StopCache.State, step: StopCache.Step, after: StopCache.State) {
    StopCache.Can(before, step) && after == StopCache.Next(before, step)
  }

  /** What a pipeline step is to one owner's machine. */
  function StepFor(w: World, a: Action, owner: OwnerId): StopCache.Step {
    match a
    case ActivateStop(o, _, _) =>
      if o == owner && !StopActive(w.db, owner) then StopCache.CommitActivation else StopCache.Tick(0)
    case ReleaseStop(o) => if o == owner && StopActive(w.db, owner) then StopCache.CommitRelease else StopCache.Tick(0)
    case ReadStopRow(o) => if o == owner then StopCache.Read(StopActive(w.db, owner)) else StopCache.Tick(0)
    case CacheOperation(o, op, _) => if o == owner then StopCache.Perform(op) else StopCache.Tick(0)
    case CacheFailure(o, op) => if o == owner then StopCache.Lose(op) else StopCache.Tick(0)
    case CacheEviction(o) => if o == owner then StopCache.Evict else StopCache.Tick(0)
    case _ => StopCache.Tick(0)
  }

  lemma OwnerStep(w: World, a: Action, owner: OwnerId, clock: int)
    requires Linked(w.db) && Enabled(w, a) && (a.CacheOperation? ==> a.now == clock)
    ensures Moves(View(w, owner, clock), StepFor(w, a, owner), View(Apply(w, a), owner, clock))
  {
    hide Linked, StopActive, StopCache.Performed, StopCache.Begun, StopCache.Lost, Create, Cancel, Decide, OpenApproval,
         RunTasks, Activate, Release, Consume, Broker.PublishBatch, Broker.BrokerBatch, Revoke, AddDevice, Deliver;
    ApplyRows(w, a, owner);
    if a.GatewayDelivery? {
      DeliverShelves(w, a.k, a.device, a.seen, a.on, a.now);
    }
  }

  /** The time after each step of a run: it never goes back, and cache operations happen at it. */
  ghost predicate Clocked(actions: seq<Action>, clocks: seq<int>) {
    && |clocks| == |actions| + 1
    && forall i :: 0 <= i < |actions| ==>
         clocks[i] <= clocks[i + 1] && (actions[i].CacheOperation? ==> actions[i].now == clocks[i + 1])
  }

  function StatesOf(worlds: seq<World>, clocks: seq<int>, owner: OwnerId): (states: seq<StopCache.State>)
    requires |worlds| == |clocks| > 0
    ensures |states| == 2 * |worlds| - 1
  {
    seq(2 * |worlds| - 1, m requires 0 <= m < 2 * |worlds| - 1 => View(worlds[m / 2], owner, clocks[(m + 1) / 2]))
  }

  function StepsOf(worlds: seq<World>, actions: seq<Action>, clocks: seq<int>,
                   owner: OwnerId): (steps: seq<StopCache.Step>)
    requires |worlds| == |clocks| == |actions| + 1 && Clocked(actions, clocks)
    ensures |steps| == 2 * |actions|
  {
    seq(2 * |actions|, m requires 0 <= m < 2 * |actions| =>
      if m % 2 == 0 then StopCache.Tick(clocks[m / 2 + 1] - clocks[m / 2])
      else StepFor(worlds[m / 2], actions[m / 2], owner))
  }

  /** Every run of the pipeline is, for each owner, a run of the single-owner machine. */
  lemma OwnerRun(worlds: seq<World>, actions: seq<Action>, clocks: seq<int>, owner: OwnerId)
    requires Run(worlds, actions) && Clocked(actions, clocks)
    ensures StopCache.Run(StatesOf(worlds, clocks, owner), StepsOf(worlds, actions, clocks, owner))
  {
    hide Moves, StopCache.Can, StopCache.Next, Apply, Enabled, Linked, StatesOf, StepsOf, Clocked;
    RunLengths(worlds, actions, clocks);
    var states, steps := StatesOf(worlds, clocks, owner), StepsOf(worlds, actions, clocks, owner);
    forall m | 0 <= m < |steps|
      ensures Moves(states[m], steps[m], states[m + 1])
    {
      OwnerRunStep(worlds, actions, clocks, owner, m);
    }
    EvenState(worlds, clocks, owner, 0);
    EmptyView(owner, clocks[0]);
    AllMove(states, steps);
  }

  lemma AllMove(states: seq<StopCache.State>, steps: seq<StopCache.Step>)
    requires |states| == |steps| + 1 && states[0].shelf == StopCache.EMPTY_SHELF
    requires forall m :: 0 <= m < |steps| ==> Moves(states[m], steps[m], states[m + 1])
    ensures StopCache.Run(states, steps)
  {
    hide StopCache.Can, StopCache.Next;
    forall m | 0 <= m < |steps|
      ensures StopCache.Can(states[m], steps[m]) && states[m + 1] == StopCache.Next(states[m], steps[m])
    {
      assert Moves(states[m], steps[m], states[m + 1]);
    }
  }

  lemma OwnerRunStep(worlds: seq<World>, actions: seq<Action>, clocks: seq<int>, owner: OwnerId, m: nat)
    requires Run(worlds, actions) && Clocked(actions, clocks) && |worlds| == |clocks| && m < 2 * |actions|
    ensures Moves(StatesOf(worlds, clocks, owner)[m], StepsOf(worlds, actions, clocks, owner)[m],
                  StatesOf(worlds, clocks, owner)[m + 1])
  {
    hide Moves, StatesOf, StepsOf, Run, Clocked;
    var i := m / 2;
    RunLengths(worlds, actions, clocks);
    if m % 2 == 0 {
      EvenMoves(worlds, actions, clocks, owner, i);
    } else {
      OddMoves(worlds, actions, clocks, owner, i);
    }
  }

  lemma EvenMoves(worlds: seq<World>, actions: seq<Action>, clocks: seq<int>, owner: OwnerId, i: nat)
    requires |worlds| == |clocks| == |actions| + 1 && Clocked(actions, clocks) && i < |actions|
    ensures Moves(StatesOf(worlds, clocks, owner)[2 * i], StepsOf(worlds, actions, clocks, owner)[2 * i],
                  StatesOf(worlds, clocks, owner)[2 * i + 1])
  {
    hide Moves, View, StepFor, StatesOf, StepsOf;
    EvenState(worlds, clocks, owner, i);
    OddState(worlds, clocks, owner, i);
    BothSteps(worlds, actions, clocks, owner, i);
    TickMoves(worlds[i], owner, clocks[i], clocks[i + 1]);
  }

  lemma OddState(worlds: seq<World>, clocks: seq<int>, owner: OwnerId, i: nat)
    requires |worlds| == |clocks| > i + 1
    ensures StatesOf(worlds, clocks, owner)[2 * i + 1] == View(worlds[i], owner, clocks[i + 1])
  {
    assert (2 * i + 1) / 2 == i && (2 * i + 2) / 2 == i + 1;
  }

  lemma BothSteps(worlds: seq<World>, actions: seq<Action>, clocks: seq<int>, owner: OwnerId, i: nat)
    requires |worlds| == |clocks| == |actions| + 1 && Clocked(actions, clocks) && i < |actions|
    ensures clocks[i] <= clocks[i + 1]
    ensures StepsOf(worlds, actions, clocks, owner)[2 * i] == StopCache.Tick(clocks[i + 1] - clocks[i])
    ensures StepsOf(worlds, actions, clocks, owner)[2 * i + 1] == StepFor(worlds[i], actions[i], owner)
  {
    hide StepFor;
    assert 2 * i / 2 == i && (2 * i + 1) / 2 == i && (2 * i + 1) % 2 == 1;
  }

  lemma OddMoves(worlds: seq<World>, actions: seq<Action>, clocks: seq<int>, owner: OwnerId, i: nat)
    requires Run(worlds, actions) && Clocked(actions, clocks) && |worlds| == |clocks| && i < |actions|
    ensures Moves(StatesOf(worlds, clocks, owner)[2 * i + 1], StepsOf(worlds, actions, clocks, owner)[2 * i + 1],
                  StatesOf(worlds, clocks, owner)[2 * i + 2])
  {
    hide Moves, View, StepFor, Apply, Enabled, Linked, StatesOf, StepsOf;
    OddState(worlds, clocks, owner, i);
    EvenState(worlds, clocks, owner, i + 1);
    BothSteps(worlds, actions, clocks, owner, i);
    OwnerStep(worlds[i], actions[i], owner, clocks[i + 1]);
  }

  lemma TickMoves(w: World, owner: OwnerId, t: int, later: int)
    requires t <= later
    ensures Moves(View(w, owner, t), StopCache.Tick(later - t), View(w, owner, later))
  {
  }

  lemma EmptyView(owner: OwnerId, clock: int)
    ensures View(EMPTY, owner, clock).shelf == StopCache.EMPTY_SHELF
  {
  }

  /** In every run, once an owner's stop has been inactive for an hour with no cache write under way at
      the start, the service answers from the row again. */
  lemma StaleAnswersEnd(worlds: seq<World>, actions: seq<Action>, clocks: seq<int>, owner: OwnerId, i: nat, j: nat,
                        seen: bool)
    requires Run(worlds, actions) && Clocked(actions, clocks) && i <= j < |worlds|
    requires forall k :: i <= k <= j ==> !StopActive(worlds[k].db, owner)
    requires StopCache.Writers(ShelfOf(worlds[i], owner).pending) == 0
    requires clocks[j] >= clocks[i] + 3600 && Asked(worlds[j], owner, seen, clocks[j])
    ensures !seen
  {
    hide StopActive, StopCache.Run, Run, StatesOf, StepsOf, Clocked, StopCache.Live, StopCache.InactiveThrough,
         StopCache.Writers;
    RunLengths(worlds, actions, clocks);
    OwnerRun(worlds, actions, clocks, owner);
    InactiveStates(worlds, clocks, owner, i, j);
    EvenState(worlds, clocks, owner, i);
    EvenState(worlds, clocks, owner, j);
    StopCache.WrongActiveAtMostAnHour(
      StatesOf(worlds, clocks, owner), StepsOf(worlds, actions, clocks, owner), 2 * i, 2 * j);
  }

  lemma EvenState(worlds: seq<World>, clocks: seq<int>, owner: OwnerId, i: nat)
    requires |worlds| == |clocks| > i
    ensures 2 * i < |StatesOf(worlds, clocks, owner)|
    ensures StatesOf(worlds, clocks, owner)[2 * i] == View(worlds[i], owner, clocks[i])
  {
    assert 2 * i / 2 == i && (2 * i + 1) / 2 == i;
  }

  lemma InactiveStates(worlds: seq<World>, clocks: seq<int>, owner: OwnerId, i: nat, j: nat)
    requires |worlds| == |clocks| && i <= j < |worlds|
    requires forall k :: i <= k <= j ==> !StopActive(worlds[k].db, owner)
    ensures StopCache.InactiveThrough(StatesOf(worlds, clocks, owner), 2 * i, 2 * j)
  {
    hide StopActive;
    var states := StatesOf(worlds, clocks, owner);
    forall m | 2 * i <= m <= 2 * j
      ensures !states[m].row
    {
      assert i <= m / 2 <= j && !StopActive(worlds[m / 2].db, owner);
    }
  }

  lemma RunLengths(worlds: seq<World>, actions: seq<Action>, clocks: seq<int>)
    requires Run(worlds, actions) && Clocked(actions, clocks)
    ensures |worlds| == |actions| + 1 == |clocks|
  {
    hide Apply, Enabled, Linked;
  }

  /** In every run, no call is told "inactive" about an active stop. */
  lemma NoCallIsToldWrongly(worlds: seq<World>, actions: seq<Action>, i: nat, owner: OwnerId, seen: bool, now: int)
    requires Run(worlds, actions) && i < |worlds| && Asked(worlds[i], owner, seen, now)
    ensures StopActive(worlds[i].db, owner) ==> seen
  {
    hide Run, Asked;
    RunKeepsInvariant(worlds, actions, i);
    AnswersAreSafe(worlds[i], owner, seen, now);
  }
}
