/** The emergency-stop flag of one owner in the database and in the cache. */
module StopCache {
  import opened Options

  const ACTIVATION_TTL: int := 3600
  const FILL_TTL: int := 60

  /** What can be found under the key: a dictionary, with or without the field, or anything else. */
  datatype Cached = Dictionary(active: Option<bool>) | Other(truthy: bool)

  /** How is_active reads a cached value. */
  function Says(v: Cached): bool {
    match v
    case Dictionary(active) => active.Some? && active.value
    case Other(truthy) => truthy
  }

  datatype Entry = Entry(value: Cached, writtenAt: int, ttl: int)

  predicate Live(entry: Option<Entry>, now: int) {
    entry.Some? && now < entry.value.writtenAt + entry.value.ttl
  }

  /** Cache operations that a call still has to perform after its database part. */
  datatype CacheOp = Set(value: Cached, ttl: int) | Delete

  /** The write after an activation, and the fill after a read that found the row active. */
  const WRITE: CacheOp := Set(Dictionary(Some(true)), ACTIVATION_TTL)
  const FILL: CacheOp := Set(Dictionary(Some(true)), FILL_TTL)

  /** One owner's cache entry, and the operations on it that are under way. */
  datatype Shelf = Shelf(entry: Option<Entry>, pending: multiset<CacheOp>)

  const EMPTY_SHELF: Shelf := Shelf(None, multiset{})

  function Begun(s: Shelf, op: CacheOp): Shelf {
    s.(pending := s.pending + multiset{op})
  }

  function Performed(s: Shelf, op: CacheOp, now: int): Shelf {
    Shelf(if op.Delete? then None else Some(Entry(op.value, now, op.ttl)), s.pending - multiset{op})
  }

  function Lost(s: Shelf, op: CacheOp): Shelf {
    s.(pending := s.pending - multiset{op})
  }

  /** What is_active can answer: the live entry's value, or the row after a miss, which may lie back. */
  predicate CanAnswer(s: Shelf, row: bool, answer: bool, now: int) {
    answer == row || (Live(s.entry, now) && answer == Says(s.entry.value.value))
  }

  /** Whatever is in the cache or on its way there says "active". */
  ghost predicate OnlyActive(s: Shelf) {
    && (s.entry.Some? ==> Says(s.entry.value.value))
    && (forall op :: op in s.pending && op.Set? ==> Says(op.value))
  }

  lemma ShelfKeeps(s: Shelf, op: CacheOp, now: int)
    requires OnlyActive(s)
    ensures op.Delete? || Says(op.value) ==> OnlyActive(Begun(s, op))
    ensures op in s.pending ==> OnlyActive(Performed(s, op, now))
    ensures OnlyActive(Lost(s, op)) && OnlyActive(s.(entry := None))
  {
  }

  /** Then no answer is a wrong "inactive". */
  lemma AnswerIsSafe(s: Shelf, row: bool, answer: bool, now: int)
    requires OnlyActive(s) && CanAnswer(s, row, answer, now)
    ensures row ==> answer
  {
  }

  // ---- Arbitrary interleaving ----

  datatype State = State(row: bool, shelf: Shelf, clock: int)

  /** Database and cache parts of all calls, one by one. Hit and Read end an is_active call with its
      answer; an operation that is under way may be performed at any later time, or lost. */
  datatype Step =
    | Tick(seconds: nat)
    | CommitActivation
    | CommitRelease
    | Perform(op: CacheOp)
    | Lose(op: CacheOp)
    | Evict
    | Hit(answer: bool)
    | Read(answer: bool)

  predicate Can(s: State, step: Step) {
    match step
    case CommitActivation => !s.row
    case CommitRelease => s.row
    case Perform(op) => op in s.shelf.pending
    case Lose(op) => op in s.shelf.pending
    case Hit(answer) => Live(s.shelf.entry, s.clock) && answer == Says(s.shelf.entry.value.value)
    case Read(answer) => answer == s.row
    case _ => true
  }

  function Next(s: State, step: Step): State {
    match step
    case Tick(seconds) => s.(clock := s.clock + seconds)
    case CommitActivation => s.(row := true, shelf := Begun(s.shelf, WRITE))
    case CommitRelease => s.(row := false, shelf := Begun(s.shelf, Delete))
    case Perform(op) => s.(shelf := Performed(s.shelf, op, s.clock))
    case Lose(op) => s.(shelf := Lost(s.shelf, op))
    case Evict => s.(shelf := s.shelf.(entry := None))
    case Hit(_) => s
    case Read(_) => if s.row then s.(shelf := Begun(s.shelf, FILL)) else s
  }

  ghost predicate Run(states: seq<State>, steps: seq<Step>) {
    && |states| == |steps| + 1
    && states[0].shelf == EMPTY_SHELF
    && forall i :: 0 <= i < |steps| ==> Can(states[i], steps[i]) && states[i + 1] == Next(states[i], steps[i])
  }

  /** Every value ever written or under way says "active", with one of the two lifetimes. */
  ghost predicate Sound(s: State) {
    && OnlyActive(s.shelf)
    && (s.shelf.entry.Some? ==>
          s.shelf.entry.value.writtenAt <= s.clock && s.shelf.entry.value.ttl in {ACTIVATION_TTL, FILL_TTL})
    && (forall op :: op in s.shelf.pending ==> op in {WRITE, FILL, Delete})
  }

  lemma StepSound(s: State, step: Step)
    requires Sound(s) && Can(s, step)
    ensures Sound(Next(s, step))
  {
  }

  lemma {:induction false} RunSound(states: seq<State>, steps: seq<Step>, i: nat)
    requires Run(states, steps) && i < |states|
    ensures Sound(states[i])
  {
    hide Can, Next;
    if i > 0 {
      RunSound(states, steps, i - 1);
      StepSound(states[i - 1], steps[i - 1]);
    }
  }

  /** However cache and database operations interleave, is_active never answers "inactive" while
      the row is active at its read. */
  lemma NeverFalselyInactive(states: seq<State>, steps: seq<Step>, i: nat)
    requires Run(states, steps) && i < |steps| && (steps[i].Hit? || steps[i].Read?)
    ensures states[i].row ==> steps[i].answer
  {
    RunSound(states, steps, i);
    AnswerIsSafe(states[i].shelf, states[i].row, steps[i].answer, states[i].clock);
  }

  function Writers(pending: multiset<CacheOp>): nat {
    pending[WRITE] + pending[FILL]
  }

  /** The row is inactive from state i to state j. */
  ghost predicate InactiveThrough(states: seq<State>, i: nat, j: nat) {
    i <= j < |states| && forall k :: i <= k <= j ==> !states[k].row
  }

  /** No cache write was started between a and b, and an entry found in the cache at b was there at
      a, or was written since by an operation already under way at a. */
  predicate Explained(a: State, b: State) {
    && a.clock <= b.clock
    && (forall op :: op in b.shelf.pending && op.Set? ==> b.shelf.pending[op] <= a.shelf.pending[op])
    && (b.shelf.entry.Some? && b.shelf.entry != a.shelf.entry ==>
          && a.clock <= b.shelf.entry.value.writtenAt <= b.clock
          && Set(b.shelf.entry.value.value, b.shelf.entry.value.ttl) in a.shelf.pending)
  }

  lemma ExplainedStep(a: State, b: State, step: Step)
    requires Explained(a, b) && Can(b, step) && !b.row && !Next(b, step).row
    ensures Explained(a, Next(b, step))
  {
  }

  /** While the row stays inactive, every entry in the cache is a late write. */
  lemma {:induction false} WrongActiveIsLateWrite(states: seq<State>, steps: seq<Step>, i: nat, j: nat)
    requires Run(states, steps) && InactiveThrough(states, i, j)
    ensures Explained(states[i], states[j])
    decreases j - i
  {
    if i < j {
      WrongActiveIsLateWrite(states, steps, i, j - 1);
      hide Explained, Can, Next;
      assert states[j] == Next(states[j - 1], steps[j - 1]);
      ExplainedStep(states[i], states[j - 1], steps[j - 1]);
    }
  }

  /** A wrong "active" ends: once every write begun before the release has been performed or lost,
      the cached answer is over within the lifetime of the entry then in the cache. */
  lemma StaleAnswerEnds(states: seq<State>, steps: seq<Step>, i: nat, j: nat)
    requires Run(states, steps) && InactiveThrough(states, i, j)
    requires Writers(states[i].shelf.pending) == 0
    ensures Live(states[j].shelf.entry, states[j].clock) ==>
              && states[i].shelf.entry.Some? && states[j].shelf.entry == states[i].shelf.entry
              && states[j].clock < states[i].shelf.entry.value.writtenAt + states[i].shelf.entry.value.ttl
  {
    hide Can, Next;
    WrongActiveIsLateWrite(states, steps, i, j);
    RunSound(states, steps, i);
  }

  /** Hence, an hour after the last write under way at the release, the cache no longer answers
      "active" for an inactive row. */
  lemma WrongActiveAtMostAnHour(states: seq<State>, steps: seq<Step>, i: nat, j: nat)
    requires Run(states, steps) && InactiveThrough(states, i, j)
    requires Writers(states[i].shelf.pending) == 0 && states[j].clock >= states[i].clock + ACTIVATION_TTL
    ensures !Live(states[j].shelf.entry, states[j].clock)
  {
    hide Can, Next;
    StaleAnswerEnds(states, steps, i, j);
    RunSound(states, steps, i);
  }

  /** The hour is used up: after a release whose deletion overtakes the activation's cache write, the
      cache answers "active" for exactly the lifetime of that late write. */
  lemma LateWriteLastsItsLifetime(s: State, seconds: nat, answer: bool)
    requires s.row && s.shelf.pending == multiset{WRITE}
    ensures var released := Next(Next(s, CommitRelease), Perform(Delete));
            && Can(released, Perform(WRITE))
            && var late := Next(Next(released, Perform(WRITE)), Tick(seconds));
               !late.row && (Can(late, Hit(answer)) <==> answer && seconds < 3600)
  {
  }

  /** A late fill, begun by a read before the release, answers "active" for a minute. */
  lemma LateFillLastsAMinute(s: State, seconds: nat, answer: bool)
    requires s.row && s.shelf.pending == multiset{}
    ensures var released := Next(Next(Next(s, Read(true)), CommitRelease), Perform(Delete));
            && Can(s, Read(true)) && Can(released, Perform(FILL))
            && var late := Next(Next(released, Perform(FILL)), Tick(seconds));
               !late.row && (Can(late, Hit(answer)) <==> answer && seconds < 60)
  {
  }

  /** A cached dictionary without the field reads as "inactive", anything else by its truth value. */
  lemma OtherValues(s: State, v: Cached, answer: bool)
    requires s.shelf.entry == Some(Entry(v, s.clock, 1)) && v != Dictionary(Some(true))
    ensures Can(s, Hit(answer)) <==> answer == (v == Other(true))
  {
  }

  // ---- Calls that run one at a time ----

  /** The service with its table and its cache, both keyed by owner. */
  class StopService {
    var active: map<string, bool>
    var cache: map<string, Entry>

    ghost predicate Valid()
      reads this
    {
      forall o :: o in cache ==> o in active && active[o] && Says(cache[o].value)
    }

    ghost predicate Row(owner: string)
      reads this
    {
      owner in active && active[owner]
    }

    constructor ()
      ensures Valid() && active == map[] && cache == map[]
    {
      active, cache := map[], map[];
    }

    /** The answer is the row's, whether it comes from the cache or from the table. */
    method IsActive(owner: string, now: int) returns (answer: bool)
      requires Valid()
      modifies this`cache
      ensures Valid()
      ensures answer == Row(owner)
      ensures forall o :: o != owner ==> (o in cache) == (o in old(cache)) && (o in cache ==> cache[o] == old(cache[o]))
    {
      if owner in cache && now < cache[owner].writtenAt + cache[owner].ttl {
        return Says(cache[owner].value);
      }
      if owner in active && active[owner] {
        cache := cache[owner := Entry(Dictionary(Some(true)), now, FILL_TTL)];
        return true;
      }
      return false;
    }

    method Activate(owner: string, now: int) returns (blocksCommands: bool)
      requires Valid()
      modifies this
      ensures Valid()
      ensures active == old(active)[owner := true]
      ensures blocksCommands == !old(Row(owner))
      ensures cache ==
              if blocksCommands then old(cache)[owner := Entry(Dictionary(Some(true)), now, ACTIVATION_TTL)]
              else old(cache)
    {
      if owner in active && active[owner] {
        assert active[owner := true] == active;
        return false;
      }
      active := active[owner := true];
      cache := cache[owner := Entry(Dictionary(Some(true)), now, ACTIVATION_TTL)];
      return true;
    }

    method Release(owner: string) returns (released: bool)
      requires Valid()
      modifies this
      ensures Valid()
      ensures released == old(Row(owner)) && !Row(owner)
      ensures released ==> active == old(active)[owner := false] && cache == old(cache) - {owner}
      ensures !released ==> active == old(active) && cache == old(cache)
    {
      if owner !in active || !active[owner] {
        return false;
      }
      active := active[owner := false];
      cache := cache - {owner};
      return true;
    }
  }
}
