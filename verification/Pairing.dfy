/** Device pairing with a durable attempt counter. */
module Pairing {
  import opened Options

  /** The configured number of attempts, whatever it is set to. */
  const MAX_ATTEMPTS: nat
  /** How long a code stays valid. */
  const CODE_TTL_SECONDS: nat

  /** The types that the table of devices admits; the table of pairings takes any text. */
  const DEVICE_TYPES: set<string> := {"macbook", "iphone", "ipad"}

  datatype Status = Pending | Confirmed | Expired | Rejected

  datatype PairingRequest = PairingRequest(
    deviceType: string, identity: string, codeHash: string, expiresAt: int, attempts: nat, status: Status,
    owner: Option<string>)

  datatype PairedDevice = PairedDevice(owner: string, deviceType: string, identity: string)

  /** How often a pairing's code has been compared, by result. */
  datatype Tally = Tally(wrong: nat, right: nat)

  /** The two tables, and the comparisons made for each pairing. */
  datatype State = State(
    pairings: map<string, PairingRequest>, devices: map<string, PairedDevice>, compared: map<string, Tally>)

  datatype Outcome =
    | NotFound | NotPending | CodeExpired | TooMany | WrongCode | DeviceRefused | Paired(device: string)

  function Start(s: State, id: string, deviceType: string, identity: string, codeHash: string, now: int): State {
    var p := PairingRequest(deviceType, identity, codeHash, now + CODE_TTL_SECONDS, 0, Pending, None);
    s.(pairings := s.pairings[id := p], compared := s.compared[id := Tally(0, 0)])
  }

  function OutcomeOf(s: State, id: string, codeHash: string, device: string, now: int): Outcome {
    if id !in s.pairings then NotFound
    else
      var p := s.pairings[id];
      if p.status != Pending then NotPending
      else if p.expiresAt < now then CodeExpired
      else if p.attempts + 1 > MAX_ATTEMPTS then TooMany
      else if codeHash != p.codeHash then WrongCode
      else if p.deviceType !in DEVICE_TYPES then DeviceRefused
      else Paired(device)
  }

  /** Every outcome's durable effect. Counter and status are kept when the call fails, except that a device
      which its table refuses takes the counter back with it. */
  function Confirm(s: State, id: string, owner: string, codeHash: string, device: string, now: int): State
    requires s.compared.Keys == s.pairings.Keys
  {
    var o := OutcomeOf(s, id, codeHash, device, now);
    if o.NotFound? || o.NotPending? then s
    else
      var p, t := s.pairings[id], s.compared[id];
      match o
      case CodeExpired => s.(pairings := s.pairings[id := p.(status := Expired)])
      case TooMany => s.(pairings := s.pairings[id := p.(attempts := p.attempts + 1, status := Rejected)])
      case WrongCode =>
        s.(pairings := s.pairings[id := p.(attempts := p.attempts + 1)],
           compared := s.compared[id := t.(wrong := t.wrong + 1)])
      case DeviceRefused => s.(compared := s.compared[id := t.(right := t.right + 1)])
      case Paired(_) =>
        State(s.pairings[id := p.(attempts := p.attempts + 1, status := Confirmed, owner := Some(owner))],
              s.devices[device := PairedDevice(owner, p.deviceType, p.identity)],
              s.compared[id := t.(right := t.right + 1)])
  }

  predicate Stale(p: PairingRequest, now: int) {
    p.status == Pending && p.expiresAt < now
  }

  function ExpireStale(s: State, now: int): State {
    s.(pairings := map id | id in s.pairings ::
         if Stale(s.pairings[id], now) then s.pairings[id].(status := Expired) else s.pairings[id])
  }

  // ---- The service ----

  class PairingService {
    var pairings: map<string, PairingRequest>
    var devices: map<string, PairedDevice>
    ghost var compared: map<string, Tally>

    ghost function View(): State
      reads this
    {
      State(pairings, devices, compared)
    }

    constructor ()
      ensures View() == State(map[], map[], map[])
    {
      pairings, devices, compared := map[], map[], map[];
    }

    method StartPairing(id: string, deviceType: string, identity: string, codeHash: string, now: int)
      requires id !in pairings
      modifies this
      ensures View() == Start(old(View()), id, deviceType, identity, codeHash, now)
    {
      var p := PairingRequest(deviceType, identity, codeHash, now + CODE_TTL_SECONDS, 0, Pending, None);
      pairings := pairings[id := p];
      compared := compared[id := Tally(0, 0)];
    }

    method ConfirmPairing(id: string, owner: string, codeHash: string, device: string, now: int)
      returns (outcome: Outcome)
      requires compared.Keys == pairings.Keys && device !in devices
      modifies this
      ensures outcome == OutcomeOf(old(View()), id, codeHash, device, now)
      ensures View() == Confirm(old(View()), id, owner, codeHash, device, now)
    {
      if id !in pairings {
        return NotFound;
      }
      var p := pairings[id];
      if p.status != Pending {
        return NotPending;
      }
      if p.expiresAt < now {
        pairings := pairings[id := p.(status := Expired)];
        return CodeExpired;
      }
      var counted := p.(attempts := p.attempts + 1);
      if counted.attempts > MAX_ATTEMPTS {
        pairings := pairings[id := counted.(status := Rejected)];
        return TooMany;
      }
      if codeHash != p.codeHash {
        compared := compared[id := compared[id].(wrong := compared[id].wrong + 1)];
        pairings := pairings[id := counted];
        return WrongCode;
      }
      compared := compared[id := compared[id].(right := compared[id].right + 1)];
      if p.deviceType !in DEVICE_TYPES {
        return DeviceRefused;
      }
      devices := devices[device := PairedDevice(owner, p.deviceType, p.identity)];
      pairings := pairings[id := counted.(status := Confirmed, owner := Some(owner))];
      return Paired(device);
    }

    method ExpireStalePairings(now: int) returns (count: nat)
      modifies this`pairings
      ensures View() == ExpireStale(old(View()), now)
      ensures count == |set id | id in old(pairings) && Stale(old(pairings)[id], now)|
    {
      var stale := set id | id in pairings && Stale(pairings[id], now);
      count := |stale|;
      pairings := map id | id in pairings :: if id in stale then pairings[id].(status := Expired) else pairings[id];
    }
  }

  // ---- Runs ----

  datatype Step =
    | StartStep(id: string, deviceType: string, identity: string, codeHash: string, now: int)
    | ConfirmStep(id: string, owner: string, codeHash: string, device: string, now: int)
    | ExpireStep(now: int)

  predicate Can(s: State, step: Step) {
    match step
    case StartStep(id, _, _, _, _) => id !in s.pairings
    case ConfirmStep(_, _, _, device, _) => device !in s.devices
    case ExpireStep(_) => true
  }

  function Next(s: State, step: Step): State
    requires s.compared.Keys == s.pairings.Keys
  {
    match step
    case StartStep(id, deviceType, identity, codeHash, now) => Start(s, id, deviceType, identity, codeHash, now)
    case ConfirmStep(id, owner, codeHash, device, now) => Confirm(s, id, owner, codeHash, device, now)
    case ExpireStep(now) => ExpireStale(s, now)
  }

  function ConfirmedIds(s: State): set<string> {
    set id | id in s.pairings && s.pairings[id].status == Confirmed
  }

  /** Wrong codes are counted, up to the maximum; a rejected pairing has one attempt more. The right code
      is compared once, by the call that confirms, if the type is one that the table of devices admits. */
  predicate BudgetOk(p: PairingRequest, t: Tally) {
    && p.attempts <= MAX_ATTEMPTS + 1
    && (p.attempts == MAX_ATTEMPTS + 1 <==> p.status == Rejected)
    && (match p.status
        case Rejected => t.wrong == MAX_ATTEMPTS
        case Confirmed => t.wrong + 1 == p.attempts && p.deviceType in DEVICE_TYPES
        case _ => t.wrong == p.attempts)
    && (p.deviceType in DEVICE_TYPES || MAX_ATTEMPTS == 0 ==> t.right == if p.status == Confirmed then 1 else 0)
  }

  ghost predicate Valid(s: State) {
    && s.compared.Keys == s.pairings.Keys
    && (forall id :: id in s.pairings ==> BudgetOk(s.pairings[id], s.compared[id]))
    && |s.devices| == |ConfirmedIds(s)|
  }

  /** What no step takes back. */
  predicate Continues(p: PairingRequest, q: PairingRequest) {
    && p.attempts <= q.attempts
    && (p.status != Pending ==> q == p)
    && q.deviceType == p.deviceType && q.identity == p.identity
    && q.codeHash == p.codeHash && q.expiresAt == p.expiresAt
  }

  ghost predicate Grows(s: State, t: State) {
    forall id :: id in s.pairings ==> id in t.pairings && Continues(s.pairings[id], t.pairings[id])
  }

  lemma ConfirmOk(s: State, id: string, owner: string, codeHash: string, device: string, now: int)
    requires Valid(s) && device !in s.devices
    ensures Valid(Confirm(s, id, owner, codeHash, device, now))
    ensures Grows(s, Confirm(s, id, owner, codeHash, device, now))
  {
    hide ConfirmedIds, Confirm, BudgetOk, Continues;
    ConfirmKeys(s, id, owner, codeHash, device, now);
    ConfirmCount(s, id, owner, codeHash, device, now);
    var t := Confirm(s, id, owner, codeHash, device, now);
    forall x | x in s.pairings
      ensures BudgetOk(t.pairings[x], t.compared[x]) && Continues(s.pairings[x], t.pairings[x])
    {
      ConfirmRow(s, id, owner, codeHash, device, now, x);
    }
  }

  lemma ConfirmKeys(s: State, id: string, owner: string, codeHash: string, device: string, now: int)
    requires s.compared.Keys == s.pairings.Keys
    ensures var t := Confirm(s, id, owner, codeHash, device, now);
            t.pairings.Keys == s.pairings.Keys && t.compared.Keys == s.pairings.Keys
  {
  }

  lemma ConfirmRow(s: State, id: string, owner: string, codeHash: string, device: string, now: int, x: string)
    requires s.compared.Keys == s.pairings.Keys && x in s.pairings && BudgetOk(s.pairings[x], s.compared[x])
    ensures var t := Confirm(s, id, owner, codeHash, device, now);
            && x in t.pairings && x in t.compared
            && BudgetOk(t.pairings[x], t.compared[x]) && Continues(s.pairings[x], t.pairings[x])
  {
  }

  lemma PairedCount(s: State, id: string, p: PairingRequest, device: string, d: PairedDevice,
                    compared: map<string, Tally>)
    requires id in s.pairings && s.pairings[id].status != Confirmed && p.status == Confirmed && device !in s.devices
    requires |s.devices| == |ConfirmedIds(s)|
    ensures var t := State(s.pairings[id := p], s.devices[device := d], compared); |t.devices| == |ConfirmedIds(t)|
  {
    PairedIds(s, State(s.pairings[id := p], s.devices[device := d], compared), id, p);
    hide ConfirmedIds;
    AddedKey(s.devices, device, d);
  }

  lemma PairedIds(s: State, t: State, id: string, p: PairingRequest)
    requires id in s.pairings && s.pairings[id].status != Confirmed && p.status == Confirmed
    requires t.pairings == s.pairings[id := p]
    ensures ConfirmedIds(t) == ConfirmedIds(s) + {id} && id !in ConfirmedIds(s)
  {
  }

  lemma AddedKey(devices: map<string, PairedDevice>, device: string, d: PairedDevice)
    requires device !in devices
    ensures |devices[device := d]| == |devices| + 1
  {
    assert devices[device := d].Keys == devices.Keys + {device};
  }

  lemma UnpairedCount(s: State, id: string, p: PairingRequest, compared: map<string, Tally>)
    requires id in s.pairings && s.pairings[id].status != Confirmed && p.status != Confirmed
    ensures ConfirmedIds(State(s.pairings[id := p], s.devices, compared)) == ConfirmedIds(s)
  {
  }

  lemma SameIds(s: State, t: State)
    requires t.pairings == s.pairings
    ensures ConfirmedIds(t) == ConfirmedIds(s)
  {
  }

  lemma ConfirmCount(s: State, id: string, owner: string, codeHash: string, device: string, now: int)
    requires s.compared.Keys == s.pairings.Keys && |s.devices| == |ConfirmedIds(s)| && device !in s.devices
    ensures var t := Confirm(s, id, owner, codeHash, device, now); |t.devices| == |ConfirmedIds(t)|
  {
    hide ConfirmedIds;
    var o, t := OutcomeOf(s, id, codeHash, device, now), Confirm(s, id, owner, codeHash, device, now);
    if o.Paired? {
      PairedCount(s, id, t.pairings[id], device, t.devices[device], t.compared);
    } else if o.DeviceRefused? {
      SameIds(s, t);
    } else if !o.NotFound? && !o.NotPending? {
      UnpairedCount(s, id, t.pairings[id], t.compared);
    }
  }

  lemma StartOk(s: State, id: string, deviceType: string, identity: string, codeHash: string, now: int)
    requires Valid(s) && id !in s.pairings
    ensures Valid(Start(s, id, deviceType, identity, codeHash, now))
    ensures Grows(s, Start(s, id, deviceType, identity, codeHash, now))
  {
    var t := Start(s, id, deviceType, identity, codeHash, now);
    assert t.compared.Keys == t.pairings.Keys;
    assert ConfirmedIds(t) == ConfirmedIds(s);
  }

  lemma ExpireOk(s: State, now: int)
    requires Valid(s)
    ensures Valid(ExpireStale(s, now)) && Grows(s, ExpireStale(s, now))
  {
    var t := ExpireStale(s, now);
    assert t.compared.Keys == t.pairings.Keys;
    assert ConfirmedIds(t) == ConfirmedIds(s);
  }

  lemma NextOk(s: State, step: Step)
    requires Valid(s) && Can(s, step)
    ensures Valid(Next(s, step)) && Grows(s, Next(s, step))
  {
    hide Grows, Confirm, Start, ExpireStale;
    match step
    case StartStep(id, deviceType, identity, codeHash, now) => StartOk(s, id, deviceType, identity, codeHash, now);
    case ConfirmStep(id, owner, codeHash, device, now) => ConfirmOk(s, id, owner, codeHash, device, now);
    case ExpireStep(now) => ExpireOk(s, now);
  }

  ghost predicate Run(states: seq<State>, steps: seq<Step>) {
    && |states| == |steps| + 1
    && states[0] == State(map[], map[], map[])
    && forall i :: 0 <= i < |steps| ==>
         && states[i].compared.Keys == states[i].pairings.Keys
         && Can(states[i], steps[i]) && states[i + 1] == Next(states[i], steps[i])
  }

  lemma {:induction false} RunValid(states: seq<State>, steps: seq<Step>, i: nat)
    requires Run(states, steps) && i < |states|
    ensures Valid(states[i])
  {
    if i > 0 {
      RunValid(states, steps, i - 1);
      NextOk(states[i - 1], steps[i - 1]);
    }
  }

  lemma GrowsItself(s: State)
    ensures Grows(s, s)
  {
  }

  lemma GrowsTransitive(s: State, t: State, u: State)
    requires Grows(s, t) && Grows(t, u)
    ensures Grows(s, u)
  {
  }

  lemma {:induction false} RunGrows(states: seq<State>, steps: seq<Step>, i: nat, j: nat)
    requires Run(states, steps) && i <= j < |states|
    ensures Grows(states[i], states[j])
    decreases j - i
  {
    hide Next, Can, Grows, BudgetOk, ConfirmedIds;
    if i == j {
      GrowsItself(states[i]);
    } else {
      RunGrows(states, steps, i, j - 1);
      RunValid(states, steps, j - 1);
      NextOk(states[j - 1], steps[j - 1]);
      GrowsTransitive(states[i], states[j - 1], states[j]);
    }
  }

  function Total(t: Tally): nat {
    t.wrong + t.right
  }

  /** Over every run a wrong code is compared at most the configured number of times, and so is any code if the
      type is one that the table of devices admits; there are as many devices as confirmed pairings. */
  lemma PairingBudget(states: seq<State>, steps: seq<Step>, i: nat, id: string)
    requires Run(states, steps) && i < |states|
    ensures |states[i].devices| == |ConfirmedIds(states[i])|
    ensures id in states[i].pairings ==>
              && id in states[i].compared && states[i].compared[id].wrong <= MAX_ATTEMPTS
              && (states[i].pairings[id].deviceType in DEVICE_TYPES || MAX_ATTEMPTS == 0 ==>
                    Total(states[i].compared[id]) <= MAX_ATTEMPTS)
              && (states[i].pairings[id].status == Rejected ==> states[i].compared[id].wrong == MAX_ATTEMPTS)
              && (states[i].pairings[id].status == Confirmed ==> states[i].pairings[id].deviceType in DEVICE_TYPES)
  {
    hide Next, Can, ConfirmedIds;
    RunValid(states, steps, i);
  }

  /** No run compares the code of a pairing of this type more than b times. */
  ghost predicate Bounded(deviceType: string, b: nat) {
    forall states, steps, i: nat, id :: Run(states, steps) && i < |states| ==> Within(states[i], id, deviceType, b)
  }

  predicate Within(s: State, id: string, deviceType: string, b: nat) {
    id in s.pairings && id in s.compared && s.pairings[id].deviceType == deviceType ==> Total(s.compared[id]) <= b
  }

  /** The comparisons of a type's pairings are bounded if and only if the table of devices admits the type, or no
      attempt is allowed at all. */
  lemma BoundedIffAdmitted(deviceType: string)
    ensures (exists b :: Bounded(deviceType, b)) <==> deviceType in DEVICE_TYPES || MAX_ATTEMPTS == 0
  {
    hide Run;
    if deviceType in DEVICE_TYPES || MAX_ATTEMPTS == 0 {
      forall states, steps, i: nat, id | Run(states, steps) && i < |states|
        ensures Within(states[i], id, deviceType, MAX_ATTEMPTS)
      {
        PairingBudget(states, steps, i, id);
      }
      assert Bounded(deviceType, MAX_ATTEMPTS);
    } else {
      forall b: nat
        ensures !Bounded(deviceType, b)
      {
        var states, steps := ComparedOften(deviceType, b + 1);
        var last := states[|states| - 1];
        assert !Within(last, "p", deviceType, b);
      }
    }
  }

  /** A pairing of another type, confirmed n times with the right code: compared n times, and nothing else. */
  lemma {:induction false} ComparedOften(deviceType: string, n: nat) returns (states: seq<State>, steps: seq<Step>)
    requires MAX_ATTEMPTS > 0 && deviceType !in DEVICE_TYPES
    ensures Run(states, steps) && |states| > 0
    ensures var last := states[|states| - 1];
            && "p" in last.pairings && "p" in last.compared && last.devices == map[]
            && last.pairings["p"] == PairingRequest(deviceType, "", "h", CODE_TTL_SECONDS, 0, Pending, None)
            && last.compared["p"] == Tally(0, n)
  {
    if n == 0 {
      var empty := State(map[], map[], map[]);
      states, steps := [empty, Start(empty, "p", deviceType, "", "h", 0)], [StartStep("p", deviceType, "", "h", 0)];
    } else {
      var before, sooner := ComparedOften(deviceType, n - 1);
      var last, step := before[|before| - 1], ConfirmStep("p", "o", "h", "d", 0);
      RunValid(before, sooner, |before| - 1);
      states, steps := before + [Next(last, step)], sooner + [step];
      RunExtends(before, sooner, step);
    }
  }

  lemma RunExtends(states: seq<State>, steps: seq<Step>, step: Step)
    requires Run(states, steps)
    requires var last := states[|states| - 1]; last.compared.Keys == last.pairings.Keys && Can(last, step)
    ensures Run(states + [Next(states[|states| - 1], step)], steps + [step])
  {
    hide Next, Can;
  }

  /** What a confirmation does to every column. The device gets the caller as owner and the type and identity that
      the pairing was started with. */
  lemma ConfirmEffect(s: State, id: string, owner: string, codeHash: string, device: string, now: int)
    requires s.compared.Keys == s.pairings.Keys
    ensures var t := Confirm(s, id, owner, codeHash, device, now);
            if id !in s.pairings || s.pairings[id].status != Pending then t == s
            else
              var p := s.pairings[id];
              if p.expiresAt < now then t == s.(pairings := s.pairings[id := p.(status := Expired)])
              else if p.attempts >= MAX_ATTEMPTS
              then t == s.(pairings := s.pairings[id := p.(status := Rejected, attempts := p.attempts + 1)])
              else if p.codeHash != codeHash
              then t == s.(pairings := s.pairings[id := p.(attempts := p.attempts + 1)],
                           compared := s.compared[id := Tally(s.compared[id].wrong + 1, s.compared[id].right)])
              else
                && t.compared == s.compared[id := Tally(s.compared[id].wrong, s.compared[id].right + 1)]
                && if p.deviceType in {"macbook", "iphone", "ipad"}
                   then && t.devices == s.devices[device := PairedDevice(owner, p.deviceType, p.identity)]
                        && t.pairings == s.pairings[
                             id := p.(attempts := p.attempts + 1, status := Confirmed, owner := Some(owner))]
                   else t.devices == s.devices && t.pairings == s.pairings
  {
  }

  /** What the caller is told, in every case. */
  lemma OutcomeIs(s: State, id: string, codeHash: string, device: string, now: int)
    ensures var o := OutcomeOf(s, id, codeHash, device, now);
            && (o == NotFound <==> id !in s.pairings)
            && (id in s.pairings ==>
                  var p := s.pairings[id];
                  var open := p.status == Pending && now <= p.expiresAt;
                  && (o == NotPending <==> p.status != Pending)
                  && (o == CodeExpired <==> p.status == Pending && p.expiresAt < now)
                  && (o == TooMany <==> open && p.attempts >= MAX_ATTEMPTS)
                  && (o == WrongCode <==> open && p.attempts < MAX_ATTEMPTS && codeHash != p.codeHash)
                  && (o == DeviceRefused <==>
                        open && p.attempts < MAX_ATTEMPTS && codeHash == p.codeHash
                        && p.deviceType !in {"macbook", "iphone", "ipad"})
                  && (o.Paired? ==> o == Paired(device)))
  {
  }

  /** The scheduler's update expires exactly the pending pairings past their expiry. */
  lemma ExpireStaleEffect(s: State, now: int, id: string)
    ensures var t := ExpireStale(s, now);
            && t == s.(pairings := t.pairings) && t.pairings.Keys == s.pairings.Keys
            && (id in s.pairings ==>
                  t.pairings[id] == if s.pairings[id].status == Pending && s.pairings[id].expiresAt < now
                                    then s.pairings[id].(status := Expired) else s.pairings[id])
  {
  }

  /** What a fresh pairing's code is worth: until it expires the right one pairs a device of an admitted type,
      and only that. */
  lemma StartThenConfirm(s: State, id: string, deviceType: string, identity: string, codeHash: string, now: int,
                         owner: string, presented: string, device: string, later: int)
    requires MAX_ATTEMPTS > 0
    ensures OutcomeOf(Start(s, id, deviceType, identity, codeHash, now), id, presented, device, later).Paired? <==>
              later <= now + CODE_TTL_SECONDS && presented == codeHash && deviceType in {"macbook", "iphone", "ipad"}
    ensures var started := Start(s, id, deviceType, identity, codeHash, now);
            s.compared.Keys == s.pairings.Keys && OutcomeOf(started, id, presented, device, later).Paired? ==>
              var t := Confirm(started, id, owner, presented, device, later);
              && t.devices == s.devices[device := PairedDevice(owner, deviceType, identity)]
              && id in t.pairings && t.pairings[id].status == Confirmed && t.pairings[id].owner == Some(owner)
  {
  }

  /** The counter never falls, a pairing that has left Pending never changes again, and so a correct code
      presented after the budget is spent, after expiry or after confirmation pairs nothing. */
  lemma SpentPairingStaysSpent(states: seq<State>, steps: seq<Step>, i: nat, j: nat, id: string,
                               codeHash: string, device: string, now: int)
    requires Run(states, steps) && i <= j < |states| && id in states[i].pairings
    ensures id in states[j].pairings && states[i].pairings[id].attempts <= states[j].pairings[id].attempts
    ensures states[i].pairings[id].status != Pending ==> states[j].pairings[id] == states[i].pairings[id]
    ensures states[i].pairings[id].status != Pending || states[i].pairings[id].attempts == MAX_ATTEMPTS ==>
              !OutcomeOf(states[j], id, codeHash, device, now).Paired?
  {
    RunGrows(states, steps, i, j);
  }
}
