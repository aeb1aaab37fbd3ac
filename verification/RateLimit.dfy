/** The rate limiter: a counter per key whose expiry every call restarts. */
module RateLimit {
  import opened Options

  datatype Counter = Counter(count: nat, expiresAt: int)

  datatype Call = Call(at: int, limit: int, window: int)

  function CountAt(c: Option<Counter>, now: int): nat {
    if c.Some? && now < c.value.expiresAt then c.value.count else 0
  }

  /** INCR followed by EXPIRE; an expiry that is not in the future deletes the key. */
  function Hit(c: Option<Counter>, call: Call): Option<Counter> {
    if call.window <= 0 then None else Some(Counter(CountAt(c, call.at) + 1, call.at + call.window))
  }

  predicate Allows(c: Option<Counter>, call: Call) {
    CountAt(c, call.at) + 1 <= call.limit
  }

  class RateLimiter {
    var connected: bool
    var counters: map<string, Counter>

    constructor (connected: bool)
      ensures this.connected == connected && counters == map[]
    {
      this.connected := connected;
      counters := map[];
    }

    function At(key: string): Option<Counter>
      reads this
    {
      if key in counters then Some(counters[key]) else None
    }

    /** Without a client everything is allowed and nothing is counted. */
    method Check(key: string, call: Call) returns (allowed: bool, current: nat, remaining: int)
      modifies this`counters
      ensures connected ==> allowed == Allows(old(At(key)), call) && At(key) == Hit(old(At(key)), call)
      ensures connected ==>
                && current == 1 + (if key in old(counters) && call.at < old(counters)[key].expiresAt
                                   then old(counters)[key].count else 0)
                && allowed == (current <= call.limit)
                && remaining == if call.limit > current then call.limit - current else 0
      ensures !connected ==> allowed && current == 0 && remaining == call.limit && counters == old(counters)
      ensures forall k :: k != key ==> At(k) == old(At(k))
    {
      if !connected {
        return true, 0, call.limit;
      }
      current := 1;
      if key in counters && call.at < counters[key].expiresAt {
        current := counters[key].count + 1;
      }
      if call.window <= 0 {
        counters := counters - {key};
      } else {
        counters := counters[key := Counter(current, call.at + call.window)];
      }
      remaining := if call.limit - current > 0 then call.limit - current else 0;
      allowed := current <= call.limit;
    }
  }

  // ---- Sequences of calls on one key ----

  function After(calls: seq<Call>): Option<Counter> {
    if calls == [] then None else Hit(After(calls[..|calls| - 1]), calls[|calls| - 1])
  }

  predicate AllowedAt(calls: seq<Call>, k: nat)
    requires k < |calls|
  {
    Allows(After(calls[..k]), calls[k])
  }

  /** Calls in order of time, with windows of at least `width` and limits of at most `most`. */
  ghost predicate Orderly(calls: seq<Call>, width: int, most: int) {
    && (forall i, j :: 0 <= i < j < |calls| ==> calls[i].at <= calls[j].at)
    && (forall i :: 0 <= i < |calls| ==> calls[i].window >= width && calls[i].limit <= most)
  }

  predicate Within(call: Call, start: int, width: int) {
    start <= call.at < start + width
  }

  function CallsIn(calls: seq<Call>, start: int, width: int): nat {
    if calls == [] then 0
    else CallsIn(calls[..|calls| - 1], start, width) + if Within(calls[|calls| - 1], start, width) then 1 else 0
  }

  function AllowedIn(calls: seq<Call>, start: int, width: int): nat {
    if calls == [] then 0
    else
      var k := |calls| - 1;
      AllowedIn(calls[..k], start, width) + if Within(calls[k], start, width) && AllowedAt(calls, k) then 1 else 0
  }

  lemma {:induction false} NoneBefore(calls: seq<Call>, start: int, width: int)
    requires forall i :: 0 <= i < |calls| ==> calls[i].at < start
    ensures CallsIn(calls, start, width) == 0
  {
    if calls != [] {
      NoneBefore(calls[..|calls| - 1], start, width);
    }
  }

  lemma {:induction false} AllowedAtMostCalls(calls: seq<Call>, start: int, width: int)
    ensures AllowedIn(calls, start, width) <= CallsIn(calls, start, width)
  {
    if calls != [] {
      AllowedAtMostCalls(calls[..|calls| - 1], start, width);
    }
  }

  /** Inside an interval no longer than any window the counter never restarts, so it has counted
      at least the interval's calls. */
  lemma {:induction false} CountsTheInterval(calls: seq<Call>, start: int, width: int, most: int)
    requires Orderly(calls, width, most) && width > 0
    requires calls != [] && Within(calls[|calls| - 1], start, width)
    ensures After(calls).Some? && After(calls).value.count >= CallsIn(calls, start, width)
    ensures After(calls).value.expiresAt >= start + width
  {
    var k := |calls| - 1;
    var before := calls[..k];
    assert Orderly(before, width, most);
    if k > 0 && Within(calls[k - 1], start, width) {
      CountsTheInterval(before, start, width, most);
    } else {
      forall i | 0 <= i < k
        ensures before[i].at < start
      {
        assert calls[i].at <= calls[k - 1].at <= calls[k].at;
      }
      NoneBefore(before, start, width);
    }
  }

  /** For every sequence of calls on a key, any half-open interval no longer than the smallest window
      contains at most the largest limit of allowed calls. */
  lemma {:induction false} RateBound(calls: seq<Call>, start: int, width: int, most: nat)
    requires Orderly(calls, width, most) && width > 0
    ensures AllowedIn(calls, start, width) <= most
  {
    if calls != [] {
      var k := |calls| - 1;
      assert Orderly(calls[..k], width, most);
      RateBound(calls[..k], start, width, most);
      if Within(calls[k], start, width) && AllowedAt(calls, k) {
        CountsTheInterval(calls, start, width, most);
        AllowedAtMostCalls(calls, start, width);
      }
    }
  }

  // ---- Exactly which calls are allowed ----

  predicate InOrder(calls: seq<Call>) {
    forall i, j :: 0 <= i < j < |calls| ==> calls[i].at <= calls[j].at
  }

  /** The first call, or one that comes no sooner than the window of the call before it has passed. */
  predicate AfterSilence(calls: seq<Call>, j: nat)
    requires j < |calls|
  {
    j == 0 || calls[j - 1].at + calls[j - 1].window <= calls[j].at
  }

  /** The calls from j to k came without a silence between them. */
  predicate Burst(calls: seq<Call>, j: nat, k: nat)
    requires k < |calls|
  {
    j <= k && AfterSilence(calls, j) && forall i :: j < i <= k ==> !AfterSilence(calls, i)
  }

  lemma {:induction false} BurstStart(calls: seq<Call>, k: nat) returns (j: nat)
    requires k < |calls|
    ensures Burst(calls, j, k)
  {
    if AfterSilence(calls, k) {
      j := k;
    } else {
      j := BurstStart(calls, k - 1);
    }
  }

  lemma {:induction false} CountedSinceSilence(calls: seq<Call>, j: nat, k: nat)
    requires InOrder(calls) && k < |calls| && Burst(calls, j, k)
    ensures CountAt(After(calls[..k]), calls[k].at) == k - j
  {
    if k > 0 {
      var before := calls[..k];
      assert before[..k - 1] == calls[..k - 1] && before[k - 1] == calls[k - 1];
      assert calls[k - 1].at <= calls[k].at;
      if j < k {
        assert !AfterSilence(calls, k);
        CountedSinceSilence(calls, j, k - 1);
      }
    }
  }

  /** A call is allowed if and only if it is within its limit when the calls since the last silence, itself
      included, are counted. */
  lemma AllowedIffWithinLimit(calls: seq<Call>, j: nat, k: nat)
    requires InOrder(calls) && k < |calls| && Burst(calls, j, k)
    ensures AllowedAt(calls, k) <==> k - j + 1 <= calls[k].limit
  {
    CountedSinceSilence(calls, j, k);
  }

  /** The price of restarting the expiry: a client refused once stays refused for as long as it calls
      again before the window of its last call is over. */
  lemma {:induction false} RefusedWhileCalling(calls: seq<Call>, from: nat, k: nat, limit: int)
    requires from <= k < |calls| && limit >= 0
    requires forall i :: from <= i <= k ==> calls[i].limit <= limit && calls[i].window > 0
    requires CountAt(After(calls[..from]), calls[from].at) >= limit
    requires forall i :: from < i <= k ==> calls[i].at < calls[i - 1].at + calls[i - 1].window
    ensures !AllowedAt(calls, k)
    ensures CountAt(After(calls[..k]), calls[k].at) >= limit
  {
    if from < k {
      RefusedWhileCalling(calls, from, k - 1, limit);
      assert calls[..k][..k - 1] == calls[..k - 1];
    }
  }

  /** And a call after a silence of at least the last window is allowed whenever its limit is positive. */
  lemma AllowedAfterSilence(calls: seq<Call>, k: nat)
    requires 0 < k < |calls| && calls[k].limit >= 1 && calls[k].at >= calls[k - 1].at + calls[k - 1].window
    ensures AllowedAt(calls, k)
  {
    assert calls[..k][|calls[..k]| - 1] == calls[k - 1];
  }
}
