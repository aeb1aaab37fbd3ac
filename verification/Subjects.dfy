/** Broker subjects: the builders, the consumer's routing by substring, and the
    gateway's reading of the emergency-stop subjects. */
module Subjects {

  function CommandReady(deviceId: string): string { "veyaan.command.ready." + deviceId }
  function CommandDelivered(commandId: string): string { "veyaan.command.delivered." + commandId }
  function CommandAcknowledged(commandId: string): string { "veyaan.command.acknowledged." + commandId }
  function CommandProgress(commandId: string): string { "veyaan.command.progress." + commandId }
  function CommandResult(commandId: string): string { "veyaan.command.result." + commandId }
  function CommandCancel(deviceId: string): string { "veyaan.command.cancel." + deviceId }
  function DeviceLifecycle(deviceId: string): string { "veyaan.device.lifecycle." + deviceId }
  function EmergencyStop(ownerId: string): string { "veyaan.security.emergency_stop." + ownerId }
  function EmergencyResume(ownerId: string): string { "veyaan.security.emergency_resume." + ownerId }

  /** The text of a UUID: hexadecimal digits of either case and dashes. */
  predicate IdChar(c: char) {
    '0' <= c <= '9' || 'a' <= c <= 'f' || 'A' <= c <= 'F' || c == '-'
  }

  predicate IdText(id: string) {
    forall i :: 0 <= i < |id| ==> IdChar(id[i])
  }

  predicate OccursAt(s: string, key: string, p: nat) {
    p + |key| <= |s| && s[p..p + |key|] == key
  }

  predicate Contains(s: string, key: string) {
    exists p :: 0 <= p <= |s| && OccursAt(s, key, p)
  }

  datatype Handler = HandleDelivered | HandleAcknowledged | HandleProgress | HandleResult | NoHandler

  /** The handler map in its insertion order; the first key found in the subject wins. */
  const HANDLERS: seq<(string, Handler)> := [
    ("delivered", HandleDelivered),
    ("acknowledged", HandleAcknowledged),
    ("progress", HandleProgress),
    ("result", HandleResult)]

  method RouteHandler(subject: string) returns (h: Handler)
    ensures h == Route(subject, HANDLERS)
  {
    var i := 0;
    while i < |HANDLERS|
      invariant 0 <= i <= |HANDLERS|
      invariant Route(subject, HANDLERS) == Route(subject, HANDLERS[i..])
    {
      if Contains(subject, HANDLERS[i].0) {
        return HANDLERS[i].1;
      }
      assert HANDLERS[i..][1..] == HANDLERS[i + 1..];
      i := i + 1;
    }
    return NoHandler;
  }

  function Route(subject: string, handlers: seq<(string, Handler)>): Handler {
    if handlers == [] then NoHandler
    else if Contains(subject, handlers[0].0) then handlers[0].1
    else Route(subject, handlers[1..])
  }

  /** A key is not found when one of its characters never occurs from its own offset on. */
  lemma NotContained(s: string, key: string, k: nat)
    requires k < |key|
    requires forall i :: k <= i < |s| ==> s[i] != key[k]
    ensures !Contains(s, key)
  {
    forall p | 0 <= p <= |s| && p + |key| <= |s|
      ensures !OccursAt(s, key, p)
    {
      assert s[p..p + |key|][k] == s[p + k];
    }
  }

  lemma Found(prefix: string, key: string, rest: string)
    ensures Contains(prefix + key + rest, key)
  {
    var s := prefix + key + rest;
    assert OccursAt(s, key, |prefix|);
  }

  lemma RouteFrom(subject: string)
    ensures Route(subject, HANDLERS) ==
            if Contains(subject, "delivered") then HandleDelivered
            else if Contains(subject, "acknowledged") then HandleAcknowledged
            else if Contains(subject, "progress") then HandleProgress
            else if Contains(subject, "result") then HandleResult
            else NoHandler
  {
    assert HANDLERS[1..][1..] == HANDLERS[2..] && HANDLERS[2..][1..] == HANDLERS[3..];
    assert HANDLERS[3..][1..] == [];
    assert Route(subject, HANDLERS[3..]) == if Contains(subject, "result") then HandleResult else NoHandler;
    assert Route(subject, HANDLERS[2..]) ==
           if Contains(subject, "progress") then HandleProgress else Route(subject, HANDLERS[3..]);
  }

  /** Every lifecycle subject reaches its own handler, and the two subjects that no
      handler serves reach none, for every id over hexadecimal digits and dashes. */
  lemma RouteRoundTrip(id: string)
    requires IdText(id)
    ensures Route(CommandDelivered(id), HANDLERS) == HandleDelivered
    ensures Route(CommandAcknowledged(id), HANDLERS) == HandleAcknowledged
    ensures Route(CommandProgress(id), HANDLERS) == HandleProgress
    ensures Route(CommandResult(id), HANDLERS) == HandleResult
    ensures Route(CommandReady(id), HANDLERS) == NoHandler
    ensures Route(CommandCancel(id), HANDLERS) == NoHandler
  {
    RouteDelivered(id);
    RouteAcknowledged(id);
    RouteProgress(id);
    RouteResult(id);
    RouteUnserved(id);
  }

  lemma RouteDelivered(id: string)
    ensures Route(CommandDelivered(id), HANDLERS) == HandleDelivered
  {
    var s := CommandDelivered(id);
    assert s == "veyaan.command." + "delivered" + ("." + id);
    Found("veyaan.command.", "delivered", "." + id);
    RouteFrom(s);
  }

  lemma RouteAcknowledged(id: string)
    requires IdText(id)
    ensures Route(CommandAcknowledged(id), HANDLERS) == HandleAcknowledged
  {
    var s := CommandAcknowledged(id);
    NotContained(s, "delivered", 4);
    assert s == "veyaan.command." + "acknowledged" + ("." + id);
    Found("veyaan.command.", "acknowledged", "." + id);
    RouteFrom(s);
  }

  lemma RouteProgress(id: string)
    requires IdText(id)
    ensures Route(CommandProgress(id), HANDLERS) == HandleProgress
  {
    var s := CommandProgress(id);
    NotContained(s, "delivered", 4);
    NotContained(s, "acknowledged", 2);
    assert s == "veyaan.command." + "progress" + ("." + id);
    Found("veyaan.command.", "progress", "." + id);
    RouteFrom(s);
  }

  lemma RouteResult(id: string)
    requires IdText(id)
    ensures Route(CommandResult(id), HANDLERS) == HandleResult
  {
    var s := CommandResult(id);
    NotContained(s, "delivered", 4);
    NotContained(s, "acknowledged", 2);
    NotContained(s, "progress", 0);
    assert s == "veyaan.command." + "result" + ("." + id);
    Found("veyaan.command.", "result", "." + id);
    RouteFrom(s);
  }

  lemma RouteUnserved(id: string)
    requires IdText(id)
    ensures Route(CommandReady(id), HANDLERS) == NoHandler
    ensures Route(CommandCancel(id), HANDLERS) == NoHandler
  {
    var s, t := CommandReady(id), CommandCancel(id);
    NotContained(s, "delivered", 4);
    NotContained(s, "acknowledged", 2);
    NotContained(s, "progress", 0);
    NotContained(s, "result", 5);
    RouteFrom(s);
    NotContained(t, "delivered", 4);
    NotContained(t, "acknowledged", 2);
    NotContained(t, "progress", 0);
    NotContained(t, "result", 5);
    RouteFrom(t);
  }

  /** Python's str.split("."). */
  function Split(s: string): (parts: seq<string>)
    ensures |parts| >= 1
  {
    if s == "" then [""]
    else
      var rest := Split(s[1..]);
      if s[0] == '.' then [""] + rest else [[s[0]] + rest[0]] + rest[1..]
  }

  lemma {:induction false} SplitNoDot(s: string)
    requires '.' !in s
    ensures Split(s) == [s]
  {
    if s != "" {
      SplitNoDot(s[1..]);
      assert [s[0]] + s[1..] == s;
    }
  }

  lemma {:induction false} SplitAtDot(head: string, tail: string)
    requires '.' !in head
    ensures Split(head + "." + tail) == [head] + Split(tail)
  {
    var s := head + "." + tail;
    if head == "" {
      assert s[1..] == tail;
    } else {
      SplitAtDot(head[1..], tail);
      assert s[1..] == head[1..] + "." + tail;
      assert [s[0]] + head[1..] == head;
    }
  }

  datatype SecurityEvent = SecurityEvent(ownerId: string, active: bool) | Ignored

  /** The gateway's reading of a security subject. */
  function ReadSecuritySubject(subject: string): SecurityEvent {
    var parts := Split(subject);
    if |parts| >= 4 then SecurityEvent(parts[3], parts[2] == "emergency_stop") else Ignored
  }

  /** Splitting a stop or resume subject gives back the owner id and the flag. */
  lemma SecurityRoundTrip(ownerId: string)
    requires IdText(ownerId)
    ensures ReadSecuritySubject(EmergencyStop(ownerId)) == SecurityEvent(ownerId, true)
    ensures ReadSecuritySubject(EmergencyResume(ownerId)) == SecurityEvent(ownerId, false)
  {
    ReadStop(ownerId);
    ReadResume(ownerId);
  }

  lemma ReadStop(ownerId: string)
    requires '.' !in ownerId
    ensures ReadSecuritySubject(EmergencyStop(ownerId)) == SecurityEvent(ownerId, true)
  {
    hide Split;
    SplitSecurity("emergency_stop", ownerId);
    assert EmergencyStop(ownerId) == "veyaan" + "." + ("security" + "." + ("emergency_stop" + "." + ownerId));
  }

  lemma ReadResume(ownerId: string)
    requires '.' !in ownerId
    ensures ReadSecuritySubject(EmergencyResume(ownerId)) == SecurityEvent(ownerId, false)
  {
    hide Split;
    SplitSecurity("emergency_resume", ownerId);
    assert EmergencyResume(ownerId) == "veyaan" + "." + ("security" + "." + ("emergency_resume" + "." + ownerId));
  }

  lemma SplitSecurity(action: string, ownerId: string)
    requires '.' !in action && '.' !in ownerId
    ensures Split("veyaan" + "." + ("security" + "." + (action + "." + ownerId)))
         == ["veyaan", "security", action, ownerId]
  {
    SplitNoDot(ownerId);
    SplitAtDot(action, ownerId);
    SplitAtDot("security", action + "." + ownerId);
    SplitAtDot("veyaan", "security" + "." + (action + "." + ownerId));
  }
}
