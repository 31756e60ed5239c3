/** The audit event record shared by the two backend services: what a caller hands to
    `logEvent`, the event it becomes (defaults filled in, sequence and hash links set),
    the text that is hashed, and the bounded in-memory buffer of the last 1000 events. */
module AuditRecords {
  import opened Common
  import opened Json

  /** What a caller passes to `logEvent`; a missing optional field is `None`. */
  datatype EventInput = EventInput(
    eventType: string,
    action: string,
    userId: string,
    documentId: Option<string>,
    details: Option<Json>,
    sessionId: Option<string>,
    userAgent: Option<string>,
    ipAddress: Option<string>)

  datatype Metadata = Metadata(userAgent: string, ipAddress: string)

  /** A stored audit event; `timestamp` is the creation instant in milliseconds. */
  datatype AuditEvent = AuditEvent(
    id: string,
    timestamp: int,
    sequence: nat,
    eventType: string,
    action: string,
    userId: string,
    documentId: Option<string>,
    details: Json,
    sessionId: string,
    hash: string,
    previousHash: string,
    metadata: Metadata)

  /** The values `logEvent` draws from the environment: `crypto.randomUUID()`, the creation
      instant `new Date()` and the clock reading `Date.now()` taken inside the hash. */
  datatype Stamp = Stamp(id: string, timestamp: int, now: int)

  /** The in-memory stores keep at most this many events. */
  const Capacity: nat := 1000

  /** `eventData.details || {}`. */
  function DetailsOrEmpty(d: Option<Json>): (r: Json)
    ensures d.Some? && IsTruthy(d.value) ==> r == d.value
    ensures d.None? || !IsTruthy(d.value) ==> r == EmptyObject
  {
    if d.Some? && IsTruthy(d.value) then d.value else EmptyObject
  }

  /** `documentId || null`. */
  function DocumentOrNull(d: Option<string>): (r: Option<string>)
    ensures Truthy(d) ==> r == d
    ensures !Truthy(d) ==> r == None
  {
    if Truthy(d) then d else None
  }

  function OptionalMember(key: string, value: Option<Json>): seq<(string, Json)> {
    match value
    case Some(v) => [(key, v)]
    case None => []
  }

  function OptionalText(key: string, value: Option<string>): seq<(string, Json)> {
    match value
    case Some(v) => [(key, JString(v))]
    case None => []
  }

  /** The caller's event data as a JSON object; keys whose value is `undefined` are left out,
      as `JSON.stringify` leaves them out. */
  function InputJson(input: EventInput): Json {
    JObject(
      [("eventType", JString(input.eventType)),
       ("action", JString(input.action)),
       ("userId", JString(input.userId))]
      + OptionalText("documentId", input.documentId)
      + OptionalMember("details", input.details)
      + OptionalText("sessionId", input.sessionId)
      + OptionalText("userAgent", input.userAgent)
      + OptionalText("ipAddress", input.ipAddress))
  }

  /** `previousHash + JSON.stringify(data) + Date.now()`: the stored last hash is passed even when
      it is `null`, so the parameter default `''` never applies and the genesis text starts with "null". */
  function HashText(input: EventInput, lastHash: Option<string>, now: int): string {
    (match lastHash case Some(h) => h case None => "null") + Stringify(InputJson(input)) + IntToDecimal(now)
  }

  /** `generateHash(data, previousHash)`, with SHA-256 and the clock reading `Date.now()` as parameters. */
  function GenerateHash(sha256: string -> string, input: EventInput, lastHash: Option<string>, now: int): string {
    sha256(HashText(input, lastHash, now))
  }

  /** The clock reading is part of the hashed text: two hashes of the same data on the same
      predecessor hash the same text only when the clock readings agree, and the reading
      is not stored on the event. */
  lemma HashTextDependsOnClock(input: EventInput, lastHash: Option<string>, now1: int, now2: int)
    requires HashText(input, lastHash, now1) == HashText(input, lastHash, now2)
    ensures now1 == now2
  {
    var prefix := (match lastHash case Some(h) => h case None => "null") + Stringify(InputJson(input));
    assert HashText(input, lastHash, now1)[|prefix|..] == IntToDecimal(now1);
    assert HashText(input, lastHash, now2)[|prefix|..] == IntToDecimal(now2);
    IntToDecimalInjective(now1, now2);
  }

  /** The event `logEvent` builds: the caller's fields with their defaults, the given sequence,
      the hash, and as predecessor hash the stored last hash or "" when there is none. */
  function MakeEvent(input: EventInput, id: string, timestamp: int, sequence: nat,
                     lastHash: Option<string>, hash: string): (e: AuditEvent)
    ensures e.id == id && e.timestamp == timestamp && e.sequence == sequence && e.hash == hash
    ensures e.eventType == input.eventType && e.action == input.action && e.userId == input.userId
    ensures e.previousHash == (if Truthy(lastHash) then lastHash.value else "")
  {
    AuditEvent(
      id, timestamp, sequence,
      input.eventType, input.action, input.userId,
      DocumentOrNull(input.documentId),
      DetailsOrEmpty(input.details),
      OrElse(input.sessionId, "unknown"),
      hash,
      OrElse(lastHash, ""),
      Metadata(OrElse(input.userAgent, "unknown"), OrElse(input.ipAddress, "unknown")))
  }

  /** The caller's optional fields in the event `logEvent` builds: each is kept when it is truthy,
      and a missing or falsy one (`""`, or `null` details) takes its default. */
  lemma MakeEventDefaults(input: EventInput, id: string, timestamp: int, sequence: nat,
                          lastHash: Option<string>, hash: string)
    ensures var e := MakeEvent(input, id, timestamp, sequence, lastHash, hash);
            && e.documentId == (if Truthy(input.documentId) then input.documentId else None)
            && (input.details.Some? && IsTruthy(input.details.value) ==> e.details == input.details.value)
            && (input.details.None? || !IsTruthy(input.details.value) ==> e.details == EmptyObject)
            && (Truthy(input.sessionId) ==> e.sessionId == input.sessionId.value)
            && (!Truthy(input.sessionId) ==> e.sessionId == "unknown")
            && (Truthy(input.userAgent) ==> e.metadata.userAgent == input.userAgent.value)
            && (!Truthy(input.userAgent) ==> e.metadata.userAgent == "unknown")
            && (Truthy(input.ipAddress) ==> e.metadata.ipAddress == input.ipAddress.value)
            && (!Truthy(input.ipAddress) ==> e.metadata.ipAddress == "unknown")
  {
  }

  /** The two events `initializeDemoData` logs into an empty store. */
  const DemoEvents: seq<EventInput> := [
    EventInput("session_started", "User session started", "user-admin-1", None, None,
               Some("demo-session-1"), Some("Demo Browser"), Some("127.0.0.1")),
    EventInput("page_visited", "Navigated to Dashboard", "user-admin-1", None,
               Some(JObject([("pageName", JString("Dashboard"))])),
               Some("demo-session-1"), Some("Demo Browser"), Some("127.0.0.1"))]

  /** `events.slice(-1000)` when there are more than 1000: the most recent 1000, in their order. */
  function KeepLast(s: seq<AuditEvent>): (r: seq<AuditEvent>)
    ensures |r| == if |s| > Capacity then Capacity else |s|
    ensures r == s[|s| - |r|..]
  {
    if |s| > Capacity then s[|s| - Capacity..] else s
  }

  /** The buffer after pushing `e` and trimming it back to the last 1000 events. */
  function PushBounded(s: seq<AuditEvent>, e: AuditEvent): seq<AuditEvent> {
    KeepLast(s + [e])
  }

  /** The stored log is what `logEvent` alone builds without truncation: sequences 1..N in order,
      a genesis event with an empty predecessor hash, every other event linked to the one before,
      and the last hash that of the newest event (`null` on an empty log). */
  ghost predicate Chained(s: seq<AuditEvent>, lastHash: Option<string>) {
    && (forall i :: 0 <= i < |s| ==> s[i].sequence == i + 1)
    && (|s| > 0 ==> s[0].previousHash == "")
    && (forall i :: 0 < i < |s| ==> s[i].previousHash == s[i - 1].hash)
    && lastHash == (if s == [] then None else Some(s[|s| - 1].hash))
  }

  /** Appending the event `logEvent` makes, with sequence count + 1 and the stored last hash,
      and then recording its hash as the last hash, keeps the log chained; in particular the
      new event's predecessor hash is the previous newest event's hash. */
  lemma {:induction false} AppendKeepsChained(s: seq<AuditEvent>, lastHash: Option<string>, input: EventInput,
                                              id: string, timestamp: int, hash: string)
    requires Chained(s, lastHash)
    ensures var e := MakeEvent(input, id, timestamp, |s| + 1, lastHash, hash);
            && Chained(s + [e], Some(hash))
            && e.previousHash == (if s == [] then "" else s[|s| - 1].hash)
  {
    var e := MakeEvent(input, id, timestamp, |s| + 1, lastHash, hash);
    var t := s + [e];
    if s != [] {
      assert e.previousHash == s[|s| - 1].hash by {
        if s[|s| - 1].hash == "" {
          assert !Truthy(lastHash);
        }
      }
    }
    forall i | 0 < i < |t|
      ensures t[i].previousHash == t[i - 1].hash
    {
      if i < |s| {
        assert t[i] == s[i] && t[i - 1] == s[i - 1];
      }
    }
  }
}
