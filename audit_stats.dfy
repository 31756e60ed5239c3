/** The statistics both backend services compute over a list of events: counts per event type
    and per user, the number of processed documents, and the first and last timestamps. */
module AuditStats {
  import opened Common
  import opened AuditRecords
  import opened AuditQuery

  datatype TimeRange = TimeRange(first: Option<int>, last: Option<int>)

  datatype Stats = Stats(
    totalEvents: nat,
    eventTypes: map<string, nat>,
    users: map<string, nat>,
    documentsProcessed: nat,
    timeRange: TimeRange)

  /** `counts[key] = (counts[key] || 0) + 1`. */
  function Bump(m: map<string, nat>, key: string): map<string, nat> {
    m[key := (if key in m then m[key] else 0) + 1]
  }

  /** The counters after a `forEach` over `keys` that bumps each one. */
  function Tally(keys: seq<string>): map<string, nat> {
    if keys == [] then map[] else Bump(Tally(keys[..|keys| - 1]), keys[|keys| - 1])
  }

  function EventTypes(s: seq<AuditEvent>): (r: seq<string>)
    ensures |r| == |s| && forall i :: 0 <= i < |s| ==> r[i] == s[i].eventType
  {
    seq(|s|, i requires 0 <= i < |s| => s[i].eventType)
  }

  function UserIds(s: seq<AuditEvent>): (r: seq<string>)
    ensures |r| == |s| && forall i :: 0 <= i < |s| ==> r[i] == s[i].userId
  {
    seq(|s|, i requires 0 <= i < |s| => s[i].userId)
  }

  /** The marker test of the processed-documents counter: a substring match on either marker. */
  predicate IsDocumentProcessed(eventType: string) {
    Includes(eventType, "upload_completed") || Includes(eventType, "masking_succeeded")
  }

  /** The number of events whose type carries a processed-document marker. */
  function CountProcessed(s: seq<AuditEvent>): (n: nat)
    ensures n <= |s|
  {
    if s == [] then 0
    else CountProcessed(s[..|s| - 1]) + (if IsDocumentProcessed(s[|s| - 1].eventType) then 1 else 0)
  }

  /** The `forEach` over the events that bumps the counters. */
  method CountEvents(events: seq<AuditEvent>) returns (eventTypes: map<string, nat>, users: map<string, nat>, documentsProcessed: nat)
    ensures eventTypes == Tally(EventTypes(events))
    ensures users == Tally(UserIds(events))
    ensures documentsProcessed == CountProcessed(events)
  {
    eventTypes, users, documentsProcessed := map[], map[], 0;
    for i := 0 to |events|
      invariant eventTypes == Tally(EventTypes(events[..i]))
      invariant users == Tally(UserIds(events[..i]))
      invariant documentsProcessed == CountProcessed(events[..i])
    {
      var event := events[i];
      eventTypes := Bump(eventTypes, event.eventType);
      users := Bump(users, event.userId);
      if IsDocumentProcessed(event.eventType) {
        documentsProcessed := documentsProcessed + 1;
      }
      CountStep(events, i);
    }
    assert events[..|events|] == events;
  }

  /** The counters over one more event. */
  lemma CountStep(events: seq<AuditEvent>, i: int)
    requires 0 <= i < |events|
    ensures Tally(EventTypes(events[..i + 1])) == Bump(Tally(EventTypes(events[..i])), events[i].eventType)
    ensures Tally(UserIds(events[..i + 1])) == Bump(Tally(UserIds(events[..i])), events[i].userId)
    ensures CountProcessed(events[..i + 1]) ==
            CountProcessed(events[..i]) + (if IsDocumentProcessed(events[i].eventType) then 1 else 0)
  {
    assert events[..i + 1][..i] == events[..i];
    assert EventTypes(events[..i + 1])[..i] == EventTypes(events[..i]);
    assert UserIds(events[..i + 1])[..i] == UserIds(events[..i]);
  }

  /** `timeRange` over the events in their stored (oldest-first) order. */
  function StoredOrderTimeRange(s: seq<AuditEvent>): (t: TimeRange)
    ensures s == [] ==> t == TimeRange(None, None)
    ensures s != [] ==> t == TimeRange(Some(s[0].timestamp), Some(s[|s| - 1].timestamp))
  {
    if s == [] then TimeRange(None, None) else TimeRange(Some(s[0].timestamp), Some(s[|s| - 1].timestamp))
  }

  /** `timeRange` over a list sorted newest first: `first` is the last element, `last` the first. */
  function NewestFirstTimeRange(s: seq<AuditEvent>): (t: TimeRange)
    ensures s == [] ==> t == TimeRange(None, None)
    ensures s != [] ==> t == TimeRange(Some(s[|s| - 1].timestamp), Some(s[0].timestamp))
  {
    if s == [] then TimeRange(None, None) else TimeRange(Some(s[|s| - 1].timestamp), Some(s[0].timestamp))
  }

  /** The two conventions agree when the newest-first list is the stored list reversed. */
  lemma TimeRangeConventionsAgree(s: seq<AuditEvent>)
    ensures NewestFirstTimeRange(Reverse(s)) == StoredOrderTimeRange(s)
  {
  }

  /** `getStats()` of the in-process service: counters over all stored events and the time range
      in stored order. */
  function StoredOrderStats(s: seq<AuditEvent>): Stats {
    Stats(|s|, Tally(EventTypes(s)), Tally(UserIds(s)), CountProcessed(s), StoredOrderTimeRange(s))
  }

  /** `getStats(events)` of the database-backed service: the same counters, with the time range
      read as if the list were sorted newest first. */
  function NewestFirstStats(s: seq<AuditEvent>): Stats {
    Stats(|s|, Tally(EventTypes(s)), Tally(UserIds(s)), CountProcessed(s), NewestFirstTimeRange(s))
  }

  /** Each counter holds exactly the keys that occur, with their number of occurrences. */
  lemma {:induction false} TallyCounts(keys: seq<string>, k: string)
    ensures k in Tally(keys) <==> k in keys
    ensures k in Tally(keys) ==> Tally(keys)[k] == multiset(keys)[k]
  {
    if keys != [] {
      var init := keys[..|keys| - 1];
      TallyCounts(init, k);
      assert keys == init + [keys[|keys| - 1]];
    }
  }

  /** The sum of the counts of a counter map. */
  ghost function MapSum(m: map<string, nat>): nat
    decreases |m|
  {
    if m == map[] then 0
    else
      var k :| k in m;
      assert |m - {k}| < |m| by { assert (m - {k}).Keys == m.Keys - {k}; }
      m[k] + MapSum(m - {k})
  }

  /** The sum may start from any key. */
  lemma MapSumRemove(m: map<string, nat>, k: string)
    requires k in m
    ensures MapSum(m) == m[k] + MapSum(m - {k})
    decreases |m|
  {
    var j :| j in m && MapSum(m) == m[j] + MapSum(m - {j});
    if j != k {
      assert |m - {j}| < |m| by { assert (m - {j}).Keys == m.Keys - {j}; }
      assert |m - {k}| < |m| by { assert (m - {k}).Keys == m.Keys - {k}; }
      MapSumRemove(m - {j}, k);
      MapSumRemove(m - {k}, j);
      assert m - {j} - {k} == m - {k} - {j};
    }
  }

  lemma BumpAddsOne(m: map<string, nat>, key: string)
    ensures MapSum(Bump(m, key)) == MapSum(m) + 1
  {
    var b := Bump(m, key);
    MapSumRemove(b, key);
    if key in m {
      MapSumRemove(m, key);
      assert b - {key} == m - {key};
    } else {
      assert b - {key} == m;
    }
  }

  /** The counts of a counter built from `keys` add up to the number of keys, so the
      `eventTypes` (and `users`) counts sum to `totalEvents`. */
  lemma {:induction false} TallySum(keys: seq<string>)
    ensures MapSum(Tally(keys)) == |keys|
  {
    if keys != [] {
      TallySum(keys[..|keys| - 1]);
      BumpAddsOne(Tally(keys[..|keys| - 1]), keys[|keys| - 1]);
    }
  }

  /** Filtering by one event type returns as many events as its counter says. */
  lemma {:induction false} TypeFilterMatchesCount(s: seq<AuditEvent>, t: string)
    requires t != ""
    ensures |Where(s, Filters(None, Some(t), None, None, None))| == multiset(EventTypes(s))[t]
  {
    if s != [] {
      TypeFilterMatchesCount(s[1..], t);
      assert EventTypes(s) == [s[0].eventType] + EventTypes(s[1..]);
    }
  }

  /** The processed-documents count is additive over a split of the events. */
  lemma {:induction false} CountProcessedAppend(s1: seq<AuditEvent>, s2: seq<AuditEvent>)
    ensures CountProcessed(s1 + s2) == CountProcessed(s1) + CountProcessed(s2)
    decreases |s2|
  {
    if s2 != [] {
      CountProcessedAppend(s1, s2[..|s2| - 1]);
      assert (s1 + s2)[..|s1 + s2| - 1] == s1 + s2[..|s2| - 1];
    } else {
      assert s1 + s2 == s1;
    }
  }

  /** `totalEvents` is the number of events, and both the `eventTypes` and the `users` counts
      add up to it; a type is counted exactly when some event has it, as often as events have it. */
  lemma StatsAddUp(s: seq<AuditEvent>, t: string)
    ensures var st := StoredOrderStats(s);
            && st.totalEvents == |s|
            && MapSum(st.eventTypes) == st.totalEvents
            && MapSum(st.users) == st.totalEvents
            && (t in st.eventTypes <==> exists i :: 0 <= i < |s| && s[i].eventType == t)
            && (t in st.eventTypes ==> st.eventTypes[t] == multiset(EventTypes(s))[t])
  {
    TallySum(EventTypes(s));
    TallySum(UserIds(s));
    TallyCounts(EventTypes(s), t);
    if t in EventTypes(s) {
      var i :| 0 <= i < |s| && EventTypes(s)[i] == t;
      assert s[i].eventType == t;
    }
  }
}
