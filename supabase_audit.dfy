/** backend/services/supabaseAuditService.js without database credentials: the service object
    keeps its events and last hash in its own fields, bounded to the last 1000 events. Queries
    and the integrity walk work on copies, so the store only ever grows at its end. Each event
    is stored with flat snake_case columns; here it is the same record as in the other service. */
module SupabaseAudit {
  import opened Common
  import opened AuditRecords
  import opened AuditQuery
  import opened AuditIntegrity
  import opened AuditStats
  import opened AuditCsv

  /** The counter key of a column read as `event.event_type || event.eventType`: an empty text
      falls through to the missing camelCase field, and `undefined` becomes the key "undefined". */
  function ColumnKey(s: string): (k: string)
    ensures k != ""
    ensures s != "" ==> k == s
  {
    if s == "" then "undefined" else s
  }

  function ColumnKeys(keys: seq<string>): (r: seq<string>)
    ensures |r| == |keys| && forall i :: 0 <= i < |keys| ==> r[i] == ColumnKey(keys[i])
  {
    seq(|keys|, i requires 0 <= i < |keys| => ColumnKey(keys[i]))
  }

  /** `getStats(events)`: counters keyed by column value and a time range that reads the list
      as newest first (`first` from its last element, `last` from its first). */
  function ColumnStats(s: seq<AuditEvent>): Stats {
    Stats(|s|, Tally(ColumnKeys(EventTypes(s))), Tally(ColumnKeys(UserIds(s))), CountProcessed(s),
          NewestFirstTimeRange(s))
  }

  /** The copy `verifyIntegrity` walks: the stored events sorted by ascending sequence. */
  function IntegrityOrder(s: seq<AuditEvent>): seq<AuditEvent> {
    SortBySequence(s, false)
  }

  class SupabaseAuditService {
    var events: seq<AuditEvent>
    var lastHash: Option<string>

    /** The constructor's fallback branch, taken when the URL or the key is missing. */
    constructor ()
      ensures events == [] && lastHash == None
    {
      events := [];
      lastHash := None;
    }

    method GetLastHash() returns (h: Option<string>)
      ensures h == lastHash
    {
      return lastHash;
    }

    method GetNextSequence() returns (n: nat)
      ensures n == |events| + 1
    {
      return |events| + 1;
    }

    method GetEventCount() returns (n: nat)
      ensures n == |events|
    {
      return |events|;
    }

    /** `logEvent(eventData)`: push, record the hash, then keep the last 1000 events. */
    method LogEvent(input: EventInput, stamp: Stamp, sha256: string -> string) returns (event: AuditEvent)
      modifies this
      ensures event == MakeEvent(input, stamp.id, stamp.timestamp, |old(events)| + 1, old(lastHash),
                                 GenerateHash(sha256, input, old(lastHash), stamp.now))
      ensures events == PushBounded(old(events), event) && lastHash == Some(event.hash)
      ensures |old(events)| < Capacity ==> events == old(events) + [event]
      ensures Chained(old(events), old(lastHash)) && |old(events)| < Capacity ==> Chained(events, lastHash)
    {
      ghost var before, beforeHash := events, lastHash;
      var lastEventHash := GetLastHash();
      var sequence := GetNextSequence();
      var hash := GenerateHash(sha256, input, lastEventHash, stamp.now);
      event := MakeEvent(input, stamp.id, stamp.timestamp, sequence, lastEventHash, hash);
      events := events + [event];
      lastHash := Some(hash);
      if |events| > Capacity {
        events := events[|events| - Capacity..];
      }
      if Chained(before, beforeHash) && |before| < Capacity {
        LoggingKeepsChain(before, beforeHash, input, stamp, sha256);
      }
    }

    /** `getStats(events)`: the given list, or the stored events when none is given (an empty
        list is given, not missing). */
    method GetStats(given: Option<seq<AuditEvent>>) returns (stats: Stats)
      ensures stats == ColumnStats(if given.Some? then given.value else events)
    {
      var list := if given.Some? then given.value else events;
      var eventTypes, users, documentsProcessed := CountColumns(list);
      stats := Stats(|list|, eventTypes, users, documentsProcessed, NewestFirstTimeRange(list));
    }

    /** `getAuditLog(filters)`: filter a copy, sort it newest first, and compute the statistics
        over the filtered list. */
    method GetAuditLog(filters: Filters) returns (logs: seq<AuditEvent>, stats: Stats)
      ensures logs == Query(events, filters)
      ensures stats == ColumnStats(logs)
    {
      logs := Query(events, filters);
      stats := GetStats(Some(logs));
    }

    /** `verifyIntegrity()`: the pairwise walk over a copy sorted by ascending sequence. */
    method VerifyIntegrity() returns (result: Verification)
      ensures result == Summarize(events, ChainIssues(IntegrityOrder(events)))
    {
      var sorted := IntegrityOrder(events);
      var issues := CheckChain(sorted);
      result := Verification(|issues| == 0, issues, |sorted|);
    }

    method ExportAuditLog(filters: Filters) returns (csv: string)
      ensures csv == Csv(Query(events, filters))
    {
      var logs, _ := GetAuditLog(filters);
      csv := Csv(logs);
    }

    /** `initializeDemoData()`: on an empty store, log the two demo events; otherwise nothing. */
    method InitializeDemoData(first: Stamp, second: Stamp, sha256: string -> string)
      modifies this
      ensures old(events) == [] && old(lastHash) == None ==>
                && |events| == 2 && Chained(events, lastHash)
                && events[0].eventType == "session_started" && events[1].eventType == "page_visited"
      ensures old(events) != [] ==> events == old(events) && lastHash == old(lastHash)
    {
      var count := GetEventCount();
      if count == 0 {
        var last := GetLastHash();
        if last == None {
          LogTwo(this, DemoEvents[0], first, DemoEvents[1], second, sha256);
        } else {
          var e1 := LogEvent(DemoEvents[0], first, sha256);
          var e2 := LogEvent(DemoEvents[1], second, sha256);
        }
      }
    }
  }

  /** Two events logged one after the other into an empty store form a chain of two. */
  method LogTwo(service: SupabaseAuditService, in1: EventInput, st1: Stamp, in2: EventInput, st2: Stamp,
                sha256: string -> string)
    requires service.events == [] && service.lastHash == None
    modifies service
    ensures |service.events| == 2 && Chained(service.events, service.lastHash)
    ensures service.events[0].eventType == in1.eventType && service.events[1].eventType == in2.eventType
  {
    assert Chained(service.events, service.lastHash);
    var e1 := service.LogEvent(in1, st1, sha256);
    assert service.events == [e1];
    var e2 := service.LogEvent(in2, st2, sha256);
    assert service.events == [e1, e2];
  }

  /** The `forEach` over the events that bumps the column-keyed counters. */
  method CountColumns(list: seq<AuditEvent>) returns (eventTypes: map<string, nat>, users: map<string, nat>, documentsProcessed: nat)
    ensures eventTypes == Tally(ColumnKeys(EventTypes(list)))
    ensures users == Tally(ColumnKeys(UserIds(list)))
    ensures documentsProcessed == CountProcessed(list)
  {
    eventTypes, users, documentsProcessed := map[], map[], 0;
    for i := 0 to |list|
      invariant eventTypes == Tally(ColumnKeys(EventTypes(list[..i])))
      invariant users == Tally(ColumnKeys(UserIds(list[..i])))
      invariant documentsProcessed == CountProcessed(list[..i])
    {
      var event := list[i];
      eventTypes := Bump(eventTypes, ColumnKey(event.eventType));
      users := Bump(users, ColumnKey(event.userId));
      if IsDocumentProcessed(event.eventType) {
        documentsProcessed := documentsProcessed + 1;
      }
      ColumnStep(list, i);
    }
    assert list[..|list|] == list;
  }

  /** The counters over one more event. */
  lemma ColumnStep(list: seq<AuditEvent>, i: int)
    requires 0 <= i < |list|
    ensures Tally(ColumnKeys(EventTypes(list[..i + 1]))) ==
            Bump(Tally(ColumnKeys(EventTypes(list[..i]))), ColumnKey(list[i].eventType))
    ensures Tally(ColumnKeys(UserIds(list[..i + 1]))) ==
            Bump(Tally(ColumnKeys(UserIds(list[..i]))), ColumnKey(list[i].userId))
    ensures CountProcessed(list[..i + 1]) ==
            CountProcessed(list[..i]) + (if IsDocumentProcessed(list[i].eventType) then 1 else 0)
  {
    assert EventTypes(list[..i + 1]) == EventTypes(list[..i]) + [list[i].eventType];
    assert UserIds(list[..i + 1]) == UserIds(list[..i]) + [list[i].userId];
    ColumnTallyStep(EventTypes(list[..i]), list[i].eventType);
    ColumnTallyStep(UserIds(list[..i]), list[i].userId);
    assert list[..i + 1][..i] == list[..i];
  }

  /** The counters after one more key: the new key is bumped under its column key. */
  lemma ColumnTallyStep(keys: seq<string>, k: string)
    ensures Tally(ColumnKeys(keys + [k])) == Bump(Tally(ColumnKeys(keys)), ColumnKey(k))
  {
    assert ColumnKeys(keys + [k])[..|keys|] == ColumnKeys(keys);
  }

  /** One `logEvent` on a chained store that is not full keeps it chained. */
  lemma LoggingKeepsChain(s: seq<AuditEvent>, lastHash: Option<string>, input: EventInput, stamp: Stamp,
                          sha256: string -> string)
    requires Chained(s, lastHash) && |s| < Capacity
    ensures var hash := GenerateHash(sha256, input, lastHash, stamp.now);
            var e := MakeEvent(input, stamp.id, stamp.timestamp, |s| + 1, lastHash, hash);
            && KeepLast(s + [e]) == s + [e]
            && Chained(s + [e], Some(hash))
  {
    var hash := GenerateHash(sha256, input, lastHash, stamp.now);
    AppendKeepsChained(s, lastHash, input, stamp.id, stamp.timestamp, hash);
  }

  /** The column keys are the plain values when no event has an empty type or user id, and then
      the statistics are those of the other service's newest-first convention. */
  lemma ColumnStatsAgree(s: seq<AuditEvent>)
    requires forall i :: 0 <= i < |s| ==> s[i].eventType != "" && s[i].userId != ""
    ensures ColumnStats(s) == NewestFirstStats(s)
  {
    assert ColumnKeys(EventTypes(s)) == EventTypes(s);
    assert ColumnKeys(UserIds(s)) == UserIds(s);
  }

  /** The per-type and per-user counts add up to the number of events, and no key is empty. */
  lemma ColumnStatsAddUp(s: seq<AuditEvent>, k: string)
    ensures var st := ColumnStats(s);
            && MapSum(st.eventTypes) == st.totalEvents == |s|
            && MapSum(st.users) == |s|
            && "" !in st.eventTypes && "" !in st.users
            && (k in st.eventTypes <==> exists i :: 0 <= i < |s| && ColumnKey(s[i].eventType) == k)
  {
    TallySum(ColumnKeys(EventTypes(s)));
    TallySum(ColumnKeys(UserIds(s)));
    TallyCounts(ColumnKeys(EventTypes(s)), k);
    TallyCounts(ColumnKeys(EventTypes(s)), "");
    TallyCounts(ColumnKeys(UserIds(s)), "");
    if k in ColumnKeys(EventTypes(s)) {
      var i :| 0 <= i < |s| && ColumnKeys(EventTypes(s))[i] == k;
      assert ColumnKey(s[i].eventType) == k;
    }
  }

  /** On a log `logEvent` built, the unfiltered query is the store newest first, and its time
      range is the stored first and last timestamps, as the other service reports them. */
  lemma UnfilteredTimeRange(s: seq<AuditEvent>, lastHash: Option<string>)
    requires Chained(s, lastHash)
    ensures Query(s, NoFilters) == Reverse(s)
    ensures ColumnStats(Query(s, NoFilters)).timeRange == StoredOrderTimeRange(s)
  {
    WhereNoFilters(s, NoFilters);
    SortDescendingReverses(s);
    TimeRangeConventionsAgree(s);
  }

  /** Sorting before the walk does not hide the repeated sequence of a full store: once the log
      holds 1000 events, the next two `logEvent` calls both number their event 1001 (the stored
      count + 1), and `verifyIntegrity` reports the gap. */
  lemma OverflowIsReported(s: seq<AuditEvent>, lastHash: Option<string>, e1: AuditEvent, e2: AuditEvent)
    requires Chained(s, lastHash) && |s| == Capacity
    requires e1.sequence == |s| + 1 && e2.sequence == |KeepLast(s + [e1])| + 1
    ensures e1.sequence == e2.sequence == Capacity + 1
    ensures Issue(Capacity + 1, SequenceGap(Capacity + 2, Capacity + 1))
              in ChainIssues(IntegrityOrder(KeepLast(KeepLast(s + [e1]) + [e2])))
  {
    var s1 := KeepLast(s + [e1]);
    var s2 := KeepLast(s1 + [e2]);
    BoundedBufferRepeatsSequence(s, e1, e2);
    DropOldest(s, e1, 1);
    DropOldest(s1, e2, 2);
    assert SortedBy(s2, false) by {
      forall i, j | 0 <= i < j < |s2| ensures s2[i].sequence <= s2[j].sequence {
        assert s2[i].sequence <= i + 3 && s2[j].sequence >= j + 2;
      }
    }
    SortOfSorted(s2, false);
  }

  /** Appending to a full store numbered from `base` drops its oldest event: what remains is
      numbered from `base + 1`, the appended event last. */
  lemma DropOldest(s: seq<AuditEvent>, e: AuditEvent, base: nat)
    requires |s| == Capacity && forall i :: 0 <= i < |s| ==> s[i].sequence == i + base
    ensures var r := KeepLast(s + [e]);
            && r == s[1..] + [e] && |r| == Capacity && r[Capacity - 1] == e
            && forall i :: 0 <= i < Capacity - 1 ==> r[i].sequence == i + base + 1
  {
    var t := s + [e];
    var r := KeepLast(t);
    assert r == t[1..];
    forall i | 0 <= i < Capacity - 1 ensures r[i].sequence == i + base + 1 {
      assert r[i] == t[i + 1] == s[i + 1];
    }
  }
}
