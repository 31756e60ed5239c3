/** backend/services/auditService.js: the in-process audit service. Its storage object keeps
    the events either in its own fields (in the Vercel environment, bounded to the last 1000)
    or in the module-level variables (elsewhere, unbounded); the module-level functions
    `logEvent`, `getAuditLog`, `verifyIntegrity` and `exportAuditLog` work on that one storage. */
module VercelAudit {
  import opened Common
  import opened AuditRecords
  import opened AuditQuery
  import opened AuditIntegrity
  import opened AuditStats
  import opened AuditCsv

  /** The module-level `auditEvents` and `lastHash` variables. */
  class ModuleLog {
    var auditEvents: seq<AuditEvent>
    var lastHash: Option<string>

    constructor ()
      ensures auditEvents == [] && lastHash == None
    {
      auditEvents := [];
      lastHash := None;
    }
  }

  /** The store after `addEvent(e)`: in the Vercel environment the push is followed by keeping
      the last 1000 events; elsewhere the module-level array only grows. */
  function StoredAfterAdd(isVercelEnv: bool, s: seq<AuditEvent>, e: AuditEvent): seq<AuditEvent> {
    if isVercelEnv then PushBounded(s, e) else s + [e]
  }

  class VercelAuditStorage {
    var events: seq<AuditEvent>
    var lastHash: Option<string>
    const isVercelEnv: bool
    /** The module whose variables this storage uses outside the Vercel environment. */
    const globals: ModuleLog

    /** `isVercelEnv` is `process.env.VERCEL_ENV === '1'`. */
    constructor (vercelEnv: Option<string>, globals: ModuleLog)
      ensures events == [] && lastHash == None
      ensures isVercelEnv == (vercelEnv == Some("1")) && this.globals == globals
    {
      events := [];
      lastHash := None;
      isVercelEnv := vercelEnv == Some("1");
      this.globals := globals;
    }

    /** The events the active store holds. */
    function Events(): seq<AuditEvent>
      reads this, globals
    {
      if isVercelEnv then events else globals.auditEvents
    }

    /** The last hash the active store holds. */
    function LastHash(): Option<string>
      reads this, globals
    {
      if isVercelEnv then lastHash else globals.lastHash
    }

    method GetEvents() returns (r: seq<AuditEvent>)
      ensures r == Events()
    {
      if isVercelEnv {
        return events;
      }
      return globals.auditEvents;
    }

    method AddEvent(event: AuditEvent)
      modifies this, globals
      ensures Events() == StoredAfterAdd(isVercelEnv, old(Events()), event)
      ensures lastHash == old(lastHash) && globals.lastHash == old(globals.lastHash)
      ensures isVercelEnv ==> globals.auditEvents == old(globals.auditEvents)
      ensures !isVercelEnv ==> events == old(events)
    {
      if isVercelEnv {
        events := events + [event];
        if |events| > Capacity {
          events := events[|events| - Capacity..];
        }
      } else {
        globals.auditEvents := globals.auditEvents + [event];
      }
    }

    method GetLastHash() returns (h: Option<string>)
      ensures h == LastHash()
    {
      if isVercelEnv {
        return lastHash;
      }
      return globals.lastHash;
    }

    method SetLastHash(hash: string)
      modifies this, globals
      ensures LastHash() == Some(hash)
      ensures events == old(events) && globals.auditEvents == old(globals.auditEvents)
      ensures isVercelEnv ==> globals.lastHash == old(globals.lastHash)
      ensures !isVercelEnv ==> lastHash == old(lastHash)
    {
      if isVercelEnv {
        lastHash := Some(hash);
      } else {
        globals.lastHash := Some(hash);
      }
    }

    /** Counts over every stored event; `timeRange` takes the first and last stored timestamps. */
    method GetStats() returns (stats: Stats)
      ensures stats == StoredOrderStats(Events())
    {
      var all := GetEvents();
      var eventTypes, users, documentsProcessed := CountEvents(all);
      stats := Stats(|all|, eventTypes, users, documentsProcessed, StoredOrderTimeRange(all));
    }
  }

  /** `logEvent(eventData)`: the new event's sequence is the stored count + 1, its predecessor
      hash the stored last hash (or ""), its hash taken over that last hash, the caller's data
      and the clock; it is added to the store and its hash becomes the last hash. */
  method LogEvent(storage: VercelAuditStorage, input: EventInput, stamp: Stamp, sha256: string -> string)
    returns (event: AuditEvent)
    modifies storage, storage.globals
    ensures var last := old(storage.LastHash());
            event == MakeEvent(input, stamp.id, stamp.timestamp, |old(storage.Events())| + 1, last,
                               GenerateHash(sha256, input, last, stamp.now))
    ensures storage.Events() == StoredAfterAdd(storage.isVercelEnv, old(storage.Events()), event)
    ensures storage.LastHash() == Some(event.hash)
    ensures storage.isVercelEnv ==> storage.globals.auditEvents == old(storage.globals.auditEvents)
    ensures (storage.isVercelEnv ==> |old(storage.Events())| < Capacity) ==>
              storage.Events() == old(storage.Events()) + [event]
    ensures Chained(old(storage.Events()), old(storage.LastHash())) &&
            (storage.isVercelEnv ==> |old(storage.Events())| < Capacity) ==>
              Chained(storage.Events(), storage.LastHash())
  {
    var events := storage.GetEvents();
    var lastEventHash := storage.GetLastHash();
    var sequence := |events| + 1;
    var hash := GenerateHash(sha256, input, lastEventHash, stamp.now);
    event := MakeEvent(input, stamp.id, stamp.timestamp, sequence, lastEventHash, hash);
    storage.AddEvent(event);
    storage.SetLastHash(hash);
    if storage.isVercelEnv ==> |events| < Capacity {
      assert StoredAfterAdd(storage.isVercelEnv, events, event) == events + [event];
      if Chained(events, lastEventHash) {
        LogEventKeepsChain(storage.isVercelEnv, events, lastEventHash, input, stamp, sha256);
      }
    }
  }

  /** `getAuditLog(filters)` as written: when no filter is set, the array being sorted is the
      stored array itself (no `filter` call made a copy), so the store is left newest first;
      the statistics are then taken over that reordered store. */
  method GetAuditLogAsWritten(storage: VercelAuditStorage, filters: Filters)
    returns (logs: seq<AuditEvent>, stats: Stats)
    modifies storage, storage.globals
    ensures logs == Query(old(storage.Events()), filters)
    ensures storage.Events() == (if NoneSet(filters) then logs else old(storage.Events()))
    ensures storage.LastHash() == old(storage.LastHash())
    ensures stats == StoredOrderStats(storage.Events())
  {
    var events := storage.GetEvents();
    logs := Query(events, filters);
    if NoneSet(filters) {
      WhereNoFilters(events, filters);
      if storage.isVercelEnv {
        storage.events := logs;
      } else {
        storage.globals.auditEvents := logs;
      }
    }
    stats := storage.GetStats();
  }

  /** `getAuditLog(filters)` sorting a copy, as evidently intended: the filtered events newest
      first, and the statistics over all stored events (not only the filtered ones). */
  method GetAuditLog(storage: VercelAuditStorage, filters: Filters)
    returns (logs: seq<AuditEvent>, stats: Stats)
    ensures logs == Query(storage.Events(), filters)
    ensures stats == StoredOrderStats(storage.Events())
  {
    var events := storage.GetEvents();
    logs := Query(events, filters);
    stats := storage.GetStats();
  }

  /** `verifyIntegrity()`: the pairwise walk over the stored order; never changes the store. */
  method VerifyIntegrity(storage: VercelAuditStorage) returns (result: Verification)
    ensures result == Summarize(storage.Events(), ChainIssues(storage.Events()))
  {
    var events := storage.GetEvents();
    var issues := CheckChain(events);
    result := Verification(|issues| == 0, issues, |events|);
  }

  /** `exportAuditLog(filters)`: the CSV of the query's result. */
  method ExportAuditLog(storage: VercelAuditStorage, filters: Filters) returns (csv: string)
    ensures csv == Csv(Query(storage.Events(), filters))
  {
    var logs, _ := GetAuditLog(storage, filters);
    csv := Csv(logs);
  }

  /** Two `logEvent` calls on an empty store leave a chained log of exactly those two events. */
  method LogTwo(storage: VercelAuditStorage, in1: EventInput, st1: Stamp, in2: EventInput, st2: Stamp,
                sha256: string -> string)
    modifies storage, storage.globals
    requires storage.Events() == [] && storage.LastHash() == None
    ensures |storage.Events()| == 2 && Chained(storage.Events(), storage.LastHash())
    ensures storage.Events()[0].eventType == in1.eventType && storage.Events()[1].eventType == in2.eventType
    ensures storage.isVercelEnv ==> storage.globals.auditEvents == old(storage.globals.auditEvents)
  {
    assert Chained(storage.Events(), storage.LastHash());
    var e1 := LogEvent(storage, in1, st1, sha256);
    assert storage.Events() == [e1];
    var e2 := LogEvent(storage, in2, st2, sha256);
    assert storage.Events() == [e1, e2];
  }

  /** `initializeDemoData()`: on an empty store, log the two demo events; otherwise nothing. */
  method InitializeDemoData(storage: VercelAuditStorage, first: Stamp, second: Stamp, sha256: string -> string)
    modifies storage, storage.globals
    ensures old(storage.Events()) == [] && old(storage.LastHash()) == None ==>
              && |storage.Events()| == 2 && Chained(storage.Events(), storage.LastHash())
              && storage.Events()[0].eventType == "session_started"
              && storage.Events()[1].eventType == "page_visited"
    ensures old(storage.Events()) != [] ==>
              storage.Events() == old(storage.Events()) && storage.LastHash() == old(storage.LastHash())
    ensures storage.isVercelEnv ==> storage.globals.auditEvents == old(storage.globals.auditEvents)
  {
    var events := storage.GetEvents();
    var lastEventHash := storage.GetLastHash();
    if |events| == 0 {
      if lastEventHash == None {
        LogTwo(storage, DemoEvents[0], first, DemoEvents[1], second, sha256);
      } else {
        var e1 := LogEvent(storage, DemoEvents[0], first, sha256);
        var e2 := LogEvent(storage, DemoEvents[1], second, sha256);
      }
    }
  }

  /** Loading the module: the storage is created, and when `VERCEL_ENV` is set at all the demo
      events are logged. Only the value "1" selects the bounded store, so any other value logs
      them into the module-level variables. */
  method LoadModule(vercelEnv: Option<string>, globals: ModuleLog, first: Stamp, second: Stamp,
                    sha256: string -> string) returns (storage: VercelAuditStorage)
    modifies globals
    ensures fresh(storage) && storage.globals == globals
    ensures storage.isVercelEnv <==> vercelEnv == Some("1")
    ensures Truthy(vercelEnv) && (storage.isVercelEnv || (old(globals.auditEvents) == [] && old(globals.lastHash) == None)) ==>
              |storage.Events()| == 2 && Chained(storage.Events(), storage.LastHash())
    ensures storage.isVercelEnv ==> globals.auditEvents == old(globals.auditEvents)
    ensures !Truthy(vercelEnv) ==> storage.Events() == old(globals.auditEvents) && globals.auditEvents == old(globals.auditEvents)
  {
    storage := new VercelAuditStorage(vercelEnv, globals);
    if Truthy(vercelEnv) {
      InitializeDemoData(storage, first, second, sha256);
    }
  }

  /** One `logEvent` on a chained store keeps it chained unless the bounded store is full;
      so a log built only by `logEvent`, without truncation, verifies valid. */
  lemma LogEventKeepsChain(isVercelEnv: bool, s: seq<AuditEvent>, lastHash: Option<string>,
                           input: EventInput, stamp: Stamp, sha256: string -> string)
    requires Chained(s, lastHash)
    requires isVercelEnv ==> |s| < Capacity
    ensures var hash := GenerateHash(sha256, input, lastHash, stamp.now);
            var e := MakeEvent(input, stamp.id, stamp.timestamp, |s| + 1, lastHash, hash);
            var after := StoredAfterAdd(isVercelEnv, s, e);
            && after == s + [e]
            && Chained(after, Some(hash))
            && ChainIssues(after) == []
  {
    var hash := GenerateHash(sha256, input, lastHash, stamp.now);
    var e := MakeEvent(input, stamp.id, stamp.timestamp, |s| + 1, lastHash, hash);
    AppendKeepsChained(s, lastHash, input, stamp.id, stamp.timestamp, hash);
    assert StoredAfterAdd(isVercelEnv, s, e) == s + [e];
    ChainedIsValid(s + [e], Some(hash));
  }

  /** The as-written query leaves a chained store of two or more events newest first, so a later
      `verifyIntegrity` reports a sequence gap at the second stored position although nothing was
      tampered with. */
  lemma QueryWithoutFiltersBreaksIntegrity(s: seq<AuditEvent>, lastHash: Option<string>, filters: Filters)
    requires Chained(s, lastHash) && |s| >= 2 && NoneSet(filters)
    ensures var after := Query(s, filters);
            && after == Reverse(s)
            && Issue(|s| - 1, SequenceGap(|s| + 1, |s| - 1)) in ChainIssues(after)
  {
    WhereNoFilters(s, filters);
    SortDescendingReverses(s);
    var after := Reverse(s);
    assert after[0] == s[|s| - 1] && after[1] == s[|s| - 2];
    GapIsReported(after, 1);
  }

  /** The corrected query on a chained store: the result is strictly newest first and holds
      exactly the stored events that pass the filters. */
  lemma QueryIsNewestFirst(s: seq<AuditEvent>, lastHash: Option<string>, filters: Filters, e: AuditEvent)
    requires Chained(s, lastHash)
    ensures StrictlySortedBy(Query(s, filters), true)
    ensures e in Query(s, filters) <==> e in s && Matches(e, filters)
  {
    assert DistinctSequences(s);
    WhereDistinct(s, filters);
    SortStrict(Where(s, filters), true);
    WhereMembership(s, filters, e);
    assert multiset(Query(s, filters)) == multiset(Where(s, filters));
    assert e in Query(s, filters) <==> e in multiset(Query(s, filters));
  }
}
