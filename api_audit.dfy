/** api/index.js: the serverless API's own audit service, a newest-first list of at most 1000
    events with a copying filter, and the page arithmetic of the events route. */
module ApiAudit {
  import opened Common
  import opened Json

  /** What a caller passes to `logEvent`: `None` is a field it does not supply. The route always
      supplies the six request fields and never `id` or `timestamp`; other callers may. */
  datatype ApiInput = ApiInput(
    id: Option<string>,
    timestamp: Option<int>,
    eventType: Option<string>,
    userId: Option<string>,
    action: Option<string>,
    details: Option<Json>,
    ipAddress: Option<string>,
    userAgent: Option<string>)

  datatype ApiEvent = ApiEvent(
    id: string,
    timestamp: int,
    eventType: Option<string>,
    userId: Option<string>,
    action: Option<string>,
    details: Option<Json>,
    ipAddress: Option<string>,
    userAgent: Option<string>)

  /** The list keeps at most this many events. */
  const Capacity: nat := 1000

  /** `{ id: Date.now().toString(), timestamp: new Date().toISOString(), ...eventData }`: the
      generated fields come first, so a caller's own `id` or `timestamp` replaces them. */
  function Spread(input: ApiInput, now: int, timestamp: int): (e: ApiEvent)
    ensures e.id == if input.id.Some? then input.id.value else IntToDecimal(now)
    ensures e.timestamp == if input.timestamp.Some? then input.timestamp.value else timestamp
    ensures e.eventType == input.eventType && e.userId == input.userId && e.action == input.action
    ensures e.details == input.details && e.ipAddress == input.ipAddress && e.userAgent == input.userAgent
  {
    ApiEvent(
      match input.id case Some(v) => v case None => IntToDecimal(now),
      match input.timestamp case Some(v) => v case None => timestamp,
      input.eventType, input.userId, input.action, input.details, input.ipAddress, input.userAgent)
  }

  /** `unshift(event)`, then `slice(0, 1000)` when the list is longer. */
  function Push(s: seq<ApiEvent>, e: ApiEvent): (r: seq<ApiEvent>)
    ensures |r| == if |s| < Capacity then |s| + 1 else Capacity
    ensures r[0] == e && r[1..] == s[..|r| - 1]
  {
    var t := [e] + s;
    if |t| > Capacity then t[..Capacity] else t
  }

  /** The list after logging `es` in order, starting from the empty list. */
  function Replay(es: seq<ApiEvent>): seq<ApiEvent> {
    if es == [] then [] else Push(Replay(es[..|es| - 1]), es[|es| - 1])
  }

  /** Logging is newest first and keeps the 1000 most recent: the list holds the last events
      logged, the latest at index 0. */
  lemma {:induction false} ReplayKeepsNewest(es: seq<ApiEvent>)
    ensures |Replay(es)| == if |es| < Capacity then |es| else Capacity
    ensures forall i :: 0 <= i < |Replay(es)| ==> Replay(es)[i] == es[|es| - 1 - i]
  {
    if es != [] {
      var init := es[..|es| - 1];
      ReplayKeepsNewest(init);
      var r := Replay(es);
      forall i | 0 <= i < |r| ensures r[i] == es[|es| - 1 - i] {
        if i > 0 {
          assert r[i] == r[1..][i - 1] == Replay(init)[i - 1];
        }
      }
    }
  }

  /** The filters of `getEvents`; dates are already parsed to milliseconds. */
  datatype ApiFilters = ApiFilters(
    userId: Option<string>,
    eventType: Option<string>,
    startDate: Option<int>,
    endDate: Option<int>)

  /** Exact user id and event type, inclusive date bounds; there is no document filter. */
  predicate ApiMatches(e: ApiEvent, f: ApiFilters) {
    && (Truthy(f.userId) ==> e.userId == f.userId)
    && (Truthy(f.eventType) ==> e.eventType == f.eventType)
    && (f.startDate.Some? ==> e.timestamp >= f.startDate.value)
    && (f.endDate.Some? ==> e.timestamp <= f.endDate.value)
  }

  /** The filter chain over a copy of the list, in its stored order. */
  function ApiWhere(s: seq<ApiEvent>, f: ApiFilters): (r: seq<ApiEvent>)
    ensures |r| <= |s|
  {
    if s == [] then []
    else if ApiMatches(s[0], f) then [s[0]] + ApiWhere(s[1..], f)
    else ApiWhere(s[1..], f)
  }

  lemma {:induction false} ApiWhereMembership(s: seq<ApiEvent>, f: ApiFilters, e: ApiEvent)
    ensures e in ApiWhere(s, f) <==> e in s && ApiMatches(e, f)
  {
    if s != [] {
      ApiWhereMembership(s[1..], f, e);
      assert s == [s[0]] + s[1..];
    }
  }

  lemma {:induction false} ApiWhereNoFilters(s: seq<ApiEvent>, f: ApiFilters)
    requires !Truthy(f.userId) && !Truthy(f.eventType) && f.startDate.None? && f.endDate.None?
    ensures ApiWhere(s, f) == s
  {
    if s != [] {
      ApiWhereNoFilters(s[1..], f);
      assert s == [s[0]] + s[1..];
    }
  }

  /** The stored order is kept: filtering a concatenation concatenates the filtered parts. */
  lemma {:induction false} ApiWhereAppend(s1: seq<ApiEvent>, s2: seq<ApiEvent>, f: ApiFilters)
    ensures ApiWhere(s1 + s2, f) == ApiWhere(s1, f) + ApiWhere(s2, f)
  {
    if s1 != [] {
      ApiWhereAppend(s1[1..], s2, f);
      assert (s1 + s2)[1..] == s1[1..] + s2;
    } else {
      assert s1 + s2 == s2;
    }
  }

  class AuditService {
    var events: seq<ApiEvent>

    constructor ()
      ensures events == []
    {
      events := [];
    }

    method LogEvent(input: ApiInput, now: int, timestamp: int) returns (event: ApiEvent)
      modifies this
      ensures event == Spread(input, now, timestamp)
      ensures events == Push(old(events), event)
    {
      event := Spread(input, now, timestamp);
      events := [event] + events;
      if |events| > Capacity {
        events := events[..Capacity];
      }
    }

    /** `getEvents(filters)`: a filtered copy; the list itself is not changed. */
    method GetEvents(filters: ApiFilters) returns (r: seq<ApiEvent>)
      ensures r == ApiWhere(events, filters)
    {
      r := ApiWhere(events, filters);
    }
  }

  /** An index as `Array.prototype.slice` reads it: a negative index counts from the end, and
      every index is clamped to the list. */
  function SliceIndex(i: int, n: nat): (k: nat)
    ensures k <= n
    ensures 0 <= i ==> k == if i < n then i else n
    ensures i < 0 ==> k == if n + i < 0 then 0 else n + i
  {
    if i < 0 then (if n + i < 0 then 0 else n + i) else if i > n then n else i
  }

  /** `s.slice(start, end)`: empty when the clamped end is not after the clamped start. */
  function JsSlice<T>(s: seq<T>, start: int, end: int): seq<T> {
    var a := SliceIndex(start, |s|);
    var b := SliceIndex(end, |s|);
    if a < b then s[a..b] else []
  }

  /** `Math.ceil(total / limit)`; `None` stands for the non-finite quotient of a zero limit,
      which the JSON response renders as `null`. */
  function PageCount(total: nat, limit: int): Option<int> {
    if limit == 0 then None
    else if limit > 0 then Some((total + limit - 1) / limit)
    else Some(-(total / -limit))
  }

  datatype Pagination = Pagination(page: int, limit: int, total: nat, pages: Option<int>)

  datatype Page = Page(events: seq<ApiEvent>, pagination: Pagination)

  /** The events route after filtering: `page` and `limit` as `parseInt` read them, the window
      `[(page - 1) * limit, (page - 1) * limit + limit)` sliced out, and the totals. */
  function Paginate(events: seq<ApiEvent>, page: int, limit: int): Page {
    var start := (page - 1) * limit;
    Page(JsSlice(events, start, start + limit), Pagination(page, limit, |events|, PageCount(|events|, limit)))
  }

  /** `GET /api/audit/events`: the filtered list, one page of it, and the page arithmetic. */
  method EventsRoute(service: AuditService, filters: ApiFilters, page: Option<int>, limit: Option<int>)
    returns (r: Page)
    ensures page.None? && limit.None? ==> r == Paginate(ApiWhere(service.events, filters), 1, 50)
    ensures r == Paginate(ApiWhere(service.events, filters), if page.Some? then page.value else 1,
                          if limit.Some? then limit.value else 50)
    ensures r.pagination.page == (if page.Some? then page.value else 1)
    ensures r.pagination.limit == (if limit.Some? then limit.value else 50)
  {
    var events := service.GetEvents(filters);
    var p := if page.Some? then page.value else 1;
    var l := if limit.Some? then limit.value else 50;
    r := Paginate(events, p, l);
  }

  /** A page from 1 on with a positive size is the window of the filtered list it names,
      clamped to the list, and holds at most `limit` events; `total` is the filtered count. */
  lemma PageWindow(events: seq<ApiEvent>, page: int, limit: int)
    requires page >= 1 && limit >= 1
    ensures var n := |events|;
            var start := (page - 1) * limit;
            var r := Paginate(events, page, limit);
            && start >= 0
            && r.events == events[(if start < n then start else n)..(if start + limit < n then start + limit else n)]
            && |r.events| <= limit
            && r.pagination.total == n
  {
    assert (page - 1) * limit >= 0;
  }

  /** With a positive size, `pages` is the least number of pages that holds every event. */
  lemma PageCountIsCeiling(total: nat, limit: int)
    requires limit >= 1
    ensures var p := PageCount(total, limit);
            && p.Some? && p.value >= 0
            && p.value * limit >= total
            && (p.value == 0 || (p.value - 1) * limit < total)
  {
    var k := (total + limit - 1) / limit;
    assert k * limit <= total + limit - 1 < (k + 1) * limit;
  }

  lemma MultiplyMonotone(a: int, b: int, c: int)
    requires a <= b && c >= 0
    ensures a * c <= b * c
  {
    assert b * c - a * c == (b - a) * c;
  }

  /** Position `m` of page `q + 1` is the event at index `q * limit + m`, and that page is
      within the page count. */
  lemma PositionOnPage(events: seq<ApiEvent>, limit: int, q: nat, m: nat)
    requires limit >= 1 && m < limit && q * limit + m < |events|
    ensures var r := Paginate(events, q + 1, limit);
            && m < |r.events| && r.events[m] == events[q * limit + m]
            && r.pagination.pages.Some? && q + 1 <= r.pagination.pages.value
  {
    var n := |events|;
    var start := q * limit;
    assert (q + 1 - 1) * limit == start;
    var b := SliceIndex(start + limit, n);
    assert SliceIndex(start, n) == start && start + m < b;
    PageCountIsCeiling(n, limit);
    var k := PageCount(n, limit).value;
    if k <= q {
      MultiplyMonotone(k, q, limit);
      assert false;
    }
  }

  /** With a positive size, the event at index `i` is on page `i / limit + 1`, at position
      `i % limit`, and that page is within the page count. */
  lemma EveryEventOnItsPage(events: seq<ApiEvent>, limit: int, i: int)
    requires limit >= 1 && 0 <= i < |events|
    ensures var page := i / limit + 1;
            var r := Paginate(events, page, limit);
            && i % limit < |r.events| && r.events[i % limit] == events[i]
            && r.pagination.pages.Some? && 1 <= page <= r.pagination.pages.value
  {
    DivMod(i, limit);
    PositionOnPage(events, limit, i / limit, i % limit);
  }

  lemma DivMod(i: int, d: int)
    requires d >= 1 && 0 <= i
    ensures i == (i / d) * d + i % d && 0 <= i % d < d && i / d >= 0
  {
  }

  /** Page 0 is empty, but a page number below 0 is not empty in general: its window lies
      before index 0 and `slice` counts it from the end of the list. */
  lemma PageBeforeFirstCountsFromEnd(events: seq<ApiEvent>, page: int, limit: int)
    requires page <= 0 && limit >= 1
    ensures page == 0 ==> Paginate(events, page, limit).events == []
    ensures var n := |events|;
            var start := (page - 1) * limit;
            var a := if n + start < 0 then 0 else n + start;
            var b := if n + start + limit < 0 then 0 else n + start + limit;
            page < 0 ==> Paginate(events, page, limit).events == (if a < b then events[a..b] else [])
  {
    assert (page - 1) * limit == page * limit - limit;
    if page < 0 {
      MultiplyMonotone(page, -1, limit);
    }
  }

  /** A zero size gives no events and a page count that is not a number. */
  lemma ZeroLimit(events: seq<ApiEvent>, page: int)
    ensures Paginate(events, page, 0).events == [] && Paginate(events, page, 0).pagination.pages.None?
  {
  }
}
