# Audit trail of the document-anonymization service, in Dafny

The repository keeps an append-only audit trail. Each event gets a `sequence`, its predecessor's
hash as `previousHash`, and a hash of its own, taken over the last hash, the caller's event data
and the clock. There are three variants of the trail, plus a small front-end user store:

- `backend/services/auditService.js`, the main in-process service.
  - A storage object keeps the events in its own bounded buffer of 1000 events in the Vercel
    environment, and in module-level variables elsewhere.
  - It has `logEvent`, `getAuditLog` (filter and sort newest first), `getStats`,
    `verifyIntegrity` (walk adjacent pairs) and `exportAuditLog` (CSV).
- `backend/services/supabaseAuditService.js`, the database-backed service.
  - Only its in-memory fallback is modelled: a bounded buffer of the last 1000 events.
  - It has the same operations, and it reads and sorts copies.
- `api/index.js`, the serverless API's own simpler service.
  - It is a newest-first list of at most 1000 events, with a copying filter.
  - The events route slices the filtered list into pages.
- `src/store/userStore.ts`, the front end's user store.
  - It maps an identity-provider account to an application user.
  - It answers role questions about the current user.
  - It switches, signs in and signs out users.

There is one Dafny module per concern:

- `Common`: an optional value, JavaScript string truthiness, `includes`, `join`/`split`, decimal
  rendering, CSV quote doubling.
- `Json`: `details` values and `JSON.stringify`.
- `AuditRecords`: the event, its defaults, the hashed text, the 1000-event buffer, and the
  chain invariant `Chained`.
- `AuditQuery`: filters and the sort by sequence.
- `AuditIntegrity`: the pairwise integrity walk.
- `AuditStats`: counters and time ranges.
- `AuditCsv`: the export text.
- `VercelAudit`: `auditService.js`.
- `SupabaseAudit`: the fallback of `supabaseAuditService.js`.
- `ApiAudit`: `api/index.js`.
- `UserStore`: `userStore.ts`.

State the source changes in place is modelled with classes:

- `VercelAudit.ModuleLog` holds the module-level variables.
- `VercelAudit.VercelAuditStorage`, `SupabaseAudit.SupabaseAuditService`, `ApiAudit.AuditService`
  and `UserStore.UserState` hold the rest.

Loops become methods proved against functions: the integrity walk, the statistics counters and
the per-key counters of the fallback service. The JavaScript semantics the code relies on are
written out:

- `||` defaults treat `""` as missing.
- A `null` last hash is passed explicitly, so the hashed text starts with `null` and the parameter
  default `''` never applies.
- `slice` clamps its indices and counts negative ones from the end.
- `Math.ceil(n / 0)` is `Infinity` for n > 0 and `NaN` for n = 0; both are written as `null` in
  the JSON answer, so a zero limit gives no page count.
- Object spread lets caller fields replace generated ones.

SHA-256 is a parameter `sha256: string -> string`. The values drawn from the environment
(`crypto.randomUUID()`, `new Date()`, `Date.now()`, new session ids, the identity provider's
answers) are parameters as well. Timestamps are integers (milliseconds).

## Model

| member | source | states |
|---|---|---|
| Common.OrElse | backend/services/auditService.js:135-140 | `x \|\| d` on a possibly missing text gives `x` exactly when it is present and non-empty, else the default |
| Common.Includes | backend/services/auditService.js:162 | `s.includes(sub)` holds exactly when `sub` occurs in `s` at some position |
| Common.UndoubleDoubleQuotes | backend/services/auditService.js:265 | doubling every `"` can be undone: undoubling the doubled text gives back the original |
| Json.Stringify | backend/services/auditService.js:114 | the `JSON.stringify` text contains no control character (in particular no line break), because every one is escaped |
| AuditRecords.DetailsOrEmpty | backend/services/auditService.js:134 | `details \|\| {}`: truthy details are kept, missing or falsy ones become the empty object |
| AuditRecords.DocumentOrNull | backend/services/auditService.js:133 | `documentId \|\| null`: a non-empty document id is kept, otherwise null |
| AuditRecords.HashTextDependsOnClock | backend/services/auditService.js:113-116 | the hashed text contains the clock reading: the same data on the same predecessor hash gives the same text only at the same reading |
| AuditRecords.MakeEvent | backend/services/auditService.js:126-142 | the new event carries the given id, timestamp, sequence and hash, and the caller's type, action and user. `previousHash` is the stored last hash, or `""` when there is none |
| AuditRecords.MakeEventDefaults | backend/services/auditService.js:133-141 | each optional caller field is kept when truthy; a missing or falsy one (`""`, or falsy details) becomes null for the document id, `{}` for details, and `'unknown'` for the session id and both metadata fields |
| AuditRecords.KeepLast | backend/services/auditService.js:26-31 | the buffer after a push keeps min(n, 1000) events, and they are the most recent ones in their original order |
| AuditRecords.AppendKeepsChained | backend/services/auditService.js:118-145 | appending the event `logEvent` builds (sequence = count + 1, stored last hash) and recording its hash keeps the log chained; the new event's `previousHash` is the previous newest event's hash |
| AuditQuery.WhereMembership | backend/services/auditService.js:160-179 | an event is in the filtered list exactly when it is stored and meets every set filter: `userId` substring, exact `eventType` and `documentId`, inclusive date bounds |
| AuditQuery.WhereNoFilters | backend/services/auditService.js:160-179 | filters that are not set impose nothing |
| AuditQuery.WhereAppend | backend/services/auditService.js:160-179 | filtering keeps the stored order: the filtered concatenation is the concatenation of the filtered parts |
| AuditQuery.Insert | backend/services/auditService.js:182 | one insertion step of the sort adds exactly the new event |
| AuditQuery.SortBySequence | backend/services/auditService.js:182 | the sort keeps exactly the same events (same multiset) |
| AuditQuery.SortIsSorted | backend/services/auditService.js:182 | the sort's result is ordered by sequence (newest first or oldest first) and is a permutation of its input |
| AuditQuery.WhereDistinct | backend/services/auditService.js:160-179 | filtering keeps every sequence number distinct |
| AuditQuery.SortStrict | backend/services/auditService.js:182 | when no two events share a sequence, the sorted order is strict |
| AuditQuery.SortOfSorted | backend/services/supabaseAuditService.js:244 | an already ordered list is left exactly as it is by the sort |
| AuditQuery.SortDescendingReverses | backend/services/auditService.js:182 | sorting a strictly ascending log newest first reverses it |
| AuditIntegrity.CheckChain | backend/services/auditService.js:199-224 | the loop's issue list is exactly the pairwise issues of the events in their given order: a gap issue, then a link issue, for each pair that has them |
| AuditIntegrity.Summarize | backend/services/auditService.js:226-230 | `isValid` holds exactly when there are no issues; `totalEvents` is the number of events walked |
| AuditIntegrity.NoIssuesIffLinked | backend/services/auditService.js:201-230 | the walk reports nothing exactly when every event has its predecessor's sequence + 1 and links to its predecessor's hash |
| AuditIntegrity.GapIsReported | backend/services/auditService.js:205-213 | every adjacent pair with non-consecutive sequences is reported as "Sequence gap detected" with expected and actual sequence |
| AuditIntegrity.BreakIsReported | backend/services/auditService.js:215-223 | every adjacent pair whose link does not match is reported as "Hash chain broken" with expected and actual hash |
| AuditIntegrity.IssuesAreReal | backend/services/auditService.js:201-224 | every reported issue describes a real defect of some adjacent pair |
| AuditIntegrity.ChainedIsValid | backend/services/auditService.js:118-145 | a log built by `logEvent` alone, without truncation, verifies valid |
| AuditIntegrity.BoundedBufferRepeatsSequence | backend/services/supabaseAuditService.js:86-88 | once a 1000-event buffer that numbers by its length + 1 is full, the next two events both get sequence 1001, and the walk reports the gap |
| AuditStats.EventTypes | backend/services/auditService.js:60 | the event-type column of the events, in order |
| AuditStats.UserIds | backend/services/auditService.js:63 | the user-id column of the events, in order |
| AuditStats.CountProcessed | backend/services/auditService.js:66-68 | the processed-documents count never exceeds the number of events |
| AuditStats.CountEvents | backend/services/auditService.js:58-69 | the `forEach` loop computes exactly the per-type and per-user counters and the count of events whose type contains `upload_completed` or `masking_succeeded` |
| AuditStats.StoredOrderTimeRange | backend/services/auditService.js:76-79 | `timeRange` is the first and last stored timestamps, or null for both on an empty log |
| AuditStats.NewestFirstTimeRange | backend/services/supabaseAuditService.js:214-217 | `first` is read from the last element and `last` from the first, or null for both on an empty list |
| AuditStats.TallyCounts | backend/services/auditService.js:60-63 | a counter holds exactly the keys that occur, each with its number of occurrences |
| AuditStats.TallySum | backend/services/auditService.js:58-75 | the counts of a counter add up to the number of events |
| AuditStats.TypeFilterMatchesCount | backend/services/auditService.js:165-167 | filtering by one event type returns as many events as that type's counter |
| AuditStats.CountProcessedAppend | backend/services/auditService.js:66-68 | the processed-documents count is additive over a split of the events |
| AuditStats.StatsAddUp | backend/services/auditService.js:71-80 | `totalEvents` is the stored count, and the `eventTypes` and `users` counts each add up to it. A type is counted exactly when some event has it, as often as events have it |
| AuditCsv.Rows | backend/services/auditService.js:258-270 | one row per event, in the order of the filtered list |
| AuditCsv.RowShape | backend/services/auditService.js:258-270 | a row has one field per header (11). The details field is quoted, and undoing the quote doubling gives back exactly the JSON text of the details |
| AuditCsv.RowIsOneLine | backend/services/auditService.js:258-270 | a row contains no line break when the event's texts contain none |
| AuditCsv.ExportLineCount | backend/services/auditService.js:256-273 | when no event's text holds a line break (`SingleLine`), the export splits into exactly the header line followed by one line per filtered event: 1 + n lines |
| VercelAudit.ModuleLog.constructor | backend/services/auditService.js:5-6 | the module-level log starts empty with a null last hash |
| VercelAudit.VercelAuditStorage.constructor | backend/services/auditService.js:10-14 | the storage starts empty; it uses its own buffer exactly when `VERCEL_ENV` is `'1'` |
| VercelAudit.VercelAuditStorage.GetEvents | backend/services/auditService.js:16-23 | returns the active store's events |
| VercelAudit.VercelAuditStorage.AddEvent | backend/services/auditService.js:25-35 | in the Vercel environment, pushes and keeps the last 1000; elsewhere pushes onto the module-level log; nothing else changes |
| VercelAudit.VercelAuditStorage.GetLastHash | backend/services/auditService.js:37-42 | returns the active store's last hash |
| VercelAudit.VercelAuditStorage.SetLastHash | backend/services/auditService.js:44-50 | sets the active store's last hash and nothing else |
| VercelAudit.VercelAuditStorage.GetStats | backend/services/auditService.js:52-81 | statistics over all stored events, with the time range in stored order |
| VercelAudit.LogEvent | backend/services/auditService.js:118-154 | the new event has sequence = count + 1 and `previousHash` = stored last hash (or `""`); its hash is taken over that last hash, the data and the clock. It is added to the store, and its hash becomes the last hash. On a chained store that is not full, the store grows by exactly that event and stays chained |
| VercelAudit.GetAuditLogAsWritten | backend/services/auditService.js:156-194 | returns the filtered events newest first, but with no filter set it leaves the store itself sorted newest first, and the statistics are taken over that reordered store |
| VercelAudit.GetAuditLog | backend/services/auditService.js:156-194 | returns the filtered events newest first and the statistics over all stored events (not the filtered ones); the store is not changed |
| VercelAudit.VerifyIntegrity | backend/services/auditService.js:196-235 | the pairwise walk over the stored order, summarized; the store is not changed |
| VercelAudit.ExportAuditLog | backend/services/auditService.js:238-278 | the CSV text of the query's result |
| VercelAudit.InitializeDemoData | backend/services/auditService.js:281-309 | on an empty store, logs the two demo events, leaving a chained log of two; otherwise changes nothing |
| VercelAudit.LoadModule | backend/services/auditService.js:311-314 | the demo events are logged whenever `VERCEL_ENV` is set to a non-empty value; only `'1'` selects the bounded buffer, so other values log them into the module-level log |
| VercelAudit.LogEventKeepsChain | backend/services/auditService.js:118-145 | one `logEvent` on a chained store that is not full appends without truncation, keeps the log chained and leaves it with no integrity issues |
| VercelAudit.LogTwo | backend/services/auditService.js:305-307 | the demo loop's two `logEvent` calls on an empty store leave a chained log of exactly those two events, in order |
| VercelAudit.QueryWithoutFiltersBreaksIntegrity | backend/services/auditService.js:158-182 | on a chained store of two or more events, the unfiltered query is the store reversed, and a walk over it reports a sequence gap |
| VercelAudit.QueryIsNewestFirst | backend/services/auditService.js:158-182 | on a chained store, the query's result is strictly descending by sequence and holds exactly the stored events that meet the filters |
| SupabaseAudit.ColumnKey | backend/services/supabaseAuditService.js:198-202 | the counter key of `event.event_type \|\| event.eventType`: the value itself, or `"undefined"` when it is empty, so never empty |
| SupabaseAudit.ColumnKeys | backend/services/supabaseAuditService.js:198-202 | the counter key of each event in order |
| SupabaseAudit.SupabaseAuditService.constructor | backend/services/supabaseAuditService.js:28-32 | without credentials the service starts with no events and a null last hash |
| SupabaseAudit.SupabaseAuditService.GetLastHash | backend/services/supabaseAuditService.js:316-334 | the fallback returns the stored last hash |
| SupabaseAudit.SupabaseAuditService.GetNextSequence | backend/services/supabaseAuditService.js:336-354 | the fallback's next sequence is the number of stored events + 1 |
| SupabaseAudit.SupabaseAuditService.GetEventCount | backend/services/supabaseAuditService.js:393-408 | the fallback's count is the number of stored events |
| SupabaseAudit.SupabaseAuditService.LogEvent | backend/services/supabaseAuditService.js:44-92 | the new event has sequence = count + 1 and `previous_hash` = `lastHash \|\| ''`. The store becomes the last 1000 events after the push, and the last hash is the new event's hash. On a chained buffer that is not full, it grows by exactly that event and stays chained |
| SupabaseAudit.SupabaseAuditService.GetStats | backend/services/supabaseAuditService.js:178-218 | the statistics of the given list (an empty list counts as given), or of the stored events when none is given |
| SupabaseAudit.CountColumns | backend/services/supabaseAuditService.js:197-207 | the `forEach` loop computes exactly the counters keyed by `event_type \|\| eventType` and `user_id \|\| userId`, and the processed count |
| SupabaseAudit.SupabaseAuditService.GetAuditLog | backend/services/supabaseAuditService.js:139-171 | the filtered copy sorted newest first, with statistics over that filtered list; the store is not changed |
| SupabaseAudit.SupabaseAuditService.VerifyIntegrity | backend/services/supabaseAuditService.js:243-276 | the pairwise walk over a copy sorted by ascending sequence; the store is not changed |
| SupabaseAudit.SupabaseAuditService.ExportAuditLog | backend/services/supabaseAuditService.js:283-309 | the CSV text of the filtered list, newest first |
| SupabaseAudit.SupabaseAuditService.InitializeDemoData | backend/services/supabaseAuditService.js:356-391 | on an empty store, logs the two demo events, leaving a chained log of two; otherwise changes nothing |
| SupabaseAudit.LogTwo | backend/services/supabaseAuditService.js:382-384 | the demo loop's two `logEvent` calls on an empty service leave a chained log of exactly those two events, in order |
| SupabaseAudit.LoggingKeepsChain | backend/services/supabaseAuditService.js:44-92 | one `logEvent` on a chained buffer that is not full appends without truncation and keeps the log chained |
| SupabaseAudit.ColumnStatsAgree | backend/services/supabaseAuditService.js:193-207 | when no event has an empty type or user id, the column-keyed statistics are the plain newest-first statistics |
| SupabaseAudit.ColumnStatsAddUp | backend/services/supabaseAuditService.js:193-213 | the per-type and per-user counts add up to `totalEvents`, no key is empty, and a key is counted exactly when some event has it |
| SupabaseAudit.UnfilteredTimeRange | backend/services/supabaseAuditService.js:141-166 | on a chained log, the unfiltered query is the store reversed, and its time range is the first and last stored timestamps |
| SupabaseAudit.OverflowIsReported | backend/services/supabaseAuditService.js:86-88 | sorting before the walk does not hide the overflow: once 1000 events are stored, the next two both get sequence 1001 and `verifyIntegrity` reports a sequence gap |
| SupabaseAudit.DropOldest | backend/services/supabaseAuditService.js:86-88 | pushing onto a full buffer gives exactly the old buffer without its oldest event, followed by the new one; the remaining sequences are those of the old buffer shifted by one |
| ApiAudit.Spread | api/index.js:88-92 | the event holds every caller field; a caller's own `id` or `timestamp` replaces the generated one |
| ApiAudit.Push | api/index.js:94-97 | the new event is at index 0, and the rest is the previous list cut so that at most 1000 remain |
| ApiAudit.ReplayKeepsNewest | api/index.js:94-97 | after any run of logging, the list holds the min(n, 1000) most recent events, newest first |
| ApiAudit.ApiWhereMembership | api/index.js:103-127 | an event is returned exactly when it is stored and meets every set filter: exact `userId` and `eventType`, inclusive date bounds |
| ApiAudit.ApiWhereNoFilters | api/index.js:106-124 | unset filters impose nothing |
| ApiAudit.ApiWhereAppend | api/index.js:103-127 | filtering keeps the stored order |
| ApiAudit.AuditService.constructor | api/index.js:83-85 | the list starts empty |
| ApiAudit.AuditService.LogEvent | api/index.js:87-101 | the stored list becomes the new event followed by the previous list, cut to 1000 |
| ApiAudit.AuditService.GetEvents | api/index.js:103-127 | returns the filtered copy; the list is not changed |
| ApiAudit.SliceIndex | api/index.js:239 | the index as `slice` reads it: clamped to the list, negative indices counted from the end |
| ApiAudit.EventsRoute | api/index.js:228-249 | the route's page is the pagination of the filtered list, with `page` 1 and `limit` 50 when the query leaves them out |
| ApiAudit.PageWindow | api/index.js:237-239 | for page ≥ 1 and limit ≥ 1, the page is the window `[(p-1)*l, (p-1)*l + l)` of the filtered list, clamped, with at most `l` events; `total` is the filtered count |
| ApiAudit.PageCountIsCeiling | api/index.js:247 | for limit ≥ 1, `pages` is the least count of pages that holds all events: `pages*l ≥ total` and `(pages-1)*l < total` |
| ApiAudit.PositionOnPage | api/index.js:237-247 | position `m` of page `q+1` is the event at index `q*l + m`, and that page is within `pages` |
| ApiAudit.EveryEventOnItsPage | api/index.js:237-247 | every event at index `i` is found on page `i/l + 1` at position `i%l`, within `pages` |
| ApiAudit.PageBeforeFirstCountsFromEnd | api/index.js:237-239 | page 0 is empty, but a negative page is a window counted from the end of the list |
| UserStore.MapRole | src/store/userStore.ts:80-85 | the role is admin exactly when the provider roles contain `admin`; otherwise user exactly when they contain `user` or `woo-coordinator`; otherwise viewer |
| UserStore.MapKeycloakUserToUser | src/store/userStore.ts:78-97 | name is first name, one space, last name; organization is the municipality; the role follows `MapRole`; the role list is copied unchanged |
| UserStore.Find | src/store/userStore.ts:117 | a found user is a demo user with that id; nothing is found exactly when no user has it |
| UserStore.FindIsFirst | src/store/userStore.ts:117 | the user found is the first one with that id |
| UserStore.SomeIn | src/store/userStore.ts:194 | `roles.some(r => owned.includes(r))` holds exactly when some asked role is owned |
| UserStore.UserState.constructor | src/store/userStore.ts:102-106 | the store starts with nobody signed in, not initialized, and a fresh session id |
| UserStore.UserState.HasRole | src/store/userStore.ts:186-189 | false without a current user or role list, otherwise membership of the role |
| UserStore.UserState.HasAnyRole | src/store/userStore.ts:191-195 | true exactly when some asked role satisfies `hasRole`, so an empty list gives false |
| UserStore.UserState.SetCurrentUser | src/store/userStore.ts:108-114 | the user becomes current and authenticated, with a new session id |
| UserStore.UserState.SwitchUser | src/store/userStore.ts:116-121 | a known demo id makes that account current and authenticated; an unknown id changes nothing |
| UserStore.UserState.Logout | src/store/userStore.ts:123-134 | afterwards nobody is current, not authenticated, with a new session id |
| UserStore.UserState.GenerateSessionId | src/store/userStore.ts:136-140 | returns the new session id and stores it; nothing else changes |
| UserStore.UserState.InitKeycloak | src/store/userStore.ts:142-165 | the store is initialized in every case; an active session that reports an account signs it in with a new session id; otherwise the user is unchanged |
| UserStore.UserState.LoginWithKeycloak | src/store/userStore.ts:167-184 | a failed login is passed on with the state unchanged; a login that reports an account signs that account in |
| UserStore.DemoRolesAgreeWithMapping | src/store/userStore.ts:35-85 | each demo account's declared role is the one the provider mapping gives its role list, and `admin-1` is the only administrator |
| UserStore.DemoIdsAreFound | src/store/userStore.ts:35-76 | switching to any demo id finds exactly that demo account |

## Left out

- The database branches of `supabaseAuditService.js` (every `this.supabase` path) are not modelled. They are network calls whose ordering and `ilike` matching live in an external library.
- winston logging, the log file transport, Express routing, middleware and rate limiting are not modelled. The `POST /api/audit/log` and projects routes only build the caller fields `ApiAudit.ApiInput` stands for.
- SHA-256, `crypto.randomUUID()`, `new Date()`, `Date.now()` and new session ids are parameters: there is no real hash and no clock.
- Timestamps are integers. The ISO text of `toISOString()` is not modelled: the CSV renders a timestamp as its decimal value, and date filters compare integers. Unparseable dates (`Invalid Date`) are not modelled.
- JSON numbers are integers only; floating point is not modelled.
- The hashed JSON lists the caller's fields in one fixed order. JavaScript uses the order in which the caller wrote the keys.
- A caller field whose value is `undefined` is treated as missing. In the spread of `api/index.js`, a present-but-`undefined` `id` or `timestamp` would still replace the generated one.
- `parseInt` of the page and limit query values is taken as already done. `NaN` pages are not modelled.
- The error path of the database-backed `getStats` (all-zero statistics) is not modelled. In the fallback the counting cannot throw.
- The camelCase fallbacks `event.event_type || event.eventType` of the database-backed service are modelled only in its counters (`SupabaseAudit.ColumnKey`). In the CSV export an empty value and a missing one both render as an empty field, so both services share one row renderer.
- Concurrent `async` callers of `logEvent` are not modelled; appends are sequential.
- The identity provider (`keycloak.init`, `login`, `getUser`, `logout`) is reduced to the outcomes it reports, passed as parameters. The `persist` middleware's local storage is not modelled.
- `backend/server.js` calls audit functions that the service does not export; that file is not part of this model.
- AuditStats.CountEvents: the counters are a map from key to count. The source counts into a plain object (`counts[k] = (counts[k] || 0) + 1`), which differs when a key names an `Object.prototype` member: `__proto__` is never counted, and `constructor` or `toString` turn into text. Such event types and user ids are not modelled, so `AuditStats.TallyCounts`, `AuditStats.TallySum` and `AuditStats.StatsAddUp` hold of the program only for keys that are not prototype members.
- SupabaseAudit.CountColumns: the same map-for-object difference for prototype-named keys; `SupabaseAudit.ColumnStatsAddUp` holds of the program only for keys that are not prototype members.
- AuditRecords.EventInput: `eventType`, `action` and `userId` are assumed present. The source does not check them. In `backend/services/auditService.js`, an event without `eventType` makes `getStats` throw at `event.eventType.includes`, and `getAuditLog` with it. In both services an event without `userId` makes a `userId` filter throw at `.includes`, and the CSV prints `undefined` for a missing action. The model's `GetStats`, `GetAuditLog` and filters therefore have no failure result.
- AuditQuery.SortBySequence: stability (equal sequences keep their order, as `Array.prototype.sort` guarantees) is built into the insertion order but not stated as a proved property. A permutation, the order, and strictness on distinct sequences are proved.
- VercelAudit.ExportAuditLog: it uses the corrected `GetAuditLog`. As written, an export with no filter set also reorders the store (see Findings).

## Findings

| source | as written | input that shows it | evidently intended | confidence | as-written member | corrected member |
|---|---|---|---|---|---|---|
| backend/services/auditService.js:158-182 | `getEvents()` returns the stored array itself, and when no filter is set no `filter` call copies it, so `events.sort(...)` reorders the store newest first | log two events, call `getAuditLog({})`, then `verifyIntegrity()`: the store is `[#2, #1]` and a sequence gap is reported although nothing was tampered with | sort a copy, as `supabaseAuditService.js:141` does, so that reading the log never changes it | not executed | VercelAudit.GetAuditLogAsWritten, VercelAudit.QueryWithoutFiltersBreaksIntegrity | VercelAudit.GetAuditLog, VercelAudit.QueryIsNewestFirst |
