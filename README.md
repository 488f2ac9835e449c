# dibba-ios core, modelled in Dafny

This project models the core of the dibba iOS client, a personal-finance app that
talks to a GraphQL backend. The model covers:

- **GraphQL client and errors.** The client's retry engine (`execute`,
  `executeWithRetry`, `performRequest`) and the `APIClientError` taxonomy it works
  from.
- **The four caching services.** The transaction service (paged loading, refresh and
  cache edits) and the profile, target and report services.
- **Domain models.** Profile and its subscription plan, transaction, savings target,
  import job, billing product and API key.
- **UI logic.** The account manager's readiness state, the feed's grouping of
  transactions into day sections, and the settings-screen helpers (preference
  summaries, the multi-select toggle, the currency picker's grouping, filtering and
  continent order).
- **Shared types.** The currency table and the page type.

One Dafny module stands for each Swift file:

- `GraphQLClient`: `graphql_client.dfy`
- `ApiErrors`: `api_error.dfy`
- `TransactionSync`: `transaction_service.dfy`
- `ProfileSync`: `profile_service.dfy`
- `TargetSync`: `target_service.dfy`
- `ReportSync`: `report_service.dfy`
- `Profiles`: `profile_model.dfy`
- `Transactions`: `transaction.dfy`
- `Targets`: `target_model.dfy`
- `ImportJobs`: `import_job.dfy`
- `Billing`: `billing_product.dfy`
- `ApiKeys`: `api_key.dfy`
- `Accounts`: `account_manager.dfy`
- `Feed`: `feed.dfy`
- `Settings`: `profile_view.dfy`
- `Currencies`: `currency.dfy`
- `Pagination`: `pagination.dfy`

Three modules hold shared vocabulary:

- `Keyed` (`keyed.dfy`): the list edits the services perform on id-keyed arrays.
- `Text` (`text.dfy`): the few `String` operations the core uses.
- `Wrappers`, `Clock` and `Numbers` (`wrappers.dfy`): `Option` and `Result`; `Date` as seconds; `Int(Double)` truncation.

## How the model is built

**Things the program reads from outside become parameters.**

- **Server calls.** A call is represented by its answer: a DTO, or the error it would
  throw (`Thrown`: an `APIClientError`, a raw `URLError`, or a foreign error).
- **The retry engine's server.** The server becomes a function from (retry count,
  forced refresh) to what that attempt runs into. That is either a transport failure
  or an HTTP response: a status, plus a body that decodes or does not.
- **The paged transaction list.** The backend is a sequence of page answers. Cursor
  `i` names page `i`.
- **The clock.** `now`, the default one-year-back threshold and the six-months-on
  end date are parameters.

**Services are classes.**

- The cached array is an `Option<seq<...>>` field, which is the `@Shared` file store.
- Each in-flight `Task` slot is the result that the fetch under way will deliver.
- Every method states the whole new state of the object, in terms of functions that
  are specified separately. For example, the refresh of a non-empty cache puts the
  result of `Scan` in front of the old cache, and `ScanIsLongestFreshPrefix` proves
  what `Scan` collects.

**Loops become loops.**

- `groupedTransactions`, the refresh and load loops and the report merge are
  `while`/`for` loops.
- Each loop's invariant ties the loop to the recursive function that specifies it.

## Model

| member | source | states |
|---|---|---|
| ApiErrors.Same | Packages/ApiClient/Sources/ApiClient/Utils/APIClientError.swift:14-25 | the custom `==`: network errors are equal exactly when their codes are; every other case compares structurally; different cases are never equal |
| ApiErrors.SameIsEquivalence | Packages/ApiClient/Sources/ApiClient/Utils/APIClientError.swift:14-25 | the custom `==` is reflexive, symmetric and transitive, so it is a lawful `Equatable` |
| ApiErrors.ClientEqualityIgnoresDescription | Packages/ApiClient/Sources/ApiClient/Utils/APIClientError.swift:16 | two network errors with one code and different descriptions are `==`, though not identical |
| ApiErrors.RetryableExactly | Packages/ApiClient/Sources/ApiClient/Utils/APIClientError.swift:100-111 | retryable exactly for a not-connected, connection-lost or timed-out network error, or HTTP 500, 502 or 503 |
| ApiErrors.UnauthorizedExactly | Packages/ApiClient/Sources/ApiClient/Utils/APIClientError.swift:90-98 | unauthorized exactly for `.unauthorized`, HTTP 401, or a GraphQL error list with an entry typed "401" or "UNAUTHORIZED" |
| ApiErrors.RetryableAndUnauthorizedDisjoint | Packages/ApiClient/Sources/ApiClient/Utils/APIClientError.swift:90-111 | no error is both retryable and unauthorized |
| ApiErrors.TerminalKinds | Packages/ApiClient/Sources/ApiClient/Utils/APIClientError.swift:90-111 | decoding errors, missing data, unknown errors and HTTP codes other than 401, 500, 502 and 503 are neither retryable nor unauthorized |
| ApiErrors.ClientNeverUnauthorized | Packages/ApiClient/Sources/ApiClient/Utils/APIClientError.swift:90-111 | a network error is never unauthorized, and is retryable exactly when it is a connectivity failure |
| ApiErrors.ErrorDescription | Packages/ApiClient/Sources/ApiClient/Utils/APIClientError.swift:31-48 | a GraphQL error list is described by its first message, or "GraphQL error" when empty; an HTTP error by "HTTP error: " and its decimal code |
| ApiErrors.HttpDescriptionsDistinct | Packages/ApiClient/Sources/ApiClient/Utils/APIClientError.swift:35-36 | distinct HTTP codes get distinct descriptions |
| ApiErrors.IntToStringInjective | Packages/ApiClient/Sources/ApiClient/Utils/APIClientError.swift:36 | integer interpolation is injective |
| GraphQLClient.ClassifyResponse | Packages/ApiClient/Sources/ApiClient/Client/GraphQLClient.swift:197-231 | a response succeeds exactly when its status is 2xx, its body decodes, its error list is absent or empty and its data is present; the value is that data; a non-2xx status fails with `.unauthorized` for 401 and `.http(code)` otherwise; a 2xx body that does not decode fails with `.decodingError` carrying the decoder's message; a decoded 2xx body with no errors and no data fails with `.noData` |
| GraphQLClient.PerformRequest | Packages/ApiClient/Sources/ApiClient/Client/GraphQLClient.swift:159-232 | a transport failure is thrown as the raw `URLError`; an attempt succeeds exactly when its response classifies as a success |
| GraphQLClient.ErrorsOverrideData | Packages/ApiClient/Sources/ApiClient/Client/GraphQLClient.swift:215-223 | a 2xx response with a non-empty error list fails, whatever data it carries: `.unauthorized` when an entry carries the auth marker, `.graphQLErrors` otherwise |
| GraphQLClient.Escalated | Packages/ApiClient/Sources/ApiClient/Client/GraphQLClient.swift:139-155 | what is rethrown is never a raw `URLError`; a raw one is wrapped as `.client` and anything else passes unchanged |
| GraphQLClient.Decide | Packages/ApiClient/Sources/ApiClient/Client/GraphQLClient.swift:113-155 | a refresh-and-retry happens only for an unauthorized API error at retry count 0; a back-off only for a retryable failure below `maxRetries`, for `2^retryCount` base delays; a rethrow rethrows the escalated failure |
| GraphQLClient.DecideCases | Packages/ApiClient/Sources/ApiClient/Client/GraphQLClient.swift:113-155 | an unauthorized failure refreshes at count 0 and is rethrown later; a retryable one backs off below the budget and is rethrown at it; a raw transport error is judged as `.client`; a foreign error, and an API error neither unauthorized nor retryable, is rethrown at once |
| GraphQLClient.ExecuteWithRetry | Packages/ApiClient/Sources/ApiClient/Client/GraphQLClient.swift:99-157 | a run makes at least one and at most budget-plus-one attempts; it starts at the given retry count and refresh flag; its last attempt sleeps not at all |
| GraphQLClient.AttemptsNumbered | Packages/ApiClient/Sources/ApiClient/Client/GraphQLClient.swift:106-153 | every retry passes `retryCount + 1`: the attempts are numbered consecutively |
| GraphQLClient.ExecuteOutcome | Packages/ApiClient/Sources/ApiClient/Client/GraphQLClient.swift:99-157 | the result of a run is what its last attempt returned, or that attempt's escalated failure once the engine gives up on it |
| GraphQLClient.Execute | Packages/ApiClient/Sources/ApiClient/Client/GraphQLClient.swift:85-97 | `execute` starts without a forced refresh and makes at most `max(maxRetries, 1) + 1` attempts |
| GraphQLClient.ExecuteStep | Packages/ApiClient/Sources/ApiClient/Client/GraphQLClient.swift:113-153 | a failed attempt that is retried is followed by the run at the next retry count, with the refresh flag forced exactly on the unauthorized path |
| GraphQLClient.ExecuteStop | Packages/ApiClient/Sources/ApiClient/Client/GraphQLClient.swift:106-155 | a success, or a failure the engine gives up on, ends the run with that one attempt and no sleep |
| GraphQLClient.RefreshFlagIsSticky | Packages/ApiClient/Sources/ApiClient/Client/GraphQLClient.swift:113-136 | once past the first attempt, every attempt of a run keeps the refresh flag it was given: only the first retry can switch it on |
| GraphQLClient.RefreshFlags | Packages/ApiClient/Sources/ApiClient/Client/GraphQLClient.swift:85-136 | from the second attempt on, every attempt forces a token refresh exactly when the first failed as unauthorized, and none does otherwise |
| GraphQLClient.WaitBound | Packages/ApiClient/Sources/ApiClient/Client/GraphQLClient.swift:125-153 | the sleeps of a run from `retryCount`, plus `2^retryCount`, come to at most `2^max(maxRetries, retryCount)` base delays |
| GraphQLClient.ExecuteWaitBound | Packages/ApiClient/Sources/ApiClient/Client/GraphQLClient.swift:34-35 | one call sleeps less than `2^maxRetries` base delays; with the defaults (3 retries, 0.1 s) at most 0.7 seconds |
| GraphQLClient.PersistentServiceUnavailable | Packages/ApiClient/Sources/ApiClient/Client/GraphQLClient.swift:125-139 | a server that keeps answering 503 gets four attempts with sleeps of 1, 2 and 4 base delays, then `.http(503)` is thrown |
| GraphQLClient.PersistentUnauthorized | Packages/ApiClient/Sources/ApiClient/Client/GraphQLClient.swift:113-139 | a server that keeps answering 401 gets one retry with a forced refresh and no sleep, then `.unauthorized` is thrown |
| GraphQLClient.StaleTokenRecovered | Packages/ApiClient/Sources/ApiClient/Client/GraphQLClient.swift:113-122 | a request that fails with a stale token and succeeds after the forced refresh returns the value after two attempts |
| GraphQLClient.DecodingErrorIsFinal | Packages/ApiClient/Sources/ApiClient/Client/GraphQLClient.swift:206-213 | any 2xx response whose body does not decode fails at once with `.decodingError` carrying the decoder's message, after a single attempt and without retry |
| GraphQLClient.NoDataIsFinal | Packages/ApiClient/Sources/ApiClient/Client/GraphQLClient.swift:225-228 | any 2xx response whose body carries no errors and no data fails at once with `.noData`, after a single attempt and without retry |
| GraphQLClient.PersistentTimeout | Packages/ApiClient/Sources/ApiClient/Client/GraphQLClient.swift:140-155 | a connection that keeps timing out is tried four times, then thrown as `.client` |
| Keyed.Keys | Packages/Servicing/Sources/Servicing/Services/TransactionService.swift:78 | the id set of a list holds exactly the ids of its elements |
| Keyed.KeysWithoutKeys | Packages/Servicing/Sources/Servicing/Services/TransactionService.swift:79 | filtering out the known ids leaves exactly the ids that were not known |
| Keyed.WithoutKeys | Packages/Servicing/Sources/Servicing/Services/TransactionService.swift:79 | the filter keeps exactly the elements whose id is not known, and nothing else |
| Keyed.WithoutKeysAppend | Packages/Servicing/Sources/Servicing/Services/TransactionService.swift:79 | the filter keeps order and multiplicity: a single element survives exactly when its id is not known, and the survivors of two runs are the survivors of each, in order |
| Keyed.WithoutKeysNoop | Packages/Servicing/Sources/Servicing/Services/TransactionService.swift:126-130 | filtering by ids none of the elements carries changes nothing |
| Keyed.TakeUntilKnown | Packages/Servicing/Sources/Servicing/Services/TransactionService.swift:112-118 | the longest prefix with no known id: it is a prefix, holds no known id, and what follows it has a known id |
| Keyed.TakeUntilKnownAppend | Packages/Servicing/Sources/Servicing/Services/TransactionService.swift:107-122 | scanning two lists in turn is scanning the first alone if it meets a known id, and otherwise the first and then the second |
| Keyed.FirstIndexOf | Packages/Servicing/Sources/Servicing/Services/TransactionService.swift:198 | `firstIndex(where:)`: the index found holds the id and none before it does; none is found exactly when the id is absent |
| Keyed.ReplaceFirst | Packages/Servicing/Sources/Servicing/Services/TransactionService.swift:196-201 | replacing by id keeps the length of the list |
| Keyed.ReplaceFirstChanges | Packages/Servicing/Sources/Servicing/Services/TransactionService.swift:196-201 | replacing by id changes only the first element with the id, and nothing when the id is absent |
| Keyed.ReplaceFirstSameKey | Packages/Servicing/Sources/Servicing/Services/TargetService.swift:94-96 | replacing by an element with the same id keeps the id set and is idempotent |
| Keyed.RemoveKey | Packages/Servicing/Sources/Servicing/Services/TransactionService.swift:212-214 | `removeAll(where:)` keeps exactly the elements with another id |
| Keyed.RemoveKeyEffect | Packages/Servicing/Sources/Servicing/Services/TransactionService.swift:212-214 | removing an id removes exactly that id from the id set, changes nothing when it is absent, and is idempotent |
| Keyed.RemoveKeyAppend | Packages/Servicing/Sources/Servicing/Services/TransactionService.swift:212-214 | removal keeps order and multiplicity: a single element survives exactly when its id differs, and the survivors of two runs are the survivors of each, in order |
| Keyed.WithKeys | Packages/Servicing/Sources/Servicing/Services/ReportService.swift:52 | the filter keeps exactly the elements whose id was requested |
| Keyed.WithKeysAppend | Packages/Servicing/Sources/Servicing/Services/ReportService.swift:52 | the filter keeps order and multiplicity: a single element survives exactly when its id was requested, and the survivors of two runs are the survivors of each, in order |
| Keyed.WithKeysKeys | Packages/Servicing/Sources/Servicing/Services/ReportService.swift:52 | filtering by requested ids keeps exactly the requested ids that occur |
| Keyed.Upsert | Packages/Servicing/Sources/Servicing/Services/ReportService.swift:72-76 | an element with a new id is appended; one with a cached id replaces the first element with that id, and only it |
| Keyed.UpsertEffect | Packages/Servicing/Sources/Servicing/Services/ReportService.swift:72-76 | an upsert leaves the element in the list under its id, adds at most that id, and keeps every element with another id |
| Keyed.UpsertOnlyEntry | Packages/Servicing/Sources/Servicing/Services/ReportService.swift:72-76 | over distinct ids, the upserted element is in the list and is the only element with its id |
| Keyed.UpsertDistinct | Packages/Servicing/Sources/Servicing/Services/ReportService.swift:72-76 | an upsert keeps ids distinct |
| TransactionSync.TypeFromDto | Packages/Servicing/Sources/Servicing/Services/TransactionService.swift:231-242 | a present type string decides alone, an unknown string giving `.unknown`; without one the purchase, transfer and ATM flags decide in that order, and with none of them set the type is `.unknown` |
| TransactionSync.TransactionFromDto | Packages/Servicing/Sources/Servicing/Services/TransactionService.swift:230-267 | id, name, amount and currency are copied from the DTO |
| TransactionSync.FromDtoTypeAgreesWithFlags | Packages/Servicing/Sources/Servicing/Services/TransactionService.swift:231-242 | without a type string the stored type is the type the flags compute |
| TransactionSync.FromBareDto | Packages/Servicing/Sources/Servicing/Services/TransactionService.swift:244-266 | a DTO with nothing but id, name, amount and currency maps to the transaction the initializer builds with every default |
| TransactionSync.FromDtoRoundTrip | Packages/Servicing/Sources/Servicing/Services/TransactionService.swift:230-288 | mapping a transaction's full DTO gives the transaction back |
| TransactionSync.MapDtos | Packages/Servicing/Sources/Servicing/Services/TransactionService.swift:78 | one transaction per DTO, in order, each mapped by `Transaction(from:)` |
| TransactionSync.ListTransactions | Packages/Servicing/Sources/Servicing/Services/TransactionService.swift:73 | a cursor handed out always points further on, at an existing page |
| TransactionSync.AppendNewEffect | Packages/Servicing/Sources/Servicing/Services/TransactionService.swift:76-83 | storing a page keeps the old cache as a prefix, afterwards holds every id of the page, and appends the whole page when none of its ids was cached |
| TransactionSync.PrefixedTwice | Packages/Servicing/Sources/Servicing/Services/TransactionService.swift:155 | gathering two page runs in turn is gathering their concatenation |
| TransactionSync.DrainKeepsCache | Packages/Servicing/Sources/Servicing/Services/TransactionService.swift:90-97 | loading every page through `fetchPage` only ever adds to the cache |
| TransactionSync.DrainCollectsAll | Packages/Servicing/Sources/Servicing/Services/TransactionService.swift:90-97 | a full load that does not fail leaves the cache holding exactly the earlier ids plus the id of every transaction on every page |
| TransactionSync.ScanIsLongestFreshPrefix | Packages/Servicing/Sources/Servicing/Services/TransactionService.swift:100-122 | a successful refresh scan yields exactly the longest run of transactions, newest first and across pages, that holds no cached id |
| TransactionSync.ScanStopIndex | Packages/Servicing/Sources/Servicing/Services/TransactionService.swift:113-120 | the page at which the refresh scan stops is the first holding a cached id, or the last page; no earlier page holds one |
| TransactionSync.ScanLoadsUpToStop | Packages/Servicing/Sources/Servicing/Services/TransactionService.swift:108-121 | a successful refresh scan is every page before the stopping one, whole, followed by the stopping page up to its first cached id |
| TransactionSync.ScanSucceedsExactly | Packages/Servicing/Sources/Servicing/Services/TransactionService.swift:108-121 | the refresh scan succeeds exactly when every page up to the stopping one can be fetched |
| TransactionSync.ScanAvoidsIds | Packages/Servicing/Sources/Servicing/Services/TransactionService.swift:112-118 | the scan never collects a cached id, so the dedup before the prepend removes nothing |
| TransactionSync.Pages | Packages/Servicing/Sources/Servicing/Services/TransactionService.swift:152-164 | the pages along the cursor chain are non-empty exactly when the first page can be fetched |
| TransactionSync.StreamIsPages | Packages/Servicing/Sources/Servicing/Services/TransactionService.swift:152-164 | the list read from a cursor is its pages one after the other |
| TransactionSync.StopIndex | Packages/Servicing/Sources/Servicing/Services/TransactionService.swift:158-161 | the stopping page is the first whose last transaction is older than the threshold, or the last page; no earlier page qualifies |
| TransactionSync.EmptyPageNeverStops | Packages/Servicing/Sources/Servicing/Services/TransactionService.swift:158-161 | an empty page is the stopping page only when it is the last page |
| TransactionSync.CollectLoadsUpToStop | Packages/Servicing/Sources/Servicing/Services/TransactionService.swift:152-164 | a successful load is exactly the pages up to and including the first one ending before the threshold, or all pages when none does |
| TransactionSync.CollectSucceedsExactly | Packages/Servicing/Sources/Servicing/Services/TransactionService.swift:152-164 | the load succeeds exactly when every page up to the stopping one can be fetched |
| TransactionSync.CollectStopRule | Packages/Servicing/Sources/Servicing/Services/TransactionService.swift:152-164 | a successful load is all of the backend's list, or a prefix of it that ends in a transaction older than the threshold |
| TransactionSync.TransactionService.CachedTransactions | Packages/Servicing/Sources/Servicing/Services/TransactionService.swift:66-68 | the cache, or an empty list when there is none |
| TransactionSync.TransactionService.constructor | Packages/Servicing/Sources/Servicing/Services/TransactionService.swift:54-61 | a new service has no cache and no load under way |
| TransactionSync.TransactionService.FetchPage | Packages/Servicing/Sources/Servicing/Services/TransactionService.swift:70-86 | returns the whole page with the server's cursor, and appends to the cache the page's transactions whose ids were not cached; a failure changes nothing |
| TransactionSync.TransactionService.RefreshTransactions | Packages/Servicing/Sources/Servicing/Services/TransactionService.swift:88-139 | with an empty cache, every page is stored through `fetchPage`; otherwise the scanned unseen transactions go in front of the cache; the answer is the whole cache without a cursor, and a failure leaves the cache as it was |
| TransactionSync.TransactionService.DrainPages | Packages/Servicing/Sources/Servicing/Services/TransactionService.swift:90-97 | the empty-cache loop ends with the cache and failure that the page-by-page specification gives |
| TransactionSync.TransactionService.ScanForNew | Packages/Servicing/Sources/Servicing/Services/TransactionService.swift:100-122 | the scanning loop returns exactly what `Scan` specifies |
| TransactionSync.TransactionService.AppendUntilKnown | Packages/Servicing/Sources/Servicing/Services/TransactionService.swift:112-118 | the inner loop appends the page up to its first cached id, and reports an overlap exactly when it stopped early |
| TransactionSync.TransactionService.LoadAllTransactions | Packages/Servicing/Sources/Servicing/Services/TransactionService.swift:141-175 | a load under way is joined; otherwise the result is the pages gathered back to the threshold, which replaces the cache on success and leaves it on failure |
| TransactionSync.TransactionService.CreateTransaction | Packages/Servicing/Sources/Servicing/Services/TransactionService.swift:177-189 | the new transaction goes in front of the cache, or is the whole cache when there was none |
| TransactionSync.TransactionService.UpdateTransaction | Packages/Servicing/Sources/Servicing/Services/TransactionService.swift:191-205 | the first cached transaction with the id is replaced; a missing cache or id changes nothing |
| TransactionSync.TransactionService.DeleteTransaction | Packages/Servicing/Sources/Servicing/Services/TransactionService.swift:207-218 | only a reported success removes every cached transaction with the id; the server's answer is returned |
| TransactionSync.TransactionService.ClearCache | Packages/Servicing/Sources/Servicing/Services/TransactionService.swift:220-224 | the cache and the load under way are both gone |
| TransactionSync.RefreshEmptyCacheExample | Packages/Servicing/Sources/Servicing/Services/TransactionService.swift:88-98 | a two-page backend over an empty cache stores the first page whole and only the new transactions of the second |
| ProfileSync.AchievementFromDto | Packages/Servicing/Sources/Servicing/Services/ProfileService.swift:130-138 | id and name are copied from the DTO |
| ProfileSync.ProfileFromDto | Packages/Servicing/Sources/Servicing/Services/ProfileService.swift:100-128 | limits are never taken from the server; there is one achievement per DTO achievement; a missing plan is the free plan |
| ProfileSync.EmptyDtoIsDefaultProfile | Packages/Servicing/Sources/Servicing/Services/ProfileService.swift:100-128 | an empty server record maps to exactly the profile the initializer builds by default |
| ProfileSync.ProfileFromDtoPremium | Packages/Servicing/Sources/Servicing/Services/ProfileService.swift:123 | the mapped profile is premium exactly when the server sent a plan name that mentions PREMIUM or PRO |
| ProfileSync.ProfileFromDtoRoundTrip | Packages/Servicing/Sources/Servicing/Services/ProfileService.swift:100-138 | a profile without limits, whose plan name reads back as itself, survives its full DTO |
| ProfileSync.ProfileService.constructor | Packages/Servicing/Sources/Servicing/Services/ProfileService.swift:31-36 | a new service has no cached profile and no fetch under way |
| ProfileSync.ProfileService.GetProfile | Packages/Servicing/Sources/Servicing/Services/ProfileService.swift:45-82 | a fetch under way answers first; a cached profile answers an unforced call; otherwise a fetched profile is cached and returned, and a failure leaves the cache |
| ProfileSync.ProfileService.UpdateProfile | Packages/Servicing/Sources/Servicing/Services/ProfileService.swift:84-89 | the server's profile replaces the cached one |
| ProfileSync.ProfileService.ClearCache | Packages/Servicing/Sources/Servicing/Services/ProfileService.swift:91-95 | no cached profile and no fetch under way |
| TargetSync.StrategyFromDto | Packages/Servicing/Sources/Servicing/Services/TargetService.swift:115-120 | a known strategy name gives that strategy; an unknown or missing one gives the open strategy |
| TargetSync.TargetFromDto | Packages/Servicing/Sources/Servicing/Services/TargetService.swift:114-139 | id and name are copied from the DTO; the owner is not carried |
| TargetSync.BareTargetDefaults | Packages/Servicing/Sources/Servicing/Services/TargetService.swift:122-138 | a DTO with only id and name is an open, active target in USD with no progress, a monthly and no weekly reminder, starting now and ending six months on |
| TargetSync.TargetFromDtoRoundTrip | Packages/Servicing/Sources/Servicing/Services/TargetService.swift:114-139 | a target survives its full DTO, save for the owner |
| TargetSync.MapTargetDtos | Packages/Servicing/Sources/Servicing/Services/TargetService.swift:58 | one target per DTO, in order |
| TargetSync.UpdatedTargetsEffect | Packages/Servicing/Sources/Servicing/Services/TargetService.swift:88-99 | archiving removes the id and keeps the other ids; another update keeps the id set when the server's target has the id; an uncached id changes nothing |
| TargetSync.TargetService.constructor | Packages/Servicing/Sources/Servicing/Services/TargetService.swift:31-36 | a new service has no cached targets and no fetch under way |
| TargetSync.TargetService.CachedTargets | Packages/Servicing/Sources/Servicing/Services/TargetService.swift:40-42 | the cache, or an empty list when there is none |
| TargetSync.TargetService.GetTargets | Packages/Servicing/Sources/Servicing/Services/TargetService.swift:45-67 | a fetch under way answers first; a non-empty cache answers an unforced call; otherwise the fetched list replaces the cache, and a failure leaves it |
| TargetSync.TargetService.CreateTarget | Packages/Servicing/Sources/Servicing/Services/TargetService.swift:69-81 | the new target goes in front of the cached list |
| TargetSync.TargetService.UpdateTarget | Packages/Servicing/Sources/Servicing/Services/TargetService.swift:83-102 | the cached list is edited as `UpdatedTargets` says; a missing cache stays missing |
| TargetSync.TargetService.ClearCache | Packages/Servicing/Sources/Servicing/Services/TargetService.swift:104-108 | no cached targets and no fetch under way |
| ReportSync.ReportFromDto | Packages/Servicing/Sources/Servicing/Services/ReportService.swift:107-124 | id and content come from the DTO; `isCurrent` comes from the caller |
| ReportSync.MapReportDtos | Packages/Servicing/Sources/Servicing/Services/ReportService.swift:57-60 | one report per DTO, in order, all flagged `isCurrent` |
| ReportSync.SlotKeysCanCollide | Packages/Servicing/Sources/Servicing/Services/ReportService.swift:44-49 | two different requests can share a slot key, so they would share one fetch |
| ReportSync.CachedForIds | Packages/Servicing/Sources/Servicing/Services/ReportService.swift:52 | the cached reports whose id was requested, and all of them |
| ReportSync.IdSetCount | Packages/Servicing/Sources/Servicing/Services/ReportService.swift:53 | a request has at most as many distinct ids as entries, exactly as many when it repeats none |
| ReportSync.CacheHitExactly | Packages/Servicing/Sources/Servicing/Services/ReportService.swift:52-55 | over a cache with distinct ids, the count test hits exactly when the request repeats no id and every requested id is cached |
| ReportSync.EmptyRequestIsHit | Packages/Servicing/Sources/Servicing/Services/ReportService.swift:52-55 | an empty request is answered from the cache with nothing |
| ReportSync.RepeatedCachedIdsFoolTheTest | Packages/Servicing/Sources/Servicing/Services/ReportService.swift:52-55 | a cache that holds one id twice passes the count test for a request of that id and an uncached one |
| ReportSync.UpsertAllKeys | Packages/Servicing/Sources/Servicing/Services/ReportService.swift:68-80 | the merged cache holds exactly the old ids and the fetched ids, and does not shrink |
| ReportSync.UpsertAllKeepsOthers | Packages/Servicing/Sources/Servicing/Services/ReportService.swift:68-80 | a cached report whose id was not fetched stays at its position |
| ReportSync.UpsertAllDistinct | Packages/Servicing/Sources/Servicing/Services/ReportService.swift:68-80 | merging keeps cached ids distinct |
| ReportSync.UpsertAllLastWins | Packages/Servicing/Sources/Servicing/Services/ReportService.swift:68-80 | when fetched ids repeat, the last fetched report with an id is the only cached entry with that id |
| ReportSync.UpsertAllHoldsFetched | Packages/Servicing/Sources/Servicing/Services/ReportService.swift:68-80 | every fetched report, when their ids are distinct, is in the merged cache |
| ReportSync.ReportService.constructor | Packages/Servicing/Sources/Servicing/Services/ReportService.swift:28-35 | a new service has no cached reports and no fetch under way |
| ReportSync.ReportService.CachedReports | Packages/Servicing/Sources/Servicing/Services/ReportService.swift:39-41 | the cache, or an empty list when there is none |
| ReportSync.ReportService.MergeReports | Packages/Servicing/Sources/Servicing/Services/ReportService.swift:71-77 | the merge loop computes the upsert of every fetched report, in order |
| ReportSync.ReportService.FetchReports | Packages/Servicing/Sources/Servicing/Services/ReportService.swift:57-82 | a fetch returns the mapped reports and merges them into the cache, keeping the class invariant that cached ids are distinct; a failure leaves the cache |
| ReportSync.ReportService.GetReports | Packages/Servicing/Sources/Servicing/Services/ReportService.swift:43-83 | a fetch under way for the same key answers first; a cache hit answers with the cached reports for the ids; otherwise the fetched reports are merged and returned; the slots end as they began |
| ReportSync.ReportService.ClearCache | Packages/Servicing/Sources/Servicing/Services/ReportService.swift:95-101 | no cached reports and no fetch under way |
| Profiles.LimitPeriodRoundTrip | Packages/Servicing/Sources/Servicing/Models/Profile.swift:48-63 | every limit period survives its wire name, and the wire names differ, as do the display names |
| Profiles.LimitPeriodFromRaw | Packages/Servicing/Sources/Servicing/Models/Profile.swift:48-53 | a recognised wire name gives the period with exactly that name |
| Profiles.PlanFromRaw | Packages/Servicing/Sources/Servicing/Models/Profile.swift:72-88 | the parsed plan is the free plan or keeps the name; an unknown plan never carries a canonical name |
| Profiles.CanonicalMarkers | Packages/Servicing/Sources/Servicing/Models/Profile.swift:74-79 | the premium and pro names mention their tier, and the free name mentions neither |
| Profiles.PlanRawRoundTrip | Packages/Servicing/Sources/Servicing/Models/Profile.swift:72-97 | parsing keeps a name exactly when it is canonical or mentions a paid tier; every other name reads back as the free name |
| Profiles.PlanPremiumIffMarker | Packages/Servicing/Sources/Servicing/Models/Profile.swift:72-109 | a parsed plan is premium exactly when its name mentions PREMIUM or PRO |
| Profiles.PlanFromRawOfRawValue | Packages/Servicing/Sources/Servicing/Models/Profile.swift:72-97 | every plan survives printing and parsing, except unknown plans whose name is canonical or mentions no paid tier |
| Profiles.PlanDisplayNameAgreesWithPremium | Packages/Servicing/Sources/Servicing/Models/Profile.swift:99-122 | the display name is Free, Premium or Pro, and it is Free exactly for the plans that are not premium |
| Profiles.Profile.DisplayName | Packages/Servicing/Sources/Servicing/Models/Profile.swift:232-238 | a non-empty name wins; with no name parts either, the email is shown |
| Profiles.DisplayNameJoinsNameParts | Packages/Servicing/Sources/Servicing/Models/Profile.swift:234-236 | with no name, trimmed name parts are shown joined by one space, or the non-empty one alone |
| Profiles.BlankNamePartsHideEmail | Packages/Servicing/Sources/Servicing/Models/Profile.swift:234-236 | name parts made only of blanks still win over the email, so the display name is empty |
| Profiles.NewProfile | Packages/Servicing/Sources/Servicing/Models/Profile.swift:158-206 | the default profile carries the given creation date |
| Profiles.NewProfileDefaults | Packages/Servicing/Sources/Servicing/Models/Profile.swift:158-182 | a default profile is free, displays an empty name, gets every report except the daily one, and holds no preferences |
| Profiles.MakeProfile | Packages/Servicing/Sources/Servicing/Models/Profile.swift:249-264 | the factory stamps its profile with the given time |
| Profiles.MakeProfileShows | Packages/Servicing/Sources/Servicing/Models/Profile.swift:249-264 | the factory's profile is shown by its name, or as "Test User" when the name is empty, and is premium exactly when its plan is |
| Profiles.TestUserShown | Packages/Servicing/Sources/Servicing/Models/Profile.swift:234-236 | first name "Test" and last name "User" are shown as "Test User" |
| Profiles.ProfileCreationExample | Packages/Servicing/Tests/ServicingTests/ServicingTests.swift:4-9 | the `profileCreation` test profile has its name and email and is on the free plan |
| Transactions.TransactionTypeFacesDistinct | Packages/Servicing/Sources/Servicing/Models/Transaction.swift:14-36 | each type has its own display name and its own emoji; each emoji is one non-ASCII symbol, optionally followed by a variation selector |
| Transactions.TransactionTypeRoundTrip | Packages/Servicing/Sources/Servicing/Models/Transaction.swift:5-12 | every transaction type survives its wire name |
| Transactions.TransactionTypeFromRaw | Packages/Servicing/Sources/Servicing/Models/Transaction.swift:5-12 | a recognised wire name gives the type with exactly that name |
| Transactions.MakeTransaction | Packages/Servicing/Sources/Servicing/Models/Transaction.swift:212-229 | id, name, amount and currency are those asked for |
| Transactions.MakeTransactionComputedType | Packages/Servicing/Sources/Servicing/Models/Transaction.swift:186-191 | the factory's flags agree with its type: the computed type is the requested one |
| Transactions.IncomeOrExpenseBySign | Packages/Servicing/Sources/Servicing/Models/Transaction.swift:200-206 | without the credit and debit flags, a zero amount is neither income nor expense and any other amount is exactly one of them |
| Transactions.CoffeeIsExpense | Packages/Servicing/Tests/ServicingTests/ServicingTests.swift:11-16 | the `transactionCreation` test transaction is an expense with its name and amount |
| Targets.TargetStrategyLabelsDistinct | Packages/Servicing/Sources/Servicing/Models/Target.swift:11-31 | each strategy has its own display name and its own description |
| Targets.OverdueAsTimePasses | Packages/Servicing/Sources/Servicing/Models/Target.swift:137-139 | a completed target is never overdue; an open one becomes overdue once its end date has passed and stays overdue |
| Targets.TargetStrategyRoundTrip | Packages/Servicing/Sources/Servicing/Models/Target.swift:5-9 | every strategy survives its wire name, and the names differ |
| Targets.TargetStrategyFromRaw | Packages/Servicing/Sources/Servicing/Models/Target.swift:5-9 | a recognised wire name gives the strategy with exactly that name |
| Targets.Target.Progress | Packages/Servicing/Sources/Servicing/Models/Target.swift:110-113 | progress is at most 1; it is 0 for a target that is not positive, not negative for a non-negative saving, and 1 once the target is reached |
| Targets.Target.ProgressPercent | Packages/Servicing/Sources/Servicing/Models/Target.swift:116-118 | the percentage is at most 100, and not negative for a non-negative saving |
| Targets.Target.AmountRemaining | Packages/Servicing/Sources/Servicing/Models/Target.swift:121-123 | the remainder is never negative, and is either 0 or the target minus the saving |
| Targets.ProgressAndRemainderCoverTarget | Packages/Servicing/Sources/Servicing/Models/Target.swift:110-123 | for a positive target, progress times target plus the remainder is the target, and nothing remains exactly when progress is 1 |
| Targets.ReachedTargetIsComplete | Packages/Servicing/Sources/Servicing/Models/Target.swift:110-123 | a reached target shows progress 1, 100 percent and nothing remaining |
| Targets.MakeTarget | Packages/Servicing/Sources/Servicing/Models/Target.swift:168-185 | the factory's target is active and open |
| Targets.TargetProgressExample | Packages/Servicing/Tests/ServicingTests/ServicingTests.swift:18-23 | 500 saved of 1000 is progress 0.5, 50 percent, 500 remaining |
| ImportJobs.ImportJobStatusRoundTrip | Packages/Servicing/Sources/Servicing/Models/ImportFileJob.swift:5-9 | every job status survives its wire name, and the names differ |
| ImportJobs.ImportJobStatusFromRaw | Packages/Servicing/Sources/Servicing/Models/ImportFileJob.swift:5-9 | a recognised wire name gives the status with exactly that name |
| ImportJobs.ImportFileJob.JobStatus | Packages/Servicing/Sources/Servicing/Models/ImportFileJob.swift:157-159 | a status string that names no status reads as pending |
| ImportJobs.ImportFileJob.Progress | Packages/Servicing/Sources/Servicing/Models/ImportFileJob.swift:173-176 | no pages means no progress; otherwise progress times the page count is the processed count |
| ImportJobs.ImportFileJob.ProcessingDuration | Packages/Servicing/Sources/Servicing/Models/ImportFileJob.swift:187-190 | a duration exists exactly when both start and finish are set, and start plus duration is the finish |
| ImportJobs.StatusTestsExclusive | Packages/Servicing/Sources/Servicing/Models/ImportFileJob.swift:161-171 | completed, failed and processing are mutually exclusive; the status is terminal exactly when completed or failed |
| ImportJobs.UnknownStatusIsPending | Packages/Servicing/Sources/Servicing/Models/ImportFileJob.swift:157-159 | a job with an unknown status is neither terminal nor processing |
| ImportJobs.ProgressBounds | Packages/Servicing/Sources/Servicing/Models/ImportFileJob.swift:173-180 | with processed pages within the page count, progress is within 0 and 1 and the percentage within 0 and 100 |
| ImportJobs.ProgressNotCapped | Packages/Servicing/Sources/Servicing/Models/ImportFileJob.swift:173-176 | progress is not capped: more processed pages than pages gives progress above 1 |
| ImportJobs.MakeJob | Packages/Servicing/Sources/Servicing/Models/ImportFileJob.swift:204-219 | the factory's job has the given counts and status, no errors and no duration |
| ImportJobs.ImportJobProgressExample | Packages/Servicing/Tests/ServicingTests/ServicingTests.swift:32-36 | 5 pages of 10 is progress 0.5 and 50 percent, and the new job is pending |
| Billing.ProductTypeRoundTrip | Packages/Servicing/Sources/Servicing/Models/BillingProduct.swift:5-17 | every product type survives its wire name, and the names differ |
| Billing.ProductExperienceRoundTrip | Packages/Servicing/Sources/Servicing/Models/BillingProduct.swift:21-33 | every product experience survives its wire name, and the names differ |
| Billing.ProductTypeFromRaw | Packages/Servicing/Sources/Servicing/Models/BillingProduct.swift:5-17 | a recognised wire name gives the product type with exactly that name |
| Billing.ProductExperienceFromRaw | Packages/Servicing/Sources/Servicing/Models/BillingProduct.swift:21-33 | a recognised wire name gives the experience with exactly that name |
| Billing.BillingProduct.FormattedPrice | Packages/Servicing/Sources/Servicing/Models/BillingProduct.swift:118-124 | a free product shows "Free"; any other shows the formatter's text, or the printed price when the formatter gives none |
| Billing.BillingProduct.TrialDescription | Packages/Servicing/Sources/Servicing/Models/BillingProduct.swift:126-129 | there is a trial description exactly when the product has a trial of a positive number of days |
| Billing.PremiumIffPaidTier | Packages/Servicing/Sources/Servicing/Models/BillingProduct.swift:131-133 | a product is premium exactly when its experience is the premium or pro tier |
| Billing.TrialDescriptionNamesDays | Packages/Servicing/Sources/Servicing/Models/BillingProduct.swift:126-129 | the description is the day count followed by "-day free trial", and two descriptions agree exactly when the day counts do |
| Billing.MakeProduct | Packages/Servicing/Sources/Servicing/Models/BillingProduct.swift:139-157 | id, title, price and the free flag are those asked for |
| Billing.MakeProductFacts | Packages/Servicing/Sources/Servicing/Models/BillingProduct.swift:139-157 | the factory's product has a 7-day trial, and is premium exactly when it is not free |
| Billing.FreePlanFacts | Packages/Servicing/Sources/Servicing/Models/BillingProduct.swift:159-169 | the free plan costs nothing, shows "Free", is basic and not premium, and has no trial |
| Billing.BillingProductFormattingExample | Packages/Servicing/Tests/ServicingTests/ServicingTests.swift:25-30 | the `billingProductFormatting` test product keeps its title and price, is not free, has a trial and is premium |
| ApiKeys.ApiKey.MaskedId | Packages/Servicing/Sources/Servicing/Models/ApiKey.swift:63-68 | an id of at most 8 characters becomes as many bullets; a longer one shows its first 4 and last 4 characters around 4 bullets |
| ApiKeys.MaskedIdDependsOnlyOnEnds | Packages/Servicing/Sources/Servicing/Models/ApiKey.swift:63-68 | ids that are short with one length, or both long with the same first and last four characters, have the same mask |
| ApiKeys.MaskedIdRevealsEnds | Packages/Servicing/Sources/Servicing/Models/ApiKey.swift:63-68 | keys masked alike are both short with one length, or both long with the same first and last four characters |
| ApiKeys.MakeApiKey | Packages/Servicing/Sources/Servicing/Models/ApiKey.swift:74-85 | the factory's key has the given id and name, and is active exactly when asked to be |
| Accounts.AccountStateOf | Packages/Auth/Sources/Auth/AccountManager.swift:61-81 | the user is ready exactly when signed in and onboarded |
| Accounts.AccountStateNeeds | Packages/Auth/Sources/Auth/AccountManager.swift:57-81 | authentication is asked for exactly when not signed in; onboarding exactly when it is unfinished, except that an unauthenticated user is asked for both |
| Accounts.OnboardedGuestNeedsAuthentication | Packages/Auth/Sources/Auth/AccountManager.swift:61-81 | an onboarded guest only needs to sign in, and an unauthenticated user needs both whatever the flag |
| Accounts.AccountManager.constructor | Packages/Auth/Sources/Auth/AccountManager.swift:119-121 | the onboarding flag starts as the persisted default |
| Accounts.AccountManager.State | Packages/Auth/Sources/Auth/AccountManager.swift:61-81 | the state is the readiness of the current authentication state and the manager's flag |
| Accounts.AccountManager.MarkOnboardingComplete | Packages/Auth/Sources/Auth/AccountManager.swift:87-95 | the flag is set and persisted, so an authenticated user is ready |
| Accounts.AccountManager.ResetOnboardingState | Packages/Auth/Sources/Auth/AccountManager.swift:97-105 | the flag is cleared and its default removed, so no user is ready |
| Feed.GroupedTransactions | Packages/Feed/Sources/Feed/FeedView.swift:32-54 | the loop builds exactly the day sections `Sections` specifies |
| Feed.Sections | Packages/Feed/Sources/Feed/FeedView.swift:32-54 | there are no sections exactly when there are no transactions |
| Feed.SectionsExtend | Packages/Feed/Sources/Feed/FeedView.swift:37-47 | one more transaction joins the open section when it has that date, and opens a new section otherwise |
| Feed.SectionsPartition | Packages/Feed/Sources/Feed/FeedView.swift:32-54 | the sections hold the transactions, all of them, once each and in order |
| Feed.SectionsWellFormed | Packages/Feed/Sources/Feed/FeedView.swift:37-47 | every section is non-empty and all its transactions carry its date, and neighbouring sections have different dates |
| Feed.SectionCount | Packages/Feed/Sources/Feed/FeedView.swift:37-51 | a non-empty list has one section more than it has date changes between neighbours |
| Feed.SectionsLastDate | Packages/Feed/Sources/Feed/FeedView.swift:49-51 | the last section carries the date of the last transaction |
| Settings.OptionRawValuesRoundTrip | Packages/Profile/Sources/Profile/ProfileView.swift:13-133 | every goal, occupation, housing, transport and age option survives its raw value |
| Settings.GoalFromRaw | Packages/Profile/Sources/Profile/ProfileView.swift:13-43 | a recognised raw value gives the goal with exactly that value |
| Settings.OccupationFromRaw | Packages/Profile/Sources/Profile/ProfileView.swift:45-71 | a recognised raw value gives the occupation with exactly that value |
| Settings.HousingFromRaw | Packages/Profile/Sources/Profile/ProfileView.swift:73-95 | a recognised raw value gives the housing with exactly that value |
| Settings.TransportFromRaw | Packages/Profile/Sources/Profile/ProfileView.swift:97-117 | a recognised raw value gives the transport with exactly that value |
| Settings.AgeFromRaw | Packages/Profile/Sources/Profile/ProfileView.swift:119-133 | a recognised raw value gives the age group with exactly that value |
| Settings.AgeLabel | Packages/Profile/Sources/Profile/ProfileView.swift:386-392 | a known age group shows its label; "Not Set" is shown exactly when the age is missing or unknown |
| Settings.FaceOf | Packages/Profile/Sources/Profile/ProfileView.swift:543-550 | an id recognised for its preference kind has an emoji face |
| Settings.FormatSelected | Packages/Profile/Sources/Profile/ProfileView.swift:541-553 | an empty selection is shown as "None" |
| Settings.Items | Packages/Profile/Sources/Profile/ProfileView.swift:543-550 | one item per selected id that names an option of the kind, unrecognised ids being dropped |
| Settings.ItemsAppend | Packages/Profile/Sources/Profile/ProfileView.swift:543-550 | the items of two selections in turn are the items of their concatenation |
| Settings.FormatSelectedNone | Packages/Profile/Sources/Profile/ProfileView.swift:541-553 | "None" is shown exactly for an empty selection; a selection with no known id shows nothing; any known id makes the summary start with an emoji |
| Settings.ItemsNone | Packages/Profile/Sources/Profile/ProfileView.swift:543-550 | a selection with no recognised id has no items |
| Settings.ItemsAllRecognised | Packages/Profile/Sources/Profile/ProfileView.swift:543-550 | when every id is recognised, the items are their faces, one for one and in order |
| Settings.ItemsOnly | Packages/Profile/Sources/Profile/ProfileView.swift:543-550 | when exactly one id is recognised, its face is the only item |
| Settings.FormatSelectedSingle | Packages/Profile/Sources/Profile/ProfileView.swift:541-553 | a selection whose only recognised id may stand at any position is shown as that option's emoji, a space and its label |
| Settings.FormatSelectedSeveral | Packages/Profile/Sources/Profile/ProfileView.swift:541-553 | a selection of two or more ids, all recognised, is shown as their emojis in selection order, joined by single spaces |
| Settings.FormatSelectedIgnoresUnrecognised | Packages/Profile/Sources/Profile/ProfileView.swift:541-553 | inserting an unrecognised id anywhere into a non-empty selection does not change its summary |
| Settings.Toggled | Packages/Profile/Sources/Profile/ProfileView.swift:620-626 | the toggled option is in the new selection exactly when it was not in the old one, and nothing else changes |
| Settings.ToggledTwice | Packages/Profile/Sources/Profile/ProfileView.swift:620-626 | toggling an option twice restores the selection |
| Settings.MultiSelection.constructor | Packages/Profile/Sources/Profile/ProfileView.swift:610-616 | the local selection starts as the stored one |
| Settings.MultiSelection.Toggle | Packages/Profile/Sources/Profile/ProfileView.swift:620-626 | the local selection becomes its toggle |
| Settings.InContinent | Packages/Profile/Sources/Profile/ProfileView.swift:759-761 | a group holds exactly the currencies of its continent |
| Settings.GroupedCurrencies | Packages/Profile/Sources/Profile/ProfileView.swift:759-761 | the groups are keyed by exactly the continents that occur |
| Settings.GroupedCurrenciesPartition | Packages/Profile/Sources/Profile/ProfileView.swift:759-761 | every currency is in its continent's group, every group holds only its continent, and no group is empty |
| Settings.Matching | Packages/Profile/Sources/Profile/ProfileView.swift:776-780 | exactly the currencies whose label, code or continent contains the search, no more than the table |
| Settings.FilteredCurrencies | Packages/Profile/Sources/Profile/ProfileView.swift:772-781 | an empty search lists the whole table; otherwise exactly the currencies whose label, code or continent contains the search |
| Settings.IndexIn | Packages/Profile/Sources/Profile/ProfileView.swift:766-767 | the position found is within the list, or one past its end |
| Settings.IndexInFound | Packages/Profile/Sources/Profile/ProfileView.swift:766-767 | `firstIndex(of:)` finds a position exactly when the name is listed, and that position is its first occurrence |
| Settings.Rank | Packages/Profile/Sources/Profile/ProfileView.swift:764-767 | a continent's rank is its position in the fixed order, and is past the end exactly when it is not listed |
| Settings.Listed | Packages/Profile/Sources/Profile/ProfileView.swift:763-770 | exactly the keys that appear in the fixed order |
| Settings.ListedOrdered | Packages/Profile/Sources/Profile/ProfileView.swift:763-770 | the listed continents come out in strictly increasing order of position |
| Settings.SortedBy | Packages/Profile/Sources/Profile/ProfileView.swift:763-770 | the sort lists exactly the keys |
| Settings.SortedContinents | Packages/Profile/Sources/Profile/ProfileView.swift:763-770 | the sorted continents are exactly the group keys |
| Settings.ListedThenOthersSorted | Packages/Profile/Sources/Profile/ProfileView.swift:763-770 | the order places listed keys by position and unlisted ones after them, each key once |
| Settings.SortedContinentsSorted | Packages/Profile/Sources/Profile/ProfileView.swift:763-770 | the sorted continents are the group keys, each once, in non-decreasing rank |
| Currencies.Currency.DisplayLabel | Packages/Core/Sources/Core/Models/Currency.swift:24-26 | the label is the flag, a space, and the name |
| Currencies.Find | Packages/Core/Sources/Core/Models/Currency.swift:28-31 | no id finds nothing; an id finds the first table entry with that code |
| Currencies.FirstWithId | Packages/Core/Sources/Core/Models/Currency.swift:30 | `first(where:)` on the code finds the entry of the table with that code that no earlier entry shares, and finds nothing exactly when no entry has it |
| Currencies.FirstWithIdFindsEntry | Packages/Core/Sources/Core/Models/Currency.swift:30 | in a table of distinct codes, looking up an entry's code finds that entry |
| Currencies.AllCurrenciesDistinct | Packages/Core/Sources/Core/Models/Currency.swift:37-121 | no two currencies of the table share a code |
| Currencies.FindFindsEveryCurrency | Packages/Core/Sources/Core/Models/Currency.swift:28-121 | every currency of the table is found by its own code |
| Currencies.ContinentsListed | Packages/Core/Sources/Core/Models/Currency.swift:37-121 | every currency's continent is one of the picker's seven |
| Pagination.Page.Appending | Packages/Core/Sources/Core/Models/Pagination.swift:19-21 | the new page holds the old items followed by the new ones, under the new cursor |
| Pagination.AppendingNothing | Packages/Core/Sources/Core/Models/Pagination.swift:19-21 | appending nothing under the same cursor changes nothing |
| Pagination.AppendingTwice | Packages/Core/Sources/Core/Models/Pagination.swift:19-21 | appending twice is appending the concatenation under the last cursor |
| Text.TrimExact | Packages/Servicing/Sources/Servicing/Models/Profile.swift:235 | trimming removes exactly the surrounding whitespace |
| Text.Trim | Packages/Servicing/Sources/Servicing/Models/Profile.swift:235 | the trimmed text starts and ends with no whitespace and is a run of the original with only whitespace around it |
| Text.Join | Packages/Servicing/Sources/Servicing/Services/ReportService.swift:44 | joining nothing gives the empty text, and joining one part gives that part |
| Text.JoinAppend | Packages/Profile/Sources/Profile/ProfileView.swift:552 | joining two non-empty runs of parts puts exactly one separator between them |
| Text.JoinLength | Packages/Servicing/Sources/Servicing/Services/ReportService.swift:44 | the joined text is as long as the parts plus one separator between each adjacent pair |
| Text.NatToStringRoundTrip | Packages/ApiClient/Sources/ApiClient/Utils/APIClientError.swift:36 | decimal printing of a natural number reads back to it |
| Text.NatToStringInjective | Packages/ApiClient/Sources/ApiClient/Utils/APIClientError.swift:36 | different natural numbers print differently |
| Text.IntToString | Packages/ApiClient/Sources/ApiClient/Utils/APIClientError.swift:36 | the printed integer is not empty and starts with a minus sign exactly when it is negative |
| Numbers.Truncate | Packages/Servicing/Sources/Servicing/Models/Target.swift:117 | `Int(Double)` truncates toward zero |

## Left out

- Concurrency. The `Task` slots are modelled, each as the result of the fetch under
  way. Interleavings, cancellation and `@unchecked Sendable` locking are not modelled.
  A joined task is assumed to deliver the recorded result.
- JSON encoding and decoding, the date decoding strategy, and request and response
  logging are not modelled. A body is given as already decoded, or as undecodable.
- `Task.sleep` is not performed. The back-off is recorded in each attempt in units of
  `baseDelay`.
- The token provider and its token are left out. Only the forced-refresh flag it
  receives is modelled.
- The clock (`Date()`) and the calendar are parameters: `now`, the one-year-back
  default threshold, and the six-months-on target end date.
- `UserDefaults` and the `@Shared` file storage are modelled only as the fields they
  back. `AccountManager`'s state stream, its auth-state subscription and
  `forceStateUpdate` are not modelled: they only re-emit `state`.
- `Double` is modelled as `real`, so floating-point rounding is not modelled. Dates
  are `real` seconds.
- Number, currency and date formatters are not modelled. `FormattedPrice` takes the
  formatter's text as a parameter, and `formattedAmount`, `formattedDuration` and the
  like are not modelled.
- Search uses `localizedCaseInsensitiveContains`. `FilteredCurrencies` takes the
  containment test as a parameter (`contains`), so locale-aware case folding is not
  modelled.
- `perPage` is not modelled. A page's size is whatever the backend's page holds.
- `getCurrentReport` is left out. It formats the current month with a `DateFormatter`
  and then calls `getReports` with that single id.
- The decoding of a report's JSON fields (`parseJsonDict`, `parseJsonSums`) is left
  out. A report DTO carries its already decoded content.
- The custom `Decodable` initialisers of `ImportFileJob`, `BillingProduct` and
  `ApiKey` are not modelled. The GraphQL query texts and the DTO wire keys are not
  modelled either.
- Settings.SortedContinents: the order among continents missing from the fixed list
  is not specified. Swift's sort is not stable, and every such continent gets
  `Int.max`. So the function is ghost, and its lemma states only the part the source
  fixes: listed continents come first, in list order, and each key appears once.
  `Int.max` is modelled as one past the end of the list.
- ApiKeys.ApiKey.MaskedId counts Unicode scalars where Swift counts grapheme
  clusters. The two agree on the identifiers the app issues, which are UUID strings.
- The option emojis in ProfileView.swift and the target's default emoji in
  TargetService.swift:124 are stored as double-encoded text: the emoji's UTF-8 bytes
  read back as Latin-1 characters. The model uses the emoji that UTF-8 encodes
  (U+1F3AF for the target default), not the stored characters. Only their being
  emoji (not ASCII) is stated.
- The display strings that only relabel a case are modelled with the enumerations:
  `TransactionType.displayName` and `emoji`, `TargetStrategy.displayName` and
  `description`, and `LimitPeriod.displayName`. Their only stated property is that
  different cases read differently.
- `Target.daysRemaining` is not modelled: it counts calendar days from the current
  date, and calendars and time zones are outside the model. `Target.isOverdue` is
  modelled with the current time as a parameter.
- Settings.FaceOf and the `Face` functions of the option enumerations state only that
  the emoji is not plain ASCII. The captions and code points are data copied from the
  enumerations.
- TargetSync.TargetFromDto, TransactionSync.TransactionFromDto and
  ProfileSync.ProfileFromDto state only some of the copied fields in their own
  contracts. The full mapping is pinned down by the lemmas beside them: the defaults
  for a bare DTO, and the round trip through a full DTO.
- Keyed.WithoutKeys states in its own contract only which elements survive. Order
  and multiplicity are stated by Keyed.WithoutKeysAppend.
- Keyed.RemoveKey states in its own contract only which elements survive. Order and
  multiplicity are stated by Keyed.RemoveKeyAppend.
- Keyed.WithKeys states in its own contract only which elements survive. Order and
  multiplicity are stated by Keyed.WithKeysAppend.
- Settings.FormatSelected states in its own contract only the "None" case. The
  one-option and several-option renderings are stated for all selections by
  Settings.FormatSelectedSingle, Settings.FormatSelectedSeveral and
  Settings.FormatSelectedIgnoresUnrecognised.
- Settings.Items and Keyed.ReplaceFirst state only the length of their result in
  their own contracts. Their contents are stated by the lemmas
  listed beside them in the table.
- AccountManager's `init` is modelled only as reading the persisted onboarding flag.
  Its state stream and auth subscription are left out, as said above.
