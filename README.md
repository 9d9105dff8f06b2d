# E-Coris client core in Dafny

E-Coris is a personal-finance and training progressive web app. This project
models the core of its browser client and proves properties of that model:

- **The service worker cache engine** (`sw.js`). It precaches the static assets
  at install and evicts old caches at activate. The fetch handler sends each
  request to one of three strategies: network-first for `/api/`, cache-first
  for static assets, and stale-while-revalidate otherwise. Background sync
  replays pending transaction POSTs. CacheStorage is a value: a sequence of
  named caches in creation order, each a sequence of request/response entries
  in insertion order (`cache_store.dfy`, `service_worker.dfy`).
- **The API client's session store and request rules** (`js/api.js`). The
  token, its seven-day expiry and the cached user live in `localStorage`.
  `request` builds the headers, throws on non-`ok` answers, and clears the
  session on 401/403. Also modelled: login, register, the current-user call,
  the query string of `getTransactions` and the summary of
  `getFormationProgress` (`api.dfy`).
- **Authentication state** (`js/auth.js`): `checkAuth` with its offline
  tolerance, `isLoggedIn`, `logout`, and `getCurrentUser`/`setCurrentUser`
  (`auth.dfy`).
- **Finances** (`js/finances.js`):
  - grouping transactions by day, newest day first, and the day total;
  - the filter merge of `loadTransactions`;
  - the budget card figures, the alert level and the dashboard balance;
  - the module's own category lookup (`finances.dfy`).
- **Formation** (`js/formation.js`):
  - `formatDuration` and the chapter percentage;
  - the Google Drive, YouTube and Vimeo identifier extractors, modelled as
    leftmost regular-expression matches;
  - the choice of video player;
  - the state guards of `checkFormationAccess`, `loadChapters`,
    `completeLesson` and `closeLesson` (`formation.dfy`).
- **Configuration** (`js/config.js`): `API_URL`, the category tables, the
  months and `getCategoryInfo` (`config.dfy`).

Shared helpers: `basics.dfy` (Option and Result), `text.dfy` (prefixes,
suffixes, search, decimal text and lexicographic order) and `user_codec.dfy`.
The last is a textual encoding of a user that stands in for
`JSON.stringify`/`JSON.parse` of the cached user.

Stateful source objects are classes whose methods state their whole new state
in terms of specification functions:

- the worker's cache store (`ServiceWorker.Worker`);
- `localStorage` with the log of requests sent (`Api.Client`);
- auth's `currentUser` (`Auth.Session`);
- the finances module state (`Finances.Ledger`);
- the formation module state (`Formation.Course`).

The network, the clock and every server answer are parameters of these
methods.

Where parts of the code disagree with each other, the model follows the code
that runs:

- `loadTransactions` calls `api.transactions.getAll`, which nothing in the
  repository defines.
- `checkFormationAccess` calls `API.getFormationAccessStatus`, which `API`
  does not define either.
- The finances filters are `dateFrom`/`dateTo`, while `getTransactions` reads
  `startDate`/`endDate`.

The server outcome of each of these calls is therefore a parameter.
`cacheFirst`'s offline branch is also modelled as written:
`caches.match('/offline.html') || new Response(...)` always takes the left
operand, because a promise is always truthy.

## Model

| member | source | states |
|---|---|---|
| CacheStore.Lookup | sw.js:92 | `cache.match(k)` finds a response only if an entry for `k` holds it, and finds none only when no entry has key `k` |
| CacheStore.Without | sw.js:241 | deleting key `k` keeps exactly the entries whose key is not `k` and never grows the cache |
| CacheStore.WithoutKeepsDistinct | sw.js:241 | deleting a key keeps a cache free of duplicate keys |
| CacheStore.LookupAppended | sw.js:103 | after replacing key `k` with a new entry at the end, `k` looks up to the new response |
| CacheStore.LookupOtherAppended | sw.js:103 | replacing key `k` changes the lookup of no other key |
| CacheStore.LookupWithoutOther | sw.js:241 | deleting key `k` changes the lookup of no other key |
| CacheStore.KeysOf | sw.js:235 | `cache.keys()` lists the stored request keys, one per entry, in insertion order |
| CacheStore.IndexOf | sw.js:33 | a cache name resolves to its first position in creation order, or to none when no cache has that name |
| CacheStore.Names | sw.js:47 | `caches.keys()` lists the cache names in creation order |
| CacheStore.Open | sw.js:33 | `caches.open(name)` makes `name` exist, keeps its entries and moves no other cache |
| CacheStore.IndexOfAppend | sw.js:33 | creating a cache at the end moves no existing cache |
| CacheStore.IndexOfUpdate | sw.js:103 | rewriting a cache's entries moves no cache |
| CacheStore.SetEntries | sw.js:103 | rewriting one cache's entries leaves that cache holding exactly the new entries and every other cache as it was |
| CacheStore.DeleteCache | sw.js:54 | `caches.delete(name)` removes exactly the caches called `name` |
| CacheStore.MatchIff | sw.js:92 | `caches.match(k)` answers iff some cache holds `k`, and the answer comes from a cache that holds it |
| CacheStore.MatchFirstHolder | sw.js:92 | the earliest-created cache holding `k` answers `caches.match(k)` |
| CacheStore.PutStores | sw.js:101-104 | after `cache.put(k, r)`, that cache holds `r` under `k` |
| CacheStore.PutFrames | sw.js:101-104 | a put changes no other key of that cache and no other cache |
| CacheStore.PutKeepsDistinct | sw.js:101-104 | a put keeps a cache free of duplicate keys |
| CacheStore.DeleteRemoves | sw.js:241 | after `cache.delete(k)` the cache holds nothing under `k`, and no other key or cache changes |
| CacheStore.MatchAfterPut | sw.js:101-104 | after a put, `caches.match` finds a response for the key |
| ServiceWorker.SomeEndsWith | sw.js:169 | `some(ext => endsWith(ext))` holds iff some listed extension ends the pathname |
| ServiceWorker.Classify | sw.js:63-86 | the strategy is decided rule by rule: non-GET is left alone; GET under `/api/` is network-first; a GET static asset is cache-first; any other GET is stale-while-revalidate (each as an iff) |
| ServiceWorker.NotStaticByLastChar | sw.js:167-170 | a pathname whose last character ends none of the nine extensions is not a static asset |
| ServiceWorker.ShellIsNotStatic | sw.js:11-26 | `/`, `/index.html` and `/manifest.json` carry no static extension |
| ServiceWorker.ApiPrefixBeforeExtensions | sw.js:73-82 | every GET whose pathname starts with `/api/` is network-first, and never cache-first even when it carries a static extension |
| ServiceWorker.ApiScriptIsNetworkFirst | sw.js:73-82 | `/api/export.js` is a static asset by its extension, yet it is served network-first |
| ServiceWorker.ClassifyExamples | sw.js:63-86 | a script outside the API is cache-first, an extensionless page is stale-while-revalidate, and a POST is not intercepted |
| ServiceWorker.PrecacheKeys | sw.js:11-26 | each listed asset is fetched and keyed as a GET of its resolved URL, in list order |
| ServiceWorker.Evicted | sw.js:43-60 | activate keeps exactly the caches named as the current static or dynamic cache |
| ServiceWorker.Retain | sw.js:49-56 | deleting a set of cache names keeps exactly the caches with other names |
| ServiceWorker.DeleteCacheRetain | sw.js:52-55 | deleting the names one by one is the same as deleting them as a set |
| ServiceWorker.RetainNothing | sw.js:49-56 | deleting no name keeps the store as it was |
| ServiceWorker.StaleStep | sw.js:50-51 | the stale names after one more cache name are the previous ones, plus that name when it is not current |
| ServiceWorker.RetainStaleNamesIsEvicted | sw.js:47-56 | deleting the filtered names of `caches.keys()` leaves exactly the current caches |
| ServiceWorker.RetainStaleIsEvicted | sw.js:47-56 | deleting any set that holds exactly the non-current names present leaves exactly the current caches |
| ServiceWorker.Pending | sw.js:237-238 | the replayed keys are exactly the snapshot's POSTs whose URL contains `/api/transactions` |
| ServiceWorker.Delivered | sw.js:239-241 | the deleted keys are exactly the pending ones whose fetch resolved, whatever its status |
| ServiceWorker.RemoveKeysMembers | sw.js:241 | deleting a list of keys in turn keeps exactly the entries whose key is not in the list |
| ServiceWorker.SetEntriesTwice | sw.js:241 | rewriting a cache twice is the same as rewriting it with the last entries |
| ServiceWorker.PutGetKeepsOnlyGet | sw.js:67-70 | storing a GET keeps the dynamic cache free of non-GET keys |
| ServiceWorker.ReplayIdleWithoutPosts | sw.js:237-246 | a cache of GETs replays nothing and deletes nothing |
| ServiceWorker.ReplayKeeps | sw.js:237-246 | an entry survives the sync iff it is not a pending transaction or its replay rejected |
| ServiceWorker.PrecacheSkipsOfflinePage | sw.js:11-26 | precaching never stores `/offline.html`, so its lookup in the static cache is what it was before install |
| ServiceWorker.AssetIsNotOfflinePage | sw.js:11-26 | no listed asset resolves to the offline page |
| ServiceWorker.PutAllOthers | sw.js:36 | precaching a list of keys changes the lookup of no other key |
| ServiceWorker.EvictionKeepsCurrent | sw.js:43-60 | after activate only current caches remain, `CACHE_NAME` is gone, nothing is added and every current cache is kept |
| ServiceWorker.EvictedShrinks | sw.js:43-60 | activate never adds a cache |
| ServiceWorker.PrecachedShadowsRevalidated | sw.js:148-162 | a precached page in the static cache still answers `caches.match` after a revalidated copy goes to the dynamic cache |
| ServiceWorker.Worker.constructor | sw.js:6-8 | a worker starts with its origin and store, and no fetches sent |
| ServiceWorker.PutAllStores | sw.js:36 | when every fetch is `ok`, each precached key looks up to its own answer, and no other cache changes |
| ServiceWorker.AddAllEffect | sw.js:33-36 | `addAll` is all or nothing: with every fetch `ok` each key is stored with its answer, otherwise the cache keeps its old entries; no other cache changes |
| ServiceWorker.Worker.Install | sw.js:29-40 | install fetches every asset in order; when all are `ok` each asset's key looks up to its answer in the static cache, otherwise the static cache keeps its entries; other caches are untouched |
| ServiceWorker.Worker.Activate | sw.js:43-60 | activate leaves exactly the current caches and fetches nothing |
| ServiceWorker.Worker.CacheFirst | sw.js:91-113 | a hit answers without fetching; a miss fetches and stores an `ok` answer in the static cache; offline it answers the offline page's lookup |
| ServiceWorker.Worker.NetworkFirst | sw.js:118-143 | always fetches; an `ok` answer is stored in the dynamic cache; offline it answers from the cache, else with a 503 JSON body |
| ServiceWorker.Worker.StaleWhileRevalidate | sw.js:148-162 | always fetches; answers with the cached response if any, else with the network's; an `ok` answer is stored in the dynamic cache |
| ServiceWorker.Worker.HandleFetch | sw.js:63-86 | a request is left to the browser iff it is not a GET; for each strategy the answer, the fetch sent and the new store are given (a cache-first hit sends nothing and keeps the store; otherwise an `ok` answer is put into the strategy's cache); the dynamic cache never gains a non-GET key |
| ServiceWorker.Worker.SyncTransactions | sw.js:232-250 | the sync replays exactly the pending transactions of a snapshot of the dynamic cache, and deletes exactly those whose fetch resolved |
| ServiceWorker.ReplayPending | sw.js:237-246 | the replay loop sends the pending keys in snapshot order and leaves the store that deleting the delivered ones gives |
| ServiceWorker.ReplayStep | sw.js:237-246 | one loop step: a pending key is sent, and deleted when delivered; any other key changes nothing |
| ServiceWorker.DeleteAfterSet | sw.js:241 | deleting a key after rewriting a cache is rewriting it without that key |
| ServiceWorker.SetEntriesOpened | sw.js:234 | opening the cache before rewriting it changes nothing |
| Api.BeforeExpiryText | js/api.js:19-20 | the stored expiry lies in the future iff the session's end is later than now |
| Api.Cleared | js/api.js:64-68 | `clearSession` removes exactly the three session keys and leaves every other value |
| Api.TokenAt | js/api.js:13-30 | `getToken` returns the stored token or null |
| Api.CachedUser | js/api.js:46-56 | `getCachedUser` returns a user only when a truthy value is stored and it decodes to that user |
| Api.TokenUnexpired | js/api.js:18-22 | an unexpired token is returned and nothing changes |
| Api.TokenExpired | js/api.js:23-26 | an expired session is cleared, token and user included, and null is returned |
| Api.TokenWithoutExpiry | js/api.js:29 | without a stored expiry the stored token is returned unchecked |
| Api.GetTokenIdempotent | js/api.js:13-30 | a second `getToken` at the same instant returns the same and changes nothing more |
| Api.ClearedEndsSession | js/api.js:64-68 | after `clearSession` no session is valid, no token or user is read back, and other keys are untouched |
| Api.WithTokenExpiry | js/api.js:32-39 | `setToken` stores the token and an expiry exactly seven days on, touching nothing else |
| Api.TokenLastsSevenDays | js/api.js:32-39 | a token just set is returned until seven days have passed, and cleared from then on |
| Api.CachedUserRoundTrip | js/api.js:46-62 | a user stored by `setCachedUser` reads back as itself; a falsy user stores nothing |
| Api.ValidSessionKeepsToken | js/api.js:71-82 | a valid session's token is returned by `getToken`, which then changes nothing |
| Api.ValidSessionIff | js/api.js:71-82 | `hasValidSession` holds iff a token, an expiry and a user are stored and the expiry lies in the future |
| Api.Headers | js/api.js:87-94 | JSON content type unless the caller sets one; caller headers kept; a truthy token becomes the bearer `Authorization` |
| Api.ErrorMessage | js/api.js:108 | the thrown message is the server's error text, else "Erreur serveur", never empty |
| Api.Outcome | js/api.js:96-116 | `request` resolves iff the body decoded and the status is `ok`, with that body; otherwise it throws |
| Api.RejectedAnswerThrows | js/api.js:104-110 | a decoded non-`ok` answer throws the server's error or "Erreur serveur" |
| Api.RequestClearsOnlyOnRefusal | js/api.js:100-103 | only a decoded 401 or 403 clears the session; any other exchange leaves what `getToken` left |
| Api.UndecodableRefusalKeepsSession | js/api.js:98-103 | a 401 whose body is not JSON throws the parse error before the status is read, so nothing is cleared |
| Api.SignInOpensSession | js/api.js:120-145 | a sign-in answer with a token and a user opens a session valid for seven days, returning that token and user |
| Api.FreshSession | js/api.js:32-62 | a token and a user just stored make a valid session with that token and user for seven days |
| Api.SignInWithoutTokenStoresNothing | js/api.js:125-128 | a sign-in answer without a token stores nothing more than `request` did |
| Api.RankedAppend | js/api.js:164-168 | appending later parameters after earlier ones keeps the order |
| Api.Param | js/api.js:165-168 | one `params.append(name, value)` adds the pair iff its guard holds |
| Api.TransactionParamsSelect | js/api.js:163-171 | each filter is sent iff it is set (and, for type and category, not `'all'`), with its own value |
| Api.ParamsHold | js/api.js:165-168 | a pair is in the query iff one of the four appends made it |
| Api.TransactionParamsRanked | js/api.js:164-168 | the parameters come in the order type, category, start date, end date |
| Api.ProgressOf | js/api.js:269-276 | each summary field is the server's field, or 0 when missing |
| Api.RegisterBody | js/api.js:132-139 | the body holds name, email and password, plus the purchase code only when one is given |
| Api.Client.constructor | js/api.js:6-10 | a client starts with its base URL and storage, and no requests sent |
| Api.Client.ClearSession | js/api.js:64-68 | the storage becomes its cleared form; nothing is sent |
| Api.Client.GetToken | js/api.js:13-30 | the result and the new storage are `getToken`'s |
| Api.Client.SetToken | js/api.js:32-39 | the storage gains the token and its seven-day expiry |
| Api.Client.RemoveToken | js/api.js:41-43 | `removeToken` clears the whole session |
| Api.Client.GetCachedUser | js/api.js:46-56 | the result is the decoded cached user, if any |
| Api.Client.SetCachedUser | js/api.js:58-62 | a truthy user is stored encoded; nothing else changes |
| Api.Client.HasValidSession | js/api.js:71-82 | the answer is `hasValidSession`, and then `getToken` would return the stored token |
| Api.Client.Request | js/api.js:85-117 | exactly one call is sent with the built headers; the outcome is returned or thrown; the session is cleared only on refusal |
| Api.Client.StoreSignIn | js/api.js:125-128 | a successful answer with a token stores that token and its user; otherwise nothing changes |
| Api.Client.Login | js/api.js:120-130 | one POST to `/auth/login` with the credentials; a returned token opens the session |
| Api.Client.Register | js/api.js:132-145 | one POST to `/auth/register` with the register body; a returned token opens the session |
| Api.Client.FetchCurrentUser | js/api.js:147-153 | one GET of `/auth/me`; a returned user is cached |
| Api.Client.GetTransactions | js/api.js:163-171 | one GET of `/transactions?` followed by the filter query |
| Api.Client.GetFormationProgress | js/api.js:269-276 | one GET of `/courses/progress`, summarised with missing fields as 0, or the thrown error |
| Auth.CurrentUserOf | js/auth.js:228-230 | the in-memory user wins, else the cached one |
| Auth.NoLocalSessionRefused | js/auth.js:15-18 | without a valid local session `checkAuth` answers false and changes nothing |
| Auth.ServerConfirms | js/auth.js:28-32 | a confirmed session answers true with the server's user, and stays logged in iff some user is known |
| Auth.OfflineKeepsSession | js/auth.js:37-40 | offline with a cached user, the answer is true and the session is kept |
| Auth.OtherFailureSignsOut | js/auth.js:43-45 | any other failure clears the session, nulls the user and answers false |
| Auth.RefusalMentioningFetchAccepted | js/auth.js:37-40 | a 401/403 whose error mentions "fetch" clears storage inside `request` yet `checkAuth` answers true |
| Auth.AcceptedMeansLoggedIn | js/auth.js:13-55 | an accepted check without a refusal, with a user, leaves the user logged in |
| Auth.LogoutSignsOut | js/auth.js:142-148 | after `logout` nobody is logged in at any time and no user is known |
| Auth.SetUserIsCurrent | js/auth.js:235-240 | `setCurrentUser(u)` makes `u` current in memory and in the cache |
| Auth.LoggedInIff | js/auth.js:53-55 | `isLoggedIn` implies a valid session; with one, it holds iff some user is known |
| Auth.Session.constructor | js/auth.js:7 | no current user at start |
| Auth.Session.CheckAuth | js/auth.js:13-47 | the answer, user and storage are those of the `checkAuth` specification; `/auth/me` is called only with a valid session |
| Auth.Session.IsLoggedIn | js/auth.js:53-55 | the answer is `LoggedIn` of the current state |
| Auth.Session.Logout | js/auth.js:142-148 | the session is cleared and the user nulled; nothing is sent |
| Auth.Session.GetCurrentUser | js/auth.js:228-230 | the result is the in-memory user, else the cached one |
| Auth.Session.SetCurrentUser | js/auth.js:235-240 | the user becomes current and a truthy one is cached |
| Config.ApiUrl | js/config.js:6-11 | the local URL iff the host is `localhost` or `127.0.0.1`, else the remote one, both ending in `/api` |
| Config.TableFor | js/config.js:65-68 | the income table iff the type is `'income'` |
| Config.GetCategoryInfo | js/config.js:65-68 | a known key gives its table entry; any other gives the fallback labelled with the key, or "Autre" for none |
| Config.TablesDisjoint | js/config.js:14-41 | no key is both an income and an expense category, and there are twelve months |
| Config.TypeSelectsTable | js/config.js:65-68 | an income key looked up as an expense falls back to the default labelled with the key |
| Config.FallbackMatchesOtherExpense | js/config.js:65-68 | the fallback has the icon and colour of the "other expense" entry |
| Finances.OfDay | js/finances.js:128-132 | a day's list holds exactly the input's transactions of that day |
| Finances.OfDayStep | js/finances.js:128-132 | one more transaction joins only its own day's list, at the end |
| Finances.OfDayCount | js/finances.js:126-141 | each transaction occurs in its day's list as often as in the input, and in no other list |
| Finances.OfDayLast | js/finances.js:128-132 | the last transaction ends its own day's list and no other |
| Finances.GroupingPartitions | js/finances.js:126-141 | each transaction is in its own day's group as often as in the input, in no other group, and no day has two groups |
| Finances.InsertPermutes | js/finances.js:136-138 | inserting a key adds exactly that key |
| Finances.InsertKeepsDescending | js/finances.js:136-138 | inserting a new key keeps the keys newest first |
| Finances.SortPermutes | js/finances.js:136-138 | sorting the day keys keeps the same keys |
| Finances.SortSorts | js/finances.js:136-138 | sorting distinct day keys gives them strictly newest first |
| Finances.CollectStep | js/finances.js:128-132 | one step of the first pass keeps the dictionary complete and the first-seen order distinct |
| Finances.CollectDayStep | js/finances.js:128-132 | one step keeps every day's list equal to that day's transactions so far |
| Finances.AppendNewKey | js/finances.js:129-131 | a day seen for the first time keeps the key order free of duplicates |
| Finances.CollectByDay | js/finances.js:128-132 | the first pass maps each day present to exactly its transactions, in order, with its days listed once |
| Finances.CollectOne | js/finances.js:128-132 | one loop pass adds a transaction to its day and a new day to the order |
| Finances.GroupTransactionsByDate | js/finances.js:126-141 | the result is one group per day present, holding that day's transactions in input order, newest day first |
| Finances.Rebuild | js/finances.js:136-140 | the second pass builds one group per key, in key order |
| Finances.RebuiltIsGrouping | js/finances.js:136-140 | lists collected per day, laid out in sorted-key order, form the grouping |
| Finances.SameMembers | js/finances.js:136-138 | a permutation of the keys has the same members |
| Finances.SumSnoc | js/finances.js:64-66 | adding a transaction adds its amount |
| Finances.DayTotalSplit | js/finances.js:64-66 | the day total is the day's income minus everything else spent that day |
| Finances.BudgetFigures | js/finances.js:334-338 | spent defaults to 0; remaining is budget minus spent; over-budget iff spent exceeds budget; the bar never exceeds 100; a zero budget gives NaN iff nothing is spent |
| Finances.PositiveBudgetPercent | js/finances.js:334-338 | for a positive budget the bar is full iff the budget is used up, an over-budget card is full, and the bar is non-negative when spending is |
| Finances.QuotientBelowOne | js/finances.js:336 | spending below a positive budget gives a fraction below one |
| Finances.AlertFor | js/finances.js:644 | an alert is a danger alert iff its percentage has reached 100 |
| Finances.BudgetAlertAgrees | js/finances.js:644 | a budget's capped percentage makes a danger alert iff the budget is used up |
| Finances.Balance | js/finances.js:541 | the balance is income minus expense (missing totals read 0), non-negative iff income covers expense |
| Finances.CategoryInfoFor | js/finances.js:168-171 | a known key gives the configuration entry; any other gives the tag-icon fallback labelled with the key |
| Finances.CategoryLookupsAgreeOnKnownKeys | js/finances.js:168-171 | the two lookups agree iff the key is in the selected table |
| Finances.Merge | js/finances.js:25-26 | the merged filters have both key sets, supplied values winning over current ones |
| Finances.MergeIdempotent | js/finances.js:25-26 | merging the same filters again, or merging none, changes nothing |
| Finances.FullFiltersReplace | js/finances.js:10-26 | filters supplying all four keys replace the initial ones entirely |
| Finances.Ledger.constructor | js/finances.js:7-15 | no transactions, the initial filters, and no requests at start |
| Finances.Ledger.LoadTransactions | js/finances.js:22-37 | the filters are merged and kept whatever the outcome; on success the answer's list, or none, replaces the transactions; on failure they are kept and the result is empty |
| Formation.ParseFormatDuration | js/formation.js:494-501 | a formatted duration reads back as its number of minutes, so different durations never show the same text |
| Formation.ParseMinutesOnly | js/formation.js:495-497 | "m min" reads back as `m` |
| Formation.ParseHoursOnly | js/formation.js:500 | "Hh" reads back as `60*H` |
| Formation.ParseHoursAndMinutes | js/formation.js:498-500 | "Hh Mmin" reads back as `60*H+M` |
| Formation.ChapterPercent | js/formation.js:129-132 | no lessons give 0; otherwise the result is `completed/total*100` rounded half up |
| Formation.ChapterCompletedIff | js/formation.js:130-133 | a chapter shows as completed iff `completed/total` is within half a percent of 1, from below or above |
| Formation.RoundingCompletesEarly | js/formation.js:130-133 | all lessons done completes a chapter; with 200 lessons or more, all but one already does; with fewer, it does not |
| Formation.Run | js/formation.js:417-449 | a greedy run takes only class characters and stops only at a non-class character or the end |
| Formation.CaptureAt | js/formation.js:417-449 | a capture has the quantifier's shape, and none exists only when the text there cannot supply one |
| Formation.AltMatchAt | js/formation.js:434 | a match of alternatives yields a capture of the pattern's shape |
| Formation.SingleAlternative | js/formation.js:449 | with one literal, a match at `i` is that literal at `i` and a capture right after it |
| Formation.Leftmost | js/formation.js:423 | the start found is the leftmost where the pattern matches |
| Formation.Match | js/formation.js:423-450 | `url.match(p)[1]` exists iff the pattern matches somewhere, and has the pattern's shape |
| Formation.MatchIsLeftmost | js/formation.js:423 | a match with none before it is the one returned |
| Formation.SingleLiteralMatch | js/formation.js:449-450 | a one-literal pattern's result is the capture right after some occurrence of the literal |
| Formation.FirstOf | js/formation.js:422-426 | the pattern loop returns null iff no pattern matches |
| Formation.FirstOfStep | js/formation.js:422-426 | the first pattern that matches gives the result |
| Formation.FirstOfShaped | js/formation.js:416-442 | patterns sharing a class and count give results of that shape |
| Formation.ExtractGoogleDriveId | js/formation.js:415-427 | a Drive identifier is non-empty and made of `[a-zA-Z0-9_-]` |
| Formation.DriveOrder | js/formation.js:416-426 | `/file/d/` wins, else the first `id=` decides |
| Formation.OpenImpliesId | js/formation.js:418-419 | whenever `/open?id=` matches, `id=` does too, so the third pattern never decides |
| Formation.ExtractYoutubeId | js/formation.js:432-443 | a YouTube identifier is exactly 11 characters of `[a-zA-Z0-9_-]` |
| Formation.YoutubeOrder | js/formation.js:433-442 | `watch?v=`/`youtu.be/` links are read first, `/embed/` only when there are none |
| Formation.ExtractVimeoId | js/formation.js:448-451 | a Vimeo identifier is a non-empty run of digits |
| Formation.VimeoFollows | js/formation.js:448-451 | the identifier is the whole digit run after some `vimeo.com/`; without one, no `vimeo.com/` is followed by a digit |
| Formation.RenderVideoPlayer | js/formation.js:358-410 | the first host named decides: Drive, then YouTube, then Vimeo, each embedded iff its extractor finds an identifier; anything else plays the link directly |
| Formation.PlayerIdentifiers | js/formation.js:358-410 | every embedded player carries a well-formed identifier; a link naming no host is played as is |
| Formation.DriveLinkWithoutIdIsDirect | js/formation.js:360-372 | a Drive link without a file identifier is played directly, even if it also names YouTube |
| Formation.ChapterPercentOf | js/formation.js:129-132 | a chapter without progress shows 0 |
| Formation.Course.constructor | js/formation.js:7-11 | no access, no chapters, no open lesson and no progress at start |
| Formation.Course.CheckFormationAccess | js/formation.js:18-50 | access is granted iff the server answers true, and a failure means no access; when access is granted and the formation view is shown, `updateFormationUI` loads the chapters as `loadChapters` does; otherwise chapters, progress and requests are unchanged |
| Formation.Course.LoadChapters | js/formation.js:85-104 | without access nothing happens; with it both lists are asked for and replaced only when both calls succeed |
| Formation.Course.CompleteLesson | js/formation.js:456-478 | without an open unfinished lesson nothing happens; once the server accepts, the lesson is completed and progress is reloaded when that call succeeds |
| Formation.Course.CloseLesson | js/formation.js:482-487 | no lesson stays open and the chapters are reloaded under the same guard; a failed call keeps chapters and progress |
| UserCodec.DecodeEncode | js/api.js:46-62 | a user encoded for storage decodes back to itself |
| UserCodec.DecodeOnlyEncodings | js/api.js:46-62 | stored text decodes to a user iff it is exactly that user's encoding, so any other text (a number with a leading zero included) is rejected |
| UserCodec.DecodeRejectsWords | js/api.js:51-53 | the empty text and `null` do not decode |

## Left out

- JSON: the cached user is stored with a textual encoding (`UserCodec`) that
  round-trips like `JSON.stringify`/`JSON.parse`, but does not produce JSON
  text. Server answers are already-decoded payloads, or a decoding failure
  carrying its message.
- Api.WithToken: the expiry is stored as the decimal count of milliseconds,
  not as an ISO date. Seven days are exactly 604800000 ms, so a `setDate`
  step across a daylight-saving change is not modelled.
- Api.QueryString: `URLSearchParams` percent-encoding is not modelled; the
  pairs are joined as given.
- Finances.DayTotal, Finances.BudgetFigures, Finances.Balance: amounts are
  exact reals rather than IEEE doubles, so rounding of sums is not modelled.
  NaN and minus infinity are modelled only where the budget bar can produce
  them.
- Formation.ChapterPercent: `Math.round` of a floating quotient is modelled
  as exact rounding half up; floating error is not modelled.
- Finances.DayKey: malformed dates (no `T`, or not `YYYY-MM-DD`) are not
  modelled. Days are compared as text, which is what `new Date(b) - new Date(a)`
  gives for ISO days.
- Finances.GroupTransactionsByDate: the source returns an object. The model
  returns a sequence of groups in the object's key order, newest day first.
  JavaScript's integer-like key ordering cannot apply to ISO days.
- ServiceWorker.Worker.StaleWhileRevalidate: the detached refresh is taken as
  the step right after the answer; interleaving with other requests is not
  modelled.
- ServiceWorker.Worker.CacheFirst: the unreachable 503 "Hors ligne" response
  has no behaviour to model, because the `||` always takes the promise.
- CacheStore: a cache is a sequence of request keys (method and URL).
  `Request` object identity, `Vary` headers and response cloning are not
  modelled.
- `Promise.all` concurrency in `activate` and `loadChapters`, and the `await`
  interleavings in general: each handler runs to completion as one step.
- Formation.Course.CompleteLesson: the source sets `completed` on the lesson
  object in place. That object comes from `getLesson` and is shared with
  nothing in the modelled state, so the model replaces the open lesson by a
  completed copy.
- Formation.Course.CheckFormationAccess: `data.hasAccess` is a boolean
  answer. `API.getFormationAccessStatus` is not part of this model; the
  repository does not define it, so no endpoint is logged for the access call.
  The `loadChapters` that `updateFormationUI` starts is not awaited; it is
  taken as the step right after. The locked/content view switching is DOM
  work and is not modelled.
- Finances.Ledger.LoadTransactions: `api.transactions.getAll` is not part of
  this model; the repository does not define it. The server's outcome is a
  parameter.
- The push and `notificationclick` handlers, `self.skipWaiting`,
  `clients.claim` and console logging: they have no effect on the state
  modelled.
- DOM rendering, toasts, Chart.js and UI handlers: the model keeps the values
  they display, not the markup.
- `js/app.js`: page routing and start-up are not part of this model.
- `openLesson`, `activateFormation`, `loadLessons` and `toggleChapter`:
  these are formation UI flows outside the modelled state guards.
  `updateFormationUI` is modelled only through its call to `loadChapters`.
- Config.GetCategoryInfo, Finances.CategoryInfoFor: the tables are maps, so
  a key inherited from `Object.prototype` (`constructor`, `toString`,
  `__proto__`) takes the fallback. JavaScript's `cats[category]` would find
  the inherited member instead.
- Formation.FormatDuration: minutes are whole numbers. The source also
  renders fractional minutes (`90.5` gives "1h 30.5min"); those are not
  modelled.
- The thin API wrappers (`activateCode`, `createTransaction`, the budget,
  goal and dashboard calls, `getChapters`, `markLessonComplete`): each is one
  `request` with a fixed endpoint. `Api.Client.Request` covers their
  behaviour, and formation takes their outcomes as parameters.
