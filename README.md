# Watch-list and quote cache of a price-overlay browser extension

The extension keeps a list of at most three Dexscreener pairs in the
browser's synchronised storage area. A background script refreshes a quote
cache in the local area: on a periodic alarm, and whenever the list changes.
This project models that core in Dafny and proves properties of the model:

- `types.dfy` (module `Types`): the capacity `MAX_TOKENS = 3`, `Token`
  (`pairId` and `symbol` always present; `icon` and `baseAddress` optional),
  `Quote` (nullable `price` and `change24h`, a timestamp, optional `stale`)
  and `QuotesMap`, keyed by pair id.
- `watchlist.dfy` (module `WatchList`): the list logic. This covers the
  de-duplication `setTokens` performs (`FirstOccurrences`), the filter
  `removeToken` applies (`RemoveId`) and the list invariant `WellFormed`
  (at most three entries, no canonical id twice). Pair ids are compared
  through `canon`, an arbitrary total function on strings standing for
  `toLowerCase`.
- `storage.dfy` (module `Storage`): the two storage areas. Values in the
  sync area are raw: a key may be missing or hold the wrong type. Every
  `set` on an area is one entry of a write log.
  - `ensureInit` is the schema migration; its specification is
    `MigrationPatch`/`Migrate`.
  - `setTokens`, `addToken` and `removeToken` are specified as state
    transitions (`SetTokensStep`, `AddTokenStep`, `RemoveTokenStep`): the
    new sync area, the writes in order, and the error raised, if any.
  - The `watch*` handlers are modelled as functions from a change event to
    what their callback receives.
  - The class `Store` implements the operations imperatively. The `seen`
    set filter of `setTokens` is a loop with invariants. Each method is
    proved to produce exactly its transition's new state and writes.
- `dexscreener.dfy` (module `Dexscreener`): the pure mappings from a pair
  response to a quote or to display metadata, and `fetchQuotes` as a serial
  loop. The HTTP layer is an oracle `fetch(k, id)`, giving the k-th request
  of a cycle. `Date.now` is a parameter `clock(k)`.
- `background.dfy` (module `Background`): `runOnce` and the alarm and
  storage-change listeners that start it. The code has no busy flag, so
  the model has no busy state and cycles have no guard against overlapping.

`PickPair` (`r?.pairs?.[0]`, lib/dexscreener.ts:34-36) is stated through the
contracts of `FetchOne`, `ItemQuote` and `ResolvePairMeta`, which are
written in terms of it. The `MAX_TOKENS` constant and the storage-schema types of lib/types.ts:1-29
are the datatypes and the constant of `Types` and `Storage`.

Points where the code behaves differently from what one might expect:

- `fetchOne` lets a failed request propagate. `fetchQuotes` is what turns
  that failure into a stale placeholder.
- There is no drop-if-busy state machine.
- Pair ids are stored in their original case and only compared through
  `canon`.
- On an unversioned store the migration rewrites the stored array as it is.
  It does not de-duplicate it or cut it to three entries. The list
  invariant is therefore preserved, not established, by the migration.
- `setTokens` and `addToken` raise two different capacity errors
  (`ListTooLong`, `CapacityExceeded`).
- On such a kept array that repeats a canonical id, `removeToken` rewrites
  the list through `setTokens`, so it also drops the repetitions. This
  happens even when the removed id is not watched: `[a, b]` with the same
  pair id becomes `[a]` (`RemoveAbsentIdDeduplicates`).

## Model

| member | source | states |
|---|---|---|
| `Storage.MigrationPatch` | lib/storage.ts:38-61 | the migration writes nothing exactly when the store is current (tokens an array, version a number at least 3, flag a boolean); an unversioned store gets all three keys (the array or `[]`, version 3, the flag or `true`); a versioned store gets only the keys that need repair: `tokens: []` exactly when the array is missing or malformed, version 3 exactly when it is below 3, `widgetEnabled: true` exactly when the flag is missing or malformed |
| `Storage.MigrationWrites` | lib/storage.ts:38-61 | the migration makes at most one write, and none exactly when the store is current |
| `Storage.Migrate` | lib/storage.ts:35-61 | after the migration the store is current: an array of tokens is kept and anything else becomes `[]`; a boolean flag is kept and anything else becomes `true`; a missing, zero or lower version becomes 3 and a higher one is kept; the version never decreases; a current store is left untouched |
| `Storage.MigrationIdempotent` | lib/storage.ts:47-61 | a second migration run writes nothing and changes nothing |
| `Storage.ReadTokens` | lib/storage.ts:65-69 | `getTokens` returns the stored array, or `[]` when the stored value is missing or not an array |
| `Storage.ReadWidgetEnabled` | lib/storage.ts:140-144 | `getWidgetEnabled` returns the stored boolean, and `true` when there is none |
| `Storage.SetTokensRejectsOverlong` | lib/storage.ts:72-73 | a list longer than 3 raises ListTooLong, leaves the store as it was and writes nothing |
| `Storage.SetTokensStoresFirstOccurrences` | lib/storage.ts:74-81 | a list of at most 3 is stored by one write of `tokens` alone; the stored list is well-formed, is a subsequence of the input and keeps every canonical id of the input |
| `Storage.AddTokenDuplicate` | lib/storage.ts:85-89 | a token whose canonical id is already stored raises Duplicate even when the list is full; the list is as the migration left it and nothing else is written |
| `Storage.AddTokenAtCapacity` | lib/storage.ts:90-91 | a new token on a list of 3 or more raises CapacityExceeded and nothing beyond the migration is written |
| `Storage.AddTokenAppends` | lib/storage.ts:84-94 | `addToken` succeeds if and only if the id is new and the list has room; it then writes once after the migration, storing the de-duplicated list with `tok` appended in its original case, which is `old + [tok]` on a list with distinct ids and is always well-formed |
| `Storage.RemoveTokenFiltersWellFormed` | lib/storage.ts:96-102 | on a well-formed list, `removeToken` succeeds and writes once after the migration; the stored list is the old one without the entries of `id`'s canonical id; it is well-formed; for an absent id it is the same list |
| `Storage.RemoveTokenStoresFiltered` | lib/storage.ts:96-102 | on any stored list, `removeToken` succeeds exactly when the filtered list has at most 3 entries; it then writes once after the migration, storing the first occurrences of the filtered list, which is well-formed and has no entry with `id`'s canonical id |
| `Storage.RemoveAbsentIdDeduplicates` | lib/storage.ts:96-102 | on a stored `[a, b]` whose entries share a pair id, removing an id that is not watched stores `[a]` |
| `Storage.RemoveTokenOverfull` | lib/storage.ts:96-102 | when the filtered list still has more than 3 entries (an over-full stored array), `removeToken` raises ListTooLong through `setTokens` and writes nothing beyond the migration |
| `Storage.ListInvariantPreserved` | lib/storage.ts:71-102 | the migration, `setTokens`, `addToken` and `removeToken` all keep the list invariant (at most 3, distinct canonical ids) |
| `Storage.WatchersSeeTheirWrites` | lib/storage.ts:104-162 | `watchTokens` and `watchWidgetEnabled` react only to sync writes of their key and `watchQuotes` only to local writes; each receives the complete written value |
| `Storage.ListChangeCarriesFullList` | lib/storage.ts:109-111 | the last write of a successful add or remove hands `watchTokens` the complete new list as stored, not a delta |
| `Storage.Apply` | lib/storage.ts:14-15 | defines the sync area after one partial `set`: written keys replaced, the others kept; its use is stated by `Storage.Store.SetSync` and `Storage.Migrate` |
| `Storage.SetTokensStep` | lib/storage.ts:71-82 | defines the `setTokens` transition; its properties are `Storage.SetTokensRejectsOverlong` and `Storage.SetTokensStoresFirstOccurrences` |
| `Storage.AddTokenStep` | lib/storage.ts:84-94 | defines the `addToken` transition (migrate, Duplicate check, capacity check, `setTokens` on the appended list); its properties are `Storage.AddTokenDuplicate`, `Storage.AddTokenAtCapacity` and `Storage.AddTokenAppends` |
| `Storage.RemoveTokenStep` | lib/storage.ts:96-102 | defines the `removeToken` transition (migrate, filter, `setTokens`); its properties are `Storage.RemoveTokenStoresFiltered`, `Storage.RemoveTokenFiltersWellFormed` and `Storage.RemoveTokenOverfull` |
| `Storage.TokensDelivered` | lib/storage.ts:104-115 | defines what the `watchTokens` callback receives for a change event: the new `tokens` value of a sync-area change, nothing otherwise; stated by `Storage.WatchersSeeTheirWrites` |
| `Storage.QuotesDelivered` | lib/storage.ts:127-138 | defines what the `watchQuotes` callback receives: the new `quotes` value of a local-area change; stated by `Storage.WatchersSeeTheirWrites` |
| `Storage.WidgetEnabledDelivered` | lib/storage.ts:150-162 | defines what the `watchWidgetEnabled` callback receives: the new flag of a sync-area change, `true` when it is not a boolean; stated by `Storage.WatchersSeeTheirWrites` |
| `Storage.Store.SetSync` | lib/storage.ts:14-15 | one write of a partial object: written keys replaced, others and the local area kept, one log entry |
| `Storage.Store.SetLocal` | lib/storage.ts:24-25 | one write of the quote cache, the sync area kept, one log entry |
| `Storage.Store.EnsureInit` | lib/storage.ts:28-62 | the imperative migration produces the migrated area and the migration's writes, and keeps the list invariant |
| `Storage.Store.GetTokens` | lib/storage.ts:65-69 | migrates, then returns the list `ReadTokens` describes |
| `Storage.Store.SetTokens` | lib/storage.ts:71-82 | the length check and the `seen`-set filter loop produce exactly the `setTokens` transition; on success the list invariant holds; on failure nothing changes |
| `Storage.Store.AddToken` | lib/storage.ts:84-94 | produces exactly the `addToken` transition (state, writes, error) and keeps the list invariant |
| `Storage.Store.RemoveToken` | lib/storage.ts:96-102 | produces exactly the `removeToken` transition and keeps the list invariant |
| `Storage.Store.GetQuotes` | lib/storage.ts:118-121 | returns the cached map, `{}` when none was written |
| `Storage.Store.SetQuotes` | lib/storage.ts:123-125 | replaces the cache wholesale in one write |
| `Storage.Store.GetWidgetEnabled` | lib/storage.ts:140-144 | migrates, then returns the flag `ReadWidgetEnabled` describes |
| `Storage.Store.SetWidgetEnabled` | lib/storage.ts:146-148 | one write of the flag alone; the list invariant is kept |
| `WatchList.FirstOccurrences` | lib/storage.ts:74-80 | defines the `seen`-set filter of `setTokens` (keep an entry when its canonical id has not appeared before); its properties are the `WatchList.FirstOccurrences*` lemmas, `WatchList.FirstOccurrenceKept` and `WatchList.LaterDuplicateDropped` |
| `WatchList.RemoveId` | lib/storage.ts:98-100 | defines the filter of `removeToken` (keep the entries whose canonical id differs from `id`'s); its properties are the `WatchList.RemoveId*` lemmas and `WatchList.RemoveAbsentId` |
| `WatchList.FirstOccurrencesSubsequence` | lib/storage.ts:74-80 | the filtered list keeps the input's order (a subsequence) |
| `WatchList.FirstOccurrencesIds` | lib/storage.ts:74-80 | the filter loses no canonical id |
| `WatchList.FirstOccurrencesDistinct` | lib/storage.ts:74-80 | the filtered list has pairwise distinct canonical ids |
| `WatchList.FirstOccurrencesSpec` | lib/storage.ts:74-80 | the filtered list is an order-preserving, no longer, duplicate-free list with the input's canonical ids |
| `WatchList.FirstOccurrenceKept` | lib/storage.ts:74-80 | an entry whose canonical id does not occur earlier is kept (first occurrence wins) |
| `WatchList.LaterDuplicateDropped` | lib/storage.ts:74-80 | when a later entry repeats a canonical id, the only entry of the result with that id is the first one |
| `WatchList.FirstOccurrencesOfDistinct` | lib/storage.ts:74-80 | on a list with distinct canonical ids the filter is the identity |
| `WatchList.FirstOccurrencesSnoc` | lib/storage.ts:92-93 | pushing a token with a new canonical id appends it to the filtered list |
| `WatchList.RemoveIdSubsequence` | lib/storage.ts:98-100 | the removal filter keeps the order |
| `WatchList.RemoveIdMembers` | lib/storage.ts:98-100 | an entry survives removal if and only if its canonical id differs from `id`'s |
| `WatchList.RemoveAbsentId` | lib/storage.ts:98-100 | removing an id that is not watched returns the same list |
| `WatchList.RemoveIdDropsId` | lib/storage.ts:98-100 | after removal no entry has `id`'s canonical id |
| `WatchList.RemoveIdWellFormed` | lib/storage.ts:98-100 | removal from a well-formed list gives a well-formed list |
| `Dexscreener.PickPair` | lib/dexscreener.ts:34-36 | defines the first pair of a response, or none when `pairs` is missing or empty; stated through `Dexscreener.FetchOne`, `Dexscreener.ItemQuote` and `Dexscreener.ResolvePairMeta` |
| `Dexscreener.ToQuoteFromPair` | lib/dexscreener.ts:39-45 | `updatedAt` is the supplied time; the price is null exactly when there is no pair or `priceUsd` is missing or empty, and otherwise is `Number(priceUsd)`; `stale` is true exactly when the price is null; `change24h` is present exactly when `priceChange.h24` is a number, and is then that number |
| `Dexscreener.FetchOne` | lib/dexscreener.ts:60-64 | a failed request (non-OK status among them) is a failure; a successful response is the quote `ToQuoteFromPair` gives for its first pair, so a response without a pair is a stale quote with no price and no change, not an error |
| `Dexscreener.ResolvePairMeta` | lib/dexscreener.ts:48-57 | succeeds exactly when the request succeeded and the response has a pair; a failed request propagates; a response without a pair fails with PairNotFound; the symbol is the base token's, falling back to the first 6 characters of the pair id (a prefix of length min(6, length)); icon and base address are present exactly when the pair has them, and are then the pair's `info.imageUrl` and `baseToken.address` |
| `Dexscreener.ItemQuote` | lib/dexscreener.ts:70-79 | a token's entry is stamped with the time of its own request, is stale exactly when it has no price, is the placeholder `{price: null, change24h: null, stale: true}` when its request failed, and otherwise is the quote `fetchOne` returned (`ToQuoteFromPair` of the response's first pair) |
| `Dexscreener.QuotesOf` | lib/dexscreener.ts:67-82 | defines the map `fetchQuotes` builds, token by token in list order, a later token overwriting an earlier one with the same pair id; its properties are `Dexscreener.QuotesOfKeys`, `Dexscreener.QuotesOfEntry`, `Dexscreener.QuotesOfWatchList` and `Dexscreener.FailureIsolated`, and `Dexscreener.FetchQuotes` is proved equal to it |
| `Dexscreener.QuotesOfKeys` | lib/dexscreener.ts:67-82 | the key set of the built map is exactly the set of pair ids of the tokens |
| `Dexscreener.QuotesOfEntry` | lib/dexscreener.ts:67-72 | the entry of a token that no later token shares its pair id with is that token's own quote |
| `Dexscreener.QuotesOfWatchList` | lib/dexscreener.ts:67-79 | on a list with distinct canonical ids, every token's entry is its own quote, and a token whose request failed has the stale placeholder |
| `Dexscreener.FailureIsolated` | lib/dexscreener.ts:70-79 | changing the outcome of request `j` (a failure instead of a response, say) changes only the entry of token `j`'s pair id; every other entry is the same |
| `Dexscreener.FetchQuotes` | lib/dexscreener.ts:67-82 | the loop makes one request per token in list order, never fails, and returns the map `QuotesOf` describes, whose keys are exactly the tokens' pair ids |
| `Background.RunOnce` | background.ts:22-34 | the list is read through the migration first; an empty list writes `{}` with no request; otherwise the cache is replaced wholesale by the fetched map in one write; the requests are the list's pair ids in order; the list invariant is kept |
| `Background.OnAlarm` | background.ts:11-14 | only the alarm named `dexscrape` runs a cycle; any other alarm changes nothing |
| `Background.OnStorageChanged` | background.ts:16-20 | only a change to `tokens` in the sync area runs a cycle; any other change does nothing |
| `Background.AlarmStartsCycle` | background.ts:12 | defines the alarm filter (the name is `dexscrape`); stated by `Background.OnAlarm` |
| `Background.ChangeStartsCycle` | background.ts:17 | defines the storage-change filter (sync area and `tokens` changed); stated by `Background.OnStorageChanged` and `Background.CycleTriggers` |
| `Background.RefreshedCache` | background.ts:22-34 | defines the cache one cycle writes: `{}` for an empty list, otherwise `QuotesOf` of the list read through the migration; stated by `Background.RunOnce` and the `Background.Refresh*` lemmas |
| `Background.RefreshedCacheKeys` | background.ts:24-30 | after a cycle the cache's keys are exactly the current pair ids, so entries of removed tokens are gone |
| `Background.RefreshedCacheEntries` | background.ts:29-30 | on a well-formed list every watched token has its own quote in the cache, and a failed request leaves the stale placeholder for that token only |
| `Background.FetchedPriceReachesCache` | background.ts:29-30 | on a well-formed list, a token whose request returned a pair with a non-empty `priceUsd` gets a cache entry with that price, `stale: false` and the time of its request |
| `Background.RefreshAfterRemoveDropsEntry` | background.ts:29-30 | the cycle after a successful removal holds no key with the removed canonical id, whatever the previous cache held |
| `Background.RefreshAfterAddHasEntry` | background.ts:29-30 | the cycle after a successful add has an entry for the new pair id |
| `Background.CycleTriggers` | background.ts:16-20 | a write starts a cycle exactly when it writes `tokens`; a successful add or remove always starts one; the cycle's own cache write never does; the listener and `watchTokens` use the same filter |

## Left out

- The mechanics of the `chrome.storage` API (lib/storage.ts:9-25): callbacks, promises and reading back. These are modelled only as the abstract areas plus the write log. Listener registration and removal, and the `onInstalled` alarm creation (background.ts:7-9), are not modelled.
- HTTP, JSON parsing and `Number(priceUsd)` (lib/dexscreener.ts:5-9, 41): a request is a `Response` from the oracle, and numbers are opaque (`Number` keeps the decimal text). In particular, a non-empty `priceUsd` that does not parse gives NaN in the code; here it is the price `Number(text)`, counted as present and not stale, as in the code.
- Background.RunOnce: its `catch` branch (background.ts:31-33) is unreachable in the model. The storage calls never reject here, and `fetchQuotes` never fails. The one way the code can throw there is a `null` or `undefined` element of a stored array (so `t.pairId` throws; a number or string element gives `t.pairId === undefined` and a request for the pair id `"undefined"` instead), and elements of a stored array are always well-formed tokens in this model. "The cache keeps its prior value when a step fails" therefore has no case to cover.
- Unicode case mapping: `canon` is any total function, not `toLowerCase` itself.
- Dexscreener.ResolvePairMeta: the fallback symbol takes the first 6 elements of the pair id as a sequence of Unicode characters, while `slice(0, 6)` counts UTF-16 code units; the two differ only on pair ids with characters outside the Basic Multilingual Plane.
- Non-numeric, fractional or NaN values of `schemaVersion` are not modelled. The version is either missing or an integer.
- A malformed value in the local `quotes` key is not modelled: the key is either missing or a map.
- JavaScript object-key quirks of `QuotesMap` (such as a pair id `__proto__`) are not modelled: the map is a plain Dafny map.
- Concurrency across the three contexts is not modelled: overlapping `runOnce` calls, interleaved writes between `ensureInit` and the read that follows, and the ordering of change events. `ChangeOf` is the change a write reports. Whether the browser fires an event for a write that changes no value is not modelled.
- `Date.now` is the parameter `clock(k)`. Each item of a cycle reads the time once.
- The React components, the popup and the content script (rendering, dragging, layout, timers) are not modelled.
