# solpnl `/top-traders` handler in Dafny

This project models the one piece of decision logic in solpnl, a small
service that scrapes a ranking of Solana traders and serves it over HTTP.
The modelled piece is the `/top-traders` handler in `main.js`:

- **Cache-or-fetch state machine.** The process keeps one cache slot
  holding `data` and `lastUpdated`. Entries expire after 10 minutes
  (600 000 ms). A request calls the fetcher when `refresh` is on, when there
  is no data, or when the cache has expired. The expiry test is strict, and
  a stored timestamp of 0 is falsy in JavaScript, so such a cache never
  expires. A successful fetch replaces both fields together. A failed fetch
  with prior data is answered as `stale_data_error` (the fetcher returned
  an object with a truthy `error`) or `stale_data_exception` (the fetcher
  threw). Either way the answer carries the old traders and timestamp. A
  failed fetch with no prior data is answered as HTTP 500 with only the
  message. Otherwise the answer is `success` with the cached traders and
  their count.
- **Record normalisation.** The raw API rows map to trader records. The
  rank is the 1-based position. The display name is
  `name || twitter_name || 'Unknown'`. The profile link is
  `https://x.com/<handle>` when the handle is truthy and `null` otherwise.
  `tags` defaults to `[]`. A missing `rank` list gives no records. All other
  fields are copied through unchanged.

Layout:

- `options.dfy` (module `Options`): `Option` and JavaScript truthiness for
  optional strings and numbers.
- `traders.dfy` (module `Traders`): raw entries, trader records and the pure
  normalisation.
- `cache.dfy` (module `TopTraders`): the fetch outcome, the responses, and
  the handler. The handler is stated twice:
  - as the pure function `Step` over a `CacheState`, with `Run` folding it
    over a sequence of requests for the properties that span several
    requests;
  - as the class `Cache`, whose fields are updated in place by
    `Handle`. `Handle`'s contract ties its result and new state to `Step`.

The fetcher, the clock and the query string are inputs. The outcome of
`fetchTopTraders()` is the parameter `outcome`. It is either
`Resolved(error, rank)`, where either field may be missing, or
`Rejected(message)`. `Date.now()` is the parameter `now`.
`req.query.refresh === 'true'` is the Boolean parameter `refresh`.

The handler has no empty-result check. A successful fetch with zero rows,
or with no `rank` list at all, stores `[]` (main.js:36, 52). An empty list
is truthy in JavaScript, so the cache then counts as populated.

Definitions that the contracts below are stated in:

- `Options.Truthy` models JavaScript truthiness of an optional string: present and non-empty. It is used for the `error` test (main.js:23), the name fallback (main.js:38) and the handle test (main.js:48).
- `Options.TruthyInt` models the truthiness of the stored timestamp: present and non-zero (main.js:18).
- `TopTraders.FetchFailed` models a failed fetch: a rejection (main.js:54) or a resolved object with a truthy `error` (main.js:23).
- `Traders.TagsOrEmpty` models the defaulting of `tags` to `[]` (main.js:49).
- `TopTraders.StatusCode` gives 500 for the error-only answers (main.js:33, 64) and 200 for every other answer.

## Model

| member | source | states |
|---|---|---|
| Traders.DisplayName | main.js:38 | the name is never empty: it is `name` if truthy, else `twitter_name` if truthy, else "Unknown" |
| Traders.TwitterUrl | main.js:48 | a link exists exactly when the handle is truthy; the link is the x.com prefix followed by the handle, so the handle can be read back from it |
| Traders.ToTrader | main.js:37-49 | a record gets the given rank and the fallback name; its link exists only for a truthy handle and is the x.com link of that handle; tags are defaulted; every pass-through field is copied unchanged |
| Traders.NormalizeFrom | main.js:36-50 | mapping keeps length and order; the element at index i is the record of raw entry i at position first+i |
| Traders.Normalize | main.js:36 | a missing rank list gives the empty sequence; otherwise length and order are kept and the record at index i has rank i+1 |
| Traders.NormalizeAppend | main.js:36-50 | normalising a concatenation equals normalising both parts, with the second part's ranks shifted by the first part's length |
| Traders.TwitterUrlInjective | main.js:48 | distinct truthy handles give distinct links |
| Traders.SingleAnonymousEntry | main.js:36-50 | an entry with only an address and three figures becomes an "Unknown" rank-1 record with no link and no tags, its figures copied unchanged |
| Traders.HandleWithoutName | main.js:38-48 | with `name` absent, the name falls back to `twitter_name` or "Unknown"; the handle "abc" gives https://x.com/abc, also as the `twitter` field of the whole record, which keeps a present tag list unchanged |
| TopTraders.InternalErrorExactly | main.js:18-64 | for every consistent cache and every request, the answer is HTTP 500 exactly when the cache holds no data, the fetcher is called and the fetch fails |
| TopTraders.FailureMessage | main.js:23-64 | a rejection reports the exception's message; an error result reports its non-empty `error` field |
| TopTraders.Expired | main.js:12-18 | an absent timestamp never expires; an age of at most 600000 ms never expires; an expired cache has a non-zero timestamp at least 600001 ms old |
| TopTraders.ShouldFetch | main.js:18 | a forced refresh or an absent data slot always fetches; a non-forced request on data at most 600000 ms old, or stamped 0, never fetches |
| TopTraders.Step | main.js:14-73 | the fetcher is consulted exactly when refresh is on, data is absent or the cache expired; data present ⇔ timestamp present is kept; a success answer carries the cache contents and their count; any other answer comes from a failed fetch, carries its message and leaves the cache unchanged; a successful fetch stores the normalised rows stamped now |
| TopTraders.ExpiryBoundary | main.js:12-18 | an age of exactly 600000 ms is fresh and 600001 ms is expired |
| TopTraders.ZeroTimestampNeverExpires | main.js:18 | data stamped at time 0 is never refetched without refresh, however much later the request comes |
| TopTraders.SuccessfulFetchReplacesCache | main.js:36-53 | a successful fetch, even one with zero rows, answers success with the normalised rows and stores them with the timestamp now |
| TopTraders.EmptyErrorIsNotFailure | main.js:23 | an `error` field holding the empty string is not treated as a failure |
| TopTraders.ErrorFieldServesStale | main.js:23-32 | an error result with prior data answers stale_data_error with that message and the previous traders and timestamp, and leaves the cache unchanged |
| TopTraders.ExceptionServesStale | main.js:54-62 | a thrown fetch with prior data answers stale_data_exception with the message and the previous traders and timestamp, and leaves the cache unchanged |
| TopTraders.FailureWithoutDataIsInternalError | main.js:33-64 | any failure on an empty cache answers HTTP 500 with only the message, and the cache stays empty |
| TopTraders.FreshRequestsIdempotent | main.js:68-73 | two refresh=false requests inside the window never fetch and answer the identical cached traders |
| TopTraders.Run | main.js:14-74 | a sequence of requests gives one reply per request, and the cache stays consistent after every reply |
| TopTraders.Final | main.js:52-53 | the slot after a sequence of requests is consistent and equals the state after the last reply |
| TopTraders.OnceFilledNeverInternalError | main.js:24-64 | once the cache holds data it keeps data after every request of any sequence and at its end, and none of the requests is answered with HTTP 500 |
| TopTraders.FreshWindowServesSameTraders | main.js:18-73 | any number of refresh=false requests inside the window never fetch, leave the cache unchanged and all answer the same success |
| TopTraders.SuccessMatchesCache | main.js:52-73 | every success answer in a sequence equals the cache contents right after it, with count equal to the number of traders |
| TopTraders.Cache.constructor | main.js:8-11 | the slot starts with neither data nor timestamp |
| TopTraders.Cache.Handle | main.js:14-73 | handling a request keeps data present ⇔ timestamp present; it fetches exactly when the cache needs a fetch; a non-success answer leaves both fields unchanged; the answer and new fields are those of `Step` on the old fields |
| TopTraders.RepeatWithinWindow | main.js:68-73 | two refresh=false requests on the in-place cache inside the window never call the fetcher, answer the identical success with the old traders and change nothing |

## Left out

- `scraper.js` is not part of this model. Its browser launch, navigation, waits, in-page `fetch` and resource release are all foreign calls and network I/O. What the handler sees of it is the abstract `FetchOutcome`.
- Express wiring, the port and environment configuration, the static `/` route, `app.listen` and logging are not modelled. They hold no decisions.
- Parsing of the query string (`req.query.refresh === 'true'`) is folded into the Boolean `refresh` parameter.
- `new Date(...).toISOString()` is not modelled. Responses carry the stored integer timestamp.
- Overlapping asynchronous requests are not modelled. Requests are strictly sequential calls, so the race around `await fetchTopTraders()` is not covered.
- The `error` field and the raw entry's `name`, `twitter_name` and `twitter_username` are modelled as optional strings, and `tags` as an optional list of strings. Other JSON values in these fields are not covered. In the source, `twitter_username: 123` gives the link `https://x.com/123`, `name: 42` gives the number 42 as the display name, and `tags: "x"` is kept as it is.
- The fetch outcome does not cover a resolved `null` or `undefined`, a truthy `rank` that is not an array, or rows that are `null`. In the source these throw, and the catch block answers them like a thrown fetch. A resolved `null` or `undefined` throws when `data.error` is read (main.js:23). A truthy non-array `rank`, such as a string, number or object, throws when `.map` is called on it (main.js:36). A `null` row throws when its fields are read (main.js:38). A falsy non-array `rank`, such as `0`, `""` or `false`, is replaced by `[]` (main.js:36), which is what the model's missing list (`None`) gives.
- Pass-through fields are scalar JSON values: undefined, null, boolean, number or string. Arrays and objects are not covered. JavaScript numbers are represented as reals without floating-point behaviour, which is harmless because the handler never computes with them.
