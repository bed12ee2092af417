# Option-Greeks: response cache and strike window

This project models two pieces of logic from the Option-Greeks dashboard in Dafny and proves what they promise.

- **The option-chain response cache** (`server/server.js`). The `/api/optionchain` handler keeps one cached upstream payload, its fetch time and an in-flight flag. A request is answered in one of three ways:
  - from a fresh cache, if the payload is less than 3100 ms old;
  - with the last cache (or a "being fetched" marker), if a fetch is already running;
  - otherwise it starts the single upstream fetch.

  The handler's `await` splits a request into two atomic steps. `Begin` / `BeginRequest` is the code before the upstream call. `Complete` / `CompleteFetch` is the code after it, with its `catch` and `finally`. The module-level variables are the fields of the class `OptionChainHandler`, and its methods are proved against the pure transition functions. Concurrent requests on Node's event loop are interleavings of these two steps. Module `CacheInterleavings` runs sequences of such events and proves three facts about all of them: at most one fetch is in flight, the slot changes only on success, and a burst of requests on a cold cache triggers exactly one upstream call.
- **The strike window of the chain table** (`client/src/App.js`). `getFilteredRows` works in four steps:
  1. It sorts the strike keys of `oc` into ascending numeric order.
  2. It finds the first strike at or above `last_price`, falling back to the last index.
  3. It keeps the contiguous slice from `max(0, i-15)` to `min(len, i+16)`.
  4. It pairs each kept strike with its entry.

  `formatNumber` renders one Greek. Both are pure functions over sequences.

Files: `wrappers.dfy` (Option), `option_chain_cache.dfy`, `cache_interleavings.dfy`, `option_table.dfy`.

Modelling choices:
- The upstream payload is an opaque type parameter `P`.
- The upstream call becomes a `FetchOutcome`: `Fetched(data)` or `FetchFailed(details)`.
- The clock is an explicit argument. `now` is read when the request arrives, and `t` when the fetch settles. Line 55 stamps `lastRequestTime` at completion, not at the start.
- `oc` is the list of its entries in the object's key order, with keys already converted by `Number(key)`.
- `last_price` and the Greek values are a `JsNumber`: `undefined`, `null`, or a number.

## Model

| member | source | states |
|---|---|---|
| OptionChainCache.Initial | server/server.js:19-21 | at process start there is no cached payload, `lastRequestTime` is 0 and no fetch is in flight |
| OptionChainCache.Begin | server/server.js:26-43 | a request never touches the slot or its timestamp; it is a hit exactly when a payload is cached and `now - lastRequestTime < 3100`, and then returns that payload and changes nothing; otherwise, exactly when a fetch is in flight, it returns the last cache and changes nothing; a fetch starts only when none is in flight, raises the flag and forwards the request's query |
| OptionChainCache.Immediate | server/server.js:29-37 | a request that starts no fetch is answered with the cached payload, or with the "Data is being fetched" marker exactly when nothing is cached and a fetch is pending; it is never an error |
| OptionChainCache.Complete | server/server.js:55-68 | the flag is always cleared; on success the slot and timestamp become the fetched payload and the completion time, and the caller gets that payload; on failure slot and timestamp keep their values and only this caller gets the 500 error with the details |
| OptionChainCache.HitIgnoresQuery | server/server.js:27-31 | a fresh hit returns the cached payload and leaves the state alone whatever `UnderlyingScrip`, `UnderlyingSeg` and `Expiry` are |
| OptionChainCache.TransitionIgnoresQuery | server/server.js:27-43 | the state change of a request and whether it starts a fetch never depend on the request body |
| OptionChainCache.OptionChainHandler.constructor | server/server.js:19-21 | the three fields start in the initial state |
| OptionChainCache.OptionChainHandler.BeginRequest | server/server.js:25-43 | the in-place update of the fields and the returned decision are those of `Begin`; a request that starts no fetch leaves the fields unchanged |
| OptionChainCache.OptionChainHandler.CompleteFetch | server/server.js:55-68 | the in-place update and the response are those of `Complete`; the flag is false afterwards; a failure leaves `cachedResponse` and `lastRequestTime` as they were |
| CacheInterleavings.Execute | server/server.js:25-68 | running a sequence of request and settle events through the handler's two steps yields exactly one output per event |
| CacheInterleavings.InFlightMatchesFlag | server/server.js:34-43 | in every run where fetches settle only while in flight, the flag equals the number of started and not yet settled upstream calls |
| CacheInterleavings.AtMostOneInFlight | server/server.js:34-43 | from process start, every prefix of a run has started at most one upstream call more than it has settled |
| CacheInterleavings.SlotOnlyFromSuccess | server/server.js:55-65 | after any run the slot and its timestamp hold the payload and completion time of the last successful fetch, or their starting values if no fetch succeeded |
| CacheInterleavings.FreshBurst | server/server.js:29-32 | any number of requests within the freshness window of the cached payload are all served that same payload, start no fetch and leave the state unchanged |
| CacheInterleavings.PendingBurst | server/server.js:34-37 | while the first fetch is in flight on an empty cache, every request gets the pending marker and the state does not change |
| CacheInterleavings.ColdBurst | server/server.js:34-43 | a burst of requests on a cold cache starts exactly one upstream call: the first request triggers it, all others get the pending marker |
| CacheInterleavings.CoalescedColdStart | server/server.js:29-59 | cold burst, then a successful fetch, then requests within 3100 ms of its completion: one upstream call in all, the trigger gets the payload, waiters get the marker, later callers get the fetched payload, nobody sees an error |
| CacheInterleavings.FailureKeepsEntry | server/server.js:60-67 | after a failed fetch the previous entry and its timestamp are still in place; the next request is served it while fresh, and otherwise starts a new fetch |
| OptionTable.Keys | client/src/App.js:57 | `Object.keys(oc).map(Number)`: one strike per entry of `oc`, the i-th being the i-th entry's key, in the object's key order |
| OptionTable.Lookup | client/src/App.js:70 | `oc[strike]` yields the data of the first entry whose key is that strike |
| OptionTable.Sort | client/src/App.js:58 | the result is in ascending numeric order and is a permutation of the strikes |
| OptionTable.SortUnique | client/src/App.js:58 | every ascending permutation of the strikes equals the sorted strikes: the comparator sort has a unique result |
| OptionTable.ChainStrikes | client/src/App.js:57-58 | `sortedStrikes` is ascending and holds exactly the chain's keys, with their multiplicities |
| OptionTable.FindIndex | client/src/App.js:62 | -1 exactly when every strike is below the price; otherwise the first index whose strike is at least the price |
| OptionTable.ClosestIndex | client/src/App.js:62-63 | -1 exactly for no strikes; the first strike at least the price when one exists; the last index when none does |
| OptionTable.Window | client/src/App.js:65-68 | the slice bounds always satisfy `0 <= start <= end <= len`, so JavaScript's clamping `slice(start, end)` and `s[start..end]` agree, and the window has `end - start` strikes |
| OptionTable.WindowBounds | client/src/App.js:65-68 | the slice holds at most 31 strikes, each one of the sorted strikes |
| OptionTable.WindowAscending | client/src/App.js:68 | a slice of ascending strikes is ascending |
| OptionTable.WindowCentresOnAtm | client/src/App.js:62-68 | with strikes present, the at-the-money strike is in the slice with `min(ci, 15)` strikes before it and `min(len-1-ci, 15)` after it |
| OptionTable.WindowContiguous | client/src/App.js:65-68 | a strike is in the slice exactly when it lies between the slice's first and last strike: none is skipped |
| OptionTable.EmptyWindow | client/src/App.js:62-68 | no strikes give `closestIndex = -1`, `start = 0`, `end = 0` and an empty slice |
| OptionTable.WindowStrikes | client/src/App.js:65-68 | every strike shown is a key of `oc` |
| OptionTable.RowsOf | client/src/App.js:68-71 | one row per shown strike, in order, carrying that strike and `oc[strike]` |
| OptionTable.GetFilteredRows | client/src/App.js:54-72 | `[]` when there is no chain data, no `oc` or a falsy `last_price`; otherwise every row's strike is a key of `oc` and its data is that key's entry |
| OptionTable.FilteredStrikesAreWindow | client/src/App.js:57-68 | the strike column of the result is the window of the chain's sorted strikes |
| OptionTable.FilteredRowsWindow | client/src/App.js:65-68 | the strike column is exactly `sortedStrikes.slice(max(0, ci-15), min(len, ci+16))`, has at most 31 entries and is ascending |
| OptionTable.FilteredRowsAscending | client/src/App.js:57-68 | for every input the rows come back in ascending strike order |
| OptionTable.FilteredRowsCentreOnAtm | client/src/App.js:62-68 | for a chain with strikes the at-the-money strike is in the table, with `min(ci, 15)` rows before it and `min(len-1-ci, 15)` after it |
| OptionTable.FilteredRowsContiguous | client/src/App.js:57-68 | a key of `oc` is in the table exactly when it lies between the first and last strike shown |
| OptionTable.EmptyChainGivesNoRows | client/src/App.js:62-68 | an empty `oc` object with a truthy price gives `closestIndex = -1` and no rows |
| OptionTable.FormatNumber | client/src/App.js:52 | `'-'` exactly when the value is `undefined`; a number is formatted with `toFixed(4)`; `null` passes the `!== undefined` test and `null.toFixed` throws |

## Left out

- The axios calls to the upstream API and all HTTP plumbing (server/server.js:43-53). The call is an abstract `FetchOutcome`, and the response status and JSON encoding are the `Response` datatype.
- The other endpoints: `/api/expirylist`, `/api/optionchain/json` and `/save-html-table`. Respectively, they are a pass-through, float formatting into HTML, and a file write.
- `app.listen`, CORS and dotenv setup: these are configuration.
- Console logging: it has no effect on the state.
- JavaScript truthiness of the payload itself. `cachedResponse` is an `Option`, so a falsy upstream payload is treated as present. The upstream returns a JSON object, which is always truthy.
- `Date.now()`: the clock is a parameter, and the model does not assume it is monotonic.
- NaN. `Number(key)` of a non-numeric key, and a NaN `last_price`, are outside the model, because strikes and prices are mathematical reals.
- OptionTable.Lookup: looks up the entry by numeric strike and does not model the `toFixed(6)` reconstruction of the key string. In the source, a key whose string form is not `strike.toFixed(6)` gives `undefined` data.
- OptionTable.FormatNumber: returns the number `toFixed(4)` formats, not the digits it produces.
- React state, effects and rendering (client/src/App.js:9-50, 76-137), client/src/MongoTable.js and client/src/API/api.js: these are UI and network code.
- server/models/OptionChain.js: a schema declaration with no behaviour.
- A background snapshot synchronizer does not appear in these source files, so it is not part of this model.
