# Auryx price-oracle client: a Dafny model

This project models the core of the Auryx price-oracle client library. It proves properties of that model. The modelled parts are:

- **Validators.** These check a price, a trading pair, a confidence score and a timestamp against the current clock.
- **Errors.** The `AuryxError` value and the helpers that build errors.
- **Oracle.** It keeps a per-pair price cache with a 60 000 ms freshness window. It also keeps a per-pair table of polling-timer handles on the client's behalf.
- **Client.** It keeps a registry of callbacks per trading pair. It starts a polling timer when a pair gets its first callback and stops it when the pair's set empties. Each poll goes to every registered callback.
- **ConnectionManager.** It tracks connection health and retries with exponential backoff, capped at five attempts.
- **Logger.** It keeps a level-filtered, bounded buffer of log entries.

JavaScript numbers are `JsNumbers.JsNum`: a finite real, `+Infinity`, `-Infinity` or `NaN`. `JsValue` adds a value whose `typeof` is not `'number'`. IEEE comparisons involving NaN are false, so the order of the checks decides which message a value gets. For example, `-Infinity` is reported as "Price cannot be negative", and a NaN confidence or NaN timestamp is accepted.

Some inputs are not modelled as mechanisms; they become arguments instead:

- The clock (`Date.now()`) is `now`.
- The result of the price aggregator is `aggregated`: a value or a thrown error.
- The result of the proof generator is `proof`: bytes or a thrown error.
- The result of each RPC probe is `probeSucceeds`.

Polling timers are opaque handles in `Timers.IntervalTimers`; a poll fires only when the model calls `AuryxClient.Tick`. The connection manager's single retry timer is not one of those handles. It is the `reconnectTimeout` field together with a `retryArmed` flag, and it fires when the model calls `ConnectionManager.RetryFires`. A callback is an opaque token, and calling it is recorded as a `Delivery`.

The model also shows these behaviours of the code:

- A failed proof generation still leaves the new price in the cache. The source writes the cache before it generates the proof.
- Cache hits carry no proof. Stale cache entries are never deleted, only overwritten by the next fresh fetch.
- `Errors.PriceFetchFailure` is used for two kinds of failure, and `getPrice` wraps every failure once more:
  - a validation error from the pair check becomes a PRICE_FETCH_ERROR whose cause is the VALIDATION_ERROR;
  - a PRICE_FETCH_ERROR from the oracle is wrapped twice.
- Re-subscribing the only callback of a pair makes the set a singleton again. A second timer then starts, and its handle overwrites the first. The first timer keeps polling after the unsubscribe, and nothing can stop it (`Client.ResubscribeLeaksTimer`).
  - The polling lifecycle ("a pair has a handle iff its set is non-empty") survives this.
  - "The running timers are exactly the stored handles" (`NoLeak`) holds only when callbacks are new to their pair.
- `AuryxClient.cleanup` stops the stored timer of every registered pair, but an orphaned timer keeps running, and it keeps the registry. Afterwards the lifecycle holds only if no pair has callbacks.
- Retries after repeated probe failures:
  - An unbroken run of failures waits 1000, 2000, 4000, 8000 and 16000 ms, and stops only after the sixth failed probe.
  - Five failed probes therefore still leave a retry scheduled. Only the sixth failure stops retrying, because the attempt counter is checked before it is incremented (src/core/connection.ts:46-54).
- `setMaxEntries(0)` keeps every entry, because `slice(-0)` is `slice(0)`. No later `addEntry` shortens the buffer (`Logging.ZeroBoundNeverRecovers`); only `clearLogs` or a later positive `setMaxEntries` does. A negative bound drops the first |max| entries.

The validators and the error helpers are functions with no `reads` clauses. They therefore depend on nothing but their arguments.

## Model

| member | source | states |
|---|---|---|
| `JsNumbers.IsNaN` | src/core/validation.ts:20 | the global `isNaN` on a number: true exactly for the number that is unordered against every number |
| `JsNumbers.IsFinite` | src/core/validation.ts:34 | the global `isFinite` on a number: true exactly for the numbers strictly between −Infinity and +Infinity |
| `JsNumbers.Greater` | src/core/validation.ts:63 | IEEE `>`: `Less` with the operands swapped; false when either side is NaN, the real order on finite numbers |
| `JsNumbers.Less` | src/core/validation.ts:27-32 | IEEE `<`: false whenever either side is NaN; on finite numbers it is the real order |
| `JsNumbers.Minus` | src/core/validation.ts:91 | IEEE subtraction: NaN propagates, finite minus finite is exact, finite minus an infinity is the opposite infinity |
| `Validation.ValidatePriceData` | src/core/validation.ts:12-42 | valid iff the value is a finite non-negative number; the message follows the check order (non-number, NaN, negative including −Infinity, +Infinity not finite) |
| `Validation.ValidatePrice` | src/core/validation.ts:5-10 | passes iff `validatePriceData` is valid; otherwise throws a VALIDATION_ERROR whose message is exactly that result's error and whose details are absent |
| `Validation.ValidateTradingPair` | src/core/validation.ts:44-53 | passes exactly on SOL/USD, BTC/USD and ETH/USD; any other string throws VALIDATION_ERROR "Invalid trading pair" with the supported list as details |
| `Validation.ValidateConfidence` | src/core/validation.ts:55-78 | valid iff a number that is NaN or in [0.5, 1]; outside [0, 1] (and ±Infinity) gets the range message, [0, 0.5) the threshold message, a non-number its own |
| `Validation.ValidateTimestamp` | src/core/validation.ts:80-98 | valid iff NaN or within [now − 60000, now], so an age of exactly 60000 passes; later than now (or +Infinity) is "in the future", older (or −Infinity) is "too old" |
| `Errors.NewAuryxError` | src/utils/errors.ts:9-13 | stores code, message and details unchanged and sets the name to "AuryxError" |
| `Errors.IsAuryxError` | src/utils/errors.ts:32-34 | true exactly for thrown AuryxError values |
| `Errors.CodeProperty` | src/utils/errors.ts:37 | the `code` property read by the network classifier: an AuryxError's code string, or a foreign error's own code |
| `Errors.HandleNetworkError` | src/utils/errors.ts:36-56 | ECONNREFUSED gives NETWORK_ERROR "Failed to connect to the server"; ETIMEDOUT gives TIMEOUT_ERROR "Request timed out"; anything else gives NETWORK_ERROR "Network error occurred"; the original error is always the details |
| `Errors.NetworkErrorOfAuryxError` | src/utils/errors.ts:37-55 | classifying an AuryxError always falls through to the generic network error, since no error code equals a transport code |
| `Errors.HandleValidationError` | src/utils/errors.ts:58-64 | code VALIDATION_ERROR with exactly the given message and details |
| `Errors.PriceFetchFailure` | src/core/oracle.ts:50-52 | PRICE_FETCH_ERROR "Failed to fetch price for <pair>" with the caught error as its cause |
| `PriceOracle.GetCachedPrice` | src/core/oracle.ts:58-72 | returns a quote iff the pair has an entry younger than 60000 ms; the quote is that entry's price and timestamp, confidence 0.99, no proof |
| `PriceOracle.Fetch` | src/core/oracle.ts:24-53 | unsupported pair: unwrapped VALIDATION_ERROR, cache unchanged. Hit: the cached quote, cache unchanged. Failed aggregation or unusable price: PRICE_FETCH_ERROR, cache unchanged. Otherwise `{price, now}` is cached and the quote carries the proof. If proof generation fails, the error is thrown after the cache write. Other pairs never change, no entry is deleted, and every quote is what the cache holds afterwards. Valid caches stay valid and quote only usable prices |
| `PriceOracle.FetchAgainWithinThreshold` | test/oracle.test.ts:28-32 | a second fetch less than 60000 ms after a quote's timestamp is a hit returning the same price and timestamp without a proof, and leaves the cache as it was |
| `PriceOracle.FetchAfterThreshold` | src/core/oracle.ts:58-72 | a successful fetch 60000 ms or more after the last quote is fresh: timestamp now, strictly later, with a proof |
| `PriceOracle.Oracle.constructor` | src/core/oracle.ts:14-19 | both tables start empty |
| `PriceOracle.Oracle.FetchPrice` | src/core/oracle.ts:24-53 | returns and caches exactly what `Fetch` prescribes for the old cache, and leaves the handle table alone |
| `PriceOracle.Oracle.CachePrice` | src/core/oracle.ts:77-82 | the pair's entry becomes `{price, now}`; nothing else changes |
| `PriceOracle.Oracle.SetUpdateInterval` | src/core/oracle.ts:120-122 | afterwards `getUpdateInterval(pair)` is the handle and every other pair's lookup is unchanged |
| `PriceOracle.Oracle.GetUpdateInterval` | src/core/oracle.ts:127-129 | the stored handle, or none when the pair has no entry |
| `PriceOracle.Oracle.ClearUpdateInterval` | src/core/oracle.ts:134-136 | afterwards the pair's lookup is none and every other pair's lookup is unchanged |
| `PriceOracle.Oracle.Cleanup` | src/core/oracle.ts:141-145 | stops every stored timer and empties both tables; a second call stops nothing more |
| `Timers.IntervalTimers.Start` | src/client/AuryxClient.ts:89-106 | `setInterval` returns a handle that is not running yet and adds it, polling the pair |
| `Timers.IntervalTimers.Clear` | src/client/AuryxClient.ts:118 | `clearInterval` removes exactly that handle from the running timers |
| `Client.Broadcast` | src/client/AuryxClient.ts:101 | every callback of the set is called exactly once, all with the same update |
| `Client.ClientQuote` | src/client/AuryxClient.ts:44-52 | a quote passes through unchanged; any failure becomes PRICE_FETCH_ERROR with the oracle's error as cause |
| `Client.SubscribeStep` | src/client/AuryxClient.ts:61-73 | adding a callback keeps "handles only for pairs with callbacks" and the polling lifecycle, and keeps timers matched to handles when the callback is new to the pair |
| `Client.UnsubscribeStep` | src/client/AuryxClient.ts:76-82 | removing a callback keeps those three properties and leaves a state in which calling the closure again changes nothing |
| `Client.CleanupStep` | src/client/AuryxClient.ts:133-138 | stopping the handle of every registered pair stops every stored handle; if the timers matched the handles, no timer is left running |
| `Client.AuryxClient.constructor` | src/client/AuryxClient.ts:16-28 | empty registry, cache and timers; a connection manager on the given transport that has run its first probe from zero attempts: connected, or disconnected with a 1000 ms retry scheduled |
| `Client.AuryxClient.GetPrice` | src/client/AuryxClient.ts:44-52 | the oracle's quote unchanged or its failure wrapped as PRICE_FETCH_ERROR, with the cache updated as `Fetch` prescribes |
| `Client.AuryxClient.Subscribe` | src/client/AuryxClient.ts:57-83 | creates the pair's set if absent and adds the callback. When the set becomes a singleton, a new timer starts and its handle is stored for the pair; otherwise no timer starts. Keeps the lifecycle, and keeps `NoLeak` for a callback new to the pair |
| `Client.AuryxClient.RunUnsubscribe` | src/client/AuryxClient.ts:76-82 | removes the callback. When the set empties, it stops the pair's timer and clears its handle; otherwise timers are untouched. A second call changes nothing. Keeps the lifecycle and `NoLeak` |
| `Client.AuryxClient.StartPriceUpdates` | src/client/AuryxClient.ts:88-110 | a new running timer polling the pair every 5000 ms, stored as the pair's handle (overwriting any earlier one) |
| `Client.AuryxClient.StopPriceUpdates` | src/client/AuryxClient.ts:115-121 | stops the stored timer of the pair, if any, and forgets it |
| `Client.AuryxClient.Tick` | src/client/AuryxClient.ts:89-105 | the cache changes as `Fetch` prescribes. A failed fetch delivers nothing. A successful one delivers `{pair, price, timestamp: updatedAt}` exactly once to each callback registered after the fetch, where `updatedAt` is the clock read after the fetch |
| `Client.AuryxClient.IsConnected` | src/client/AuryxClient.ts:126-128 | the connection manager's status; connected means no retry is scheduled |
| `Client.AuryxClient.Cleanup` | src/client/AuryxClient.ts:133-139 | clears the handle of every pair and stops its timer, keeps the registry and the cache, and resets the connection manager while keeping its transport and its last timeout. The lifecycle holds afterwards iff no pair has callbacks |
| `Client.TwoSubscribersScenario` | src/client/AuryxClient.ts:76-82 | with two callbacks on BTC/USD, removing one keeps the timer and removing the other stops it |
| `Client.ResubscribeLeaksTimer` | src/client/AuryxClient.ts:66-73 | re-subscribing the sole callback leaves, after the unsubscribe, a running timer for the pair with no callbacks and no stored handle |
| `Connection.Pow2` | src/core/connection.ts:52 | `Math.pow(2, n)` on naturals: at least 1, doubling with each step |
| `Connection.Backoff` | src/core/connection.ts:51-52 | the delay is at least 1000 ms and doubles with each attempt |
| `Connection.Schedule` | src/core/connection.ts:46-54 | the i-th delay of an unbroken failure run is `Backoff(i)` |
| `Connection.ConnectionManager.constructor` | src/core/connection.ts:13-17 | runs the first probe: connected with zero attempts, or disconnected with a 1000 ms retry scheduled |
| `Connection.ConnectionManager.SetupConnectionMonitoring` | src/core/connection.ts:19-29 | success: connected with zero attempts. Failure: disconnected, and the failure handler runs exactly once (a retry of `Backoff(attempts)` is scheduled iff attempts are below 5). The last timeout is kept whenever no retry is scheduled |
| `Connection.ConnectionManager.HandleConnectionFailure` | src/core/connection.ts:43-64 | disconnected. At 5 or more attempts nothing is scheduled. Otherwise one retry is scheduled with delay `1000 × 2^attempts` |
| `Connection.ConnectionManager.RetryFires` | src/core/connection.ts:54-63 | increments attempts before re-probing; the counter stays within 0..5; a success or the cap schedules nothing and keeps the last timeout |
| `Connection.ConnectionManager.GetConnectionStatus` | src/core/connection.ts:66-68 | reads the belief without probing; connected implies zero attempts and no retry scheduled |
| `Connection.ConnectionManager.GetConnection` | src/core/connection.ts:70-72 | the current transport: the one given to the constructor or to the last `updateConnection` |
| `Connection.ConnectionManager.Cleanup` | src/core/connection.ts:80-86 | cancels any scheduled retry, disconnects and zeroes the counter; idempotent |
| `Connection.ConnectionManager.UpdateConnection` | src/core/connection.ts:74-78 | cleanup, then the new transport, then one probe cycle from zero attempts; a success keeps the last timeout |
| `Connection.UnbrokenFailureRun` | src/core/connection.ts:43-63 | against a transport that never answers, the waits are 1000, 2000, 4000, 8000 and 16000 ms; after the sixth failed probe it is disconnected with nothing scheduled |
| `Logging.Admits` | src/utils/logger.ts:15-20 | the level filter of `LOG_LEVELS` at line 45: debug records everything, info everything but debug, warn only warn and error, error only errors; a level always records itself |
| `Logging.AfterAdd` | src/utils/logger.ts:58-63 | the buffer is a suffix of the old entries plus the new one, ending in the new one, and is one entry longer unless it overflowed. If it was within a non-negative bound, it stays within it |
| `Logging.SliceFrom` | src/utils/logger.ts:107 | JavaScript `slice(start)`: a negative start keeps the last −start elements, a non-negative one drops the first start |
| `Logging.Truncated` | src/utils/logger.ts:104-109 | a positive bound keeps the last min(len, max) entries; 0 keeps all; a negative bound drops the first \|max\| |
| `Logging.Filter` | src/utils/logger.ts:111-118 | keeps exactly the entries of the given level, each as many times as it occurs in the input, and drops every other entry |
| `Logging.StatsTotal` | src/utils/logger.ts:111-118 | the four per-level counts add up to the number of stored entries |
| `Logging.ZeroBoundNeverRecovers` | src/utils/logger.ts:104-109 | after `setMaxEntries(0)` on a non-empty buffer, adding an entry keeps the length unchanged instead of emptying it |
| `Logging.Logger.constructor` | src/utils/logger.ts:22-26 | the given level and bound (defaults info and 1000), no entries |
| `Logging.Logger.Log` | src/utils/logger.ts:44-56 | records the entry (through `addEntry`) iff the level passes the filter; level and bound are unchanged |
| `Logging.Logger.AddEntry` | src/utils/logger.ts:58-63 | the buffer becomes `AfterAdd` of the old one; a respected non-negative bound stays respected |
| `Logging.Logger.SetLevel` | src/utils/logger.ts:88-94 | `getLevel()` then returns the new level; the entries are untouched |
| `Logging.Logger.GetLevel` | src/utils/logger.ts:92-94 | the current level: the one given to the constructor or to the last `setLevel` |
| `Logging.Logger.GetLogs` | src/utils/logger.ts:96-98 | an element-wise copy of the stored entries |
| `Logging.Logger.ClearLogs` | src/utils/logger.ts:100-102 | the buffer is empty |
| `Logging.Logger.SetMaxEntries` | src/utils/logger.ts:104-109 | sets the bound and truncates as `Truncated`. A positive bound is respected afterwards; 0 on a non-empty buffer is not |
| `Logging.Logger.GetStats` | src/utils/logger.ts:111-118 | counts per level through the filter, and the counts sum to the number of stored entries |

## Left out

- The RPC transport and its probe are left out: `Connection` and `getSlot` are a foreign call. Each probe's success is an argument.
- Timers are left out as a mechanism: the passage of time and the scheduler are unmodelled. Periods and delays are recorded (`PollTimer.periodMs`, `RetryTimer.delayMs`), but a tick or a retry runs only when the model calls it.
- async/await interleaving is left out; the model runs each operation to completion in sequence.
  - Within one `fetchPrice`, the model reads the clock once, as `now`. The code reads `Date.now()` up to three times: for the freshness test before `await aggregatePrices` (src/core/oracle.ts:61), for the cache entry (src/core/oracle.ts:80) and for the quote (src/core/oracle.ts:46). So in the model the cached timestamp always equals the quoted one.
  - A poll stamps its update with a fourth clock read, taken after `getPrice` has completed (src/client/AuryxClient.ts:98). This reading is its own argument of `AuryxClient.Tick`, `updatedAt`, and the model does not relate it to `now`.
  - The constructor's first probe runs to completion inside the constructor.
- Price aggregation (`getMockPrice`, which uses `Math.random` and float arithmetic) is an uninterpreted input.
- Proof generation (a string built into a `Buffer`) is an uninterpreted input.
- Callbacks' own effects are not modelled. A callback that throws aborts the `forEach` (src/client/AuryxClient.ts:101, caught at 103-105), so callbacks later in the set's insertion order get nothing in that tick. The model delivers to all of them, in an unspecified order. A callback that unsubscribes during the iteration is not modelled either.
- The calls that the client, oracle and connection manager make into the Logger are not modelled. The Logger is modelled on its own.
- `outputLog` is left out: console output, ISO date formatting and `JSON.stringify`.
- Config merging in the client constructor and `initialize`, and the `unhandledRejection` hook, are left out. The merged config has no effect.
- `AuryxError.toJSON` and stack capture are left out, because they are runtime introspection.
- The oracle's `connectionManager` and `logger` fields are unused by its logic, so they are not modelled. The same holds for the client's `connection` and `logger` fields.
- JavaScript numbers are modelled as exact reals plus ±Infinity and NaN, without rounding or −0. The logger bound `maxEntries` is an integer.
- `Errors.HandleNetworkError`: requires a non-null, non-undefined error. On null or undefined the source's `error.code` throws a TypeError, and the model does not represent that TypeError.
