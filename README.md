# golazy: a verified model of the lazy loader cell

golazy is a small Go library of lazily produced values behind one interface,
`Lazy[T]`, with two operations: `Value(ctxs...)` and `Clear()`. There are two
implementations:

- The loader cell `withLoader[T]` holds a cached `value`, a `loaded` flag, an
  optional `lastLoad` instant, a TTL policy (`withTTL`, `ttl`) and the fixed
  `args` passed to the loader on every call. `Value` calls the loader when the
  cell is unloaded or its TTL has expired, and records the result. `Clear` marks
  the cell unloaded.
- The constant cell `static[T]` always returns its value and never loads.

The model has four modules:

- `LazyTypes` (lazy_types.dfy) holds the shared values: contexts, errors, the
  `(T, error)` pair `Outcome`, and loader invocations.
- `WithLoaderCell` (with_loader.dfy) models the loader cell. `State` is the
  cell's fields as a value. `ValueStep` is one `Value` call on a `State`, and
  `Cleared` is `Clear`. `RunOps` runs a sequence of calls. The class
  `WithLoader` has the Go struct's fields and a ghost log of loader calls. Its
  `Value` and `Clear` methods are proved against `ValueStep` and `Cleared`.
- `StaticCell` (static.dfy) models the constant cell as a datatype.
- `Golazy` (golazy.dfy) models the public constructors and the interface
  contract. The contract is stated over the closed set of the two
  implementations.

Time is an explicit integer in nanoseconds. `Value` reads the clock twice, as
the code does. `now` is the reading for the expiry test (with_loader.go:70),
taken before the loader runs. `loadedAt` is the reading stored as the new
timestamp (with_loader.go:83), taken after the loader returns. The TTL
therefore counts from the end of a load (`TTLCountsFromLoadEnd`). The
loader is an oracle: each `Value` call receives `loaderResult`, the pair the
loader returns if the call invokes it. The ghost `calls` log records each
invocation's context and arguments, in order. `LoadCount()` is the length of
that log. Contexts are opaque tokens. In `Golazy`, a loader cell object `l`
stands for the interface view `Loading(l.Snapshot())`. `CellValue` and
`CellClear` prove that the object's methods agree with that view.

The code differs from its own comments in two places, and the model follows
the code in both:

- `newWithLoaderPreloaded` leaves the cell unloaded, against golazy.go:51-64.
  This one is observable (see "## Findings").
- The comment on `lastLoad` (with_loader.go:24) calls it the timestamp of the
  most recent successful load. with_loader.go:83-84 also write it after a
  failed load. This one is harmless: `TimestampIrrelevantWhenUnloaded` shows
  that the write after a failure cannot be observed.

## Model

| member | source | states |
|---|---|---|
| `WithLoaderCell.WithLoader.constructor` | with_loader.go:33-41 | a new cell is unloaded and has no timestamp; `withTTL`, `ttl` and `args` are stored as given; no loader call has happened |
| `WithLoaderCell.WithLoader.Preloaded` | with_loader.go:46-58 | the preloading constructor as written: `value` is the preload value and `lastLoad` is `now`, but `loaded` stays false |
| `WithLoaderCell.WithLoader.PreloadedIntended` | golazy.go:51-64 | the preloading constructor as documented: like `Preloaded`, but with `loaded` true |
| `WithLoaderCell.WithLoader.Value` | with_loader.go:65-88 | the new fields and the returned pair are exactly those of `ValueStep` on the old fields; the call log grows by the one invocation made on the load path, and by nothing on a cache hit |
| `WithLoaderCell.WithLoader.Clear` | with_loader.go:92-97 | the new fields are `Cleared` of the old ones; no loader call is made |
| `WithLoaderCell.PreloadedState` | with_loader.go:46-58 | the state `newWithLoaderPreloaded` builds holds the preload value and the timestamp `now`; apart from the timestamp it is an initial, unloaded state |
| `WithLoaderCell.PreloadedIntendedState` | golazy.go:51-64 | the documented preloaded state is loaded, holds the preload value and timestamp `now`, and keeps the configuration as given |
| `WithLoaderCell.Initial` | with_loader.go:34-40 | the state newWithLoader builds is unloaded, has no timestamp and holds the given configuration; such a cell loads on its first Value at any time |
| `WithLoaderCell.NeedsRefresh` | with_loader.go:70 | the TTL test holds only with TTL enabled and a timestamp present, and then exactly when `now` is strictly after `lastLoad + ttl` |
| `WithLoaderCell.ShouldLoad` | with_loader.go:72 | the loader is due on every unloaded cell; on a loaded one exactly when the TTL has expired, so never without TTL |
| `WithLoaderCell.ResolveContext` | with_loader.go:73-79 | the loader gets the first supplied context, or Background when none is supplied |
| `WithLoaderCell.ValueStep` | with_loader.go:65-88 | the configuration never changes; the loader runs iff the cell is unloaded or expired, and then with the fixed args; the returned value is the stored value; afterwards the cell is loaded iff the returned error is nil |
| `WithLoaderCell.Cleared` | with_loader.go:92-97 | after Clear the cell is unloaded and has no timestamp; `value`, `args`, `withTTL` and `ttl` are unchanged |
| `WithLoaderCell.RefreshIsStrict` | with_loader.go:70 | expiry is strict: there is no refresh at exactly `lastLoad + ttl` and there is one just after; there is never a refresh without TTL or without a timestamp |
| `WithLoaderCell.CacheHit` | with_loader.go:69-87 | a loaded, unexpired cell returns its value with a nil error, calls no loader and changes no field |
| `WithLoaderCell.LoadPath` | with_loader.go:72-87 | on the load path the loader is called once, with the resolved context and the fixed args; its value is stored even on failure; `loaded` becomes "error is nil"; `lastLoad` becomes the instant the loader returned, either way; the loader's pair is returned verbatim |
| `WithLoaderCell.FailedLoadIsRetried` | with_loader.go:72-82 | after a failed load, the next Value calls the loader again at any time |
| `WithLoaderCell.ClearThenValueLoads` | with_loader.go:90-97 | after Clear, the next Value calls the loader with the fixed args and returns its pair, from any state |
| `WithLoaderCell.ClearIdempotent` | with_loader.go:92-97 | clearing twice gives the same state as clearing once |
| `WithLoaderCell.StaleValueUnobservable` | with_loader.go:72-84 | while the cell is unloaded, the stale value it holds does not affect what Value does or returns |
| `WithLoaderCell.TimestampIrrelevantWhenUnloaded` | with_loader.go:82-84 | while the cell is unloaded, the whole Value step (reply, loader call and next state) does not depend on `lastLoad`, and Clear erases it, so the timestamp written after a failed load cannot be observed by any later call |
| `WithLoaderCell.ValueUsesFirstContextOnly` | with_loader.go:73-79 | Value with several contexts does the same as Value with only the first one |
| `WithLoaderCell.PreloadedFirstValueCallsLoader` | with_loader.go:46-72 | as written, the first Value on a preloaded cell calls the loader and returns the loader's pair, not the preload value |
| `WithLoaderCell.PreloadedIntendedFirstValueHits` | golazy.go:51-64 | on the documented preloaded state, the first Value before expiry returns the preload value without calling the loader; after expiry, or after Clear, the loader runs |
| `WithLoaderCell.RunOps` | with_loader.go:65-97 | over any sequence of calls: one reply per Value, at most one loader call per Value, a fixed configuration, and every loader call gets the fixed args |
| `WithLoaderCell.RunAppend` | with_loader.go:65-97 | running two sequences of calls one after the other is the same as running their concatenation |
| `WithLoaderCell.HitsWhileFresh` | with_loader.go:70-72 | on a loaded cell, any number of Values before expiry is served from the cache: no loader call, no state change, and every reply is the cached value with a nil error |
| `WithLoaderCell.SuccessReusedWithoutTTL` | golazy_test.go:33-52 | on an unloaded cell without TTL, a successful first Value calls the loader once, and it and every later Value return the same pair |
| `WithLoaderCell.ReusedUntilClear` | golazy.go:35-38 | without TTL, a loaded cell serves every Value from the cache until Clear; the next Value then calls the loader exactly once and returns its pair |
| `WithLoaderCell.TTLCountsFromLoadEnd` | with_loader.go:70-84 | the TTL counts from the instant the loader returned: with a 100ms TTL and a 30ms load started at 0, a Value at 120ms is still a cache hit |
| `WithLoaderCell.TTLExpiryScenario` | with_loader_test.go:72-95 | with a 100ms TTL and a loader returning "value", two Values at 0 call the loader once, and a Value at 150ms calls it a second time; every reply is "value" |
| `WithLoaderCell.TTLCounterScenario` | golazy_test.go:174-192 | with a 100ms TTL and a counting loader, the Value at 0 returns 1 and the Value at 150ms reloads and returns 2 |
| `WithLoaderCell.LoaderErrorScenario` | with_loader_test.go:59-70 | on a new cell, a loader failing with "loader error" is called once, and Value returns that error verbatim |
| `StaticCell.Static.Value` | static.go:13-16 | Value returns the stored value with a nil error, whatever the contexts |
| `StaticCell.Static.Clear` | static.go:18-21 | Clear keeps the stored value |
| `StaticCell.ValueIgnoresContexts` | golazy_test.go:391-410 | the result of Value is the same for any context arguments |
| `StaticCell.ClearIsNoOp` | static_test.go:15-20 | Clear changes nothing, so Value after Clear equals Value before it |
| `StaticCell.Replies` | static.go:14-16 | a sequence of Value calls gives one reply per call |
| `StaticCell.RepeatedValuesIdentical` | golazy_test.go:360-375 | every reply in a sequence of Value calls is the stored value with a nil error |
| `Golazy.WithLoader` | golazy.go:39-41 | WithLoader is `newWithLoader(loader, false, 0, args)`: a new, unloaded cell without TTL, with the given args |
| `Golazy.WithLoaderTTL` | golazy.go:47-49 | WithLoaderTTL is `newWithLoader(loader, true, ttl, args)` |
| `Golazy.Preloaded` | golazy.go:55-57 | Preloaded is `newWithLoaderPreloaded(value, loader, false, 0, args)` as written |
| `Golazy.PreloadedTTL` | golazy.go:62-64 | PreloadedTTL is `newWithLoaderPreloaded(value, loader, true, ttl, args)` as written |
| `Golazy.Static` | golazy.go:69-73 | Static builds a constant cell that holds `value` and returns it with a nil error for any contexts |
| `Golazy.Value` | golazy.go:19-28 | Value on either implementation: a constant cell returns its value with a nil error, unchanged and without loading; a loader cell calls its loader exactly when unloaded or expired, returning the loader's pair, and otherwise returns its cached value with a nil error and does not change; on a load it caches the loader's pair (loaded iff the error is nil, stamped `loadedAt`, arguments and TTL configuration kept) |
| `Golazy.Clear` | golazy.go:30-32 | Clear leaves a constant cell unchanged; it leaves a loader cell unloaded without a timestamp, with its value, args and TTL policy kept |
| `Golazy.ValueUsesFirstContextOnly` | golazy.go:23-28 | on both implementations Value uses only the first context; any loader call gets that context, or Background when none is given |
| `Golazy.ClearThenValue` | golazy.go:30-32 | on both implementations Clear is idempotent; after Clear, a loader cell's next Value calls the loader with the fixed args and returns its pair, and a constant cell still returns its value |
| `Golazy.CellValue` | with_loader.go:65-88 | Value on a loader cell object gives the new fields, the reply and the loader call of `Golazy.Value` on its interface view |
| `Golazy.CellClear` | with_loader.go:92-97 | Clear on a loader cell object gives the fields of `Golazy.Clear` on its interface view and makes no loader call |
| `Golazy.CachesValueScenario` | golazy_test.go:33-52 | three Values on a WithLoader cell return the same value, with one loader call |
| `Golazy.ClearsCacheScenario` | golazy_test.go:76-95 | with a counting loader, Value, Clear, Value return 1 and then 2, with two loader calls |
| `Golazy.PreloadedScenario` | golazy_test.go:215-236 | as written, the first Value on `Preloaded("preloaded", loader)` calls the loader and returns "from-loader" |

## Left out

- The mutex `mu` (with_loader.go:27) and the single-flight concurrency test are left out. Each `Value` and `Clear` is modelled as one atomic step, which is what the lock guarantees.
- The clock (`time.Now`, `time.Since`) is left out. The caller passes the two readings as `now` and `loadedAt`. The model does not require them to be monotonic.
- Durations are unbounded integers. The 64-bit range of `time.Duration` and the saturation of `time.Sub` are not modelled.
- What a context contains, and whether it is cancelled, is left out. The cell only passes the context on, so a context is an opaque token.
- The loader is not stored as a field, because it is user code. Its result is an input to each `Value` call, and its invocations are recorded in the ghost `calls` log. Any result is accepted, but the model cannot express how a loader's result depends on the context and args it receives.
- A loader that panics, and a nil loader, are not modelled. In Go the assignment at with_loader.go:81 then never happens, the fields stay as they were, the deferred unlock runs and the panic leaves `Value`. In the model every loader call returns a pair.
- Aliasing of the argument slice is not modelled. Go stores the caller's `args` slice without copying it (with_loader.go:35) and passes the same backing array to every loader call (with_loader.go:81). A caller or loader that writes into it changes what later calls receive. The model's `args` is an immutable sequence, so `RunOps`'s "every loader call gets the fixed args" holds in Go only when nobody writes into that slice.
- `WithLoaderCell.WithLoader.constructor` does not fix the initial `value`. In Go it is the zero value of `T`. It is never returned before a load overwrites it (`StaleValueUnobservable`).
- `LazyFuncFor`, the adapter that wraps a bare value as a loader, is used by golazy_test.go but is not defined in golazy.go, with_loader.go or static.go. LazyFuncFor is not part of this model.

## Findings

| source | as written | input that shows it | evidently intended | confidence | as-written member | corrected member |
|---|---|---|---|---|---|---|
| with_loader.go:46-58 | `newWithLoaderPreloaded` sets `value` and `lastLoad` but never sets `loaded`, so `loaded` is false, and the first `Value` takes the `!l.loaded` branch (with_loader.go:72) | `Preloaded("preloaded", loader)` where the loader returns "from-loader", then `Value()`: the loader runs and "from-loader" is returned, against golazy.go:51-64 and golazy_test.go:215-236 | `loaded: true`: the first Value before expiry returns the preload value without calling the loader | high; not executed | `WithLoaderCell.PreloadedFirstValueCallsLoader` | `WithLoaderCell.PreloadedIntendedFirstValueHits` |

The public constructors `Golazy.Preloaded` and `Golazy.PreloadedTTL` follow the
code as written, so the model matches the code. The corrected construction is
`WithLoaderCell.PreloadedIntendedState`, with the class constructor
`WithLoaderCell.WithLoader.PreloadedIntended`. The one preloading test that
would pass as written, with_loader_test.go:27-37, checks `!wl.loaded && wl.value !=
"preloaded"`. That condition is false in either case.
