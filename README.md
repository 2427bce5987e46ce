# react-data-fetching-components: the bookkeeping, in Dafny

This project models two parts of a small React data-fetching helper and
proves properties about them:

- **`withInitialData`** (`with_initial_data.dfy`, module `WithInitialData`) is
  the higher-order component. Each wrapper instance works out its store id.
  The id is an explicit `dataKey`, or the wrapped component's display name
  followed by `_` and a hash of the props left after removing `history`,
  `location` and `staticContext`. The instance then looks the id up in the
  shared store. In the browser it deletes the entry it found. It then moves
  its `data` / `isLoading` / `error` / `treeWalking` state and its
  `ignoreLastFetch` flag through mount, props change, unmount and fetch
  settlement, and renders one of three things. The instance is the class
  `Wrapper`, and the shared store is the class `ComponentDataStore`. Their
  methods change fields in place. They are specified by the pure functions
  `InitialState`, `StoreAfterConstruction`, `StartFetch`, `Step` and
  `RenderChoice`. The lemmas are stated about those functions and about
  `Run`, which applies a sequence of lifecycle events.
- **`getAllInitialData`** (`initial_data_collector.dfy`, module
  `InitialDataCollector`) is the server-side pass. The tree walk is given as
  the list of visited nodes. The visitor (`Collector.Visit`) fills
  `dataResolved` for sequential nodes and `dataPromises` for parallel ones.
  `AllParams` resolves the promises, and the result is the right-biased
  merge. The functions `DataResolved`, `DataPromises`, `Aborted` and
  `Collected` describe what has been recorded after any prefix of the walk.
  The lemmas give the result's key set, parallel precedence, and which node
  wins among nodes that share an id.
- `js_value.dfy` (module `JsValue`) holds the JavaScript values the code
  depends on. These are truthiness, string conversion (template literals and
  property keys) and promise outcomes.
- `fetch_generation.dfy` (module `FetchGeneration`) holds the corrected fetch
  bookkeeping for the finding below.

The model follows the code as written. Six behaviours of the code as
written may surprise a reader. The first two go against a name or a comment
in the code itself:

- The comment at `src/withInitialData.jsx:91-92` says mount fetches when the
  store gave no data. The check at line 72 is `!this.state.data`, so a stored
  `null`, `0`, `''` or `false` is fetched again (`FalsyHitRefetches`).
- The flag `ignoreLastFetch` is named as if it dropped the result of the last
  fetch. It is read only when a fetch starts (line 93), and
  `componentDidUpdate` clears it (line 79). So a fetch already in flight
  always calls `setState` when it settles. See the finding below.
- `fetchData` catches a rejection and resolves with null (lines 102-107). A
  wrapper node therefore never aborts collection, and a failed server fetch
  is recorded as null (`WrapperNode`, `NonRejectingWalkCompletes`). Only an
  instance whose own `fetchData` rejects can abort collection. For a
  sequential node the walk stops. For a parallel node `AllParams` rejects,
  unless a later parallel node with the same id replaced the rejected
  promise.
- A successful fetch never clears `error` (line 99). Only a later rejection
  with a falsy reason makes it falsy again (`ErrorIsSticky`).
- `render` gives the wrapped component the props, `refetch` and `data`, but
  no loading flag (lines 149-155).
- `componentDidUpdate` fetches again on any new props object (line 78), not
  only when the identity props change. The id itself is computed once, in
  the constructor.

## Model

| member | source | states |
|---|---|---|
| `WithInitialData.DisplayName` | src/withInitialData.jsx:167-169 | the display name is `displayName` if truthy, else `name` if truthy, else `'Component'`; it is always truthy |
| `JsValue.ToJsString` | src/withInitialData.jsx:34-40 | string conversion keeps a string as it is and turns every truthy value into a non-empty string |
| `WithInitialData.RestProps` | src/withInitialData.jsx:23-28 | the identity props are exactly the props minus `history`, `location` and `staticContext`, with the same values |
| `WithInitialData.ComponentId` | src/withInitialData.jsx:34-40 | a truthy `dataKey` is used verbatim as the id; otherwise the id is the display name when no identity props remain, and the display name followed by `_` and the hash of the identity props when some do; the id is never empty |
| `WithInitialData.IdsAgreeIffHashesAgree` | src/withInitialData.jsx:34-40 | without a `dataKey`, two instances of one component with identity props share an id exactly when the hash gives their identity props the same value |
| `WithInitialData.IdIgnoresRoutingProps` | src/withInitialData.jsx:23-40 | props that differ only in `history`, `location` or `staticContext` give the same id |
| `WithInitialData.SuffixSeparatesIds` | src/withInitialData.jsx:34-40 | without a `dataKey`, an instance with no identity props never shares an id with one that has some, whatever the hash |
| `WithInitialData.DataKeysSeparateIds` | src/withInitialData.jsx:34-35 | two different string (or integer) `dataKey`s give different ids |
| `WithInitialData.Lookup` | src/withInitialData.jsx:43-50 | a hit happens exactly when the id is a key of the store, and it yields that key's value |
| `WithInitialData.StoreAfterConstruction` | src/withInitialData.jsx:58-60 | in the browser exactly the id's key is removed and every other entry is unchanged; on the server the store is untouched |
| `WithInitialData.EntryConsumedOnce` | src/withInitialData.jsx:43-60 | after a browser construction a second instance with the same id misses, and other ids still hit as before |
| `WithInitialData.InitialState` | src/withInitialData.jsx:52-65 | on a hit the state is not loading and holds the stored value; on a miss it is loading with no data; no error; `treeWalking` comes from context |
| `WithInitialData.Constructed` | src/withInitialData.jsx:52-68 | the constructor's instance has the initial state and `ignoreLastFetch` false |
| `WithInitialData.FalsyHitRefetches` | src/withInitialData.jsx:71-75 | mount calls `fetchData` exactly when the stored value is falsy, so a hit of null, 0 or '' still fetches; a truthy hit is left unchanged |
| `WithInitialData.StartFetch` | src/withInitialData.jsx:93-111 | with the ignore flag set, `fetchData` changes nothing; otherwise it sets `isLoading` and leaves data, error and the flag alone |
| `WithInitialData.ApplyOutcome` | src/withInitialData.jsx:98-106 | success sets `data` to the value and clears loading, keeping the error; failure sets `error`, clears loading and keeps `data` |
| `WithInitialData.FetchPromise` | src/withInitialData.jsx:96-111 | the promise of `fetchData` never rejects; it yields the data on success and null when ignored or failed |
| `WithInitialData.GetInitialData` | src/withInitialData.jsx:9-14 | the static forwards the wrapped component's `getInitialData`, or yields null without one |
| `WithInitialData.Step` | src/withInitialData.jsx:71-107 | only a rejection writes `error`, and only a resolution writes `data`; only unmount sets the flag, and only a changed props object clears it; unmount changes no state; a props change leaves the flag false and the instance loading |
| `WithInitialData.ErrorIsSticky` | src/withInitialData.jsx:98-135 | once `error` is truthy, every later sequence of events without a falsy-reason rejection keeps it truthy, and the render takes the error branch even after a successful refetch |
| `WithInitialData.OnlyUnmountSetsIgnore` | src/withInitialData.jsx:68-86 | starting from a false flag, no sequence of events without an unmount sets `ignoreLastFetch` |
| `WithInitialData.IgnoredInstanceIsInert` | src/withInitialData.jsx:71-111 | while the flag is set, mount, refetch, unchanged updates and unmount leave the instance exactly as it was |
| `WithInitialData.StaleResultOverwrites` | src/withInitialData.jsx:77-107 | a fetch started before a props change (or before an unmount) still writes its data when it settles, and clears loading while the newer fetch is pending |
| `WithInitialData.RenderChoice` | src/withInitialData.jsx:114-156 | error first (error variant, or nothing); then loading, never while tree-walking (loading variant, or nothing); otherwise the wrapped component with the props plus `refetch` and `data`, which override props of the same names; the instance (`Wrapper.Render`) passes its current props, its state and its own `fetchData` as `refetch` |
| `WithInitialData.Wrapper.constructor` | src/withInitialData.jsx:20-69 | the id is `ComponentId` of the props; the instance starts as `Constructed` of the lookup; the shared store becomes `StoreAfterConstruction` of what it was |
| `WithInitialData.Wrapper.FetchData` | src/withInitialData.jsx:90-112 | the instance moves by `StartFetch`; the call is in flight unless ignored, when it is `Promise.resolve(null)` |
| `WithInitialData.Wrapper.Settle` | src/withInitialData.jsx:98-107 | the continuation applies the outcome whatever the flag says now, and returns the value the fetch promise yields |
| `WithInitialData.Wrapper.ComponentDidMount` | src/withInitialData.jsx:71-75 | the instance moves by the `Mount` step; a fetch is in flight exactly when data was falsy and the flag was clear |
| `WithInitialData.Wrapper.ComponentDidUpdate` | src/withInitialData.jsx:77-82 | a new props object clears the flag and starts a fetch; the same props object changes nothing |
| `WithInitialData.Wrapper.ComponentWillUnmount` | src/withInitialData.jsx:84-86 | unmount sets the flag and nothing else |
| `InitialDataCollector.WrapperNode` | src/withInitialData.jsx:96-111 | a freshly built wrapper presents its id and parallel flag to the visitor, and its `fetchData` resolves, to null when `getInitialData` failed |
| `InitialDataCollector.AllParams` | src/getAllInitialData.jsx:7-10 | succeeds exactly when every entry resolves, and then returns a map with exactly the input's keys, each bound to that entry's value; otherwise it rejects with the reason of some rejected entry |
| `InitialDataCollector.Collected` | src/getAllInitialData.jsx:56 | the merge has the keys of both maps; parallel values win on shared keys |
| `InitialDataCollector.Collector.Visit` | src/getAllInitialData.jsx:33-50 | never returns false; a parallel node's promise goes into `dataPromises`; a sequential node's value is recorded in `dataResolved` before it returns; a sequential rejection is passed on |
| `InitialDataCollector.GetAllInitialData` | src/getAllInitialData.jsx:29-57 | fails with the first sequential rejection, or with a kept parallel rejection; otherwise returns `Collected` of the walk |
| `InitialDataCollector.ResolvedKeys` | src/getAllInitialData.jsx:41-45 | `dataResolved` has exactly the ids of the sequential nodes |
| `InitialDataCollector.PromiseKeys` | src/getAllInitialData.jsx:39-40 | `dataPromises` has exactly the ids of the parallel nodes |
| `InitialDataCollector.CollectedKeys` | src/getAllInitialData.jsx:33-56 | the result's keys are exactly the ids of visited nodes with a `fetchData`; other nodes contribute nothing |
| `InitialDataCollector.LastPromiseKept` | src/getAllInitialData.jsx:39-40 | among parallel nodes sharing an id, the last visited one's promise is kept |
| `InitialDataCollector.LastResolvedKept` | src/getAllInitialData.jsx:42-43 | among sequential nodes sharing an id, the last visited one's value overwrites the others |
| `InitialDataCollector.ParallelWins` | src/getAllInitialData.jsx:54-56 | on an id that a parallel node has, the last such node's value is the result, wherever sequential nodes with that id stand in the walk |
| `InitialDataCollector.SequentialLastWins` | src/getAllInitialData.jsx:42-56 | on an id no parallel node has, the last sequential node with that id decides the result |
| `InitialDataCollector.HydrationRoundTrip` | src/getAllInitialData.jsx:33-56 | for the node that decides an id, an instance constructed over the collected store hits, is not loading, and holds that node's fetched value; it fetches again on mount exactly when that value is falsy |
| `InitialDataCollector.NonRejectingWalkCompletes` | src/getAllInitialData.jsx:39-54 | when no `fetchData` rejects, as for every wrapper instance, the walk never aborts and every kept promise resolves |
| `JsValue.DecimalRoundTrip` | src/withInitialData.jsx:34-36 | the decimal string of a number (a numeric `dataKey` used as an id) reads back as that number |
| `FetchGeneration.TrackedStep` | src/withInitialData.jsx:77-107 | corrected bookkeeping: a settlement with an old generation changes nothing; an unmounted instance's state never changes |
| `FetchGeneration.StaleTokensNeverApply` | src/withInitialData.jsx:77-107 | corrected bookkeeping: a fetch that is no longer the latest never writes the state, whatever happened since it started |
| `FetchGeneration.NothingChangesAfterUnmount` | src/withInitialData.jsx:84-107 | corrected bookkeeping: after unmount no sequence of events changes the state |
| `FetchGeneration.LatestFetchWins` | src/withInitialData.jsx:77-107 | corrected bookkeeping: the fetch started before a props change is discarded, and the one the props change started lands |

## Findings

| source | as written | input that shows it | evidently intended | confidence | as-written member | corrected member |
|---|---|---|---|---|---|---|
| src/withInitialData.jsx:77-107 | `ignoreLastFetch` is cleared on every props change and read only when a fetch starts, so a fetch already in flight always calls `setState` when it settles | the mount fetch is pending; a props change starts a second fetch; the first resolves with `v`: `data` becomes `v` and loading ends while the second is still pending; likewise a fetch pending at unmount calls `setState` on the unmounted instance | a result from a fetch that is no longer the latest, or that arrives after unmount, is discarded | medium; not executed | `WithInitialData.StaleResultOverwrites` | `FetchGeneration.StaleTokensNeverApply` |

The wrapper model (`WithInitialData`) keeps the behaviour as written. The
corrected bookkeeping in `FetchGeneration` replaces only the flag with a
generation counter. It reuses `WithInitialData.ApplyOutcome` and
`WithInitialData.MountCallsFetch`.

## Left out

- src/ComponentDataStore.jsx and the `TreeWalking` component (src/getAllInitialData.jsx:13-27): React context plumbing and the single-child check. The store is the shared `ComponentDataStore` object passed to the constructor by reference (null when there is no provider). The traversal flag is a boolean parameter.
- A provider whose `data` is missing or falsy is not modelled: with a provider, `data` is always a map.
- `react-tree-walker` is a foreign library. The pre-order walk is given as the list of visited nodes. The model assumes that a visitor promise which rejects makes the walk reject, and that nodes after it are not visited.
- `object-hash` is a function parameter `Props -> string`. Nothing is assumed about it, injectivity included.
- Promise scheduling and `setState` batching: each fetch outcome is a given value or error, and each `setState` takes effect at once, in the order the events are applied. Interleaving of parallel fetches is not modelled.
- React's handling of `setState` on an unmounted component (a no-op with a warning) is not modelled. The model shows what the instance's own code writes.
- `Run` and `Step` do not record which earlier fetch a `Settle` event belongs to. Any settlement may follow any events.
- `typeof window !== 'undefined'` is the `isBrowser` parameter.
- The argument passed to `getInitialData` (the instance's props, `src/withInitialData.jsx:97`) is not modelled. Only how its promise settles is. A synchronous throw from `getInitialData` is not modelled.
- PropTypes checks and the devtools `displayName` of the wrapper class (src/withInitialData.jsx:159-161) are left out. So is the probe `new WrappedComponent()`: whether the wrapped component has `error` and `loading` variants is two flags.
- JavaScript numbers are integers here. NaN, `Infinity` and fractions are left out. So is the loss of precision above 2^53. So is the exponent form in which JavaScript prints magnitudes of 1e21 and above: a `dataKey` of `1e21` gives the id `"1e+21"` in JavaScript, while `ToJsString` prints every integer in plain decimal.
- Functions are treated as plain objects: every object or function converts to the string `"[object Object]"`. In JavaScript `String(fn)` gives the function's source text. A custom `toString` and arrays are not modelled either.
- Ids that name a member of `Object.prototype` are not modelled. On a plain-object store, `id in data` (`src/withInitialData.jsx:47`) also finds inherited members such as `"toString"` or `"constructor"`, and line 59 cannot delete them; `Lookup` misses for them. Assigning to `"__proto__"` (`src/getAllInitialData.jsx:9`, 40, 43) changes the prototype instead of adding an entry, so that id is missing from the merged result at line 56, while `Collected` has it.
- `componentDidUpdate` compares props objects by reference. The model receives the outcome of that comparison as a boolean.
