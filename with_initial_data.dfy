/**
 * The `withInitialData` higher-order component: how a wrapper instance
 * derives its store id, consumes its entry of the shared store, and moves
 * its `data` / `isLoading` / `error` / `treeWalking` state and its
 * `ignoreLastFetch` flag through mount, props change, unmount and fetch
 * settlement; and which of three things it renders.
 *
 * The pure parts (ids, transitions, the render choice) are functions; the
 * instance itself is the class `Wrapper`, whose methods update its fields in
 * place and are specified by those functions.
 */
module WithInitialData {
  import opened JsValue

  /** What the wrapper reads off the component it wraps. `hasErrorVariant`
      and `hasLoadingVariant` say whether an instance of it has an `error`
      or `loading` method. */
  datatype WrappedComponent = WrappedComponent(
    displayName: Value,
    name: Value,
    hasGetInitialData: bool,
    getInitialDataInParallel: Value,
    hasErrorVariant: bool,
    hasLoadingVariant: bool)

  // ---------------------------------------------------------------------
  // Identity

  /** `displayName || name || 'Component'`. */
  function DisplayName(c: WrappedComponent): (r: Value)
    ensures Truthy(r)
    ensures Truthy(c.displayName) ==> r == c.displayName
    ensures !Truthy(c.displayName) ==> r == (if Truthy(c.name) then c.name else Str("Component"))
  {
    if Truthy(c.displayName) then c.displayName
    else if Truthy(c.name) then c.name
    else Str("Component")
  }

  /** The routing plumbing that does not take part in a component's identity. */
  const RoutingProps: set<string> := {"history", "location", "staticContext"}

  /** The props left after dropping `history`, `location` and `staticContext`. */
  function RestProps(p: Props): (r: Props)
    ensures r.Keys == p.Keys - RoutingProps
    ensures forall k :: k in r ==> r[k] == p[k]
  {
    p - RoutingProps
  }

  /** The id under which an instance is looked up in the store and under
      which the collector records its data. `hash` is the hashing library,
      about which nothing is assumed. */
  function ComponentId(c: WrappedComponent, p: Props, hash: Props -> string): (id: string)
    ensures |id| > 0
    ensures Truthy(Prop(p, "dataKey")) ==> id == ToJsString(Prop(p, "dataKey"))
    ensures !Truthy(Prop(p, "dataKey")) ==> ToJsString(DisplayName(c)) <= id
    ensures !Truthy(Prop(p, "dataKey")) ==>
      (id == ToJsString(DisplayName(c)) <==> |RestProps(p)| == 0)
    ensures !Truthy(Prop(p, "dataKey")) && |RestProps(p)| > 0 ==>
      id == ToJsString(DisplayName(c)) + "_" + hash(RestProps(p))
  {
    var dataKey := Prop(p, "dataKey");
    if Truthy(dataKey) then ToJsString(dataKey)
    else
      var rest := RestProps(p);
      ToJsString(DisplayName(c)) + (if |rest| > 0 then "_" + hash(rest) else "")
  }

  /** Without a `dataKey`, two instances of one component that both have
      identity props share an id exactly when the hash gives their identity
      props the same value: ids differ unless the hash collides. */
  lemma IdsAgreeIffHashesAgree(c: WrappedComponent, p: Props, q: Props, hash: Props -> string)
    requires !Truthy(Prop(p, "dataKey")) && !Truthy(Prop(q, "dataKey"))
    requires |RestProps(p)| > 0 && |RestProps(q)| > 0
    ensures ComponentId(c, p, hash) == ComponentId(c, q, hash) <==> hash(RestProps(p)) == hash(RestProps(q))
  {
    var name := ToJsString(DisplayName(c));
    var a, b := ComponentId(c, p, hash), ComponentId(c, q, hash);
    if a == b {
      assert a[|name| + 1..] == hash(RestProps(p));
      assert b[|name| + 1..] == hash(RestProps(q));
    }
  }

  /** Routing props never change an id: two props objects that agree on every
      other key give the same id. */
  lemma IdIgnoresRoutingProps(c: WrappedComponent, p: Props, q: Props, hash: Props -> string)
    requires forall k :: k !in RoutingProps ==> (k in p <==> k in q)
    requires forall k :: k in p && k !in RoutingProps ==> k in q && p[k] == q[k]
    ensures ComponentId(c, p, hash) == ComponentId(c, q, hash)
  {
    assert RestProps(p) == RestProps(q);
    assert Prop(p, "dataKey") == Prop(q, "dataKey") by {
      assert "dataKey" !in RoutingProps;
    }
  }

  /** Without a `dataKey`, an instance with no identity props and one with
      some never share an id, whatever the hash returns. */
  lemma SuffixSeparatesIds(c: WrappedComponent, p: Props, q: Props, hash: Props -> string)
    requires !Truthy(Prop(p, "dataKey")) && !Truthy(Prop(q, "dataKey"))
    requires |RestProps(p)| == 0 && |RestProps(q)| > 0
    ensures ComponentId(c, p, hash) != ComponentId(c, q, hash)
  {
  }

  /** Two different string or integer `dataKey`s give different ids. */
  lemma DataKeysSeparateIds(c: WrappedComponent, p: Props, q: Props, hash: Props -> string)
    requires Truthy(Prop(p, "dataKey")) && Truthy(Prop(q, "dataKey"))
    requires (Prop(p, "dataKey").Str? && Prop(q, "dataKey").Str?)
          || (Prop(p, "dataKey").Num? && Prop(q, "dataKey").Num?)
    requires Prop(p, "dataKey") != Prop(q, "dataKey")
    ensures ComponentId(c, p, hash) != ComponentId(c, q, hash)
  {
    if Prop(p, "dataKey").Num? {
      NumbersPrintApart(Prop(p, "dataKey").n, Prop(q, "dataKey").n);
    }
  }

  // ---------------------------------------------------------------------
  // The shared store

  /** The `{ data }` object a store provider puts in context. It is shared by
      reference with every instance below the provider. */
  class ComponentDataStore {
    var data: map<string, Value>

    constructor (data: map<string, Value>)
      ensures this.data == data
    {
      this.data := data;
    }
  }

  /** The entry an instance finds for its id, if any. */
  function Lookup(store: map<string, Value>, id: string): (hit: Option<Value>)
    ensures hit.Some? <==> id in store
    ensures hit.Some? ==> hit.value == store[id]
  {
    if id in store then Some(store[id]) else None
  }

  /** The store once an instance with id `id` has been constructed: in the
      browser a hit removes that one entry; on the server nothing changes. */
  function StoreAfterConstruction(store: map<string, Value>, id: string, isBrowser: bool): (r: map<string, Value>)
    ensures r.Keys == if isBrowser then store.Keys - {id} else store.Keys
    ensures forall k :: k in r ==> r[k] == store[k]
  {
    if id in store && isBrowser then store - {id} else store
  }

  /** In the browser an entry is consumed once: a second instance with the
      same id misses, and every other entry is still there to be consumed. */
  lemma EntryConsumedOnce(store: map<string, Value>, id: string, other: string)
    requires other != id
    ensures Lookup(StoreAfterConstruction(store, id, true), id) == None
    ensures Lookup(StoreAfterConstruction(store, id, true), other) == Lookup(store, other)
  {
  }

  // ---------------------------------------------------------------------
  // Instance state

  /** `this.state`. A key the code never set reads as `Undefined`. */
  datatype State = State(data: Value, isLoading: bool, error: Value, treeWalking: bool)

  /** `this.state` together with `this.ignoreLastFetch`. */
  datatype Instance = Instance(state: State, ignoreLastFetch: bool)

  /** The state the constructor sets up from the store lookup. */
  function InitialState(hit: Option<Value>, treeWalking: bool): (s: State)
    ensures s.isLoading <==> hit.None?
    ensures hit.Some? ==> s.data == hit.value
    ensures hit.None? ==> s.data == Undefined
    ensures s.error == Undefined && s.treeWalking == treeWalking
  {
    match hit
    case Some(v) => State(v, false, Undefined, treeWalking)
    case None => State(Undefined, true, Undefined, treeWalking)
  }

  /** The instance the constructor produces. */
  function Constructed(hit: Option<Value>, treeWalking: bool): (i: Instance)
    ensures i.state == InitialState(hit, treeWalking) && !i.ignoreLastFetch
  {
    Instance(InitialState(hit, treeWalking), false)
  }

  /** `componentDidMount` calls `fetchData` exactly when `state.data` is falsy. */
  predicate MountCallsFetch(s: State)
  {
    !Truthy(s.data)
  }

  /** A store hit whose value is falsy (null, 0, '', false) is fetched again
      on mount; a truthy one is not. */
  lemma FalsyHitRefetches(v: Value, treeWalking: bool)
    ensures MountCallsFetch(Constructed(Some(v), treeWalking).state) <==> !Truthy(v)
    ensures !Truthy(v) ==> Step(Constructed(Some(v), treeWalking), Mount).state.isLoading
    ensures Truthy(v) ==> Step(Constructed(Some(v), treeWalking), Mount) == Constructed(Some(v), treeWalking)
  {
  }

  /** The synchronous part of `fetchData`: unless the ignore flag is set, it
      marks the instance loading (and starts the fetch). */
  function StartFetch(i: Instance): (r: Instance)
    ensures r.ignoreLastFetch == i.ignoreLastFetch
    ensures i.ignoreLastFetch ==> r == i
    ensures !i.ignoreLastFetch ==> r.state.isLoading
    ensures r.state.data == i.state.data && r.state.error == i.state.error
    ensures r.state.treeWalking == i.state.treeWalking
  {
    if i.ignoreLastFetch then i else i.(state := i.state.(isLoading := true))
  }

  /** The continuation of a fetch: success stores the data, failure stores
      the error; both stop loading. */
  function ApplyOutcome(s: State, o: Outcome): (r: State)
    ensures !r.isLoading && r.treeWalking == s.treeWalking
    ensures o.Resolved? ==> r.data == o.value && r.error == s.error
    ensures o.Rejected? ==> r.error == o.reason && r.data == s.data
  {
    match o
    case Resolved(v) => s.(data := v, isLoading := false)
    case Rejected(e) => s.(error := e, isLoading := false)
  }

  /** What the promise returned by `fetchData` settles to, given the ignore
      flag when it was called and the outcome of `getInitialData`: it never
      rejects; it yields the data, or null when ignored or failed. */
  function FetchPromise(ignoreLastFetch: bool, o: Outcome): (r: Outcome)
    ensures r.Resolved?
    ensures !ignoreLastFetch && o.Resolved? ==> r.value == o.value
    ensures ignoreLastFetch || o.Rejected? ==> r.value == Null
  {
    if ignoreLastFetch then Resolved(Null)
    else match o
      case Resolved(v) => Resolved(v)
      case Rejected(_) => Resolved(Null)
  }

  /** The static `getInitialData`: the wrapped component's own, or a promise
      of null when it has none. `own` is how the wrapped component's
      promise settles. */
  function GetInitialData(c: WrappedComponent, own: Outcome): (r: Outcome)
    ensures c.hasGetInitialData ==> r == own
    ensures !c.hasGetInitialData ==> r == Resolved(Null)
  {
    if c.hasGetInitialData then own else Resolved(Null)
  }

  /** The things that happen to a mounted instance, in the order they happen.
      `PropsUpdate(changed)` is `componentDidUpdate` where `changed` says
      whether the new props object differs from the previous one; `Refetch`
      is a call of the `refetch` prop; `Settle(o)` runs the continuation of
      an earlier fetch whose `getInitialData` settled as `o`. */
  datatype Event =
    | Mount
    | PropsUpdate(changed: bool)
    | Unmount
    | Refetch
    | Settle(outcome: Outcome)

  /** One event, as the code is written. A settling fetch is applied whatever
      happened since it started. */
  function Step(i: Instance, e: Event): (r: Instance)
    ensures r.state.treeWalking == i.state.treeWalking
    ensures r.state.error != i.state.error ==> e.Settle? && e.outcome.Rejected? && r.state.error == e.outcome.reason
    ensures r.state.data != i.state.data ==> e.Settle? && e.outcome.Resolved? && r.state.data == e.outcome.value
    ensures r.ignoreLastFetch && !i.ignoreLastFetch ==> e == Unmount
    ensures !r.ignoreLastFetch && i.ignoreLastFetch ==> e == PropsUpdate(true)
    ensures e == Unmount ==> r.ignoreLastFetch && r.state == i.state
    ensures e == PropsUpdate(true) ==> !r.ignoreLastFetch && r.state.isLoading
  {
    match e
    case Mount => if MountCallsFetch(i.state) then StartFetch(i) else i
    case PropsUpdate(changed) => if changed then StartFetch(i.(ignoreLastFetch := false)) else i
    case Unmount => i.(ignoreLastFetch := true)
    case Refetch => StartFetch(i)
    case Settle(o) => i.(state := ApplyOutcome(i.state, o))
  }

  /** A sequence of events applied in order. */
  function Run(i: Instance, events: seq<Event>): Instance
    decreases |events|
  {
    if |events| == 0 then i else Run(Step(i, events[0]), events[1..])
  }

  /** The one kind of event that can make a set error falsy again: a
      rejection whose reason is itself falsy. */
  predicate ClearsError(e: Event)
  {
    e.Settle? && e.outcome.Rejected? && !Truthy(e.outcome.reason)
  }

  /** Once the error is set, no success, mount, update, unmount or refetch
      clears it, so every later render takes the error branch, even after a
      successful refetch. */
  lemma {:induction false} ErrorIsSticky(c: WrappedComponent, p: Props, i: Instance, events: seq<Event>, refetch: Value)
    requires Truthy(i.state.error)
    requires forall k :: 0 <= k < |events| ==> !ClearsError(events[k])
    ensures Truthy(Run(i, events).state.error)
    ensures RenderChoice(c, p, Run(i, events).state, refetch) == if c.hasErrorVariant then ErrorVariant else Nothing
    decreases |events|
  {
    if |events| > 0 {
      ErrorIsSticky(c, p, Step(i, events[0]), events[1..], refetch);
    }
  }

  /** `ignoreLastFetch` starts false and only an unmount sets it. */
  lemma {:induction false} OnlyUnmountSetsIgnore(i: Instance, events: seq<Event>)
    requires !i.ignoreLastFetch
    requires forall k :: 0 <= k < |events| ==> events[k] != Unmount
    ensures !Run(i, events).ignoreLastFetch
    decreases |events|
  {
    if |events| > 0 {
      OnlyUnmountSetsIgnore(Step(i, events[0]), events[1..]);
    }
  }

  /** While the flag is set, mount and refetch start nothing and change
      nothing; only a changed props object (which resets the flag) or the
      settlement of a fetch already in flight changes the instance. */
  lemma {:induction false} IgnoredInstanceIsInert(i: Instance, events: seq<Event>)
    requires i.ignoreLastFetch
    requires forall k :: 0 <= k < |events| ==> !events[k].Settle? && events[k] != PropsUpdate(true)
    ensures Run(i, events) == i
    decreases |events|
  {
    if |events| > 0 {
      IgnoredInstanceIsInert(Step(i, events[0]), events[1..]);
    }
  }

  /** As written, the flag is consulted only when a fetch starts: a fetch
      started before a props change lands after it, while the newer fetch is
      still pending, and a fetch started before an unmount still calls
      `setState` on the unmounted instance. */
  lemma StaleResultOverwrites(i: Instance, v: Value)
    requires !i.ignoreLastFetch
    ensures Run(i, [Refetch, PropsUpdate(true), Settle(Resolved(v))]).state.data == v
    ensures !Run(i, [Refetch, PropsUpdate(true), Settle(Resolved(v))]).state.isLoading
    ensures Run(i, [Refetch, Unmount, Settle(Resolved(v))]).state.data == v
  {
    var settle := Settle(Resolved(v));
    var updated := Step(Step(i, Refetch), PropsUpdate(true));
    assert [Refetch, PropsUpdate(true), settle][1..] == [PropsUpdate(true), settle];
    assert [PropsUpdate(true), settle][1..] == [settle];
    assert [settle][1..] == [];
    assert Run(updated, [settle]) == Step(updated, settle);
    assert Run(Step(i, Refetch), [PropsUpdate(true), settle]) == Run(updated, [settle]);
    var unmounted := Step(Step(i, Refetch), Unmount);
    assert [Refetch, Unmount, settle][1..] == [Unmount, settle];
    assert [Unmount, settle][1..] == [settle];
    assert Run(unmounted, [settle]) == Step(unmounted, settle);
    assert Run(Step(i, Refetch), [Unmount, settle]) == Run(unmounted, [settle]);
  }

  // ---------------------------------------------------------------------
  // Rendering

  /** What `render` returns: the wrapped component's `error` or `loading`
      variant, nothing, or the wrapped component with the given props. */
  datatype Element = ErrorVariant | LoadingVariant | Nothing | Wrapped(props: Props)

  /** The branch `render` takes: error first, then loading (never while tree
      walking), else the wrapped component with the props plus `refetch` and
      `data`, which override props of the same names. */
  function RenderChoice(c: WrappedComponent, p: Props, s: State, refetch: Value): (e: Element)
    ensures Truthy(s.error) ==> e == if c.hasErrorVariant then ErrorVariant else Nothing
    ensures e.ErrorVariant? ==> Truthy(s.error) && c.hasErrorVariant
    ensures e.LoadingVariant? ==> !Truthy(s.error) && s.isLoading && !s.treeWalking && c.hasLoadingVariant
    ensures s.treeWalking ==> !e.LoadingVariant?
    ensures e.Nothing? <==>
      (Truthy(s.error) && !c.hasErrorVariant)
      || (!Truthy(s.error) && s.isLoading && !s.treeWalking && !c.hasLoadingVariant)
    ensures e.Wrapped? <==> !Truthy(s.error) && (!s.isLoading || s.treeWalking)
    ensures e.Wrapped? ==> e.props.Keys == p.Keys + {"refetch", "data"}
    ensures e.Wrapped? ==> e.props["refetch"] == refetch && e.props["data"] == s.data
    ensures e.Wrapped? ==> forall k :: k in p && k != "refetch" && k != "data" ==> e.props[k] == p[k]
  {
    if Truthy(s.error) then
      if c.hasErrorVariant then ErrorVariant else Nothing
    else if s.isLoading && !s.treeWalking then
      if c.hasLoadingVariant then LoadingVariant else Nothing
    else
      Wrapped(p["refetch" := refetch]["data" := s.data])
  }

  // ---------------------------------------------------------------------
  // The instance

  /** What a call of `fetchData` returns at once: a pending fetch, or the
      already-resolved `Promise.resolve(null)` when the flag is set. */
  datatype FetchCall = InFlight | Immediate(value: Value)

  /** One `withInitialData(WrappedComponent)` instance. */
  class Wrapper {
    const component: WrappedComponent
    const componentDataStoreId: string
    /** Copied from the wrapped component when the instance is created. */
    const getInitialDataInParallel: Value
    /** The instance's own `fetchData` arrow function, passed as `refetch`. */
    const fetchDataFn: Value
    var props: Props
    var state: State
    var ignoreLastFetch: bool

    function Snapshot(): Instance
      reads this
    {
      Instance(state, ignoreLastFetch)
    }

    /** `store` is the context's store, or null without a provider. */
    constructor (component: WrappedComponent, props: Props, store: ComponentDataStore?,
                 treeWalking: bool, isBrowser: bool, hash: Props -> string, fetchDataRef: nat)
      modifies store
      ensures this.component == component && this.props == props
      ensures componentDataStoreId == ComponentId(component, props, hash)
      ensures getInitialDataInParallel == component.getInitialDataInParallel
      ensures fetchDataFn == Obj(fetchDataRef)
      ensures store == null ==> Snapshot() == Constructed(None, treeWalking)
      ensures store != null ==>
        Snapshot() == Constructed(Lookup(old(store.data), componentDataStoreId), treeWalking)
      ensures store != null ==>
        store.data == StoreAfterConstruction(old(store.data), componentDataStoreId, isBrowser)
    {
      this.component := component;
      this.props := props;
      var id := ComponentId(component, props, hash);
      componentDataStoreId := id;
      getInitialDataInParallel := component.getInitialDataInParallel;
      fetchDataFn := Obj(fetchDataRef);
      var hit := if store != null then Lookup(store.data, id) else None;
      state := InitialState(hit, treeWalking);
      ignoreLastFetch := false;
      new;
      if store != null {
        store.data := StoreAfterConstruction(store.data, id, isBrowser);
      }
    }

    /** `fetchData`, up to the point where it waits for `getInitialData`. */
    method FetchData() returns (call: FetchCall)
      modifies this
      ensures Snapshot() == StartFetch(old(Snapshot()))
      ensures props == old(props)
      ensures call == if old(ignoreLastFetch) then Immediate(Null) else InFlight
    {
      if !ignoreLastFetch {
        state := state.(isLoading := true);
        call := InFlight;
      } else {
        call := Immediate(Null);
      }
    }

    /** The continuation of an in-flight `fetchData`, once `getInitialData`
        settled as `o`; returns the value its promise resolves to. */
    method Settle(o: Outcome) returns (v: Value)
      modifies this
      ensures Snapshot() == Step(old(Snapshot()), Event.Settle(o))
      ensures props == old(props)
      ensures v == FetchPromise(false, o).value
    {
      match o {
        case Resolved(d) =>
          state := state.(data := d, isLoading := false);
          v := d;
        case Rejected(e) =>
          state := state.(error := e, isLoading := false);
          v := Null;
      }
    }

    /** `componentDidMount`; says whether a fetch is now in flight. */
    method ComponentDidMount() returns (fetching: bool)
      modifies this
      ensures Snapshot() == Step(old(Snapshot()), Mount)
      ensures props == old(props)
      ensures fetching <==> !Truthy(old(state.data)) && !old(ignoreLastFetch)
    {
      fetching := false;
      if !Truthy(state.data) {
        var call := FetchData();
        fetching := call.InFlight?;
      }
    }

    /** `componentDidUpdate` after React has installed `newProps`;
        `sameObject` says whether they are the previous props object. */
    method ComponentDidUpdate(newProps: Props, sameObject: bool) returns (fetching: bool)
      requires sameObject ==> newProps == props
      modifies this
      ensures props == newProps
      ensures Snapshot() == Step(old(Snapshot()), PropsUpdate(!sameObject))
      ensures fetching <==> !sameObject
    {
      props := newProps;
      fetching := false;
      if !sameObject {
        ignoreLastFetch := false;
        var call := FetchData();
        fetching := call.InFlight?;
      }
    }

    method ComponentWillUnmount()
      modifies this
      ensures Snapshot() == Step(old(Snapshot()), Unmount)
      ensures props == old(props)
    {
      ignoreLastFetch := true;
    }

    /** `render`: the instance's current props and state, with its own
        `fetchData` as `refetch`. */
    function Render(): Element
      reads this
    {
      RenderChoice(component, props, state, fetchDataFn)
    }
  }
}
