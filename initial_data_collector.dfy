/**
 * `getAllInitialData`: the server-side pass that visits the rendered tree in
 * pre-order, calls `fetchData` on every instance that has one, and returns
 * one map from component id to fetched data.
 *
 * The tree walker itself is not modelled: the walk is given as the list of
 * visited nodes. A node whose visitor result is a rejected promise ends the
 * walk (the walker rejects); otherwise the walk visits every node.
 */
module InitialDataCollector {
  import opened JsValue
  import opened WithInitialData

  /** One visited instance: its store id, whether it has a `fetchData`
      method, its `getInitialDataInParallel` field, and how the promise its
      `fetchData()` returns settles. */
  datatype Node = Node(id: string, hasFetchData: bool, getInitialDataInParallel: Value, fetch: Outcome)

  predicate IsParallel(n: Node)
  {
    n.hasFetchData && Truthy(n.getInitialDataInParallel)
  }

  predicate IsSequential(n: Node)
  {
    n.hasFetchData && !Truthy(n.getInitialDataInParallel)
  }

  /** The node a freshly constructed `withInitialData` instance presents to
      the visitor: its `fetchData` never rejects, and a failed
      `getInitialData` is recorded as null. */
  function WrapperNode(c: WrappedComponent, p: Props, hash: Props -> string, own: Outcome): (n: Node)
    ensures n.id == ComponentId(c, p, hash) && n.hasFetchData
    ensures IsParallel(n) <==> Truthy(c.getInitialDataInParallel)
    ensures n.fetch.Resolved?
    ensures n.fetch.value == if c.hasGetInitialData && own.Resolved? then own.value else Null
  {
    // The instance the walker constructs has just been built, so its
    // `ignoreLastFetch` is false.
    Node(ComponentId(c, p, hash), true, c.getInitialDataInParallel,
         FetchPromise(false, GetInitialData(c, own)))
  }

  // ---------------------------------------------------------------------
  // allParams

  predicate AllResolved(o: map<string, Outcome>)
  {
    forall k :: k in o ==> o[k].Resolved?
  }

  /** `allParams(o)`: wait for every promise of `o`, then build a map with the
      same keys bound to the resolved values. If some promise rejects, the
      result rejects with the reason of one of the rejected promises (which
      one depends on timing). */
  method AllParams(o: map<string, Outcome>) returns (r: Settlement<map<string, Value>>)
    ensures r.Resolved? <==> AllResolved(o)
    ensures r.Resolved? ==> r.value.Keys == o.Keys
    ensures r.Resolved? ==> forall k :: k in o ==> r.value[k] == o[k].value
    ensures r.Rejected? ==> exists k :: k in o && o[k] == Rejected(r.reason)
  {
    // Promise.all over the values
    var rejected := set k | k in o && o[k].Rejected?;
    if rejected != {} {
      var k :| k in rejected;
      return Rejected(o[k].reason);
    }
    assert AllResolved(o) by {
      forall k | k in o ensures o[k].Resolved? {
        assert k !in rejected;
      }
    }
    // the reduce over the keys
    var acc: map<string, Value> := map[];
    var keys := o.Keys;
    while keys != {}
      invariant keys <= o.Keys
      invariant acc.Keys == o.Keys - keys
      invariant forall k :: k in acc ==> o[k].Resolved? && acc[k] == o[k].value
      decreases keys
    {
      var k :| k in keys;
      acc := acc[k := o[k].value];
      keys := keys - {k};
    }
    return Resolved(acc);
  }

  // ---------------------------------------------------------------------
  // What the visitor has recorded after visiting a prefix of the walk

  /** The reason of the first sequential fetch that rejected, if any. */
  function Aborted(w: seq<Node>): Option<Value>
    decreases |w|
  {
    if |w| == 0 then None
    else
      var before := Aborted(w[..|w| - 1]);
      var n := w[|w| - 1];
      if before.Some? then before
      else if IsSequential(n) && n.fetch.Rejected? then Some(n.fetch.reason)
      else None
  }

  /** `dataResolved` after visiting `w`. */
  function DataResolved(w: seq<Node>): map<string, Value>
    decreases |w|
  {
    if |w| == 0 then map[]
    else
      var m := DataResolved(w[..|w| - 1]);
      var n := w[|w| - 1];
      if IsSequential(n) && n.fetch.Resolved? then m[n.id := n.fetch.value] else m
  }

  /** `dataPromises` after visiting `w`. */
  function DataPromises(w: seq<Node>): map<string, Outcome>
    decreases |w|
  {
    if |w| == 0 then map[]
    else
      var m := DataPromises(w[..|w| - 1]);
      var n := w[|w| - 1];
      if IsParallel(n) then m[n.id := n.fetch] else m
  }

  /** `{ ...dataResolved, ...dataPromisesResolved }` for a walk that finished
      and whose kept parallel promises all resolved. */
  function Collected(w: seq<Node>): (r: map<string, Value>)
    requires Aborted(w) == None && AllResolved(DataPromises(w))
    ensures r.Keys == DataResolved(w).Keys + DataPromises(w).Keys
    ensures forall k :: k in DataPromises(w) ==> r[k] == DataPromises(w)[k].value
    ensures forall k :: k in DataResolved(w) && k !in DataPromises(w) ==> r[k] == DataResolved(w)[k]
  {
    var promises := DataPromises(w);
    DataResolved(w) + map k | k in promises :: promises[k].value
  }

  // ---------------------------------------------------------------------
  // The visitor and the pass

  /** The closure state of one `getAllInitialData` call: the two maps its
      visitor fills. */
  class Collector {
    var dataResolved: map<string, Value>
    var dataPromises: map<string, Outcome>

    constructor ()
      ensures dataResolved == map[] && dataPromises == map[]
    {
      dataResolved := map[];
      dataPromises := map[];
    }

    /** The visitor. Resolved(true) stands for `true` or a promise of `true`;
        Rejected(e) for a promise rejected with `e`, which ends the walk. It
        never returns false, so it never prunes the tree. A sequential node's
        value is recorded before the visitor returns. */
    method Visit(n: Node) returns (v: Settlement<bool>)
      modifies this
      ensures v.Resolved? ==> v.value
      ensures v.Rejected? <==> IsSequential(n) && n.fetch.Rejected?
      ensures v.Rejected? ==> v.reason == n.fetch.reason
      ensures dataResolved ==
        if IsSequential(n) && n.fetch.Resolved? then old(dataResolved)[n.id := n.fetch.value] else old(dataResolved)
      ensures dataPromises ==
        if IsParallel(n) then old(dataPromises)[n.id := n.fetch] else old(dataPromises)
    {
      v := Resolved(true);
      if n.hasFetchData {
        if Truthy(n.getInitialDataInParallel) {
          dataPromises := dataPromises[n.id := n.fetch];
        } else {
          match n.fetch {
            case Resolved(data) =>
              dataResolved := dataResolved[n.id := data];
            case Rejected(e) =>
              v := Rejected(e);
          }
        }
      }
    }
  }

  lemma {:induction false} AbortedPrefix(w: seq<Node>, j: nat)
    requires j <= |w|
    requires Aborted(w[..j]).Some?
    ensures Aborted(w) == Aborted(w[..j])
    decreases |w|
  {
    if j < |w| {
      var before := w[..|w| - 1];
      assert before[..j] == w[..j];
      AbortedPrefix(before, j);
    } else {
      assert w[..j] == w;
    }
  }

  /** `getAllInitialData(app)`, given the walk of `app`. It fails exactly when
      a sequential fetch rejects (the first such reason) or a kept parallel
      promise rejects; otherwise it returns the merge of the two maps. */
  method GetAllInitialData(walk: seq<Node>) returns (r: Settlement<map<string, Value>>)
    ensures Aborted(walk).Some? ==> r == Rejected(Aborted(walk).value)
    ensures Aborted(walk).None? && !AllResolved(DataPromises(walk)) ==>
      r.Rejected? && exists k :: k in DataPromises(walk) && DataPromises(walk)[k] == Rejected(r.reason)
    ensures Aborted(walk).None? && AllResolved(DataPromises(walk)) ==> r == Resolved(Collected(walk))
  {
    var collector := new Collector();
    var i := 0;
    while i < |walk|
      invariant i <= |walk|
      invariant Aborted(walk[..i]) == None
      invariant collector.dataResolved == DataResolved(walk[..i])
      invariant collector.dataPromises == DataPromises(walk[..i])
    {
      assert walk[..i + 1][..i] == walk[..i];
      var v := collector.Visit(walk[i]);
      if v.Rejected? {
        AbortedPrefix(walk, i + 1);
        return Rejected(v.reason);
      }
      i := i + 1;
    }
    assert walk[..i] == walk;
    var resolved := AllParams(collector.dataPromises);
    if resolved.Rejected? {
      return Rejected(resolved.reason);
    }
    assert resolved.value == map k | k in collector.dataPromises :: collector.dataPromises[k].value;
    r := Resolved(collector.dataResolved + resolved.value);
  }

  // ---------------------------------------------------------------------
  // Properties of the result

  /** The ids in `dataResolved` are those of the sequential nodes. */
  lemma {:induction false} ResolvedKeys(w: seq<Node>)
    requires Aborted(w) == None
    ensures DataResolved(w).Keys == set n | n in w && IsSequential(n) :: n.id
    decreases |w|
  {
    if |w| > 0 {
      var before, last := w[..|w| - 1], w[|w| - 1];
      ResolvedKeys(before);
      assert w == before + [last];
    }
  }

  /** The ids in `dataPromises` are those of the parallel nodes. */
  lemma {:induction false} PromiseKeys(w: seq<Node>)
    ensures DataPromises(w).Keys == set n | n in w && IsParallel(n) :: n.id
    decreases |w|
  {
    if |w| > 0 {
      var before, last := w[..|w| - 1], w[|w| - 1];
      PromiseKeys(before);
      assert w == before + [last];
    }
  }

  /** The result's keys are exactly the ids of the visited nodes that have a
      `fetchData`; other nodes contribute nothing. */
  lemma CollectedKeys(w: seq<Node>)
    requires Aborted(w) == None && AllResolved(DataPromises(w))
    ensures Collected(w).Keys == set n | n in w && n.hasFetchData :: n.id
  {
    ResolvedKeys(w);
    PromiseKeys(w);
  }

  /** Among parallel nodes sharing an id, the last one's promise is the one
      kept. */
  lemma {:induction false} LastPromiseKept(w: seq<Node>, j: nat)
    requires j < |w| && IsParallel(w[j])
    requires forall k :: j < k < |w| && IsParallel(w[k]) ==> w[k].id != w[j].id
    ensures w[j].id in DataPromises(w) && DataPromises(w)[w[j].id] == w[j].fetch
    decreases |w|
  {
    if j < |w| - 1 {
      LastPromiseKept(w[..|w| - 1], j);
    }
  }

  /** Among sequential nodes sharing an id, the last one's value overwrites
      the earlier ones. */
  lemma {:induction false} LastResolvedKept(w: seq<Node>, j: nat)
    requires Aborted(w) == None
    requires j < |w| && IsSequential(w[j])
    requires forall k :: j < k < |w| && IsSequential(w[k]) ==> w[k].id != w[j].id
    ensures w[j].fetch.Resolved?
    ensures w[j].id in DataResolved(w) && DataResolved(w)[w[j].id] == w[j].fetch.value
    decreases |w|
  {
    if j < |w| - 1 {
      LastResolvedKept(w[..|w| - 1], j);
    }
  }

  /** On an id that some parallel node has, the last such node's value is the
      result, whatever sequential nodes share the id and wherever they stand
      in the walk. */
  lemma ParallelWins(w: seq<Node>, j: nat)
    requires Aborted(w) == None && AllResolved(DataPromises(w))
    requires j < |w| && IsParallel(w[j])
    requires forall k :: j < k < |w| && IsParallel(w[k]) ==> w[k].id != w[j].id
    ensures w[j].fetch.Resolved?
    ensures w[j].id in Collected(w) && Collected(w)[w[j].id] == w[j].fetch.value
  {
    LastPromiseKept(w, j);
  }

  /** On an id that no parallel node has, the last sequential node with that
      id decides the result. */
  lemma SequentialLastWins(w: seq<Node>, j: nat)
    requires Aborted(w) == None && AllResolved(DataPromises(w))
    requires j < |w| && IsSequential(w[j])
    requires forall k :: j < k < |w| && IsSequential(w[k]) ==> w[k].id != w[j].id
    requires forall k :: 0 <= k < |w| && IsParallel(w[k]) ==> w[k].id != w[j].id
    ensures w[j].fetch.Resolved?
    ensures w[j].id in Collected(w) && Collected(w)[w[j].id] == w[j].fetch.value
  {
    LastResolvedKept(w, j);
    PromiseKeys(w);
    assert w[j].id !in DataPromises(w);
  }

  /** The node whose value the result holds for its id: the last parallel
      node of that id, or, when no parallel node has the id, the last
      sequential one. */
  ghost predicate DecidesId(w: seq<Node>, j: nat)
    requires j < |w|
  {
    && w[j].hasFetchData
    && (IsParallel(w[j]) ==>
          forall k :: j < k < |w| && IsParallel(w[k]) ==> w[k].id != w[j].id)
    && (IsSequential(w[j]) ==>
          && (forall k :: j < k < |w| && IsSequential(w[k]) ==> w[k].id != w[j].id)
          && (forall k :: 0 <= k < |w| && IsParallel(w[k]) ==> w[k].id != w[j].id))
  }

  /** Collect on the server, then construct the instance with that id on the
      client over the collected store: it hits, is not loading, holds the
      value the deciding node fetched, and fetches again on mount exactly
      when that value is falsy (a failed server fetch, recorded as null, is
      fetched again). */
  lemma HydrationRoundTrip(w: seq<Node>, j: nat, treeWalking: bool)
    requires Aborted(w) == None && AllResolved(DataPromises(w))
    requires j < |w| && DecidesId(w, j)
    ensures w[j].fetch.Resolved?
    ensures var hydrated := Constructed(Lookup(Collected(w), w[j].id), treeWalking);
            && !hydrated.state.isLoading
            && hydrated.state.data == w[j].fetch.value
            && (MountCallsFetch(hydrated.state) <==> !Truthy(w[j].fetch.value))
  {
    if IsParallel(w[j]) {
      ParallelWins(w, j);
    } else {
      SequentialLastWins(w, j);
    }
  }

  /** A walk whose fetch-capable nodes all have a never-rejecting `fetchData`
      (every `withInitialData` instance, see `WrapperNode`) always completes:
      a failed `getInitialData` does not abort collection. */
  lemma {:induction false} NonRejectingWalkCompletes(w: seq<Node>)
    requires forall k :: 0 <= k < |w| && w[k].hasFetchData ==> w[k].fetch.Resolved?
    ensures Aborted(w) == None && AllResolved(DataPromises(w))
    decreases |w|
  {
    if |w| > 0 {
      NonRejectingWalkCompletes(w[..|w| - 1]);
    }
  }
}
