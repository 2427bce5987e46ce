/**
 * The wrapper's fetch bookkeeping as its ignore flag evidently intends it:
 * every fetch carries the generation that was current when it started, a
 * props change or an unmount starts a new generation, and a settlement
 * writes the state only if its generation is still current and the
 * instance is still mounted. Rendering, ids and the store are as in
 * `WithInitialData`; only the flag is replaced.
 */
module FetchGeneration {
  import opened JsValue
  import W = WithInitialData

  /** `this.state`, the current generation, and whether the instance has
      been unmounted. */
  datatype Tracked = Tracked(state: W.State, generation: nat, unmounted: bool)

  /** As `WithInitialData.Event`, except that a settlement names the
      generation of the fetch it belongs to. */
  datatype TrackedEvent =
    | Mount
    | PropsUpdate(changed: bool)
    | Unmount
    | Refetch
    | Settle(token: nat, outcome: Outcome)

  /** Start a fetch; its token is the new generation. An unmounted instance
      starts nothing. */
  function Begin(t: Tracked): (r: Tracked)
    ensures t.unmounted ==> r == t
    ensures !t.unmounted ==> r.generation == t.generation + 1 && r.state.isLoading
    ensures r.unmounted == t.unmounted
    ensures r.state.data == t.state.data && r.state.error == t.state.error
  {
    if t.unmounted then t
    else t.(state := t.state.(isLoading := true), generation := t.generation + 1)
  }

  function TrackedStep(t: Tracked, e: TrackedEvent): (r: Tracked)
    ensures r.generation >= t.generation
    ensures t.unmounted ==> r.unmounted && r.state == t.state
    ensures e.Settle? && e.token != t.generation ==> r == t
    ensures e.Settle? && e.token == t.generation && !t.unmounted ==>
      r.state == W.ApplyOutcome(t.state, e.outcome)
  {
    match e
    case Mount => if W.MountCallsFetch(t.state) then Begin(t) else t
    case PropsUpdate(changed) => if changed then Begin(t) else t
    case Unmount => t.(unmounted := true, generation := t.generation + 1)
    case Refetch => Begin(t)
    case Settle(token, o) =>
      if !t.unmounted && token == t.generation then t.(state := W.ApplyOutcome(t.state, o)) else t
  }

  function TrackedRun(t: Tracked, events: seq<TrackedEvent>): Tracked
    decreases |events|
  {
    if |events| == 0 then t else TrackedRun(TrackedStep(t, events[0]), events[1..])
  }

  lemma {:induction false} GenerationNeverDecreases(t: Tracked, events: seq<TrackedEvent>)
    ensures TrackedRun(t, events).generation >= t.generation
    decreases |events|
  {
    if |events| > 0 {
      GenerationNeverDecreases(TrackedStep(t, events[0]), events[1..]);
    }
  }

  /** A fetch that is no longer the latest one never writes the state,
      whatever happens before it settles. */
  lemma StaleTokensNeverApply(t: Tracked, events: seq<TrackedEvent>, token: nat, o: Outcome)
    requires token < t.generation
    ensures TrackedStep(TrackedRun(t, events), Settle(token, o)) == TrackedRun(t, events)
  {
    GenerationNeverDecreases(t, events);
  }

  /** After an unmount nothing writes the state any more. */
  lemma {:induction false} NothingChangesAfterUnmount(t: Tracked, events: seq<TrackedEvent>)
    requires t.unmounted
    ensures TrackedRun(t, events).state == t.state
    decreases |events|
  {
    if |events| > 0 {
      NothingChangesAfterUnmount(TrackedStep(t, events[0]), events[1..]);
    }
  }

  /** A fetch started before a props change is discarded when it settles;
      the fetch the props change started is the one whose result lands. */
  lemma LatestFetchWins(t: Tracked, first: Outcome, second: Outcome)
    requires !t.unmounted
    ensures var started := TrackedStep(t, Refetch);
            var updated := TrackedStep(started, PropsUpdate(true));
            && TrackedStep(updated, Settle(started.generation, first)) == updated
            && TrackedStep(updated, Settle(updated.generation, second)).state
               == W.ApplyOutcome(updated.state, second)
  {
  }
}
