/** The tracked-state records of `useReduxState` (deep proxies, compared
    by `isDeepChanged`) and of `useReduxStateRich` (trapped proxies,
    compared by `proxyEqual`). Both comparators live outside this file and
    are taken here as function parameters. */
module Tracking {
  import opened Js
  import opened Policies
  import opened Trapping

  /** The `new WeakMap()` made on each commit and handed to the comparator
      for its memo; only its identity matters here. */
  class ComparisonCache {
    constructor ()
    {
    }
  }

  /** `lastTracked.current` of `useReduxState`; `A` is the type of the
      `affected` WeakMap filled by that render's deep proxy. */
  datatype DeepTracked<A> = DeepTracked(state: Snapshot, affected: A, cache: ComparisonCache, policy: Policy)

  /** `lastTracked.current` of `useReduxStateRich`: the state and the paths
      read through its trapped proxy. */
  datatype RichTracked = RichTracked(state: Snapshot, affected: set<Path>)

  /** What one run of a store callback does: how it ends, and the record
      it leaves behind. */
  datatype Step<R> = Step(outcome: Outcome, record: Option<R>)

  /** The deep comparator: given the last state, the new state, the
      affected map, the cache and the stored policy value, did anything the
      render read change? */
  type DeepComparator<!A> = (Snapshot, Snapshot, A, ComparisonCache, Value) -> bool

  /** The trapped-proxy comparator: are the last and the new state equal
      along the recorded paths? */
  type RichComparator = (Snapshot, Snapshot, set<Path>) -> bool

  /** The callback of `useReduxState`. With no record yet,
      `lastTracked.current.state` throws; otherwise a change moves the
      record's state to the new one and forces an update, and no change
      leaves everything as it was. */
  function DeepCallback<A>(last: Option<DeepTracked<A>>, next: Snapshot, isDeepChanged: DeepComparator<A>): Step<DeepTracked<A>>
  {
    match last
    case None => Step(TypeError, None)
    case Some(t) =>
      if isDeepChanged(t.state, next, t.affected, t.cache, PolicyValue(t.policy))
      then Step(Ok(true), Some(t.(state := next)))
      else Step(Ok(false), last)
  }

  /** The callback of `useReduxStateRich`, with `changed = !proxyEqual(...)`. */
  function RichCallback(last: Option<RichTracked>, next: Snapshot, proxyEqual: RichComparator): Step<RichTracked>
  {
    match last
    case None => Step(TypeError, None)
    case Some(t) =>
      if !proxyEqual(t.state, next, t.affected)
      then Step(Ok(true), Some(t.(state := next)))
      else Step(Ok(false), last)
  }

  /** An update is forced exactly when the comparator reports a change;
      then the last state becomes the new one, and otherwise the record
      is untouched. Only the state can change: the affected map, the
      cache and the policy stay those of the last commit. */
  lemma DeepCallbackIff<A>(last: Option<DeepTracked<A>>, next: Snapshot, isDeepChanged: DeepComparator<A>)
    ensures var s := DeepCallback(last, next, isDeepChanged);
      && (s.outcome == Ok(true) <==>
           last.Some? && isDeepChanged(last.value.state, next, last.value.affected, last.value.cache, PolicyValue(last.value.policy)))
      && (s.outcome == TypeError <==> last.None?)
      && (s.outcome == Ok(true) ==> s.record.Some? && s.record.value.state == next)
      && (s.outcome != Ok(true) ==> s.record == last)
      && (s.record.Some? <==> last.Some?)
      && (s.record.Some? ==>
           && s.record.value.affected == last.value.affected
           && s.record.value.cache == last.value.cache
           && s.record.value.policy == last.value.policy)
  {
  }

  /** Running the callback a second time for the same state forces no
      second update and changes nothing, provided the comparator finds no
      change between a state and itself. */
  lemma DeepCallbackSettles<A>(last: Option<DeepTracked<A>>, next: Snapshot, isDeepChanged: DeepComparator<A>)
    requires last.Some?
    requires forall a: A, c: ComparisonCache, v: Value :: !isDeepChanged(next, next, a, c, v)
    ensures var first := DeepCallback(last, next, isDeepChanged);
      var second := DeepCallback(first.record, next, isDeepChanged);
      second == Step(Ok(false), first.record)
  {
  }

  /** The record after the store announced `nexts` one after another,
      starting from committed record `t` with no render in between, and
      whether each announcement forced an update. */
  function DeepReplay<A>(t: DeepTracked<A>, nexts: seq<Snapshot>, isDeepChanged: DeepComparator<A>): (r: (DeepTracked<A>, seq<bool>))
    ensures |r.1| == |nexts|
    decreases |nexts|
  {
    if nexts == [] then (t, [])
    else
      var s := DeepCallback(Some(t), nexts[0], isDeepChanged);
      var rest := DeepReplay(s.record.value, nexts[1..], isDeepChanged);
      (rest.0, [s.outcome == Ok(true)] + rest.1)
  }

  /** Over any run of announcements the record keeps the committed
      affected map, cache and policy, and its state is the state of the
      last announcement that forced an update, or the committed state when
      none did. */
  lemma {:induction false} DeepReplayTracksLastUpdate<A>(t: DeepTracked<A>, nexts: seq<Snapshot>, isDeepChanged: DeepComparator<A>)
    ensures var (final, updates) := DeepReplay(t, nexts, isDeepChanged);
      && final.affected == t.affected && final.cache == t.cache && final.policy == t.policy
      && ((forall i :: 0 <= i < |updates| ==> !updates[i]) ==> final == t)
      && (forall i :: 0 <= i < |updates| && updates[i] && (forall j :: i < j < |updates| ==> !updates[j]) ==>
            final.state == nexts[i])
    decreases |nexts|
  {
    if nexts != [] {
      var s := DeepCallback(Some(t), nexts[0], isDeepChanged);
      DeepReplayTracksLastUpdate(s.record.value, nexts[1..], isDeepChanged);
      var (final, updates) := DeepReplay(t, nexts, isDeepChanged);
      var rest := DeepReplay(s.record.value, nexts[1..], isDeepChanged);
      assert updates == [s.outcome == Ok(true)] + rest.1;
      forall i | 0 <= i < |updates| && updates[i] && (forall j :: i < j < |updates| ==> !updates[j])
        ensures final.state == nexts[i]
      {
        if i > 0 {
          assert rest.1[i - 1] == updates[i];
          assert forall j :: i - 1 < j < |rest.1| ==> !rest.1[j] by {
            forall j | i - 1 < j < |rest.1| ensures !rest.1[j] {
              assert rest.1[j] == updates[j + 1];
            }
          }
        } else {
          assert forall j :: 0 <= j < |rest.1| ==> !rest.1[j] by {
            forall j | 0 <= j < |rest.1| ensures !rest.1[j] {
              assert rest.1[j] == updates[j + 1];
            }
          }
        }
      }
      if forall i :: 0 <= i < |updates| ==> !updates[i] {
        assert !updates[0];
        assert forall j :: 0 <= j < |rest.1| ==> !rest.1[j] by {
          forall j | 0 <= j < |rest.1| ensures !rest.1[j] {
            assert rest.1[j] == updates[j + 1];
          }
        }
      }
    }
  }

  /** The rich callback: an update exactly when `proxyEqual` says the
      states differ on the recorded paths; then the state moves on and the
      recorded paths stay. */
  lemma RichCallbackIff(last: Option<RichTracked>, next: Snapshot, proxyEqual: RichComparator)
    ensures var s := RichCallback(last, next, proxyEqual);
      && (s.outcome == Ok(true) <==> last.Some? && !proxyEqual(last.value.state, next, last.value.affected))
      && (s.outcome == TypeError <==> last.None?)
      && (s.outcome == Ok(true) ==> s.record == Some(RichTracked(next, last.value.affected)))
      && (s.outcome != Ok(true) ==> s.record == last)
  {
  }

  /** Settling of the rich callback, when `proxyEqual` holds of a state
      and itself. */
  lemma RichCallbackSettles(last: Option<RichTracked>, next: Snapshot, proxyEqual: RichComparator)
    requires last.Some?
    requires forall paths: set<Path> :: proxyEqual(next, next, paths)
    ensures var first := RichCallback(last, next, proxyEqual);
      var second := RichCallback(first.record, next, proxyEqual);
      second == Step(Ok(false), first.record)
  {
  }

  /** The refs of one `useReduxState` hook. */
  class DeepTracker<A> {
    var lastTracked: Option<DeepTracked<A>>

    /** A new hook: no record until the first commit. */
    constructor ()
      ensures lastTracked == None
    {
      lastTracked := None;
    }

    /** The layout effect after each render: the whole record is replaced
        by the rendered state, that render's affected map, a new empty
        cache and the policy chosen from the options. */
    method Commit(state: Snapshot, affected: A, opts: Options)
      modifies this
      ensures lastTracked.Some?
      ensures fresh(lastTracked.value.cache)
      ensures lastTracked.value == DeepTracked(state, affected, lastTracked.value.cache, SelectPolicy(opts))
    {
      var cache := new ComparisonCache();
      lastTracked := Some(DeepTracked(state, affected, cache, SelectPolicy(opts)));
    }

    /** The store callback: ask the comparator; on a change, the record's
        state becomes the new state and an update is forced. */
    method Notify(next: Snapshot, isDeepChanged: DeepComparator<A>) returns (outcome: Outcome)
      modifies this
      ensures outcome == DeepCallback(old(lastTracked), next, isDeepChanged).outcome
      ensures lastTracked == DeepCallback(old(lastTracked), next, isDeepChanged).record
    {
      if lastTracked.None? {
        return TypeError;
      }
      var t := lastTracked.value;
      var changed := isDeepChanged(t.state, next, t.affected, t.cache, PolicyValue(t.policy));
      if changed {
        lastTracked := Some(t.(state := next));
      }
      outcome := Ok(changed);
    }
  }

  /** The refs of one `useReduxStateRich` hook. */
  class RichTracker {
    var lastTracked: Option<RichTracked>

    /** A new hook: no record until the first commit. */
    constructor ()
      ensures lastTracked == None
    {
      lastTracked := None;
    }

    /** The layout effect: `{state, affected: trapped.affected}`, where
        `trapped` is what the trapped cache returned for this render's state. */
    method Commit(state: Snapshot, trapped: Trapped)
      modifies this
      ensures lastTracked == Some(RichTracked(state, trapped.affected))
    {
      lastTracked := Some(RichTracked(state, trapped.affected));
    }

    /** The store callback, with `changed = !proxyEqual(...)`. */
    method Notify(next: Snapshot, proxyEqual: RichComparator) returns (outcome: Outcome)
      modifies this
      ensures outcome == RichCallback(old(lastTracked), next, proxyEqual).outcome
      ensures lastTracked == RichCallback(old(lastTracked), next, proxyEqual).record
    {
      if lastTracked.None? {
        return TypeError;
      }
      var t := lastTracked.value;
      var changed := !proxyEqual(t.state, next, t.affected);
      if changed {
        lastTracked := Some(t.(state := next));
      }
      outcome := Ok(changed);
    }
  }
}
