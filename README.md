# Change detection in reactive-react-redux's `useReduxState` hooks

`node_modules/reactive-react-redux/dist/useReduxState.js` defines three React
hooks. Each one gives a component the Redux store's state and re-renders the
component only when the parts of the state it read have changed:

- `useReduxStateSimple` wraps the state in a Proxy whose `get` trap records
  every top-level key read. The store callback compares those keys, with
  `!==`, between the state of the last commit and the store's new state.
- `useReduxState` hands out a deep proxy. After each render it stores a
  tracked record `{state, affected, cache, assumeChangedIfNotAffected}`. The
  store callback asks `isDeepChanged` whether the state changed.
- `useReduxStateRich` keeps one trapped object per state (`useTrapped`) and
  stores `{state, affected}`. The store callback asks `proxyEqual`.

This project models that change-detection logic with React taken away. A
render's reads, the layout-effect commit, the store callback and the
effect's cleanup are explicit method calls. The store's state is passed in
as a value.

Layout:

- `js.dfy` (`Js`): the JavaScript values the code compares, `===`
  (`StrictEquals`, where NaN is not equal to itself), truthiness, property
  reads on a state object and the `Outcome` of a store callback.
  `Outcome` is either `Ok(forceUpdate)` or `TypeError`, which the callback
  throws when it reads a property of a still-`null` ref.
- `property_keys.dfy` (`PropertyKeys`): the order of `Object.keys`. Keys
  that are array indices come first in ascending numeric order, then the
  other keys in the order they were created (section 10.1.11.1 of ECMA-262).
- `shallow.dfy` (`Shallow`): the simple hook. The class `ShallowTracker`
  holds the keys of the `used` object, in creation order, and the
  `lastState` ref. Its `Notify` is a loop, proved equal to the function
  `ShallowCallback`. The lemmas about `ShallowCallback` state what the
  callback decides.
- `policy.dfy` (`Policies`): the tri-state policy chosen from the two
  options. It is `AssumeChanged`, `Ignore` or `Default`, which the source
  writes as `true`, `false` or `null`.
- `trapped.dfy` (`Trapping`): `useTrapped`'s identity-keyed cache of
  trapped objects.
- `deep.dfy` (`Tracking`): the tracked records of `useReduxState` and
  `useReduxStateRich`. Their callbacks are the functions `DeepCallback` and
  `RichCallback`. The classes `DeepTracker` and `RichTracker` are proved
  against them. The two comparators are function parameters.

The simple hook keeps one quirk of the source. `find` returns the first
changed key itself, and the callback tests that key for truthiness.
So when the first changed key in `Object.keys` order is the empty string,
no update is forced, even if later keys changed too. The model keeps this
behaviour and states it (`ShallowForceUpdateIff`, `EmptyKeyChangeIgnored`).
Array-index keys are listed before `""`, so a change at such a key is never
masked (`IndexKeyChangeSignals`). A recorded key that holds NaN is never
`===` to itself, so, unless `""` was read, it forces an update on every
notification (`NaNKeyAlwaysSignals`). Marking `__proto__` as read runs the
accessor that `used` inherits from `Object.prototype`. That accessor ignores
the value `true`, so no key is created and `__proto__` is never compared
(`ProtoKeyNeverRecorded`).

## Model

| member | source | states |
|---|---|---|
| `Js.StrictEquals` | node_modules/reactive-react-redux/dist/useReduxState.js:85 | `!==` in the callback is the negation of JavaScript's `===`: equal values other than NaN; its laws are stated by `Js.StrictEqualsLaws` |
| `Js.Truthy` | node_modules/reactive-react-redux/dist/useReduxState.js:88 | JavaScript's truthiness, used by the `if` at line 88; what it gives for the key `find` returns is stated by `Js.TruthyStringsAndObjects` |
| `Js.Get` | node_modules/reactive-react-redux/dist/useReduxState.js:72 | a property read: an own property's value, `undefined` for a missing key; `Shallow.ShallowTracker.Read` returns it |
| `Js.StrictEqualsLaws` | node_modules/reactive-react-redux/dist/useReduxState.js:85 | `===` is symmetric, and a value is `===` to itself exactly when it is not NaN |
| `Js.TruthyStringsAndObjects` | node_modules/reactive-react-redux/dist/useReduxState.js:88 | the key `find` returns is truthy exactly when it is non-empty; any object is truthy |
| `PropertyKeys.EmptyIsNotIndex` | node_modules/reactive-react-redux/dist/useReduxState.js:84 | the empty key is not an array index, so `Object.keys` lists it after every index key |
| `PropertyKeys.OwnKeys` | node_modules/reactive-react-redux/dist/useReduxState.js:84 | `Object.keys(used.current)`: index keys sorted, then the other keys in creation order; what it lists is stated by `PropertyKeys.OwnKeysIsPermutation` and its order by `PropertyKeys.OwnKeysOrder` |
| `PropertyKeys.OwnKeysIsPermutation` | node_modules/reactive-react-redux/dist/useReduxState.js:84 | `Object.keys(used)` lists exactly the created keys, each once per creation, at the same length |
| `PropertyKeys.OwnKeysOrder` | node_modules/reactive-react-redux/dist/useReduxState.js:84 | `Object.keys` lists every index key before every other key, the index keys in ascending numeric order, and the other keys in creation order |
| `Shallow.Record` | node_modules/reactive-react-redux/dist/useReduxState.js:71 | after `used[name] = true` the keys are the old keys plus `name`, except that `__proto__` is never added; the old keys keep their order and place, at most one key is added, and there are still no duplicates |
| `Shallow.ProtoKeyNeverRecorded` | node_modules/reactive-react-redux/dist/useReduxState.js:71 | marking `__proto__` as read leaves `used` as it was, so a tracker that starts without it never records it |
| `Shallow.RecordIdempotent` | node_modules/reactive-react-redux/dist/useReduxState.js:71 | reading the same key a second time leaves `used` unchanged |
| `Shallow.KeyChanged` | node_modules/reactive-react-redux/dist/useReduxState.js:85 | the test `find` applies to each key: the last and the new value of that key are `!==` |
| `Shallow.FirstChanged` | node_modules/reactive-react-redux/dist/useReduxState.js:84-86 | `find` yields the position of a key whose old and new values are `!==`, with every earlier key unchanged; it yields nothing exactly when no key changed |
| `Shallow.ShallowCallback` | node_modules/reactive-react-redux/dist/useReduxState.js:82-90 | the simple hook's callback throws exactly when no state is committed and some key was recorded, and forces an update only when some recorded non-empty key changed; the exact condition is `Shallow.ShallowForceUpdateIff` |
| `Shallow.ShallowForceUpdateIff` | node_modules/reactive-react-redux/dist/useReduxState.js:84-90 | once a state is committed, the callback forces an update iff the first changed key in `Object.keys(used)` order exists and is not `""`, and it never throws |
| `Shallow.UnreadKeysNeverSignal` | node_modules/reactive-react-redux/dist/useReduxState.js:84-90 | when every recorded key is `===` in the old and new state, no update is forced, whatever changed elsewhere |
| `Shallow.OutcomeDependsOnlyOnUsedKeys` | node_modules/reactive-react-redux/dist/useReduxState.js:84-86 | two new states that agree on every recorded key get the same outcome, so keys never read cannot cause an update |
| `Shallow.WithoutEmptyKeyAnyChangeSignals` | node_modules/reactive-react-redux/dist/useReduxState.js:84-90 | when `""` was never read, an update is forced iff some recorded key is `!==` between the two states |
| `Shallow.IndexKeyChangeSignals` | node_modules/reactive-react-redux/dist/useReduxState.js:84-90 | a change at a recorded array-index key always forces an update |
| `Shallow.EmptyKeyChangeIgnored` | node_modules/reactive-react-redux/dist/useReduxState.js:84-90 | when `""` is the only recorded key that changed, no update is forced |
| `Shallow.NaNKeyAlwaysSignals` | node_modules/reactive-react-redux/dist/useReduxState.js:85-89 | a recorded non-empty key holding NaN forces an update on every notification, the same state included, unless `""` was read |
| `Shallow.NotifyBeforeCommit` | node_modules/reactive-react-redux/dist/useReduxState.js:77-85 | while `lastState` is still `null`, the callback throws iff some key was recorded, and it never forces an update |
| `Shallow.ShallowTracker.constructor` | node_modules/reactive-react-redux/dist/useReduxState.js:67-77 | a new hook starts with no recorded keys and a `null` last state |
| `Shallow.ShallowTracker.Read` | node_modules/reactive-react-redux/dist/useReduxState.js:70-73 | the `get` trap returns exactly `target[name]`, unwrapped, records `name` in `used` unless it is `__proto__`, keeps the tracker's invariant (no duplicate keys, no `__proto__`), and leaves `lastState` alone |
| `Shallow.ShallowTracker.Commit` | node_modules/reactive-react-redux/dist/useReduxState.js:78-80 | a commit sets `lastState` to the rendered state, keeps the recorded keys and keeps the tracker's invariant |
| `Shallow.ShallowTracker.Notify` | node_modules/reactive-react-redux/dist/useReduxState.js:82-90 | the callback's scan over `Object.keys(used)` returns what `ShallowCallback` decides and changes no tracker state |
| `Shallow.ShallowTracker.Cleanup` | node_modules/reactive-react-redux/dist/useReduxState.js:97-100 | cleanup empties `used` and keeps `lastState` |
| `Policies.SelectPolicy` | node_modules/reactive-react-redux/dist/useReduxState.js:30-32 | the policy is `AssumeChanged` iff the force option is truthy, `Ignore` iff it is not and the ignore option is truthy, and `Default` iff neither is truthy |
| `Policies.ForceFlagWins` | node_modules/reactive-react-redux/dist/useReduxState.js:17-32 | a truthy force option gives `AssumeChanged` whatever the ignore option is; no options give `Default` |
| `Policies.EveryPolicySelectable` | node_modules/reactive-react-redux/dist/useReduxState.js:30-32 | each of the three policies is chosen by some options |
| `Policies.PolicyValue` | node_modules/reactive-react-redux/dist/useReduxState.js:30-32 | the stored `assumeChangedIfNotAffected` is `true` exactly for `AssumeChanged`, `false` exactly for `Ignore` and `null` exactly for `Default`, so the comparator receives a different value for each policy |
| `Trapping.Trapped.constructor` | node_modules/reactive-react-redux/dist/useReduxState.js:124 | a new trapped object wraps the given state and has nothing recorded |
| `Trapping.Trapped.Touch` | node_modules/reactive-react-redux/dist/useReduxState.js:143-164 | a read through `trapped.state` adds its path to `trapped.affected` |
| `Trapping.Trapped.Reset` | node_modules/reactive-react-redux/dist/useReduxState.js:122 | `reset()` empties the trapped object's affected paths |
| `Trapping.TrappedCache.constructor` | node_modules/reactive-react-redux/dist/useReduxState.js:114-117 | the cache starts empty |
| `Trapping.TrappedCache.UseTrapped` | node_modules/reactive-react-redux/dist/useReduxState.js:113-129 | the trapped object returned wraps the rendered state and has nothing recorded; a cached state gets the same trapped object back, reset, and the cache is unchanged; a new state gets a fresh trapped object stored under exactly its identity with the other entries unchanged; no other trapped object is touched; each entry stays keyed by its own state's identity with no object shared between entries |
| `Tracking.DeepCallback` | node_modules/reactive-react-redux/dist/useReduxState.js:38-45 | the deep hook's callback as a function of the record and the new state; its contract is stated by `Tracking.DeepCallbackIff`, `Tracking.DeepCallbackSettles` and `Tracking.DeepReplayTracksLastUpdate` |
| `Tracking.DeepCallbackIff` | node_modules/reactive-react-redux/dist/useReduxState.js:38-45 | the deep callback forces an update iff `isDeepChanged` reports a change; then the last state becomes the new one; otherwise the record is untouched; the affected map, cache and policy never change; with no record it throws |
| `Tracking.DeepCallbackSettles` | node_modules/reactive-react-redux/dist/useReduxState.js:38-49 | if the comparator finds no change between a state and itself, a second callback for the same state, whatever the first did, forces nothing and leaves the record as the first call left it |
| `Tracking.DeepReplayTracksLastUpdate` | node_modules/reactive-react-redux/dist/useReduxState.js:38-45 | across any run of notifications the record keeps the committed affected map, cache and policy; its state is the state of the last notification that forced an update, or the committed record when none did |
| `Tracking.RichCallback` | node_modules/reactive-react-redux/dist/useReduxState.js:148-155 | the rich hook's callback as a function of the record and the new state; its contract is stated by `Tracking.RichCallbackIff` and `Tracking.RichCallbackSettles` |
| `Tracking.RichCallbackIff` | node_modules/reactive-react-redux/dist/useReduxState.js:148-155 | the rich callback forces an update iff `proxyEqual` is false; then the record becomes the new state with the same affected paths; otherwise it is untouched; with no record it throws |
| `Tracking.RichCallbackSettles` | node_modules/reactive-react-redux/dist/useReduxState.js:148-159 | if `proxyEqual` holds of a state and itself, a second callback for the same state, whatever the first did, forces nothing and leaves the record as the first call left it |
| `Tracking.DeepTracker.constructor` | node_modules/reactive-react-redux/dist/useReduxState.js:22 | the record starts `null` |
| `Tracking.DeepTracker.Commit` | node_modules/reactive-react-redux/dist/useReduxState.js:23-36 | a commit replaces the whole record with the rendered state, that render's affected map, a fresh empty cache and the policy chosen from the options |
| `Tracking.DeepTracker.Notify` | node_modules/reactive-react-redux/dist/useReduxState.js:38-45 | the callback returns and leaves behind exactly what `DeepCallback` decides |
| `Tracking.RichTracker.constructor` | node_modules/reactive-react-redux/dist/useReduxState.js:139 | the record starts `null` |
| `Tracking.RichTracker.Commit` | node_modules/reactive-react-redux/dist/useReduxState.js:140-145 | a commit replaces the record with the rendered state and the trapped object's affected paths |
| `Tracking.RichTracker.Notify` | node_modules/reactive-react-redux/dist/useReduxState.js:148-155 | the callback returns and leaves behind exactly what `RichCallback` decides |

## Left out

- React itself: `useContext`, `useRef`, `useMemo`, `useEffect`, `useIsomorphicLayoutEffect` and `useForceUpdate`, including when effects run. Commit, callback and cleanup are explicit calls; `forceUpdate()` is the `Ok(true)` outcome.
- The store: `getState`, `subscribe` and the unsubscribe function. The new state is an argument of `Notify`. So the model cannot show that no callback arrives after cleanup.
- `createDeepProxy`, `isDeepChanged` and `useForceUpdate` from `./utils`, and `proxyState` and `proxyEqual` from `proxyequal`. They are not part of this model. The comparators are function parameters. The model assumes that `proxyState` returns a new trapped object with nothing recorded (`Trapping.Trapped.constructor`). `Trapping.Trapped.Touch` stands for that library's recording of reads.
- The memo that `isDeepChanged` keeps in the cache: the cache is an object with no contents.
- Tracking.DeepTracker.Commit: `useReduxState` stores its render's `affected` WeakMap object itself, and the deep proxy keeps adding to that map after the commit (for example on reads in event handlers), so the next comparison sees those entries. The model fixes `affected` as a value at commit time, and a comparator that is a pure function cannot see the map grow.
- `useReduxStateRich` stores the `trapped.affected` array object itself. The model stores the paths recorded at commit time. It does not capture later changes to that shared array.
- JavaScript Proxy behaviour beyond the single `get` trap. Symbol-named keys, which `Object.keys` skips, are not modelled. Properties that a state inherits from `Object.prototype` are not modelled either: a read of a missing key gives `undefined`. For two plain state objects, an inherited property is the same on both sides, so the comparison does not depend on it. The one inherited accessor that changes what `used` records, `__proto__`, is modelled (`Shallow.Record`).
- An options argument that is `null`, which would make reading the options throw. Any other non-object argument reads `undefined` for both options, which `Options(Undefined, Undefined)` covers. `Options` holds the two option values, with `undefined` for a missing one.
- State objects changed in place. A `Snapshot` is an identity with fixed contents: the model treats store states as immutable, as Redux reducers are meant to. If a reducer mutated the committed state object, the source would compare that object with itself and force nothing, while the model compares the old contents with the new. `Trapping.TrappedCache.UseTrapped` accordingly requires that an identity already in the cache comes with the contents it had then.
- WeakMap garbage collection: the map of trapped objects only grows.
- Negative zero (`===` to zero) and BigInt values are not represented.
