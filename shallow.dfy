/** `useReduxStateSimple`: the one-level variant. A Proxy over the rendered
    state records every top-level key read through it; when the store
    announces a new state, the recorded keys are compared with `!==`
    against the state of the last commit. */
module Shallow {
  import opened Js
  import opened PropertyKeys

  /** The one name whose assignment on a plain object creates no key: it
      runs the accessor inherited from `Object.prototype`, which ignores a
      value that is not an object, such as the `true` stored here. */
  const ProtoKey: string := "__proto__"

  /** The key list of the `used` object after marking `name` as read: a key
      already present keeps its place, a new key goes last, and `__proto__`
      is never added. */
  function Record(used: seq<string>, name: string): (r: seq<string>)
    ensures forall k :: k in r <==> k in used || (k == name && name != ProtoKey)
    ensures |used| <= |r| <= |used| + 1
    ensures r[..|used|] == used
    ensures NoDuplicates(used) ==> NoDuplicates(r)
  {
    if name in used || name == ProtoKey then used else used + [name]
  }

  /** Reading `__proto__` through the proxy records nothing, so that key
      can never take part in a later comparison. */
  lemma ProtoKeyNeverRecorded(used: seq<string>)
    ensures Record(used, ProtoKey) == used
    ensures ProtoKey !in used ==> forall name :: ProtoKey !in Record(used, name)
  {
  }

  /** Recording a key a second time changes nothing. */
  lemma RecordIdempotent(used: seq<string>, name: string)
    ensures Record(Record(used, name), name) == Record(used, name)
  {
  }

  /** The comparison inside the callback's `find`. */
  predicate KeyChanged(last: Snapshot, next: Snapshot, key: string)
  {
    !StrictEquals(Get(last, key), Get(next, key))
  }

  /** The callback's search for the first recorded key whose old and new
      values are `!==`, as the position of that key, or none when no key
      changed. */
  function FirstChanged(keys: seq<string>, last: Snapshot, next: Snapshot): (r: Option<nat>)
    ensures r.Some? ==> r.value < |keys| && KeyChanged(last, next, keys[r.value])
    ensures r.Some? ==> forall j :: 0 <= j < r.value ==> !KeyChanged(last, next, keys[j])
    ensures r.None? <==> forall j :: 0 <= j < |keys| ==> !KeyChanged(last, next, keys[j])
  {
    if keys == [] then None
    else if KeyChanged(last, next, keys[0]) then Some(0)
    else match FirstChanged(keys[1..], last, next)
      case None => None
      case Some(i) => Some(i + 1)
  }

  /** What the store callback does, given the last committed state (None
      while `lastState.current` is still `null`), the key list of `used`
      and the state the store now holds. `find` returns the key it found,
      and the callback forces an update when that key is truthy. */
  function ShallowCallback(lastState: Option<Snapshot>, used: seq<string>, next: Snapshot): (r: Outcome)
    ensures r == TypeError <==> lastState.None? && used != []
    ensures r == Ok(true) ==>
      lastState.Some? && exists k :: k in used && k != "" && KeyChanged(lastState.value, next, k)
  {
    OwnKeysIsPermutation(used);
    var keys := OwnKeys(used);
    if keys == [] then Ok(false)
    else if lastState.None? then TypeError
    else match FirstChanged(keys, lastState.value, next)
      case None => Ok(false)
      case Some(i) => Ok(Truthy(Str(keys[i])))
  }

  /** The first changed key in `Object.keys` order sits at position `i`. */
  predicate FirstChangedAt(keys: seq<string>, last: Snapshot, next: Snapshot, i: int)
  {
    && 0 <= i < |keys|
    && KeyChanged(last, next, keys[i])
    && forall j :: 0 <= j < i ==> !KeyChanged(last, next, keys[j])
  }

  /** The callback forces an update exactly when some key was changed and
      the first changed key, in `Object.keys` order, is not the empty
      string (the quirk of testing `find`'s result for truthiness). */
  lemma ShallowForceUpdateIff(last: Snapshot, used: seq<string>, next: Snapshot)
    ensures ShallowCallback(Some(last), used, next) == Ok(true) <==>
      exists i :: FirstChangedAt(OwnKeys(used), last, next, i) && OwnKeys(used)[i] != ""
    ensures ShallowCallback(Some(last), used, next) != TypeError
  {
  }

  /** Precision: when every recorded key is `===` in both states, no
      update is forced, however the states differ elsewhere. */
  lemma UnreadKeysNeverSignal(last: Snapshot, used: seq<string>, next: Snapshot)
    requires forall k :: k in used ==> StrictEquals(Get(last, k), Get(next, k))
    ensures ShallowCallback(Some(last), used, next) == Ok(false)
  {
  }

  /** Only the recorded keys of the new state matter: two new states that
      agree on them get the same answer. */
  lemma OutcomeDependsOnlyOnUsedKeys(last: Option<Snapshot>, used: seq<string>, next1: Snapshot, next2: Snapshot)
    requires forall k :: k in used ==> Get(next1, k) == Get(next2, k)
    ensures ShallowCallback(last, used, next1) == ShallowCallback(last, used, next2)
  {
    var keys := OwnKeys(used);
    OwnKeysIsPermutation(used);
    if keys != [] && last.Some? {
      ShallowForceUpdateIff(last.value, used, next1);
      ShallowForceUpdateIff(last.value, used, next2);
      forall i | 0 <= i < |keys|
        ensures KeyChanged(last.value, next1, keys[i]) == KeyChanged(last.value, next2, keys[i])
      {
        assert keys[i] in used;
      }
      forall i ensures FirstChangedAt(keys, last.value, next1, i) == FirstChangedAt(keys, last.value, next2, i) {
        if 0 <= i < |keys| {
          assert forall j :: 0 <= j < i ==> KeyChanged(last.value, next1, keys[j]) == KeyChanged(last.value, next2, keys[j]);
        }
      }
    }
  }

  /** When the empty string was never read, the callback forces an update
      exactly when some recorded key is not `===` in the two states. */
  lemma WithoutEmptyKeyAnyChangeSignals(last: Snapshot, used: seq<string>, next: Snapshot)
    requires "" !in used
    ensures ShallowCallback(Some(last), used, next) == Ok(true) <==>
      exists k :: k in used && KeyChanged(last, next, k)
  {
    var keys := OwnKeys(used);
    OwnKeysIsPermutation(used);
    ShallowForceUpdateIff(last, used, next);
    var r := FirstChanged(keys, last, next);
    if k :| k in used && KeyChanged(last, next, k) {
      var p :| 0 <= p < |keys| && keys[p] == k;
      assert r.Some?;
      assert keys[r.value] in used;
      assert FirstChangedAt(keys, last, next, r.value);
    }
  }

  /** In a key list with the index keys first, a change at an index key
      means the first change is at an index key too, at or before it. */
  lemma FirstChangeBeforeIndexKey(keys: seq<string>, last: Snapshot, next: Snapshot, p: int)
    requires IndicesFirst(keys) && 0 <= p < |keys|
    requires IsArrayIndex(keys[p]) && KeyChanged(last, next, keys[p])
    ensures FirstChanged(keys, last, next).Some?
    ensures FirstChanged(keys, last, next).value <= p
    ensures IsArrayIndex(keys[FirstChanged(keys, last, next).value])
  {
    var r := FirstChanged(keys, last, next);
    assert r.Some?;
    assert r.value <= p;
  }

  /** Where a recorded key sits in the `Object.keys` list of `used`. */
  lemma PositionOfKey(used: seq<string>, k: string) returns (p: int)
    requires k in used
    ensures 0 <= p < |OwnKeys(used)| && OwnKeys(used)[p] == k
  {
    OwnKeysIsPermutation(used);
    p :| 0 <= p < |OwnKeys(used)| && OwnKeys(used)[p] == k;
  }

  /** A change at a recorded index key makes the callback's first change
      one at an index key. */
  lemma FirstChangeAtIndexKey(last: Snapshot, used: seq<string>, next: Snapshot, k: string) returns (i: int)
    requires k in used && IsArrayIndex(k) && KeyChanged(last, next, k)
    ensures FirstChanged(OwnKeys(used), last, next) == Some(i)
    ensures 0 <= i < |OwnKeys(used)| && IsArrayIndex(OwnKeys(used)[i])
  {
    var p := PositionOfKey(used, k);
    OwnKeysOrder(used);
    FirstChangeBeforeIndexKey(OwnKeys(used), last, next, p);
    i := FirstChanged(OwnKeys(used), last, next).value;
  }

  /** A change at an array-index key always forces an update: index keys
      are listed before the empty string, so it cannot mask them. */
  lemma IndexKeyChangeSignals(last: Snapshot, used: seq<string>, next: Snapshot, k: string)
    requires k in used && IsArrayIndex(k) && KeyChanged(last, next, k)
    ensures ShallowCallback(Some(last), used, next) == Ok(true)
  {
    var i := FirstChangeAtIndexKey(last, used, next, k);
    EmptyIsNotIndex();
    assert OwnKeys(used)[i] != "";
  }

  /** The quirk: when the empty string is the only recorded key that
      changed, no update is forced. */
  lemma EmptyKeyChangeIgnored(last: Snapshot, used: seq<string>, next: Snapshot)
    requires "" in used && KeyChanged(last, next, "")
    requires forall k :: k in used && k != "" ==> !KeyChanged(last, next, k)
    ensures ShallowCallback(Some(last), used, next) == Ok(false)
  {
  }

  /** A recorded key holding NaN is never `===` to itself, so unless the
      empty string was recorded, every notification forces an update, even
      one for the very state last committed. */
  lemma NaNKeyAlwaysSignals(last: Snapshot, used: seq<string>, next: Snapshot, k: string)
    requires k in used && Get(last, k) == NaN && "" !in used
    ensures ShallowCallback(Some(last), used, next) == Ok(true)
  {
    WithoutEmptyKeyAnyChangeSignals(last, used, next);
  }

  /** Before the first commit `lastState.current` is `null`: the callback
      throws as soon as it has a recorded key to look up. */
  lemma NotifyBeforeCommit(used: seq<string>, next: Snapshot)
    ensures ShallowCallback(None, used, next) == TypeError <==> used != []
    ensures ShallowCallback(None, used, next) != Ok(true)
  {
  }

  /** The per-hook state: the `used` object (its keys, in creation order)
      and the `lastState` ref. */
  class ShallowTracker {
    var used: seq<string>
    var lastState: Option<Snapshot>

    ghost predicate Valid()
      reads this
    {
      NoDuplicates(used) && ProtoKey !in used
    }

    /** A new hook: an empty `used` object and a `null` last state. */
    constructor ()
      ensures Valid() && used == [] && lastState == None
    {
      used := [];
      lastState := None;
    }

    /** The Proxy's `get` trap: mark `name` as read, then hand back the
        target's own value for it, unwrapped. */
    method Read(target: Snapshot, name: string) returns (v: Value)
      requires Valid()
      modifies this
      ensures Valid()
      ensures v == Get(target, name)
      ensures used == Record(old(used), name)
      ensures lastState == old(lastState)
    {
      if name !in used && name != ProtoKey {
        used := used + [name];
      }
      v := Get(target, name);
    }

    /** The layout effect after each render: the rendered state becomes the
        last state. The recorded keys are kept from render to render. */
    method Commit(state: Snapshot)
      requires Valid()
      modifies this
      ensures Valid()
      ensures lastState == Some(state)
      ensures used == old(used)
    {
      lastState := Some(state);
    }

    /** The store callback, run once when subscribing and then on every
        store notification. It changes nothing, so calling it again with
        the same state gives the same answer. */
    method Notify(next: Snapshot) returns (outcome: Outcome)
      ensures outcome == ShallowCallback(lastState, used, next)
    {
      var keys := OwnKeys(used);
      var i := 0;
      while i < |keys|
        invariant 0 <= i <= |keys|
        invariant forall j :: 0 <= j < i ==> lastState.Some? && !KeyChanged(lastState.value, next, keys[j])
      {
        if lastState.None? {
          return TypeError;
        }
        var key := keys[i];
        if !StrictEquals(Get(lastState.value, key), Get(next, key)) {
          return Ok(key != "");
        }
        i := i + 1;
      }
      if keys != [] {
        var first := keys[0];
        assert lastState.Some?;
      }
      outcome := Ok(false);
    }

    /** The effect's cleanup: unsubscribing (not modelled) and replacing
        `used` by a new empty object. */
    method Cleanup()
      modifies this
      ensures Valid()
      ensures used == [] && lastState == old(lastState)
    {
      used := [];
    }
  }
}
