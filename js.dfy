/** The slice of JavaScript's value model that the hooks in
    useReduxState.js observe: the values a store snapshot can hold at a
    top-level key, strict equality (`===`), truthiness, and property reads
    on a snapshot object. */
module Js {

  datatype Option<T> = None | Some(value: T)

  /** Identity of a JavaScript object (what `===` and a WeakMap compare). */
  type ObjectId = nat

  /** A JavaScript value. Numbers are reals; `NaN` is kept apart because it
      is the one value that is not `===` to itself. Negative zero is not
      represented: it is `===` to zero, which is all this code asks of it. */
  datatype Value =
    | Undefined
    | Null
    | Bool(b: bool)
    | Num(n: real)
    | NaN
    | Str(s: string)
    | Obj(id: ObjectId)

  /** JavaScript's `a === b`. */
  predicate StrictEquals(a: Value, b: Value)
  {
    a != NaN && a == b
  }

  /** `===` is symmetric, and reflexive on every value except NaN. */
  lemma StrictEqualsLaws(a: Value, b: Value)
    ensures StrictEquals(a, b) == StrictEquals(b, a)
    ensures StrictEquals(a, a) <==> a != NaN
  {
  }

  /** JavaScript's ToBoolean: what `if (v)` and `c ? x : y` test. */
  predicate Truthy(v: Value)
  {
    match v
    case Undefined => false
    case Null => false
    case Bool(b) => b
    case Num(n) => n != 0.0
    case NaN => false
    case Str(s) => s != ""
    case Obj(_) => true
  }

  /** A string is truthy exactly when it is not empty; an object always is. */
  lemma TruthyStringsAndObjects(s: string, id: ObjectId)
    ensures Truthy(Str(s)) <==> |s| > 0
    ensures Truthy(Obj(id))
  {
  }

  /** A store state: an immutable object with an identity and its own
      string-keyed properties. */
  datatype Snapshot = Snapshot(id: ObjectId, props: map<string, Value>)

  /** `target[name]` on a plain state object: the own property, or
      `undefined` when there is none. */
  function Get(target: Snapshot, name: string): Value
  {
    if name in target.props then target.props[name] else Undefined
  }

  /** What the store's callback, as wired by these hooks, ended with: it
      returned, having called `forceUpdate()` or not, or it threw a
      TypeError by reading a property of `null`. */
  datatype Outcome = Ok(forceUpdate: bool) | TypeError
}
