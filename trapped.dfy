/** `useTrapped`: the per-hook cache that maps each store state, by
    identity, to the trapped object `proxyState` built for it. */
module Trapping {
  import opened Js

  /** A property path read through a trapped proxy. */
  type Path = seq<string>

  /** The object the library's trapping function returns: the proxy it hands to the
      consumer (`trapped.state`, standing here for the snapshot it wraps) and
      the paths read through that proxy since the last reset. */
  class Trapped {
    const state: Snapshot
    var affected: set<Path>

    /** What the library's trapping function builds for a state it has not
        trapped before: a trapped object with nothing read yet. */
    constructor (state: Snapshot)
      ensures this.state == state && affected == {}
    {
      this.state := state;
      affected := {};
    }

    /** A read of `path` through `trapped.state`, recorded by the proxy. */
    method Touch(path: Path)
      modifies this
      ensures affected == old(affected) + {path}
    {
      affected := affected + {path};
    }

    /** Resetting a trapped object: forget every path read so far. */
    method Reset()
      modifies this
      ensures affected == {}
    {
      affected := {};
    }
  }

  /** `cacheRef.current.trapped`: a WeakMap from state identity to its
      trapped object. (`cacheRef.current.proxy` is handed to `proxyState`
      and never read here.) */
  class TrappedCache {
    var trapped: map<ObjectId, Trapped>

    /** Every entry wraps the state it is keyed by, and no two entries
        share a trapped object. */
    ghost predicate Valid()
      reads this
    {
      && (forall id :: id in trapped ==> trapped[id].state.id == id)
      && (forall i, j :: i in trapped && j in trapped && i != j ==> trapped[i] != trapped[j])
    }

    /** The cache made on the hook's first render, with no entries. */
    constructor ()
      ensures Valid() && trapped == map[]
    {
      trapped := map[];
    }

    /** The hook's lookup for the rendered state. A state seen before gets its stored trapped
        object back, reset, and the cache keeps its entries; a new state
        gets a new trapped object, stored under its identity and nowhere
        else. No other trapped object is touched. A state object is never
        changed in place, so an identity seen before comes with the
        contents it had then. */
    method UseTrapped(state: Snapshot) returns (t: Trapped)
      requires Valid()
      requires state.id in trapped ==> trapped[state.id].state == state
      modifies this, trapped.Values
      ensures Valid()
      ensures t.affected == {} && t.state == state
      ensures state.id in old(trapped) ==> t == old(trapped[state.id]) && trapped == old(trapped)
      ensures state.id !in old(trapped) ==>
        fresh(t) && t.state == state && trapped == old(trapped)[state.id := t]
      ensures trapped.Keys == old(trapped.Keys) + {state.id}
      ensures forall u :: u in old(trapped.Values) && u != t ==> u.affected == old(u.affected)
    {
      if state.id in trapped {
        t := trapped[state.id];
        t.Reset();
      } else {
        t := new Trapped(state);
        trapped := trapped[state.id := t];
      }
    }
  }
}
