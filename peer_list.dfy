/** The peer registry of the Sky app: a lock-guarded dictionary from actor id to
    distributed-actor handle. The lock only serialises callers; in this
    sequential model every call is one atomic step. */
module PeerRegistry {
  import opened Common

  /** An opaque distributed-actor reference. `actorType` is the Swift type of the
      actor (what a conditional cast `as? Act` tests) and `instance` tells apart
      two actors that carry the same id. */
  datatype Handle = Handle(id: string, actorType: string, instance: nat)

  /** `PeerList`: the `registry` dictionary with its accessors. */
  class PeerList {
    var registry: map<string, Handle>

    /** Every handle is registered under its own id; `add` is the only way
        in, so this always holds. */
    ghost predicate Keyed()
      reads this
    {
      forall id :: id in registry ==> registry[id].id == id
    }

    constructor ()
      ensures registry == map[] && Keyed()
    {
      registry := map[];
    }

    /** What `get` answers for `id` in the current state. */
    function Lookup(id: string): Option<Handle>
      reads this
    {
      if id in registry then Some(registry[id]) else None
    }

    /** `ids`: every registered id exactly once, in no particular order. */
    method Ids() returns (ids: seq<string>)
      ensures forall i :: 0 <= i < |ids| ==> ids[i] in registry
      ensures forall id :: id in registry ==> id in ids
      ensures forall i, j :: 0 <= i < j < |ids| ==> ids[i] != ids[j]
      ensures |ids| == |registry|
    {
      ids := [];
      var rest := registry.Keys;
      while rest != {}
        invariant rest <= registry.Keys
        invariant forall i :: 0 <= i < |ids| ==> ids[i] in registry && ids[i] !in rest
        invariant forall id :: id in registry ==> id in rest || id in ids
        invariant forall i, j :: 0 <= i < j < |ids| ==> ids[i] != ids[j]
        invariant |ids| + |rest| == |registry|
        decreases rest
      {
        var id :| id in rest;
        ids := ids + [id];
        rest := rest - {id};
      }
    }

    /** `count`: the number of distinct registered ids. */
    method Count() returns (n: nat)
      ensures n == |registry.Keys|
    {
      n := |registry|;
    }

    /** `get`: the handle registered under `id`, if any. */
    method Get(id: string) returns (h: Option<Handle>)
      ensures h.Some? <==> id in registry
      ensures h.Some? ==> h.value == registry[id]
    {
      h := if id in registry then Some(registry[id]) else None;
    }

    /** `add`: registers `actor` under its own id, replacing an earlier entry. */
    method Add(actor: Handle)
      modifies this
      ensures registry == old(registry)[actor.id := actor]
      ensures Lookup(actor.id) == Some(actor)
      ensures forall id :: id != actor.id ==> Lookup(id) == old(Lookup(id))
      ensures registry.Keys == old(registry.Keys) + {actor.id}
      ensures old(Keyed()) ==> Keyed()
    {
      registry := registry[actor.id := actor];
    }

    /** `remove`: forgets `id`; an unknown id leaves the registry as it was. */
    method Remove(id: string)
      modifies this
      ensures registry == old(registry) - {id}
      ensures Lookup(id) == None
      ensures forall other :: other != id ==> Lookup(other) == old(Lookup(other))
      ensures id !in old(registry) ==> registry == old(registry)
      ensures old(Keyed()) ==> Keyed()
    {
      registry := registry - {id};
    }
  }
}
