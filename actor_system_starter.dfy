/** The starter version of `BonjourActorSystem`: the registry is its own
    `actors` dictionary, reached only through `withActors`, whose `didSet`
    observer republishes `actorCount` and `connectedActors`. */
module StarterActorSystem {
  import opened Common
  import opened PeerRegistry
  import opened Invocation
  import RemoteCalls

  class BonjourActorSystem {
    const localName: string
    var actors: map<string, Handle>
    /** The published values; the Swift code hops to the main actor to set
        them, here they are set in the same step. The `connectedActors` array
        has no defined order, so it is modelled by its contents. */
    var actorCount: int
    var connectedActors: set<string>

    /** What the `didSet` observer publishes for the current `actors`. */
    ghost predicate Published()
      reads this
    {
      actorCount == |actors| && connectedActors == actors.Keys - {localName}
    }

    constructor (localName: string)
      ensures this.localName == localName
      ensures actors == map[] && actorCount == 0 && connectedActors == {}
      ensures Published()
    {
      this.localName := localName;
      actors := map[];
      actorCount := 0;
      connectedActors := {};
    }

    /** The write-back at the end of `withActors` (the closure takes `actors`
        inout), followed by the `didSet` observer. */
    method WithActorsWriteBack(updated: map<string, Handle>)
      modifies this
      ensures actors == updated && Published()
    {
      actors := updated;
      actorCount := |actors|;
      connectedActors := actors.Keys - {localName};
    }

    /** `resolve`: the entry for `id` if it has the requested actor type. It
        changes no entry, but the inout access still triggers `didSet`. */
    method Resolve(id: string, actorType: string) returns (h: Option<Handle>)
      modifies this
      ensures actors == old(actors) && Published()
      ensures h.Some? <==> id in actors && actors[id].actorType == actorType
      ensures h.Some? ==> h.value == actors[id]
    {
      h := if id in actors && actors[id].actorType == actorType then Some(actors[id]) else None;
      WithActorsWriteBack(actors);
    }

    /** `resignID`: removes the entry; an unknown id is a no-op. */
    method ResignID(id: string)
      modifies this
      ensures actors == old(actors) - {id} && Published()
      ensures id !in old(actors) ==> actors == old(actors)
    {
      WithActorsWriteBack(actors - {id});
    }

    /** `actorReady`: stores the actor under its id, replacing any earlier one. */
    method ActorReady(actor: Handle)
      modifies this
      ensures actors == old(actors)[actor.id := actor] && Published()
      ensures actor.id in actors && actors[actor.id] == actor
    {
      WithActorsWriteBack(actors[actor.id := actor]);
    }

    /** `didReceiveInvocation`: looks up the local recipient through
        `withActors`, then dispatches as `RemoteCalls.ReceiveInvocation` says. */
    method DidReceiveInvocation(
      invocation: InvocationMessage, execution: Result<()>, slot: Option<Result<Option<Blob>>>)
      returns (d: RemoteCalls.Dispatch)
      modifies this
      ensures actors == old(actors) && Published()
      ensures d == RemoteCalls.ReceiveInvocation(actors, localName, invocation, execution, slot)
      ensures d.Dropped? <==> localName !in actors
    {
      WithActorsWriteBack(actors);
      d := RemoteCalls.ReceiveInvocation(actors, localName, invocation, execution, slot);
    }
  }
}
