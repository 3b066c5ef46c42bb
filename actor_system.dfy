/** The final version of `BonjourActorSystem`: it delegates its registry to a
    `PeerList`, owns the local `ScanActor`, and chooses the peer that gets the
    next scan task (`firstAvailableSystem`). */
module DistributedActorSystem {
  import opened Common
  import opened PeerRegistry
  import opened Invocation
  import opened ScanActors
  import RemoteCalls

  /** The load ceiling: a peer is eligible while its count is below it. */
  const Ceiling: int := 4

  /** `assignID`: every actor, whatever its type, gets the transport's local
      display name as its id. */
  function AssignID(displayName: string, actorType: string): (id: string)
    ensures id == displayName
  {
    displayName
  }

  /** What one remote peer answers during one selection pass: its count, or
      nil when the remote read failed, and whether the remote `commit` call
      succeeded. */
  datatype PeerProbe = PeerProbe(count: Option<int>, commitOk: bool)

  class BonjourActorSystem {
    const localName: string
    const displayName: string
    const peers: PeerList
    const localSystem: ScanActor

    /** `init(localName:)`: creates the local ScanActor (named `localName`, with
        the id `assignID` gives it) and registers it in `peers`. */
    constructor (localName: string, displayName: string, instance: nat)
      ensures this.localName == localName && this.displayName == displayName
      ensures fresh(peers) && fresh(localSystem)
      ensures localSystem.name == localName && localSystem.id == displayName
      ensures localSystem.countValue == 0
      ensures peers.registry == map[displayName := localSystem.AsHandle()] && peers.Keyed()
    {
      this.localName := localName;
      this.displayName := displayName;
      peers := new PeerList();
      localSystem := new ScanActor(localName, AssignID(displayName, ScanActorType), instance);
      new;
      peers.Add(localSystem.AsHandle());
    }

    /** `resolve`: `peers.get(id) as? Act`. */
    method Resolve(id: string, actorType: string) returns (h: Option<Handle>)
      ensures h.Some? <==> id in peers.registry && peers.registry[id].actorType == actorType
      ensures h.Some? ==> h.value == peers.registry[id]
    {
      var entry := peers.Get(id);
      h := if entry.Some? && entry.value.actorType == actorType then entry else None;
    }

    /** `actorReady`: `peers.add(actor)`. */
    method ActorReady(actor: Handle)
      modifies peers
      ensures peers.registry == old(peers.registry)[actor.id := actor]
      ensures old(peers.Keyed()) ==> peers.Keyed()
    {
      peers.Add(actor);
    }

    /** `resignID`: `peers.remove(id)`. */
    method ResignID(id: string)
      modifies peers
      ensures peers.registry == old(peers.registry) - {id}
      ensures old(peers.Keyed()) ==> peers.Keyed()
    {
      peers.Remove(id);
    }

    /** `didReceiveInvocation`: the recipient is `peers.get(localName)`. */
    method DidReceiveInvocation(
      invocation: InvocationMessage, execution: Result<()>, slot: Option<Result<Option<Blob>>>)
      returns (d: RemoteCalls.Dispatch)
      ensures d == RemoteCalls.ReceiveInvocation(peers.registry, localName, invocation, execution, slot)
      ensures d.Dropped? <==> localName !in peers.registry
      ensures d.Replied? ==> d.response.id == invocation.id
    {
      d := RemoteCalls.ReceiveInvocation(peers.registry, localName, invocation, execution, slot);
    }

    /** Whether the entry for `id` is the local ScanActor. */
    predicate IsLocal(id: string)
      reads this, peers
      requires id in peers.registry
    {
      peers.registry[id] == localSystem.AsHandle()
    }

    /** Whether a pass picks `id`: the local actor is read and committed directly
        and cannot fail; a remote peer needs a readable count below the ceiling
        and a successful `commit`. */
    predicate Eligible(id: string, probes: map<string, PeerProbe>)
      reads this, peers, localSystem
      requires id in peers.registry
    {
      if IsLocal(id) then localSystem.countValue < Ceiling
      else id in probes && probes[id].count.Some? && probes[id].count.value < Ceiling
           && probes[id].commitOk
    }

    /** One pass of the `for nextID in peers.ids` loop: the first id in scan
        order that is eligible, skipping the others. */
    method ScanPass(ids: seq<string>, probes: map<string, PeerProbe>) returns (pick: Option<nat>)
      requires forall i :: 0 <= i < |ids| ==> ids[i] in peers.registry
      ensures pick.Some? ==> pick.value < |ids| && Eligible(ids[pick.value], probes)
      ensures pick.Some? ==> forall j :: 0 <= j < pick.value ==> !Eligible(ids[j], probes)
      ensures pick.None? ==> forall j :: 0 <= j < |ids| ==> !Eligible(ids[j], probes)
    {
      pick := None;
      var i := 0;
      while i < |ids|
        invariant 0 <= i <= |ids|
        invariant forall j :: 0 <= j < i ==> !Eligible(ids[j], probes)
      {
        var id := ids[i];
        if IsLocal(id) {
          var count := localSystem.Count();
          if count < Ceiling {
            return Some(i);
          }
        } else if id in probes && probes[id].count.Some? && probes[id].count.value < Ceiling {
          if probes[id].commitOk {
            return Some(i);
          }
        }
        i := i + 1;
      }
    }

    /** `firstAvailableSystem`: pass after pass over `peers.ids` (with a 0.1 s
        sleep between passes), returns the first eligible peer and commits it.
        The Swift loop has no other exit; here each element of `passes` is what
        the remote peers answer in one pass, and running out of passes means
        the call is still waiting (None). The guard on `ScanActor.resolve`
        never skips a peer: this system's `resolve` does not throw, and when
        it finds no ScanActor the runtime makes a remote proxy for the id.
        A pick is made in pass `pass`, the first with an eligible peer, at
        position `at` of the ids `scanned` in that pass, the first eligible
        one in scan order. */
    method FirstAvailableSystem(passes: seq<map<string, PeerProbe>>)
      returns (chosen: Option<SystemRef>, ghost pass: nat, ghost scanned: seq<string>, ghost at: nat)
      modifies localSystem
      ensures chosen.Some? ==>
                pass < |passes| && at < |scanned|
                && (forall i :: 0 <= i < |scanned| ==> scanned[i] in peers.registry)
                && (forall id :: id in peers.registry ==> id in scanned)
      ensures chosen.Some? ==>
                forall q, id :: 0 <= q < pass && id in peers.registry ==> !old(Eligible(id, passes[q]))
      ensures chosen.Some? ==>
                old(Eligible(scanned[at], passes[pass]))
                && forall j :: 0 <= j < at ==> !old(Eligible(scanned[j], passes[pass]))
      ensures chosen.Some? ==>
                (chosen.value == LocalSystem <==> IsLocal(scanned[at]))
                && (chosen.value.RemoteSystem? ==> chosen.value.id == scanned[at])
      ensures chosen == Some(LocalSystem) ==>
                old(localSystem.countValue) < Ceiling
                && localSystem.countValue == old(localSystem.countValue) + 1
      ensures chosen != Some(LocalSystem) ==> localSystem.countValue == old(localSystem.countValue)
      ensures chosen.None? ==> forall p, id :: 0 <= p < |passes| && id in peers.registry ==> !Eligible(id, passes[p])
    {
      pass, scanned, at := 0, [], 0;
      for p := 0 to |passes|
        invariant localSystem.countValue == old(localSystem.countValue)
        invariant forall q, id :: 0 <= q < p && id in peers.registry ==> !Eligible(id, passes[q])
      {
        var ids := peers.Ids();
        var pick := ScanPass(ids, passes[p]);
        if pick.Some? {
          pass, scanned, at := p, ids, pick.value;
          var id := ids[pick.value];
          if IsLocal(id) {
            localSystem.Commit();
            return Some(LocalSystem), pass, scanned, at;
          }
          return Some(RemoteSystem(id)), pass, scanned, at;
        }
        forall id | id in peers.registry
          ensures !Eligible(id, passes[p])
        {
          var j :| 0 <= j < |ids| && ids[j] == id;
        }
      }
      chosen := None;
    }
  }
}
