/** The final `ScanModel` of the distributed chapter: every task number is
    dispatched up front to the system `firstAvailableSystem` picks, and every
    failed scan is queued again on the local system, with no retry cap and
    no `commit`. */
module DistributedScanModel {
  import opened Common
  import opened Scheduling
  import opened PeerRegistry
  import opened ScanActors
  import opened DistributedActorSystem
  import opened RetryGroup

  /** What drives a run of the task group, one step at a time: during the
      dispatch loop a `Pick` is the answers of the peers to the selection
      passes of one `firstAvailableSystem` call, and a `Finish` lets one
      worker in flight (chosen by `slot` modulo their number) complete with
      the outcome `ok`. After the dispatch loop only `Finish` steps matter;
      a `Pick` there has nothing to pick and is skipped. */
  datatype Step = Pick(passes: seq<map<string, PeerProbe>>) | Finish(slot: nat, ok: bool)

  /** What `ScanActor.resolve(id: name, using: actorSystem)` yields for a
      peer that announced itself: the ScanActor registered under `name`, or
      else a remote proxy for that id (`proxy` tells it apart from other
      actors). The final actor system's `resolve` does not throw. */
  function Connected(registry: map<string, Handle>, name: string, proxy: nat): (h: Handle)
    ensures (forall id :: id in registry ==> registry[id].id == id) ==> h.id == name
    ensures h.actorType == ScanActorType
    ensures name in registry && registry[name].actorType == ScanActorType ==> h == registry[name]
  {
    if name in registry && registry[name].actorType == ScanActorType then registry[name]
    else Handle(name, ScanActorType, proxy)
  }

  /** `ScanModel`. The `Double` rate and the `started` date are not modelled. */
  class ScanModel {
    var counted: int
    var isConnected: bool
    var isCollaborating: bool
    var scheduled: int
    var completed: int
    var total: int
    /** Whether the `.disconnected` listener is still running. */
    var listeningForDisconnects: bool
    const actorSystem: BonjourActorSystem

    /** `init(total:localName:)`: creates the actor system (which registers
        its local ScanActor) and starts the notification listeners. */
    constructor (total: int, localName: string, displayName: string, instance: nat)
      ensures this.total == total && fresh(actorSystem) && fresh(actorSystem.peers)
      ensures fresh(actorSystem.localSystem)
      ensures actorSystem.localName == localName && actorSystem.displayName == displayName
      ensures actorSystem.peers.registry == map[displayName := actorSystem.localSystem.AsHandle()]
      ensures actorSystem.peers.Keyed()
      ensures actorSystem.localSystem.countValue == 0
      ensures counted == 0 && scheduled == 0 && completed == 0
      ensures !isConnected && !isCollaborating && listeningForDisconnects
    {
      this.total := total;
      actorSystem := new BonjourActorSystem(localName, displayName, instance);
      counted, scheduled, completed := 0, 0, 0;
      isConnected, isCollaborating := false, false;
      listeningForDisconnects := true;
    }

    /** The setter of `scheduled` with its `didSet`: the model collaborates
        while work is scheduled and another peer is registered. */
    method SetScheduled(value: int)
      modifies this
      ensures scheduled == value
      ensures isCollaborating == (value > 0 && |actorSystem.peers.registry| > 1)
      ensures counted == old(counted) && completed == old(completed) && total == old(total)
      ensures isConnected == old(isConnected)
      ensures listeningForDisconnects == old(listeningForDisconnects)
    {
      scheduled := value;
      isCollaborating := value > 0 && |actorSystem.peers.registry| > 1;
    }

    /** One `.connected` notification. A notification whose object is not a
        name is skipped (`continue`); otherwise the name resolves to the
        ScanActor registered under it or to a new remote proxy, which is
        added to `peers`. */
    method OnConnected(note: Option<string>, proxy: nat)
      requires actorSystem.peers.Keyed()
      modifies this, actorSystem.peers
      ensures actorSystem.peers.Keyed()
      ensures note.None? ==> actorSystem.peers.registry == old(actorSystem.peers.registry)
                             && isConnected == old(isConnected)
      ensures note.Some? ==>
                actorSystem.peers.registry
                == old(actorSystem.peers.registry)[note.value := Connected(old(actorSystem.peers.registry), note.value, proxy)]
                && isConnected == (|actorSystem.peers.registry| > 1)
      ensures scheduled == old(scheduled) && completed == old(completed) && counted == old(counted)
      ensures isCollaborating == old(isCollaborating) && total == old(total)
      ensures listeningForDisconnects == old(listeningForDisconnects)
    {
      if note.None? {
        return;
      }
      var name := note.value;
      var resolved := actorSystem.Resolve(name, ScanActorType);
      var remoteActor := if resolved.Some? then resolved.value else Handle(name, ScanActorType, proxy);
      assert remoteActor == Connected(actorSystem.peers.registry, name, proxy);
      actorSystem.peers.Add(remoteActor);
      var n := actorSystem.peers.Count();
      isConnected := n > 1;
    }

    /** One `.disconnected` notification while the listener runs. A
        notification whose object is not a name ends the listener (`return`),
        after which no further notification is handled. */
    method OnDisconnected(note: Option<string>)
      modifies this, actorSystem.peers
      ensures old(actorSystem.peers.Keyed()) ==> actorSystem.peers.Keyed()
      ensures listeningForDisconnects == (old(listeningForDisconnects) && note.Some?)
      ensures old(listeningForDisconnects) && note.Some? ==>
                actorSystem.peers.registry == old(actorSystem.peers.registry) - {note.value}
                && isConnected == (|actorSystem.peers.registry| > 1)
      ensures !(old(listeningForDisconnects) && note.Some?) ==>
                actorSystem.peers.registry == old(actorSystem.peers.registry)
                && isConnected == old(isConnected)
      ensures scheduled == old(scheduled) && completed == old(completed) && counted == old(counted)
      ensures isCollaborating == old(isCollaborating) && total == old(total)
    {
      if !listeningForDisconnects {
        return;
      }
      if note.None? {
        listeningForDisconnects := false;
        return;
      }
      actorSystem.peers.Remove(note.value);
      var n := actorSystem.peers.Count();
      isConnected := n > 1;
    }

    /** One `.localTaskUpdate` notification: while nothing is scheduled here,
        the model collaborates exactly when the local ScanActor is busy. */
    method OnLocalTaskUpdate()
      modifies this
      ensures scheduled == 0 ==> isCollaborating == (actorSystem.localSystem.countValue > 0)
      ensures scheduled != 0 ==> isCollaborating == old(isCollaborating)
      ensures scheduled == old(scheduled) && completed == old(completed) && counted == old(counted)
      ensures isConnected == old(isConnected) && total == old(total)
      ensures listeningForDisconnects == old(listeningForDisconnects)
    {
      var runningTasksCount := actorSystem.localSystem.Count();
      if scheduled == 0 {
        isCollaborating := runningTasksCount > 0;
      }
    }

    /** `onScheduled`. */
    method OnScheduled()
      modifies this
      ensures scheduled == old(scheduled) + 1
      ensures isCollaborating == (scheduled > 0 && |actorSystem.peers.registry| > 1)
      ensures counted == old(counted) && completed == old(completed) && total == old(total)
    {
      SetScheduled(scheduled + 1);
    }

    /** `onTaskCompleted`. */
    method OnTaskCompleted()
      modifies this
      ensures completed == old(completed) + 1 && counted == old(counted) + 1
      ensures scheduled == old(scheduled) - 1
      ensures isCollaborating == (scheduled > 0 && |actorSystem.peers.registry| > 1)
      ensures total == old(total)
    {
      completed := completed + 1;
      counted := counted + 1;
      SetScheduled(scheduled - 1);
    }

    /** The counters after the group has reached `g`: `scheduled` counts the
        workers in flight, `completed` and `counted` every finished worker,
        whatever its outcome, and the local count is what `LocalLoad`
        predicts; the registry does not change during a run. */
    ghost predicate Tracked(g: Group, s0: int, c0: int, k0: int, l0: int, r0: map<string, Handle>)
      reads this, actorSystem.peers, actorSystem.localSystem
    {
      && scheduled == s0 + |g.numbers|
      && completed == c0 + |g.succeeded| + |g.failed|
      && counted == k0 + |g.succeeded| + |g.failed|
      && actorSystem.localSystem.countValue == LocalLoad(g, l0)
      && actorSystem.peers.registry == r0
    }

    /** One `Pick` in the dispatch loop: `firstAvailableSystem` either picks
        a system, and the worker for `g.next` starts on it (`onScheduled`),
        or it is still waiting. */
    method Dispatch(g: Group, passes: seq<map<string, PeerProbe>>) returns (g': Group)
      requires GroupShape(g, total) && g.next < total
      modifies this, actorSystem.localSystem
      ensures GroupShape(g', total)
      ensures g' == g || exists s :: g' == Started(g, s)
      ensures forall s0, c0, k0, l0, r0 ::
                old(Tracked(g, s0, c0, k0, l0, r0)) ==> Tracked(g', s0, c0, k0, l0, r0)
      ensures total == old(total)
    {
      var chosen;
      ghost var pass, scanned, at;
      chosen, pass, scanned, at := actorSystem.FirstAvailableSystem(passes);
      g' := g;
      if chosen.Some? {
        StartedShape(g, chosen.value, total);
        forall l0 ensures LocalLoad(Started(g, chosen.value), l0)
                          == LocalLoad(g, l0) + (if chosen.value == LocalSystem then 1 else 0) {
          StartedLoad(g, chosen.value, l0);
        }
        OnScheduled();
        g' := Started(g, chosen.value);
      }
    }

    /** `worker`, from the scan on: the worker at position `k` runs its task
        on its system (the local ScanActor's `run` lowers its count; a remote
        peer's count is not held here), then calls `onTaskCompleted`
        whatever the outcome. */
    method Work(g: Group, k: nat, ok: bool) returns (g': Group)
      requires GroupShape(g, total) && k < |g.numbers|
      modifies this, actorSystem.localSystem
      ensures GroupShape(g', total) && g' == RanAt(g, k, ok)
      ensures forall s0, c0, k0, l0, r0 ::
                old(Tracked(g, s0, c0, k0, l0, r0)) ==> Tracked(g', s0, c0, k0, l0, r0)
      ensures total == old(total)
    {
      if g.systems[k] == LocalSystem {
        var outcome: Result<seq<bv8>> := if ok then Ok([]) else Err(TaskFailure);
        var r := actorSystem.localSystem.Run(ScanTask(g.numbers[k]), outcome);
      }
      OnTaskCompleted();
      RanAtShape(g, k, ok, total);
      forall l0 ensures LocalLoad(RanAt(g, k, ok), l0)
                        == LocalLoad(g, l0) - (if g.systems[k] == LocalSystem then 1 else 0) {
        RanAtLoad(g, k, ok, l0);
      }
      g' := RanAt(g, k, ok);
    }

    /** The result loop meets a failure: a worker for the same input joins
        the group on `localSystem`, without a `commit`, and calls
        `onScheduled`. */
    method Retry(g: Group) returns (g': Group)
      requires GroupShape(g, total) && |g.retries| > 0
      modifies this
      ensures GroupShape(g', total) && g' == Requeued(g)
      ensures forall s0, c0, k0, l0, r0 ::
                old(Tracked(g, s0, c0, k0, l0, r0)) ==> Tracked(g', s0, c0, k0, l0, r0)
      ensures total == old(total)
    {
      RequeuedShape(g, total);
      forall l0 ensures LocalLoad(Requeued(g), l0) == LocalLoad(g, l0) {
        RequeuedLoad(g, l0);
      }
      OnScheduled();
      g' := Requeued(g);
    }

    /** The `for number in 0 ..< total` loop: a `Pick` dispatches the next
        number once `firstAvailableSystem` has a system for it, and a
        `Finish` lets a worker already in the group complete. It stops when
        every number is dispatched or the steps run out. */
    method DispatchLoop(steps: seq<Step>, ghost s0: int, ghost c0: int, ghost k0: int,
                        ghost l0: int, ghost r0: map<string, Handle>)
      returns (i: nat, g: Group)
      requires total >= 0 && Tracked(EmptyGroup(), s0, c0, k0, l0, r0)
      modifies this, actorSystem.localSystem
      ensures GroupShape(g, total) && Tracked(g, s0, c0, k0, l0, r0) && i <= |steps|
      ensures g.next < total ==> i == |steps|
      ensures total == old(total)
    {
      i, g := 0, EmptyGroup();
      EmptyShape(total);
      while g.next < total && i < |steps|
        invariant GroupShape(g, total) && Tracked(g, s0, c0, k0, l0, r0) && i <= |steps|
        invariant total == old(total)
      {
        match steps[i] {
          case Pick(passes) =>
            g := Dispatch(g, passes);
          case Finish(slot, ok) =>
            if |g.numbers| > 0 {
              g := Work(g, slot % |g.numbers|, ok);
            }
        }
        i := i + 1;
      }
    }

    /** The `for try await result in group` loop: a failure waiting in the
        group is handled first (its retry joins the group); otherwise a
        `Finish` step lets a worker complete. It stops when the group drains
        or the steps run out. */
    method ResultLoop(steps: seq<Step>, start: nat, g0: Group, ghost s0: int, ghost c0: int,
                      ghost k0: int, ghost l0: int, ghost r0: map<string, Handle>)
      returns (g: Group)
      requires start <= |steps| && GroupShape(g0, total) && Tracked(g0, s0, c0, k0, l0, r0)
      modifies this, actorSystem.localSystem
      ensures GroupShape(g, total) && Tracked(g, s0, c0, k0, l0, r0) && g.next == g0.next
      ensures total == old(total)
    {
      g := g0;
      var i := start;
      while |g.retries| > 0 || (|g.numbers| > 0 && i < |steps|)
        invariant GroupShape(g, total) && Tracked(g, s0, c0, k0, l0, r0) && g.next == g0.next
        invariant i <= |steps| && total == old(total)
        decreases |steps| - i, |g.retries|
      {
        if |g.retries| > 0 {
          g := Retry(g);
        } else {
          if steps[i].Finish? {
            g := Work(g, steps[i].slot % |g.numbers|, steps[i].ok);
          }
          i := i + 1;
        }
      }
    }

    /** `runAllTasks`. `0 ..< total` is a range, so `total` may not be
        negative. `finished` says whether the group drained before the steps
        ran out; then every number `0 ..< total` has succeeded exactly once,
        each failure was retried on the local ScanActor without a commit (so
        its count ends `|failed|` below where it started), and `completed`
        and `scheduled` are reset, which stops the collaboration. Every
        finished worker, successful or failed, raised `counted`. */
    method RunAllTasks(steps: seq<Step>) returns (finished: bool, g: Group)
      requires total >= 0
      modifies this, actorSystem.localSystem
      ensures total == old(total) && actorSystem.peers.registry == old(actorSystem.peers.registry)
      ensures counted == old(counted) + |g.succeeded| + |g.failed|
      ensures finished ==> forall x :: Count(g.succeeded, x) == if 0 <= x < total then 1 else 0
      ensures finished ==>
                actorSystem.localSystem.countValue == old(actorSystem.localSystem.countValue) - |g.failed|
      ensures finished ==> completed == 0 && scheduled == 0 && !isCollaborating
      ensures !finished ==> completed == old(completed) + |g.succeeded| + |g.failed|
      ensures !finished ==> actorSystem.localSystem.countValue
                            == LocalLoad(g, old(actorSystem.localSystem.countValue))
    {
      ghost var s0, c0, k0 := scheduled, completed, counted;
      ghost var l0, r0 := actorSystem.localSystem.countValue, actorSystem.peers.registry;
      var i;
      i, g := DispatchLoop(steps, s0, c0, k0, l0, r0);
      if g.next == total {
        g := ResultLoop(steps, i, g, s0, c0, k0, l0, r0);
      }
      finished := g.next == total && g.numbers == [] && g.retries == [];
      if finished {
        forall x ensures Count(g.succeeded, x) == if 0 <= x < total then 1 else 0 {
          DrainedGroup(g, total, l0, x);
        }
        DrainedGroup(g, total, l0, 0);
        completed := 0;
        SetScheduled(0);
      }
    }
  }
}
