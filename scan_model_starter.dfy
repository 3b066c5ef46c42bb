/** The starter `ScanModel` of the distributed chapter: the same sliding
    window of four workers as the task-group chapter, but every worker calls
    both `onScheduled` and `onTaskCompleted`, failures included, and the
    model watches the actor system's published count. */
module StarterScanModel {
  import opened Scheduling
  import opened SlidingWindow
  import StarterActorSystem

  class ScanModel {
    var counted: int
    var isConnected: bool
    var isCollaborating: bool
    var scheduled: int
    var completed: int
    var total: int
    const actorSystem: StarterActorSystem.BonjourActorSystem

    /** `init(total:localName:)`: creates the actor system; every published
        flag and counter starts at its default. */
    constructor (total: int, localName: string)
      ensures this.total == total && fresh(actorSystem)
      ensures actorSystem.localName == localName && actorSystem.actors == map[]
      ensures actorSystem.Published()
      ensures counted == 0 && scheduled == 0 && completed == 0
      ensures !isConnected && !isCollaborating
    {
      this.total := total;
      actorSystem := new StarterActorSystem.BonjourActorSystem(localName);
      counted, scheduled, completed := 0, 0, 0;
      isConnected, isCollaborating := false, false;
    }

    /** One value of `actorSystem.$actorCount` reaching the
        `systemConnectivityHandler` loop. */
    method OnActorCount(count: int)
      modifies this
      ensures isConnected == (count > 1)
      ensures counted == old(counted) && scheduled == old(scheduled) && completed == old(completed)
      ensures isCollaborating == old(isCollaborating) && total == old(total)
    {
      isConnected := count > 1;
    }

    /** Publishing the count the actor system holds now: the model is
        connected exactly when some peer besides this one is registered. */
    method ObserveActorSystem()
      requires actorSystem.Published()
      modifies this
      ensures isConnected <==> |actorSystem.actors| > 1
      ensures counted == old(counted) && scheduled == old(scheduled) && completed == old(completed)
    {
      OnActorCount(actorSystem.actorCount);
    }

    /** `onScheduled`. */
    method OnScheduled()
      modifies this
      ensures scheduled == old(scheduled) + 1
      ensures counted == old(counted) && completed == old(completed) && total == old(total)
    {
      scheduled := scheduled + 1;
    }

    /** `onTaskCompleted`; the `Double` rate it also publishes is not modelled. */
    method OnTaskCompleted()
      modifies this
      ensures completed == old(completed) + 1 && counted == old(counted) + 1
      ensures scheduled == old(scheduled) - 1 && total == old(total)
    {
      completed := completed + 1;
      counted := counted + 1;
      scheduled := scheduled - 1;
    }

    /** One turn of the result loop: the worker the event picks finishes
        (`onTaskCompleted`, whether its scan succeeded or not), and while
        `index < total` worker `index` starts (`onScheduled`). */
    method Settled(event: Settle, w: Window) returns (w': Window)
      requires |w.running| > 0
      modifies this
      ensures w' == WindowStep(w, event, total)
      ensures completed == old(completed) + 1 && counted == old(counted) + 1
      ensures scheduled == old(scheduled) - 1 + (w'.next - w.next)
      ensures total == old(total)
    {
      var k := event.slot % |w.running|;
      var number := w.running[k];
      var running := RemoveAt(w.running, k);
      OnTaskCompleted();
      var succeeded, failed := w.succeeded, w.failed;
      if event.ok {
        succeeded := succeeded + [number];
      } else {
        failed := failed + [number];
      }
      var index := w.next;
      if index < total {
        OnScheduled();
        running := running + [index];
        index := index + 1;
      }
      w' := Window(running, index, succeeded, failed);
    }

    /** `runAllTasks`: workers 0 to 3 start, each settled result is only
        logged and lets worker `index` in while `index < total`. `events` are
        the settles in the order the group yields them; `finished` says
        whether the group drained before they ran out, after which
        `completed` and `scheduled` are reset to 0. */
    method RunAllTasks(events: seq<Settle>) returns (finished: bool, w: Window)
      modifies this
      ensures total == old(total)
      ensures StarterRan(events, finished, w, old(scheduled), old(completed), old(counted))
    {
      ghost var s0, c0, k0 := scheduled, completed, counted;
      w := StartBatch();
      w := ResultLoop(events, w, s0, c0, k0);
      finished := |w.running| == 0;
      ghost var settled := |w.succeeded| + |w.failed|;
      forall x | finished
        ensures Count(w.succeeded, x) + Count(w.failed, x)
                == if 0 <= x < Max(BatchSize, total) then 1 else 0
      {
        DrainedWindow(w, settled, total, x);
      }
      DrainedWindow(w, settled, total, 0);
      if finished {
        completed := 0;
        scheduled := 0;
      }
    }

    /** What a run leaves: the group drained exactly when there were events
        for all `max(4, total)` settles, and then each number `0 ..< max(4,
        total)` ran exactly once; every settle, failed or not, counted once
        in `counted`; `scheduled` and `completed` are 0 at the end and before
        it count the workers in flight and the settles. */
    ghost predicate StarterRan(events: seq<Settle>, finished: bool, w: Window, s0: int, c0: int, k0: int)
      reads this
    {
      var settled := |w.succeeded| + |w.failed|;
      && WindowShape(w, settled, total)
      && (finished <==> |events| >= Max(BatchSize, total))
      && settled == (if finished then Max(BatchSize, total) else |events|)
      && (finished ==> forall x :: Count(w.succeeded, x) + Count(w.failed, x)
                                  == if 0 <= x < Max(BatchSize, total) then 1 else 0)
      && counted == k0 + settled
      && completed == (if finished then 0 else c0 + settled)
      && scheduled == (if finished then 0 else s0 + |w.running|)
    }

    /** The `for index in 0..<batchSize` loop: workers 0 to 3 start. */
    method StartBatch() returns (w: Window)
      modifies this
      ensures w == InitialWindow()
      ensures scheduled == old(scheduled) + BatchSize
      ensures completed == old(completed) && counted == old(counted) && total == old(total)
    {
      var running := [];
      for index := 0 to BatchSize
        invariant |running| == index && forall i :: 0 <= i < index ==> running[i] == i
        invariant scheduled == old(scheduled) + index
        invariant completed == old(completed) && counted == old(counted) && total == old(total)
      {
        OnScheduled();
        running := running + [index];
      }
      w := Window(running, BatchSize, [], []);
    }

    /** What the result loop keeps after `e` events. */
    ghost predicate Kept(events: seq<Settle>, e: int, w: Window, s0: int, c0: int, k0: int)
      reads this
    {
      && 0 <= e <= |events|
      && WindowShape(w, e, total)
      && scheduled == s0 + |w.running|
      && completed == c0 + e
      && counted == k0 + e
    }

    /** One turn of the result loop keeps `Kept`. */
    method Turn(events: seq<Settle>, e: int, w: Window, ghost s0: int, ghost c0: int, ghost k0: int)
      returns (w': Window)
      requires Kept(events, e, w, s0, c0, k0)
      requires e < |events| && |w.running| > 0
      modifies this
      ensures Kept(events, e + 1, w', s0, c0, k0)
      ensures total == old(total)
    {
      StepKeepsShape(w, e, events[e], total);
      w' := Settled(events[e], w);
    }

    /** The `for try await result in group` loop. */
    method ResultLoop(events: seq<Settle>, started: Window, ghost s0: int, ghost c0: int, ghost k0: int)
      returns (w: Window)
      requires started == InitialWindow()
      requires scheduled == s0 + BatchSize && completed == c0 && counted == k0
      modifies this
      ensures Kept(events, |w.succeeded| + |w.failed|, w, s0, c0, k0)
      ensures |w.running| > 0 ==> |w.succeeded| + |w.failed| == |events|
      ensures total == old(total)
    {
      w := started;
      InitialShape(total);
      var e := 0;
      while e < |events| && |w.running| > 0
        invariant Kept(events, e, w, s0, c0, k0)
        invariant total == old(total)
      {
        w := Turn(events, e, w, s0, c0, k0);
        e := e + 1;
      }
    }
  }
}
