/** The final `ScanModel` of the advanced-actor chapter: every task number is
    dispatched up front to the system `firstAvailableSystem` picks, every
    failed scan runs again on the local system, only successes call
    `onTaskCompleted`, and the rate is an integer tasks-per-second figure. */
module AdvancedScanModel {
  import opened Common
  import opened Scheduling
  import opened ScanActors
  import opened RetryGroup

  /** What drives a run of the task group, one step at a time: during the
      dispatch loop a `Pick` is the system `firstAvailableSystem` returned
      for the next number, and a `Finish` lets one worker in flight (chosen
      by `slot` modulo their number) complete with the outcome `ok` at the
      wall-clock second `now`. After the dispatch loop a `Pick` has nothing
      to pick and is skipped. */
  datatype Step = Pick(system: SystemRef) | Finish(slot: nat, ok: bool, now: int)

  /** `ScanModel`. The `Systems` actor is not part of this model: the number
      of systems it holds is passed in wherever the model reads it. */
  class ScanModel {
    var counted: int
    var lastSec: int
    var scheduled: int
    var countPerSecond: int
    var completed: int
    var total: int
    var isConnected: bool
    var isCollaborating: bool
    /** `systems.localSystem`: the ScanSystem built from `localName`. */
    const localSystem: ScanSystem

    /** The rate figures as one value. */
    function Progress(): Rate
      reads this
    {
      Rate(counted, lastSec, countPerSecond)
    }

    /** `init(total:localName:)`: the local system has no transport service,
        so it runs the tasks it is given itself. */
    constructor (total: int, localName: string)
      ensures this.total == total && fresh(localSystem)
      ensures localSystem.name == localName && localSystem.service == None
      ensures localSystem.count == 0
      ensures counted == 0 && lastSec == 0 && scheduled == 0
      ensures countPerSecond == 0 && completed == 0
      ensures !isConnected && !isCollaborating
    {
      this.total := total;
      localSystem := new ScanSystem(localName, None);
      counted, lastSec, scheduled, countPerSecond, completed := 0, 0, 0, 0, 0;
      isConnected, isCollaborating := false, false;
    }

    /** The setter of `scheduled` with its `didSet`: the model collaborates
        while work is scheduled and `Systems` holds more than one system. */
    method SetScheduled(value: int, systemCount: int)
      modifies this
      ensures scheduled == value
      ensures isCollaborating == (value > 0 && systemCount > 1)
      ensures Progress() == old(Progress()) && completed == old(completed)
      ensures total == old(total) && isConnected == old(isConnected)
    {
      scheduled := value;
      isCollaborating := value > 0 && systemCount > 1;
    }

    /** One `.connected` or `.disconnected` notification, after `Systems`
        has added or removed the system (leaving `systemCount` of them). A
        notification whose object is not a name is skipped. */
    method OnConnectivity(note: Option<string>, systemCount: int)
      modifies this
      ensures note.Some? ==> isConnected == (systemCount > 1)
      ensures note.None? ==> isConnected == old(isConnected)
      ensures scheduled == old(scheduled) && completed == old(completed)
      ensures Progress() == old(Progress()) && isCollaborating == old(isCollaborating)
      ensures total == old(total)
    {
      if note.Some? {
        isConnected := systemCount > 1;
      }
    }

    /** `onScheduled`. */
    method OnScheduled(systemCount: int)
      modifies this
      ensures scheduled == old(scheduled) + 1
      ensures isCollaborating == (scheduled > 0 && systemCount > 1)
      ensures Progress() == old(Progress()) && completed == old(completed) && total == old(total)
    {
      SetScheduled(scheduled + 1, systemCount);
    }

    /** `onTaskCompleted`, with the wall-clock second as `now`. */
    method OnTaskCompleted(now: int, systemCount: int)
      modifies this
      ensures completed == old(completed) + 1 && scheduled == old(scheduled) - 1
      ensures Progress() == RateUpdate(old(Progress()), now)
      ensures total == old(total)
    {
      completed := completed + 1;
      counted := counted + 1;
      SetScheduled(scheduled - 1, systemCount);
      if lastSec != now {
        countPerSecond := SwiftDiv(counted, now - lastSec);
        counted := 0;
        lastSec := now;
      }
    }

    /** `run(_:)`, through which a peer's task reaches this model: `scheduled`
        goes up while the local system runs the task and back down on exit,
        and the local system's `run` lowers its count. `outcome` is what the
        task produced; it is returned or rethrown unchanged. */
    method Run(task: ScanTask, outcome: Result<string>, systemCount: int) returns (r: Result<string>)
      requires localSystem.service == None
      modifies this, localSystem
      ensures r == outcome
      ensures localSystem.count == old(localSystem.count) - 1
      ensures scheduled == old(scheduled) && isCollaborating == (scheduled > 0 && systemCount > 1)
      ensures Progress() == old(Progress()) && completed == old(completed) && total == old(total)
    {
      SetScheduled(scheduled + 1, systemCount);
      var route;
      r, route := localSystem.Run(task, outcome, outcome);
      SetScheduled(scheduled - 1, systemCount);
    }

    /** The counters after the group has reached `g`, with `runs` tasks run
        by the local system and successes at the seconds `times`:
        `scheduled` counts the workers in flight plus every failed one (a
        failure never calls `onTaskCompleted`), `completed` counts the
        successes and the rate figures follow their seconds. Every local
        worker in flight and every failure whose retry is queued will still
        run on some system, so together with the runs already made they
        cover every failure retried so far. */
    ghost predicate Tracked(g: Group, times: seq<int>, runs: int,
                            s0: int, c0: int, p0: Rate, l0: int)
      reads this, localSystem
    {
      && scheduled == s0 + |g.numbers| + |g.failed|
      && completed == c0 + |g.succeeded|
      && |times| == |g.succeeded|
      && Progress() == RateAfter(p0, times)
      && localSystem.count == l0 - runs
      && LocalLoad(g, runs) >= 0
    }

    /** One `Pick` in the dispatch loop: the worker for `g.next` starts on
        the system picked for it and calls `onScheduled`. */
    method Dispatch(g: Group, system: SystemRef, systemCount: int) returns (g': Group)
      requires GroupShape(g, total) && g.next < total
      modifies this
      ensures GroupShape(g', total) && g' == Started(g, system)
      ensures forall times, runs, s0, c0, p0, l0 ::
                old(Tracked(g, times, runs, s0, c0, p0, l0)) ==> Tracked(g', times, runs, s0, c0, p0, l0)
      ensures total == old(total)
    {
      StartedShape(g, system, total);
      forall runs ensures LocalLoad(Started(g, system), runs)
                          == LocalLoad(g, runs) + (if system == LocalSystem then 1 else 0) {
        StartedLoad(g, system, runs);
      }
      OnScheduled(systemCount);
      g' := Started(g, system);
    }

    /** `worker`, from the scan on: the worker at position `k` runs its task
        on its system (the local system's `run` lowers its count; a remote
        system's count is held by `Systems`); only a success calls
        `onTaskCompleted`, at the second `now`. `ran` says whether the task
        ran on the local system. */
    method Work(g: Group, k: nat, ok: bool, now: int, systemCount: int)
      returns (g': Group, ran: bool)
      requires GroupShape(g, total) && k < |g.numbers| && localSystem.service == None
      modifies this, localSystem
      ensures GroupShape(g', total) && g' == RanAt(g, k, ok)
      ensures ran == (g.systems[k] == LocalSystem)
      ensures forall times, runs, s0, c0, p0, l0 ::
                old(Tracked(g, times, runs, s0, c0, p0, l0)) ==>
                Tracked(g', if ok then times + [now] else times, if ran then runs + 1 else runs,
                        s0, c0, p0, l0)
      ensures total == old(total)
    {
      ran := g.systems[k] == LocalSystem;
      if ran {
        var outcome: Result<string> := if ok then Ok("") else Err(TaskFailure);
        var r, route := localSystem.Run(ScanTask(g.numbers[k]), outcome, outcome);
      }
      if ok {
        OnTaskCompleted(now, systemCount);
      }
      RanAtShape(g, k, ok, total);
      forall runs ensures LocalLoad(RanAt(g, k, ok), runs)
                          == LocalLoad(g, runs) - (if g.systems[k] == LocalSystem then 1 else 0) {
        RanAtLoad(g, k, ok, runs);
      }
      forall p0: Rate, times: seq<int> ensures RateAfter(p0, times + [now]) == RateUpdate(RateAfter(p0, times), now) {
        RateAfterSnoc(p0, times, now);
      }
      g' := RanAt(g, k, ok);
    }

    /** The result loop meets a failure: a worker for the same input joins
        the group on the local system and calls `onScheduled`. */
    method Retry(g: Group, systemCount: int) returns (g': Group)
      requires GroupShape(g, total) && |g.retries| > 0
      modifies this
      ensures GroupShape(g', total) && g' == Requeued(g)
      ensures forall times, runs, s0, c0, p0, l0 ::
                old(Tracked(g, times, runs, s0, c0, p0, l0)) ==> Tracked(g', times, runs, s0, c0, p0, l0)
      ensures total == old(total)
    {
      RequeuedShape(g, total);
      forall runs ensures LocalLoad(Requeued(g), runs) == LocalLoad(g, runs) {
        RequeuedLoad(g, runs);
      }
      OnScheduled(systemCount);
      g' := Requeued(g);
    }

    /** The `for number in 0 ..< total` loop: a `Pick` dispatches the next
        number on the system picked for it, and a `Finish` lets a worker
        already in the group complete. It stops when every number is
        dispatched or the steps run out. */
    method DispatchLoop(steps: seq<Step>, systemCount: int, ghost s0: int, ghost c0: int,
                        ghost p0: Rate, ghost l0: int)
      returns (i: nat, g: Group, times: seq<int>, runs: nat)
      requires total >= 0 && localSystem.service == None
      requires Tracked(EmptyGroup(), [], 0, s0, c0, p0, l0)
      modifies this, localSystem
      ensures GroupShape(g, total) && Tracked(g, times, runs, s0, c0, p0, l0) && i <= |steps|
      ensures g.next < total ==> i == |steps|
      ensures total == old(total)
    {
      i, g, times, runs := 0, EmptyGroup(), [], 0;
      EmptyShape(total);
      while g.next < total && i < |steps|
        invariant GroupShape(g, total) && Tracked(g, times, runs, s0, c0, p0, l0) && i <= |steps|
        invariant total == old(total)
      {
        match steps[i] {
          case Pick(system) =>
            g := Dispatch(g, system, systemCount);
          case Finish(slot, ok, now) =>
            if |g.numbers| > 0 {
              var ran;
              g, ran := Work(g, slot % |g.numbers|, ok, now, systemCount);
              times := if ok then times + [now] else times;
              runs := if ran then runs + 1 else runs;
            }
        }
        i := i + 1;
      }
    }

    /** The `for try await result in group` loop: a failure waiting in the
        group is handled first (its retry joins the group); otherwise a
        `Finish` step lets a worker complete. It stops when the group drains
        or the steps run out. */
    method ResultLoop(steps: seq<Step>, start: nat, g0: Group, times0: seq<int>, runs0: nat,
                      systemCount: int, ghost s0: int, ghost c0: int, ghost p0: Rate, ghost l0: int)
      returns (g: Group, times: seq<int>, runs: nat)
      requires start <= |steps| && localSystem.service == None
      requires GroupShape(g0, total) && Tracked(g0, times0, runs0, s0, c0, p0, l0)
      modifies this, localSystem
      ensures GroupShape(g, total) && Tracked(g, times, runs, s0, c0, p0, l0) && g.next == g0.next
      ensures total == old(total)
    {
      g, times, runs := g0, times0, runs0;
      var i := start;
      while |g.retries| > 0 || (|g.numbers| > 0 && i < |steps|)
        invariant GroupShape(g, total) && Tracked(g, times, runs, s0, c0, p0, l0) && g.next == g0.next
        invariant i <= |steps| && total == old(total)
        decreases |steps| - i, |g.retries|
      {
        if |g.retries| > 0 {
          g := Retry(g, systemCount);
        } else {
          if steps[i].Finish? {
            var ok, now, ran := steps[i].ok, steps[i].now, false;
            g, ran := Work(g, steps[i].slot % |g.numbers|, ok, now, systemCount);
            times := if ok then times + [now] else times;
            runs := if ran then runs + 1 else runs;
          }
          i := i + 1;
        }
      }
    }

    /** `runAllTasks`. A released model fails with "The model failed" and
        changes nothing. Otherwise `0 ..< total` is a range, so `total` may
        not be negative. `finished` says whether the group drained before the
        steps ran out; then every number `0 ..< total` has succeeded exactly
        once, the local system has run at least one task for every failure
        (each failure is retried there), and `countPerSecond` and `scheduled`
        are reset, which stops the collaboration, while `completed` keeps
        the count of successes. `times` are the seconds at which the
        successes completed, in order, and the rate figures follow them;
        `localRuns` is the number of tasks the local system ran, each of
        which lowered its count. Before the end, `scheduled` still counts
        every failed worker, since a failure never calls `onTaskCompleted`. */
    method RunAllTasks(steps: seq<Step>, systemCount: int, selfReleased: bool)
      returns (r: Result<()>, finished: bool, g: Group, times: seq<int>, localRuns: nat)
      requires total >= 0 && localSystem.service == None
      modifies this, localSystem
      ensures total == old(total)
      ensures selfReleased ==> r == Err(Message("The model failed")) && !finished
      ensures selfReleased ==> scheduled == old(scheduled) && completed == old(completed)
                               && Progress() == old(Progress()) && localRuns == 0
      ensures !selfReleased ==> r == Ok(())
      ensures localSystem.count == old(localSystem.count) - localRuns
      ensures completed == old(completed) + |g.succeeded| && |times| == |g.succeeded|
      ensures counted == RateAfter(old(Progress()), times).counted
      ensures lastSec == RateAfter(old(Progress()), times).lastSec
      ensures finished ==> forall x :: Count(g.succeeded, x) == if 0 <= x < total then 1 else 0
      ensures finished ==> completed == old(completed) + total && localRuns >= |g.failed|
      ensures finished ==> scheduled == 0 && countPerSecond == 0 && !isCollaborating
      ensures !finished ==> countPerSecond == RateAfter(old(Progress()), times).perSecond
      ensures !finished ==> scheduled == old(scheduled) + |g.numbers| + |g.failed|
    {
      if selfReleased {
        return Err(Message("The model failed")), false, EmptyGroup(), [], 0;
      }
      r := Ok(());
      ghost var s0, c0, p0, l0 := scheduled, completed, Progress(), localSystem.count;
      var i;
      i, g, times, localRuns := DispatchLoop(steps, systemCount, s0, c0, p0, l0);
      if g.next == total {
        g, times, localRuns := ResultLoop(steps, i, g, times, localRuns, systemCount, s0, c0, p0, l0);
      }
      finished := g.next == total && g.numbers == [] && g.retries == [];
      if finished {
        forall x ensures Count(g.succeeded, x) == if 0 <= x < total then 1 else 0 {
          DrainedGroup(g, total, localRuns, x);
        }
        DrainedGroup(g, total, localRuns, 0);
        countPerSecond := 0;
        SetScheduled(0, systemCount);
      }
    }
  }
}
