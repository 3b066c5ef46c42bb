/** The `ScanModel` of the task-group chapter: a sliding window of four
    workers over the task numbers, failures logged and never retried, and an
    integer tasks-per-second rate. */
module TaskGroupScan {
  import opened Common
  import opened Scheduling
  import opened SlidingWindow

  class ScanModel {
    var counted: int
    var lastSec: int
    var scheduled: int
    var countPerSecond: int
    var completed: int
    var total: int

    /** The rate figures as one value. */
    function Progress(): Rate
      reads this
    {
      Rate(counted, lastSec, countPerSecond)
    }

    constructor (total: int)
      ensures this.total == total
      ensures counted == 0 && lastSec == 0 && scheduled == 0
      ensures countPerSecond == 0 && completed == 0
    {
      this.total := total;
      counted, lastSec, scheduled, countPerSecond, completed := 0, 0, 0, 0, 0;
    }

    /** `onScheduled`: one more task is scheduled. */
    method OnScheduled()
      modifies this
      ensures scheduled == old(scheduled) + 1
      ensures Progress() == old(Progress()) && completed == old(completed) && total == old(total)
    {
      scheduled := scheduled + 1;
    }

    /** `onTaskCompleted`, with the wall-clock second as `now`. */
    method OnTaskCompleted(now: int)
      modifies this
      ensures completed == old(completed) + 1 && scheduled == old(scheduled) - 1
      ensures Progress() == RateUpdate(old(Progress()), now)
      ensures total == old(total)
    {
      completed := completed + 1;
      counted := counted + 1;
      scheduled := scheduled - 1;
      if lastSec != now {
        countPerSecond := SwiftDiv(counted, now - lastSec);
        counted := 0;
        lastSec := now;
      }
    }

    /** One turn of the result loop: the worker the event picks settles
        (calling `onTaskCompleted` if it succeeded), and while `index < total`
        worker `index` starts (calling `onScheduled`). */
    method Settled(event: Settle, w: Window) returns (w': Window)
      requires |w.running| > 0
      modifies this
      ensures w' == WindowStep(w, event, total)
      ensures completed == old(completed) + (if event.ok then 1 else 0)
      ensures scheduled == old(scheduled) - (if event.ok then 1 else 0) + (w'.next - w.next)
      ensures Progress() == if event.ok then RateUpdate(old(Progress()), event.now) else old(Progress())
      ensures total == old(total)
    {
      var k := event.slot % |w.running|;
      var number := w.running[k];
      var running := RemoveAt(w.running, k);
      var succeeded, failed := w.succeeded, w.failed;
      if event.ok {
        OnTaskCompleted(event.now);
        succeeded := succeeded + [number];
      } else {
        failed := failed + [number];
      }
      var index := w.next;
      if index < total {
        OnScheduled();
        running := running + [index];
        index := index + 1;
      }
      w' := Window(running, index, succeeded, failed);
    }

    /** `runAllTasks`. Workers 0 to 3 start first, whatever `total` is; each
        settled result is only logged, and while `index < total` worker `index`
        joins the group. A worker calls `onScheduled` when it starts and
        `onTaskCompleted` only when its scan succeeds. `events` are the
        settles in the order the group yields them; `finished` says whether
        the group drained before they ran out, after which `countPerSecond`
        and `scheduled` are reset and `completed` is kept. A released model
        fails with "The model failed". `w` is the group as the loop left it. */
    method RunAllTasks(events: seq<Settle>, selfReleased: bool)
      returns (r: Result<()>, finished: bool, w: Window)
      modifies this
      ensures total == old(total)
      ensures selfReleased ==> r == Err(Message("The model failed")) && !finished
      ensures selfReleased ==> scheduled == old(scheduled) && completed == old(completed)
                               && Progress() == old(Progress())
      ensures !selfReleased ==> r == Ok(()) && GroupRan(events, finished, w,
                                                        old(scheduled), old(completed), old(Progress()))
    {
      if selfReleased {
        return Err(Message("The model failed")), false, InitialWindow();
      }
      r := Ok(());
      finished, w := RunGroup(events);
    }

    /** What a run of the task group leaves: the group drained exactly when
        there were events for all `max(4, total)` settles, and then every number
        `0 ..< max(4, total)` was started and settled exactly once; before that
        every event was consumed. `completed` counts the successes and the rate
        figures follow their seconds; at the end `scheduled` and
        `countPerSecond` are 0, before it `scheduled` counts the starts not yet
        matched by a success. */
    ghost predicate GroupRan(events: seq<Settle>, finished: bool, w: Window, s0: int, c0: int, p0: Rate)
      reads this
    {
      var settled := |w.succeeded| + |w.failed|;
      && WindowShape(w, settled, total)
      && (finished <==> |events| >= Max(BatchSize, total))
      && settled == (if finished then Max(BatchSize, total) else |events|)
      && (finished ==> forall x :: Count(w.succeeded, x) + Count(w.failed, x)
                                  == if 0 <= x < Max(BatchSize, total) then 1 else 0)
      && completed == c0 + |w.succeeded|
      && (var rate := RateAfter(p0, OkTimes(events[..settled]));
          counted == rate.counted && lastSec == rate.lastSec
          && countPerSecond == (if finished then 0 else rate.perSecond))
      && scheduled == (if finished then 0 else s0 + w.next - |w.succeeded|)
    }

    /** `runAllTasks` once the model is known to be alive. */
    method RunGroup(events: seq<Settle>) returns (finished: bool, w: Window)
      modifies this
      ensures total == old(total)
      ensures GroupRan(events, finished, w, old(scheduled), old(completed), old(Progress()))
    {
      ghost var s0, c0, p0 := scheduled, completed, Progress();
      w := StartBatch();
      w := ResultLoop(events, w, s0);
      finished := |w.running| == 0;
      ghost var settled := |w.succeeded| + |w.failed|;
      forall x | finished
        ensures Count(w.succeeded, x) + Count(w.failed, x)
                == if 0 <= x < Max(BatchSize, total) then 1 else 0
      {
        DrainedWindow(w, settled, total, x);
      }
      DrainedWindow(w, settled, total, 0);
      if finished {
        countPerSecond := 0;
        scheduled := 0;
      }
    }

    /** The `for index in 0..<batchSize` loop: workers 0 to 3 start. */
    method StartBatch() returns (w: Window)
      modifies this
      ensures w == InitialWindow()
      ensures scheduled == old(scheduled) + BatchSize
      ensures completed == old(completed) && Progress() == old(Progress()) && total == old(total)
    {
      var running := [];
      for index := 0 to BatchSize
        invariant |running| == index && forall i :: 0 <= i < index ==> running[i] == i
        invariant scheduled == old(scheduled) + index
        invariant completed == old(completed) && Progress() == old(Progress()) && total == old(total)
      {
        OnScheduled();
        running := running + [index];
      }
      w := Window(running, BatchSize, [], []);
    }

    /** The counters after `e` events: `scheduled` counts the starts not yet
        matched by a success, `completed` the successes, and the rate figures
        follow the seconds of the successes so far. */
    ghost predicate Tracked(events: seq<Settle>, e: int, w: Window, s0: int, c0: int, p0: Rate)
      reads this
      requires 0 <= e <= |events|
    {
      && scheduled == s0 + w.next - |w.succeeded|
      && completed == c0 + |w.succeeded|
      && Progress() == RateAfter(p0, OkTimes(events[..e]))
    }

    /** What the result loop keeps after `e` events. */
    ghost predicate WindowKept(events: seq<Settle>, e: int, w: Window, s0: int, c0: int, p0: Rate)
      reads this
    {
      && 0 <= e <= |events|
      && WindowShape(w, e, total)
      && Tracked(events, e, w, s0, c0, p0)
    }

    /** One turn of the result loop keeps `WindowKept`. */
    method Turn(events: seq<Settle>, e: int, w: Window, ghost s0: int, ghost c0: int, ghost p0: Rate)
      returns (w': Window)
      requires WindowKept(events, e, w, s0, c0, p0)
      requires e < |events| && |w.running| > 0
      modifies this
      ensures WindowKept(events, e + 1, w', s0, c0, p0)
      ensures total == old(total)
    {
      RateStep(p0, events, e);
      StepKeepsShape(w, e, events[e], total);
      w' := Settled(events[e], w);
    }

    /** The `for try await result in group` loop, from the four started
        workers until the group drains (nothing in flight) or `events` run
        out. */
    method ResultLoop(events: seq<Settle>, started: Window, ghost s0: int) returns (w: Window)
      requires started == InitialWindow() && scheduled == s0 + BatchSize
      modifies this
      ensures WindowKept(events, |w.succeeded| + |w.failed|, w, s0, old(completed), old(Progress()))
      ensures |w.running| > 0 ==> |w.succeeded| + |w.failed| == |events|
      ensures total == old(total)
    {
      w := started;
      ghost var c0, p0 := completed, Progress();
      InitialShape(total);
      var e := 0;
      while e < |events| && |w.running| > 0
        invariant WindowKept(events, e, w, s0, c0, p0)
        invariant total == old(total)
      {
        w := Turn(events, e, w, s0, c0, p0);
        e := e + 1;
      }
    }
  }
}
