/** The dispatch policy of the two sliding-window schedulers (the task-group
    chapter's `ScanModel` and the starter `ScanModel` of the distributed
    chapter): four workers start, and each settled result lets the next task
    number in while numbers remain. */
module SlidingWindow {
  import opened Scheduling

  /** `batchSize`: the workers started before any result is awaited. */
  const BatchSize: int := 4

  /** The task group's workers as the result loop sees them: the numbers in
      flight, the next number to start (`index`), and the settled numbers. */
  datatype Window = Window(running: seq<int>, next: int, succeeded: seq<int>, failed: seq<int>)

  /** After `for index in 0..<batchSize`: workers 0 to 3 in flight, nothing
      settled, and `index` is `batchSize`. */
  function InitialWindow(): (w: Window)
    ensures |w.running| == BatchSize && w.next == BatchSize
    ensures w.succeeded == [] && w.failed == []
  {
    Window([0, 1, 2, 3], BatchSize, [], [])
  }

  /** The worker at position `k` of the in-flight list settles (`ok` says
      whether its scan succeeded); then, if `next < total`, worker `next`
      joins the group. */
  function SettleAt(w: Window, k: nat, ok: bool, total: int): (r: Window)
    requires k < |w.running|
    ensures |r.succeeded| + |r.failed| == |w.succeeded| + |w.failed| + 1
    ensures r.next == if w.next < total then w.next + 1 else w.next
  {
    var number := w.running[k];
    var rest := RemoveAt(w.running, k);
    var succeeded := if ok then w.succeeded + [number] else w.succeeded;
    var failed := if ok then w.failed else w.failed + [number];
    if w.next < total then Window(rest + [w.next], w.next + 1, succeeded, failed)
    else Window(rest, w.next, succeeded, failed)
  }

  /** One turn of `for try await result in group`: the event's slot, taken
      modulo the workers in flight, picks the one that settles. */
  function WindowStep(w: Window, event: Settle, total: int): Window
    requires |w.running| > 0
  {
    SettleAt(w, event.slot % |w.running|, event.ok, total)
  }

  /** Number `x` has been started exactly when it is below `next`, and then it
      is in exactly one place: succeeded, failed or still in flight. */
  ghost predicate OnceAt(w: Window, x: int)
  {
    Count(w.succeeded, x) + Count(w.failed, x) + Count(w.running, x)
    == if 0 <= x < w.next then 1 else 0
  }

  /** What holds after `settled` turns: workers `0 ..< next` have started,
      between 4 and `max(4, total)` of them; each is settled or in flight,
      exactly once; never more than four are in flight, and exactly four
      while numbers remain. */
  ghost predicate WindowShape(w: Window, settled: int, total: int)
  {
    && settled == |w.succeeded| + |w.failed|
    && BatchSize <= w.next <= Max(BatchSize, total)
    && |w.running| == w.next - settled && |w.running| <= BatchSize
    && (w.next < total ==> |w.running| == BatchSize)
    && forall x :: OnceAt(w, x)
  }

  lemma InitialShape(total: int)
    ensures WindowShape(InitialWindow(), 0, total)
  {
    forall x ensures OnceAt(InitialWindow(), x) {
      InitialOnceAt(x);
    }
  }

  lemma InitialOnceAt(x: int)
    ensures Count([0, 1, 2, 3], x) == if 0 <= x < 4 then 1 else 0
  {
    CountSnoc([], 0, x);
    assert [] + [0] == [0];
    CountSnoc([0], 1, x);
    assert [0] + [1] == [0, 1];
    CountSnoc([0, 1], 2, x);
    assert [0, 1] + [2] == [0, 1, 2];
    CountSnoc([0, 1, 2], 3, x);
    assert [0, 1, 2] + [3] == [0, 1, 2, 3];
  }

  /** Every turn keeps the shape. */
  lemma StepKeepsShape(w: Window, settled: int, event: Settle, total: int)
    requires WindowShape(w, settled, total) && |w.running| > 0
    ensures WindowShape(WindowStep(w, event, total), settled + 1, total)
  {
    var k := event.slot % |w.running|;
    forall x ensures OnceAt(SettleAt(w, k, event.ok, total), x)
    {
      SettleOnceAt(w, k, event.ok, total, x);
    }
  }

  /** Settling one worker and starting the next keeps every number's place
      unique. */
  lemma SettleOnceAt(w: Window, k: nat, ok: bool, total: int, x: int)
    requires OnceAt(w, x) && k < |w.running| && 0 <= w.next
    ensures OnceAt(SettleAt(w, k, ok, total), x)
  {
    var number, rest := w.running[k], RemoveAt(w.running, k);
    var w' := SettleAt(w, k, ok, total);
    var hit := if number == x then 1 else 0;
    RemoveAtCount(w.running, k, x);
    assert Count(w'.succeeded, x) + Count(w'.failed, x)
           == Count(w.succeeded, x) + Count(w.failed, x) + hit by {
      if ok {
        CountSnoc(w.succeeded, number, x);
      } else {
        CountSnoc(w.failed, number, x);
      }
    }
    if w.next < total {
      CountSnoc(rest, w.next, x);
      assert w'.running == rest + [w.next] && w'.next == w.next + 1;
    } else {
      assert w'.running == rest && w'.next == w.next;
    }
  }

  /** The group drains exactly when all `max(4, total)` workers have settled:
      then exactly the numbers `0 ..< max(4, total)` have started and each has
      settled exactly once, as a success or as a failure. */
  lemma DrainedWindow(w: Window, settled: int, total: int, x: int)
    requires WindowShape(w, settled, total)
    ensures |w.running| == 0 <==> settled == Max(BatchSize, total)
    ensures |w.running| == 0 ==> w.next == Max(BatchSize, total)
    ensures |w.running| == 0 ==>
              Count(w.succeeded, x) + Count(w.failed, x)
              == if 0 <= x < Max(BatchSize, total) then 1 else 0
  {
    assert OnceAt(w, x);
  }
}
