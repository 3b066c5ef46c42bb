/** The task group of the two schedulers that dispatch every task number up
    front and retry each failure on the local system (the final `ScanModel`s
    of the distributed-system and advanced-actor chapters): which numbers are
    in flight, on which system, and which have succeeded or wait for a
    retry. */
module RetryGroup {
  import opened Scheduling
  import opened ScanActors

  /** The task group: the workers in flight (their numbers and the systems
      they run on, index by index), the numbers whose scan succeeded, the
      failed numbers whose retry is not yet queued, every failed attempt in
      order, and the next number the dispatch loop will start. */
  datatype Group = Group(
    numbers: seq<int>, systems: seq<SystemRef>,
    succeeded: seq<int>, retries: seq<int>, failed: seq<int>, next: int)

  function EmptyGroup(): (g: Group)
    ensures g.next == 0 && g.numbers == [] && g.retries == [] && g.failed == []
  {
    Group([], [], [], [], [], 0)
  }

  /** `group.addTask` for `number` on `system`, inside the dispatch loop. */
  function Started(g: Group, system: SystemRef): (r: Group)
    ensures r.next == g.next + 1 && |r.numbers| == |g.numbers| + 1
    ensures r.numbers[|g.numbers|] == g.next && r.systems == g.systems + [system]
  {
    g.(numbers := g.numbers + [g.next], systems := g.systems + [system], next := g.next + 1)
  }

  /** The worker at position `k` completes: a success is recorded, a failure
      waits for its retry with the same task input. */
  function RanAt(g: Group, k: nat, ok: bool): (r: Group)
    requires k < |g.numbers| && |g.systems| == |g.numbers|
    ensures |r.numbers| == |g.numbers| - 1 && r.next == g.next
    ensures |r.succeeded| + |r.failed| == |g.succeeded| + |g.failed| + 1
    ensures ok ==> r.succeeded == g.succeeded + [g.numbers[k]] && r.retries == g.retries
    ensures !ok ==> r.retries == g.retries + [g.numbers[k]] && r.failed == g.failed + [g.numbers[k]]
  {
    var n := g.numbers[k];
    var rest := g.(numbers := RemoveAt(g.numbers, k), systems := RemoveAt(g.systems, k));
    if ok then rest.(succeeded := g.succeeded + [n])
    else rest.(retries := g.retries + [n], failed := g.failed + [n])
  }

  /** The result loop meets the oldest failure: a worker for the same input
      joins the group on the local system. */
  function Requeued(g: Group): (r: Group)
    requires |g.retries| > 0
    ensures |r.retries| == |g.retries| - 1 && r.next == g.next
    ensures r.numbers == g.numbers + [g.retries[0]] && r.systems == g.systems + [LocalSystem]
  {
    g.(numbers := g.numbers + [g.retries[0]], systems := g.systems + [LocalSystem],
       retries := RemoveAt(g.retries, 0))
  }

  /** Number `x` has been dispatched exactly when it is below `next`, and then
      it is in exactly one place: succeeded, in flight, or awaiting a retry. */
  ghost predicate PlacedAt(g: Group, x: int)
  {
    Count(g.succeeded, x) + Count(g.numbers, x) + Count(g.retries, x)
    == if 0 <= x < g.next then 1 else 0
  }

  /** Besides every number's place: as many workers have started in the
      dispatch loop as numbers are in flight, succeeded or awaiting a retry. */
  ghost predicate GroupShape(g: Group, total: int)
  {
    && 0 <= g.next <= total
    && |g.systems| == |g.numbers|
    && |g.succeeded| + |g.numbers| + |g.retries| == g.next
    && forall x :: PlacedAt(g, x)
  }

  /** The local load counter as the group's history fixes it when every
      dispatch to the local system commits once and retries do not: every
      local worker in flight counts one, and each failure whose retry has been
      queued is one `run` without a `commit`. */
  function LocalLoad(g: Group, start: int): int
  {
    start + Count(g.systems, LocalSystem) - (|g.failed| - |g.retries|)
  }

  lemma EmptyShape(total: int)
    requires total >= 0
    ensures GroupShape(EmptyGroup(), total)
    ensures forall start :: LocalLoad(EmptyGroup(), start) == start
  {
  }

  lemma StartedShape(g: Group, system: SystemRef, total: int)
    requires GroupShape(g, total) && g.next < total
    ensures GroupShape(Started(g, system), total)
  {
    forall x ensures PlacedAt(Started(g, system), x) {
      assert PlacedAt(g, x);
      CountSnoc(g.numbers, g.next, x);
    }
  }

  /** A pick adds one local worker exactly when it chose the local system. */
  lemma StartedLoad(g: Group, system: SystemRef, start: int)
    ensures LocalLoad(Started(g, system), start)
            == LocalLoad(g, start) + (if system == LocalSystem then 1 else 0)
  {
    CountSnoc(g.systems, system, LocalSystem);
  }

  lemma RanAtShape(g: Group, k: nat, ok: bool, total: int)
    requires GroupShape(g, total) && k < |g.numbers|
    ensures GroupShape(RanAt(g, k, ok), total)
  {
    forall x ensures PlacedAt(RanAt(g, k, ok), x) {
      RanAtPlaced(g, k, ok, x);
    }
  }

  lemma RanAtPlaced(g: Group, k: nat, ok: bool, x: int)
    requires PlacedAt(g, x) && k < |g.numbers| && |g.systems| == |g.numbers|
    ensures PlacedAt(RanAt(g, k, ok), x)
  {
    RemoveAtCount(g.numbers, k, x);
    if ok {
      CountSnoc(g.succeeded, g.numbers[k], x);
    } else {
      CountSnoc(g.retries, g.numbers[k], x);
    }
  }

  /** A finished worker lowers the local count exactly when it ran locally. */
  lemma RanAtLoad(g: Group, k: nat, ok: bool, start: int)
    requires k < |g.numbers| && |g.systems| == |g.numbers|
    ensures LocalLoad(RanAt(g, k, ok), start)
            == LocalLoad(g, start) - (if g.systems[k] == LocalSystem then 1 else 0)
  {
    RemoveAtCount(g.systems, k, LocalSystem);
  }

  lemma RequeuedShape(g: Group, total: int)
    requires GroupShape(g, total) && |g.retries| > 0
    ensures GroupShape(Requeued(g), total)
  {
    forall x ensures PlacedAt(Requeued(g), x) {
      assert PlacedAt(g, x);
      RemoveAtCount(g.retries, 0, x);
      CountSnoc(g.numbers, g.retries[0], x);
    }
  }

  /** Queuing a retry on the local system commits nothing, so it leaves the
      load the model predicts unchanged while the worker is in flight. */
  lemma RequeuedLoad(g: Group, start: int)
    requires |g.retries| > 0
    ensures LocalLoad(Requeued(g), start) == LocalLoad(g, start)
  {
    CountSnoc(g.systems, LocalSystem, LocalSystem);
  }

  /** When the group drains after the dispatch loop has covered `0 ..<
      total`, each number succeeded exactly once, and the local count has
      dropped by one for every failure: each failure's retry ran locally
      without a commit. */
  lemma DrainedGroup(g: Group, total: int, start: int, x: int)
    requires GroupShape(g, total) && g.next == total && g.numbers == [] && g.retries == []
    ensures Count(g.succeeded, x) == if 0 <= x < total then 1 else 0
    ensures |g.succeeded| == total
    ensures LocalLoad(g, start) == start - |g.failed|
  {
    assert PlacedAt(g, x);
  }
}
