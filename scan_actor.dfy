/** The per-peer load counters of Sky: the distributed `ScanActor` of the
    distributed-system chapter and the `ScanSystem` actor of the advanced-actor
    chapter. Each counts the scan tasks committed to it and not yet finished. */
module ScanActors {
  import opened Common
  import opened PeerRegistry

  /** The Swift type name under which ScanActor handles are registered. */
  const ScanActorType: string := "Sky.ScanActor"

  /** `ScanTask`: one unit of scan work; its `id` UUID is not modelled. */
  datatype ScanTask = ScanTask(input: int)

  /** Where a scheduler sends a task: the local system or the peer with `id`. */
  datatype SystemRef = LocalSystem | RemoteSystem(id: string)

  /** `ScanActor`: a distributed actor with a name and a load counter. */
  class ScanActor {
    const name: string
    const id: string
    const instance: nat
    var countValue: int

    /** The handle under which this actor is registered with its actor system. */
    function AsHandle(): (h: Handle)
      ensures h.id == id && h.actorType == ScanActorType
    {
      Handle(id, ScanActorType, instance)
    }

    /** `init(name:actorSystem:)`; `id` is what the actor system assigns. */
    constructor (name: string, id: string, instance: nat)
      ensures this.name == name && this.id == id && this.instance == instance
      ensures countValue == 0
    {
      this.name := name;
      this.id := id;
      this.instance := instance;
      countValue := 0;
    }

    /** `name`: the name given at construction. */
    method Name() returns (n: string)
      ensures n == name
    {
      n := name;
    }

    /** `count`: the current load, read without changing it. */
    method Count() returns (c: int)
      ensures c == countValue
    {
      c := countValue;
    }

    /** `commit`: one more task is on its way to this actor. */
    method Commit()
      modifies this
      ensures countValue == old(countValue) + 1
    {
      countValue := countValue + 1;
    }

    /** `run`: runs the task and, on every exit (`defer`), lowers the load by one.
        `outcome` is what the task's own `run` produced; it is returned or
        rethrown unchanged. */
    method Run(task: ScanTask, outcome: Result<seq<bv8>>) returns (r: Result<seq<bv8>>)
      modifies this
      ensures countValue == old(countValue) - 1
      ensures r == outcome
    {
      r := outcome;
      countValue := countValue - 1;
    }
  }

  /** A transport handle; only its presence matters to `ScanSystem.run`. */
  datatype Service = Service(localName: string)

  /** How `ScanSystem.run` executed a task. */
  datatype Route = SentTo(peer: string) | RanLocally

  /** `ScanSystem`: a local or remote system with a load counter. */
  class ScanSystem {
    const name: string
    const service: Option<Service>
    var count: int

    /** `init(name:service:)`; the default `service` is nil, a local system. */
    constructor (name: string, service: Option<Service>)
      ensures this.name == name && this.service == service
      ensures count == 0
    {
      this.name := name;
      this.service := service;
      count := 0;
    }

    method Commit()
      modifies this
      ensures count == old(count) + 1
    {
      count := count + 1;
    }

    /** `run`: with a service the task is sent to the peer called `name`,
        otherwise it runs here; either way the count drops by one on exit.
        `remote` and `local` are the outcomes of the two possible routes. */
    method Run(task: ScanTask, remote: Result<string>, local: Result<string>)
      returns (r: Result<string>, route: Route)
      modifies this
      ensures count == old(count) - 1
      ensures service.Some? ==> route == SentTo(name) && r == remote
      ensures service.None? ==> route == RanLocally && r == local
    {
      if service.Some? {
        route, r := SentTo(name), remote;
      } else {
        route, r := RanLocally, local;
      }
      count := count - 1;
    }
  }

  /** What the load counter of one actor reads after a history of calls:
      each `true` is a `commit`, each `false` a finished `run`. */
  function LoadAfter(start: int, calls: seq<bool>): int
  {
    if calls == [] then start
    else LoadAfter(start, calls[..|calls| - 1]) + (if calls[|calls| - 1] then 1 else -1)
  }

  function Commits(calls: seq<bool>): (n: nat)
    ensures n <= |calls|
  {
    if calls == [] then 0 else Commits(calls[..|calls| - 1]) + (if calls[|calls| - 1] then 1 else 0)
  }

  /** The counter equals its start plus commits minus finished runs; nothing
      keeps it from going negative. */
  lemma {:induction false} LoadIsCommitsMinusRuns(start: int, calls: seq<bool>)
    ensures LoadAfter(start, calls) == start + Commits(calls) - (|calls| - Commits(calls))
  {
    if calls != [] {
      LoadIsCommitsMinusRuns(start, calls[..|calls| - 1]);
    }
  }

  /** The calls one local ScanActor sees for a task dispatched to it whose
      scan fails `failures` times before it succeeds, as the final
      `ScanModel.runAllTasks` is written: the dispatch commits once, and
      each retry is a `run` on `localSystem` with no `commit`. */
  function RetriedWithoutCommit(failures: nat): (calls: seq<bool>)
    ensures |calls| == failures + 2 && Commits(calls) == 1
  {
    if failures == 0 then [true, false] else RetriedWithoutCommit(failures - 1) + [false]
  }

  /** The same task when every retry commits to the local system before it
      runs, as a dispatch through `firstAvailableSystem` does. */
  function RetriedWithCommit(failures: nat): (calls: seq<bool>)
    ensures |calls| == 2 * failures + 2
  {
    if failures == 0 then [true, false] else RetriedWithCommit(failures - 1) + [true, false]
  }

  /** As written, each failure leaves the counter one lower for good: after a
      single failure on an idle actor its load reads -1. */
  lemma {:induction false} RetriesWithoutCommitLoad(start: int, failures: nat)
    ensures LoadAfter(start, RetriedWithoutCommit(failures)) == start - failures
    ensures LoadAfter(0, RetriedWithoutCommit(1)) == -1
  {
    LoadIsCommitsMinusRuns(start, RetriedWithoutCommit(failures));
    LoadIsCommitsMinusRuns(0, RetriedWithoutCommit(1));
  }

  /** With a commit before every retry, the task leaves the counter where it
      found it, and the counter never drops below that start on the way. */
  lemma {:induction false} RetriesWithCommitLoad(start: int, failures: nat)
    ensures LoadAfter(start, RetriedWithCommit(failures)) == start
    ensures forall i :: 0 <= i <= |RetriedWithCommit(failures)| ==>
              LoadAfter(start, RetriedWithCommit(failures)[..i]) >= start
  {
    if failures == 0 {
      var none: seq<bool> := [];
      assert none[..0] == none;
      PairKeeps(start, none);
      assert RetriedWithCommit(0) == none + [true, false];
    } else {
      RetriesWithCommitLoad(start, failures - 1);
      PairKeeps(start, RetriedWithCommit(failures - 1));
    }
  }

  /** A history whose every prefix stays at or above `start` and which ends
      at `start` keeps both properties when a `commit`-`run` pair follows. */
  lemma PairKeeps(start: int, p: seq<bool>)
    requires LoadAfter(start, p) == start
    requires forall j :: 0 <= j <= |p| ==> LoadAfter(start, p[..j]) >= start
    ensures LoadAfter(start, p + [true, false]) == start
    ensures forall i :: 0 <= i <= |p| + 2 ==> LoadAfter(start, (p + [true, false])[..i]) >= start
  {
    PairAfter(start, p);
    forall i | 0 <= i <= |p| + 2
      ensures LoadAfter(start, (p + [true, false])[..i]) >= start
    {
      PairPrefix(start, p, i);
    }
  }

  /** Every prefix of a history followed by a `commit`-`run` pair stays at
      or above `start` when every prefix of the history does. */
  lemma PairPrefix(start: int, p: seq<bool>, i: nat)
    requires i <= |p| + 2 && LoadAfter(start, p) == start
    requires forall j :: 0 <= j <= |p| ==> LoadAfter(start, p[..j]) >= start
    ensures LoadAfter(start, (p + [true, false])[..i]) >= start
  {
    var h := p + [true, false];
    PairAfter(start, p);
    if i <= |p| {
      assert h[..i] == p[..i];
    } else if i == |p| + 1 {
      assert h[..i] == p + [true];
    } else {
      assert h[..i] == h;
    }
  }

  /** A `commit` followed by a `run` raises the counter by one in between and
      then restores it. */
  lemma PairAfter(start: int, p: seq<bool>)
    ensures LoadAfter(start, p + [true]) == LoadAfter(start, p) + 1
    ensures LoadAfter(start, p + [true, false]) == LoadAfter(start, p)
  {
    assert (p + [true])[..|p|] == p;
    assert (p + [true, false])[..|p| + 1] == p + [true];
  }

  /** Replays a history of `commit` (true) and `run` (false) calls on a fresh
      ScanActor; the final count is the one `LoadAfter` predicts, so a run
      without a matching commit leaves it below zero. */
  method ReplayCalls(calls: seq<bool>, outcome: Result<seq<bv8>>) returns (count: int)
    ensures count == Commits(calls) - (|calls| - Commits(calls))
  {
    var actor := new ScanActor("local", "local", 0);
    for i := 0 to |calls|
      invariant actor.countValue == LoadAfter(0, calls[..i])
    {
      assert calls[..i + 1][..i] == calls[..i];
      if calls[i] {
        actor.Commit();
      } else {
        var r := actor.Run(ScanTask(i), outcome);
      }
    }
    assert calls[..|calls|] == calls;
    count := actor.Count();
    LoadIsCommitsMinusRuns(0, calls);
  }
}
