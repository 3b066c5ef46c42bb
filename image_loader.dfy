/** EmojiArt's `ImageLoader` actor: an in-memory cache keyed by server path
    whose entries move from in-progress to completed or failed, and a
    counter of the lookups served from memory. Downloads are tasks the
    loader starts; their outcomes come back through `Finish`. */
module ImageCache {
  import opened Common

  /** A decoded image; its pixels are not modelled. */
  datatype Image = Image(id: nat)

  /** `DownloadState`; an in-progress entry names its download task. */
  datatype DownloadState = InProgress(task: nat) | Completed(image: Image) | Failed

  /** What a call to `image(_:)` does before it suspends: it returns a cached
      image, throws, or awaits a download task (`started` says whether this
      call started it). */
  datatype Lookup = Hit(image: Image) | Thrown(error: Error) | Await(task: nat, started: bool)

  class ImageLoader {
    var cache: map<string, DownloadState>
    var inMemoryAccessCounter: int
    /** Whether `setUp()` has created the access stream's continuation. */
    var hasContinuation: bool
    /** The values yielded on the access stream, in order. */
    var yielded: seq<int>
    /** Every download task started so far. */
    ghost var started: set<nat>

    /** Every in-progress entry waits for a task that was started, and the
        access stream has carried the counter's successive values. */
    ghost predicate Valid()
      reads this
    {
      && inMemoryAccessCounter >= 0
      && (forall key :: key in cache && cache[key].InProgress? ==> cache[key].task in started)
      && (forall i :: 0 <= i < |yielded| ==> 1 <= yielded[i] <= inMemoryAccessCounter)
      && (forall i, j :: 0 <= i < j < |yielded| ==> yielded[i] < yielded[j])
    }

    constructor ()
      ensures Valid() && cache == map[] && inMemoryAccessCounter == 0
      ensures !hasContinuation && yielded == [] && started == {}
    {
      cache, inMemoryAccessCounter := map[], 0;
      hasContinuation, yielded := false, [];
      started := {};
    }

    /** `setUp()`: the access stream gets its continuation. */
    method SetUp()
      requires Valid()
      modifies this
      ensures Valid() && hasContinuation
      ensures cache == old(cache) && inMemoryAccessCounter == old(inMemoryAccessCounter)
      ensures yielded == old(yielded) && started == old(started)
    {
      hasContinuation := true;
    }

    /** `add(_:forKey:)`: the key now holds the completed image. */
    method Add(image: Image, key: string)
      requires Valid()
      modifies this
      ensures Valid() && cache == old(cache)[key := Completed(image)]
      ensures inMemoryAccessCounter == old(inMemoryAccessCounter)
      ensures yielded == old(yielded) && started == old(started)
    {
      cache := cache[key := Completed(image)];
    }

    /** `image(_:)` up to its first suspension. A completed entry is served
        from memory, counted, and reported on the access stream; an
        in-progress one is awaited; a failed one throws "Download failed".
        Only a miss starts a download, `newTask`, and marks the key in
        progress before awaiting it. */
    method GetImage(serverPath: string, newTask: nat) returns (r: Lookup)
      requires Valid()
      modifies this
      ensures Valid() && hasContinuation == old(hasContinuation)
      ensures serverPath in old(cache) ==> cache == old(cache) && started == old(started)
      ensures serverPath !in old(cache) ==>
                cache == old(cache)[serverPath := InProgress(newTask)]
                && started == old(started) + {newTask} && r == Await(newTask, true)
      ensures serverPath in old(cache) && old(cache)[serverPath].Completed? ==>
                r == Hit(old(cache)[serverPath].image)
                && inMemoryAccessCounter == old(inMemoryAccessCounter) + 1
                && yielded == old(yielded) + (if hasContinuation then [inMemoryAccessCounter] else [])
      ensures !(serverPath in old(cache) && old(cache)[serverPath].Completed?) ==>
                inMemoryAccessCounter == old(inMemoryAccessCounter) && yielded == old(yielded)
      ensures serverPath in old(cache) && old(cache)[serverPath].InProgress? ==>
                r == Await(old(cache)[serverPath].task, false)
      ensures serverPath in old(cache) && old(cache)[serverPath].Failed? ==>
                r == Thrown(Message("Download failed"))
    {
      if serverPath in cache {
        match cache[serverPath] {
          case Completed(image) =>
            inMemoryAccessCounter := inMemoryAccessCounter + 1;
            if hasContinuation {
              yielded := yielded + [inMemoryAccessCounter];
            }
            return Hit(image);
          case InProgress(task) =>
            return Await(task, false);
          case Failed =>
            return Thrown(Message("Download failed"));
        }
      }
      cache := cache[serverPath := InProgress(newTask)];
      started := started + {newTask};
      r := Await(newTask, true);
    }

    /** The rest of an `image(_:)` call that started a download, once the
        task has produced `outcome`: a success is added to the cache and
        returned, a failure marks the key failed and is rethrown. */
    method Finish(serverPath: string, outcome: Result<Image>) returns (r: Result<Image>)
      requires Valid()
      modifies this
      ensures Valid() && r == outcome
      ensures outcome.Ok? ==> cache == old(cache)[serverPath := Completed(outcome.value)]
      ensures outcome.Err? ==> cache == old(cache)[serverPath := Failed]
      ensures inMemoryAccessCounter == old(inMemoryAccessCounter)
      ensures yielded == old(yielded) && started == old(started)
    {
      if outcome.Ok? {
        Add(outcome.value, serverPath);
        return outcome;
      }
      cache := cache[serverPath := Failed];
      r := outcome;
    }

    /** `clear()`: the cache is emptied; the access counter keeps counting. */
    method Clear()
      requires Valid()
      modifies this
      ensures Valid() && cache == map[]
      ensures inMemoryAccessCounter == old(inMemoryAccessCounter)
      ensures yielded == old(yielded) && started == old(started)
    {
      cache := map[];
    }
  }
}
