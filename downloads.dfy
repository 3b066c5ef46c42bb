/** The download bookkeeping of SuperStorage's `SuperStorageModel`: the
    published list of downloads with their progress, the stop flag, and the
    byte-streaming download loop of the async-sequence chapter. The list
    operations read the same in the beginner starter, the beginner challenge
    and the async-sequence final versions. */
module Downloads {
  import opened Common
  import opened Multipart
  import opened BatchByteAccumulator

  /** `DownloadInfo`: a download's identity, file name and progress
      (a fraction, stored as given). */
  datatype DownloadInfo = DownloadInfo(id: nat, name: string, progress: real)

  /** `firstIndex(where: { $0.name == name })`. */
  function FirstIndex(downloads: seq<DownloadInfo>, name: string): (i: Option<nat>)
    ensures i.Some? ==> i.value < |downloads| && downloads[i.value].name == name
    ensures i.Some? ==> forall j :: 0 <= j < i.value ==> downloads[j].name != name
    ensures i.None? ==> forall j :: 0 <= j < |downloads| ==> downloads[j].name != name
  {
    if downloads == [] then None
    else if downloads[0].name == name then Some(0)
    else match FirstIndex(downloads[1..], name)
      case None => None
      case Some(k) => Some(k + 1)
  }

  class SuperStorageModel {
    var downloads: seq<DownloadInfo>
    var stopDownloads: bool

    constructor ()
      ensures downloads == [] && !stopDownloads
    {
      downloads, stopDownloads := [], false;
    }

    /** `addDownload(name:)`: one more entry, with progress 0, at the end;
        `id` is the fresh `UUID()`. */
    method AddDownload(name: string, id: nat)
      modifies this
      ensures downloads == old(downloads) + [DownloadInfo(id, name, 0.0)]
      ensures stopDownloads == old(stopDownloads)
    {
      downloads := downloads + [DownloadInfo(id, name, 0.0)];
    }

    /** `updateDownload(name:progress:)`: the first entry with that name
        gets the new progress; without one nothing changes. */
    method UpdateDownload(name: string, progress: real)
      modifies this
      ensures FirstIndex(old(downloads), name).None? ==> downloads == old(downloads)
      ensures FirstIndex(old(downloads), name).Some? ==>
                var i := FirstIndex(old(downloads), name).value;
                downloads == old(downloads)[i := old(downloads)[i].(progress := progress)]
      ensures |downloads| == |old(downloads)|
      ensures forall j :: 0 <= j < |downloads| ==>
                downloads[j].name == old(downloads)[j].name && downloads[j].id == old(downloads)[j].id
      ensures forall j :: 0 <= j < |downloads| && downloads[j] != old(downloads)[j] ==>
                FirstIndex(old(downloads), name) == Some(j)
      ensures stopDownloads == old(stopDownloads)
    {
      var index := FirstIndex(downloads, name);
      if index.Some? {
        var info := downloads[index.value];
        info := info.(progress := progress);
        downloads := downloads[index.value := info];
      }
    }

    /** `reset()`. */
    method Reset()
      modifies this
      ensures downloads == [] && !stopDownloads
    {
      stopDownloads := false;
      downloads := [];
    }

    /** `download(file:)` of the beginner starter: fails when the URL
        cannot be built (`urlBuilds` is false), and otherwise returns empty
        data without touching the list. */
    method Download(file: DownloadFile, urlBuilds: bool) returns (r: Result<seq<bv8>>)
      ensures !urlBuilds ==> r == Err(Message("Could not create the URL."))
      ensures urlBuilds ==> r == Ok([])
    {
      if !urlBuilds {
        return Err(Message("Could not create the URL."));
      }
      r := Ok([]);
    }

    /** `downloadWithProgress(fileName:name:size:offset:)` of the
        async-sequence final: the download is listed, the response status is
        checked (206 for a ranged request, 200 otherwise), and the bytes
        arriving in `stream` are collected batch by batch until the stream
        ends or the stop flag is seen, which happens before batch number
        `stopAfter` when that is given. A stopped download is cancelled
        unless partial downloads are supported; otherwise the bytes received
        are returned. `id` is the new entry's `UUID()`. The accumulator is
        sized for `size` bytes and a longer stream would trap. */
    method DownloadWithProgress(fileName: string, name: string, size: int, offset: Option<int>,
                                status: int, stream: seq<bv8>, stopAfter: Option<nat>,
                                supportsPartialDownloads: bool, id: nat)
      returns (r: Result<seq<bv8>>)
      requires 0 <= |stream| <= size
      modifies this
      ensures downloads == old(downloads) + [DownloadInfo(id, name, 0.0)]
      ensures status != (if offset.Some? then 206 else 200) ==>
                r == Err(Message("The server responded with an error."))
      ensures status == (if offset.Some? then 206 else 200) ==>
                (r.Err? <==> stopDownloads && !supportsPartialDownloads)
                && (r.Err? ==> r.error == Cancelled)
                && (r.Ok? ==> |r.value| <= |stream| && r.value == stream[..|r.value|])
                && (r.Ok? && !stopDownloads ==> r.value == stream)
      ensures !old(stopDownloads) && stopAfter.None? ==> !stopDownloads
    {
      AddDownload(name, id);
      if status != (if offset.Some? then 206 else 200) {
        return Err(Message("The server responded with an error."));
      }
      var accumulator := new ByteAccumulator(fileName, size);
      var batches: nat := 0;
      var going := true;
      while going
        invariant accumulator.Valid() && fresh(accumulator.bytes)
        invariant accumulator.offset <= |stream| && accumulator.appended == stream[..accumulator.offset]
        invariant !going ==> stopDownloads || accumulator.offset == |stream|
        invariant downloads == old(downloads) + [DownloadInfo(id, name, 0.0)]
        invariant !old(stopDownloads) && stopAfter.None? ==> !stopDownloads
        decreases |stream| - accumulator.offset, going
      {
        if stopAfter == Some(batches) {
          stopDownloads := true;
        }
        if stopDownloads {
          going := false;
        } else {
          var end := if accumulator.offset + accumulator.chunkCount <= |stream|
                     then accumulator.offset + accumulator.chunkCount else |stream|;
          var block := stream[accumulator.offset..end];
          var appended := accumulator.Batch(block, None);
          assert stream[..end] == stream[..accumulator.offset - |block|] + block;
          batches := batches + 1;
          going := appended.value;
        }
      }
      if stopDownloads && !supportsPartialDownloads {
        return Err(Cancelled);
      }
      r := Ok(accumulator.bytes[..accumulator.offset]);
    }
  }
}
