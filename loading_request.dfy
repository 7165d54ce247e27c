/** The adapter between one platform loading request (AVFoundation's
    AVAssetResourceLoadingRequest) and the downloader of its resource
    (SandPlayerResourceLoadingRequest). It starts a download for the requested
    range, relays the downloaded bytes to the platform request, fills the
    request's content information from the cached media, and finishes the
    request when the download ends or its loader gives it up. */
module LoadingRequest {
  import opened Common

  /** Code of the error a request is finished with when its loader gives it up. */
  const LoaderCancelled: int := -3

  /** The platform request's dataRequest part. */
  datatype DataRequest = DataRequest(requestedOffset: int, requestedLength: int, currentOffset: int, toEnd: bool)

  /** What the media store knows of the resource (the downloader's `cacheMedia`). */
  datatype CacheMedia = CacheMedia(contentType: Option<string>, contentLength: int, byteRangeAccessSupported: bool)

  /** The fixed part of a platform loading request: `id` stands for the
      object's identity, `url` for `request.url?.absoluteString`, `headers`
      for `request.allHTTPHeaderFields`, and `hasContentInfo` for a non-nil
      `contentInformationRequest`. What the request is told later is
      recorded in the host log. */
  datatype PlatformRequest = PlatformRequest(id: nat, url: Option<string>, headers: map<string, string>,
                                             dataRequest: Option<DataRequest>, hasContentInfo: bool)

  /** Every call the caching layer makes on the platform requests, on the
      downloaders (named by their resource URL) and on the manager's own
      delegate, in the order made. */
  datatype HostEvent =
    // on a platform request
    | SetContentInfo(request: nat, contentType: string, contentLength: int, byteRangeAccessSupported: bool)
    | FinishLoading(request: nat, error: Option<int>)
    | Respond(request: nat, data: seq<byte>)
    // on a downloader
    | DownloaderTask(downloader: string, offset: int, length: int, toEnd: bool)
    | DownloaderCancel(downloader: string)
    // on the loader manager's delegate
    | LoaderFailed(url: string, code: int)

  /** `request.isFinished`: the request has been told to finish. */
  predicate IsFinished(log: seq<HostEvent>, id: nat)
    decreases |log|
  {
    log != [] &&
    ((log[|log| - 1].FinishLoading? && log[|log| - 1].request == id) || IsFinished(log[..|log| - 1], id))
  }

  /** A log extended by more calls records a finish exactly when one of its
      two parts does. */
  lemma {:induction false} FinishedAppend(a: seq<HostEvent>, b: seq<HostEvent>, id: nat)
    ensures IsFinished(a + b, id) <==> IsFinished(a, id) || IsFinished(b, id)
    decreases |b|
  {
    if b == [] {
      assert a + b == a;
    } else {
      DropLastAppend(a, b);
      FinishedAppend(a, b[..|b| - 1], id);
    }
  }

  /** A single finish call finishes exactly its own request. */
  lemma FinishedOne(e: HostEvent, id: nat)
    ensures IsFinished([e], id) <==> e.FinishLoading? && e.request == id
  {
    assert [e][..0] == [];
  }

  /** `finish`: an unfinished request is finished with the loader-cancelled error. */
  function FinishEvents(log: seq<HostEvent>, r: PlatformRequest): seq<HostEvent> {
    if IsFinished(log, r.id) then [] else [FinishLoading(r.id, Some(LoaderCancelled))]
  }

  /** `finish` leaves the request finished, finishes it at most once, touches
      no other request, and a second `finish` does nothing. */
  lemma FinishIdempotent(log: seq<HostEvent>, r: PlatformRequest)
    ensures FinishEvents(log, r) == [] <==> IsFinished(log, r.id)
    ensures FinishEvents(log, r) != [] ==> FinishEvents(log, r) == [FinishLoading(r.id, Some(LoaderCancelled))]
    ensures IsFinished(log + FinishEvents(log, r), r.id)
    ensures FinishEvents(log + FinishEvents(log, r), r) == []
    ensures forall id :: id != r.id ==> (IsFinished(log + FinishEvents(log, r), id) <==> IsFinished(log, id))
  {
    var events := FinishEvents(log, r);
    FinishedAppend(log, events, r.id);
    if events != [] {
      FinishedOne(FinishLoading(r.id, Some(LoaderCancelled)), r.id);
    }
    forall id | id != r.id
      ensures IsFinished(log + events, id) <==> IsFinished(log, id)
    {
      FinishedAppend(log, events, id);
      if events != [] {
        FinishedOne(FinishLoading(r.id, Some(LoaderCancelled)), id);
      }
    }
  }

  /** The downloader call of `startWork`. */
  datatype Task = Task(offset: int, length: int, toEnd: bool)

  /** The range `startWork` asks the downloader for: none without a data
      request; otherwise from where the data request currently stands (its
      requested offset while `currentOffset` is still 0), for the requested
      length, to the end of the resource when the request asks for all data. */
  function StartTask(r: PlatformRequest): (t: Option<Task>)
    ensures t.None? <==> r.dataRequest.None?
    ensures t.Some? ==> t.value.length == r.dataRequest.value.requestedLength
    ensures t.Some? ==> t.value.toEnd == r.dataRequest.value.toEnd
    ensures t.Some? && r.dataRequest.value.currentOffset != 0 ==> t.value.offset == r.dataRequest.value.currentOffset
    ensures t.Some? && r.dataRequest.value.currentOffset == 0 ==> t.value.offset == r.dataRequest.value.requestedOffset
  {
    match r.dataRequest
    case None => None
    case Some(d) =>
      var offset := if d.currentOffset != 0 then d.currentOffset else d.requestedOffset;
      Some(Task(offset, d.requestedLength, d.toEnd))
  }

  function TaskEvents(downloader: string, t: Option<Task>): seq<HostEvent> {
    match t
    case None => []
    case Some(t) => [DownloaderTask(downloader, t.offset, t.length, t.toEnd)]
  }

  /** `fillCacheMedia`: the content information is filled only when the media
      has a content type and the request asks for content information. */
  function ContentInfoEvents(r: PlatformRequest, media: Option<CacheMedia>): seq<HostEvent> {
    if r.hasContentInfo && media.Some? && media.value.contentType.Some? then
      [SetContentInfo(r.id, media.value.contentType.value, media.value.contentLength, media.value.byteRangeAccessSupported)]
    else []
  }

  /** Filling copies all three fields from the media, to this request only,
      and never finishes or answers the request. */
  lemma ContentInfoCopied(log: seq<HostEvent>, r: PlatformRequest, media: Option<CacheMedia>)
    ensures ContentInfoEvents(r, media) != [] <==> r.hasContentInfo && media.Some? && media.value.contentType.Some?
    ensures forall e :: e in ContentInfoEvents(r, media) ==>
      e == SetContentInfo(r.id, media.value.contentType.value, media.value.contentLength, media.value.byteRangeAccessSupported)
    ensures forall id :: IsFinished(log + ContentInfoEvents(r, media), id) <==> IsFinished(log, id)
  {
    var events := ContentInfoEvents(r, media);
    forall id
      ensures IsFinished(log + events, id) <==> IsFinished(log, id)
    {
      FinishedAppend(log, events, id);
      if events != [] {
        FinishedOne(events[0], id);
        assert events == [events[0]];
      }
    }
  }

  /** `downloader(_:didReceiveData:)`: the chunk goes to the data request, if any. */
  function DataEvents(r: PlatformRequest, data: seq<byte>): seq<HostEvent> {
    if r.dataRequest.Some? then [Respond(r.id, data)] else []
  }

  /** The chunks request `id` has been answered with, in order. */
  function Responded(log: seq<HostEvent>, id: nat): seq<seq<byte>>
    decreases |log|
  {
    if log == [] then []
    else
      var e := log[|log| - 1];
      Responded(log[..|log| - 1], id) + (if e.Respond? && e.request == id then [e.data] else [])
  }

  lemma {:induction false} RespondedAppend(a: seq<HostEvent>, b: seq<HostEvent>, id: nat)
    ensures Responded(a + b, id) == Responded(a, id) + Responded(b, id)
    decreases |b|
  {
    if b == [] {
      assert a + b == a;
    } else {
      var e := b[|b| - 1];
      var tail := if e.Respond? && e.request == id then [e.data] else [];
      DropLastAppend(a, b);
      RespondedAppend(a, b[..|b| - 1], id);
      assert Responded(b, id) == Responded(b[..|b| - 1], id) + tail;
      AppendAssoc(Responded(a, id), Responded(b[..|b| - 1], id), tail);
    }
  }

  /** The log after one data callback per chunk, in arrival order. */
  function Relay(log: seq<HostEvent>, r: PlatformRequest, chunks: seq<seq<byte>>): seq<HostEvent>
    decreases |chunks|
  {
    if chunks == [] then log
    else Relay(log + DataEvents(r, chunks[0]), r, chunks[1..])
  }

  /** Chunks reach the data request unchanged and in arrival order; a request
      without a data request is answered nothing. */
  lemma {:induction false} RelayInOrder(log: seq<HostEvent>, r: PlatformRequest, chunks: seq<seq<byte>>)
    ensures Responded(Relay(log, r, chunks), r.id) ==
      Responded(log, r.id) + (if r.dataRequest.Some? then chunks else [])
    decreases |chunks|
  {
    if chunks == [] {
      assert Responded(log, r.id) + [] == Responded(log, r.id);
    } else {
      var next := log + DataEvents(r, chunks[0]);
      RelayInOrder(next, r, chunks[1..]);
      RespondedAppend(log, DataEvents(r, chunks[0]), r.id);
      if r.dataRequest.Some? {
        assert Responded(DataEvents(r, chunks[0]), r.id) == Responded([], r.id) + [chunks[0]];
        AppendAssoc(Responded(log, r.id), [chunks[0]], chunks[1..]);
        assert [chunks[0]] + chunks[1..] == chunks;
      } else {
        assert Responded(DataEvents(r, chunks[0]), r.id) == [];
        assert Responded(log, r.id) + [] == Responded(log, r.id);
      }
    }
  }

  /** A download error that the adapter swallows: any error whose code is
      NSURLErrorCancelled. */
  predicate Swallowed(error: Option<int>) {
    error == Some(UrlErrorCancelled)
  }

  /** `downloader(_:didFinishedWithError:)`: the request is finished, plainly
      or with the error, unless the error is a cancellation. */
  function CompletionEvents(r: PlatformRequest, error: Option<int>): seq<HostEvent> {
    if Swallowed(error) then [] else [FinishLoading(r.id, error)]
  }

  /** A cancelled download leaves the request as it was; any other outcome
      finishes exactly this request, with exactly the download's error. */
  lemma CompletionOutcome(log: seq<HostEvent>, r: PlatformRequest, error: Option<int>)
    ensures Swallowed(error) ==> log + CompletionEvents(r, error) == log
    ensures !Swallowed(error) ==> IsFinished(log + CompletionEvents(r, error), r.id)
    ensures !Swallowed(error) ==> log + CompletionEvents(r, error) == log + [FinishLoading(r.id, error)]
    ensures error.None? ==> !Swallowed(error)
  {
    if Swallowed(error) {
      assert log + [] == log;
    } else {
      FinishedAppend(log, [FinishLoading(r.id, error)], r.id);
      FinishedOne(FinishLoading(r.id, error), r.id);
    }
  }

  /** The calls out of the caching layer, in order. */
  class Host {
    var log: seq<HostEvent>

    constructor ()
      ensures log == []
    {
      log := [];
    }
  }

  /** SandPlayerDownloader, which is not part of this model: what the adapter
      uses of it is its URL and its cached media. Its delegate slot is kept
      by the resource loader that owns it, and calls on it are recorded in
      the host log. */
  class Downloader {
    const url: string
    var cacheMedia: Option<CacheMedia>

    constructor (url: string)
      ensures this.url == url && cacheMedia == None
    {
      this.url := url;
      cacheMedia := None;
    }
  }

  /** SandPlayerResourceLoadingRequest. `relays` says whether its delegate
      (the resource loader) is set. */
  class ResourceLoadingRequest {
    const request: PlatformRequest
    const downloader: Downloader
    const host: Host
    var relays: bool

    /** `init`: the adapter fills the request's content information. (It also
        makes itself the downloader's delegate; the loader that creates it
        records that.) */
    constructor (downloader: Downloader, request: PlatformRequest, host: Host)
      modifies host
      ensures this.request == request && this.downloader == downloader && this.host == host && !relays
      ensures host.log == old(host.log) + ContentInfoEvents(request, downloader.cacheMedia)
    {
      this.downloader := downloader;
      this.request := request;
      this.host := host;
      relays := false;
      new;
      FillCacheMedia();
    }

    method FillCacheMedia()
      modifies host
      ensures host.log == old(host.log) + ContentInfoEvents(request, downloader.cacheMedia)
    {
      var media := downloader.cacheMedia;
      if media.Some? && media.value.contentType.Some? {
        if request.hasContentInfo {
          var info := SetContentInfo(request.id, media.value.contentType.value, media.value.contentLength,
                                     media.value.byteRangeAccessSupported);
          host.log := host.log + [info];
        }
      }
    }

    method Finish()
      modifies host
      ensures host.log == old(host.log) + FinishEvents(old(host.log), request)
    {
      if !IsFinished(host.log, request.id) {
        host.log := host.log + [FinishLoading(request.id, Some(LoaderCancelled))];
      }
    }

    method StartWork()
      modifies host
      ensures host.log == old(host.log) + TaskEvents(downloader.url, StartTask(request))
    {
      if request.dataRequest.Some? {
        var dataRequest := request.dataRequest.value;
        var offset := dataRequest.requestedOffset;
        var length := dataRequest.requestedLength;
        if dataRequest.currentOffset != 0 {
          offset := dataRequest.currentOffset;
        }
        var isEnd := false;
        if dataRequest.toEnd {
          isEnd := true;
        }
        host.log := host.log + [DownloaderTask(downloader.url, offset, length, isEnd)];
      }
    }

    method Cancel()
      modifies host
      ensures host.log == old(host.log) + [DownloaderCancel(downloader.url)]
    {
      host.log := host.log + [DownloaderCancel(downloader.url)];
    }

    method DidReceiveData(data: seq<byte>)
      modifies host
      ensures host.log == old(host.log) + DataEvents(request, data)
    {
      if request.dataRequest.Some? {
        host.log := host.log + [Respond(request.id, data)];
      }
    }

    /** Returns whether the delegate was told of the completion. */
    method DidFinish(error: Option<int>) returns (notified: bool)
      modifies host
      ensures host.log == old(host.log) + CompletionEvents(request, error)
      ensures notified <==> !Swallowed(error) && relays
    {
      if error == Some(UrlErrorCancelled) {
        return false;
      }
      host.log := host.log + [FinishLoading(request.id, error)];
      notified := relays;
    }

    method DidReceiveResponse()
      modifies host
      ensures host.log == old(host.log) + ContentInfoEvents(request, downloader.cacheMedia)
    {
      FillCacheMedia();
    }
  }
}
