/** The per-resource loader (SandPlayerResourceLoader): it owns the
    resource's downloader and keeps the adapters of the loading requests it
    is serving, keyed by URL and Range header. A new request supersedes
    every pending one. */
module ResourceLoader {
  import opened Common
  import opened Strings
  import opened LoadingRequest

  /** `key(forRequest:)`: the URL string followed by the Range header when
      there is one. The URL and the header dictionary are force-unwrapped,
      so a request without a URL is outside what the loader accepts. */
  function RequestKey(r: PlatformRequest): (k: string)
    requires r.url.Some?
    ensures StartsWith(k, r.url.value)
    ensures "Range" in r.headers ==> k[|r.url.value|..] == r.headers["Range"]
    ensures "Range" !in r.headers ==> k == r.url.value
  {
    if "Range" in r.headers then r.url.value + r.headers["Range"] else r.url.value
  }

  /** Two requests for the same URL, both with a Range header, share a key
      exactly when they ask for the same range. */
  lemma RequestKeySeparatesRanges(a: PlatformRequest, b: PlatformRequest)
    requires a.url.Some? && a.url == b.url && "Range" in a.headers && "Range" in b.headers
    ensures RequestKey(a) == RequestKey(b) <==> a.headers["Range"] == b.headers["Range"]
  {
    if RequestKey(a) == RequestKey(b) {
      PeelPrefix(a.url.value, a.headers["Range"], b.headers["Range"]);
    }
  }

  /** The request of the one pending adapter, if there is one. */
  ghost function OnlyRequest(pending: map<string, ResourceLoadingRequest>): (r: Option<PlatformRequest>)
    requires |pending| <= 1
    ensures r.None? <==> pending == map[]
    ensures forall k :: k in pending ==> r == Some(pending[k].request)
  {
    if pending == map[] then None
    else
      var k :| k in pending;
      SingleKey(pending, k);
      Some(pending[k].request)
  }

  /** What `add` does to the pending adapter, if any: its download is
      cancelled, then the request is finished unless it already is. */
  function SupersedeEvents(url: string, log: seq<HostEvent>, prev: Option<PlatformRequest>): seq<HostEvent> {
    match prev
    case None => []
    case Some(p) => [DownloaderCancel(url)] + FinishEvents(log + [DownloaderCancel(url)], p)
  }

  /** Superseding finishes the previous request and leaves it finished; a
      second superseding of it would only cancel again. */
  lemma SupersedeFinishes(url: string, log: seq<HostEvent>, p: PlatformRequest)
    ensures IsFinished(log + SupersedeEvents(url, log, Some(p)), p.id)
    ensures IsFinished(log, p.id) ==> SupersedeEvents(url, log, Some(p)) == [DownloaderCancel(url)]
    ensures !IsFinished(log, p.id) ==>
      SupersedeEvents(url, log, Some(p)) == [DownloaderCancel(url), FinishLoading(p.id, Some(LoaderCancelled))]
  {
    var log1 := log + [DownloaderCancel(url)];
    FinishIdempotent(log1, p);
    FinishedAppend(log, [DownloaderCancel(url)], p.id);
    FinishedOne(DownloaderCancel(url), p.id);
    AppendAssoc(log, [DownloaderCancel(url)], FinishEvents(log1, p));
  }

  /** What `startWorker` makes the platform and the downloader do: the new
      adapter fills the request's content information, then starts the download. */
  function StartWorkerEvents(url: string, r: PlatformRequest, media: Option<CacheMedia>): seq<HostEvent> {
    ContentInfoEvents(r, media) + TaskEvents(url, StartTask(r))
  }

  /** What `remove` makes the platform do: a fresh adapter fills the request's
      content information, then finishes the request unless it already is. */
  function RemoveEvents(log: seq<HostEvent>, r: PlatformRequest, media: Option<CacheMedia>): seq<HostEvent> {
    ContentInfoEvents(r, media) + FinishEvents(log + ContentInfoEvents(r, media), r)
  }

  /** `remove` always leaves the request finished, and only finishes it with
      the loader-cancelled error when nothing finished it before. */
  lemma RemoveFinishes(log: seq<HostEvent>, r: PlatformRequest, media: Option<CacheMedia>)
    ensures IsFinished(log + RemoveEvents(log, r, media), r.id)
    ensures FinishLoading(r.id, Some(LoaderCancelled)) in RemoveEvents(log, r, media) <==> !IsFinished(log, r.id)
  {
    var ci := ContentInfoEvents(r, media);
    ContentInfoCopied(log, r, media);
    FinishIdempotent(log + ci, r);
    AppendAssoc(log, ci, FinishEvents(log + ci, r));
    assert FinishLoading(r.id, Some(LoaderCancelled)) !in ci;
  }

  class Loader {
    const url: string
    const downloader: Downloader
    const host: Host
    var pending: map<string, ResourceLoadingRequest>
    /** The downloader's delegate: the adapter created last. */
    var delegate: Option<ResourceLoadingRequest>

    /** At most one request is pending, each under its own key, and every
        adapter the loader made works on its downloader and host. */
    ghost predicate Valid()
      reads this
    {
      && downloader.url == url
      && |pending| <= 1
      && (forall k :: k in pending ==>
            && pending[k].downloader == downloader && pending[k].host == host
            && pending[k].request.url.Some? && RequestKey(pending[k].request) == k)
      && (delegate.Some? ==>
            delegate.value.downloader == downloader && delegate.value.host == host
            && delegate.value.request.url.Some?)
    }

    constructor (url: string, host: Host)
      ensures Valid() && fresh(downloader)
      ensures this.url == url && this.host == host && pending == map[] && delegate == None
      ensures downloader.cacheMedia == None
    {
      this.url := url;
      this.host := host;
      downloader := new Downloader(url);
      pending := map[];
      delegate := None;
    }

    /** `add`: every pending request is cancelled and finished, then the new
        one is the only pending request, served by a fresh adapter that
        relays its completion. */
    method Add(r: PlatformRequest)
      requires Valid() && r.url.Some?
      modifies this, host
      ensures Valid()
      ensures pending.Keys == {RequestKey(r)}
      ensures fresh(pending[RequestKey(r)]) && pending[RequestKey(r)].request == r && pending[RequestKey(r)].relays
      ensures delegate == Some(pending[RequestKey(r)])
      ensures downloader.cacheMedia == old(downloader.cacheMedia)
      ensures var log1 := old(host.log) + SupersedeEvents(url, old(host.log), old(OnlyRequest(pending)));
        host.log == log1 + StartWorkerEvents(url, r, downloader.cacheMedia)
    {
      ghost var log0 := host.log;
      ghost var prev := OnlyRequest(pending);
      var keys := pending.Keys;
      while keys != {}
        invariant keys == {} || keys == pending.Keys
        invariant keys == pending.Keys ==> host.log == log0
        invariant keys == {} ==> host.log == log0 + SupersedeEvents(url, log0, prev)
        invariant Valid() && downloader.cacheMedia == old(downloader.cacheMedia)
        invariant pending == old(pending)
        decreases |keys|
      {
        var k :| k in keys;
        var value := pending[k];
        value.Cancel();
        value.Finish();
        SingleKey(pending, k);
        AppendAssoc(log0, [DownloaderCancel(url)], FinishEvents(log0 + [DownloaderCancel(url)], value.request));
        keys := keys - {k};
      }
      ghost var log1 := host.log;
      pending := map[];
      StartWorker(r);
      AppendAssoc(log1, ContentInfoEvents(r, downloader.cacheMedia), TaskEvents(url, StartTask(r)));
    }

    /** `remove`: a fresh adapter, which takes over the downloader and does not
        relay completions, finishes the request; the request's key, and only
        that key, leaves the pending map. */
    method Remove(r: PlatformRequest)
      requires Valid() && r.url.Some?
      modifies this, host
      ensures Valid()
      ensures pending == old(pending) - {RequestKey(r)}
      ensures delegate.Some? && fresh(delegate.value)
      ensures delegate.value.request == r && !delegate.value.relays
      ensures downloader.cacheMedia == old(downloader.cacheMedia)
      ensures host.log == old(host.log) + RemoveEvents(old(host.log), r, downloader.cacheMedia)
    {
      var key := RequestKey(r);
      var loadingRequest := new ResourceLoadingRequest(downloader, r, host);
      delegate := Some(loadingRequest);
      ghost var log1 := host.log;
      loadingRequest.Finish();
      AppendAssoc(old(host.log), ContentInfoEvents(r, downloader.cacheMedia), FinishEvents(log1, r));
      pending := pending - {key};
    }

    /** `cancel`: only the download is cancelled; no request leaves the map. */
    method Cancel()
      modifies host
      ensures host.log == old(host.log) + [DownloaderCancel(url)]
    {
      host.log := host.log + [DownloaderCancel(url)];
    }

    method StartWorker(r: PlatformRequest)
      requires Valid() && r.url.Some? && pending == map[]
      modifies this, host
      ensures Valid()
      ensures pending.Keys == {RequestKey(r)}
      ensures fresh(pending[RequestKey(r)]) && pending[RequestKey(r)].request == r && pending[RequestKey(r)].relays
      ensures delegate == Some(pending[RequestKey(r)])
      ensures downloader.cacheMedia == old(downloader.cacheMedia)
      ensures host.log == old(host.log) + StartWorkerEvents(url, r, downloader.cacheMedia)
    {
      var key := RequestKey(r);
      var loadingRequest := new ResourceLoadingRequest(downloader, r, host);
      delegate := Some(loadingRequest);
      loadingRequest.relays := true;
      pending := pending[key := loadingRequest];
      loadingRequest.StartWork();
    }

    /** The downloader delivers a chunk to its current delegate. */
    method DownloaderDidReceiveData(data: seq<byte>)
      requires Valid()
      modifies host
      ensures host.log == old(host.log) +
        (if delegate.Some? then DataEvents(delegate.value.request, data) else [])
    {
      if delegate.Some? {
        delegate.value.DidReceiveData(data);
      }
    }

    /** The downloader delivers a response to its current delegate. */
    method DownloaderDidReceiveResponse()
      requires Valid()
      modifies host
      ensures host.log == old(host.log) +
        (if delegate.Some? then ContentInfoEvents(delegate.value.request, downloader.cacheMedia) else [])
    {
      if delegate.Some? {
        delegate.value.DidReceiveResponse();
      }
    }

    /** The downloader reports the end of its download to its current
        delegate. A relaying adapter that is told (anything but a cancellation)
        makes the loader remove its request (`resourceLoadingRequest(_:didCompleteWithError:)`);
        the error, if any, is returned as the failure the loader reports to
        its own delegate. */
    method DownloaderDidFinish(error: Option<int>) returns (failure: Option<int>)
      requires Valid()
      modifies this, host
      ensures Valid()
      ensures downloader.cacheMedia == old(downloader.cacheMedia)
      ensures old(delegate).None? ==>
        failure.None? && pending == old(pending) && host.log == old(host.log)
      ensures old(delegate).Some? ==>
        var w := old(delegate).value;
        var log1 := old(host.log) + CompletionEvents(w.request, error);
        if Swallowed(error) || !old(w.relays) then
          failure.None? && pending == old(pending) && host.log == log1
        else
          failure == error && pending == old(pending) - {RequestKey(w.request)}
          && host.log == log1 + RemoveEvents(log1, w.request, downloader.cacheMedia)
    {
      failure := None;
      if delegate.Some? {
        var w := delegate.value;
        var notified := w.DidFinish(error);
        if notified {
          Remove(w.request);
          if error.Some? {
            failure := error;
          }
        }
      }
    }
  }
}
