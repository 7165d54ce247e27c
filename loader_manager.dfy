/** The resource-loader delegate of the player's assets
    (SandPlayerResourceLoaderManager). Assets are opened under a synthetic
    URL, the original URL with a private scheme prefix in front, so that the
    platform asks this manager for their bytes. The manager keeps one
    resource loader per synthetic URL, created on the first request for it. */
module LoaderManager {
  import opened Common
  import opened Strings
  import opened LoadingRequest
  import opened ResourceLoader

  /** `kCacheScheme`. */
  const Scheme: string := "VGPlayerMideaCache"

  /** `key(forResourceLoaderWithURL:)`: a URL string is a loader key exactly
      when it carries the scheme prefix, and then it is its own key. */
  function LoaderKey(url: string): (k: Option<string>)
    ensures k.Some? <==> StartsWith(url, Scheme)
    ensures k.Some? ==> k.value == url
  {
    if StartsWith(url, Scheme) then Some(url) else None
  }

  /** `assetURL`: the scheme prefixed to the URL string; nil stays nil. */
  function AssetUrl(url: Option<string>): (a: Option<string>)
    ensures a.Some? <==> url.Some?
    ensures a.Some? ==> StartsWith(a.value, Scheme) && a.value[|Scheme|..] == url.value
  {
    match url
    case None => None
    case Some(u) => Some(Scheme + u)
  }

  /** Every synthetic URL has a loader key. */
  lemma AssetUrlHasLoaderKey(url: string)
    ensures LoaderKey(AssetUrl(Some(url)).value) == AssetUrl(Some(url))
  {
  }

  /** The URL a new loader downloads from: every occurrence of the scheme
      removed from the synthetic URL. */
  function OriginUrl(url: string): string {
    ReplaceAll(url, Scheme, "")
  }

  /** Stripping undoes prefixing exactly when the original URL does not
      itself contain the scheme string. */
  lemma OriginOfAssetUrl(url: string)
    ensures OriginUrl(AssetUrl(Some(url)).value) == url <==> !Contains(url, Scheme)
  {
    var a := Scheme + url;
    assert StartsWith(a, Scheme) && a[|Scheme|..] == url;
    assert OriginUrl(a) == ReplaceAll(url, Scheme, "");
    RemoveAllIdentityIff(url, Scheme);
  }

  /** A URL that contains the scheme somewhere after its start is not given
      back by stripping. */
  lemma OriginLosesInnerScheme(rest: string)
    ensures OriginUrl(AssetUrl(Some(Scheme + rest)).value) != Scheme + rest
  {
    assert StartsWith(Scheme + rest, Scheme);
    OriginOfAssetUrl(Scheme + rest);
  }

  /** The downloader cancellations of `cancelLoaders`, in the order the
      dictionary yields its loaders. */
  function CancelEvents(loaders: map<string, Loader>, order: seq<string>): (es: seq<HostEvent>)
    requires forall i :: 0 <= i < |order| ==> order[i] in loaders
    ensures |es| == |order|
    ensures forall i :: 0 <= i < |order| ==> es[i] == DownloaderCancel(loaders[order[i]].url)
    decreases |order|
  {
    if order == [] then []
    else CancelEvents(loaders, order[..|order| - 1]) + [DownloaderCancel(loaders[order[|order| - 1]].url)]
  }

  lemma CancelEventsSnoc(loaders: map<string, Loader>, order: seq<string>, k: string)
    requires forall i :: 0 <= i < |order| ==> order[i] in loaders
    requires k in loaders
    ensures CancelEvents(loaders, order + [k]) == CancelEvents(loaders, order) + [DownloaderCancel(loaders[k].url)]
  {
    assert (order + [k])[..|order|] == order;
  }

  /** `order` lists every key of the dictionary once. */
  predicate Enumerates(keys: set<string>, order: seq<string>) {
    && (forall k :: k in keys ==> k in order)
    && (forall i :: 0 <= i < |order| ==> order[i] in keys)
    && (forall i, j :: 0 <= i < j < |order| ==> order[i] != order[j])
  }

  /** Part way through enumerating `all`: `order` lists, once each, the keys
      already visited, and `keys` holds those still to visit. */
  predicate EnumeratedSoFar(all: set<string>, keys: set<string>, order: seq<string>) {
    && keys <= all
    && (forall k :: k in all && k !in keys ==> k in order)
    && (forall i :: 0 <= i < |order| ==> order[i] in all && order[i] !in keys)
    && (forall i, j :: 0 <= i < j < |order| ==> order[i] != order[j])
  }

  lemma EnumerationStep(all: set<string>, keys: set<string>, order: seq<string>, k: string)
    requires EnumeratedSoFar(all, keys, order) && k in keys
    ensures EnumeratedSoFar(all, keys - {k}, order + [k])
  {
    var o := order + [k];
    assert forall i :: 0 <= i < |order| ==> o[i] == order[i];
  }

  /** The loop of `cancelLoaders`: each loader of the dictionary cancels its
      download, in the dictionary's order. */
  method CancelEach(all: map<string, Loader>, host: Host) returns (ghost order: seq<string>)
    requires forall k :: k in all ==> all[k].host == host
    modifies host
    ensures Enumerates(all.Keys, order)
    ensures host.log == old(host.log) + CancelEvents(all, order)
  {
    var keys := all.Keys;
    order := [];
    while keys != {}
      invariant EnumeratedSoFar(all.Keys, keys, order)
      invariant host.log == old(host.log) + CancelEvents(all, order)
      decreases keys
    {
      var k :| k in keys;
      all[k].Cancel();
      EnumerationStep(all.Keys, keys, order, k);
      CancelEventsSnoc(all, order, k);
      AppendAssoc(old(host.log), CancelEvents(all, order), [DownloaderCancel(all[k].url)]);
      order := order + [k];
      keys := keys - {k};
    }
  }

  class Manager {
    const host: Host
    var loaders: map<string, Loader>
    /** The loaders the manager holds. */
    ghost var Repr: set<Loader>

    /** The loader under `key`, as a frame: itself, or nothing. */
    ghost function LoaderAt(key: string): set<Loader>
      reads this
    {
      if key in loaders then {loaders[key]} else {}
    }

    /** Every loader sits under a synthetic URL, downloads from its stripped
        form and reports to the manager's host; distinct keys hold distinct
        loaders. */
    ghost predicate KeysOk()
      reads this
    {
      && (forall k :: k in loaders ==>
            && StartsWith(k, Scheme) && loaders[k].url == OriginUrl(k) && loaders[k].host == host
            && loaders[k] in Repr)
      && (forall k1, k2 :: k1 in loaders && k2 in loaders && k1 != k2 ==>
            loaders[k1] != loaders[k2])
    }

    ghost predicate LoadersValid()
      requires KeysOk()
      reads this, Repr
    {
      forall k :: k in loaders ==> loaders[k].Valid()
    }

    ghost predicate Valid()
      reads this, Repr
    {
      KeysOk() && LoadersValid()
    }

    constructor (host: Host)
      ensures Valid() && this.host == host && loaders == map[]
    {
      this.host := host;
      loaders := map[];
      Repr := {};
    }

    /** `loader(forRequest:)`. The request URL is force-unwrapped. */
    function LoaderFor(r: PlatformRequest): (l: Option<Loader>)
      requires r.url.Some?
      reads this
      ensures l.Some? <==> StartsWith(r.url.value, Scheme) && r.url.value in loaders
      ensures l.Some? ==> l == Some(loaders[r.url.value])
    {
      match LoaderKey(r.url.value)
      case None => None
      case Some(k) => if k in loaders then Some(loaders[k]) else None
    }

    /** The lookup-or-create step of `shouldWaitForLoadingOfRequestedResource`:
        a missing loader is created for the stripped URL and stored under the
        synthetic one. */
    method LoaderForKey(key: string) returns (l: Loader)
      requires Valid() && StartsWith(key, Scheme)
      modifies this
      ensures Valid() && key in loaders && l == loaders[key]
      ensures key in old(loaders) ==> loaders == old(loaders)
      ensures key !in old(loaders) ==>
        && loaders == old(loaders)[key := l] && fresh(l) && fresh(l.downloader)
        && l.url == OriginUrl(key) && l.pending == map[] && l.downloader.cacheMedia == None
    {
      if key in loaders {
        l := loaders[key];
      } else {
        var originUrl := ReplaceAll(key, Scheme, "");
        l := new Loader(originUrl, host);
        loaders := loaders[key := l];
        Repr := Repr + {l};
      }
    }

    /** `loader?.add(loadingRequest)` on the loader under `key`. */
    method AddTo(key: string, r: PlatformRequest)
      requires Valid() && key in loaders && r.url.Some?
      modifies host, loaders[key]
      ensures Valid()
      ensures var l := loaders[key];
        && l.pending.Keys == {RequestKey(r)} && l.pending[RequestKey(r)].request == r
        && l.downloader.cacheMedia == old(l.downloader.cacheMedia)
        && host.log == old(host.log) + SupersedeEvents(l.url, old(host.log), old(OnlyRequest(l.pending)))
                       + StartWorkerEvents(l.url, r, l.downloader.cacheMedia)
    {
      var l := loaders[key];
      l.Add(r);
      forall k | k in loaders
        ensures loaders[k].Valid()
      {
        if k != key {
          assert loaders[k] != l;
        }
      }
    }

    /** `resourceLoader(_:shouldWaitForLoadingOfRequestedResource:)`: a request
        for a synthetic URL is accepted and added to the loader under that
        URL, which is created on the first such request; any other request is
        declined and changes nothing. No other loader is touched. */
    method ShouldWait(r: PlatformRequest) returns (wait: bool)
      requires Valid()
      modifies this, host, if r.url.Some? then LoaderAt(r.url.value) else {}
      ensures Valid()
      ensures wait <==> r.url.Some? && StartsWith(r.url.value, Scheme)
      ensures !wait ==> loaders == old(loaders) && host.log == old(host.log)
      ensures wait ==> r.url.value in loaders
      ensures wait ==>
        var l := loaders[r.url.value];
        l.pending.Keys == {RequestKey(r)} && l.pending[RequestKey(r)].request == r
      ensures wait && r.url.value in old(loaders) ==>
        var l := loaders[r.url.value];
        && loaders == old(loaders)
        && host.log == old(host.log) + SupersedeEvents(l.url, old(host.log), old(OnlyRequest(l.pending)))
                       + StartWorkerEvents(l.url, r, l.downloader.cacheMedia)
      ensures wait && r.url.value !in old(loaders) ==>
        var l := loaders[r.url.value];
        && loaders == old(loaders)[r.url.value := l] && fresh(l) && l.url == OriginUrl(r.url.value)
        && host.log == old(host.log) + TaskEvents(l.url, StartTask(r))
    {
      if r.url.Some? {
        var resourceUrl := r.url.value;
        if StartsWith(resourceUrl, Scheme) {
          var key := LoaderKey(resourceUrl).value;
          var l := LoaderForKey(key);
          ghost var log0 := host.log;
          AddTo(key, r);
          assert SupersedeEvents(l.url, log0, None) == [];
          assert ContentInfoEvents(r, None) == [];
          return true;
        }
      }
      return false;
    }

    /** The cancel-and-remove step of `resourceLoader(_:didCancel:)` on the
        loader under `key`. */
    method RemoveFrom(key: string, r: PlatformRequest)
      requires Valid() && key in loaders && r.url.Some?
      modifies host, loaders[key]
      ensures Valid()
      ensures var l := loaders[key];
        var log1 := old(host.log) + [DownloaderCancel(l.url)];
        l.pending == old(l.pending) - {RequestKey(r)}
        && host.log == log1 + RemoveEvents(log1, r, l.downloader.cacheMedia)
    {
      var l := loaders[key];
      l.Cancel();
      l.Remove(r);
      forall k | k in loaders
        ensures loaders[k].Valid()
      {
        if k != key {
          assert loaders[k] != l;
        }
      }

    }

    /** `resourceLoader(_:didCancel:)`: nothing happens without a loader for
        the request's URL; otherwise that loader's download is cancelled and
        the request removed from it. */
    method DidCancel(r: PlatformRequest)
      requires Valid() && r.url.Some?
      modifies host, LoaderAt(r.url.value)
      ensures Valid() && loaders == old(loaders)
      ensures r.url.value !in loaders ==> host.log == old(host.log)
      ensures r.url.value in loaders ==>
        var l := loaders[r.url.value];
        var log1 := old(host.log) + [DownloaderCancel(l.url)];
        l.pending == old(l.pending) - {RequestKey(r)}
        && host.log == log1 + RemoveEvents(log1, r, l.downloader.cacheMedia)
    {
      var loader := LoaderFor(r);
      if loader.Some? {
        RemoveFrom(r.url.value, r);
      }
    }

    /** `cancelLoaders`: every loader's download is cancelled once, then the
        dictionary is emptied. */
    method CancelLoaders() returns (ghost order: seq<string>)
      requires Valid()
      modifies this, host
      ensures Valid() && loaders == map[]
      ensures Enumerates(old(loaders).Keys, order)
      ensures host.log == old(host.log) + CancelEvents(old(loaders), order)
    {
      order := CancelEach(loaders, host);
      loaders := map[];
      Repr := {};
    }

    /** `cleanCache`: the dictionary is emptied and no download is cancelled. */
    method CleanCache()
      requires Valid()
      modifies this
      ensures Valid() && loaders == map[]
    {
      loaders := map[];
      Repr := {};
    }

    /** `resourceLoader(_:didFailWithError:)`: the failed loader's download is
        cancelled and its URL and error are reported. */
    method DidFail(loader: Loader, code: int)
      requires loader.Valid() && loader.host == host
      modifies host
      ensures host.log == old(host.log) + [DownloaderCancel(loader.url), LoaderFailed(loader.url, code)]
    {
      loader.Cancel();
      host.log := host.log + [LoaderFailed(loader.url, code)];
    }

    /** The end of a download of the loader under `k`, followed through the
        adapter, the loader and the manager: a relayed completion removes the
        request, and a relayed error is reported as that loader's failure. */
    method DownloaderDidFinish(k: string, error: Option<int>)
      requires Valid() && k in loaders
      modifies host, loaders[k]
      ensures Valid()
      ensures
        var l := loaders[k];
        var w := old(l.delegate);
        var relayed := w.Some? && !Swallowed(error) && old(w.value.relays);
        var log1 := old(host.log) + (if w.Some? then CompletionEvents(w.value.request, error) else []);
        var log2 := if relayed then log1 + RemoveEvents(log1, w.value.request, l.downloader.cacheMedia) else log1;
        host.log == log2 + (if relayed && error.Some? then [DownloaderCancel(l.url), LoaderFailed(l.url, error.value)] else [])
    {
      var l := loaders[k];
      var failure := l.DownloaderDidFinish(error);
      forall k' | k' in loaders
        ensures loaders[k'].Valid()
      {
        if k' != k {
          assert loaders[k'] != l;
        }
      }
      assert Valid();
      if failure.Some? {
        label beforeFail:
        DidFail(l, failure.value);
        assert unchanged@beforeFail(this, Repr);
      }
    }
  }
}
