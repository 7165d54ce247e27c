# SandVideoPlayer media cache, modelled in Dafny

This project models the read-through byte-range cache that sits under
SandVideoPlayer's AVPlayer. It covers six parts of that cache layer:

- **Chunk buffer** (`SandPlayerDownloadURLSessionManager`, module
  `DownloadSession`). It collects network reads and forwards the whole buffer
  once it holds more than 10 KiB (10240 bytes). A clean completion flushes the
  rest; a failed one flushes nothing.
- **Download action worker** (`SandPlayerDownloadActionWorker`, module
  `DownloadWorker`). It works through a queue of local and remote cache
  actions, using a cancel flag and a running write offset. Local actions are
  answered from the store. Remote actions start a request with the header
  `Range: bytes=first-last` (section 14.1.2 of RFC 9110). Downloaded chunks
  are written at consecutive offsets and forwarded to the delegate.
- **Cache action and configuration** (modules `CacheAction` and
  `CacheConfiguration`). The action is a value type whose `==` compares hash
  values. The configuration holds a maximum age and a maximum size, with
  their defaults.
- **Eviction** (`SandPlayerCacheManager`, module `CacheManager`). It builds
  cache paths and classifies directory entries by age. It then runs a
  size-budget pass that deletes the least recently accessed directories until
  the total drops below half the budget. Finally it posts a notice naming
  everything removed.
- **Loading-request adapter** (`SandPlayerResourceLoadingRequest`, module
  `LoadingRequest`). It works out the download range, finishes a request
  only once, swallows cancellation errors, and relays data to the platform
  request in order.
- **Per-resource loader and loader manager** (`SandPlayerResourceLoader` and
  `SandPlayerResourceLoaderManager`, modules `ResourceLoader` and
  `LoaderManager`).
  - A new request supersedes the pending one.
  - Requests are keyed by URL and Range header.
  - Asset URLs carry the private scheme `VGPlayerMideaCache` as a prefix,
    and the prefix is removed again to get the origin URL.
  - The manager creates one loader per synthetic URL, the first time that
    URL is requested.

Objects whose fields the Swift code updates in place are Dafny classes:
- the session manager;
- the worker;
- the cache manager;
- the adapter;
- the loader;
- the loader manager.

Their methods are proved against specification functions, and the
properties are lemmas about those functions. Calls the code makes on
objects outside the cache layer are recorded in append-only logs, in the
order the code makes them:
- the delegate;
- the notification center;
- the platform loading request;
- the downloader.

These logs are `SessionManager.forwarded`, the worker's `log` and
`Host.log`. The file system is a sequence of entries, each with:
- a path;
- a directory flag;
- an optional access time in whole seconds;
- an optional allocated size.

Common building blocks live in modules `Common` (option type, bytes, small
sequence lemmas) and `Strings` (prefix and substring tests, replace-all,
decimal printing, last path component).

### Where the model follows the code rather than the description

- **Worker throttle.** The progress-notification throttle never suppresses a
  notification. `notifyTime` is never assigned, so for any clock past 0.1 s
  the throttle test passes (`NotifyNeverThrottled`). `NotifyTimeNeverWritten`
  shows that no callback writes the field.
- **Worker completion.** A completion after `cancel` is still handled. Only
  `processActions` and the data callback check the cancel flag.
- **Worker responses.** A response without a MIME type gets no completion
  handler call at all.
- **`cacheFilePath` fallback.** The fallback branch can never run, because
  `components(separatedBy:).first` is never nil.
- **`remove`.** `remove` creates a fresh adapter. That adapter becomes the
  downloader's delegate, does not relay completions, and finishes the request
  with error -3 unless the request is already finished.
- **Cancellation errors.** The adapter swallows every error whose code is
  NSURLErrorCancelled (-999), whatever its domain.

## Model

| member | source | states |
|---|---|---|
| DownloadSession.OnData | SandVideoPlayer/SandPlayerDownloadURLSessionManager.swift:35-45 | the buffer ends at most 10240 bytes; forwarded bytes then buffer are the old buffer plus the data; a chunk is forwarded iff the total exceeds 10240, and then it is the whole buffer and the buffer is emptied |
| DownloadSession.OnComplete | SandVideoPlayer/SandPlayerDownloadURLSessionManager.swift:47-57 | the completion is forwarded exactly once, last; a clean completion flushes a non-empty buffer as one chunk first and empties it; an error or an empty buffer forwards no chunk and leaves the buffer as it was |
| DownloadSession.FeedConserves | SandVideoPlayer/SandPlayerDownloadURLSessionManager.swift:35-45 | over any run of data callbacks no byte is lost, added or reordered, the buffer stays within 10240 bytes, and only chunks longer than 10240 bytes are forwarded |
| DownloadSession.SessionShape | SandVideoPlayer/SandPlayerDownloadURLSessionManager.swift:35-57 | a whole transfer ends with exactly one completion event and accounts for every received byte |
| DownloadSession.CleanSessionForwardsEverything | SandVideoPlayer/SandPlayerDownloadURLSessionManager.swift:35-57 | with a clean completion the forwarded chunks concatenate to exactly the appended data in arrival order, the buffer ends empty, and the completion comes last |
| DownloadSession.FailedSessionWithholdsBuffer | SandVideoPlayer/SandPlayerDownloadURLSessionManager.swift:47-57 | on an error completion nothing more is forwarded than during feeding, the buffer keeps its bytes, and the error completion is the last event |
| DownloadSession.OnDataKeepsAccount | SandVideoPlayer/SandPlayerDownloadURLSessionManager.swift:35-45 | a data callback preserves the invariant "forwarded bytes + buffer = received bytes" |
| DownloadSession.OnCompleteKeepsAccount | SandVideoPlayer/SandPlayerDownloadURLSessionManager.swift:47-57 | a completion preserves the same invariant |
| DownloadSession.SessionManager.constructor | SandVideoPlayer/SandPlayerDownloadURLSessionManager.swift:26-29 | a new manager has an empty buffer and has forwarded nothing |
| DownloadSession.SessionManager.DidReceiveResponse | SandVideoPlayer/SandPlayerDownloadURLSessionManager.swift:31-33 | the response is passed through unchanged and the buffer is untouched |
| DownloadSession.SessionManager.DidReceiveData | SandVideoPlayer/SandPlayerDownloadURLSessionManager.swift:35-45 | the new buffer and forwarded events are those of OnData, and the buffer invariant is kept |
| DownloadSession.SessionManager.DidComplete | SandVideoPlayer/SandPlayerDownloadURLSessionManager.swift:47-57 | the new buffer and forwarded events are those of OnComplete, and the invariant is kept |
| DownloadWorker.RangeHeaderInjective | SandVideoPlayer/MarioPlayerDownloadActionWorker.swift:78-83 | the `bytes=loc-(loc+len-1)` header determines the range: different ranges get different headers |
| DownloadWorker.NotifyFinished | SandVideoPlayer/MarioPlayerDownloadActionWorker.swift:109-120 | posts exactly one DidFinishCache with the error when the media worker has a configuration, nothing otherwise, and changes nothing else |
| DownloadWorker.Notify | SandVideoPlayer/MarioPlayerDownloadActionWorker.swift:92-107 | only posts; DidUpdateCache is posted iff the throttle test passes and a configuration exists; a finish notice is posted iff, in addition, the call is final and the download is complete |
| DownloadWorker.CancelIdempotent | SandVideoPlayer/MarioPlayerDownloadActionWorker.swift:49-54 | cancel sets the flag, invalidates the session (never nil after init) once per call, and changes no other field; a second cancel only invalidates the session again |
| DownloadWorker.CancelledWorkerIsInert | SandVideoPlayer/MarioPlayerDownloadActionWorker.swift:49-59 | once cancelled, processing and data callbacks change nothing, and each further cancel changes only the log, adding one session invalidation |
| DownloadWorker.LeadingHits | SandVideoPlayer/MarioPlayerDownloadActionWorker.swift:66-71 | counts a leading run of Local actions the store can serve |
| DownloadWorker.LocalData | SandVideoPlayer/MarioPlayerDownloadActionWorker.swift:69-70 | one `isLocal = true` data event per served action, carrying that action's stored bytes |
| DownloadWorker.LeadingHitsServed | SandVideoPlayer/MarioPlayerDownloadActionWorker.swift:66-71 | the action after the run of hits is not a servable Local action |
| DownloadWorker.ProcessServesHits | SandVideoPlayer/MarioPlayerDownloadActionWorker.swift:66-71 | processing first serves every leading store hit, in order, and goes on from there |
| DownloadWorker.ProcessStops | SandVideoPlayer/MarioPlayerDownloadActionWorker.swift:60-88 | with no action left, exactly one didFinishWithError(nil); a Local miss removes it and emits one error -1; a Remote action removes it, sets startOffset to its location and starts its range request |
| DownloadWorker.ProcessOutcome | SandVideoPlayer/MarioPlayerDownloadActionWorker.swift:56-90 | full outcome of `processActions`: the served hits, then exactly one of finish(nil), read error -1 or a range request; exactly the actions taken are removed from the front, the rest stay in order |
| DownloadWorker.ProcessKeepsPrefix | SandVideoPlayer/MarioPlayerDownloadActionWorker.swift:56-90 | processing only appends to the event log |
| DownloadWorker.DataEffectsWrite | SandVideoPlayer/MarioPlayerDownloadActionWorker.swift:143-144 | a chunk is written at [startOffset, startOffset + count) |
| DownloadWorker.DataEffectsForward | SandVideoPlayer/MarioPlayerDownloadActionWorker.swift:154 | a chunk is forwarded unchanged with `isLocal = false` |
| DownloadWorker.DataEffectsReport | SandVideoPlayer/MarioPlayerDownloadActionWorker.swift:144-150 | error -2 is reported iff the write failed |
| DownloadWorker.OnDataStep | SandVideoPlayer/MarioPlayerDownloadActionWorker.swift:138-156 | a data callback appends the chunk's effects and then only notifications, and advances startOffset by the chunk length, changing nothing else |
| DownloadWorker.OnDataWrites | SandVideoPlayer/MarioPlayerDownloadActionWorker.swift:143-153 | one data callback adds exactly one write, at the current offset |
| DownloadWorker.OnDataForwards | SandVideoPlayer/MarioPlayerDownloadActionWorker.swift:154 | one data callback forwards exactly the chunk as remote data |
| DownloadWorker.OnDataReportsWriteFailure | SandVideoPlayer/MarioPlayerDownloadActionWorker.swift:144-154 | a failed write reports -2 but is not fatal; without a failure no -2 is reported |
| DownloadWorker.ContiguousRangesAdjacent | SandVideoPlayer/MarioPlayerDownloadActionWorker.swift:143-153 | the ranges of successive chunks start at the offset and each ends where the next begins |
| DownloadWorker.DataRunContiguous | SandVideoPlayer/MarioPlayerDownloadActionWorker.swift:143-153 | the chunks of one remote transfer are written back to back from the offset the Remote action set, whatever the store reports |
| DownloadWorker.DataRunForwards | SandVideoPlayer/MarioPlayerDownloadActionWorker.swift:154 | all chunks are forwarded unchanged and in order |
| DownloadWorker.DataRunAdvances | SandVideoPlayer/MarioPlayerDownloadActionWorker.swift:143-153 | a data run keeps the queue, only appends to the log, and moves startOffset past every byte |
| DownloadWorker.ResponseOutcome | SandVideoPlayer/MarioPlayerDownloadActionWorker.swift:158-171 | allow iff the MIME type contains "video/", "audio/" or "application", and then the response is forwarded and writing starts; any other MIME type is cancelled with no effect; a missing MIME type gets no answer |
| DownloadWorker.CompleteOutcome | SandVideoPlayer/MarioPlayerDownloadActionWorker.swift:126-136 | completion always finishes writing and saves first; an error emits one error event and one finish notice and stops; success posts notifications and processes the next action |
| DownloadWorker.NotifyNeverThrottled | SandVideoPlayer/MarioPlayerDownloadActionWorker.swift:92-95 | with notifyTime at its initial 0 (line 27, never assigned) the throttled call equals the flushed one |
| DownloadWorker.NotifyTimeNeverWritten | SandVideoPlayer/MarioPlayerDownloadActionWorker.swift:27 | no callback changes notifyTime |
| DownloadWorker.ProcessNotifyTime | SandVideoPlayer/MarioPlayerDownloadActionWorker.swift:56-90 | processing keeps notifyTime and the URL |
| DownloadWorker.Worker.constructor | SandVideoPlayer/MarioPlayerDownloadActionWorker.swift:30-39 | a new worker holds the given queue, offset 0, not cancelled, notifyTime 0 and an empty log |
| DownloadWorker.Worker.Start | SandVideoPlayer/MarioPlayerDownloadActionWorker.swift:45-47 | the new state is that of Process |
| DownloadWorker.Worker.Cancel | SandVideoPlayer/MarioPlayerDownloadActionWorker.swift:49-54 | the new state is that of OnCancel: invalidateAndCancel is called on every cancel, then the flag is set |
| DownloadWorker.Worker.ProcessActions | SandVideoPlayer/MarioPlayerDownloadActionWorker.swift:56-90 | the new state is that of Process |
| DownloadWorker.Worker.NotifyProgress | SandVideoPlayer/MarioPlayerDownloadActionWorker.swift:92-107 | the new state is that of Notify |
| DownloadWorker.Worker.NotifyDownloadFinished | SandVideoPlayer/MarioPlayerDownloadActionWorker.swift:109-120 | the new state is that of NotifyFinished |
| DownloadWorker.Worker.DidComplete | SandVideoPlayer/MarioPlayerDownloadActionWorker.swift:126-136 | the new state is that of OnComplete |
| DownloadWorker.Worker.DidReceiveData | SandVideoPlayer/MarioPlayerDownloadActionWorker.swift:138-156 | the new state is that of OnData |
| DownloadWorker.Worker.DidReceiveResponse | SandVideoPlayer/MarioPlayerDownloadActionWorker.swift:158-171 | the new state and the disposition are those of OnResponse |
| CacheAction.RawValue | SandVideoPlayer/SandPlayerCacheAction.swift:10-13 | raw values are below 2 |
| CacheAction.FromRawValue | SandVideoPlayer/SandPlayerCacheAction.swift:10-13 | a raw value names a kind iff it is 0 or 1 |
| CacheAction.RawValueRoundTrip | SandVideoPlayer/SandPlayerCacheAction.swift:10-13 | the two conversions are inverse: exactly two kinds, local = 0 and remote = 1 |
| CacheAction.SameFieldsAreEqual | SandVideoPlayer/SandPlayerCacheAction.swift:23-34 | actions built from the same type and range compare equal |
| CacheAction.EqualIsEquivalence | SandVideoPlayer/SandPlayerCacheAction.swift:27-29 | `==` is reflexive, symmetric and transitive |
| CacheAction.EqualHasEqualHash | SandVideoPlayer/SandPlayerCacheAction.swift:23-29 | equal actions have equal hash values |
| CacheAction.HashKeyInjective | SandVideoPlayer/SandPlayerCacheAction.swift:23-25 | the string that is hashed determines the action |
| CacheAction.EqualIsStructuralForInjectiveHash | SandVideoPlayer/SandPlayerCacheAction.swift:23-29 | with a collision-free string hash, `==` is exactly equality of type and range |
| CacheAction.CollisionMakesDistinctActionsEqual | SandVideoPlayer/SandPlayerCacheAction.swift:27-29 | with a colliding hash, two different actions compare equal |
| CacheConfiguration.Default | SandVideoPlayer/SandPlayerCacheConfiguration.swift:10-16 | the defaults are maxCacheAge = 604800 s (7 days) and maxCacheSize = 0 |
| CacheManager.CacheDirectory | SandVideoPlayer/SandPlayerCacheManager.swift:35-37 | the cache directory is the temporary directory followed by the folder name |
| CacheManager.AppendingPathComponent | SandVideoPlayer/SandPlayerCacheManager.swift:40 | the result starts with the base and ends with the component, with one slash between them |
| CacheManager.BeforeFirstDot | SandVideoPlayer/SandPlayerCacheManager.swift:39 | the result is the longest dot-free prefix |
| CacheManager.CacheFilePathLayout | SandVideoPlayer/SandPlayerCacheManager.swift:38-46 | the path is cacheDirectory/"name before its first dot"/name, where name is the URL's lastPathComponent (query, fragment, authority and trailing slashes ignored); the file keeps that name; a query or fragment never changes the path |
| CacheManager.RemoveShrinks | SandVideoPlayer/SandPlayerCacheManager.swift:96-101 | removing a directory takes at least its own enumerated size off the enclosing total |
| CacheManager.ExpiryDate | SandVideoPlayer/SandPlayerCacheManager.swift:124 | there is no expiry date iff maxCacheAge < 0; otherwise it is now − maxCacheAge |
| CacheManager.ExpiredKeptPartition | SandVideoPlayer/SandPlayerCacheManager.swift:140-147 | every entry is either expired or kept, never both |
| CacheManager.SizingKeepsEverything | SandVideoPlayer/SandPlayerCacheManager.swift:140 | with onlyForCacheSize nothing is classified for deletion |
| CacheManager.NegativeAgeExpiresNothing | SandVideoPlayer/SandPlayerCacheManager.swift:124 | with a negative maxCacheAge nothing is age-expired |
| CacheManager.Insert | SandVideoPlayer/SandPlayerCacheManager.swift:166-169 | insertion adds exactly the element |
| CacheManager.SortPermutes | SandVideoPlayer/SandPlayerCacheManager.swift:166-169 | the sort is a permutation |
| CacheManager.SortSorts | SandVideoPlayer/SandPlayerCacheManager.swift:83-93 | when every directory has an access date, the result is in ascending access order |
| CacheManager.KeysSortedByValueCorrect | SandVideoPlayer/SandPlayerCacheManager.swift:166-169 | the keys come out as a permutation of the dictionary's keys, ordered by their values' access dates when all have one |
| CacheManager.RemoveAllKeepsSurvivors | SandVideoPlayer/SandPlayerCacheManager.swift:74-78 | removing the listed items one by one keeps exactly the entries no removal hits |
| CacheManager.ExpiredPathsListed | SandVideoPlayer/SandPlayerCacheManager.swift:140-147 | every expired entry is on the delete list |
| CacheManager.ExpiredRemovalWithinTotal | SandVideoPlayer/SandPlayerCacheManager.swift:72-78 | after the expired items are removed, what is left is no larger than the counted total |
| CacheManager.SortedDirectoriesBelow | SandVideoPlayer/SandPlayerCacheManager.swift:83-95 | every directory the size pass visits lies inside the cache directory |
| CacheManager.SizePassStep | SandVideoPlayer/SandPlayerCacheManager.swift:95-108 | one iteration subtracts the directory's size, removes it, appends it, and stops iff the total is below the target |
| CacheManager.SizePassDeletesPrefix | SandVideoPlayer/SandPlayerCacheManager.swift:95-108 | the pass deletes a non-empty prefix of the sorted directories, and stops early only once the total is below the target |
| CacheManager.SizePassStopsAtFirst | SandVideoPlayer/SandPlayerCacheManager.swift:105-107 | the pass stops at the first deletion that brings the total below the target |
| CacheManager.SizePassNoUnderflow | SandVideoPlayer/SandPlayerCacheManager.swift:96-97 | the running total never drops below what is left on disk, so the unsigned subtraction cannot underflow |
| CacheManager.CleanOldFilesOutcome | SandVideoPlayer/SandPlayerCacheManager.swift:69-121 | deletions are first the age-expired entries, in order; without a positive, exceeded budget only the expired entries go; the total never underflows |
| CacheManager.CleanOldFilesSizePass | SandVideoPlayer/SandPlayerCacheManager.swift:80-108 | over budget, the deletions after the expired entries are a non-empty prefix of the kept directories sorted by access date (ascending when all are dated, always a permutation), cut short only once the total is below maxCacheSize / 2 |
| CacheManager.DefaultConfigurationAgesOut | SandVideoPlayer/SandPlayerCacheConfiguration.swift:12-15 | with the default configuration, age eviction is active with a 7-day expiry, the size pass never runs, and exactly the week-old entries are deleted |
| CacheManager.Names | SandVideoPlayer/SandPlayerCacheManager.swift:114 | the notice carries the last path component of each removed path, in order |
| CacheManager.CleanupEvents | SandVideoPlayer/SandPlayerCacheManager.swift:111-118 | on the main queue: one cleanup notice iff something was deleted, naming everything in deletion order, first; the completion handler is called iff one was given, last |
| CacheManager.ClassifyCorrect | SandVideoPlayer/SandPlayerCacheManager.swift:122-164 | the loop returns the expired paths, the total allocated size of the kept entries, and the kept directories (none when only sizing) |
| CacheManager.Manager.CachedFiles | SandVideoPlayer/SandPlayerCacheManager.swift:122-164 | the three results are the expired paths, the kept total and the kept directories |
| CacheManager.Manager.CalculateCacheSize | SandVideoPlayer/SandPlayerCacheManager.swift:52-60 | reports the size of everything in the cache directory and deletes nothing |
| CacheManager.Manager.RemoveItem | SandVideoPlayer/SandPlayerCacheManager.swift:99-101 | removes the item and its subtree; errors are absorbed |
| CacheManager.Manager.CleanAllCache | SandVideoPlayer/SandPlayerCacheManager.swift:61-68 | the cache directory goes, with everything in it |
| CacheManager.Manager.DeleteAll | SandVideoPlayer/SandPlayerCacheManager.swift:74-78 | removes each listed item in order |
| CacheManager.Manager.ShrinkToTarget | SandVideoPlayer/SandPlayerCacheManager.swift:95-108 | the file system, deletions and total after the loop are those of SizePass |
| CacheManager.Manager.CleanOldFiles | SandVideoPlayer/SandPlayerCacheManager.swift:69-121 | the file system and deletions are those of the cleanup specification, and the main-queue events are those of CleanupEvents |
| LoadingRequest.FinishedAppend | SandVideoPlayer/SandPlayerResourceLoadingRequest.swift:46 | a log records a finish of a request iff one of its parts does |
| LoadingRequest.FinishIdempotent | SandVideoPlayer/SandPlayerResourceLoadingRequest.swift:40-49 | finish adds nothing iff the request is already finished, and otherwise exactly one -3 finish; afterwards the request is finished, a second finish does nothing, and other requests are unaffected |
| LoadingRequest.StartTask | SandVideoPlayer/SandPlayerResourceLoadingRequest.swift:51-66 | no task without a data request; otherwise length = requestedLength, toEnd = requestsAllDataToEndOfResource, offset = currentOffset when ≠ 0, else requestedOffset |
| LoadingRequest.ContentInfoCopied | SandVideoPlayer/SandPlayerResourceLoadingRequest.swift:29-38 | content information is set iff the media has a content type (and the request asks for it); all three fields are then copied from the media; it never finishes a request |
| LoadingRequest.RespondedAppend | SandVideoPlayer/SandPlayerResourceLoadingRequest.swift:75-77 | the answers recorded in a log split along its parts |
| LoadingRequest.RelayInOrder | SandVideoPlayer/SandPlayerResourceLoadingRequest.swift:75-77 | chunks reach the data request unchanged and in arrival order; a request without a data request gets nothing |
| LoadingRequest.CompletionOutcome | SandVideoPlayer/SandPlayerResourceLoadingRequest.swift:79-90 | a cancelled error leaves the request untouched; otherwise the request is finished with exactly the download's error (plainly when nil) |
| LoadingRequest.Host.constructor | SandVideoPlayer/SandPlayerResourceLoadingRequest.swift:17 | the log of calls starts empty |
| LoadingRequest.Downloader.constructor | SandVideoPlayer/SandPlayerResourceLoader.swift:29 | a new downloader knows its URL and has no cached media |
| LoadingRequest.ResourceLoadingRequest.constructor | SandVideoPlayer/SandPlayerResourceLoadingRequest.swift:21-27 | the adapter keeps its downloader and request, has no delegate, and fills the content information |
| LoadingRequest.ResourceLoadingRequest.FillCacheMedia | SandVideoPlayer/SandPlayerResourceLoadingRequest.swift:29-38 | appends exactly the content-information events |
| LoadingRequest.ResourceLoadingRequest.Finish | SandVideoPlayer/SandPlayerResourceLoadingRequest.swift:45-49 | appends exactly the finish events for the current log |
| LoadingRequest.ResourceLoadingRequest.StartWork | SandVideoPlayer/SandPlayerResourceLoadingRequest.swift:51-66 | starts exactly the downloader task of StartTask, if any |
| LoadingRequest.ResourceLoadingRequest.Cancel | SandVideoPlayer/SandPlayerResourceLoadingRequest.swift:68-70 | cancels the downloader once |
| LoadingRequest.ResourceLoadingRequest.DidReceiveData | SandVideoPlayer/SandPlayerResourceLoadingRequest.swift:75-77 | answers the data request with the chunk, if there is one |
| LoadingRequest.ResourceLoadingRequest.DidFinish | SandVideoPlayer/SandPlayerResourceLoadingRequest.swift:79-90 | appends the completion events; the delegate is notified iff the error is not a cancellation and a delegate is set |
| LoadingRequest.ResourceLoadingRequest.DidReceiveResponse | SandVideoPlayer/SandPlayerResourceLoadingRequest.swift:92-94 | fills the content information again |
| ResourceLoader.RequestKey | SandVideoPlayer/SandPlayerResourceLoader.swift:61-68 | the key is the URL string followed by the Range header when there is one, and the URL string alone otherwise |
| ResourceLoader.RequestKeySeparatesRanges | SandVideoPlayer/SandPlayerResourceLoader.swift:61-68 | two ranged requests for one URL share a key iff their ranges are equal |
| ResourceLoader.OnlyRequest | SandVideoPlayer/SandPlayerResourceLoader.swift:34-37 | a pending map with at most one entry has one request or none |
| ResourceLoader.SupersedeFinishes | SandVideoPlayer/SandPlayerResourceLoader.swift:34-37 | superseding cancels the download and then finishes the old request with -3 unless it is already finished; the request is finished afterwards |
| ResourceLoader.RemoveFinishes | SandVideoPlayer/SandPlayerResourceLoader.swift:42-47 | `remove` always leaves the request finished, and uses the -3 error iff nothing finished it before |
| ResourceLoader.Loader.constructor | SandVideoPlayer/SandPlayerResourceLoader.swift:27-31 | a new loader has a fresh downloader for its URL and nothing pending |
| ResourceLoader.Loader.Add | SandVideoPlayer/SandPlayerResourceLoader.swift:33-40 | every pending request is cancelled and finished first, in that order; then exactly one entry is pending, under key(r), with a fresh relaying adapter that is the downloader's delegate |
| ResourceLoader.Loader.Remove | SandVideoPlayer/SandPlayerResourceLoader.swift:42-47 | exactly key(r) leaves the map (unchanged if absent); a fresh non-relaying adapter takes the delegate slot and finishes the request |
| ResourceLoader.Loader.Cancel | SandVideoPlayer/SandPlayerResourceLoader.swift:49-51 | only the download is cancelled; the pending map is untouched |
| ResourceLoader.Loader.StartWorker | SandVideoPlayer/SandPlayerResourceLoader.swift:53-59 | the new relaying adapter is stored under key(r), fills the content information and starts its task |
| ResourceLoader.Loader.DownloaderDidReceiveData | SandVideoPlayer/SandPlayerResourceLoadingRequest.swift:75-77 | the downloader's chunk goes to its current delegate |
| ResourceLoader.Loader.DownloaderDidReceiveResponse | SandVideoPlayer/SandPlayerResourceLoadingRequest.swift:92-94 | the current delegate fills its content information |
| ResourceLoader.Loader.DownloaderDidFinish | SandVideoPlayer/SandPlayerResourceLoader.swift:73-78 | on a relayed completion the request is removed, and the failure is reported iff the error is non-nil; a swallowed or unrelayed completion removes nothing |
| LoaderManager.LoaderKey | SandVideoPlayer/MarioPlayerResourceLoaderManager.swift:36-39 | a URL has a loader key iff it starts with "VGPlayerMideaCache", and the key is the URL itself |
| LoaderManager.AssetUrl | SandVideoPlayer/MarioPlayerResourceLoaderManager.swift:47-51 | nil stays nil; otherwise the scheme is prefixed to the URL |
| LoaderManager.AssetUrlHasLoaderKey | SandVideoPlayer/MarioPlayerResourceLoaderManager.swift:36-51 | every asset URL has a loader key |
| LoaderManager.OriginOfAssetUrl | SandVideoPlayer/MarioPlayerResourceLoaderManager.swift:73-74 | stripping every occurrence of the scheme from the asset URL gives back the URL iff the URL does not itself contain the scheme |
| LoaderManager.OriginLosesInnerScheme | SandVideoPlayer/MarioPlayerResourceLoaderManager.swift:73-74 | a URL that already starts with the scheme is not recovered |
| LoaderManager.CancelEvents | SandVideoPlayer/MarioPlayerResourceLoaderManager.swift:29-32 | one downloader cancel per enumerated loader, in enumeration order |
| LoaderManager.CancelEach | SandVideoPlayer/MarioPlayerResourceLoaderManager.swift:30-32 | every loader of the dictionary is cancelled exactly once, in some enumeration order |
| LoaderManager.Manager.constructor | SandVideoPlayer/MarioPlayerResourceLoaderManager.swift:21-23 | a new manager has no loaders |
| LoaderManager.Manager.LoaderFor | SandVideoPlayer/MarioPlayerResourceLoaderManager.swift:41-45 | a loader is found iff the URL carries the scheme and has an entry, and then it is that entry |
| LoaderManager.Manager.LoaderForKey | SandVideoPlayer/MarioPlayerResourceLoaderManager.swift:71-81 | an existing loader is reused; a missing one is created once, for the stripped URL, and stored under the synthetic key |
| LoaderManager.Manager.AddTo | SandVideoPlayer/MarioPlayerResourceLoaderManager.swift:82 | the request is added to that loader: it supersedes the pending one and becomes the only pending request |
| LoaderManager.Manager.ShouldWait | SandVideoPlayer/MarioPlayerResourceLoaderManager.swift:68-87 | true iff the URL has the scheme prefix; false changes nothing; true creates a loader on first use only and passes the request to its add; the frame lets it change only the loader under the request's URL, so every other loader keeps its state |
| LoaderManager.Manager.RemoveFrom | SandVideoPlayer/MarioPlayerResourceLoaderManager.swift:91-92 | the loader's download is cancelled, then the request is removed from it |
| LoaderManager.Manager.DidCancel | SandVideoPlayer/MarioPlayerResourceLoaderManager.swift:89-93 | without a loader, nothing happens; otherwise cancel then remove on that loader only |
| LoaderManager.Manager.CancelLoaders | SandVideoPlayer/MarioPlayerResourceLoaderManager.swift:29-34 | every loader is cancelled once, then the map is emptied |
| LoaderManager.Manager.CleanCache | SandVideoPlayer/MarioPlayerResourceLoaderManager.swift:25-27 | the map is emptied and nothing is cancelled |
| LoaderManager.Manager.DidFail | SandVideoPlayer/MarioPlayerResourceLoaderManager.swift:99-102 | the failed loader is cancelled, then its URL and error are reported |
| LoaderManager.Manager.DownloaderDidFinish | SandVideoPlayer/SandPlayerResourceLoader.swift:73-78 | a download's end, followed through the adapter, the loader and the manager: a relayed completion removes the request, and a relayed error cancels that loader and is reported with its URL |
| Strings.RemoveAllIdentityIff | SandVideoPlayer/MarioPlayerResourceLoaderManager.swift:74 | removing every occurrence of a pattern gives the string back iff the pattern does not occur |
| Strings.IntToStringInjective | SandVideoPlayer/MarioPlayerDownloadActionWorker.swift:82 | `%lld` printing is injective |
| Strings.LastPathComponent | SandVideoPlayer/SandPlayerCacheManager.swift:114 | NSString.lastPathComponent of a path: no slash in it (except the root "/"), empty only for the empty path |
| Strings.TrailingSlashIgnored | SandVideoPlayer/SandPlayerCacheManager.swift:114 | a trailing slash does not change a path's last component |
| Strings.UrlPath | SandVideoPlayer/SandPlayerCacheManager.swift:39 | the URL's path has no query or fragment characters |
| Strings.UrlLastPathComponent | SandVideoPlayer/SandPlayerCacheManager.swift:39 | URL.lastPathComponent: no slash (except the root "/"), no query or fragment |
| Strings.UrlQueryIgnored | SandVideoPlayer/SandPlayerCacheManager.swift:39 | appending a query or fragment to a URL does not change its last path component |
| CacheManager.Manager.PostCleanup | SandVideoPlayer/SandPlayerCacheManager.swift:111-119 | appends exactly CleanupEvents and leaves the files and the configuration alone |

## Left out

- UI, layout and gesture code is not part of this model. It is not cache logic.
- `playerItem` is not part of this model. It only configures AVFoundation objects.
- `cacheConfiguration(forURL:)` is not part of this model. It builds a SandPlayerCacheMediaConfiguration, and that type is not part of this model.
- Threading is modelled as plain sequential execution. The dispatch queues, `sync`/`async` and the operation queue are left out.
- The clock is the integer `now` parameter. The cache manager's dates are whole seconds. The worker's clock (`CFAbsoluteTimeGetCurrent`) is in whole milliseconds, with the 0.1 s notify interval as 100.
- DownloadWorker.NotifyInterval: `mediaCacheNotifyInterval` is a mutable static variable in the code; the model fixes it at its initial 0.1 s.
- Floating-point progress is modelled by a "download complete" flag in the worker's environment, which stands for `progress >= 1.0`.
- URL parsing is mostly left out. `URL(string:)` is taken as the identity on strings, so force-unwraps of parsed URLs never fail. A missing `request.url` is excluded with a precondition wherever the code force-unwraps it.
- ResourceLoader.RequestKey: the header dictionary is modelled as always present, so the trap of the `allHTTPHeaderFields!` force-unwrap on a request without one is not modelled.
- Strings.UrlLastPathComponent: `URL.lastPathComponent` is modelled on the URL string. The query, fragment, `scheme://authority` head and trailing slashes are handled. Percent-decoding is not.
- The store is abstract. Reads come from a map from ranges to bytes. A write's outcome is a boolean input to the data callback. `finishWritting`, `save` and `startWritting` are logged.
- DownloadWorker.DataEffects: the store's write-completion closure is taken to run synchronously, inside `cache(_:forRange:)`. So a -2 write error is logged before `save`, the forward and the progress notice. A store that ran the closure later would report the error after them, and the `[weak self]` guard would drop it once the worker is gone.
- CacheManager.AppendingPathComponent: NSString's slash normalisation is not modelled. A component that starts with '/' (the name "/" of a root-path URL) or an empty component gives extra or trailing slashes, and CacheFilePathLayout states its layout only for other names.
- `SandPlayerDownloader` is reduced to the calls made on it: a task start with offset, length and to-end flag, and a cancel. Downloaders are named by their URL. Its HTTP transfer, and how it fills `cacheMedia`, are not part of this model.
- Delegates are modelled as always present, with one exception: the adapter's `delegate`, which is the `relays` flag. Weak references are not modelled.
  - The downloader's delegate slot is kept by the owning loader as a strong reference.
  - The manager's delegate and the worker's delegate always receive their events.
- Delegate dispatch is flattened. The loader's completion callback returns the failure, and the manager's routing method passes that failure to `DidFail`.
- `deinit` of the loader and the worker is left out, and with it the loader's `invalidateAndCancel` on the downloader. Object lifetime is not modelled. The worker's `cancel` is modelled, and its `invalidateAndCancel` is logged on every call.
- The loader's `isCancelled` field is never read or written by the code, so it is left out.
- Dictionary enumeration order is left out. `cancelLoaders` is proved for an arbitrary order, which is returned as a ghost value. The insertion sort of `keysSortedByValue` visits the directories in their enumeration order.
- Error payloads are left out. Only the numeric codes are kept: -1, -2, -3 and NSURLErrorCancelled (-999). Removal errors of the file manager are absorbed, as in the code.
- `skipsHiddenFiles` is left out. Every entry is visible.
- The `UInt` and `Int` widths are not modelled, and integers are unbounded. `SizePassNoUnderflow` shows that the unsigned subtraction cannot go below zero when sizes are consistent.
- `request.isFinished` is derived from the host log. Only calls made by this layer can finish a request.
- CacheManager.SortSorts: sortedness is proved only when every directory has an access date. The code's comparator returns true whenever a date is missing, which is not a strict order, so no order is claimed for undated directories. The result is still proved to be a permutation.
