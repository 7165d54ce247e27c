/** The download action worker (SandPlayerDownloadActionWorker): it runs a
    fetch plan of Local/Remote cache actions, serving local ranges from the
    media store and fetching remote ranges with one HTTP Range request each,
    writing what arrives into the store and reporting to its delegate. */
module DownloadWorker {
  import opened Common
  import opened Strings
  import opened CacheAction

  /** `mediaCacheNotifyInterval` (0.1 s), in milliseconds. */
  const NotifyInterval: int := 100
  /** Error code of a Local action whose range the store cannot serve. */
  const ReadCacheFailed: int := -1
  /** Error code of a write the store reports as failed. */
  const WriteCacheFailed: int := -2

  /** The data task's request. Its cache policy is always
      reloadIgnoringLocalAndRemoteCacheData; `range` is the Range header. */
  datatype Request = Request(url: string, range: string)

  datatype Disposition = Allow | Cancel

  /** The media worker's configuration copy; `complete` stands for
      `progress >= 1.0`. */
  datatype MediaConfiguration = MediaConfiguration(complete: bool)

  /** What the worker consults and cannot see into: the clock (milliseconds),
      the media worker's configuration (absent when it has none), and the byte
      ranges the media store can serve. */
  datatype Environment = Environment(now: int, media: Option<MediaConfiguration>, store: map<NSRange, seq<byte>>)

  /** Everything the worker does to the outside, in order. */
  datatype Effect =
    // calls on the delegate
    | ReceivedResponse(response: Response)
    | ReceivedData(data: seq<byte>, isLocal: bool)
    | Finished(error: Option<int>)
    // calls on the URL session
    | StartTask(request: Request)
    | InvalidateSession
    // calls on the media store
    | StartWriting
    | Write(range: NSRange, data: seq<byte>)
    | FinishWriting
    | Save
    // notifications
    | PostDidUpdateCache
    | PostDidFinishCache(error: Option<int>)

  predicate IsPost(e: Effect) {
    e.PostDidUpdateCache? || e.PostDidFinishCache?
  }

  predicate AllPosts(es: seq<Effect>) {
    forall i :: 0 <= i < |es| ==> IsPost(es[i])
  }

  /** The worker's fields. `notifyTime` starts at 0 and nothing assigns it. */
  datatype State = State(url: string, actions: seq<CacheAction>, startOffset: nat, cancelled: bool,
                         notifyTime: int, log: seq<Effect>)

  /** A freshly initialised worker. */
  function Initial(url: string, actions: seq<CacheAction>): State {
    State(url, actions, 0, false, 0, [])
  }

  /** The HTTP byte-range form `bytes=first-last` (section 14.1.2 of RFC 9110),
      last = location + length - 1, printed with `%lld`. */
  function RangeHeader(r: NSRange): string {
    "bytes=" + IntToString(r.location) + "-" + IntToString(r.location + r.length - 1)
  }

  /** Different ranges are requested with different headers. */
  lemma RangeHeaderInjective(a: NSRange, b: NSRange)
    ensures RangeHeader(a) == RangeHeader(b) <==> a == b
  {
    if RangeHeader(a) == RangeHeader(b) {
      var la, lb := NatToString(a.location), NatToString(b.location);
      var ea, eb := IntToString(a.location + a.length - 1), IntToString(b.location + b.length - 1);
      assert IntToString(a.location) == la && IntToString(b.location) == lb;
      AppendAssoc("bytes=", la, "-");
      AppendAssoc("bytes=", la + "-", ea);
      AppendAssoc("bytes=", lb, "-");
      AppendAssoc("bytes=", lb + "-", eb);
      PeelPrefix("bytes=", la + "-" + ea, lb + "-" + eb);
      NatToStringParses(a.location);
      NatToStringParses(b.location);
      SplitAtSeparator(la, ea, lb, eb, '-');
      NatToStringInjective(a.location, b.location);
      IntToStringInjective(a.location + a.length - 1, b.location + b.length - 1);
    }
  }

  /** The response MIME check: audio/video, or anything "application". */
  predicate AllowedMime(m: string) {
    Contains(m, "video/") || Contains(m, "audio/") || Contains(m, "application")
  }

  function Read(store: map<NSRange, seq<byte>>, r: NSRange): Option<seq<byte>> {
    if r in store then Some(store[r]) else None
  }

  /** `processActions`. */
  function Process(s: State, env: Environment): State
    decreases |s.actions|
  {
    if s.cancelled then s
    else if s.actions == [] then s.(log := s.log + [Finished(None)])
    else
      var a := s.actions[0];
      var s1 := s.(actions := s.actions[1..]);
      match a.kind
      case Local =>
        (match Read(env.store, a.range)
         case Some(data) => Process(s1.(log := s1.log + [ReceivedData(data, true)]), env)
         case None => s1.(log := s1.log + [Finished(Some(ReadCacheFailed))]))
      case Remote =>
        s1.(startOffset := a.range.location, log := s1.log + [StartTask(Request(s.url, RangeHeader(a.range)))])
  }

  /** `notify(downloadFinishedWithError:)`: posted only when the media worker
      has a configuration. */
  function NotifyFinished(s: State, error: Option<int>, env: Environment): (r: State)
    ensures r == s.(log := r.log) && |r.log| >= |s.log| && r.log[..|s.log|] == s.log
    ensures r.log[|s.log|..] == if env.media.Some? then [PostDidFinishCache(error)] else []
  {
    if env.media.Some? then s.(log := s.log + [PostDidFinishCache(error)]) else s
  }

  /** The throttle test of `notify(downloadProgressWithFlush:isFinished:)`. */
  predicate NotifyDue(s: State, isFlush: bool, env: Environment) {
    s.notifyTime < env.now - NotifyInterval || isFlush
  }

  /** `notify(downloadProgressWithFlush:isFinished:)`: it only posts notifications. */
  function Notify(s: State, isFlush: bool, isFinished: bool, env: Environment): (r: State)
    ensures r == s.(log := r.log) && |r.log| >= |s.log| && r.log[..|s.log|] == s.log
    ensures AllPosts(r.log[|s.log|..])
    ensures PostDidUpdateCache in r.log[|s.log|..] <==> NotifyDue(s, isFlush, env) && env.media.Some?
    ensures PostDidFinishCache(None) in r.log[|s.log|..] <==>
      NotifyDue(s, isFlush, env) && env.media.Some? && isFinished && env.media.value.complete
  {
    if NotifyDue(s, isFlush, env) then
      match env.media
      case None => s
      case Some(m) =>
        var s1 := s.(log := s.log + [PostDidUpdateCache]);
        if isFinished && m.complete then
          var tail := [PostDidUpdateCache, PostDidFinishCache(None)];
          var r := NotifyFinished(s1, None, env);
          assert [PostDidUpdateCache] + [PostDidFinishCache(None)] == tail;
          AppendAssoc(s.log, [PostDidUpdateCache], [PostDidFinishCache(None)]);
          SplitAppend(s.log, tail);
          r
        else
          SplitAppend(s.log, [PostDidUpdateCache]);
          s1
    else s
  }

  /** `urlSession(_:dataTask:didReceive data:)`; `writeOk` is what the store
      reports for the write. */
  function OnData(s: State, data: seq<byte>, writeOk: bool, env: Environment): State {
    if s.cancelled then s
    else
      var written := s.log + DataEffects(s.startOffset, data, writeOk);
      Notify(s.(log := written, startOffset := s.startOffset + |data|), false, false, env)
  }

  /** The write, its failure report, the save and the forwarding of one chunk. */
  function DataEffects(offset: nat, data: seq<byte>, writeOk: bool): seq<Effect> {
    [Write(NSRange(offset, |data|), data)]
      + (if writeOk then [] else [Finished(Some(WriteCacheFailed))])
      + [Save, ReceivedData(data, false)]
  }

  /** `urlSession(_:dataTask:didReceive response:completionHandler:)`: the new
      state and the disposition handed to the completion handler, if any. */
  function OnResponse(s: State, response: Response): (State, Option<Disposition>) {
    match response.mimeType
    case None => (s, None)
    case Some(m) =>
      if !AllowedMime(m) then (s, Some(Cancel))
      else (s.(log := s.log + [ReceivedResponse(response), StartWriting]), Some(Allow))
  }

  /** `urlSession(_:task:didCompleteWithError:)`. */
  function OnComplete(s: State, error: Option<int>, env: Environment): State {
    var s1 := s.(log := s.log + [FinishWriting, Save]);
    if error.Some? then NotifyFinished(s1.(log := s1.log + [Finished(error)]), error, env)
    else Process(Notify(s1, true, true, env), env)
  }

  /** `cancel`: the session, which is set at initialisation and never
      cleared, is invalidated on every call, and the worker is marked cancelled. */
  function OnCancel(s: State): State {
    s.(cancelled := true, log := s.log + [InvalidateSession])
  }

  // ---- properties ----

  /** Cancelling marks the worker cancelled and invalidates the session, and
      nothing else; a second cancel changes no field and only invalidates the
      session once more. */
  lemma CancelIdempotent(s: State)
    ensures OnCancel(s).cancelled && OnCancel(s).log == s.log + [InvalidateSession]
    ensures OnCancel(s).actions == s.actions && OnCancel(s).startOffset == s.startOffset
    ensures OnCancel(s).url == s.url && OnCancel(s).notifyTime == s.notifyTime
    ensures OnCancel(OnCancel(s)) == OnCancel(s).(log := OnCancel(s).log + [InvalidateSession])
  {
  }

  /** The callbacks that a cancelled worker ignores. */
  datatype Input = StartInput | DataInput(data: seq<byte>, writeOk: bool) | CancelInput

  function Run(s: State, inputs: seq<Input>, env: Environment): State
    decreases |inputs|
  {
    if inputs == [] then s
    else
      var s1 := match inputs[0]
        case StartInput => Process(s, env)
        case DataInput(d, ok) => OnData(s, d, ok, env)
        case CancelInput => OnCancel(s);
      Run(s1, inputs[1..], env)
  }

  /** The session invalidations a run of inputs makes on a cancelled worker:
      one per cancel, in order. */
  function Invalidations(inputs: seq<Input>): (r: seq<Effect>)
    ensures |r| <= |inputs|
    ensures forall i :: 0 <= i < |r| ==> r[i] == InvalidateSession
    ensures (forall i :: 0 <= i < |inputs| ==> !inputs[i].CancelInput?) ==> r == []
    decreases |inputs|
  {
    if inputs == [] then []
    else (if inputs[0].CancelInput? then [InvalidateSession] else []) + Invalidations(inputs[1..])
  }

  /** Once cancelled, starting and data callbacks do nothing at all, and a
      further cancel only invalidates the session again: no other effect, no
      change to the queue, the offset or any other field. */
  lemma {:induction false} CancelledWorkerIsInert(s: State, inputs: seq<Input>, env: Environment)
    requires s.cancelled
    ensures Run(s, inputs, env) == s.(log := s.log + Invalidations(inputs))
    decreases |inputs|
  {
    if inputs == [] {
      assert s.log + [] == s.log;
    } else {
      var head := if inputs[0].CancelInput? then [InvalidateSession] else [];
      var s1 := s.(log := s.log + head);
      assert s1 == match inputs[0]
        case StartInput => Process(s, env)
        case DataInput(d, ok) => OnData(s, d, ok, env)
        case CancelInput => OnCancel(s);
      CancelledWorkerIsInert(s1, inputs[1..], env);
      AppendAssoc(s.log, head, Invalidations(inputs[1..]));
    }
  }

  /** Number of leading Local actions the store can serve. */
  function LeadingHits(actions: seq<CacheAction>, store: map<NSRange, seq<byte>>): (k: nat)
    ensures k <= |actions|
    ensures forall i :: 0 <= i < k ==> actions[i].kind == Local && actions[i].range in store
    decreases |actions|
  {
    if actions != [] && actions[0].kind == Local && actions[0].range in store
    then 1 + LeadingHits(actions[1..], store) else 0
  }

  /** The `isLocal = true` data events for a run of served Local actions. */
  function LocalData(actions: seq<CacheAction>, store: map<NSRange, seq<byte>>): (r: seq<Effect>)
    requires forall i :: 0 <= i < |actions| ==> actions[i].range in store
    ensures |r| == |actions|
    ensures forall i :: 0 <= i < |actions| ==> r[i] == ReceivedData(store[actions[i].range], true)
    decreases |actions|
  {
    if actions == [] then []
    else [ReceivedData(store[actions[0].range], true)] + LocalData(actions[1..], store)
  }

  lemma LocalDataCons(a: CacheAction, rest: seq<CacheAction>, store: map<NSRange, seq<byte>>)
    requires a.range in store
    requires forall i :: 0 <= i < |rest| ==> rest[i].range in store
    ensures LocalData([a] + rest, store) == [ReceivedData(store[a.range], true)] + LocalData(rest, store)
  {
    assert ([a] + rest)[1..] == rest;
  }

  lemma {:induction false} LeadingHitsServed(actions: seq<CacheAction>, store: map<NSRange, seq<byte>>)
    ensures LeadingHits(actions, store) < |actions| ==>
      !(actions[LeadingHits(actions, store)].kind == Local && actions[LeadingHits(actions, store)].range in store)
    decreases |actions|
  {
    if actions != [] && actions[0].kind == Local && actions[0].range in store {
      LeadingHitsServed(actions[1..], store);
    }
  }

  /** The worker once the leading run of store hits has been served. */
  function AfterHits(s: State, store: map<NSRange, seq<byte>>): State {
    var k := LeadingHits(s.actions, store);
    s.(actions := s.actions[k..], log := s.log + LocalData(s.actions[..k], store))
  }

  lemma {:induction false} ProcessServesHits(s: State, env: Environment)
    requires !s.cancelled
    ensures Process(s, env) == Process(AfterHits(s, env.store), env)
    decreases |s.actions|
  {
    var store := env.store;
    var k := LeadingHits(s.actions, store);
    if s.actions != [] && s.actions[0].kind == Local && s.actions[0].range in store {
      var a := s.actions[0];
      var d := ReceivedData(store[a.range], true);
      var t := s.(actions := s.actions[1..], log := s.log + [d]);
      assert Process(s, env) == Process(t, env);
      ProcessServesHits(t, env);
      assert k == 1 + LeadingHits(t.actions, store);
      TakeCons(s.actions, k);
      LocalDataCons(a, t.actions[..k - 1], store);
      AppendAssoc(s.log, [d], LocalData(t.actions[..k - 1], store));
    } else {
      assert s.actions[..k] == [] && s.actions[k..] == s.actions;
      assert s.log + [] == s.log;
    }
  }

  /** `processActions` on a worker whose first action is not a store hit. */
  lemma ProcessStops(u: State, env: Environment)
    requires !u.cancelled
    requires u.actions != [] ==> !(u.actions[0].kind == Local && u.actions[0].range in env.store)
    ensures var r := Process(u, env);
      if u.actions == [] then r == u.(log := u.log + [Finished(None)])
      else if u.actions[0].kind == Local then r == u.(actions := u.actions[1..], log := u.log + [Finished(Some(ReadCacheFailed))])
      else r == u.(actions := u.actions[1..], startOffset := u.actions[0].range.location,
                   log := u.log + [StartTask(Request(u.url, RangeHeader(u.actions[0].range)))])
  {
  }

  /** What one call of `processActions` does on a live worker. It serves the
      leading run of store hits in order, each with an `isLocal = true` event,
      and then takes one more step. An empty queue finishes without error. A
      store miss finishes with code -1. A Remote action starts one task with
      its Range header and sets the write offset to the range's start. Each
      action taken is removed from the front; the rest stay in order. */
  lemma ProcessOutcome(s: State, env: Environment)
    requires !s.cancelled
    ensures var k := LeadingHits(s.actions, env.store);
      var r := Process(s, env);
      r.url == s.url && !r.cancelled && r.notifyTime == s.notifyTime &&
      |r.log| >= |s.log| + k && r.log[..|s.log| + k] == s.log + LocalData(s.actions[..k], env.store) &&
      (if k == |s.actions| then
         r.actions == [] && r.startOffset == s.startOffset && r.log[|s.log| + k..] == [Finished(None)]
       else if s.actions[k].kind == Local then
         r.actions == s.actions[k + 1..] && r.startOffset == s.startOffset &&
         r.log[|s.log| + k..] == [Finished(Some(ReadCacheFailed))]
       else
         r.actions == s.actions[k + 1..] && r.startOffset == s.actions[k].range.location &&
         r.log[|s.log| + k..] == [StartTask(Request(s.url, RangeHeader(s.actions[k].range)))])
  {
    var store := env.store;
    var k := LeadingHits(s.actions, store);
    var u := AfterHits(s, store);
    ProcessServesHits(s, env);
    LeadingHitsServed(s.actions, store);
    if k < |s.actions| {
      assert u.actions[0] == s.actions[k] && u.actions[1..] == s.actions[k + 1..];
    }
    ProcessStops(u, env);
    var r := Process(s, env);
    assert |u.log| == |s.log| + k;
    SplitAppend(u.log, r.log[|u.log|..]);
    assert r.log == u.log + r.log[|u.log|..];
  }

  /** Ranges of the store writes in a stretch of effects, in order. */
  function WrittenRanges(es: seq<Effect>): seq<NSRange>
    decreases |es|
  {
    if es == [] then []
    else WrittenRanges(es[..|es| - 1]) + (if es[|es| - 1].Write? then [es[|es| - 1].range] else [])
  }

  /** Bytes forwarded with `isLocal = false` in a stretch of effects, in order. */
  function RemoteBytes(es: seq<Effect>): seq<byte>
    decreases |es|
  {
    if es == [] then []
    else
      var last := es[|es| - 1];
      RemoteBytes(es[..|es| - 1]) + (if last.ReceivedData? && !last.isLocal then last.data else [])
  }

  lemma {:induction false} WrittenRangesAppend(a: seq<Effect>, b: seq<Effect>)
    ensures WrittenRanges(a + b) == WrittenRanges(a) + WrittenRanges(b)
    decreases |b|
  {
    if b == [] {
      assert a + b == a;
    } else {
      var init := b[..|b| - 1];
      DropLastAppend(a, b);
      WrittenRangesAppend(a, init);
      AppendAssoc(WrittenRanges(a), WrittenRanges(init), if b[|b| - 1].Write? then [b[|b| - 1].range] else []);
    }
  }

  lemma {:induction false} RemoteBytesAppend(a: seq<Effect>, b: seq<Effect>)
    ensures RemoteBytes(a + b) == RemoteBytes(a) + RemoteBytes(b)
    decreases |b|
  {
    if b == [] {
      assert a + b == a;
    } else {
      var init, last := b[..|b| - 1], b[|b| - 1];
      DropLastAppend(a, b);
      RemoteBytesAppend(a, init);
      AppendAssoc(RemoteBytes(a), RemoteBytes(init), if last.ReceivedData? && !last.isLocal then last.data else []);
    }
  }

  lemma EffectOne(e: Effect)
    ensures WrittenRanges([e]) == if e.Write? then [e.range] else []
    ensures RemoteBytes([e]) == if e.ReceivedData? && !e.isLocal then e.data else []
  {
    assert [e][..0] == [];
  }

  lemma DataEffectsShape(offset: nat, data: seq<byte>, writeOk: bool)
    ensures var f := if writeOk then [] else [Finished(Some(WriteCacheFailed))];
      DataEffects(offset, data, writeOk) == [Write(NSRange(offset, |data|), data)] + (f + ([Save] + [ReceivedData(data, false)]))
  {
    var f := if writeOk then [] else [Finished(Some(WriteCacheFailed))];
    AppendAssoc([Write(NSRange(offset, |data|), data)], f, [Save, ReceivedData(data, false)]);
    assert [Save, ReceivedData(data, false)] == [Save] + [ReceivedData(data, false)];
  }

  /** The chunk's effects write exactly one range, at the offset and as long as the chunk. */
  lemma DataEffectsWrite(offset: nat, data: seq<byte>, writeOk: bool)
    ensures WrittenRanges(DataEffects(offset, data, writeOk)) == [NSRange(offset, |data|)]
  {
    var w := Write(NSRange(offset, |data|), data);
    var f := if writeOk then [] else [Finished(Some(WriteCacheFailed))];
    var t := [Save] + [ReceivedData(data, false)];
    DataEffectsShape(offset, data, writeOk);
    WrittenRangesAppend([w], f + t);
    WrittenRangesAppend(f, t);
    WrittenRangesAppend([Save], [ReceivedData(data, false)]);
    EffectOne(w);
    EffectOne(Save);
    EffectOne(ReceivedData(data, false));
    if !writeOk {
      EffectOne(Finished(Some(WriteCacheFailed)));
    }
  }

  /** The chunk's effects forward exactly the chunk as remote data. */
  lemma DataEffectsForward(offset: nat, data: seq<byte>, writeOk: bool)
    ensures RemoteBytes(DataEffects(offset, data, writeOk)) == data
  {
    var w := Write(NSRange(offset, |data|), data);
    var f := if writeOk then [] else [Finished(Some(WriteCacheFailed))];
    var t := [Save] + [ReceivedData(data, false)];
    DataEffectsShape(offset, data, writeOk);
    RemoteBytesAppend([w], f + t);
    RemoteBytesAppend(f, t);
    RemoteBytesAppend([Save], [ReceivedData(data, false)]);
    EffectOne(w);
    EffectOne(Save);
    EffectOne(ReceivedData(data, false));
    if !writeOk {
      EffectOne(Finished(Some(WriteCacheFailed)));
    }
  }

  /** The chunk's effects report -2 exactly when the write failed. */
  lemma DataEffectsReport(offset: nat, data: seq<byte>, writeOk: bool)
    ensures Finished(Some(WriteCacheFailed)) in DataEffects(offset, data, writeOk) <==> !writeOk
  {
    DataEffectsShape(offset, data, writeOk);
  }

  lemma {:induction false} PostsWriteNothing(es: seq<Effect>)
    requires AllPosts(es)
    ensures WrittenRanges(es) == [] && RemoteBytes(es) == []
    decreases |es|
  {
    if es != [] {
      PostsWriteNothing(es[..|es| - 1]);
    }
  }

  /** Consecutive ranges starting at `offset`, one per chunk, each as long as its chunk. */
  function ContiguousRanges(offset: nat, chunks: seq<seq<byte>>): seq<NSRange>
    decreases |chunks|
  {
    if chunks == [] then [] else [NSRange(offset, |chunks[0]|)] + ContiguousRanges(offset + |chunks[0]|, chunks[1..])
  }

  lemma ContiguousRangesStep(offset: nat, next: nat, chunks: seq<seq<byte>>)
    requires chunks != [] && next == offset + |chunks[0]|
    ensures ContiguousRanges(offset, chunks) == [NSRange(offset, |chunks[0]|)] + ContiguousRanges(next, chunks[1..])
  {
  }

  lemma ConcatStep(prefix: seq<byte>, chunks: seq<seq<byte>>)
    requires chunks != []
    ensures prefix + Concat(chunks) == (prefix + chunks[0]) + Concat(chunks[1..])
  {
  }

  /** Each range of a contiguous run ends where the next one starts. */
  lemma {:induction false} ContiguousRangesAdjacent(offset: nat, chunks: seq<seq<byte>>)
    ensures |ContiguousRanges(offset, chunks)| == |chunks|
    ensures |chunks| > 0 ==> ContiguousRanges(offset, chunks)[0].location == offset
    ensures forall i :: 0 <= i < |chunks| - 1 ==>
      ContiguousRanges(offset, chunks)[i + 1].location ==
      ContiguousRanges(offset, chunks)[i].location + ContiguousRanges(offset, chunks)[i].length
    decreases |chunks|
  {
    if chunks != [] {
      ContiguousRangesAdjacent(offset + |chunks[0]|, chunks[1..]);
      var rs := ContiguousRanges(offset, chunks);
      assert rs[1..] == ContiguousRanges(offset + |chunks[0]|, chunks[1..]);
    }
  }

  /** A data callback on a live worker appends the chunk's effects and then
      only notifications; it advances the offset by the chunk's length and
      changes nothing else. */
  lemma OnDataStep(s: State, data: seq<byte>, writeOk: bool, env: Environment)
    requires !s.cancelled
    ensures var r := OnData(s, data, writeOk, env);
      var mid := DataEffects(s.startOffset, data, writeOk);
      r == s.(log := r.log, startOffset := s.startOffset + |data|) &&
      |r.log| >= |s.log| + |mid| && r.log == s.log + mid + r.log[|s.log| + |mid|..] &&
      AllPosts(r.log[|s.log| + |mid|..])
  {
    var mid := DataEffects(s.startOffset, data, writeOk);
    var t := s.(log := s.log + mid, startOffset := s.startOffset + |data|);
    var r := Notify(t, false, false, env);
    assert OnData(s, data, writeOk, env) == r;
    assert r.log == t.log + r.log[|t.log|..];
  }

  /** One data callback writes the chunk at the current offset. */
  lemma OnDataWrites(s: State, data: seq<byte>, writeOk: bool, env: Environment)
    requires !s.cancelled
    ensures WrittenRanges(OnData(s, data, writeOk, env).log) == WrittenRanges(s.log) + [NSRange(s.startOffset, |data|)]
  {
    var r := OnData(s, data, writeOk, env);
    var mid := DataEffects(s.startOffset, data, writeOk);
    OnDataStep(s, data, writeOk, env);
    var posts := r.log[|s.log| + |mid|..];
    PostsWriteNothing(posts);
    WrittenRangesAppend(s.log + mid, posts);
    WrittenRangesAppend(s.log, mid);
    DataEffectsWrite(s.startOffset, data, writeOk);
    assert WrittenRanges(r.log) == WrittenRanges(s.log) + WrittenRanges(mid) + [];
  }

  /** One data callback forwards the chunk unchanged, with `isLocal = false`. */
  lemma OnDataForwards(s: State, data: seq<byte>, writeOk: bool, env: Environment)
    requires !s.cancelled
    ensures RemoteBytes(OnData(s, data, writeOk, env).log) == RemoteBytes(s.log) + data
  {
    var r := OnData(s, data, writeOk, env);
    var mid := DataEffects(s.startOffset, data, writeOk);
    OnDataStep(s, data, writeOk, env);
    var posts := r.log[|s.log| + |mid|..];
    PostsWriteNothing(posts);
    RemoteBytesAppend(s.log + mid, posts);
    RemoteBytesAppend(s.log, mid);
    DataEffectsForward(s.startOffset, data, writeOk);
    assert RemoteBytes(r.log) == RemoteBytes(s.log) + RemoteBytes(mid) + [];
  }

  /** One data callback reports -2 to the delegate exactly when the write failed. */
  lemma OnDataReportsWriteFailure(s: State, data: seq<byte>, writeOk: bool, env: Environment)
    requires !s.cancelled
    ensures var r := OnData(s, data, writeOk, env);
      |r.log| >= |s.log| && r.log[..|s.log|] == s.log &&
      (Finished(Some(WriteCacheFailed)) in r.log[|s.log|..] <==> !writeOk)
  {
    var r := OnData(s, data, writeOk, env);
    var mid := DataEffects(s.startOffset, data, writeOk);
    OnDataStep(s, data, writeOk, env);
    var posts := r.log[|s.log| + |mid|..];
    AppendAssoc(s.log, mid, posts);
    assert r.log[|s.log|..] == mid + posts;
    DataEffectsReport(s.startOffset, data, writeOk);
    assert Finished(Some(WriteCacheFailed)) !in posts by {
      assert AllPosts(posts);
    }
  }

  /** A run of data callbacks, with what the store reports for each write. */
  function DataRun(s: State, chunks: seq<seq<byte>>, oks: seq<bool>, env: Environment): State
    requires |oks| == |chunks|
    decreases |chunks|
  {
    if chunks == [] then s else DataRun(OnData(s, chunks[0], oks[0], env), chunks[1..], oks[1..], env)
  }

  /** The chunks of one remote transfer are written back to back from the
      offset the Remote action set, whatever the store reports. */
  lemma {:induction false} DataRunContiguous(s: State, chunks: seq<seq<byte>>, oks: seq<bool>, env: Environment)
    requires !s.cancelled && |oks| == |chunks|
    ensures WrittenRanges(DataRun(s, chunks, oks, env).log) == WrittenRanges(s.log) + ContiguousRanges(s.startOffset, chunks)
    decreases |chunks|
  {
    if chunks != [] {
      var t := OnData(s, chunks[0], oks[0], env);
      OnDataStep(s, chunks[0], oks[0], env);
      OnDataWrites(s, chunks[0], oks[0], env);
      DataRunContiguous(t, chunks[1..], oks[1..], env);
      AppendAssoc(WrittenRanges(s.log), [NSRange(s.startOffset, |chunks[0]|)], ContiguousRanges(t.startOffset, chunks[1..]));
      ContiguousRangesStep(s.startOffset, t.startOffset, chunks);
    }
  }

  /** The chunks are forwarded unchanged and in order, with `isLocal = false`. */
  lemma {:induction false} DataRunForwards(s: State, chunks: seq<seq<byte>>, oks: seq<bool>, env: Environment)
    requires !s.cancelled && |oks| == |chunks|
    ensures RemoteBytes(DataRun(s, chunks, oks, env).log) == RemoteBytes(s.log) + Concat(chunks)
    decreases |chunks|
  {
    if chunks != [] {
      var t := OnData(s, chunks[0], oks[0], env);
      OnDataStep(s, chunks[0], oks[0], env);
      OnDataForwards(s, chunks[0], oks[0], env);
      DataRunForwards(t, chunks[1..], oks[1..], env);
      ConcatStep(RemoteBytes(s.log), chunks);
    }
  }

  /** The run only appends to the log, leaves the plan alone and moves the
      offset past every byte received. */
  lemma {:induction false} DataRunAdvances(s: State, chunks: seq<seq<byte>>, oks: seq<bool>, env: Environment)
    requires !s.cancelled && |oks| == |chunks|
    ensures DataRun(s, chunks, oks, env).actions == s.actions && !DataRun(s, chunks, oks, env).cancelled
    ensures DataRun(s, chunks, oks, env).startOffset == s.startOffset + |Concat(chunks)|
    ensures |DataRun(s, chunks, oks, env).log| >= |s.log| && DataRun(s, chunks, oks, env).log[..|s.log|] == s.log
    decreases |chunks|
  {
    if chunks != [] {
      var t := OnData(s, chunks[0], oks[0], env);
      OnDataReportsWriteFailure(s, chunks[0], oks[0], env);
      OnDataStep(s, chunks[0], oks[0], env);
      DataRunAdvances(t, chunks[1..], oks[1..], env);
      PrefixChain(s.log, t.log, DataRun(t, chunks[1..], oks[1..], env).log);
    }
  }

  /** A response whose MIME type names video, audio or application data is
      allowed and starts the store writing; any other is cancelled with no
      effect; a response without a MIME type gets no answer at all. */
  lemma ResponseOutcome(s: State, response: Response)
    ensures var (r, d) := OnResponse(s, response);
      (d == Some(Allow) <==> response.mimeType.Some? && AllowedMime(response.mimeType.value)) &&
      (d == None <==> response.mimeType.None?) &&
      (if d == Some(Allow) then r == s.(log := s.log + [ReceivedResponse(response), StartWriting]) else r == s)
  {
  }

  /** Completion always closes and saves the store. After an error it reports
      that error once and takes no further action; after success it notifies
      with a flush and moves on to the next action. */
  lemma CompleteOutcome(s: State, error: Option<int>, env: Environment)
    ensures var r := OnComplete(s, error, env);
      |r.log| >= |s.log| + 2 && r.log[..|s.log| + 2] == s.log + [FinishWriting, Save]
    ensures error.Some? ==>
      var posts := if env.media.Some? then [PostDidFinishCache(error)] else [];
      OnComplete(s, error, env) == s.(log := s.log + [FinishWriting, Save, Finished(error)] + posts)
    ensures error.None? ==>
      exists posts :: AllPosts(posts) && OnComplete(s, error, env) == Process(s.(log := s.log + [FinishWriting, Save] + posts), env)
  {
    var s1 := s.(log := s.log + [FinishWriting, Save]);
    if error.Some? {
      var s2 := s1.(log := s1.log + [Finished(error)]);
      assert s2.log == s.log + [FinishWriting, Save, Finished(error)];
      var r := NotifyFinished(s2, error, env);
      assert r.log == s2.log + r.log[|s2.log|..];
    } else {
      var n := Notify(s1, true, true, env);
      var posts := n.log[|s1.log|..];
      assert n == s.(log := s.log + [FinishWriting, Save] + posts);
      ProcessKeepsPrefix(n, env);
    }
  }

  lemma {:induction false} ProcessKeepsPrefix(s: State, env: Environment)
    ensures |Process(s, env).log| >= |s.log| && Process(s, env).log[..|s.log|] == s.log
    decreases |s.actions|
  {
    if !s.cancelled && s.actions != [] && s.actions[0].kind == Local && s.actions[0].range in env.store {
      var t := s.(actions := s.actions[1..], log := s.log + [ReceivedData(env.store[s.actions[0].range], true)]);
      ProcessKeepsPrefix(t, env);
    }
  }

  /** Since `notifyTime` stays 0, the throttle never holds progress back once
      the clock is past the interval: an unflushed notify posts just like a
      flushed one. */
  lemma NotifyNeverThrottled(s: State, isFinished: bool, env: Environment)
    requires s.notifyTime == 0 && env.now > NotifyInterval
    ensures Notify(s, false, isFinished, env) == Notify(s, true, isFinished, env)
    ensures env.media.Some? ==> PostDidUpdateCache in Notify(s, false, isFinished, env).log[|s.log|..]
  {
  }

  /** No callback assigns `notifyTime`, so throttling sees its initial value forever. */
  lemma NotifyTimeNeverWritten(s: State, data: seq<byte>, ok: bool, error: Option<int>, response: Response, env: Environment)
    ensures Process(s, env).notifyTime == s.notifyTime
    ensures OnData(s, data, ok, env).notifyTime == s.notifyTime
    ensures OnComplete(s, error, env).notifyTime == s.notifyTime
    ensures OnResponse(s, response).0.notifyTime == s.notifyTime
    ensures OnCancel(s).notifyTime == s.notifyTime
  {
    ProcessNotifyTime(s, env);
    var s1 := s.(log := s.log + [FinishWriting, Save]);
    ProcessNotifyTime(Notify(s1, true, true, env), env);
  }

  lemma {:induction false} ProcessNotifyTime(s: State, env: Environment)
    ensures Process(s, env).notifyTime == s.notifyTime && Process(s, env).url == s.url
    decreases |s.actions|
  {
    if !s.cancelled && s.actions != [] && s.actions[0].kind == Local && s.actions[0].range in env.store {
      var t := s.(actions := s.actions[1..], log := s.log + [ReceivedData(env.store[s.actions[0].range], true)]);
      ProcessNotifyTime(t, env);
    }
  }

  /** SandPlayerDownloadActionWorker. The delegate is taken to be present;
      the session and the media worker appear as `log` entries and as the
      environment passed to each callback. */
  class Worker {
    const url: string
    var actions: seq<CacheAction>
    var startOffset: nat
    var cancelled: bool
    var notifyTime: int
    var log: seq<Effect>

    function Snapshot(): State
      reads this
    {
      State(url, actions, startOffset, cancelled, notifyTime, log)
    }

    constructor (actions: seq<CacheAction>, url: string)
      ensures Snapshot() == Initial(url, actions)
    {
      this.url := url;
      this.actions := actions;
      startOffset := 0;
      cancelled := false;
      notifyTime := 0;
      log := [];
    }

    /** `start`. */
    method Start(env: Environment)
      modifies this
      ensures Snapshot() == Process(old(Snapshot()), env)
    {
      ProcessActions(env);
    }

    method Cancel()
      modifies this
      ensures Snapshot() == OnCancel(old(Snapshot()))
    {
      log := log + [InvalidateSession];
      cancelled := true;
    }

    method ProcessActions(env: Environment)
      modifies this
      ensures Snapshot() == Process(old(Snapshot()), env)
      decreases |actions|
    {
      if cancelled {
        return;
      }
      if actions == [] {
        log := log + [Finished(None)];
        return;
      }
      var action := actions[0];
      actions := actions[1..];
      if action.kind == Local {
        var cached := Read(env.store, action.range);
        if cached.Some? {
          log := log + [ReceivedData(cached.value, true)];
          ProcessActions(env);
        } else {
          log := log + [Finished(Some(ReadCacheFailed))];
        }
      } else {
        var request := Request(url, RangeHeader(action.range));
        startOffset := action.range.location;
        log := log + [StartTask(request)];
      }
    }

    method NotifyProgress(isFlush: bool, isFinished: bool, env: Environment)
      modifies this
      ensures Snapshot() == Notify(old(Snapshot()), isFlush, isFinished, env)
    {
      if notifyTime < env.now - NotifyInterval || isFlush {
        if env.media.Some? {
          log := log + [PostDidUpdateCache];
          if isFinished && env.media.value.complete {
            NotifyDownloadFinished(None, env);
          }
        }
      }
    }

    method NotifyDownloadFinished(error: Option<int>, env: Environment)
      modifies this
      ensures Snapshot() == NotifyFinished(old(Snapshot()), error, env)
    {
      if env.media.Some? {
        log := log + [PostDidFinishCache(error)];
      }
    }

    method DidComplete(error: Option<int>, env: Environment)
      modifies this
      ensures Snapshot() == OnComplete(old(Snapshot()), error, env)
    {
      log := log + [FinishWriting, Save];
      if error.Some? {
        log := log + [Finished(error)];
        NotifyDownloadFinished(error, env);
      } else {
        NotifyProgress(true, true, env);
        ProcessActions(env);
      }
    }

    method DidReceiveData(data: seq<byte>, writeOk: bool, env: Environment)
      modifies this
      ensures Snapshot() == OnData(old(Snapshot()), data, writeOk, env)
    {
      if cancelled {
        return;
      }
      var range := NSRange(startOffset, |data|);
      log := log + [Write(range, data)];
      if !writeOk {
        log := log + [Finished(Some(WriteCacheFailed))];
      }
      log := log + [Save];
      startOffset := startOffset + |data|;
      log := log + [ReceivedData(data, false)];
      assert log == old(log) + DataEffects(old(startOffset), data, writeOk);
      assert Snapshot() == old(Snapshot()).(log := log, startOffset := startOffset);
      NotifyProgress(false, false, env);
    }

    method DidReceiveResponse(response: Response) returns (disposition: Option<Disposition>)
      modifies this
      ensures (Snapshot(), disposition) == OnResponse(old(Snapshot()), response)
    {
      disposition := None;
      if response.mimeType.Some? {
        var mimeType := response.mimeType.value;
        if !AllowedMime(mimeType) {
          disposition := Some(Disposition.Cancel);
        } else {
          log := log + [ReceivedResponse(response), StartWriting];
          disposition := Some(Allow);
        }
      }
    }
  }
}
