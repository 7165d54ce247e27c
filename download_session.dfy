/** The chunk buffer between URLSession and the download worker
    (SandPlayerDownloadURLSessionManager): network reads are collected and
    handed on as one chunk once more than 10 KiB has piled up; a clean
    completion hands on what is left. */
module DownloadSession {
  import opened Common

  /** `kBufferSize`: 10 * 1024 bytes. */
  const BufferSize: nat := 10 * 1024

  /** What the manager forwards to its delegate (the download worker). */
  datatype SessionEvent =
    | ResponseReceived(response: Response)
    | DataReceived(data: seq<byte>)
    | Completed(error: Option<int>)

  /** The buffer after a callback, and what the callback forwarded, in order. */
  datatype Step = Step(buffer: seq<byte>, forwarded: seq<SessionEvent>)

  /** The bytes carried by the forwarded data events, in order. */
  function ForwardedBytes(events: seq<SessionEvent>): seq<byte>
    decreases |events|
  {
    if events == [] then []
    else (if events[0].DataReceived? then events[0].data else []) + ForwardedBytes(events[1..])
  }

  lemma {:induction false} ForwardedBytesAppend(a: seq<SessionEvent>, b: seq<SessionEvent>)
    ensures ForwardedBytes(a + b) == ForwardedBytes(a) + ForwardedBytes(b)
    decreases |a|
  {
    if a == [] {
      assert a + b == b;
    } else {
      assert (a + b)[1..] == a[1..] + b;
      ForwardedBytesAppend(a[1..], b);
    }
  }

  lemma ForwardedBytesOne(e: SessionEvent)
    ensures ForwardedBytes([e]) == if e.DataReceived? then e.data else []
  {
    assert [e][1..] == [];
  }

  predicate NoCompletion(events: seq<SessionEvent>) {
    forall i :: 0 <= i < |events| ==> !events[i].Completed?
  }

  /** `urlSession(_:dataTask:didReceive data:)`: append, then forward the whole
      buffer and empty it once it is longer than `kBufferSize`. */
  function OnData(buffer: seq<byte>, data: seq<byte>): (r: Step)
    ensures |r.buffer| <= BufferSize
    ensures ForwardedBytes(r.forwarded) + r.buffer == buffer + data
    ensures r.forwarded != [] <==> |buffer| + |data| > BufferSize
    ensures r.forwarded != [] ==> r.forwarded == [DataReceived(buffer + data)] && r.buffer == []
  {
    var b := buffer + data;
    if |b| > BufferSize then Step([], [DataReceived(b)]) else Step(b, [])
  }

  /** `urlSession(_:task:didCompleteWithError:)`: a clean completion first
      forwards whatever is buffered; after an error the buffer is neither
      forwarded nor cleared. The completion itself is forwarded last, once. */
  function OnComplete(buffer: seq<byte>, error: Option<int>): (r: Step)
    ensures |r.forwarded| > 0 && r.forwarded[|r.forwarded| - 1] == Completed(error)
    ensures NoCompletion(r.forwarded[..|r.forwarded| - 1])
    ensures ForwardedBytes(r.forwarded) + r.buffer == buffer
    ensures error.None? ==> r.buffer == []
    ensures error.None? && buffer != [] ==> r.forwarded == [DataReceived(buffer), Completed(None)]
    ensures error.Some? || buffer == [] ==> r.forwarded == [Completed(error)] && r.buffer == buffer
  {
    ForwardedBytesOne(Completed(error));
    if |buffer| > 0 && error == None then
      ForwardedBytesAppend([DataReceived(buffer)], [Completed(None)]);
      ForwardedBytesOne(DataReceived(buffer));
      Step([], [DataReceived(buffer), Completed(None)])
    else Step(buffer, [Completed(error)])
  }

  /** A run of data callbacks, starting from `buffer`. */
  function Feed(buffer: seq<byte>, chunks: seq<seq<byte>>): Step
    decreases |chunks|
  {
    if chunks == [] then Step(buffer, [])
    else
      var s := OnData(buffer, chunks[0]);
      var rest := Feed(s.buffer, chunks[1..]);
      Step(rest.buffer, s.forwarded + rest.forwarded)
  }

  /** A whole transfer from a fresh manager: the data callbacks, then the completion. */
  function Session(chunks: seq<seq<byte>>, error: Option<int>): Step {
    var f := Feed([], chunks);
    var c := OnComplete(f.buffer, error);
    Step(c.buffer, f.forwarded + c.forwarded)
  }

  predicate LargeChunks(events: seq<SessionEvent>) {
    forall i :: 0 <= i < |events| ==> events[i].DataReceived? && |events[i].data| > BufferSize
  }

  lemma LargeChunksAppend(a: seq<SessionEvent>, b: seq<SessionEvent>)
    requires LargeChunks(a) && LargeChunks(b)
    ensures LargeChunks(a + b)
  {
  }

  lemma FeedUnfold(buffer: seq<byte>, chunks: seq<seq<byte>>)
    requires chunks != []
    ensures var s := OnData(buffer, chunks[0]);
      Feed(buffer, chunks) == Step(Feed(s.buffer, chunks[1..]).buffer, s.forwarded + Feed(s.buffer, chunks[1..]).forwarded)
  {
  }

  /** Feeding loses, adds and reorders no byte. */
  lemma {:induction false} FeedConservesBytes(buffer: seq<byte>, chunks: seq<seq<byte>>)
    ensures ForwardedBytes(Feed(buffer, chunks).forwarded) + Feed(buffer, chunks).buffer == buffer + Concat(chunks)
    decreases |chunks|
  {
    if chunks == [] {
      assert buffer + Concat(chunks) == buffer + [];
    } else {
      var s := OnData(buffer, chunks[0]);
      var rest := Feed(s.buffer, chunks[1..]);
      FeedUnfold(buffer, chunks);
      FeedConservesBytes(s.buffer, chunks[1..]);
      ForwardedBytesAppend(s.forwarded, rest.forwarded);
      var fs, fr, c1 := ForwardedBytes(s.forwarded), ForwardedBytes(rest.forwarded), Concat(chunks[1..]);
      AppendAssoc(fs, fr, rest.buffer);
      AppendAssoc(fs, s.buffer, c1);
      AppendAssoc(buffer, chunks[0], c1);
      assert fs + fr + rest.buffer == fs + (s.buffer + c1);
      assert fs + s.buffer == buffer + chunks[0];
    }
  }

  /** The buffer never holds more than `kBufferSize` bytes between callbacks. */
  lemma {:induction false} FeedBounded(buffer: seq<byte>, chunks: seq<seq<byte>>)
    requires |buffer| <= BufferSize
    ensures |Feed(buffer, chunks).buffer| <= BufferSize
    decreases |chunks|
  {
    if chunks != [] {
      FeedUnfold(buffer, chunks);
      FeedBounded(OnData(buffer, chunks[0]).buffer, chunks[1..]);
    }
  }

  /** Only data chunks longer than `kBufferSize` are forwarded while feeding. */
  lemma {:induction false} FeedForwardsLargeChunks(buffer: seq<byte>, chunks: seq<seq<byte>>)
    ensures LargeChunks(Feed(buffer, chunks).forwarded)
    decreases |chunks|
  {
    if chunks != [] {
      var s := OnData(buffer, chunks[0]);
      FeedUnfold(buffer, chunks);
      FeedForwardsLargeChunks(s.buffer, chunks[1..]);
      LargeChunksAppend(s.forwarded, Feed(s.buffer, chunks[1..]).forwarded);
    }
  }

  /** Feeding loses, adds and reorders no byte, keeps the bound on the buffer,
      and forwards only data chunks longer than `kBufferSize`. */
  lemma FeedConserves(buffer: seq<byte>, chunks: seq<seq<byte>>)
    requires |buffer| <= BufferSize
    ensures ForwardedBytes(Feed(buffer, chunks).forwarded) + Feed(buffer, chunks).buffer == buffer + Concat(chunks)
    ensures |Feed(buffer, chunks).buffer| <= BufferSize
    ensures LargeChunks(Feed(buffer, chunks).forwarded)
  {
    FeedConservesBytes(buffer, chunks);
    FeedBounded(buffer, chunks);
    FeedForwardsLargeChunks(buffer, chunks);
  }

  lemma LargeChunksCompleteNothing(events: seq<SessionEvent>)
    requires LargeChunks(events)
    ensures NoCompletion(events)
  {
  }

  lemma NoCompletionAppend(a: seq<SessionEvent>, b: seq<SessionEvent>)
    requires NoCompletion(a) && NoCompletion(b)
    ensures NoCompletion(a + b)
  {
  }

  /** The whole transfer: no completion before the last event, which is the
      completion, and the forwarded bytes then the buffer are all the bytes. */
  lemma SessionShape(chunks: seq<seq<byte>>, error: Option<int>)
    ensures var s := Session(chunks, error);
      ForwardedBytes(s.forwarded) + s.buffer == Concat(chunks) && |s.buffer| <= BufferSize
    ensures var ev := Session(chunks, error).forwarded;
      |ev| > 0 && ev[|ev| - 1] == Completed(error) && NoCompletion(ev[..|ev| - 1])
  {
    var f := Feed([], chunks);
    var c := OnComplete(f.buffer, error);
    assert Session(chunks, error) == Step(c.buffer, f.forwarded + c.forwarded);
    FeedConserves([], chunks);
    assert [] + Concat(chunks) == Concat(chunks);
    var ff, fc := ForwardedBytes(f.forwarded), ForwardedBytes(c.forwarded);
    ForwardedBytesAppend(f.forwarded, c.forwarded);
    AppendAssoc(ff, fc, c.buffer);
    assert ff + (fc + c.buffer) == ff + f.buffer;
    assert |c.buffer| <= BufferSize by {
      if error.None? {
        assert c.buffer == [];
      } else {
        assert c.buffer == f.buffer;
      }
    }
    DropLastAppend(f.forwarded, c.forwarded);
    LargeChunksCompleteNothing(f.forwarded);
    NoCompletionAppend(f.forwarded, c.forwarded[..|c.forwarded| - 1]);
  }

  /** With a clean completion every appended byte is forwarded, in arrival
      order, and the completion is forwarded exactly once, last. */
  lemma CleanSessionForwardsEverything(chunks: seq<seq<byte>>)
    ensures ForwardedBytes(Session(chunks, None).forwarded) == Concat(chunks)
    ensures Session(chunks, None).buffer == []
    ensures var ev := Session(chunks, None).forwarded;
      |ev| > 0 && ev[|ev| - 1] == Completed(None) && NoCompletion(ev[..|ev| - 1])
  {
    SessionShape(chunks, None);
    var s := Session(chunks, None);
    assert s.buffer == OnComplete(Feed([], chunks).buffer, None).buffer;
    assert ForwardedBytes(s.forwarded) + [] == ForwardedBytes(s.forwarded);
  }

  /** After a transport error the bytes still buffered (at most `kBufferSize`)
      are withheld: what was forwarded plus what stays buffered is everything
      appended, and the last event is the error. */
  lemma FailedSessionWithholdsBuffer(chunks: seq<seq<byte>>, error: int)
    ensures var s := Session(chunks, Some(error));
      ForwardedBytes(s.forwarded) + s.buffer == Concat(chunks) && |s.buffer| <= BufferSize
    ensures var s := Session(chunks, Some(error));
      s.buffer == Feed([], chunks).buffer && s.forwarded == Feed([], chunks).forwarded + [Completed(Some(error))]
    ensures var ev := Session(chunks, Some(error)).forwarded;
      |ev| > 0 && ev[|ev| - 1] == Completed(Some(error)) && NoCompletion(ev[..|ev| - 1])
  {
    SessionShape(chunks, Some(error));
  }

  /** A data callback keeps the account: forwarded bytes then buffered bytes
      are the bytes received. */
  lemma OnDataKeepsAccount(forwarded: seq<SessionEvent>, buffer: seq<byte>, received: seq<byte>, data: seq<byte>)
    requires ForwardedBytes(forwarded) + buffer == received
    ensures ForwardedBytes(forwarded + OnData(buffer, data).forwarded) + OnData(buffer, data).buffer == received + data
  {
    var s := OnData(buffer, data);
    var f := ForwardedBytes(forwarded);
    ForwardedBytesAppend(forwarded, s.forwarded);
    AppendAssoc(f, ForwardedBytes(s.forwarded), s.buffer);
    AppendAssoc(f, buffer, data);
  }

  lemma OnCompleteKeepsAccount(forwarded: seq<SessionEvent>, buffer: seq<byte>, received: seq<byte>, error: Option<int>)
    requires ForwardedBytes(forwarded) + buffer == received
    ensures ForwardedBytes(forwarded + OnComplete(buffer, error).forwarded) + OnComplete(buffer, error).buffer == received
  {
    var s := OnComplete(buffer, error);
    ForwardedBytesAppend(forwarded, s.forwarded);
    AppendAssoc(ForwardedBytes(forwarded), ForwardedBytes(s.forwarded), s.buffer);
  }

  /** SandPlayerDownloadURLSessionManager. `bufferData` is the buffer;
      `forwarded` records the calls made on the delegate, in order;
      `received` is every byte the transport has delivered so far. */
  class SessionManager {
    var buffer: seq<byte>
    var forwarded: seq<SessionEvent>
    ghost var received: seq<byte>

    /** Between callbacks the buffer holds at most `kBufferSize` bytes, and the
        bytes forwarded followed by the bytes buffered are the bytes received. */
    ghost predicate Valid()
      reads this
    {
      |buffer| <= BufferSize && ForwardedBytes(forwarded) + buffer == received
    }

    constructor ()
      ensures Valid()
      ensures buffer == [] && forwarded == [] && received == []
    {
      buffer, forwarded, received := [], [], [];
    }

    /** Responses are passed through and leave the buffer alone. */
    method DidReceiveResponse(response: Response)
      requires Valid()
      modifies this
      ensures Valid()
      ensures buffer == old(buffer) && received == old(received)
      ensures forwarded == old(forwarded) + [ResponseReceived(response)]
    {
      ForwardedBytesAppend(forwarded, [ResponseReceived(response)]);
      ForwardedBytesOne(ResponseReceived(response));
      forwarded := forwarded + [ResponseReceived(response)];
    }

    method DidReceiveData(data: seq<byte>)
      requires Valid()
      modifies this
      ensures Valid()
      ensures received == old(received) + data
      ensures buffer == OnData(old(buffer), data).buffer
      ensures forwarded == old(forwarded) + OnData(old(buffer), data).forwarded
    {
      OnDataKeepsAccount(forwarded, buffer, received, data);
      buffer := buffer + data;
      received := received + data;
      if |buffer| > BufferSize {
        var chunk := buffer;
        buffer := [];
        forwarded := forwarded + [DataReceived(chunk)];
      }
    }

    method DidComplete(error: Option<int>)
      requires Valid()
      modifies this
      ensures Valid()
      ensures received == old(received)
      ensures buffer == OnComplete(old(buffer), error).buffer
      ensures forwarded == old(forwarded) + OnComplete(old(buffer), error).forwarded
    {
      OnCompleteKeepsAccount(forwarded, buffer, received, error);
      if |buffer| > 0 && error == None {
        var chunk := buffer;
        buffer := [];
        AppendAssoc(forwarded, [DataReceived(chunk)], [Completed(error)]);
        assert [DataReceived(chunk)] + [Completed(error)] == [DataReceived(chunk), Completed(error)];
        forwarded := forwarded + [DataReceived(chunk)];
      }
      forwarded := forwarded + [Completed(error)];
    }
  }
}
