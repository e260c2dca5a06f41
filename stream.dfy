/**
 * The streaming loop every adapter runs: each text the transport yields is
 * appended to `fullContent` and handed to `onChunk` when it is non-empty; when
 * the stream ends `onComplete(fullContent)` fires, and when it raises,
 * `onError` fires and the error is rethrown.
 *
 * The transport is a given sequence of texts plus an optional failure point.
 */
module Stream {
  import opened Base
  import opened LlmTypes
  import Seqs

  /** The stream raises `message` after delivering `delivered` items. */
  datatype StreamFailure = StreamFailure(delivered: nat, message: string)

  /** The texts that are not empty, in order. */
  function NonEmpty(texts: seq<string>): (r: seq<string>)
    ensures |r| <= |texts|
    ensures forall i :: 0 <= i < |r| ==> r[i] != ""
  {
    if texts == [] then []
    else
      var t := texts[|texts| - 1];
      NonEmpty(texts[..|texts| - 1]) + (if t != "" then [t] else [])
  }

  function Concat(ts: seq<string>): string {
    if ts == [] then "" else Concat(ts[..|ts| - 1]) + ts[|ts| - 1]
  }

  /** One `onChunk` call per text. */
  function Chunks(ts: seq<string>): (r: seq<StreamEvent>)
    ensures |r| == |ts|
    ensures forall i :: 0 <= i < |ts| ==> r[i] == OnChunk(ts[i])
  {
    if ts == [] then [] else Chunks(ts[..|ts| - 1]) + [OnChunk(ts[|ts| - 1])]
  }

  /** The concatenation of the `onChunk` arguments in a trace. */
  function ChunkText(trace: seq<StreamEvent>): string {
    if trace == [] then ""
    else
      var e := trace[|trace| - 1];
      ChunkText(trace[..|trace| - 1]) + (if e.OnChunk? then e.chunk else "")
  }

  /**
   * What the handlers see: non-empty chunks, then exactly one terminal call,
   * and an `onComplete` argument equal to the concatenation of the chunks.
   */
  predicate WellFormedTrace(trace: seq<StreamEvent>) {
    |trace| >= 1
    && (forall i :: 0 <= i < |trace| - 1 ==> trace[i].OnChunk? && trace[i].chunk != "")
    && !trace[|trace| - 1].OnChunk?
    && (trace[|trace| - 1].OnComplete? ==> trace[|trace| - 1].content == ChunkText(trace[..|trace| - 1]))
  }

  lemma {:induction false} ChunkTextOfChunks(ts: seq<string>)
    ensures ChunkText(Chunks(ts)) == Concat(ts)
  {
    if ts != [] {
      var c := Chunks(ts);
      assert c[..|c| - 1] == Chunks(ts[..|ts| - 1]);
      ChunkTextOfChunks(ts[..|ts| - 1]);
    }
  }

  /** A trace of non-empty chunks closed by an error, or by completion with their concatenation, is well formed. */
  lemma TraceWellFormed(ts: seq<string>, last: StreamEvent)
    requires forall i :: 0 <= i < |ts| ==> ts[i] != ""
    requires last.OnError? || last == OnComplete(Concat(ts))
    ensures WellFormedTrace(Chunks(ts) + [last])
  {
    var trace := Chunks(ts) + [last];
    assert trace[..|trace| - 1] == Chunks(ts);
    ChunkTextOfChunks(ts);
  }

  /** The number of items processed before the stream stops. */
  function Processed(n: nat, failure: Option<StreamFailure>): (k: nat)
    ensures k <= n
    ensures failure.None? ==> k == n
    ensures failure.Some? ==> k == if failure.value.delivered < n then failure.value.delivered else n
  {
    if failure.Some? && failure.value.delivered < n then failure.value.delivered else n
  }

  /** A transport that yields one text per item, and may raise part-way. */
  datatype TextStream = TextStream(texts: seq<string>, failure: Option<StreamFailure>)

  /** The handler calls of one streaming run, and whether the call resolved or rethrew. */
  datatype StreamRun = StreamRun(trace: seq<StreamEvent>, outcome: Result<()>)

  /**
   * The run the loop below produces: the non-empty texts seen before the
   * stream stops become chunks, then `onComplete` with their concatenation,
   * or `onError` with the stream's error, which is also rethrown.
   */
  function ExpectedRun(texts: seq<string>, failure: Option<StreamFailure>): (r: StreamRun)
    ensures WellFormedTrace(r.trace)
    ensures r.outcome.Ok? <==> failure.None?
    ensures failure.Some? ==>
      r.outcome == Err(failure.value.message) && r.trace[|r.trace| - 1] == OnError(failure.value.message)
    ensures failure.None? ==> r.trace[|r.trace| - 1] == OnComplete(Concat(NonEmpty(texts)))
    ensures r.trace[..|r.trace| - 1] == Chunks(NonEmpty(texts[..Processed(|texts|, failure)]))
  {
    var sent := NonEmpty(texts[..Processed(|texts|, failure)]);
    Seqs.TakeAll(texts);
    var last := if failure.Some? then OnError(failure.value.message) else OnComplete(Concat(sent));
    TraceWellFormed(sent, last);
    assert (Chunks(sent) + [last])[..|Chunks(sent)|] == Chunks(sent);
    StreamRun(Chunks(sent) + [last], if failure.Some? then Err(failure.value.message) else Ok(()))
  }

  /** The `for await` loop with its `try`/`catch`. */
  method RunStream(texts: seq<string>, failure: Option<StreamFailure>)
    returns (trace: seq<StreamEvent>, outcome: Result<()>)
    ensures StreamRun(trace, outcome) == ExpectedRun(texts, failure)
  {
    var stop := Processed(|texts|, failure);
    var fullContent := "";
    trace := [];
    var i := 0;
    while i < stop
      invariant 0 <= i <= stop
      invariant fullContent == Concat(NonEmpty(texts[..i]))
      invariant trace == Chunks(NonEmpty(texts[..i]))
    {
      var delta := texts[i];
      ghost var done := NonEmpty(texts[..i]);
      Seqs.TakeSnoc(texts, i);
      assert NonEmpty(texts[..i + 1]) == done + (if delta != "" then [delta] else []);
      if delta != "" {
        assert (done + [delta])[..|done|] == done;
        assert Concat(done + [delta]) == Concat(done) + delta;
        fullContent := fullContent + delta;
        trace := trace + [OnChunk(delta)];
      } else {
        assert done + [] == done;
      }
      i := i + 1;
    }
    if failure.Some? {
      trace := trace + [OnError(failure.value.message)];
      outcome := Err(failure.value.message);
    } else {
      trace := trace + [OnComplete(fullContent)];
      outcome := Ok(());
    }
  }
}
