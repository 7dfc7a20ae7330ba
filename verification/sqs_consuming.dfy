/** The generic queue-consumer framework shared by both handlers
    (`lambda/sqs_consuming_lambda.py`): read the records of an event, select
    them with a filter, cut the selection into chunks, run a callback per
    chunk with chunk-level failure isolation, and render the accumulated
    failures as a partial-batch-failure report. */
module SqsConsuming {
  import opened Wrappers
  import opened Sequences
  import opened Chunking
  import opened Json

  /** A queue record as the handlers read it: `messageId` through `.get`
      (so it may be absent), `body` by indexing (absent raises `KeyError`). */
  datatype Message = Message(messageId: Option<string>, body: Option<string>)

  /** The invocation event; `records` is its optional `"Records"` entry. */
  datatype Event = Event(records: Option<seq<Message>>)

  /** `{"itemIdentifier": id}` */
  datatype ItemFailure = ItemFailure(itemIdentifier: Option<string>)

  /** `{"batchItemFailures": [...]}` */
  datatype BatchResponse = BatchResponse(batchItemFailures: seq<ItemFailure>)

  /** One call of the error handler, classified by who made it. */
  datatype ErrorReport =
    | ChunkFailed(chunk: seq<Message>)
    | MessageFailed(message: Message)
    | PartialPublishFailure(failedCount: nat, attempted: nat)

  /** The invocation's accumulated state: the `batch_failures` list and the
      error handler's calls, both append-only. */
  datatype Sink = Sink(failures: seq<Message>, reports: seq<ErrorReport>)

  const EmptySink := Sink([], [])

  /** What one callback invocation did: the entries it appended to
      `batch_failures`, the error reports it made, and whether it then
      raised. */
  datatype CallbackResult = CallbackResult(appended: seq<Message>, reports: seq<ErrorReport>, raised: bool)

  type MessageFilter = Message -> PyResult<bool>
  type BatchCallback = seq<Message> -> CallbackResult
  type EntireBatchCallback = (seq<Message>, Sink) -> PyResult<Sink>

  const SubscriptionConfirmationType: string := "SubscriptionConfirmation"

  /** The body is present and parses to a JSON object. */
  predicate BodyIsObject(m: Message, parse: Parser) {
    m.body.Some? && parse(m.body.value).Some? && parse(m.body.value).value.Object?
  }

  /** The parsed body carries `"Type": t`. */
  predicate DeclaresType(m: Message, parse: Parser, t: string) {
    BodyIsObject(m, parse) &&
    var fields := parse(m.body.value).value.fields;
    "Type" in fields && fields["Type"] == Str(t)
  }

  /** Whether a record is a subscription-confirmation handshake. Raises when
      the body is missing, is not JSON, or is not a JSON object. */
  function IsSubscriptionConfirmation(m: Message, parse: Parser): (r: PyResult<bool>)
    ensures r.Raise? <==> !BodyIsObject(m, parse)
    ensures r == Ok(true) <==> DeclaresType(m, parse, SubscriptionConfirmationType)
  {
    if m.body.None? then Raise
    else match parse(m.body.value)
      case None => Raise
      case Some(v) =>
        match Get(v, "Type", Str(""))
        case Raise => Raise
        case Ok(t) => Ok(t == Str(SubscriptionConfirmationType))
  }

  /** A body without `"Type"` is a data record, not a handshake. */
  lemma MissingTypeIsData(m: Message, parse: Parser)
    requires BodyIsObject(m, parse)
    requires "Type" !in parse(m.body.value).value.fields
    ensures IsSubscriptionConfirmation(m, parse) == Ok(false)
  {
  }

  function GetMessagesList(event: Event): seq<Message> {
    event.records.GetOr([])
  }

  function AsErrorId(m: Message): ItemFailure {
    ItemFailure(m.messageId)
  }

  /** The report: one entry per accumulated failure, in accumulation order,
      duplicates kept. */
  function RenderReport(failures: seq<Message>): (r: BatchResponse)
    ensures |r.batchItemFailures| == |failures|
    ensures forall i :: 0 <= i < |failures| ==>
      r.batchItemFailures[i].itemIdentifier == failures[i].messageId
  {
    BatchResponse(seq(|failures|, i requires 0 <= i < |failures| => AsErrorId(failures[i])))
  }

  /** Rendering distributes over concatenation of failure lists, so the
      report keeps the order in which failures were accumulated. */
  lemma RenderReportAppend(a: seq<Message>, b: seq<Message>)
    ensures RenderReport(a + b).batchItemFailures
         == RenderReport(a).batchItemFailures + RenderReport(b).batchItemFailures
  {
  }

  /** The messages a filter keeps: those for which it returns `True`. */
  function Accepts(pred: MessageFilter): Message -> bool {
    m => pred(m) == Ok(true)
  }

  /** `list(filter(pred, all))`: raises as soon as the predicate raises on
      some message; otherwise the accepted messages in order. */
  function FilterMessages(all: seq<Message>, pred: MessageFilter): (r: PyResult<seq<Message>>)
    ensures r.Raise? <==> exists i :: 0 <= i < |all| && pred(all[i]).Raise?
    ensures r.Ok? ==> r.value == Filter(all, Accepts(pred))
  {
    if |all| == 0 then Ok([])
    else match pred(all[0])
      case Raise => Raise
      case Ok(keep) =>
        match FilterMessages(all[1..], pred)
        case Raise =>
          assert exists i :: 0 <= i < |all[1..]| && pred(all[1..][i]).Raise?;
          var i :| 0 <= i < |all[1..]| && pred(all[1..][i]).Raise?;
          assert pred(all[i + 1]).Raise?;
          Raise
        case Ok(rest) =>
          assert forall i :: 1 <= i < |all| ==> all[i] == all[1..][i - 1];
          Ok(if keep then [all[0]] + rest else rest)
  }

  /** What one chunk adds to `batch_failures`: the callback's own appends,
      then the whole chunk if the callback raised. */
  function ChunkFailures(chunk: seq<Message>, callback: BatchCallback): seq<Message> {
    var res := callback(chunk);
    res.appended + (if res.raised then chunk else [])
  }

  /** The error reports one chunk produces. */
  function ChunkReports(chunk: seq<Message>, callback: BatchCallback): seq<ErrorReport> {
    var res := callback(chunk);
    res.reports + (if res.raised then [ChunkFailed(chunk)] else [])
  }

  /** The `for` loop over chunks, with its `try`/`except` around each
      callback invocation. */
  function RunChunks(chunks: seq<seq<Message>>, callback: BatchCallback, sink: Sink): (r: Sink)
    ensures sink.failures <= r.failures
    ensures sink.reports <= r.reports
    decreases |chunks|
  {
    if |chunks| == 0 then sink
    else
      var next := Sink(sink.failures + ChunkFailures(chunks[0], callback),
                       sink.reports + ChunkReports(chunks[0], callback));
      RunChunks(chunks[1..], callback, next)
  }

  /** The contributions of a sequence of chunks, each chunk on its own. */
  function AllChunkFailures(chunks: seq<seq<Message>>, callback: BatchCallback): seq<Message>
  {
    if |chunks| == 0 then [] else ChunkFailures(chunks[0], callback) + AllChunkFailures(chunks[1..], callback)
  }

  function AllChunkReports(chunks: seq<seq<Message>>, callback: BatchCallback): seq<ErrorReport>
  {
    if |chunks| == 0 then [] else ChunkReports(chunks[0], callback) + AllChunkReports(chunks[1..], callback)
  }

  lemma {:induction false} AllChunkFailuresAppend(a: seq<seq<Message>>, b: seq<seq<Message>>, callback: BatchCallback)
    ensures AllChunkFailures(a + b, callback) == AllChunkFailures(a, callback) + AllChunkFailures(b, callback)
    ensures AllChunkReports(a + b, callback) == AllChunkReports(a, callback) + AllChunkReports(b, callback)
  {
    if |a| == 0 {
      assert a + b == b;
    } else {
      assert (a + b)[0] == a[0];
      assert (a + b)[1..] == a[1..] + b;
      AllChunkFailuresAppend(a[1..], b, callback);
    }
  }

  /** The loop only appends: the result is the prior state followed by each
      chunk's own contribution, in chunk order. No chunk's contribution
      depends on what earlier chunks did. */
  lemma {:induction false} RunChunksAppends(chunks: seq<seq<Message>>, callback: BatchCallback, sink: Sink)
    ensures RunChunks(chunks, callback, sink)
         == Sink(sink.failures + AllChunkFailures(chunks, callback),
                 sink.reports + AllChunkReports(chunks, callback))
    decreases |chunks|
  {
    if |chunks| > 0 {
      var next := Sink(sink.failures + ChunkFailures(chunks[0], callback),
                       sink.reports + ChunkReports(chunks[0], callback));
      RunChunksAppends(chunks[1..], callback, next);
      assert next.failures + AllChunkFailures(chunks[1..], callback)
          == sink.failures + AllChunkFailures(chunks, callback);
      assert next.reports + AllChunkReports(chunks[1..], callback)
          == sink.reports + AllChunkReports(chunks, callback);
    }
  }

  /** The contributions of the chunks around position `k`. */
  lemma AllChunkFailuresAround(chunks: seq<seq<Message>>, callback: BatchCallback, k: nat)
    requires k < |chunks|
    ensures AllChunkFailures(chunks, callback)
         == AllChunkFailures(chunks[..k], callback) + (ChunkFailures(chunks[k], callback) + AllChunkFailures(chunks[k + 1..], callback))
  {
    var rest := chunks[k..];
    assert chunks == chunks[..k] + rest;
    AllChunkFailuresAppend(chunks[..k], rest, callback);
    assert rest[0] == chunks[k] && rest[1..] == chunks[k + 1..];
    assert AllChunkFailures(rest, callback) == ChunkFailures(rest[0], callback) + AllChunkFailures(rest[1..], callback);
  }

  lemma AllChunkReportsAround(chunks: seq<seq<Message>>, callback: BatchCallback, k: nat)
    requires k < |chunks|
    ensures AllChunkReports(chunks, callback)
         == AllChunkReports(chunks[..k], callback) + (ChunkReports(chunks[k], callback) + AllChunkReports(chunks[k + 1..], callback))
  {
    var rest := chunks[k..];
    assert chunks == chunks[..k] + rest;
    AllChunkFailuresAppend(chunks[..k], rest, callback);
    assert rest[0] == chunks[k] && rest[1..] == chunks[k + 1..];
    assert AllChunkReports(rest, callback) == ChunkReports(rest[0], callback) + AllChunkReports(rest[1..], callback);
  }

  /** A chunk whose callback raises is appended whole, after whatever the
      callback appended before raising (duplicates kept); the chunks before
      and after it contribute exactly what they would have contributed on
      their own. */
  lemma RaisingChunkFailsWhole(chunks: seq<seq<Message>>, callback: BatchCallback, sink: Sink, k: nat)
    requires k < |chunks|
    requires callback(chunks[k]).raised
    ensures RunChunks(chunks, callback, sink).failures
         == sink.failures + AllChunkFailures(chunks[..k], callback)
            + callback(chunks[k]).appended + chunks[k]
            + AllChunkFailures(chunks[k + 1..], callback)
  {
    RunChunksAppends(chunks, callback, sink);
    AllChunkFailuresAround(chunks, callback, k);
  }

  /** A chunk whose callback raises is reported to the error handler as a
      whole, after the callback's own reports. */
  lemma RaisingChunkReported(chunks: seq<seq<Message>>, callback: BatchCallback, sink: Sink, k: nat)
    requires k < |chunks|
    requires callback(chunks[k]).raised
    ensures RunChunks(chunks, callback, sink).reports
         == sink.reports + AllChunkReports(chunks[..k], callback)
            + callback(chunks[k]).reports + [ChunkFailed(chunks[k])]
            + AllChunkReports(chunks[k + 1..], callback)
  {
    RunChunksAppends(chunks, callback, sink);
    AllChunkReportsAround(chunks, callback, k);
  }

  /** With a callback that catches per message and appends exactly the
      messages that fail, the chunks together contribute the failing
      messages of the whole sequence, in order. */
  lemma {:induction false} AllChunkFailuresPerMessage(chunks: seq<seq<Message>>, callback: BatchCallback, fails: Message -> bool)
    requires forall i :: 0 <= i < |chunks| ==> ChunkFailures(chunks[i], callback) == Filter(chunks[i], fails)
    ensures AllChunkFailures(chunks, callback) == Filter(Flatten(chunks), fails)
  {
    if |chunks| > 0 {
      AllChunkFailuresPerMessage(chunks[1..], callback, fails);
      FilterAppend(chunks[0], Flatten(chunks[1..]), fails);
    }
  }

  /** With a callback that fails every chunk whole, the chunks together
      contribute every message once, in order. */
  lemma {:induction false} AllChunkFailuresWhole(chunks: seq<seq<Message>>, callback: BatchCallback)
    requires forall i :: 0 <= i < |chunks| ==> ChunkFailures(chunks[i], callback) == chunks[i]
    ensures AllChunkFailures(chunks, callback) == Flatten(chunks)
  {
    if |chunks| > 0 {
      AllChunkFailuresWhole(chunks[1..], callback);
    }
  }

  /** Chunks that contribute no failure add none together. */
  lemma {:induction false} AllChunkFailuresNone(chunks: seq<seq<Message>>, callback: BatchCallback)
    requires forall i :: 0 <= i < |chunks| ==> ChunkFailures(chunks[i], callback) == []
    ensures AllChunkFailures(chunks, callback) == []
  {
    if |chunks| > 0 {
      AllChunkFailuresNone(chunks[1..], callback);
    }
  }

  /** A callback that never raises never triggers a whole-chunk report: the
      only whole-chunk reports are those the callback makes itself. */
  lemma {:induction false} NoWholeChunkReportWithoutRaise(chunks: seq<seq<Message>>, callback: BatchCallback)
    requires forall i :: 0 <= i < |chunks| ==> !callback(chunks[i]).raised
    requires forall i, j :: 0 <= i < |chunks| && 0 <= j < |callback(chunks[i]).reports| ==>
      !callback(chunks[i]).reports[j].ChunkFailed?
    ensures forall j :: 0 <= j < |AllChunkReports(chunks, callback)| ==> !AllChunkReports(chunks, callback)[j].ChunkFailed?
  {
    if |chunks| > 0 {
      NoWholeChunkReportWithoutRaise(chunks[1..], callback);
      var first := ChunkReports(chunks[0], callback);
      assert first == callback(chunks[0]).reports;
      var all := AllChunkReports(chunks, callback);
      assert all == first + AllChunkReports(chunks[1..], callback);
      forall j | 0 <= j < |all|
        ensures !all[j].ChunkFailed?
      {
        if j >= |first| {
          assert all[j] == AllChunkReports(chunks[1..], callback)[j - |first|];
        }
      }
    }
  }

  /** With a callback that never raises and reports only single messages,
      every report the framework adds concerns a single message. */
  lemma {:induction false} NoChunkReportWhenCallbackCatches(chunks: seq<seq<Message>>, callback: BatchCallback)
    requires forall i :: 0 <= i < |chunks| ==> !callback(chunks[i]).raised
    requires forall i, j :: 0 <= i < |chunks| && 0 <= j < |callback(chunks[i]).reports| ==>
      callback(chunks[i]).reports[j].MessageFailed?
    ensures forall j :: 0 <= j < |AllChunkReports(chunks, callback)| ==> AllChunkReports(chunks, callback)[j].MessageFailed?
  {
    if |chunks| > 0 {
      NoChunkReportWhenCallbackCatches(chunks[1..], callback);
      var first := ChunkReports(chunks[0], callback);
      assert first == callback(chunks[0]).reports;
      var all := AllChunkReports(chunks, callback);
      assert all == first + AllChunkReports(chunks[1..], callback);
      forall j | 0 <= j < |all|
        ensures all[j].MessageFailed?
      {
        if j >= |first| {
          assert all[j] == AllChunkReports(chunks[1..], callback)[j - |first|];
        }
      }
    }
  }

  /** Every message of every chunk comes from the chunked sequence. */
  lemma ChunkElementInInput(s: seq<Message>, n: nat, i: nat, j: nat)
    requires n > 0
    requires i < |Chunks(s, n)| && j < |Chunks(s, n)[i]|
    ensures Chunks(s, n)[i][j] in s
  {
    ChunksContract(s, n);
    FlattenMembership(Chunks(s, n), Chunks(s, n)[i][j]);
  }

  /** `process_messages_in_batches`. The filter runs before any `try`, so if
      it raises on any message the whole call raises; otherwise the state
      has only grown. */
  function ProcessMessagesInBatches(all: seq<Message>, pred: MessageFilter, callback: BatchCallback,
                                    sink: Sink, maxBatchSize: nat): (r: PyResult<Sink>)
    requires maxBatchSize > 0
    ensures r.Raise? <==> exists i :: 0 <= i < |all| && pred(all[i]).Raise?
    ensures r.Ok? ==> sink.failures <= r.value.failures && sink.reports <= r.value.reports
  {
    match FilterMessages(all, pred)
    case Raise => Raise
    case Ok(filtered) => Ok(RunChunks(Chunks(filtered, maxBatchSize), callback, sink))
  }

  /** The chunks handed to the callback: each holds between 1 and
      `maxBatchSize` accepted messages, and together they are exactly the
      accepted messages in their original relative order. */
  lemma CallbackSeesAcceptedInOrder(all: seq<Message>, pred: MessageFilter, maxBatchSize: nat)
    requires maxBatchSize > 0
    requires forall i :: 0 <= i < |all| ==> pred(all[i]).Ok?
    ensures var chunks := Chunks(Filter(all, Accepts(pred)), maxBatchSize);
      && IsSubsequence(Flatten(chunks), all)
      && Flatten(chunks) == Filter(all, Accepts(pred))
      && (forall i :: 0 <= i < |chunks| ==> 0 < |chunks[i]| <= maxBatchSize)
      && (forall i, j :: 0 <= i < |chunks| && 0 <= j < |chunks[i]| ==> pred(chunks[i][j]) == Ok(true))
  {
    var filtered := Filter(all, Accepts(pred));
    var chunks := Chunks(filtered, maxBatchSize);
    ChunksContract(filtered, maxBatchSize);
    FilterIsSubsequence(all, Accepts(pred));
    forall i, j | 0 <= i < |chunks| && 0 <= j < |chunks[i]|
      ensures pred(chunks[i][j]) == Ok(true)
    {
      FlattenMembership(chunks, chunks[i][j]);
      var k :| 0 <= k < |filtered| && filtered[k] == chunks[i][j];
    }
  }

  /** The failures the framework adds are the chunk contributions of the
      accepted messages. */
  lemma ProcessAppendsChunkFailures(all: seq<Message>, pred: MessageFilter, callback: BatchCallback,
                                    sink: Sink, maxBatchSize: nat)
    requires maxBatchSize > 0
    requires ProcessMessagesInBatches(all, pred, callback, sink, maxBatchSize).Ok?
    ensures var chunks := Chunks(Filter(all, Accepts(pred)), maxBatchSize);
      ProcessMessagesInBatches(all, pred, callback, sink, maxBatchSize).value
      == Sink(sink.failures + AllChunkFailures(chunks, callback),
              sink.reports + AllChunkReports(chunks, callback))
  {
    RunChunksAppends(Chunks(Filter(all, Accepts(pred)), maxBatchSize), callback, sink);
  }

  /** The callback appends only messages of the chunk it was given. */
  ghost predicate AppendsWithinChunk(callback: BatchCallback) {
    forall c: seq<Message>, i :: 0 <= i < |callback(c).appended| ==> callback(c).appended[i] in c
  }

  lemma {:induction false} AllChunkFailuresWithin(chunks: seq<seq<Message>>, callback: BatchCallback, x: Message)
    requires AppendsWithinChunk(callback)
    requires x in AllChunkFailures(chunks, callback)
    ensures x in Flatten(chunks)
  {
    if |chunks| > 0 {
      if x in ChunkFailures(chunks[0], callback) {
        if x in callback(chunks[0]).appended {
          var i :| 0 <= i < |callback(chunks[0]).appended| && callback(chunks[0]).appended[i] == x;
        }
      } else {
        AllChunkFailuresWithin(chunks[1..], callback, x);
      }
    }
  }

  /** With a callback that only appends messages of its own chunk, every
      failure the chunks of the accepted messages contribute is an accepted
      message of the input. */
  lemma ChunkFailuresAreAccepted(all: seq<Message>, pred: MessageFilter, callback: BatchCallback, maxBatchSize: nat)
    requires maxBatchSize > 0
    requires AppendsWithinChunk(callback)
    ensures var added := AllChunkFailures(Chunks(Filter(all, Accepts(pred)), maxBatchSize), callback);
      forall i :: 0 <= i < |added| ==> added[i] in all && pred(added[i]) == Ok(true)
  {
    var filtered := Filter(all, Accepts(pred));
    var chunks := Chunks(filtered, maxBatchSize);
    ChunksContract(filtered, maxBatchSize);
    var added := AllChunkFailures(chunks, callback);
    forall i | 0 <= i < |added|
      ensures added[i] in all && pred(added[i]) == Ok(true)
    {
      AllChunkFailuresWithin(chunks, callback, added[i]);
      var k :| 0 <= k < |filtered| && filtered[k] == added[i];
    }
  }

  /** With a callback that only appends messages of its own chunk, a message
      the filter rejects never appears among the failures this call adds. */
  lemma OnlyAcceptedMessagesFail(all: seq<Message>, pred: MessageFilter, callback: BatchCallback,
                                 sink: Sink, maxBatchSize: nat)
    requires maxBatchSize > 0
    requires AppendsWithinChunk(callback)
    requires ProcessMessagesInBatches(all, pred, callback, sink, maxBatchSize).Ok?
    ensures var r := ProcessMessagesInBatches(all, pred, callback, sink, maxBatchSize).value;
      forall i :: |sink.failures| <= i < |r.failures| ==> r.failures[i] in all && pred(r.failures[i]) == Ok(true)
  {
    ProcessAppendsChunkFailures(all, pred, callback, sink, maxBatchSize);
    ChunkFailuresAreAccepted(all, pred, callback, maxBatchSize);
    var r := ProcessMessagesInBatches(all, pred, callback, sink, maxBatchSize).value;
    var added := AllChunkFailures(Chunks(Filter(all, Accepts(pred)), maxBatchSize), callback);
    assert r.failures == sink.failures + added;
    AppendIndex(sink.failures, added);
  }

  /** `batch_handler`: run the entire-batch callback on the event's records
      with an empty failure list and render what it accumulated. An
      exception from the callback escapes the handler. */
  function BatchHandler(event: Event, entireBatch: EntireBatchCallback): (r: PyResult<BatchResponse>)
    ensures r.Raise? <==> entireBatch(GetMessagesList(event), EmptySink).Raise?
    ensures r.Ok? ==>
      var fs := entireBatch(GetMessagesList(event), EmptySink).value.failures;
      && |r.value.batchItemFailures| == |fs|
      && forall i :: 0 <= i < |fs| ==> r.value.batchItemFailures[i].itemIdentifier == fs[i].messageId
  {
    match entireBatch(GetMessagesList(event), EmptySink)
    case Raise => Raise
    case Ok(sink) => Ok(RenderReport(sink.failures))
  }

  /** A handler that does not raise renders what its callback accumulated. */
  lemma BatchHandlerRenders(event: Event, entireBatch: EntireBatchCallback)
    requires BatchHandler(event, entireBatch).Ok?
    ensures entireBatch(GetMessagesList(event), EmptySink).Ok?
    ensures BatchHandler(event, entireBatch).value
         == RenderReport(entireBatch(GetMessagesList(event), EmptySink).value.failures)
  {
  }

  /** An event without `"Records"` hands the callback no message; with a
      callback that then records nothing, the report is empty. */
  lemma NoRecordsEmptyReport(event: Event, entireBatch: EntireBatchCallback)
    requires event.records.None?
    requires entireBatch([], EmptySink).Ok? && entireBatch([], EmptySink).value.failures == []
    ensures BatchHandler(event, entireBatch) == Ok(BatchResponse([]))
  {
  }
}
