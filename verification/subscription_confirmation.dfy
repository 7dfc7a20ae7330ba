/** The confirmation handler (`lambda/subscription_confirmation_lambda.py`):
    every record is a subscription handshake to complete, one call per
    message, with failures isolated per message. */
module SubscriptionConfirmation {
  import opened Wrappers
  import opened Sequences
  import opened Chunking
  import opened Json
  import opened SqsConsuming

  /** `confirm_subscription(TopicArn, Token)`; the arguments are the JSON
      values found in the request, whatever their kind. */
  type Confirmer = (Value, Value) -> PyResult<()>

  datatype ConfirmationRequest = ConfirmationRequest(topicArn: Value, token: Value)

  /** The body parses to an object carrying both handshake fields. */
  predicate HasRequestFields(m: Message, parse: Parser) {
    BodyIsObject(m, parse) &&
    var fields := parse(m.body.value).value.fields;
    "TopicArn" in fields && "Token" in fields
  }

  /** Read the body, parse it, and take `TopicArn` then `Token`; each step
      raises on a missing body, unparsable text, a non-object or a missing
      field. */
  function ReadRequest(m: Message, parse: Parser): (r: PyResult<ConfirmationRequest>)
    ensures r.Ok? <==> HasRequestFields(m, parse)
    ensures r.Ok? ==>
      var fields := parse(m.body.value).value.fields;
      r.value == ConfirmationRequest(fields["TopicArn"], fields["Token"])
  {
    if m.body.None? then Raise
    else match parse(m.body.value)
      case None => Raise
      case Some(request) =>
        match Index(request, "TopicArn")
        case Raise => Raise
        case Ok(topicArn) =>
          match Index(request, "Token")
          case Raise => Raise
          case Ok(token) => Ok(ConfirmationRequest(topicArn, token))
  }

  /** The handshake of `m` is not completed: the request cannot be read or
      the confirm call raises. */
  predicate HandshakeFails(m: Message, parse: Parser, confirm: Confirmer) {
    match ReadRequest(m, parse)
    case Raise => true
    case Ok(request) => confirm(request.topicArn, request.token).Raise?
  }

  function ConfirmFails(parse: Parser, confirm: Confirmer): Message -> bool {
    (m: Message) => HandshakeFails(m, parse, confirm)
  }

  /** The confirm call receives exactly the request's `TopicArn` and `Token`:
      a message with both fields fails exactly when that call raises, and a
      message without them fails without any call. */
  lemma ConfirmUsesRequestFields(m: Message, parse: Parser, confirm: Confirmer)
    ensures HasRequestFields(m, parse) ==>
      var fields := parse(m.body.value).value.fields;
      (ConfirmFails(parse, confirm)(m) <==> confirm(fields["TopicArn"], fields["Token"]).Raise?)
    ensures !HasRequestFields(m, parse) ==> ConfirmFails(parse, confirm)(m)
  {
    assert ConfirmFails(parse, confirm)(m) == HandshakeFails(m, parse, confirm);
    if HasRequestFields(m, parse) {
      var fields := parse(m.body.value).value.fields;
      assert ReadRequest(m, parse) == Ok(ConfirmationRequest(fields["TopicArn"], fields["Token"]));
    }
  }

  /** `on_confirm_subscription`: every message in its own `try`, so the
      callback never raises and appends exactly the messages that fail, in
      order, each reported once. */
  function OnConfirmSubscription(chunk: seq<Message>, parse: Parser, confirm: Confirmer): (r: CallbackResult)
    ensures !r.raised
    ensures r.appended == Filter(chunk, ConfirmFails(parse, confirm))
    ensures |r.reports| == |r.appended|
    ensures forall i :: 0 <= i < |r.reports| ==> r.reports[i] == MessageFailed(r.appended[i])
  {
    if |chunk| == 0 then CallbackResult([], [], false)
    else
      var m := chunk[0];
      var rest := OnConfirmSubscription(chunk[1..], parse, confirm);
      if HandshakeFails(m, parse, confirm) then CallbackResult([m] + rest.appended, [MessageFailed(m)] + rest.reports, false)
      else rest
  }

  function ConfirmRoute(parse: Parser, confirm: Confirmer): BatchCallback {
    chunk => OnConfirmSubscription(chunk, parse, confirm)
  }

  /** `lambda x: True` */
  const AcceptAll: MessageFilter := m => Ok(true)

  const ConfirmationBatchSize: nat := 10

  function OnEntireBatch(all: seq<Message>, sink: Sink, parse: Parser, confirm: Confirmer): PyResult<Sink> {
    ProcessMessagesInBatches(all, AcceptAll, ConfirmRoute(parse, confirm), sink, ConfirmationBatchSize)
  }

  function EntireBatch(parse: Parser, confirm: Confirmer): EntireBatchCallback {
    (all, sink) => OnEntireBatch(all, sink, parse, confirm)
  }

  function Handler(event: Event, parse: Parser, confirm: Confirmer): PyResult<BatchResponse> {
    BatchHandler(event, EntireBatch(parse, confirm))
  }

  /** Accepting everything, the framework chunks the records themselves. */
  lemma OnEntireBatchChunks(all: seq<Message>, sink: Sink, parse: Parser, confirm: Confirmer)
    ensures var chunks := Chunks(all, ConfirmationBatchSize);
      var route := ConfirmRoute(parse, confirm);
      OnEntireBatch(all, sink, parse, confirm)
      == Ok(Sink(sink.failures + AllChunkFailures(chunks, route), sink.reports + AllChunkReports(chunks, route)))
  {
    var accept := AcceptAll;
    FilterAll(all, Accepts(accept));
    assert forall i :: 0 <= i < |all| ==> accept(all[i]).Ok?;
    ProcessAppendsChunkFailures(all, accept, ConfirmRoute(parse, confirm), sink, ConfirmationBatchSize);
  }

  /** Every record is handed to the callback, in order, in chunks of at most
      ten; the invocation never raises; and the failures it adds are exactly
      the messages whose handshake fails, in input order. */
  lemma ConfirmationFailuresExact(all: seq<Message>, sink: Sink, parse: Parser, confirm: Confirmer)
    ensures var chunks := Chunks(all, ConfirmationBatchSize);
      && Flatten(chunks) == all
      && (forall i :: 0 <= i < |chunks| ==> 0 < |chunks[i]| <= ConfirmationBatchSize)
    ensures OnEntireBatch(all, sink, parse, confirm).Ok?
    ensures OnEntireBatch(all, sink, parse, confirm).value.failures
         == sink.failures + Filter(all, ConfirmFails(parse, confirm))
  {
    var route := ConfirmRoute(parse, confirm);
    var fails := ConfirmFails(parse, confirm);
    var chunks := Chunks(all, ConfirmationBatchSize);
    ChunksContract(all, ConfirmationBatchSize);
    OnEntireBatchChunks(all, sink, parse, confirm);
    forall i | 0 <= i < |chunks|
      ensures ChunkFailures(chunks[i], route) == Filter(chunks[i], fails)
    {
      assert route(chunks[i]) == OnConfirmSubscription(chunks[i], parse, confirm);
    }
    AllChunkFailuresPerMessage(chunks, route, fails);
  }

  /** Per-message errors are caught inside the callback, so every error
      report the invocation adds concerns a single message, never a whole
      chunk. */
  lemma ConfirmationReportsPerMessage(all: seq<Message>, sink: Sink, parse: Parser, confirm: Confirmer)
    ensures OnEntireBatch(all, sink, parse, confirm).Ok?
    ensures var r := OnEntireBatch(all, sink, parse, confirm).value;
      && sink.reports <= r.reports
      && (forall i :: |sink.reports| <= i < |r.reports| ==> r.reports[i].MessageFailed?)
  {
    var route := ConfirmRoute(parse, confirm);
    var chunks := Chunks(all, ConfirmationBatchSize);
    OnEntireBatchChunks(all, sink, parse, confirm);
    forall i | 0 <= i < |chunks|
      ensures !route(chunks[i]).raised
      ensures forall j :: 0 <= j < |route(chunks[i]).reports| ==> route(chunks[i]).reports[j].MessageFailed?
    {
      assert route(chunks[i]) == OnConfirmSubscription(chunks[i], parse, confirm);
    }
    NoChunkReportWhenCallbackCatches(chunks, route);
    var r := OnEntireBatch(all, sink, parse, confirm).value;
    var added := AllChunkReports(chunks, route);
    assert r.reports == sink.reports + added;
    AppendIndex(sink.reports, added);
  }

  /** The report lists exactly the ids of the messages whose handshake
      failed, in input order: a message whose confirm call succeeds is never
      listed. */
  lemma ConfirmationReportExact(event: Event, parse: Parser, confirm: Confirmer)
    ensures Handler(event, parse, confirm)
         == Ok(RenderReport(Filter(GetMessagesList(event), ConfirmFails(parse, confirm))))
  {
    var all := GetMessagesList(event);
    ConfirmationFailuresExact(all, EmptySink, parse, confirm);
    assert EntireBatch(parse, confirm)(all, EmptySink) == OnEntireBatch(all, EmptySink, parse, confirm);
    var failures := OnEntireBatch(all, EmptySink, parse, confirm).value.failures;
    assert failures == EmptySink.failures + Filter(all, ConfirmFails(parse, confirm));
    assert failures == Filter(all, ConfirmFails(parse, confirm));
  }

  /** A single handshake whose body cannot be parsed yields a report naming
      exactly that message. */
  lemma UnparsableHandshakeReported(m: Message, parse: Parser, confirm: Confirmer)
    requires m.body.Some? && parse(m.body.value).None?
    ensures Handler(Event(Some([m])), parse, confirm) == Ok(BatchResponse([ItemFailure(m.messageId)]))
  {
    ConfirmationReportExact(Event(Some([m])), parse, confirm);
    assert GetMessagesList(Event(Some([m]))) == [m];
    assert HandshakeFails(m, parse, confirm);
    assert Filter([m], ConfirmFails(parse, confirm)) == [m] + Filter([m][1..], ConfirmFails(parse, confirm));
    assert [m][1..] == [];
    assert Filter([m], ConfirmFails(parse, confirm)) == [m];
    var items := RenderReport([m]).batchItemFailures;
    assert |items| == 1 && items[0].itemIdentifier == m.messageId;
    assert items == [ItemFailure(m.messageId)];
    assert RenderReport([m]) == BatchResponse([ItemFailure(m.messageId)]);
  }
}
