/** The fan-out handler (`lambda/stream_fanout_lambda.py`): data records are
    published to a topic in one batched call per chunk, subscription
    confirmations are forwarded to a queue one message at a time. */
module StreamFanout {
  import opened Wrappers
  import opened Sequences
  import opened Chunking
  import opened Json
  import opened PyInt
  import opened SqsConsuming

  /** `{"Id": ..., "Message": ...}` in a publish-batch request. */
  datatype PublishEntry = PublishEntry(id: string, message: string)

  /** An element of the response's `"Failed"` list; `id` is its `"Id"`. */
  datatype FailedEntry = FailedEntry(id: Option<string>)

  /** The publish-batch response; `failed` is its optional `"Failed"`. */
  datatype PublishResponse = PublishResponse(failed: Option<seq<FailedEntry>>)

  /** `publish_batch(TopicArn, PublishBatchRequestEntries)` */
  type Publisher = (string, seq<PublishEntry>) -> PyResult<PublishResponse>

  /** `send_message(QueueUrl, MessageBody)` */
  type Sender = (string, string) -> PyResult<()>

  /** The request entries for the messages of `chunk` from position `from`
      on: entry `i` is tagged with `str(i)` and carries the body plus a
      newline. A missing body raises `KeyError`. */
  function EntriesFrom(chunk: seq<Message>, from: nat): (r: PyResult<seq<PublishEntry>>)
    requires from <= |chunk|
    ensures r.Raise? <==> exists i :: from <= i < |chunk| && chunk[i].body.None?
    ensures r.Ok? ==> |r.value| == |chunk| - from
    ensures r.Ok? ==> forall i :: 0 <= i < |r.value| ==>
      r.value[i] == PublishEntry(ShowNat(from + i), chunk[from + i].body.value + "\n")
    decreases |chunk| - from
  {
    if from == |chunk| then Ok([])
    else if chunk[from].body.None? then Raise
    else match EntriesFrom(chunk, from + 1)
      case Raise => Raise
      case Ok(rest) => Ok([PublishEntry(ShowNat(from), chunk[from].body.value + "\n")] + rest)
  }

  function PublishEntries(chunk: seq<Message>): PyResult<seq<PublishEntry>> {
    EntriesFrom(chunk, 0)
  }

  /** The Ids of one request are pairwise distinct, and each parses back to
      the position of its message in the chunk. */
  lemma PublishEntryIdsCorrelate(chunk: seq<Message>)
    requires PublishEntries(chunk).Ok?
    ensures var entries := PublishEntries(chunk).value;
      && |entries| == |chunk|
      && (forall i :: 0 <= i < |entries| ==> ParseInt(entries[i].id) == Some(i))
      && (forall i, j :: 0 <= i < j < |entries| ==> entries[i].id != entries[j].id)
  {
    var entries := PublishEntries(chunk).value;
    forall i | 0 <= i < |entries|
      ensures ParseInt(entries[i].id) == Some(i)
    {
      ParseShowNat(i);
    }
    forall i, j | 0 <= i < j < |entries|
      ensures entries[i].id != entries[j].id
    {
      assert ParseInt(entries[i].id) != ParseInt(entries[j].id);
    }
  }

  /** `messages_batch[int(failure["Id"])]`: raises on a missing Id, an Id
      `int` rejects, or a position outside the chunk. */
  function ResolveFailed(f: FailedEntry, chunk: seq<Message>): (r: PyResult<Message>)
    ensures r.Ok? <==> f.id.Some? && ParseInt(f.id.value).Some? && -|chunk| <= ParseInt(f.id.value).value < |chunk|
    ensures r.Ok? ==> var k := ParseInt(f.id.value).value;
      r.value == (if k >= 0 then chunk[k] else chunk[|chunk| + k])
  {
    match f.id
    case None => Raise
    case Some(id) =>
      match ParseInt(id)
      case None => Raise
      case Some(k) => PyIndex(chunk, k)
  }

  /** The list comprehension over the `Failed` entries: raises as soon as one
      entry cannot be resolved to a message of the chunk. */
  function MapFailedIds(failed: seq<FailedEntry>, chunk: seq<Message>): (r: PyResult<seq<Message>>)
    ensures r.Raise? <==> exists j :: 0 <= j < |failed| && ResolveFailed(failed[j], chunk).Raise?
    ensures r.Ok? ==> |r.value| == |failed|
    ensures r.Ok? ==> forall j :: 0 <= j < |failed| ==> ResolveFailed(failed[j], chunk) == Ok(r.value[j])
    ensures r.Ok? ==> forall j :: 0 <= j < |failed| ==> r.value[j] in chunk
  {
    if |failed| == 0 then Ok([])
    else match ResolveFailed(failed[0], chunk)
      case Raise => Raise
      case Ok(m) =>
        match MapFailedIds(failed[1..], chunk)
        case Raise =>
          var j :| 0 <= j < |failed[1..]| && ResolveFailed(failed[1..][j], chunk).Raise?;
          assert ResolveFailed(failed[j + 1], chunk).Raise?;
          Raise
        case Ok(rest) =>
          assert forall j :: 1 <= j < |failed| ==> failed[j] == failed[1..][j - 1];
          Ok([m] + rest)
  }

  /** Failed Ids that echo the Ids of the request map back to the messages
      at those positions, in the response's order. */
  lemma {:induction false} MapFailedIdsPositional(failed: seq<FailedEntry>, chunk: seq<Message>, positions: seq<nat>)
    requires |positions| == |failed|
    requires forall j :: 0 <= j < |failed| ==> positions[j] < |chunk| && failed[j].id == Some(ShowNat(positions[j]))
    ensures MapFailedIds(failed, chunk).Ok?
    ensures forall j :: 0 <= j < |failed| ==> MapFailedIds(failed, chunk).value[j] == chunk[positions[j]]
  {
    if |failed| > 0 {
      ParseShowNat(positions[0]);
      assert ResolveFailed(failed[0], chunk) == Ok(chunk[positions[0]]);
      MapFailedIdsPositional(failed[1..], chunk, positions[1..]);
    }
  }

  /** `on_route_to_sns`. A missing destination (the environment lookup made
      when the callback is invoked), a missing body, a raising publish call or
      an unresolvable `Failed` Id all raise out of the callback; otherwise the
      messages named in `Failed` are appended, in response order. */
  function OnRouteToSns(chunk: seq<Message>, topicArn: Option<string>, publish: Publisher): (r: CallbackResult)
    ensures forall i :: 0 <= i < |r.appended| ==> r.appended[i] in chunk
    ensures r.raised ==> r.appended == []
    ensures |r.reports| <= 1
    ensures forall i :: 0 <= i < |r.reports| ==>
      r.reports[i].PartialPublishFailure? && r.reports[i].failedCount > 0 && r.reports[i].attempted == |chunk|
    ensures topicArn.None? || PublishEntries(chunk).Raise? || publish(topicArn.value, PublishEntries(chunk).value).Raise?
      ==> r == CallbackResult([], [], true)
    ensures topicArn.Some? && PublishEntries(chunk).Ok? && publish(topicArn.value, PublishEntries(chunk).value).Ok? ==>
      var resolved := MapFailedIds(publish(topicArn.value, PublishEntries(chunk).value).value.failed.GetOr([]), chunk);
      && (r.raised <==> resolved.Raise?)
      && (!r.raised ==> r.appended == resolved.value)
  {
    if topicArn.None? then CallbackResult([], [], true)
    else match PublishEntries(chunk)
      case Raise => CallbackResult([], [], true)
      case Ok(entries) =>
        match publish(topicArn.value, entries)
        case Raise => CallbackResult([], [], true)
        case Ok(response) =>
          var failures := response.failed.GetOr([]);
          var reports := if |failures| > 0 then [PartialPublishFailure(|failures|, |chunk|)] else [];
          match MapFailedIds(failures, chunk)
          case Raise => CallbackResult([], reports, true)
          case Ok(failedMessages) => CallbackResult(failedMessages, reports, false)
  }

  function SnsRoute(topicArn: Option<string>, publish: Publisher): BatchCallback {
    chunk => OnRouteToSns(chunk, topicArn, publish)
  }

  /** A publish call that raises makes the framework fail the whole chunk;
      the callback itself appends nothing. */
  lemma SnsPublishRaiseFailsChunk(chunk: seq<Message>, topicArn: string, publish: Publisher)
    requires PublishEntries(chunk).Ok?
    requires publish(topicArn, PublishEntries(chunk).value).Raise?
    ensures OnRouteToSns(chunk, Some(topicArn), publish).appended == []
    ensures ChunkFailures(chunk, SnsRoute(Some(topicArn), publish)) == chunk
    ensures ChunkReports(chunk, SnsRoute(Some(topicArn), publish)) == [ChunkFailed(chunk)]
  {
  }

  /** A `Failed` entry that cannot be resolved to a message raises after the
      partial-failure report has been made: nothing is appended by the
      callback, and the framework then fails the chunk whole. */
  lemma SnsUnresolvedIdFailsChunk(chunk: seq<Message>, topicArn: string, publish: Publisher, response: PublishResponse)
    requires PublishEntries(chunk).Ok?
    requires publish(topicArn, PublishEntries(chunk).value) == Ok(response)
    requires MapFailedIds(response.failed.GetOr([]), chunk).Raise?
    ensures OnRouteToSns(chunk, Some(topicArn), publish)
         == CallbackResult([], [PartialPublishFailure(|response.failed.GetOr([])|, |chunk|)], true)
    ensures ChunkFailures(chunk, SnsRoute(Some(topicArn), publish)) == chunk
    ensures var reports := ChunkReports(chunk, SnsRoute(Some(topicArn), publish));
      && |reports| == 2
      && reports[0] == PartialPublishFailure(|response.failed.GetOr([])|, |chunk|)
      && reports[1] == ChunkFailed(chunk)
  {
  }

  /** The error handler is called exactly when `Failed` is non-empty, with
      the failed count and the chunk size. */
  lemma SnsReportsIffFailed(chunk: seq<Message>, topicArn: string, publish: Publisher, response: PublishResponse)
    requires PublishEntries(chunk).Ok?
    requires publish(topicArn, PublishEntries(chunk).value) == Ok(response)
    ensures var r := OnRouteToSns(chunk, Some(topicArn), publish);
      && (|r.reports| > 0 <==> |response.failed.GetOr([])| > 0)
      && (|r.reports| > 0 ==> r.reports == [PartialPublishFailure(|response.failed.GetOr([])|, |chunk|)])
  {
  }

  /** A response without failures (no `Failed` key, or an empty list) leaves
      the chunk out of the failures entirely. */
  lemma SnsNoFailures(chunk: seq<Message>, topicArn: string, publish: Publisher, response: PublishResponse)
    requires PublishEntries(chunk).Ok?
    requires publish(topicArn, PublishEntries(chunk).value) == Ok(response)
    requires response.failed.GetOr([]) == []
    ensures OnRouteToSns(chunk, Some(topicArn), publish) == CallbackResult([], [], false)
    ensures ChunkFailures(chunk, SnsRoute(Some(topicArn), publish)) == []
  {
  }

  /** Index-to-record mapping: when each `Failed` entry echoes the Id of a
      request entry, exactly the messages at those positions are appended, in
      response order, and the callback does not raise. */
  lemma SnsFailedIdsMapToMessages(chunk: seq<Message>, topicArn: string, publish: Publisher,
                                  response: PublishResponse, positions: seq<nat>)
    requires PublishEntries(chunk).Ok?
    requires publish(topicArn, PublishEntries(chunk).value) == Ok(response)
    requires |positions| == |response.failed.GetOr([])|
    requires forall j :: 0 <= j < |positions| ==>
      positions[j] < |chunk| &&
      response.failed.GetOr([])[j].id == Some(PublishEntries(chunk).value[positions[j]].id)
    ensures var r := OnRouteToSns(chunk, Some(topicArn), publish);
      && !r.raised
      && |r.appended| == |positions|
      && (forall j :: 0 <= j < |positions| ==> r.appended[j] == chunk[positions[j]])
  {
    MapFailedIdsPositional(response.failed.GetOr([]), chunk, positions);
  }

  /** A response reporting `{"Id": "2"}` for a chunk of three messages marks
      exactly the third message failed. */
  lemma SnsFailedIdTwoOfThree(chunk: seq<Message>, topicArn: string, publish: Publisher)
    requires |chunk| == 3
    requires PublishEntries(chunk).Ok?
    requires publish(topicArn, PublishEntries(chunk).value) == Ok(PublishResponse(Some([FailedEntry(Some("2"))])))
    ensures OnRouteToSns(chunk, Some(topicArn), publish).appended == [chunk[2]]
    ensures ChunkFailures(chunk, SnsRoute(Some(topicArn), publish)) == [chunk[2]]
  {
    assert ShowNat(2) == "2";
    SnsFailedIdsMapToMessages(chunk, topicArn, publish, PublishResponse(Some([FailedEntry(Some("2"))])), [2]);
  }

  /** The forward of `m` to the queue fails: no body, or a raising send. */
  predicate ForwardFails(m: Message, queueUrl: string, send: Sender) {
    m.body.None? || send(queueUrl, m.body.value).Raise?
  }

  function SendFails(queueUrl: string, send: Sender): Message -> bool {
    (m: Message) => ForwardFails(m, queueUrl, send)
  }

  /** The loop of `on_route_to_sqs`, each send in its own `try`. */
  function SendEach(chunk: seq<Message>, queueUrl: string, send: Sender): (r: CallbackResult)
    ensures !r.raised
    ensures r.appended == Filter(chunk, SendFails(queueUrl, send))
    ensures |r.reports| == |r.appended|
    ensures forall i :: 0 <= i < |r.reports| ==> r.reports[i] == MessageFailed(r.appended[i])
  {
    if |chunk| == 0 then CallbackResult([], [], false)
    else
      var m := chunk[0];
      var rest := SendEach(chunk[1..], queueUrl, send);
      if ForwardFails(m, queueUrl, send) then
        CallbackResult([m] + rest.appended, [MessageFailed(m)] + rest.reports, false)
      else rest
  }

  /** `on_route_to_sqs`: the destination lookup raises before any send when
      the queue is not configured. */
  function OnRouteToSqs(chunk: seq<Message>, queueUrl: Option<string>, send: Sender): (r: CallbackResult)
    ensures queueUrl.None? ==> r == CallbackResult([], [], true)
    ensures queueUrl.Some? ==> !r.raised && r.appended == Filter(chunk, SendFails(queueUrl.value, send))
  {
    match queueUrl
    case None => CallbackResult([], [], true)
    case Some(url) => SendEach(chunk, url, send)
  }

  function SqsRoute(queueUrl: Option<string>, send: Sender): BatchCallback {
    chunk => OnRouteToSqs(chunk, queueUrl, send)
  }

  /** Message-level isolation: when the send fails for message `m` only,
      only copies of `m` are appended, and its siblings are not. */
  lemma SqsFailureIsolated(chunk: seq<Message>, queueUrl: string, send: Sender, m: Message)
    requires forall i :: 0 <= i < |chunk| ==> (SendFails(queueUrl, send)(chunk[i]) <==> chunk[i] == m)
    ensures var r := OnRouteToSqs(chunk, Some(queueUrl), send);
      && !r.raised
      && (forall i :: 0 <= i < |r.appended| ==> r.appended[i] == m)
      && (m in chunk <==> m in r.appended)
  {
  }

  /** One entry of the routing table: a filter and the callback for the
      messages it accepts. */
  datatype Rule = Rule(filter: MessageFilter, callback: BatchCallback)

  /** The `for` loop of `on_entire_batch` over the routing table. */
  function RunRules(all: seq<Message>, rules: seq<Rule>, sink: Sink, maxBatchSize: nat): (r: PyResult<Sink>)
    requires maxBatchSize > 0
    ensures r.Ok? ==> sink.failures <= r.value.failures && sink.reports <= r.value.reports
    decreases |rules|
  {
    if |rules| == 0 then Ok(sink)
    else match ProcessMessagesInBatches(all, rules[0].filter, rules[0].callback, sink, maxBatchSize)
      case Raise => Raise
      case Ok(next) => RunRules(all, rules[1..], next, maxBatchSize)
  }

  /** Destinations and backends. The two destinations are read from the
      environment when a callback runs; `None` stands for an unset variable. */
  datatype FanoutEnv = FanoutEnv(
    parse: Parser,
    topicArn: Option<string>,
    queueUrl: Option<string>,
    publish: Publisher,
    send: Sender)

  const FanoutBatchSize: nat := 10

  /** `lambda x: not is_subscription_confirmation(x)` */
  function IsDataRecord(parse: Parser): MessageFilter {
    m => match IsSubscriptionConfirmation(m, parse)
         case Raise => Raise
         case Ok(b) => Ok(!b)
  }

  function IsConfirmationRecord(parse: Parser): MessageFilter {
    m => IsSubscriptionConfirmation(m, parse)
  }

  /** The routing table: data to the topic first, then confirmations to the
      queue. */
  function FanoutConfig(env: FanoutEnv): seq<Rule> {
    [Rule(IsDataRecord(env.parse), SnsRoute(env.topicArn, env.publish)),
     Rule(IsConfirmationRecord(env.parse), SqsRoute(env.queueUrl, env.send))]
  }

  function OnEntireBatch(all: seq<Message>, sink: Sink, env: FanoutEnv): PyResult<Sink> {
    RunRules(all, FanoutConfig(env), sink, FanoutBatchSize)
  }

  function EntireBatch(env: FanoutEnv): EntireBatchCallback {
    (all, sink) => OnEntireBatch(all, sink, env)
  }

  function Handler(event: Event, env: FanoutEnv): PyResult<BatchResponse> {
    BatchHandler(event, EntireBatch(env))
  }

  /** The two rules of the table, run one after the other. */
  lemma OnEntireBatchUnfold(all: seq<Message>, sink: Sink, env: FanoutEnv)
    ensures OnEntireBatch(all, sink, env) ==
      match ProcessMessagesInBatches(all, IsDataRecord(env.parse), SnsRoute(env.topicArn, env.publish), sink, FanoutBatchSize)
      case Raise => Raise
      case Ok(s1) => ProcessMessagesInBatches(all, IsConfirmationRecord(env.parse), SqsRoute(env.queueUrl, env.send), s1, FanoutBatchSize)
  {
    var rules := FanoutConfig(env);
    assert rules[0] == Rule(IsDataRecord(env.parse), SnsRoute(env.topicArn, env.publish));
    assert rules[1..] == [Rule(IsConfirmationRecord(env.parse), SqsRoute(env.queueUrl, env.send))];
    assert rules[1..][1..] == [];
    match ProcessMessagesInBatches(all, rules[0].filter, rules[0].callback, sink, FanoutBatchSize)
    case Raise =>
    case Ok(s1) =>
      assert OnEntireBatch(all, sink, env) == RunRules(all, rules[1..], s1, FanoutBatchSize);
      match ProcessMessagesInBatches(all, rules[1..][0].filter, rules[1..][0].callback, s1, FanoutBatchSize)
      case Raise =>
      case Ok(s2) =>
        assert RunRules(all, rules[1..], s1, FanoutBatchSize) == RunRules(all, rules[1..][1..], s2, FanoutBatchSize);
  }

  /** The data records, in order. */
  function DataRecords(all: seq<Message>, parse: Parser): seq<Message> {
    Filter(all, Accepts(IsDataRecord(parse)))
  }

  /** The confirmation records, in order. */
  function ConfirmationRecords(all: seq<Message>, parse: Parser): seq<Message> {
    Filter(all, Accepts(IsConfirmationRecord(parse)))
  }

  /** The failures the topic route contributes. */
  function TopicRouteFailures(all: seq<Message>, env: FanoutEnv): seq<Message> {
    AllChunkFailures(Chunks(DataRecords(all, env.parse), FanoutBatchSize), SnsRoute(env.topicArn, env.publish))
  }

  /** The failures the queue route contributes. */
  function QueueRouteFailures(all: seq<Message>, env: FanoutEnv): seq<Message> {
    AllChunkFailures(Chunks(ConfirmationRecords(all, env.parse), FanoutBatchSize), SqsRoute(env.queueUrl, env.send))
  }

  /** With parseable bodies the two filters are complementary: every record
      goes to exactly one route, data to the topic and handshakes to the
      queue, and together the routes receive every record exactly once. */
  lemma FanoutRoutesEachRecordOnce(all: seq<Message>, parse: Parser)
    requires forall i :: 0 <= i < |all| ==> BodyIsObject(all[i], parse)
    ensures forall i :: 0 <= i < |all| ==>
      (all[i] in DataRecords(all, parse) <==> !DeclaresType(all[i], parse, SubscriptionConfirmationType))
    ensures forall i :: 0 <= i < |all| ==>
      (all[i] in ConfirmationRecords(all, parse) <==> DeclaresType(all[i], parse, SubscriptionConfirmationType))
    ensures multiset(DataRecords(all, parse)) + multiset(ConfirmationRecords(all, parse)) == multiset(all)
  {
    FilterPartition(all, Accepts(IsConfirmationRecord(parse)), Accepts(IsDataRecord(parse)));
  }

  /** The filters run outside any `try`: the invocation raises exactly when
      some record's body is missing, is not JSON or is not a JSON object. */
  lemma FanoutRaisesIffUnparseable(all: seq<Message>, sink: Sink, env: FanoutEnv)
    ensures OnEntireBatch(all, sink, env).Raise? <==> exists i :: 0 <= i < |all| && !BodyIsObject(all[i], env.parse)
  {
    OnEntireBatchUnfold(all, sink, env);
    var data := IsDataRecord(env.parse);
    var conf := IsConfirmationRecord(env.parse);
    if exists i :: 0 <= i < |all| && !BodyIsObject(all[i], env.parse) {
      var i :| 0 <= i < |all| && !BodyIsObject(all[i], env.parse);
      assert data(all[i]).Raise?;
    } else {
      assert forall i :: 0 <= i < |all| ==> data(all[i]).Ok?;
      assert forall i :: 0 <= i < |all| ==> conf(all[i]).Ok?;
    }
  }

  /** Rules run in order: all topic-route failures precede all queue-route
      failures. */
  lemma FanoutFailureOrder(all: seq<Message>, sink: Sink, env: FanoutEnv)
    requires OnEntireBatch(all, sink, env).Ok?
    ensures OnEntireBatch(all, sink, env).value.failures
         == sink.failures + TopicRouteFailures(all, env) + QueueRouteFailures(all, env)
  {
    OnEntireBatchUnfold(all, sink, env);
    var data := IsDataRecord(env.parse);
    var conf := IsConfirmationRecord(env.parse);
    var sns := SnsRoute(env.topicArn, env.publish);
    var sqs := SqsRoute(env.queueUrl, env.send);
    var s1 := ProcessMessagesInBatches(all, data, sns, sink, FanoutBatchSize).value;
    ProcessAppendsChunkFailures(all, data, sns, sink, FanoutBatchSize);
    ProcessAppendsChunkFailures(all, conf, sqs, s1, FanoutBatchSize);
  }

  /** Topic-route failures are data records of the input. */
  lemma TopicRouteFailuresAreData(all: seq<Message>, env: FanoutEnv)
    ensures forall i :: 0 <= i < |TopicRouteFailures(all, env)| ==>
      TopicRouteFailures(all, env)[i] in all &&
      !DeclaresType(TopicRouteFailures(all, env)[i], env.parse, SubscriptionConfirmationType)
  {
    SnsAppendsWithinChunk(env.topicArn, env.publish);
    ChunkFailuresAreAccepted(all, IsDataRecord(env.parse), SnsRoute(env.topicArn, env.publish), FanoutBatchSize);
    var added := TopicRouteFailures(all, env);
    assert added == AllChunkFailures(Chunks(Filter(all, Accepts(IsDataRecord(env.parse))), FanoutBatchSize),
                                     SnsRoute(env.topicArn, env.publish));
    forall i | 0 <= i < |added|
      ensures !DeclaresType(added[i], env.parse, SubscriptionConfirmationType)
    {
      assert IsDataRecord(env.parse)(added[i]) == Ok(true);
      assert IsSubscriptionConfirmation(added[i], env.parse) == Ok(false);
    }
  }

  /** Queue-route failures are handshake records of the input. */
  lemma QueueRouteFailuresAreConfirmations(all: seq<Message>, env: FanoutEnv)
    ensures forall i :: 0 <= i < |QueueRouteFailures(all, env)| ==>
      QueueRouteFailures(all, env)[i] in all &&
      DeclaresType(QueueRouteFailures(all, env)[i], env.parse, SubscriptionConfirmationType)
  {
    SqsAppendsWithinChunk(env.queueUrl, env.send);
    ChunkFailuresAreAccepted(all, IsConfirmationRecord(env.parse), SqsRoute(env.queueUrl, env.send), FanoutBatchSize);
    var added := QueueRouteFailures(all, env);
    assert added == AllChunkFailures(Chunks(Filter(all, Accepts(IsConfirmationRecord(env.parse))), FanoutBatchSize),
                                     SqsRoute(env.queueUrl, env.send));
    forall i | 0 <= i < |added|
      ensures DeclaresType(added[i], env.parse, SubscriptionConfirmationType)
    {
      assert IsConfirmationRecord(env.parse)(added[i]) == Ok(true);
    }
  }

  /** With the queue configured, the queue route contributes exactly the
      handshakes whose forward fails, in input order; message-level isolation
      means no sibling of a failed forward is added. */
  lemma QueueRouteFailuresExact(all: seq<Message>, env: FanoutEnv)
    requires env.queueUrl.Some?
    ensures QueueRouteFailures(all, env)
         == Filter(ConfirmationRecords(all, env.parse), SendFails(env.queueUrl.value, env.send))
  {
    var confirmations := ConfirmationRecords(all, env.parse);
    var chunks := Chunks(confirmations, FanoutBatchSize);
    var fails := SendFails(env.queueUrl.value, env.send);
    ChunksContract(confirmations, FanoutBatchSize);
    AllChunkFailuresPerMessage(chunks, SqsRoute(env.queueUrl, env.send), fails);
  }

  /** With the queue not configured, each chunk's callback raises, so every
      handshake is reported failed, but the invocation itself does not
      raise. */
  lemma QueueRouteUnconfigured(all: seq<Message>, sink: Sink, env: FanoutEnv)
    requires env.queueUrl.None?
    requires forall i :: 0 <= i < |all| ==> BodyIsObject(all[i], env.parse)
    ensures QueueRouteFailures(all, env) == ConfirmationRecords(all, env.parse)
    ensures OnEntireBatch(all, sink, env).Ok?
    ensures OnEntireBatch(all, sink, env).value.failures
         == sink.failures + TopicRouteFailures(all, env) + ConfirmationRecords(all, env.parse)
  {
    var confirmations := ConfirmationRecords(all, env.parse);
    ChunksContract(confirmations, FanoutBatchSize);
    AllChunkFailuresWhole(Chunks(confirmations, FanoutBatchSize), SqsRoute(env.queueUrl, env.send));
    FanoutRaisesIffUnparseable(all, sink, env);
    FanoutFailureOrder(all, sink, env);
  }

  /** With the topic not configured, each data chunk's callback raises, so
      every data record is reported failed, and the invocation itself does
      not raise. */
  lemma TopicRouteUnconfigured(all: seq<Message>, sink: Sink, env: FanoutEnv)
    requires env.topicArn.None?
    requires forall i :: 0 <= i < |all| ==> BodyIsObject(all[i], env.parse)
    ensures TopicRouteFailures(all, env) == DataRecords(all, env.parse)
    ensures OnEntireBatch(all, sink, env).Ok?
    ensures OnEntireBatch(all, sink, env).value.failures
         == sink.failures + DataRecords(all, env.parse) + QueueRouteFailures(all, env)
  {
    var data := DataRecords(all, env.parse);
    ChunksContract(data, FanoutBatchSize);
    AllChunkFailuresWhole(Chunks(data, FanoutBatchSize), SnsRoute(env.topicArn, env.publish));
    FanoutRaisesIffUnparseable(all, sink, env);
    FanoutFailureOrder(all, sink, env);
  }

  /** A publisher that never raises and never reports a failed entry. */
  ghost predicate PublishAlwaysSucceeds(publish: Publisher) {
    forall t, es :: publish(t, es).Ok? && publish(t, es).value.failed.GetOr([]) == []
  }

  /** When every body parses, both destinations are configured and no backend
      call fails, the report is empty. Re-running the same input under the
      same conditions therefore yields the same empty report. */
  lemma FanoutAllDeliveredEmptyReport(event: Event, env: FanoutEnv)
    requires forall i :: 0 <= i < |GetMessagesList(event)| ==> BodyIsObject(GetMessagesList(event)[i], env.parse)
    requires env.topicArn.Some? && env.queueUrl.Some?
    requires PublishAlwaysSucceeds(env.publish)
    requires forall q, b :: env.send(q, b).Ok?
    ensures Handler(event, env) == Ok(BatchResponse([]))
  {
    var all := GetMessagesList(event);
    FanoutRaisesIffUnparseable(all, EmptySink, env);
    FanoutFailureOrder(all, EmptySink, env);
    var data := DataRecords(all, env.parse);
    var chunks := Chunks(data, FanoutBatchSize);
    forall i | 0 <= i < |chunks|
      ensures ChunkFailures(chunks[i], SnsRoute(env.topicArn, env.publish)) == []
    {
      forall j | 0 <= j < |chunks[i]|
        ensures chunks[i][j].body.Some?
      {
        ChunkElementInInput(data, FanoutBatchSize, i, j);
      }
      var response := env.publish(env.topicArn.value, PublishEntries(chunks[i]).value).value;
      SnsNoFailures(chunks[i], env.topicArn.value, env.publish, response);
    }
    AllChunkFailuresNone(chunks, SnsRoute(env.topicArn, env.publish));
    QueueRouteFailuresExact(all, env);
    var confirmations := ConfirmationRecords(all, env.parse);
    FilterNone(confirmations, SendFails(env.queueUrl.value, env.send));
  }

  /** An event without `"Records"` yields the empty report, whatever the
      destinations and backends. */
  lemma FanoutNoRecords(env: FanoutEnv)
    ensures Handler(Event(None), env) == Ok(BatchResponse([]))
  {
    FanoutRaisesIffUnparseable([], EmptySink, env);
    FanoutFailureOrder([], EmptySink, env);
    ChunksContract(DataRecords([], env.parse), FanoutBatchSize);
    ChunksContract(ConfirmationRecords([], env.parse), FanoutBatchSize);
    assert EntireBatch(env)([], EmptySink) == OnEntireBatch([], EmptySink, env);
  }

  /** Twelve data records are published in two chunks, of ten and two. */
  lemma TwelveRecordsTwoChunks(data: seq<Message>)
    requires |data| == 12
    ensures var chunks := Chunks(data, FanoutBatchSize);
      |chunks| == 2 && chunks[0] == data[..10] && chunks[1] == data[10..]
  {
    ChunksContract(data, FanoutBatchSize);
  }

  /** The report lists the topic route's failures first, then the queue
      route's, one entry per failure. */
  lemma FanoutReportOrder(event: Event, env: FanoutEnv)
    requires Handler(event, env).Ok?
    ensures var all := GetMessagesList(event);
      Handler(event, env).value.batchItemFailures
      == RenderReport(TopicRouteFailures(all, env)).batchItemFailures
         + RenderReport(QueueRouteFailures(all, env)).batchItemFailures
  {
    var all := GetMessagesList(event);
    BatchHandlerRenders(event, EntireBatch(env));
    assert EntireBatch(env)(all, EmptySink) == OnEntireBatch(all, EmptySink, env);
    var failures := OnEntireBatch(all, EmptySink, env).value.failures;
    FanoutFailureOrder(all, EmptySink, env);
    var topic := TopicRouteFailures(all, env);
    var queue := QueueRouteFailures(all, env);
    assert failures == EmptySink.failures + topic + queue;
    assert EmptySink.failures + topic == topic;
    RenderReportAppend(topic, queue);
  }

  lemma SnsAppendsWithinChunk(topicArn: Option<string>, publish: Publisher)
    ensures AppendsWithinChunk(SnsRoute(topicArn, publish))
  {
  }

  lemma SqsAppendsWithinChunk(queueUrl: Option<string>, send: Sender)
    ensures AppendsWithinChunk(SqsRoute(queueUrl, send))
  {
  }
}
