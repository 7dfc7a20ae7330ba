# Queue-consumer routing and partial-batch failure, in Dafny

This project models the three queue-consumer handlers of the marketing-stream
fan-out pipeline and proves how their failure reports relate to their input
records.

- **The batch framework** (`lambda/sqs_consuming_lambda.py`) works in five steps:
  - it reads the `Records` of an event;
  - it keeps those a filter accepts;
  - it cuts them into chunks of at most `max_batch_size`;
  - it runs a callback once per chunk;
  - it renders the accumulated failures as `{"batchItemFailures": [{"itemIdentifier": id}, ...]}`.

  When a callback raises, its whole chunk is added to the failures and
  processing goes on with the next chunk.
- **The fan-out handler** (`lambda/stream_fanout_lambda.py`) has a routing table of two rules:
  - data records are published to a topic, one batched call per chunk. The
    positional `Id`s in the response are mapped back to records;
  - subscription-confirmation handshakes are forwarded to a queue one at a
    time, with failures isolated per message.
- **The confirmation handler** (`lambda/subscription_confirmation_lambda.py`)
  reads `TopicArn` and `Token` from every record and completes the handshake.
  Each message is isolated from the others.

The model is functional:
- records are immutable values, and `batch_failures` is an append-only sequence;
- the error handler's calls are kept as a trace of `ErrorReport`s;
- Python exceptions are `PyResult.Raise`;
- `json.loads`, `publish_batch`, `send_message` and `confirm_subscription` are
  function parameters, so the backends are oracles.

Modules, leaves first:
- `Wrappers` (`Option`, `PyResult`);
- `Sequences` (filter, flatten, subsequence);
- `Chunking` (the chunking of `batch.batch_of`);
- `Json` (parsed values, `get` and `[]`);
- `PyInt` (`str`, `int` and list indexing);
- `SqsConsuming` (the framework);
- `StreamFanout`;
- `SubscriptionConfirmation`.

## Notable behaviour

- In the fan-out handler, both filters parse every body, and they run outside
  any `try`. So one record whose body is missing, is not JSON or is not a JSON
  object makes the whole invocation raise. The host then redelivers every
  record (`FanoutRaisesIffUnparseable`). Only the confirmation handler treats a
  malformed body as a per-message failure (`UnparsableHandshakeReported`).
- The destination ARN and URL are read from the environment inside the
  callback lambdas, and so inside the framework's `try`. An unset variable
  fails every chunk of that route, but the invocation does not raise
  (`TopicRouteUnconfigured`, `QueueRouteUnconfigured`).
- When a `Failed` Id cannot be resolved, the callback raises. By then the
  partial-failure report has already been made, so that chunk produces two
  error reports, and the chunk is then added to the failures whole
  (`SnsUnresolvedIdFailsChunk`).

## Model

| member | source | states |
|---|---|---|
| `Chunking.ChunksContract` | lambda/sqs_consuming_lambda.py:52 | Assumed contract of `batch.batch_of`, which is not part of this model. The chunks concatenate back to the input and each holds 1 to n elements. Only the last can be short. Empty input gives no chunks. |
| `PyInt.ShowNat` | lambda/stream_fanout_lambda.py:25 | `str(i)` for a position: a non-empty string of decimal digits with no leading zero. `PyInt.ParseShowNat` shows `int()` reads it back. |
| `PyInt.ParseInt` | lambda/stream_fanout_lambda.py:42 | `int()` on ASCII text, `None` where Python raises `ValueError`. `PyInt.ParseShowNat` gives the round trip with `str`, `PyInt.ParseIntIgnoresSurroundingSpace` the whitespace rule, and `PyInt.ParseIntWhitespace` four concrete evaluations. |
| `PyInt.ParseShowNat` | lambda/stream_fanout_lambda.py:42 | `int(str(i)) == i` for every position `i`, so an Id built as `str(i)` parses back to `i` |
| `PyInt.ParseIntIgnoresSurroundingSpace` | lambda/stream_fanout_lambda.py:42 | For every string `s` and all runs `w1`, `w2` of tab, line feed, vertical tab, form feed, carriage return or space, `int(w1 + s + w2)` has the same outcome as `int(s)`: the same value, or `ValueError` for both |
| `PyInt.ParseIntWhitespace` | lambda/stream_fanout_lambda.py:42 | Four concrete evaluations: `int(" \t7\n") == 7` and `int("-1_0") == -10`, while `int("\x1c0")` (an information separator is not whitespace to `int`) and `int("1__0")` raise |
| `PyInt.PyIndex` | lambda/stream_fanout_lambda.py:42 | Python list indexing succeeds exactly for `-len <= k < len` and yields `s[k]`, or `s[len + k]` for a negative `k` |
| `Json.Get` | lambda/sqs_consuming_lambda.py:23 | `.get(key, default)` raises on a non-object; otherwise it gives the field, or the default when the key is absent |
| `Json.Index` | lambda/subscription_confirmation_lambda.py:28-29 | `v[key]` succeeds exactly on an object holding `key` |
| `SqsConsuming.GetMessagesList` | lambda/sqs_consuming_lambda.py:26-27 | `event.get("Records", [])`. `SqsConsuming.NoRecordsEmptyReport`, `StreamFanout.FanoutNoRecords` and `SubscriptionConfirmation.ConfirmationReportExact` show that a missing key gives the empty report. |
| `SqsConsuming.AsErrorId` | lambda/sqs_consuming_lambda.py:34-35 | `{"itemIdentifier": messageId}` for one failure. The contracts of `SqsConsuming.RenderReport` and `SqsConsuming.BatchHandler` state that entry i carries failure i's `messageId`. |
| `SqsConsuming.IsSubscriptionConfirmation` | lambda/sqs_consuming_lambda.py:21-23 | Raises exactly when the body is missing, is not JSON or is not an object. It is true exactly when the parsed body has `"Type": "SubscriptionConfirmation"`. |
| `SqsConsuming.MissingTypeIsData` | lambda/sqs_consuming_lambda.py:23 | A parsed body without `Type` falls back to `""` and is classified as not a handshake |
| `SqsConsuming.RenderReport` | lambda/sqs_consuming_lambda.py:67 | One report entry per accumulated failure, in order and with duplicates kept. Entry i carries failure i's `messageId`. |
| `SqsConsuming.RenderReportAppend` | lambda/sqs_consuming_lambda.py:67 | Rendering the concatenation of two failure lists concatenates their reports, so accumulation order is kept |
| `SqsConsuming.FilterMessages` | lambda/sqs_consuming_lambda.py:50 | Raises exactly when the predicate raises on some message. Otherwise it gives the accepted messages in input order. |
| `SqsConsuming.RunChunks` | lambda/sqs_consuming_lambda.py:52-58 | The chunk loop only appends: the prior failures and reports are prefixes of the result |
| `SqsConsuming.RunChunksAppends` | lambda/sqs_consuming_lambda.py:52-58 | The result is the prior state followed by each chunk's own contribution, in chunk order. A contribution is the callback's appends plus the whole chunk if it raised, so no chunk's contribution depends on another's. |
| `SqsConsuming.AllChunkFailuresAround` | lambda/sqs_consuming_lambda.py:52-57 | The contribution of a chunk sequence splits at any chunk into before, that chunk, and after |
| `SqsConsuming.RaisingChunkFailsWhole` | lambda/sqs_consuming_lambda.py:53-57 | For a chunk whose callback raises, the failures are prior ++ earlier chunks ++ the callback's appends ++ the whole chunk ++ later chunks, with duplicates kept |
| `SqsConsuming.RaisingChunkReported` | lambda/sqs_consuming_lambda.py:55-58 | A raising chunk is reported whole to the error handler, after the callback's own reports |
| `SqsConsuming.ProcessMessagesInBatches` | lambda/sqs_consuming_lambda.py:42-58 | The filter runs outside the `try`, so the call raises exactly when the predicate raises on some message. Otherwise failures and reports only grow. |
| `SqsConsuming.CallbackSeesAcceptedInOrder` | lambda/sqs_consuming_lambda.py:50-54 | The chunks given to the callback hold between 1 and `max_batch_size` accepted messages. Together they are exactly the accepted messages, as a subsequence of the input. |
| `SqsConsuming.ProcessAppendsChunkFailures` | lambda/sqs_consuming_lambda.py:50-58 | A successful call appends exactly the chunk contributions of the accepted messages |
| `SqsConsuming.ChunkFailuresAreAccepted` | lambda/sqs_consuming_lambda.py:50-57 | If the callback appends only messages of its own chunk, every added failure is an input message the filter accepted |
| `SqsConsuming.OnlyAcceptedMessagesFail` | lambda/sqs_consuming_lambda.py:50-57 | If the callback appends only messages of the chunk it was given, a message the filter rejects never appears among the failures one call adds. The framework does not check this of its callbacks; `StreamFanout.SnsAppendsWithinChunk` and `StreamFanout.SqsAppendsWithinChunk` establish it for the fan-out routes. |
| `SqsConsuming.AllChunkFailuresPerMessage` | lambda/sqs_consuming_lambda.py:52-57 | If each chunk contributes exactly its failing messages, all chunks together contribute the failing messages of the concatenation, in order |
| `SqsConsuming.AllChunkFailuresWhole` | lambda/sqs_consuming_lambda.py:55-57 | If every chunk fails whole, every chunked message fails once, in order |
| `SqsConsuming.NoWholeChunkReportWithoutRaise` | lambda/sqs_consuming_lambda.py:53-58 | If the callback never raises and makes no whole-chunk report itself, the framework adds no whole-chunk report either |
| `SqsConsuming.NoChunkReportWhenCallbackCatches` | lambda/sqs_consuming_lambda.py:53-58 | If the callback never raises and reports only single messages, every report the framework adds concerns a single message |
| `SqsConsuming.BatchHandler` | lambda/sqs_consuming_lambda.py:61-67 | Raises exactly when the entire-batch callback raises on the event's records, started from an empty failure list. Otherwise the report has one entry per accumulated failure, in order, and entry i carries failure i's `messageId`. |
| `SqsConsuming.NoRecordsEmptyReport` | lambda/sqs_consuming_lambda.py:26-27 | An event without `Records` hands the callback no messages. With a callback that records nothing, the report is `{"batchItemFailures": []}`. |
| `StreamFanout.EntriesFrom` | lambda/stream_fanout_lambda.py:23-29 | Raises exactly when some message lacks a body. Otherwise there is one entry per message, and entry i has `Id = str(i)` and `Message = body + "\n"`. |
| `StreamFanout.PublishEntryIdsCorrelate` | lambda/stream_fanout_lambda.py:23-29 | The Ids of one request are pairwise distinct, and each parses back to its message's position |
| `StreamFanout.ResolveFailed` | lambda/stream_fanout_lambda.py:42 | `messages_batch[int(failure["Id"])]` succeeds exactly when the Id is present, `int()` accepts it and the position is within the chunk (negative counting from the end). It yields the message at that position. |
| `StreamFanout.MapFailedIds` | lambda/stream_fanout_lambda.py:42 | Raises exactly when some `Failed` entry cannot be resolved. Otherwise message j is the one entry j resolves to, so every result is from the chunk. |
| `StreamFanout.MapFailedIdsPositional` | lambda/stream_fanout_lambda.py:42 | `Failed` entries carrying `str(k)` resolve to the messages at positions k, in response order |
| `StreamFanout.OnRouteToSns` | lambda/stream_fanout_lambda.py:22-42 | It raises with nothing appended or reported when the topic is unset, a body is missing or the publish call raises. Otherwise it raises exactly when a `Failed` entry cannot be resolved, and if it does not raise it appends exactly the messages the `Failed` entries resolve to. It appends only chunk messages and reports at most once, with the failed count (positive) and the chunk size. |
| `StreamFanout.SnsUnresolvedIdFailsChunk` | lambda/stream_fanout_lambda.py:35-42 | An unresolvable `Failed` Id raises after the partial-failure report. The callback appends nothing, the framework adds the whole chunk, and the chunk yields the partial report followed by the whole-chunk report. |
| `StreamFanout.SnsPublishRaiseFailsChunk` | lambda/stream_fanout_lambda.py:31-34 | A raising publish makes the callback append nothing. The framework then adds exactly the whole chunk and one chunk report. |
| `StreamFanout.SnsReportsIffFailed` | lambda/stream_fanout_lambda.py:35-40 | The error handler is called exactly when `Failed` is non-empty, with `(len(Failed), len(chunk))` |
| `StreamFanout.SnsNoFailures` | lambda/stream_fanout_lambda.py:35-42 | A missing or empty `Failed` list adds nothing for the chunk |
| `StreamFanout.SnsFailedIdsMapToMessages` | lambda/stream_fanout_lambda.py:23-42 | When each `Failed` Id echoes a request Id, exactly the messages at those positions are appended, in response order, without raising |
| `StreamFanout.SnsFailedIdTwoOfThree` | lambda/stream_fanout_lambda.py:42 | `Failed: [{"Id": "2"}]` on a three-message chunk fails exactly the third message |
| `StreamFanout.SendEach` | lambda/stream_fanout_lambda.py:46-54 | Never raises. It appends exactly the messages whose forward fails (no body, or a raising send), in order, each reported once. |
| `StreamFanout.OnRouteToSqs` | lambda/stream_fanout_lambda.py:45-54 | An unset queue raises before any send. Otherwise it appends exactly the failing messages and does not raise. |
| `StreamFanout.SqsFailureIsolated` | lambda/stream_fanout_lambda.py:46-54 | When only message m's send fails, only m is appended and no sibling is |
| `StreamFanout.RunRules` | lambda/stream_fanout_lambda.py:69-76 | Running the rules in order only appends to failures and reports |
| `StreamFanout.OnEntireBatch` | lambda/stream_fanout_lambda.py:57-76 | The routing table run in order with chunk size 10. `StreamFanout.OnEntireBatchUnfold`, `StreamFanout.FanoutRaisesIffUnparseable` and `StreamFanout.FanoutFailureOrder` state what it does. |
| `StreamFanout.Handler` | lambda/stream_fanout_lambda.py:79-80 | `batch_handler` over the routing table. Its report is stated by `StreamFanout.FanoutReportOrder`, `StreamFanout.FanoutAllDeliveredEmptyReport` and `StreamFanout.FanoutNoRecords`. |
| `StreamFanout.OnEntireBatchUnfold` | lambda/stream_fanout_lambda.py:57-76 | The topic rule runs first and the queue rule second, each with chunk size 10, and a raise stops the loop |
| `StreamFanout.FanoutRoutesEachRecordOnce` | lambda/stream_fanout_lambda.py:58-67 | With parseable bodies the two filters are complementary. Data records go to the topic route and handshakes to the queue route. As a multiset, the two routes together receive every record exactly once. |
| `StreamFanout.FanoutRaisesIffUnparseable` | lambda/stream_fanout_lambda.py:57-76 | The invocation raises exactly when some record's body is missing, unparsable or not an object |
| `StreamFanout.FanoutFailureOrder` | lambda/stream_fanout_lambda.py:69-76 | Failures are prior ++ topic-route failures ++ queue-route failures |
| `StreamFanout.TopicRouteFailuresAreData` | lambda/stream_fanout_lambda.py:60-61 | Every topic-route failure is an input record that is not a handshake |
| `StreamFanout.QueueRouteFailuresAreConfirmations` | lambda/stream_fanout_lambda.py:64-65 | Every queue-route failure is an input handshake record |
| `StreamFanout.QueueRouteFailuresExact` | lambda/stream_fanout_lambda.py:64-65 | With the queue configured, the queue route fails exactly the handshakes whose forward fails, in input order |
| `StreamFanout.TopicRouteUnconfigured` | lambda/stream_fanout_lambda.py:61 | With all bodies parseable and the topic ARN unset, the invocation does not raise, and every data record fails, chunk by chunk, ahead of the queue-route failures |
| `StreamFanout.QueueRouteUnconfigured` | lambda/stream_fanout_lambda.py:65 | With all bodies parseable and the queue URL unset, the invocation does not raise, and every handshake fails, chunk by chunk, after the topic-route failures |
| `StreamFanout.FanoutAllDeliveredEmptyReport` | lambda/stream_fanout_lambda.py:79-80 | The report is empty when all of these hold: all bodies parse, both destinations are set, and no publish or send fails. The same input under the same conditions therefore always gives the same empty report. |
| `StreamFanout.FanoutNoRecords` | lambda/stream_fanout_lambda.py:79-80 | An event without `Records` yields `{"batchItemFailures": []}`, whatever the destinations and backends |
| `StreamFanout.TwelveRecordsTwoChunks` | lambda/stream_fanout_lambda.py:75 | Twelve records are chunked as ten then two |
| `StreamFanout.FanoutReportOrder` | lambda/stream_fanout_lambda.py:69-80 | The report lists the topic-route failures first, then the queue-route failures |
| `StreamFanout.SnsAppendsWithinChunk` | lambda/stream_fanout_lambda.py:42 | The topic callback appends only messages of the chunk it was given |
| `StreamFanout.SqsAppendsWithinChunk` | lambda/stream_fanout_lambda.py:53 | The queue callback appends only messages of the chunk it was given |
| `SubscriptionConfirmation.ReadRequest` | lambda/subscription_confirmation_lambda.py:24-29 | Succeeds exactly when the body parses to an object with `TopicArn` and `Token`, and yields those two values |
| `SubscriptionConfirmation.ConfirmUsesRequestFields` | lambda/subscription_confirmation_lambda.py:27-34 | The confirm call gets exactly the body's `TopicArn` and `Token`. A message with both fails exactly when that call raises; one without them fails. |
| `SubscriptionConfirmation.OnConfirmSubscription` | lambda/subscription_confirmation_lambda.py:21-38 | Never raises. It appends exactly the messages whose handshake fails, in order, each reported once. A confirmed message is never appended. |
| `SubscriptionConfirmation.OnEntireBatch` | lambda/subscription_confirmation_lambda.py:41-48 | Every record in chunks of ten to `on_confirm_subscription`. `SubscriptionConfirmation.ConfirmationFailuresExact` and `SubscriptionConfirmation.ConfirmationReportsPerMessage` state what it does. |
| `SubscriptionConfirmation.Handler` | lambda/subscription_confirmation_lambda.py:51-52 | `batch_handler` over the confirmation batch. `SubscriptionConfirmation.ConfirmationReportExact` gives its report exactly. |
| `SubscriptionConfirmation.OnEntireBatchChunks` | lambda/subscription_confirmation_lambda.py:41-48 | The filter accepts everything, so the records themselves are chunked by ten |
| `SubscriptionConfirmation.ConfirmationFailuresExact` | lambda/subscription_confirmation_lambda.py:41-48 | Every record is processed, in chunks of at most ten. The invocation never raises, and the failures added are exactly the failing handshakes in input order. |
| `SubscriptionConfirmation.ConfirmationReportsPerMessage` | lambda/subscription_confirmation_lambda.py:36-38 | Per-message errors are caught in the loop, so no whole-chunk report is ever made |
| `SubscriptionConfirmation.ConfirmationReportExact` | lambda/subscription_confirmation_lambda.py:51-52 | The report lists exactly the ids of the messages whose handshake failed, in input order |
| `SubscriptionConfirmation.UnparsableHandshakeReported` | lambda/subscription_confirmation_lambda.py:27 | A single record with an unparsable body yields a report naming exactly that record |

## Left out

- Logging, `print`, error messages and the `json.dumps` contexts are left out. An error-handler call is kept only as an `ErrorReport`: which chunk or message it concerns, or the failed and attempted counts.
- The framework's `error_handler` parameter is always the default logger in these handlers, so no other error handler is modelled.
- `get_message_body` (lambda/sqs_consuming_lambda.py:30-31) is left out because no core code calls it.
- `batch.batch_of` is not part of this model. `Chunking.Chunks` is a conventional definition of it. The lemmas about the handlers reason about chunks through `Chunking.ChunksContract`, which is the assumption made about `batch_of`. The one exception is `StreamFanout.TwelveRecordsTwoChunks`, which evaluates `Chunks` itself.
- The backend clients are functions of their arguments, so a repeated identical call has the same outcome. Backend state, throttling and retries are not modelled.
- `json.loads` is an abstract partial function. JSON numbers are integers, because fractional numbers do not affect routing.
- `StreamFanout.ResolveFailed` and `PyInt.ParseInt` do not model CPython's limit on the number of digits `int()` converts (4300 by default in current CPython releases, and configurable). A `Failed` Id longer than that would make the source raise and fail the chunk whole, whereas the model resolves it. The limit depends on the interpreter's configuration, and the Ids of a ten-message request are single digits.
- `PyInt.ParseInt` models `int()` on ASCII text only. On such text `int()` strips only tab, line feed, vertical tab, form feed, carriage return and space. Non-ASCII digits and whitespace, which Python also accepts, are not modelled, because the Ids the handler sends are ASCII.
- A record is only its `messageId` and `body`. A non-string body, a record that is not a dictionary, and a `Records` entry that is not a list are not modelled.
- Callbacks are modelled as append-only, as the source's callbacks are. A callback that removes or reorders `batch_failures` entries is not modelled.
- Destinations are parameters; `None` stands for an unset environment variable.
- The handlers' `context` argument is unused and not modelled.
- `SqsConsuming.ProcessMessagesInBatches` requires a positive chunk size, because the behaviour of `batch.batch_of` for zero is not known. Every caller passes 10.
- The backend calls are modelled as oracles. Their outcome may depend on the message only through the arguments the source passes, so `StreamFanout.SqsFailureIsolated` speaks of a message whose forward fails rather than of the n-th call.
- Concurrency across invocations and the host's redelivery are outside the handlers.
