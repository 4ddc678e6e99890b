# Azure log exporter: export decisions, worker loop and envelopes

This project models the core of the OpenCensus Azure Monitor log exporter
(`opencensus.ext.azure.log_exporter`). It covers the following:

- **`BaseLogHandler._export`.** It turns a batch of log records into
  telemetry envelopes and transmits them. It stores them locally when
  the transmit result is positive, and decides whether to replay the
  local storage. It always sets the control event it was handed.
- **The worker loop `Worker.run`.** It pulls batches from the queue and
  hands each to `_export`. A batch that ends in a control event goes in
  as its records plus that event. The loop breaks after the queue's
  exit sentinel, and exceptions from `_export` are swallowed.
- **The `_stopping` guard of `Worker.stop`.** The exit sentinel is put
  into the queue at most once.
- **The record-to-envelope mapping.** This is `create_envelope` (the
  operation tags) and the two `log_record_to_envelope` overrides. The
  first, `AzureLogHandler`, makes message and exception envelopes, with
  severity, default and custom properties and the reversed call stack.
  The second, `AzureEventHandler`, makes custom-event envelopes.
- **The sampling-rate range check of `BaseLogHandler.__init__`.**

Module layout:

- `wrappers.dfy`: `Option` and `Result`.
- `protocol.dfy`: `Protocol`, the log record and the wire envelope as
  values.
- `schedule.dfy`: `Schedule`. This is the queue's surface:
  - `QueueEvent`, a class with its set flag;
  - the dequeued `Item`;
  - the `Queue`, seen as its exit sentinel and the list of items put
    into it.
- `seqs.dfy`: `Seqs`, sequence facts proved once for every element type.
- `envelopes.dfy`: `Envelopes`. Functions say what each envelope is.
  Methods build it step by step, as the handlers do, and are proved
  equal to those functions.
- `pipeline.dfy`: `Pipeline`. This is `_export` and the worker loop as
  values:
  - the ordered calls one export makes on the transport and the local
    storage, and whether it raises;
  - which `_export` calls the loop makes and where it stops.
- `log_exporter.dfy`: `LogExporter`, with the classes `BaseLogHandler`
  and `Worker`.
  - `BaseLogHandler` records its collaborator calls in `calls`, and keeps
    a ghost log `exports` of the `_export` calls made so far.
  - `BaseLogHandler.Traced()` says the calls made are exactly those of
    the logged exports.
  - The methods are proved against the functions of `Pipeline`.

Collaborators are modelled as follows:

- `_transmit`, `storage.put` and `_transmit_from_storage` become entries
  of the ordered call log `calls`.
- Each `Outcome` (the second field of a `Round`) supplies what
  `_transmit` returns and which step, if any, raises.
- A `Round` is one result of `src.gets` together with the `Outcome` of
  the export it leads to.
- `self.format(record)`, `record.message` and `traceback.extract_tb`
  are inputs: fields of the log record.

## Model

| member | source | states |
|---|---|---|
| LogExporter.BaseLogHandler.Create | contrib/opencensus-ext-azure/opencensus/ext/azure/log_exporter/__init__.py:47-48 | construction fails, with the message "Sampling must be in the range: [0,1]", exactly when the sampling rate is outside [0, 1]; otherwise a fresh handler with the given configuration, no calls made and an empty export log |
| LogExporter.BaseLogHandler.constructor | contrib/opencensus-ext-azure/opencensus/ext/azure/log_exporter/__init__.py:43-48 | a handler built from an in-range sampling rate has the given configuration, no calls and an empty export log, and is `Traced` |
| LogExporter.BaseLogHandler.RecordToEnvelope | contrib/opencensus-ext-azure/opencensus/ext/azure/log_exporter/__init__.py:73 | the envelope of one record is the log handler's or the event handler's, as the handler's kind says |
| LogExporter.BaseLogHandler.BuildEnvelopes | contrib/opencensus-ext-azure/opencensus/ext/azure/log_exporter/__init__.py:73 | the list comprehension fails exactly when some item is a control event, not a record; otherwise it yields one envelope per record, in order |
| LogExporter.BaseLogHandler.ExportBatch | contrib/opencensus-ext-azure/opencensus/ext/azure/log_exporter/__init__.py:72-78 | the `if batch:` block appends to the call log exactly the calls `Pipeline.ExportBatch` gives (transmit, then put when storage is on and the result positive), raises when that says, and leaves the export log alone |
| LogExporter.BaseLogHandler.Export | contrib/opencensus-ext-azure/opencensus/ext/azure/log_exporter/__init__.py:70-87 | `_export` appends the calls of `Pipeline.Export` to the call log; it raises exactly when that says; the event, if any, is set on every path, raising or not; the export is logged; and a handler whose calls matched its export log still does |
| Pipeline.EnvelopesOf | contrib/opencensus-ext-azure/opencensus/ext/azure/log_exporter/__init__.py:73 | a batch of records gives as many envelopes as records, the i-th being the envelope of the i-th record |
| Pipeline.ExportBatchCalls | contrib/opencensus-ext-azure/opencensus/ext/azure/log_exporter/__init__.py:72-78 | the batch block never replays storage; it calls the transport exactly when the batch is non-empty, all records and transformed without error, and then first transmits all its envelopes; it raises exactly when the batch is non-empty and the transform, the transmit or a reached put raises |
| Pipeline.ExportStoresIffPositiveResult | contrib/opencensus-ext-azure/opencensus/ext/azure/log_exporter/__init__.py:72-78 | an export calls `storage.put` exactly once, with the whole envelope list and the transmit result, when the batch is non-empty, storage is enabled and the result is positive (and the steps before did not raise); otherwise it never touches storage |
| Pipeline.ExportExitReplaysOnceAfterBatch | contrib/opencensus-ext-azure/opencensus/ext/azure/log_exporter/__init__.py:79-82 | with the exit event, the calls are the batch's own calls followed by exactly one replay, unless the batch block raised; there is then no replay at all |
| Pipeline.ExportSyncNeverReplays | contrib/opencensus-ext-azure/opencensus/ext/azure/log_exporter/__init__.py:79-82 | with a control event that is not the exit event, the export is just the batch block: storage is never replayed |
| Pipeline.ExportWithoutEventReplaysIffRoom | contrib/opencensus-ext-azure/opencensus/ext/azure/log_exporter/__init__.py:83-84 | with no event, storage is replayed once exactly when the batch block did not raise and the batch is shorter than the maximum batch size; an empty batch only replays; a full batch never replays |
| Pipeline.Dispatch | contrib/opencensus-ext-azure/opencensus/ext/azure/log_exporter/__init__.py:127-136 | when the dequeued batch ends in a control event, `_export` gets `batch[:-1]` and that event; otherwise it gets the whole batch and no event, and the batch does not end in an event |
| Pipeline.Request | contrib/opencensus-ext-azure/opencensus/ext/azure/log_exporter/__init__.py:127-136 | the `_export` call a round leads to: its outcome is the round's, and its batch and event rebuild the dequeued batch as `Dispatch` splits it |
| Pipeline.CallsOfSnoc | contrib/opencensus-ext-azure/opencensus/ext/azure/log_exporter/__init__.py:125-138 | one more export adds its own calls after the calls of the exports before it |
| Pipeline.CallsOfAppend | contrib/opencensus-ext-azure/opencensus/ext/azure/log_exporter/__init__.py:125-138 | the calls of two runs of exports, one after the other, are the first run's calls followed by the second's |
| Pipeline.Consumed | contrib/opencensus-ext-azure/opencensus/ext/azure/log_exporter/__init__.py:125-138 | the loop never takes more rounds than it is given |
| Pipeline.ConsumedStopsAtFirstExit | contrib/opencensus-ext-azure/opencensus/ext/azure/log_exporter/__init__.py:132-133 | the loop breaks exactly at the first round ending in the exit sentinel: that round is the last one taken and no earlier round is an exit round; with no exit round every round is taken |
| Pipeline.LoopConsumed | contrib/opencensus-ext-azure/opencensus/ext/azure/log_exporter/__init__.py:125-138 | a loop that took k rounds and broke out exactly after the first exit round, or ran out without one, took `Consumed` rounds and broke out iff some round is an exit round |
| Pipeline.ConsumedIgnoresLaterRounds | contrib/opencensus-ext-azure/opencensus/ext/azure/log_exporter/__init__.py:132-133 | once there is an exit round, rounds queued after it are never taken: the loop takes the same rounds with or without them |
| Pipeline.ConsumedIgnoresOutcomes | contrib/opencensus-ext-azure/opencensus/ext/azure/log_exporter/__init__.py:128-131 | an exception from `_export` never ends the loop: the rounds taken and whether it exits depend only on the dequeued batches, not on what the collaborators return or raise |
| LogExporter.Worker.RunRound | contrib/opencensus-ext-azure/opencensus/ext/azure/log_exporter/__init__.py:126-138 | turn k of the loop makes exactly the `_export` call `Request` gives for round k, and the handler's call log gains exactly that export's calls (`ExportCalls`); it reports an exit exactly when the batch ends in the queue's exit sentinel; it carries the loop's account from k rounds to k + 1: the exports and calls of the rounds taken, no exit round before the last, and the trailing event of each taken round set |
| LogExporter.Worker.Run | contrib/opencensus-ext-azure/opencensus/ext/azure/log_exporter/__init__.py:119-138 | the loop takes `Consumed` rounds and exits iff there is an exit round; the export log gains exactly the `Request`s of the rounds taken, in order, and the call log gains exactly their calls (`CallsOf`), so a handler whose calls matched its export log still does; a control event ending a taken round is set, and every other event keeps its flag |
| LogExporter.EventsOfExtend | contrib/opencensus-ext-azure/opencensus/ext/azure/log_exporter/__init__.py:127-129 | the events ending the first i+1 rounds are those ending the first i, plus the event ending round i, if any |
| LogExporter.Worker.constructor | contrib/opencensus-ext-azure/opencensus/ext/azure/log_exporter/__init__.py:111-117 | a new worker is not stopping, and the exit sentinel has not been put |
| LogExporter.Worker.Stop | contrib/opencensus-ext-azure/opencensus/ext/azure/log_exporter/__init__.py:143-145 | the first call on a live worker marks it stopping and puts the exit sentinel; any other call puts nothing; the sentinel has been put into the queue once if the worker is stopping, never otherwise, so it is put at most once |
| Envelopes.Severity | contrib/opencensus-ext-azure/opencensus/ext/azure/log_exporter/__init__.py:214 | `max(0, levelno - 1) // 10` is never negative; it is 0 up to level 10; and above that, level n lands in band k exactly when 10k < n <= 10k + 10 |
| Envelopes.SeverityMonotonic | contrib/opencensus-ext-azure/opencensus/ext/azure/log_exporter/__init__.py:222 | severity never decreases as the level rises |
| Envelopes.SeverityOfStandardLevels | contrib/opencensus-ext-azure/opencensus/ext/azure/log_exporter/__init__.py:214 | DEBUG, INFO, WARNING, ERROR and CRITICAL (10 to 50) map to severities 0 to 4 |
| Envelopes.ParsedStackAt | contrib/opencensus-ext-azure/opencensus/ext/azure/log_exporter/__init__.py:181-196 | the call stack has one frame per traceback entry, and frame i is entry n-1-i at level n-1-i: levels are numbered in traceback order and the list is then reversed |
| Envelopes.Merge | contrib/opencensus-ext-azure/opencensus/ext/azure/log_exporter/__init__.py:175-177 | with a custom-dimensions dict, the properties have the keys of both, each with the custom value where there is one, else the default; without one, the defaults unchanged |
| Envelopes.ParentId | contrib/opencensus-ext-azure/opencensus/ext/azure/log_exporter/__init__.py:261-264 | the parent id is a `|`, the operation id, a `.`, the span id and a final `.`, and nothing else |
| Envelopes.Tags | contrib/opencensus-ext-azure/opencensus/ext/azure/log_exporter/__init__.py:253-264 | the tags are the context's keys plus the two operation keys; every other context entry is kept; the operation id is the record's trace id or the default; the parent id is built from that id and the record's span id or its default |
| Envelopes.DefaultIdsAreZeros | contrib/opencensus-ext-azure/opencensus/ext/azure/log_exporter/__init__.py:256-264 | the default trace id is 32 zeros and the default span id 16 zeros |
| Envelopes.DefaultOperationTags | contrib/opencensus-ext-azure/opencensus/ext/azure/log_exporter/__init__.py:256-264 | a record with no trace context gets the all-zero operation id, and the parent id `|<32 zeros>.<16 zeros>.`, 51 characters long |
| Envelopes.CreateEnvelope | contrib/opencensus-ext-azure/opencensus/ext/azure/log_exporter/__init__.py:250-266 | `create_envelope` writes the two operation tags over a copy of the context and yields the envelope `NewEnvelope` describes: the instrumentation key, those tags, the record's time, no name and no data yet |
| Envelopes.LogEnvelopeShape | contrib/opencensus-ext-azure/opencensus/ext/azure/log_exporter/__init__.py:165-226 | an `AzureLogHandler` envelope is an exception envelope (name and base type) exactly when the record carries exception info, and a message envelope exactly when it does not; it keeps the key, time and tags; its severity is `Severity(levelno)`; its properties are the defaults merged with the custom dimensions; and a message envelope carries the formatted record |
| Envelopes.ExceptionDetailsFacts | contrib/opencensus-ext-azure/opencensus/ext/azure/log_exporter/__init__.py:179-213 | the exception entry has id 1 and outer id 0; its type name is the exception type's name or "N/A"; its message is `record.message` when there is no traceback and that message is non-empty, else the formatted record; `hasFullStack` holds exactly when there is a traceback; its stack is empty without a traceback, and otherwise has one frame per entry, innermost first |
| Envelopes.LogRecordToEnvelope | contrib/opencensus-ext-azure/opencensus/ext/azure/log_exporter/__init__.py:165-226 | the step-by-step construction (properties updated in place, the call stack built in a loop with a level counter and then reversed) yields exactly `LogEnvelope` |
| Envelopes.EventEnvelopeShape | contrib/opencensus-ext-azure/opencensus/ext/azure/log_exporter/__init__.py:232-247 | an event envelope keeps the key, time and tags; it is named as a custom event, with base type "EventData"; the event name is the formatted record; its properties are exactly the custom dimensions, or empty without them |
| Envelopes.EventRecordToEnvelope | contrib/opencensus-ext-azure/opencensus/ext/azure/log_exporter/__init__.py:232-247 | the step-by-step construction of the event handler yields exactly `EventEnvelope` |
| Schedule.QueueEvent.Set | contrib/opencensus-ext-azure/opencensus/ext/azure/log_exporter/__init__.py:86-87 | `event.set()` leaves the event set |

## Left out

- The queue's internals are not modelled: `Queue`, `QueueEvent` and
  `QueueExitEvent` from `opencensus.common.schedule`, with their capacity,
  blocking, timeouts and locking. `src.gets` is an input sequence of
  rounds. The queue is seen only as its exit sentinel and the items put
  into it.
- The thread is not modelled (`threading.Thread`, `daemon`, `start`,
  `set_is_exporter`). `is_alive()` is the `alive` parameter of
  `Worker.Stop`.
- `stop`'s timing is not modelled: lines 141-142 and 146-149, with the
  wall-clock arithmetic and `EXIT_EVENT.wait`. That needs float time and
  blocking.
- `SamplingFilter` (lines 152-159) is left out, because it depends on
  `random.random()`.
- The other parts of `__init__` are left out: Options parsing,
  `validate_instrumentation_key`, creating the storage, the queue and the
  worker, and starting statsbeat. They are foreign code, disk I/O or
  threads. The options the exporter reads are the fields of `Options`.
- The collaborators `LocalFileStorage.put`, `_transmit` and
  `_transmit_from_storage` are unseen foreign code, disk or network. They
  appear only as entries of the call log. Their results and exceptions
  come from the `Outcome` of each export.
- `apply_telemetry_processors` is the identity. The handler's processor
  list starts empty (line 60), and adding processors is not part of
  this model.
- `timestamp_to_iso_str` is not modelled: the envelope's `time` carries
  `record.created` unconverted.
- `self.format(record)`, `record.message` and `traceback.extract_tb` are
  library calls. Their results are fields of `Protocol.LogRecord`.
- The exception's value is not modelled; only its type name is read.
- `emit`, `flush` and `close` (lines 89-93, 98-99, 104-105) are outside
  this model. They only hand work to the queue, the storage or the worker.
- `createLock` (lines 95-96) is outside this model, as is all locking. It
  sets `self.lock = None`, so `logging.Handler` takes no lock around
  `emit`, and records from several threads reach the queue unserialised.
- Logging is not modelled: the `logger.exception` calls with which
  `Worker.run` reports an exception from `_export` (lines 131 and 138).
  The model only swallows that exception and goes on.
- The worker loop runs over a finite sequence of rounds. Running out of
  rounds means the model stops observing the loop, which in the source
  would block and wait for the next batch.
- Only the envelope fields that the exporter writes are kept.
  Custom-dimension values are text or integers.
- Any other exception from building an envelope (a failing `format`, for
  instance) is summed up by the `TransformRaises` fault.
- Two behaviours of `_export` that a reader might not expect; the model
  keeps both:
  - On a positive transmit result the whole envelope list is stored
    together with the raw result (line 78), not only the rejected part.
  - With no event, storage is replayed whenever the batch is shorter than
    `max_batch_size` and nothing earlier raised (lines 83-84), whatever
    the transmit returned; an empty batch replays too.
