/**
 * What `BaseLogHandler._export` and `Worker.run` do, as values: the ordered
 * calls one export makes on the transport and the local storage, whether it
 * raises, and what a run of the worker loop exports and where it stops.
 */
module Pipeline {
  import opened Wrappers
  import opened Protocol
  import opened Schedule
  import Envelopes
  import Seqs

  /** The two concrete handlers; they differ only in how a record becomes an envelope. */
  datatype HandlerKind = AzureLogHandler | AzureEventHandler

  /** The options the exporter reads. */
  datatype Options = Options(
    instrumentationKey: string,
    loggingSamplingRate: real,
    maxBatchSize: int,
    enableLocalStorage: bool)

  /** A handler's fixed configuration; `context` is the shared Azure Monitor context map. */
  datatype HandlerConfig = HandlerConfig(kind: HandlerKind, options: Options, context: map<string, string>)

  /** The handler's `log_record_to_envelope`. */
  function RecordToEnvelope(cfg: HandlerConfig, record: LogRecord): Envelope {
    match cfg.kind
    case AzureLogHandler => Envelopes.LogEnvelope(cfg.options.instrumentationKey, cfg.context, record)
    case AzureEventHandler => Envelopes.EventEnvelope(cfg.options.instrumentationKey, cfg.context, record)
  }

  predicate AllRecords(batch: seq<Item>) {
    forall i | 0 <= i < |batch| :: batch[i].Record?
  }

  /** `[self.log_record_to_envelope(x) for x in batch]`: one envelope per record, in order. */
  function EnvelopesOf(cfg: HandlerConfig, batch: seq<Item>): (r: seq<Envelope>)
    requires AllRecords(batch)
    ensures |r| == |batch|
    ensures forall i | 0 <= i < |batch| :: r[i] == RecordToEnvelope(cfg, batch[i].record)
  {
    if batch == [] then [] else [RecordToEnvelope(cfg, batch[0].record)] + EnvelopesOf(cfg, batch[1..])
  }

  lemma {:induction false} EnvelopesOfExtend(cfg: HandlerConfig, batch: seq<Item>, record: LogRecord)
    requires AllRecords(batch)
    ensures AllRecords(batch + [Record(record)])
    ensures EnvelopesOf(cfg, batch + [Record(record)]) == EnvelopesOf(cfg, batch) + [RecordToEnvelope(cfg, record)]
  {
    var longer := batch + [Record(record)];
    assert forall i | 0 <= i < |batch| :: longer[i] == batch[i];
    assert longer[|batch|] == Record(record);
  }

  // ---------------------------------------------------------------- _export

  /** A call `_export` makes on a collaborator: `_transmit`, `storage.put` or `_transmit_from_storage`. */
  datatype Call =
    | Transmit(envelopes: seq<Envelope>)
    | StoragePut(envelopes: seq<Envelope>, result: int)
    | TransmitFromStorage

  /**
   * Which step of an export raises, if any: building the envelopes (a
   * record's formatting or a telemetry processor), `_transmit`,
   * `storage.put` or `_transmit_from_storage`. A step that is not reached
   * does not raise.
   */
  datatype Fault = NoFault | TransformRaises | TransmitRaises | PutRaises | ReplayRaises

  /** How the collaborators behave during one export: what `_transmit` returns and which step raises. */
  datatype Outcome = Outcome(result: int, fault: Fault)

  /** The calls one export makes, in order, and whether it ends by raising. */
  datatype ExportResult = ExportResult(calls: seq<Call>, raised: bool)

  /** `_transmit` is called: the batch is non-empty, all records, and building the envelopes did not raise. */
  predicate Transmits(batch: seq<Item>, o: Outcome) {
    |batch| > 0 && AllRecords(batch) && o.fault != TransformRaises
  }

  /** `storage.put` is called: `_transmit` returned, storage is enabled and the result is positive. */
  predicate Stores(cfg: HandlerConfig, batch: seq<Item>, o: Outcome) {
    Transmits(batch, o) && o.fault != TransmitRaises && cfg.options.enableLocalStorage && o.result > 0
  }

  /**
   * The `if batch:` block of `_export`. A control event among the items has
   * none of a record's attributes, so building its envelope raises.
   */
  function ExportBatch(cfg: HandlerConfig, batch: seq<Item>, o: Outcome): ExportResult {
    if |batch| == 0 then ExportResult([], false)
    else if !AllRecords(batch) || o.fault == TransformRaises then ExportResult([], true)
    else
      var envelopes := EnvelopesOf(cfg, batch);
      if o.fault == TransmitRaises then ExportResult([Transmit(envelopes)], true)
      else if cfg.options.enableLocalStorage && o.result > 0 then
        ExportResult([Transmit(envelopes), StoragePut(envelopes, o.result)], o.fault == PutRaises)
      else ExportResult([Transmit(envelopes)], false)
  }

  /** `_transmit_from_storage()` after the calls made so far. */
  function Replay(before: ExportResult, o: Outcome): ExportResult {
    ExportResult(before.calls + [TransmitFromStorage], o.fault == ReplayRaises)
  }

  /** `_export(batch, event)`, apart from setting the event, which the handler's method does. */
  function Export(cfg: HandlerConfig, batch: seq<Item>, event: QueueEvent?, o: Outcome): ExportResult {
    var handled := ExportBatch(cfg, batch, o);
    if handled.raised then handled
    else if event != null then (if event.exitKind then Replay(handled, o) else handled)
    else if |batch| < cfg.options.maxBatchSize then Replay(handled, o)
    else handled
  }

  /** The `storage.put` calls among `calls`, in order. */
  function Puts(calls: seq<Call>): (r: seq<Call>)
    ensures forall c | c in r :: c.StoragePut? && c in calls
  {
    if calls == [] then []
    else (if calls[0].StoragePut? then [calls[0]] else []) + Puts(calls[1..])
  }

  lemma {:induction false} PutsAppend(a: seq<Call>, b: seq<Call>)
    ensures Puts(a + b) == Puts(a) + Puts(b)
  {
    if a == [] {
      assert a + b == b;
    } else {
      assert (a + b)[1..] == a[1..] + b;
      PutsAppend(a[1..], b);
    }
  }

  /** How many times `_transmit_from_storage` is called. */
  function Replays(calls: seq<Call>): nat {
    multiset(calls)[TransmitFromStorage]
  }

  /** The batch's own calls: transmit first, then maybe put; never a replay. */
  lemma ExportBatchCalls(cfg: HandlerConfig, batch: seq<Item>, o: Outcome)
    ensures var r := ExportBatch(cfg, batch, o);
      && Replays(r.calls) == 0
      && (Transmits(batch, o) <==> r.calls != [])
      && (Transmits(batch, o) ==> r.calls[0] == Transmit(EnvelopesOf(cfg, batch)))
      && (r.raised <==>
            |batch| > 0 && (!AllRecords(batch) || o.fault == TransformRaises || o.fault == TransmitRaises
                            || (Stores(cfg, batch, o) && o.fault == PutRaises)))
  {
  }

  /**
   * `storage.put` is called exactly once, with every envelope of the batch
   * and the transmit result, when the batch is non-empty, storage is
   * enabled and the result is positive (and the steps before did not raise);
   * otherwise storage is not touched.
   */
  lemma ExportStoresIffPositiveResult(cfg: HandlerConfig, batch: seq<Item>, event: QueueEvent?, o: Outcome)
    ensures Puts(Export(cfg, batch, event, o).calls) ==
      if Stores(cfg, batch, o) then [StoragePut(EnvelopesOf(cfg, batch), o.result)] else []
  {
    var handled := ExportBatch(cfg, batch, o);
    PutsAppend(handled.calls, [TransmitFromStorage]);
    if Transmits(batch, o) {
      var envelopes := EnvelopesOf(cfg, batch);
      PutsAppend([Transmit(envelopes)], [StoragePut(envelopes, o.result)]);
    }
  }

  /** With the exit event, storage is replayed once, after the batch's own calls, unless those raised. */
  lemma ExportExitReplaysOnceAfterBatch(cfg: HandlerConfig, batch: seq<Item>, event: QueueEvent?, o: Outcome)
    requires event != null && event.exitKind
    ensures var handled := ExportBatch(cfg, batch, o);
      && Export(cfg, batch, event, o).calls == handled.calls + (if handled.raised then [] else [TransmitFromStorage])
      && Replays(Export(cfg, batch, event, o).calls) == (if handled.raised then 0 else 1)
  {
    ExportBatchCalls(cfg, batch, o);
  }

  /** With a control event that is not an exit event, storage is never replayed. */
  lemma ExportSyncNeverReplays(cfg: HandlerConfig, batch: seq<Item>, event: QueueEvent?, o: Outcome)
    requires event != null && !event.exitKind
    ensures Export(cfg, batch, event, o) == ExportBatch(cfg, batch, o)
    ensures Replays(Export(cfg, batch, event, o).calls) == 0
  {
    ExportBatchCalls(cfg, batch, o);
  }

  /**
   * With no event, storage is replayed (once) exactly when the batch is
   * shorter than the maximum batch size and its own calls did not raise:
   * an empty batch replays, a full batch never does.
   */
  lemma ExportWithoutEventReplaysIffRoom(cfg: HandlerConfig, batch: seq<Item>, o: Outcome)
    ensures var r := Export(cfg, batch, null, o);
      && Replays(r.calls) == (if !ExportBatch(cfg, batch, o).raised && |batch| < cfg.options.maxBatchSize then 1 else 0)
      && (batch == [] && cfg.options.maxBatchSize > 0 ==> r.calls == [TransmitFromStorage])
      && (|batch| >= cfg.options.maxBatchSize ==> Replays(r.calls) == 0)
  {
    ExportBatchCalls(cfg, batch, o);
  }

  // ---------------------------------------------------------------- Worker.run

  /** One turn of the worker loop: what `src.gets` returned and how the collaborators behave in the export. */
  datatype Round = Round(batch: seq<Item>, outcome: Outcome)

  predicate EndsWithEvent(batch: seq<Item>) {
    |batch| > 0 && batch[|batch| - 1].Control?
  }

  function TrailingEvent(batch: seq<Item>): QueueEvent
    requires EndsWithEvent(batch)
  {
    batch[|batch| - 1].event
  }

  /** What the loop passes to `_export`: `batch[:-1]` and `batch[-1]` when the batch ends in an event, else the batch and no event. */
  function Dispatch(batch: seq<Item>): (d: (seq<Item>, QueueEvent?))
    ensures d.1 != null ==> batch == d.0 + [Control(d.1)]
    ensures d.1 == null ==> d.0 == batch && !EndsWithEvent(batch)
  {
    if EndsWithEvent(batch) then (batch[..|batch| - 1], TrailingEvent(batch)) else (batch, null)
  }

  /** The round's batch ends in the queue's exit sentinel. */
  predicate IsExitRound(round: Round, exitEvent: QueueEvent) {
    EndsWithEvent(round.batch) && TrailingEvent(round.batch) == exitEvent
  }

  /** The arguments of one `_export` call: the records, the control event if any, and how the collaborators behave. */
  datatype ExportArgs = ExportArgs(batch: seq<Item>, event: QueueEvent?, outcome: Outcome)

  /** The calls one `_export` call makes. */
  function ExportCalls(cfg: HandlerConfig, args: ExportArgs): seq<Call> {
    Export(cfg, args.batch, args.event, args.outcome).calls
  }

  /** The calls a sequence of `_export` calls makes, one after the other. */
  function CallsOf(cfg: HandlerConfig, exports: seq<ExportArgs>): seq<Call> {
    if exports == [] then []
    else CallsOf(cfg, exports[..|exports| - 1]) + ExportCalls(cfg, exports[|exports| - 1])
  }

  /** The calls of two runs of exports, one after the other, are the calls of the first followed by those of the second. */
  lemma {:induction false} CallsOfAppend(cfg: HandlerConfig, a: seq<ExportArgs>, b: seq<ExportArgs>)
    ensures CallsOf(cfg, a + b) == CallsOf(cfg, a) + CallsOf(cfg, b)
  {
    if b == [] {
      assert a + b == a;
    } else {
      var front := b[..|b| - 1];
      assert (a + b)[..|a + b| - 1] == a + front;
      assert (a + b)[|a + b| - 1] == b[|b| - 1];
      CallsOfAppend(cfg, a, front);
      Seqs.AppendAssoc(CallsOf(cfg, a), CallsOf(cfg, front), ExportCalls(cfg, b[|b| - 1]));
    }
  }

  /** One more export adds its own calls at the end. */
  lemma CallsOfSnoc(cfg: HandlerConfig, exports: seq<ExportArgs>, args: ExportArgs)
    ensures CallsOf(cfg, exports + [args]) == CallsOf(cfg, exports) + ExportCalls(cfg, args)
  {
    assert (exports + [args])[..|exports|] == exports;
  }

  /** The `_export` call the loop makes for a round: the batch split as `Dispatch` says. */
  function Request(round: Round): (a: ExportArgs)
    ensures a.outcome == round.outcome
    ensures a.event == null ==> a.batch == round.batch && !EndsWithEvent(round.batch)
    ensures a.event != null ==> round.batch == a.batch + [Control(a.event)]
  {
    ExportArgs(Dispatch(round.batch).0, Dispatch(round.batch).1, round.outcome)
  }

  /** The `_export` calls the loop makes for the rounds, in order. */
  function Requests(rounds: seq<Round>): (r: seq<ExportArgs>)
    ensures |r| == |rounds|
  {
    seq(|rounds|, i requires 0 <= i < |rounds| => Request(rounds[i]))
  }

  lemma RequestsExtend(rounds: seq<Round>, k: nat)
    requires k < |rounds|
    ensures Requests(rounds[..k + 1]) == Requests(rounds[..k]) + [Request(rounds[k])]
  {
    Seqs.TakeSnoc(rounds, k);
  }

  /** How many rounds the loop takes: up to and including the first exit round, or all of them. */
  function Consumed(rounds: seq<Round>, exitEvent: QueueEvent): (n: nat)
    decreases |rounds|
    ensures n <= |rounds|
  {
    if rounds == [] then 0
    else if IsExitRound(rounds[0], exitEvent) then 1
    else Consumed(rounds[1..], exitEvent) + 1
  }

  /** Some round ends in the exit sentinel. */
  predicate HasExit(rounds: seq<Round>, exitEvent: QueueEvent) {
    exists i | 0 <= i < |rounds| :: IsExitRound(rounds[i], exitEvent)
  }

  /**
   * The loop breaks out at the first exit round: the last round it takes is
   * the exit round and none before it is; without an exit round it takes
   * every round.
   */
  lemma {:induction false} ConsumedStopsAtFirstExit(rounds: seq<Round>, exitEvent: QueueEvent)
    ensures var n := Consumed(rounds, exitEvent);
      && (HasExit(rounds, exitEvent) ==> 0 < n && IsExitRound(rounds[n - 1], exitEvent))
      && (!HasExit(rounds, exitEvent) ==> n == |rounds|)
      && (forall i | 0 <= i < n - 1 :: !IsExitRound(rounds[i], exitEvent))
  {
    if rounds != [] && !IsExitRound(rounds[0], exitEvent) {
      var tail := rounds[1..];
      ConsumedStopsAtFirstExit(tail, exitEvent);
      var n := Consumed(tail, exitEvent);
      assert forall i | 0 <= i < |tail| :: tail[i] == rounds[i + 1];
      if HasExit(rounds, exitEvent) {
        var i :| 0 <= i < |rounds| && IsExitRound(rounds[i], exitEvent);
        assert IsExitRound(tail[i - 1], exitEvent);
      }
      if HasExit(tail, exitEvent) {
        var i :| 0 <= i < |tail| && IsExitRound(tail[i], exitEvent);
        assert IsExitRound(rounds[i + 1], exitEvent);
      }
      forall i | 0 <= i < n
        ensures !IsExitRound(rounds[i], exitEvent)
      {
        if i > 0 {
          assert rounds[i] == tail[i - 1];
        }
      }
    }
  }

  /**
   * A loop that took the first k rounds and broke out exactly at the first
   * exit round (or ran out of rounds without one) took what `Consumed`
   * says, and broke out iff some round is an exit round.
   */
  lemma LoopConsumed(rounds: seq<Round>, k: nat, exited: bool, exitEvent: QueueEvent)
    requires k <= |rounds|
    requires exited ==> 0 < k && IsExitRound(rounds[k - 1], exitEvent)
    requires !exited ==> k == |rounds|
    requires forall i | 0 <= i < k && IsExitRound(rounds[i], exitEvent) :: exited && i == k - 1
    ensures k == Consumed(rounds, exitEvent) && exited == HasExit(rounds, exitEvent)
  {
    ConsumedStopsAtFirstExit(rounds, exitEvent);
  }

  /** Rounds after the exit round are never taken: appending rounds changes nothing once there is an exit round. */
  lemma {:induction false} ConsumedIgnoresLaterRounds(rounds: seq<Round>, later: seq<Round>, exitEvent: QueueEvent)
    requires HasExit(rounds, exitEvent)
    ensures Consumed(rounds + later, exitEvent) == Consumed(rounds, exitEvent)
    ensures (rounds + later)[..Consumed(rounds, exitEvent)] == rounds[..Consumed(rounds, exitEvent)]
  {
    var all := rounds + later;
    assert all[0] == rounds[0];
    if !IsExitRound(rounds[0], exitEvent) {
      var i :| 0 <= i < |rounds| && IsExitRound(rounds[i], exitEvent);
      assert IsExitRound(rounds[1..][i - 1], exitEvent);
      assert all[1..] == rounds[1..] + later;
      ConsumedIgnoresLaterRounds(rounds[1..], later, exitEvent);
    }
    var n := Consumed(rounds, exitEvent);
    assert forall j | 0 <= j < n :: all[..n][j] == rounds[..n][j];
  }

  /**
   * An exception from `_export` never ends the loop: how many rounds it
   * takes depends only on the dequeued batches, not on what the
   * collaborators return or raise.
   */
  lemma {:induction false} ConsumedIgnoresOutcomes(rounds: seq<Round>, others: seq<Round>, exitEvent: QueueEvent)
    requires |others| == |rounds|
    requires forall i | 0 <= i < |rounds| :: others[i].batch == rounds[i].batch
    ensures Consumed(others, exitEvent) == Consumed(rounds, exitEvent)
    ensures HasExit(others, exitEvent) == HasExit(rounds, exitEvent)
  {
    if rounds != [] {
      assert others[0].batch == rounds[0].batch;
      ConsumedIgnoresOutcomes(rounds[1..], others[1..], exitEvent);
    }
    if HasExit(rounds, exitEvent) {
      var i :| 0 <= i < |rounds| && IsExitRound(rounds[i], exitEvent);
      assert IsExitRound(others[i], exitEvent);
    }
    if HasExit(others, exitEvent) {
      var i :| 0 <= i < |others| && IsExitRound(others[i], exitEvent);
      assert IsExitRound(rounds[i], exitEvent);
    }
  }
}
