/**
 * The stateful side of the log exporter: `BaseLogHandler` with its calls to
 * the transport and the local storage, and the `Worker` that drains the
 * queue into it. Each method is proved against the value-level account in
 * module Pipeline.
 */
module LogExporter {
  import opened Wrappers
  import opened Protocol
  import opened Schedule
  import opened Pipeline
  import Envelopes
  import Seqs

  const SamplingRangeError := "Sampling must be in the range: [0,1]"

  predicate InSamplingRange(rate: real) {
    0.0 <= rate <= 1.0
  }

  class BaseLogHandler {
    const kind: HandlerKind
    const options: Options
    /** The shared Azure Monitor context every envelope's tags start from. */
    const context: map<string, string>
    /** The calls made on the transport and the local storage, in order. */
    var calls: seq<Call>
    /** The `_export` calls made so far, with their arguments. */
    ghost var exports: seq<ExportArgs>

    function Config(): HandlerConfig {
      HandlerConfig(kind, options, context)
    }

    /** The calls made on the collaborators are those of the `_export` calls made. */
    ghost predicate Traced()
      reads this
    {
      calls == CallsOf(Config(), exports)
    }

    /** `__init__` once the sampling rate has passed its range check. */
    constructor (kind: HandlerKind, options: Options, context: map<string, string>)
      requires InSamplingRange(options.loggingSamplingRate)
      ensures Config() == HandlerConfig(kind, options, context)
      ensures calls == [] && exports == []
      ensures Traced()
    {
      this.kind := kind;
      this.options := options;
      this.context := context;
      calls := [];
      exports := [];
    }

    /** `__init__`: a sampling rate outside [0, 1] raises `ValueError`. */
    static method Create(kind: HandlerKind, options: Options, context: map<string, string>)
      returns (r: Result<BaseLogHandler, string>)
      ensures r.Failure? <==> !InSamplingRange(options.loggingSamplingRate)
      ensures r.Failure? ==> r.error == SamplingRangeError
      ensures r.Success? ==> fresh(r.value) && r.value.Config() == HandlerConfig(kind, options, context)
      ensures r.Success? ==> r.value.calls == [] && r.value.exports == [] && r.value.Traced()
    {
      if !(0.0 <= options.loggingSamplingRate <= 1.0) {
        return Failure(SamplingRangeError);
      }
      var handler := new BaseLogHandler(kind, options, context);
      return Success(handler);
    }

    /** `log_record_to_envelope`, as the concrete handler overrides it. */
    method RecordToEnvelope(record: LogRecord) returns (envelope: Envelope)
      ensures envelope == Pipeline.RecordToEnvelope(Config(), record)
    {
      match kind
      case AzureLogHandler =>
        envelope := Envelopes.LogRecordToEnvelope(options.instrumentationKey, context, record);
      case AzureEventHandler =>
        envelope := Envelopes.EventRecordToEnvelope(options.instrumentationKey, context, record);
    }

    /**
     * `[self.log_record_to_envelope(x) for x in batch]`. It stops at the
     * first item that is a control event rather than a record: reading a
     * record attribute of a queue event raises.
     */
    method BuildEnvelopes(batch: seq<Item>) returns (envelopes: Option<seq<Envelope>>)
      ensures envelopes.None? <==> !AllRecords(batch)
      ensures envelopes.Some? ==> envelopes.value == EnvelopesOf(Config(), batch)
    {
      var built: seq<Envelope> := [];
      var i := 0;
      while i < |batch|
        invariant 0 <= i <= |batch|
        invariant AllRecords(batch[..i])
        invariant built == EnvelopesOf(Config(), batch[..i])
      {
        match batch[i]
        case Control(_) =>
          return None;
        case Record(record) =>
          var envelope := RecordToEnvelope(record);
          EnvelopesOfExtend(Config(), batch[..i], record);
          Seqs.TakeSnoc(batch, i);
          built := built + [envelope];
          i := i + 1;
      }
      Seqs.TakeAll(batch);
      return Some(built);
    }

    /** The `if batch:` block of `_export`: build, transmit, and store when the result is positive. */
    method ExportBatch(batch: seq<Item>, outcome: Outcome) returns (raised: bool)
      modifies this
      ensures calls == old(calls) + Pipeline.ExportBatch(Config(), batch, outcome).calls
      ensures raised == Pipeline.ExportBatch(Config(), batch, outcome).raised
      ensures exports == old(exports)
    {
      raised := false;
      if |batch| > 0 {
        var built := BuildEnvelopes(batch);
        if built.None? || outcome.fault == TransformRaises {
          return true;
        }
        var envelopes := built.value;
        calls := calls + [Transmit(envelopes)];
        if outcome.fault == TransmitRaises {
          return true;
        }
        var result := outcome.result;
        if options.enableLocalStorage && result > 0 {
          calls := calls + [StoragePut(envelopes, result)];
          raised := outcome.fault == PutRaises;
        }
      }
    }

    /**
     * `_export(batch, event)`. `raised` says whether it ends by raising; the
     * event, when there is one, is set on every path, as the `finally` does.
     */
    method Export(batch: seq<Item>, event: QueueEvent?, outcome: Outcome) returns (raised: bool)
      modifies this, event
      ensures calls == old(calls) + Pipeline.Export(Config(), batch, event, outcome).calls
      ensures raised == Pipeline.Export(Config(), batch, event, outcome).raised
      ensures event != null ==> event.isSet
      ensures exports == old(exports) + [ExportArgs(batch, event, outcome)]
      ensures old(Traced()) ==> Traced()
    {
      ghost var before := exports;
      exports := exports + [ExportArgs(batch, event, outcome)];
      assert exports[..|exports| - 1] == before;
      raised := ExportBatch(batch, outcome);
      if !raised {
        if event != null {
          if event.exitKind {
            calls := calls + [TransmitFromStorage];
            raised := outcome.fault == ReplayRaises;
          }
        } else if |batch| < options.maxBatchSize {
          calls := calls + [TransmitFromStorage];
          raised := outcome.fault == ReplayRaises;
        }
      }
      if event != null {
        event.Set();
      }
    }
  }

  /** How many times the exit sentinel has been put into the queue. */
  function ExitPuts(puts: seq<Item>, exitEvent: QueueEvent): nat {
    multiset(puts)[Control(exitEvent)]
  }

  /** The control events that end some round's batch. */
  function EventsOf(rounds: seq<Round>): set<QueueEvent> {
    set i | 0 <= i < |rounds| && EndsWithEvent(rounds[i].batch) :: TrailingEvent(rounds[i].batch)
  }

  lemma EventsOfExtend(rounds: seq<Round>, i: nat)
    requires i < |rounds|
    ensures EventsOf(rounds[..i + 1]) ==
      EventsOf(rounds[..i]) + if EndsWithEvent(rounds[i].batch) then {TrailingEvent(rounds[i].batch)} else {}
  {
    var longer := rounds[..i + 1];
    assert forall j | 0 <= j < i :: longer[j] == rounds[..i][j];
    assert longer[i] == rounds[i];
  }

  class Worker {
    const src: Queue
    const dst: BaseLogHandler
    var stopping: bool

    /** The exit sentinel is in the queue once if the worker is stopping, and not at all otherwise. */
    ghost predicate Valid()
      reads this, src
    {
      ExitPuts(src.puts, src.exitEvent) == if stopping then 1 else 0
    }

    constructor (src: Queue, dst: BaseLogHandler)
      requires ExitPuts(src.puts, src.exitEvent) == 0
      ensures this.src == src && this.dst == dst && !stopping
      ensures Valid()
    {
      this.src := src;
      this.dst := dst;
      stopping := false;
    }

    /**
     * Turn k of `run`'s loop. A batch that ends in a control event goes to
     * the export as its records and that event, any other batch whole; an
     * exception from the export is swallowed. `isExit` says the event was
     * the queue's exit sentinel, at which the loop breaks. The turn makes
     * the calls of round k's export, and carries the loop's account of the
     * first k rounds forward to k + 1: their exports after `base`, their
     * calls after `calls0`, no exit round among them, and which of the
     * rounds' events are set (`wasSet` holds those set before the loop).
     */
    method RunRound(rounds: seq<Round>, k: nat, ghost base: seq<ExportArgs>, ghost calls0: seq<Call>, ghost wasSet: set<QueueEvent>)
      returns (isExit: bool)
      requires k < |rounds|
      requires dst.exports == base + Requests(rounds[..k])
      requires dst.calls == calls0 + CallsOf(dst.Config(), Requests(rounds[..k]))
      requires forall i | 0 <= i < k :: !IsExitRound(rounds[i], src.exitEvent)
      requires forall e | e in EventsOf(rounds) :: e.isSet == (e in wasSet || e in EventsOf(rounds[..k]))
      modifies dst, if EndsWithEvent(rounds[k].batch) then {TrailingEvent(rounds[k].batch)} else {}
      ensures dst.calls == old(dst.calls) + ExportCalls(dst.Config(), Request(rounds[k]))
      ensures dst.exports == base + Requests(rounds[..k + 1])
      ensures dst.calls == calls0 + CallsOf(dst.Config(), Requests(rounds[..k + 1]))
      ensures isExit == IsExitRound(rounds[k], src.exitEvent)
      ensures forall i | 0 <= i < k + 1 && IsExitRound(rounds[i], src.exitEvent) :: i == k
      ensures forall e | e in EventsOf(rounds) :: e.isSet == (e in wasSet || e in EventsOf(rounds[..k + 1]))
    {
      RequestsExtend(rounds, k);
      Seqs.AppendAssoc(base, Requests(rounds[..k]), [Request(rounds[k])]);
      CallsOfSnoc(dst.Config(), Requests(rounds[..k]), Request(rounds[k]));
      Seqs.AppendAssoc(calls0, CallsOf(dst.Config(), Requests(rounds[..k])), ExportCalls(dst.Config(), Request(rounds[k])));
      EventsOfExtend(rounds, k);
      var round := rounds[k];
      var batch := round.batch;
      if |batch| > 0 && batch[|batch| - 1].Control? {
        var event := batch[|batch| - 1].event;
        assert event in EventsOf(rounds);
        assert Dispatch(batch) == (batch[..|batch| - 1], event);
        var raised := dst.Export(batch[..|batch| - 1], event, round.outcome);  // logged and swallowed
        return event == src.exitEvent;
      }
      assert Dispatch(batch) == (batch, null);
      var raised := dst.Export(batch, null, round.outcome);  // logged and swallowed
      return false;
    }

    /**
     * `run`, over the rounds the queue delivers: each round is handled as
     * `RunRound` says, and the loop breaks after the queue's exit sentinel.
     * `consumed` is how many rounds were taken.
     */
    method Run(rounds: seq<Round>) returns (consumed: nat, exited: bool)
      modifies dst, EventsOf(rounds)
      ensures consumed == Consumed(rounds, src.exitEvent) && exited == HasExit(rounds, src.exitEvent)
      ensures dst.exports == old(dst.exports) + Requests(rounds[..consumed])
      ensures dst.calls == old(dst.calls) + CallsOf(dst.Config(), Requests(rounds[..consumed]))
      ensures old(dst.Traced()) ==> dst.Traced()
      ensures forall e | e in EventsOf(rounds) :: e.isSet == (old(e.isSet) || e in EventsOf(rounds[..consumed]))
    {
      ghost var wasSet := set e | e in EventsOf(rounds) && e.isSet;
      consumed, exited := 0, false;
      assert rounds[..0] == [];
      assert CallsOf(dst.Config(), Requests(rounds[..0])) == [];
      while consumed < |rounds|
        invariant consumed <= |rounds|
        invariant dst.exports == old(dst.exports) + Requests(rounds[..consumed])
        invariant dst.calls == old(dst.calls) + CallsOf(dst.Config(), Requests(rounds[..consumed]))
        invariant forall i | 0 <= i < consumed :: !IsExitRound(rounds[i], src.exitEvent)
        invariant forall e | e in EventsOf(rounds) :: e.isSet == (e in wasSet || e in EventsOf(rounds[..consumed]))
      {
        var isExit := RunRound(rounds, consumed, old(dst.exports), old(dst.calls), wasSet);
        consumed := consumed + 1;
        if isExit {
          exited := true;
          break;
        }
      }
      LoopConsumed(rounds, consumed, exited, src.exitEvent);
      CallsOfAppend(dst.Config(), old(dst.exports), Requests(rounds[..consumed]));
    }

    /**
     * `stop`'s guard: the first call while the thread is alive marks the
     * worker as stopping and puts the exit sentinel; later calls put nothing.
     */
    method Stop(alive: bool)
      requires Valid()
      modifies this, src
      ensures Valid()
      ensures stopping == (old(stopping) || alive)
      ensures src.puts == if alive && !old(stopping) then old(src.puts) + [Control(src.exitEvent)] else old(src.puts)
    {
      if alive && !stopping {
        stopping := true;
        src.Put(Control(src.exitEvent));
      }
    }
  }
}
