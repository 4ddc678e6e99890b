/**
 * How a log record becomes a telemetry envelope: `create_envelope` (tags),
 * `AzureLogHandler.log_record_to_envelope` (messages and exceptions) and
 * `AzureEventHandler.log_record_to_envelope` (custom events).
 * The functions state what the envelope is; the methods build it step by
 * step as the handlers do and are proved to agree with the functions.
 */
module Envelopes {
  import opened Wrappers
  import opened Protocol
  import Seqs

  const OperationIdTag := "ai.operation.id"
  const OperationParentIdTag := "ai.operation.parentId"

  /** The `traceId` used when a record has none: 32 zeros. */
  const DefaultTraceId := "00000000000000000000000000000000"
  /** The `spanId` used when a record has none: 16 zeros. */
  const DefaultSpanId := "0000000000000000"

  const ExceptionName := "Microsoft.ApplicationInsights.Exception"
  const MessageName := "Microsoft.ApplicationInsights.Message"
  const EventName := "Microsoft.ApplicationInsights.Event"

  /** The type name used when the exception type is None. */
  const UnknownExceptionType := "N/A"

  predicate AllZeros(s: string) {
    forall i | 0 <= i < |s| :: s[i] == '0'
  }

  lemma DefaultIdsAreZeros()
    ensures |DefaultTraceId| == 32 && AllZeros(DefaultTraceId)
    ensures |DefaultSpanId| == 16 && AllZeros(DefaultSpanId)
  {
  }

  // ---------------------------------------------------------------- severity

  function Max(a: int, b: int): int {
    if a >= b then a else b
  }

  /**
   * `max(0, levelno - 1) // 10`. Every level up to 10 maps to 0; above that,
   * each band of ten levels (10k, 10k + 10] maps to k.
   */
  function Severity(levelno: int): (r: nat)
    ensures levelno <= 10 ==> r == 0
    ensures levelno > 10 ==> 10 * r < levelno <= 10 * r + 10
  {
    Max(0, levelno - 1) / 10
  }

  lemma SeverityMonotonic(a: int, b: int)
    requires a <= b
    ensures Severity(a) <= Severity(b)
  {
  }

  /** DEBUG, INFO, WARNING, ERROR and CRITICAL map to 0, 1, 2, 3 and 4. */
  lemma SeverityOfStandardLevels()
    ensures Severity(10) == 0 && Severity(20) == 1 && Severity(30) == 2
    ensures Severity(40) == 3 && Severity(50) == 4
  {
  }

  // ---------------------------------------------------------------- call stack

  function Frame(entry: TracebackEntry, level: int): StackFrame {
    StackFrame(level, entry.functionName, entry.fileName, entry.line)
  }

  /** The traceback entries in order, numbered from `level` upwards. */
  function Numbered(entries: seq<TracebackEntry>, level: int): (r: seq<StackFrame>)
    ensures |r| == |entries|
    ensures forall i | 0 <= i < |r| :: r[i] == Frame(entries[i], level + i)
  {
    if entries == [] then [] else [Frame(entries[0], level)] + Numbered(entries[1..], level + 1)
  }

  /** `list.reverse()` on a value. */
  function Reversed<T>(s: seq<T>): (r: seq<T>)
    ensures |r| == |s|
    ensures forall i | 0 <= i < |s| :: r[i] == s[|s| - 1 - i]
  {
    if s == [] then [] else [s[|s| - 1]] + Reversed(s[..|s| - 1])
  }

  /** The `parsedStack` of an exception: traceback entries numbered 0.. in order, then reversed. */
  function ParsedStack(entries: seq<TracebackEntry>): seq<StackFrame> {
    Reversed(Numbered(entries, 0))
  }

  /** Entry i of the parsed stack is the traceback's entry n-1-i, at level n-1-i. */
  lemma ParsedStackAt(entries: seq<TracebackEntry>, i: int)
    requires 0 <= i < |entries|
    ensures |ParsedStack(entries)| == |entries|
    ensures ParsedStack(entries)[i] == Frame(entries[|entries| - 1 - i], |entries| - 1 - i)
  {
  }

  // ---------------------------------------------------------------- properties

  /** `dict.update`: `custom` over `defaults`, when the record has a custom-dimensions dict. */
  function Merge(defaults: map<string, Value>, custom: Option<map<string, Value>>): (r: map<string, Value>)
    ensures custom.None? ==> r == defaults
    ensures custom.Some? ==> r.Keys == defaults.Keys + custom.value.Keys
    ensures custom.Some? ==> forall k | k in r ::
      r[k] == if k in custom.value then custom.value[k] else defaults[k]
  {
    match custom
    case None => defaults
    case Some(c) => defaults + c
  }

  /** The properties every message or exception envelope starts from. */
  function DefaultProperties(record: LogRecord): map<string, Value> {
    map[
      "process" := Text(record.processName),
      "module" := Text(record.moduleName),
      "fileName" := Text(record.pathname),
      "lineNumber" := Number(record.lineno),
      "level" := Text(record.levelname)]
  }

  // ---------------------------------------------------------------- create_envelope

  /** The `ai.operation.parentId` tag: `'|' + operationId + '.' + spanId + '.'`. */
  function ParentId(operationId: string, spanId: string): (p: string)
    ensures |p| == |operationId| + |spanId| + 3
    ensures p[0] == '|' && p[|operationId| + 1] == '.' && p[|p| - 1] == '.'
    ensures p[1..|operationId| + 1] == operationId
    ensures p[|operationId| + 2..|p| - 1] == spanId
  {
    "|" + operationId + "." + spanId + "."
  }

  /**
   * The envelope's tags: a copy of the shared context with the operation id
   * and parent id written over it.
   */
  function Tags(context: map<string, string>, record: LogRecord): (tags: map<string, string>)
    ensures tags.Keys == context.Keys + {OperationIdTag, OperationParentIdTag}
    ensures forall k | k in context && k != OperationIdTag && k != OperationParentIdTag :: tags[k] == context[k]
    ensures tags[OperationIdTag] == record.traceId.GetOr(DefaultTraceId)
    ensures tags[OperationParentIdTag] == ParentId(record.traceId.GetOr(DefaultTraceId), record.spanId.GetOr(DefaultSpanId))
  {
    var withId := context[OperationIdTag := record.traceId.GetOr(DefaultTraceId)];
    withId[OperationParentIdTag := ParentId(withId[OperationIdTag], record.spanId.GetOr(DefaultSpanId))]
  }

  /** What `create_envelope` returns, before a handler names it and fills in its data. */
  function NewEnvelope(instrumentationKey: string, context: map<string, string>, record: LogRecord): Envelope {
    Envelope(instrumentationKey, Tags(context, record), record.created, "", NoData)
  }

  /** A record without trace context gets the all-zero operation id and parent id. */
  lemma DefaultOperationTags(context: map<string, string>, record: LogRecord)
    requires record.traceId.None? && record.spanId.None?
    ensures Tags(context, record)[OperationIdTag] == DefaultTraceId
    ensures Tags(context, record)[OperationParentIdTag] == "|" + DefaultTraceId + "." + DefaultSpanId + "."
    ensures |Tags(context, record)[OperationParentIdTag]| == 51
  {
  }

  /** `create_envelope`: copy the context into fresh tags and write the two operation tags. */
  method CreateEnvelope(instrumentationKey: string, context: map<string, string>, record: LogRecord)
    returns (envelope: Envelope)
    ensures envelope == NewEnvelope(instrumentationKey, context, record)
  {
    envelope := Envelope(instrumentationKey, context, record.created, "", NoData);
    envelope := envelope.(tags := envelope.tags[OperationIdTag := record.traceId.GetOr(DefaultTraceId)]);
    var parentId := "|" + envelope.tags[OperationIdTag] + "." + record.spanId.GetOr(DefaultSpanId) + ".";
    envelope := envelope.(tags := envelope.tags[OperationParentIdTag := parentId]);
  }

  // ---------------------------------------------------------------- AzureLogHandler

  /** The exception message: the formatted record, or `record.message` when there is no traceback and it is non-empty. */
  function ExceptionMessage(record: LogRecord, exc: ExcInfo): string {
    if exc.traceback.None? && record.message != "" then record.message else record.formatted
  }

  /** The one exception entry of an exception envelope. */
  function ExceptionDetailsOf(record: LogRecord, exc: ExcInfo): ExceptionDetails {
    ExceptionDetails(
      1, 0,
      exc.typeName.GetOr(UnknownExceptionType),
      ExceptionMessage(record, exc),
      exc.traceback.Some?,
      match exc.traceback
      case Some(entries) => ParsedStack(entries)
      case None => [])
  }

  /** The envelope `AzureLogHandler` makes of a record. */
  function LogEnvelope(instrumentationKey: string, context: map<string, string>, record: LogRecord): Envelope {
    var envelope := NewEnvelope(instrumentationKey, context, record);
    var properties := Merge(DefaultProperties(record), record.customDimensions);
    match record.excInfo
    case Some(exc) =>
      envelope.(name := ExceptionName,
                data := Data(ExceptionData([ExceptionDetailsOf(record, exc)], Severity(record.levelno), properties), "ExceptionData"))
    case None =>
      envelope.(name := MessageName,
                data := Data(MessageData(record.formatted, Severity(record.levelno), properties), "MessageData"))
  }

  /** The choice of name, base type, severity and properties of an `AzureLogHandler` envelope. */
  lemma LogEnvelopeShape(instrumentationKey: string, context: map<string, string>, record: LogRecord)
    ensures var e := LogEnvelope(instrumentationKey, context, record);
      && e.iKey == instrumentationKey && e.time == record.created
      && e.tags == Tags(context, record)
      && e.data.Data?
      && (e.name == ExceptionName <==> record.excInfo.Some?)
      && (e.name == MessageName <==> record.excInfo.None?)
      && (e.data.baseType == "ExceptionData" <==> record.excInfo.Some?)
      && (e.data.baseType == "MessageData" <==> record.excInfo.None?)
      && e.data.baseData.severityLevel == Severity(record.levelno)
      && e.data.baseData.properties == Merge(DefaultProperties(record), record.customDimensions)
      && (record.excInfo.None? ==> e.data.baseData.message == record.formatted)
  {
  }

  /**
   * The exception entry: its type name falls back to "N/A", its message to
   * the formatted record, and it carries the full stack exactly when there is
   * a traceback, one frame per traceback entry, innermost first.
   */
  lemma ExceptionDetailsFacts(record: LogRecord, exc: ExcInfo)
    ensures var d := ExceptionDetailsOf(record, exc);
      && d.id == 1 && d.outerId == 0
      && (exc.typeName.None? ==> d.typeName == UnknownExceptionType)
      && (exc.typeName.Some? ==> d.typeName == exc.typeName.value)
      && (exc.traceback.None? && record.message != "" ==> d.message == record.message)
      && (exc.traceback.Some? || record.message == "" ==> d.message == record.formatted)
      && (d.hasFullStack <==> exc.traceback.Some?)
      && (exc.traceback.None? ==> d.parsedStack == [])
      && (exc.traceback.Some? ==> |d.parsedStack| == |exc.traceback.value|)
      && (exc.traceback.Some? ==> forall i | 0 <= i < |d.parsedStack| ::
            var n := |exc.traceback.value|;
            d.parsedStack[i] == Frame(exc.traceback.value[n - 1 - i], n - 1 - i))
  {
  }

  /** `AzureLogHandler.log_record_to_envelope`. */
  method LogRecordToEnvelope(instrumentationKey: string, context: map<string, string>, record: LogRecord)
    returns (envelope: Envelope)
    ensures envelope == LogEnvelope(instrumentationKey, context, record)
  {
    envelope := CreateEnvelope(instrumentationKey, context, record);
    var properties := DefaultProperties(record);
    if record.customDimensions.Some? {
      properties := properties + record.customDimensions.value;
    }
    if record.excInfo.Some? {
      var exc := record.excInfo.value;
      var callstack: seq<StackFrame> := [];
      var level := 0;
      var hasFullStack := false;
      var excType := UnknownExceptionType;
      var message := record.formatted;
      if exc.traceback.Some? {
        hasFullStack := true;
        var entries := exc.traceback.value;
        for k := 0 to |entries|
          invariant level == k
          invariant callstack == Numbered(entries[..k], 0)
        {
          Seqs.TakeSnoc(entries, k);
          callstack := callstack + [Frame(entries[k], level)];
          level := level + 1;
        }
        Seqs.TakeAll(entries);
        callstack := Reversed(callstack);
      } else if record.message != "" {
        message := record.message;
      }
      if exc.typeName.Some? {
        excType := exc.typeName.value;
      }
      envelope := envelope.(name := ExceptionName);
      var data := ExceptionData(
        [ExceptionDetails(1, 0, excType, message, hasFullStack, callstack)],
        Severity(record.levelno),
        properties);
      envelope := envelope.(data := Data(data, "ExceptionData"));
    } else {
      envelope := envelope.(name := MessageName);
      var data := MessageData(record.formatted, Severity(record.levelno), properties);
      envelope := envelope.(data := Data(data, "MessageData"));
    }
  }

  // ---------------------------------------------------------------- AzureEventHandler

  /** The envelope `AzureEventHandler` makes of a record. */
  function EventEnvelope(instrumentationKey: string, context: map<string, string>, record: LogRecord): Envelope {
    NewEnvelope(instrumentationKey, context, record).(
      name := EventName,
      data := Data(EventData(record.formatted, Merge(map[], record.customDimensions)), "EventData"))
  }

  /** An event envelope is named after the formatted record and carries only the custom dimensions. */
  lemma EventEnvelopeShape(instrumentationKey: string, context: map<string, string>, record: LogRecord)
    ensures var e := EventEnvelope(instrumentationKey, context, record);
      && e.iKey == instrumentationKey && e.time == record.created
      && e.tags == Tags(context, record)
      && e.name == EventName
      && e.data == Data(e.data.baseData, "EventData")
      && e.data.baseData.EventData?
      && e.data.baseData.name == record.formatted
      && (record.customDimensions.None? ==> e.data.baseData.properties == map[])
      && (record.customDimensions.Some? ==> e.data.baseData.properties == record.customDimensions.value)
  {
  }

  /** `AzureEventHandler.log_record_to_envelope`. */
  method EventRecordToEnvelope(instrumentationKey: string, context: map<string, string>, record: LogRecord)
    returns (envelope: Envelope)
    ensures envelope == EventEnvelope(instrumentationKey, context, record)
  {
    envelope := CreateEnvelope(instrumentationKey, context, record);
    var properties: map<string, Value> := map[];
    if record.customDimensions.Some? {
      properties := properties + record.customDimensions.value;
    }
    envelope := envelope.(name := EventName);
    var data := EventData(record.formatted, properties);
    envelope := envelope.(data := Data(data, "EventData"));
  }
}
