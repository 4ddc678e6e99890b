/**
 * The values the log exporter reads and writes: the log record handed to the
 * handler and the wire envelope it builds from it. Only the fields the
 * exporter touches are kept.
 */
module Protocol {
  import opened Wrappers

  /** A value in an envelope's property map. */
  datatype Value = Text(text: string) | Number(number: int)

  /** One entry of `traceback.extract_tb(tb)`: file name, line number, function name, source text. */
  datatype TracebackEntry = TracebackEntry(fileName: string, line: int, functionName: string, text: string)

  /**
   * A truthy `record.exc_info` triple. `typeName` is the exception type's
   * `__name__`, or None when the type is None; `traceback` is what
   * `traceback.extract_tb` gives for the traceback, or None when it is None.
   */
  datatype ExcInfo = ExcInfo(typeName: Option<string>, traceback: Option<seq<TracebackEntry>>)

  /**
   * A `logging.LogRecord` as the handlers see it.
   * `customDimensions` is None when the record has no `custom_dimensions`
   * attribute or it is not a dict; `excInfo` is None when `exc_info` is falsy;
   * `formatted` is what `self.format(record)` returns and `message` the
   * `record.message` attribute that formatting leaves behind; `traceId` and
   * `spanId` are None when the record lacks the attribute.
   */
  datatype LogRecord = LogRecord(
    created: real,
    processName: string,
    moduleName: string,
    pathname: string,
    lineno: int,
    levelname: string,
    levelno: int,
    customDimensions: Option<map<string, Value>>,
    excInfo: Option<ExcInfo>,
    formatted: string,
    message: string,
    traceId: Option<string>,
    spanId: Option<string>)

  /** One entry of an exception's `parsedStack`. */
  datatype StackFrame = StackFrame(level: int, methodName: string, fileName: string, line: int)

  /** The single exception entry of an `ExceptionData` payload. */
  datatype ExceptionDetails = ExceptionDetails(
    id: int,
    outerId: int,
    typeName: string,
    message: string,
    hasFullStack: bool,
    parsedStack: seq<StackFrame>)

  /** The three payloads the handlers produce. */
  datatype BaseData =
    | ExceptionData(exceptions: seq<ExceptionDetails>, severityLevel: int, properties: map<string, Value>)
    | MessageData(message: string, severityLevel: int, properties: map<string, Value>)
    | EventData(name: string, properties: map<string, Value>)

  /** An envelope's `data`: nothing yet, or a payload with its `baseType`. */
  datatype Data = NoData | Data(baseData: BaseData, baseType: string)

  /**
   * A telemetry envelope. `time` carries `record.created` unconverted;
   * `name` is empty until a handler names the envelope.
   */
  datatype Envelope = Envelope(iKey: string, tags: map<string, string>, time: real, name: string, data: Data)
}
