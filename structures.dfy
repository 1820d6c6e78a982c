/** The earlier revision's shared value types (Structures.php): its log level enum,
    log entries, and the request and response records. */
module EarlyStructures {
  import opened Php

  datatype LogLevel = TRACE | DEBUG | INFO | NOTICE | WARNING | ERROR | CRITICAL | ALERT | EMERGENCY
  {
    function Value(): int {
      match this
      case TRACE => 10
      case DEBUG => 20
      case INFO => 30
      case NOTICE => 40
      case WARNING => 50
      case ERROR => 60
      case CRITICAL => 70
      case ALERT => 80
      case EMERGENCY => 90
    }

    function Ordinal(): nat {
      match this
      case TRACE => 0
      case DEBUG => 1
      case INFO => 2
      case NOTICE => 3
      case WARNING => 4
      case ERROR => 5
      case CRITICAL => 6
      case ALERT => 7
      case EMERGENCY => 8
    }

    function ToString(): string {
      match this
      case TRACE => "trace"
      case DEBUG => "debug"
      case INFO => "info"
      case NOTICE => "notice"
      case WARNING => "warning"
      case ERROR => "error"
      case CRITICAL => "critical"
      case ALERT => "alert"
      case EMERGENCY => "emergency"
    }

    function ToPSR(): string {
      match this
      case TRACE => "debug"
      case DEBUG => "debug"
      case INFO => "info"
      case NOTICE => "notice"
      case WARNING => "warning"
      case ERROR => "error"
      case CRITICAL => "critical"
      case ALERT => "alert"
      case EMERGENCY => "emergency"
    }
  }

  const Names: set<string> :=
    {"trace", "debug", "info", "notice", "warning", "error", "critical", "alert", "emergency"}

  /** `LogLevel::fromString`: the match has no default arm, so any other name is an
      `UnhandledMatchError`, modelled as `None`. */
  function FromString(s: string): (r: Option<LogLevel>)
    ensures r.Some? <==> s in Names
  {
    match s
    case "trace" => Some(TRACE)
    case "debug" => Some(DEBUG)
    case "info" => Some(INFO)
    case "notice" => Some(NOTICE)
    case "warning" => Some(WARNING)
    case "error" => Some(ERROR)
    case "critical" => Some(CRITICAL)
    case "alert" => Some(ALERT)
    case "emergency" => Some(EMERGENCY)
    case _ => None
  }

  lemma FromStringToString(l: LogLevel)
    ensures FromString(l.ToString()) == Some(l)
  {
  }

  lemma ValueMonotone(a: LogLevel, b: LogLevel)
    ensures a.Ordinal() < b.Ordinal() <==> a.Value() < b.Value()
  {
  }

  lemma TraceReportsAsDebug()
    ensures TRACE.ToPSR() == DEBUG.ToPSR()
  {
  }

  /** A log record. */
  datatype LogEntry = LogEntry(level: LogLevel, message: string, context: Array<Value>,
                               component: Option<string>, time: int)

  /** `new LogEntry(...)`: without an explicit time the entry is stamped with `time()`,
      which is the parameter `now` here. */
  function NewLogEntry(level: LogLevel, message: string, context: Array<Value>,
                       component: Option<string>, time: Option<int>, now: int): (e: LogEntry)
    ensures e.level == level && e.message == message && e.context == context && e.component == component
    ensures time.Some? ==> e.time == time.value
    ensures time.None? ==> e.time == now
  {
    LogEntry(level, message, context, component, if time.None? then now else time.value)
  }

  /** `Request`'s constructor promotes none of its parameters, so the object keeps nothing. */
  datatype Request = EmptyRequest

  function NewRequest(request: Array<Value>, uri: string, serverName: string,
                      get: Array<Value>, post: Array<Value>, cookies: Array<Value>): Request
  {
    EmptyRequest
  }

  /** `Response` keeps only its three promoted properties. */
  datatype Response = Response(data: Array<Value>, responseCode: Option<int>, headers: Array<Value>)

  function NewResponse(data: Array<Value>, responseCode: Option<int>, headers: Array<Value>,
                       isRedirect: bool, redirectMethod: Value): (r: Response)
    ensures r.data == data && r.responseCode == responseCode && r.headers == headers
  {
    Response(data, responseCode, headers)
  }

  /** The redirect flag and method given to the constructor leave no trace. */
  lemma ResponseDropsRedirect(data: Array<Value>, code: Option<int>, headers: Array<Value>,
                              isRedirect: bool, redirectMethod: Value)
    ensures NewResponse(data, code, headers, isRedirect, redirectMethod)
            == NewResponse(data, code, headers, false, Null)
  {
  }
}
