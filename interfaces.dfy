/** The earlier revision's six-level enum and response record (Interfaces.php). */
module EarlyInterfaces {
  import opened Php

  datatype LogLevel = TRACE | DEBUG | INFO | WARN | ERROR | FATAL
  {
    function Value(): int {
      match this
      case TRACE => 10
      case DEBUG => 20
      case INFO => 30
      case WARN => 40
      case ERROR => 50
      case FATAL => 60
    }

    function Ordinal(): nat {
      match this
      case TRACE => 0
      case DEBUG => 1
      case INFO => 2
      case WARN => 3
      case ERROR => 4
      case FATAL => 5
    }

    function ToString(): string {
      match this
      case TRACE => "trace"
      case DEBUG => "debug"
      case INFO => "info"
      case ERROR => "error"
      case WARN => "warn"
      case FATAL => "fatal"
    }
  }

  lemma ValueMonotone(a: LogLevel, b: LogLevel)
    ensures a.Ordinal() < b.Ordinal() <==> a.Value() < b.Value()
    ensures TRACE.Value() == 10 && FATAL.Value() == 60
  {
  }

  lemma ToStringInjective(a: LogLevel, b: LogLevel)
    ensures a.ToString() == b.ToString() ==> a == b
  {
  }

  lemma ToStringNames()
    ensures WARN.ToString() == "warn" && FATAL.ToString() == "fatal"
  {
  }

  /** `ResponseInfo` keeps only its three promoted properties. */
  datatype ResponseInfo = ResponseInfo(data: Array<Value>, responseCode: Option<int>, headers: Array<Value>)

  function NewResponseInfo(data: Array<Value>, responseCode: Option<int>, headers: Array<Value>,
                           isRedirect: bool, redirectMethod: Value): (r: ResponseInfo)
    ensures r.data == data && r.responseCode == responseCode && r.headers == headers
  {
    ResponseInfo(data, responseCode, headers)
  }
}
