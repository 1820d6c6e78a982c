/** The framework's nine log levels (src/LogLevel.php) and their names. */
module LogLevels {

  datatype LogLevel = TRACE | DEBUG | INFO | NOTICE | WARNING | ERROR | CRITICAL | ALERT | EMERGENCY
  {
    /** The enum's backing integer. */
    function Value(): int {
      match this
      case TRACE => 10
      case DEBUG => 20
      case INFO => 30
      case NOTICE => 40
      case WARNING => 50
      case ERROR => 60
      case CRITICAL => 70
      case ALERT => 80
      case EMERGENCY => 90
    }

    /** Position in the declaration. */
    function Ordinal(): nat {
      match this
      case TRACE => 0
      case DEBUG => 1
      case INFO => 2
      case NOTICE => 3
      case WARNING => 4
      case ERROR => 5
      case CRITICAL => 6
      case ALERT => 7
      case EMERGENCY => 8
    }

    function ToString(): string {
      match this
      case TRACE => "trace"
      case DEBUG => "debug"
      case INFO => "info"
      case NOTICE => "notice"
      case WARNING => "warning"
      case ERROR => "error"
      case CRITICAL => "critical"
      case ALERT => "alert"
      case EMERGENCY => "emergency"
    }

    /** The PSR-3 level name; PSR-3 has no trace level, so TRACE is reported as debug. */
    function ToPSR(): string {
      match this
      case TRACE => PsrDebug
      case DEBUG => PsrDebug
      case INFO => PsrInfo
      case NOTICE => PsrNotice
      case WARNING => PsrWarning
      case ERROR => PsrError
      case CRITICAL => PsrCritical
      case ALERT => PsrAlert
      case EMERGENCY => PsrEmergency
    }
  }

  /** The constants of PSR-3's `LogLevel` class. */
  const PsrEmergency: string := "emergency"
  const PsrAlert: string := "alert"
  const PsrCritical: string := "critical"
  const PsrError: string := "error"
  const PsrWarning: string := "warning"
  const PsrNotice: string := "notice"
  const PsrInfo: string := "info"
  const PsrDebug: string := "debug"

  const Names: set<string> :=
    {"trace", "debug", "info", "notice", "warning", "error", "critical", "alert", "emergency"}

  /** `LogLevel::fromString`: an unknown name falls back to DEBUG. */
  function FromString(s: string): LogLevel {
    match s
    case "trace" => TRACE
    case "debug" => DEBUG
    case "info" => INFO
    case "notice" => NOTICE
    case "warning" => WARNING
    case "error" => ERROR
    case "critical" => CRITICAL
    case "alert" => ALERT
    case "emergency" => EMERGENCY
    case _ => DEBUG
  }

  lemma FromStringToString(l: LogLevel)
    ensures FromString(l.ToString()) == l
  {
  }

  lemma ToStringInjective(a: LogLevel, b: LogLevel)
    ensures a.ToString() == b.ToString() ==> a == b
  {
    FromStringToString(a);
    FromStringToString(b);
  }

  lemma ToStringIsName(l: LogLevel)
    ensures l.ToString() in Names
  {
  }

  lemma FromStringUnknown(s: string)
    ensures s !in Names ==> FromString(s) == DEBUG
  {
  }

  /** The backing values follow the declaration order strictly, from 10 to 90. */
  lemma ValueMonotone(a: LogLevel, b: LogLevel)
    ensures a.Ordinal() < b.Ordinal() <==> a.Value() < b.Value()
    ensures TRACE.Value() <= a.Value() <= EMERGENCY.Value()
  {
  }

  lemma ToPSRLevels(l: LogLevel)
    ensures l.ToPSR() == if l == TRACE then PsrDebug else l.ToString()
  {
  }
}
