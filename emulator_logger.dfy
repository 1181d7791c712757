/**
 * The emulator logger: each message type has a verbosity level, a message
 * whose level is below the configured verbosity is suppressed (it goes to
 * the debug log instead), and the others go to the sink their type names.
 */
module EmulatorLogger {
  datatype LogType = DEBUG | INFO | BULLET | SUCCESS | USER | WARN

  /** The configured verbosity: `EmulatorLogger.verbosity`, DEBUG unless set. */
  datatype Verbosity = VDebug | VInfo | VQuiet

  const DefaultVerbosity: Verbosity := VDebug

  function Level(v: Verbosity): nat
  {
    match v
    case VDebug => 0
    case VInfo => 1
    case VQuiet => 2
  }

  /** `TYPE_VERBOSITY`. */
  function TypeVerbosity(t: LogType): nat
  {
    match t
    case DEBUG => 0
    case INFO => 1
    case BULLET => 1
    case SUCCESS => 1
    case USER => 2
    case WARN => 2
  }

  function TypeName(t: LogType): string
  {
    match t
    case DEBUG => "DEBUG"
    case INFO => "INFO"
    case BULLET => "BULLET"
    case SUCCESS => "SUCCESS"
    case USER => "USER"
    case WARN => "WARN"
  }

  /** `shouldSupress(type)`. */
  predicate ShouldSuppress(v: Verbosity, t: LogType)
  {
    Level(v) > TypeVerbosity(t)
  }

  /** Where a message goes. */
  datatype Sink =
    | DebugLog
    | InfoLog
    | Bullet
    | Warning
    | Success
    | LabeledBullet(prefix: string)
    | LabeledSuccess(prefix: string)
    | LabeledWarning(prefix: string)

  datatype Emission = Emit(sink: Sink, text: string) | Nothing

  /**
   * The sink an unsuppressed message of each type goes to: `logger.debug`,
   * `logger.info` (INFO and USER alike), `logBullet`, `logWarning` and
   * `logSuccess`.
   */
  function TypeSink(t: LogType): Sink
  {
    match t
    case DEBUG => DebugLog
    case INFO => InfoLog
    case USER => InfoLog
    case BULLET => Bullet
    case WARN => Warning
    case SUCCESS => Success
  }

  /** `log(type, text)`. */
  function Log(v: Verbosity, t: LogType, text: string): (e: Emission)
    ensures ShouldSuppress(v, t) ==> e == Emit(DebugLog, TypeName(t) + ": " + text)
    ensures !ShouldSuppress(v, t) ==> e.Emit? && e.text == text
    ensures !ShouldSuppress(v, t) ==> e.sink == TypeSink(t)
  {
    if ShouldSuppress(v, t) then Emit(DebugLog, TypeName(t) + ": " + text)
    else
      match t
      case DEBUG => Emit(DebugLog, text)
      case INFO => Emit(InfoLog, text)
      case USER => Emit(InfoLog, text)
      case BULLET => Emit(Bullet, text)
      case WARN => Emit(Warning, text)
      case SUCCESS => Emit(Success, text)
  }

  /** `logLabeled(type, tag, text)`: only bullets, successes and warnings have a labelled form. */
  function LogLabeled(v: Verbosity, t: LogType, tag: string, text: string): (e: Emission)
    ensures ShouldSuppress(v, t) ==> e == Emit(DebugLog, "[" + tag + "] " + text)
    ensures !ShouldSuppress(v, t) ==> (e.Nothing? <==> t != BULLET && t != SUCCESS && t != WARN)
    ensures e.Emit? && !ShouldSuppress(v, t) ==>
      e.text == text && (e.sink.LabeledBullet? || e.sink.LabeledSuccess? || e.sink.LabeledWarning?) && e.sink.prefix == tag
    ensures !ShouldSuppress(v, t) && t == BULLET ==> e == Emit(LabeledBullet(tag), text)
    ensures !ShouldSuppress(v, t) && t == SUCCESS ==> e == Emit(LabeledSuccess(tag), text)
    ensures !ShouldSuppress(v, t) && t == WARN ==> e == Emit(LabeledWarning(tag), text)
  {
    if ShouldSuppress(v, t) then Emit(DebugLog, "[" + tag + "] " + text)
    else
      match t
      case BULLET => Emit(LabeledBullet(tag), text)
      case SUCCESS => Emit(LabeledSuccess(tag), text)
      case WARN => Emit(LabeledWarning(tag), text)
      case _ => Nothing
  }

  /** At the default verbosity nothing is suppressed. */
  lemma DefaultShowsAll(t: LogType)
    ensures !ShouldSuppress(DefaultVerbosity, t)
  {
  }

  /** At QUIET only user messages and warnings are shown. */
  lemma QuietShowsUserAndWarn(t: LogType)
    ensures !ShouldSuppress(VQuiet, t) <==> t == USER || t == WARN
  {
  }

  /** Raising the verbosity never shows a type that was suppressed. */
  lemma SuppressionMonotone(v1: Verbosity, v2: Verbosity, t: LogType)
    requires Level(v1) <= Level(v2)
    ensures ShouldSuppress(v1, t) ==> ShouldSuppress(v2, t)
  {
  }

  /** A suppressed message always goes to the debug log, labelled or not. */
  lemma SuppressedGoesToDebug(v: Verbosity, t: LogType, tag: string, text: string)
    requires ShouldSuppress(v, t)
    ensures Log(v, t, text).sink == DebugLog && LogLabeled(v, t, tag, text).sink == DebugLog
  {
  }
}
