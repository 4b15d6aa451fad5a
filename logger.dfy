/** `Logger`: a severity threshold and optional tags, writing either to
    the console or to an attached winston logger. Writing is modelled as
    the line a call emits, if any. */
module Logger {
  import opened Wrappers
  import opened Js
  import opened Strings

  datatype Severity = Debug | Log | Warn | Error

  /** `LEVELS`. */
  function Rank(s: Severity): int {
    match s
    case Debug => 0
    case Log => 1
    case Warn => 2
    case Error => 3
  }

  /** A logger: its threshold, its tags and whether `winston` is set. */
  datatype Logger = Logger(level: int, tags: seq<string>, winston: bool)

  /** `new Logger(level, tags)`; `None` is `undefined` or `null`. The
      `winston` property is assigned by the caller afterwards. */
  function Create(level: Option<int>, tags: Option<seq<string>>, winston: bool): (l: Logger)
    ensures level.None? ==> l.level == Rank(Log)
    ensures level.Some? ==> l.level == level.value
    ensures tags.None? ==> l.tags == []
    ensures tags.Some? ==> l.tags == tags.value
  {
    Logger(if level.None? then Rank(Log) else level.value, if tags.None? then [] else tags.value, winston)
  }

  /** Where a line goes: a console stream with its format string, or a
      winston level. */
  datatype Sink =
    | Stderr(format: string)
    | Stdout(format: string)
    | Winston(call: string)

  datatype Line = Line(sink: Sink, message: Value)

  /** The sink `_log` picks for a severity. */
  function SinkOf(l: Logger, s: Severity): Sink {
    match s
    case Error => if l.winston then Winston("error") else Stderr("[Error: %s]")
    case Warn => if l.winston then Winston("warn") else Stderr("[Warning: %s]")
    case Debug => if l.winston then Winston("debug") else Stdout("[Debug: %s]")
    // `console.log(message)` takes no format string
    case Log => if l.winston then Winston("info") else Stdout("")
  }

  /** `_log(message, level)`: nothing for a falsy message; the tags are
      prefixed only when writing to winston. */
  function Write(l: Logger, s: Severity, message: Value): (r: Option<Line>)
    ensures r.Some? <==> Truthy(message)
  {
    if !Truthy(message) then None
    else
      var text := if l.winston && |l.tags| > 0 then Str("[" + Join(l.tags, ",") + "] " + ToStr(message)) else message;
      Some(Line(SinkOf(l, s), text))
  }

  /** `error`, `warn`, `debug` and `log`: `_log` only when the severity's
      rank reaches the threshold. */
  function Emit(l: Logger, s: Severity, message: Value): (r: Option<Line>)
    ensures r.Some? <==> Rank(s) >= l.level && Truthy(message)
  {
    if Rank(s) >= l.level then Write(l, s, message) else None
  }

  /** By default everything from `log` up is written, and `debug` is not. */
  lemma DefaultThreshold(message: Value)
    requires Truthy(message)
    ensures var l := Create(None, None, false);
      Emit(l, Debug, message).None? && Emit(l, Log, message).Some?
      && Emit(l, Warn, message).Some? && Emit(l, Error, message).Some?
  {
  }

  /** What is written at one severity is written at every higher one. */
  lemma GateIsMonotone(l: Logger, s: Severity, t: Severity, message: Value)
    requires Rank(s) <= Rank(t)
    ensures Emit(l, s, message).Some? ==> Emit(l, t, message).Some?
  {
  }

  /** A falsy message is never written, whatever the severity. */
  lemma FalsyNeverWritten(l: Logger, s: Severity)
    ensures Emit(l, s, Undefined).None? && Emit(l, s, Null).None? && Emit(l, s, Str("")).None?
    ensures Emit(l, s, Num(0)).None? && Emit(l, s, Bool(false)).None?
  {
  }

  /** The message is changed only to prefix the tags, and only when
      winston is set and there are tags. */
  lemma PrefixOnlyWithWinstonAndTags(l: Logger, s: Severity, message: Value)
    requires Emit(l, s, message).Some?
    ensures var line := Emit(l, s, message).value;
      (line.message != message ==> l.winston && l.tags != [])
      && (l.winston && l.tags != [] ==> line.message == Str("[" + Join(l.tags, ",") + "] " + ToStr(message)))
  {
    if l.winston && l.tags != [] {
      var line := Emit(l, s, message).value;
      assert line.message == Str("[" + Join(l.tags, ",") + "] " + ToStr(message));
    }
  }

  /** On the console, errors and warnings go to standard error, debug and
      plain lines to standard output. */
  lemma ConsoleRouting(l: Logger, s: Severity, message: Value)
    requires !l.winston && Emit(l, s, message).Some?
    ensures var sink := Emit(l, s, message).value.sink;
      (sink.Stderr? <==> s == Error || s == Warn) && (sink.Stdout? <==> s == Debug || s == Log)
  {
  }

  /** With winston, each severity goes to the winston level of its name,
      except `log`, which goes to `info`. */
  lemma WinstonRouting(l: Logger, s: Severity, message: Value)
    requires l.winston && Emit(l, s, message).Some?
    ensures Emit(l, s, message).value.sink == Winston(match s
      case Error => "error"
      case Warn => "warn"
      case Debug => "debug"
      case Log => "info")
  {
  }
}
