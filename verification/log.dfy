/**
 * The logging switch of lib/log.js: two module-level settings (whether to
 * print at all, and the level) and the decision, per message type, whether a
 * message is printed and on which stream with which tag. Timestamps and
 * colours are not modelled.
 */
module Log {
  import opened JsValues

  // The numeric message types of `LogLevelMap`.
  const Tip := 0
  const SystemError := 1
  const RuleError := 2
  const Warn := 3
  const Debug := 4

  const LogTag := "[EasyProxy Log]"
  const ErrorTag := "[EasyProxy ERROR]"
  const RuleErrorTag := "[EasyProxy RULE_ERROR]"
  const WarnTag := "[EasyProxy WARN]"

  datatype Stream = Stdout | Stderr

  /** What one `printLog` call does: nothing, or one line on a stream. */
  datatype Output = Silent | Line(stream: Stream, tag: string, content: string)

  /** `logLevel > k` as JavaScript evaluates it: a NaN level is above nothing. */
  predicate Above(level: Value, k: int)
  {
    level.Num? && level.n > k
  }

  /** The `switch (type)` of `printLog`; `type` is compared with `===`, so only
      the numbers 0 to 4 select a case and anything else takes the default. */
  function Gate(ifPrint: bool, level: Value, kind: Value, content: string): (out: Output)
    ensures !ifPrint ==> out == Silent
    ensures out.Line? ==> out.content == content
    ensures kind == Num(Tip) ==>
      (out != Silent <==> ifPrint && !Above(level, 0)) && (out.Line? ==> out.stream == Stdout && out.tag == LogTag)
    ensures kind == Num(SystemError) ==>
      (out != Silent <==> ifPrint && !Above(level, 1)) && (out.Line? ==> out.stream == Stderr && out.tag == ErrorTag)
    ensures kind == Num(RuleError) ==>
      (out != Silent <==> ifPrint && !Above(level, 2)) && (out.Line? ==> out.stream == Stderr && out.tag == RuleErrorTag)
    ensures kind == Num(Warn) ==>
      (out != Silent <==> ifPrint && !Above(level, 3)) && (out.Line? ==> out.stream == Stderr && out.tag == WarnTag)
    ensures kind == Num(Debug) ==> out == if ifPrint then Line(Stdout, LogTag, content) else Silent
    ensures !(kind.Num? && 0 <= kind.n <= 4) ==> out == if ifPrint then Line(Stdout, LogTag, content) else Silent
  {
    if !ifPrint then Silent
    else if kind == Num(Tip) then
      (if Above(level, 0) then Silent else Line(Stdout, LogTag, content))
    else if kind == Num(SystemError) then
      (if Above(level, 1) then Silent else Line(Stderr, ErrorTag, content))
    else if kind == Num(RuleError) then
      (if Above(level, 2) then Silent else Line(Stderr, RuleErrorTag, content))
    else if kind == Num(Warn) then
      (if Above(level, 3) then Silent else Line(Stderr, WarnTag, content))
    else Line(Stdout, LogTag, content)
  }

  /** A message that prints at some level also prints at every lower level. */
  lemma LowerLevelPrintsMore(ifPrint: bool, low: int, high: int, kind: Value, content: string)
    requires low <= high
    requires Gate(ifPrint, Num(high), kind, content) != Silent
    ensures Gate(ifPrint, Num(low), kind, content) == Gate(ifPrint, Num(high), kind, content)
  {
  }

  /** The two module-level settings `ifPrint` and `logLevel`. */
  class Logger {
    var ifPrint: bool
    var logLevel: Value

    constructor ()
      ensures ifPrint && logLevel == Num(0)
    {
      ifPrint := true;
      logLevel := Num(0);
    }

    /** `setPrintStatus(status)` stores `!!status`. */
    method SetPrintStatus(status: Value)
      modifies this
      ensures ifPrint == Truthy(status) && logLevel == old(logLevel)
    {
      ifPrint := Truthy(status);
    }

    /** `setLogLevel(level)` stores `parseInt(level, 10)`, NaN included. */
    method SetLogLevel(level: string)
      modifies this
      ensures logLevel == ParseInt(level) && ifPrint == old(ifPrint)
    {
      logLevel := ParseInt(level);
    }

    function PrintLog(content: string, kind: Value): (out: Output)
      reads this
      ensures !ifPrint ==> out == Silent
    {
      Gate(ifPrint, logLevel, kind, content)
    }

    /** `debug` prints whenever printing is on. */
    function DebugLog(content: string): (out: Output)
      reads this
      ensures out == if ifPrint then Line(Stdout, LogTag, content) else Silent
    {
      PrintLog(content, Num(Debug))
    }

    /** `info` is a tip: printed only while the level is at most 0. */
    function Info(content: string): (out: Output)
      reads this
      ensures out == if ifPrint && !Above(logLevel, 0) then Line(Stdout, LogTag, content) else Silent
    {
      PrintLog(content, Num(Tip))
    }

    /** `warn`: printed on stderr while the level is at most 3. */
    function WarnLog(content: string): (out: Output)
      reads this
      ensures out == if ifPrint && !Above(logLevel, 3) then Line(Stderr, WarnTag, content) else Silent
    {
      PrintLog(content, Num(Warn))
    }

    /** `error`: a system error, printed on stderr while the level is at most 1. */
    function ErrorLog(content: string): (out: Output)
      reads this
      ensures out == if ifPrint && !Above(logLevel, 1) then Line(Stderr, ErrorTag, content) else Silent
    {
      PrintLog(content, Num(SystemError))
    }

    /** `ruleError`: printed on stderr while the level is at most 2. */
    function RuleErrorLog(content: string): (out: Output)
      reads this
      ensures out == if ifPrint && !Above(logLevel, 2) then Line(Stderr, RuleErrorTag, content) else Silent
    {
      PrintLog(content, Num(RuleError))
    }
  }

  /** Silencing suppresses every message whatever its type and the level. */
  method SilenceSuppressesAll(logger: Logger, content: string, kind: Value) returns (out: Output)
    modifies logger
    ensures out == Silent
  {
    logger.SetPrintStatus(Bool(false));
    out := logger.PrintLog(content, kind);
  }
}
