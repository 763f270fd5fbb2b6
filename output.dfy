/** The text both logger classes write to standard output, and the
    output stream itself as an append-only transcript. */
module Output {

  datatype Option<T> = None | Some(value: T)

  /** Standard output, seen only as the sequence of lines printed so far. */
  class Console {
    ghost var lines: seq<string>

    constructor ()
      ensures lines == []
    {
      lines := [];
    }
  }

  const LogPrefix: string := "  Logging to "
  const Separator: string := ": "
  const CreatedPrefix: string := "  [Created SingletonLogger for: "
  const CreatedSuffix: string := "]"

  /** The line `log(message)` prints for a logger bound to `logFile`
      (identical in RegLogger and SingletonLogger). */
  function LogLine(logFile: string, message: string): string
  {
    LogPrefix + logFile + Separator + message
  }

  /** The trace line the SingletonLogger constructor prints. */
  function CreatedLine(filename: string): string
  {
    CreatedPrefix + filename + CreatedSuffix
  }

  /** Reads a printed line back: the message, if `line` is a log line of a
      logger bound to `logFile`. Its ensures is only a helper fact about the
      slice; its meaning is stated by MessageOfLogLine and LogLineOfMessage. */
  function MessageOf(logFile: string, line: string): (m: Option<string>)
    ensures m.Some? ==> |m.value| == |line| - |LogPrefix + logFile + Separator|
  {
    var head := LogPrefix + logFile + Separator;
    if |head| <= |line| && line[..|head|] == head then Some(line[|head|..]) else None
  }

  /** Every message, the empty one included, can be read back from the line
      that logs it. */
  lemma MessageOfLogLine(logFile: string, message: string)
    ensures MessageOf(logFile, LogLine(logFile, message)) == Some(message)
  {
  }

  /** Conversely, a line that reads back as a message is exactly the log
      line of that message. */
  lemma LogLineOfMessage(logFile: string, line: string, message: string)
    requires MessageOf(logFile, line) == Some(message)
    ensures LogLine(logFile, message) == line
  {
  }

  /** A corollary of MessageOfLogLine: for one bound file, the printed line
      is injective in the message. */
  lemma LogLineDeterminesMessage(logFile: string, m1: string, m2: string)
    requires LogLine(logFile, m1) == LogLine(logFile, m2)
    ensures m1 == m2
  {
    MessageOfLogLine(logFile, m1);
    MessageOfLogLine(logFile, m2);
  }
}
