/** The ordinary logger: every `new RegLogger(...)` allocates one more object. */
module RegLogging {
  import opened Output

  class RegLogger {
    var logFile: string
    /** The text of `LocalDateTime.now()` at construction, given by the caller. */
    var timestamp: string

    /** Binds the new logger to `filename`. Dafny's `new` makes the result
        fresh, so it differs from every logger that existed before. */
    constructor (filename: string, now: string)
      ensures logFile == filename && timestamp == now
    {
      logFile := filename;
      timestamp := now;
    }

    /** Prints one line naming the bound file and the message; the logger
        itself is left as it was. */
    method Log(message: string, out: Console)
      modifies out
      ensures out.lines == old(out.lines) + [LogLine(logFile, message)]
      ensures logFile == old(logFile) && timestamp == old(timestamp)
    {
      out.lines := out.lines + [LogLine(logFile, message)];
    }
  }
}
