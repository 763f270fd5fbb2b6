# Singleton demonstration, modelled in Dafny

The program compares two ways of obtaining a logger.

- `RegLogger` is an ordinary class. Every `new RegLogger(filename)` allocates one more object, bound to the file name and stamped with the current time.
- `SingletonLogger` has a private constructor and a static slot `loggerInstance`. The static accessor `getLoggerInstance(filename)` fills the slot on its first call and returns the stored reference on every call. Later arguments are ignored, so the first call's file name wins.
- Both loggers print the same line, `"  Logging to " + logFile + ": " + message`.
- The demonstration `MemoryFootprint.main` builds three `RegLogger`s and takes three references to the one `SingletonLogger`. It then fills an array with 1000 new `RegLogger`s and another with 1000 copies of the singleton reference. After each step it prints whether two of the results are the same reference.

The model is split into four modules:

- `Output`: standard output as a ghost transcript `Console.lines`, the two printed line formats, and `MessageOf`, which reads a log line back into its message.
- `RegLogging`: the class `RegLogger`.
- `SingletonLogging`: the class `SingletonLogger` and the class `LoggerSlot`, which holds the static field. Beside them is a value model of the slot. `Access` is one accessor call, `Run` a sequence of calls, `Returned` the file of the logger each call hands back and `Constructions` the number of constructor runs. `LoggerSlot.Valid()` ties the real field to this value model through three ghost records: the accessor's arguments, the references it returned, and a construction counter.
- `MemoryFootprint`: the object-creation steps of `main` as methods, with the identity checks they print returned as booleans.

The printed log line starts with two spaces (src/RegLogger.java:12, src/SingletonLogger.java:19). `getLoggerInstance` has no synchronisation, so the model is sequential.

## Model

| member | source | states |
|---|---|---|
| Output.Console.constructor | src/MemoryFootprint.java:4 | standard output at program start: nothing printed yet |
| Output.LogLine | src/RegLogger.java:12 | the text `log` prints, `"  Logging to " + logFile + ": " + message`; its meaning is stated by MessageOfLogLine and LogLineOfMessage |
| Output.CreatedLine | src/SingletonLogger.java:8 | the trace line `"  [Created SingletonLogger for: " + filename + "]"` the constructor prints; SingletonLogger.constructor and GetLoggerInstance state when it appears |
| Output.MessageOfLogLine | src/RegLogger.java:11-13 | the line `log` prints holds the message verbatim after `"  Logging to " + logFile + ": "`, for every message including the empty one, and the message can be read back |
| Output.LogLineOfMessage | src/SingletonLogger.java:18-20 | conversely, a line that reads back as a message for a file is exactly the line logging that message to that file |
| Output.LogLineDeterminesMessage | src/SingletonLogger.java:19 | for one bound file, equal printed lines mean equal messages |
| RegLogging.RegLogger.constructor | src/RegLogger.java:6-9 | the new logger is bound to the filename argument and carries the timestamp read at construction |
| RegLogging.RegLogger.Log | src/RegLogger.java:11-13 | exactly one line, `LogLine(logFile, message)`, is appended to standard output; `logFile` and `timestamp` are unchanged |
| SingletonLogging.Access | src/SingletonLogger.java:12-15 | one accessor call on the slot's value: an empty slot is filled with the argument, a filled one is kept; its meaning is stated by HoldingIsKept and FirstCallWins |
| SingletonLogging.Run | src/SingletonLogger.java:11-16 | the slot after a sequence of accessor calls; its meaning is stated by FirstCallWins, HoldingIsKept and RunSnoc |
| SingletonLogging.Constructions | src/SingletonLogger.java:12-13 | how many calls of a sequence run the constructor; its value is stated by ConstructedAtMostOnce |
| SingletonLogging.Returned | src/SingletonLogger.java:15 | every accessor call returns exactly one logger; `LoggerSlot.Valid()` ties it to the references the accessor actually returned |
| SingletonLogging.HoldingIsKept | src/SingletonLogger.java:12-15 | once the slot is filled, any further calls with any arguments leave it unchanged, construct nothing and return the stored logger |
| SingletonLogging.FirstCallWins | src/SingletonLogger.java:11-16 | from an empty slot, the slot ends bound to the first call's filename, and every call returns the logger bound to it |
| SingletonLogging.ConstructedAtMostOnce | src/SingletonLogger.java:12-13 | over any sequence of calls the constructor runs once if the slot started empty and there was a call, and never otherwise |
| SingletonLogging.RunSnoc | src/SingletonLogger.java:11-16 | one more call is one more accessor step on the state reached so far. It constructs exactly when that state is empty, and it returns the logger that step leaves in the slot |
| SingletonLogging.SingletonLogger.constructor | src/SingletonLogger.java:6-9 | binds `logFile` to the filename and prints the `[Created SingletonLogger for: …]` line; the new logger is the only object it allocates |
| SingletonLogging.SingletonLogger.Log | src/SingletonLogger.java:18-20 | exactly one line, `LogLine(logFile, message)`, is appended to standard output; `logFile` is unchanged |
| SingletonLogging.LoggerSlot.State | src/SingletonLogger.java:4 | the static field seen by value: empty while null, otherwise the bound file of the stored logger |
| SingletonLogging.LoggerSlot.Valid | src/SingletonLogger.java:4 | the field is what the calls so far make of an empty slot. The constructor ran as often as those calls demand. Every call so far returned the one stored reference, bound to the file `Returned` gives |
| SingletonLogging.LoggerSlot.constructor | src/SingletonLogger.java:4 | the static field starts null, with no call made and nothing constructed |
| SingletonLogging.LoggerSlot.GetLoggerInstance | src/SingletonLogger.java:11-16 | the result is the slot's non-null content. On a filled slot the old reference comes back, no object is allocated, and nothing is printed or counted. On an empty slot one fresh logger, the only new object, is bound to the filename, counted and traced. The result is appended to the history of returned references. The result is always bound to the first call's filename, and at most one construction ever happens |
| MemoryFootprint.RegularTrio | src/MemoryFootprint.java:10-19 | `log1`, `log2` and `log3` are fresh, pairwise distinct and all bound to "app.log". Their three log lines are printed in order and `log1 == log2` is false |
| MemoryFootprint.SingletonTrio | src/MemoryFootprint.java:25-34 | `slog1`, `slog2` and `slog3` are one reference, the slot's content. A construction and its trace line happen only if the slot was empty. `slog1 == slog2` is true |
| MemoryFootprint.FillRegularLoggers | src/MemoryFootprint.java:57-68 | all 1000 slots hold fresh, pairwise distinct loggers bound to "app.log", and `regularLoggers[0] == regularLoggers[999]` is false |
| MemoryFootprint.FillSingletonLoggers | src/MemoryFootprint.java:82-94 | all 1000 slots hold the slot's one reference. On an already filled slot nothing is constructed and nothing printed. `singletonLoggers[0] == singletonLoggers[999]` is true |
| MemoryFootprint.RunDemo | src/MemoryFootprint.java:10-94 | from program start, the four identity checks print false, true, false, true. Exactly one singleton is built, bound to "app.log", and the reference from line 25 fills every slot of the singleton array. The loggers print exactly the seven lines of part 1 |

## Left out

- Heap measurement with `Runtime.totalMemory()` and `freeMemory()`, `System.gc()`, `Thread.sleep` and its empty handler: these are runtime-dependent and have no contract.
- `formatBytes` and the percentage saved: both use floating-point division and `String.format`.
- The program's own narration lines (headings, the "Identity Check" texts). The transcript holds only the lines the loggers print. The identity results are returned as booleans instead.
- `LocalDateTime.now()`: the timestamp is a constructor parameter. The demonstration takes a `clock` function giving the text of each reading.
- Privacy of the `SingletonLogger` constructor: Dafny has no private constructors. The model shows instead that the only construction sits in the accessor's empty-slot branch and that this branch runs at most once.
- The static field becomes a `LoggerSlot` object passed explicitly. `RunDemo` makes it just before the first accessor call, where the JVM would initialise the class (src/MemoryFootprint.java:25).
- `null` arguments: Java would print a null file name or message as `null`. Dafny strings are never null, so that case is not modelled.
- Concurrency: the source is single-threaded and the accessor is unsynchronised. Racing first calls are not modelled.
