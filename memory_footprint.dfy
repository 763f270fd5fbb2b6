/** The object-creation steps of the demonstration program and the identity
    checks it prints; the memory measurements around them are not modelled. */
module MemoryFootprint {
  import opened Output
  import opened RegLogging
  import opened SingletonLogging

  /** `n` copies of the argument "app.log" the demonstration passes; the
      ensures only unfolds the comprehension for the loop invariants below. */
  function AppLogCalls(n: nat): (calls: seq<string>)
    ensures |calls| == n && forall i :: 0 <= i < n ==> calls[i] == "app.log"
  {
    seq(n, _ => "app.log")
  }

  /** Three ordinary loggers for one file, one message through each, and the
      check `log1 == log2`. `clock(k)` is the time the k-th one reads. */
  method RegularTrio(out: Console, clock: nat -> string)
    returns (log1: RegLogger, log2: RegLogger, log3: RegLogger, same: bool)
    modifies out
    ensures fresh(log1) && fresh(log2) && fresh(log3)
    ensures log1 != log2 && log2 != log3 && log1 != log3
    ensures log1.logFile == log2.logFile == log3.logFile == "app.log"
    ensures log1.timestamp == clock(0) && log2.timestamp == clock(1) && log3.timestamp == clock(2)
    ensures out.lines == old(out.lines) + [LogLine("app.log", "Order placed"),
                                           LogLine("app.log", "Order shipped"),
                                           LogLine("app.log", "Order delivered")]
    ensures !same
  {
    log1 := new RegLogger("app.log", clock(0));
    log2 := new RegLogger("app.log", clock(1));
    log3 := new RegLogger("app.log", clock(2));

    log1.Log("Order placed", out);
    log2.Log("Order shipped", out);
    log3.Log("Order delivered", out);

    same := log1 == log2;
  }

  /** Three calls of the accessor, one message through each result, and the
      check `slog1 == slog2`. */
  method SingletonTrio(slot: LoggerSlot, out: Console)
    returns (slog1: SingletonLogger, slog2: SingletonLogger, slog3: SingletonLogger, same: bool)
    requires slot.Valid()
    modifies slot, out
    ensures slot.Valid()
    ensures slog1 == slog2 == slog3 == slot.loggerInstance
    ensures slot.calls == old(slot.calls) + AppLogCalls(3)
    ensures slot.results == old(slot.results) + [slog1, slog2, slog3]
    ensures old(slot.loggerInstance) != null ==>
              slog1 == old(slot.loggerInstance) && slot.constructions == old(slot.constructions)
    ensures old(slot.loggerInstance) == null ==>
              fresh(slog1) && slog1.logFile == "app.log" && slot.constructions == 1
    ensures out.lines == old(out.lines)
                         + (if old(slot.loggerInstance) == null then [CreatedLine("app.log")] else [])
                         + [LogLine(slog1.logFile, "Order placed"),
                            LogLine(slog1.logFile, "Order shipped"),
                            LogLine(slog1.logFile, "Order delivered")]
    ensures same
  {
    slog1 := slot.GetLoggerInstance("app.log", out);
    slog2 := slot.GetLoggerInstance("app.log", out);
    slog3 := slot.GetLoggerInstance("app.log", out);

    slog1.Log("Order placed", out);
    slog2.Log("Order shipped", out);
    slog3.Log("Order delivered", out);

    same := slog1 == slog2;
  }

  /** 1000 ordinary loggers for one file in an array, and the check
      `regularLoggers[0] == regularLoggers[999]`. */
  method FillRegularLoggers(clock: nat -> string)
    returns (regularLoggers: array<RegLogger?>, firstIsLast: bool)
    ensures fresh(regularLoggers) && regularLoggers.Length == 1000
    ensures forall k :: 0 <= k < 1000 ==>
              regularLoggers[k] != null && fresh(regularLoggers[k])
              && regularLoggers[k].logFile == "app.log" && regularLoggers[k].timestamp == clock(k)
    ensures forall j, k :: 0 <= j < k < 1000 ==> regularLoggers[j] != regularLoggers[k]
    ensures !firstIsLast
  {
    regularLoggers := new RegLogger?[1000];
    for i := 0 to 1000
      invariant forall k :: 0 <= k < i ==>
                  regularLoggers[k] != null && fresh(regularLoggers[k])
                  && regularLoggers[k].logFile == "app.log" && regularLoggers[k].timestamp == clock(k)
      invariant forall j, k :: 0 <= j < k < i ==> regularLoggers[j] != regularLoggers[k]
    {
      regularLoggers[i] := new RegLogger("app.log", clock(i));
    }
    firstIsLast := regularLoggers[0] == regularLoggers[999];
  }

  /** 1000 calls of the accessor stored in an array, and the check
      `singletonLoggers[0] == singletonLoggers[999]`. */
  method FillSingletonLoggers(slot: LoggerSlot, out: Console)
    returns (singletonLoggers: array<SingletonLogger?>, firstIsLast: bool)
    requires slot.Valid()
    modifies slot, out
    ensures fresh(singletonLoggers) && singletonLoggers.Length == 1000
    ensures slot.Valid() && slot.loggerInstance != null
    ensures slot.calls == old(slot.calls) + AppLogCalls(1000)
    ensures |slot.results| == |old(slot.results)| + 1000
    ensures forall k :: 0 <= k < 1000 ==> singletonLoggers[k] == slot.loggerInstance
    ensures old(slot.loggerInstance) != null ==>
              slot.loggerInstance == old(slot.loggerInstance)
              && slot.constructions == old(slot.constructions) && out.lines == old(out.lines)
    ensures old(slot.loggerInstance) == null ==>
              slot.loggerInstance.logFile == "app.log" && slot.constructions == 1
              && out.lines == old(out.lines) + [CreatedLine("app.log")]
    ensures firstIsLast
  {
    singletonLoggers := new SingletonLogger?[1000];
    for i := 0 to 1000
      invariant slot.Valid()
      invariant slot.calls == old(slot.calls) + AppLogCalls(i)
      invariant forall k :: 0 <= k < i ==> singletonLoggers[k] == slot.loggerInstance
      invariant i > 0 ==> slot.loggerInstance != null
      invariant old(slot.loggerInstance) != null ==>
                  slot.loggerInstance == old(slot.loggerInstance)
                  && slot.constructions == old(slot.constructions) && out.lines == old(out.lines)
      invariant old(slot.loggerInstance) == null && i == 0 ==>
                  slot.loggerInstance == null && out.lines == old(out.lines)
      invariant old(slot.loggerInstance) == null && i > 0 ==>
                  slot.loggerInstance.logFile == "app.log" && slot.constructions == 1
                  && out.lines == old(out.lines) + [CreatedLine("app.log")]
    {
      singletonLoggers[i] := slot.GetLoggerInstance("app.log", out);
      assert AppLogCalls(i + 1) == AppLogCalls(i) + ["app.log"];
    }
    firstIsLast := singletonLoggers[0] == singletonLoggers[999];
  }

  /** The creation steps of the whole demonstration, from program start
      (the static slot still null), with the four identity checks it prints. */
  method RunDemo(out: Console, clock: nat -> string)
    returns (slot: LoggerSlot, slog1: SingletonLogger, singletonLoggers: array<SingletonLogger?>,
             log1IsLog2: bool, slog1IsSlog2: bool, regularFirstIsLast: bool, singletonFirstIsLast: bool)
    modifies out
    ensures fresh(slot) && slot.Valid() && slot.loggerInstance == slog1
    ensures slot.calls == AppLogCalls(1003)
    ensures slot.constructions == 1 && slog1.logFile == "app.log"
    ensures singletonLoggers.Length == 1000
    ensures forall k :: 0 <= k < 1000 ==> singletonLoggers[k] == slog1
    ensures !log1IsLog2 && slog1IsSlog2 && !regularFirstIsLast && singletonFirstIsLast
    ensures out.lines == old(out.lines)
                         + [LogLine("app.log", "Order placed"),
                            LogLine("app.log", "Order shipped"),
                            LogLine("app.log", "Order delivered"),
                            CreatedLine("app.log"),
                            LogLine("app.log", "Order placed"),
                            LogLine("app.log", "Order shipped"),
                            LogLine("app.log", "Order delivered")]
  {
    var log1, log2, log3;
    log1, log2, log3, log1IsLog2 := RegularTrio(out, clock);

    slot := new LoggerSlot();
    var slog2, slog3;
    slog1, slog2, slog3, slog1IsSlog2 := SingletonTrio(slot, out);

    var regularLoggers;
    regularLoggers, regularFirstIsLast := FillRegularLoggers((k: nat) => clock(3 + k));

    singletonLoggers, singletonFirstIsLast := FillSingletonLoggers(slot, out);
    assert AppLogCalls(3) + AppLogCalls(1000) == AppLogCalls(1003);
  }
}
