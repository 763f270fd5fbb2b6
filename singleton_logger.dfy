/** The lazily initialised shared logger: a static slot that the first call
    of the accessor fills and every later call only reads. */
module SingletonLogging {
  import opened Output

  /** What the static slot `loggerInstance` holds, seen by value: nothing
      yet, or a logger bound to `logFile`. */
  datatype SlotState = Empty | Holding(logFile: string)

  /** One call of the accessor with argument `filename`: an empty slot is
      filled with a logger bound to `filename`; a filled slot is kept and the
      argument ignored. */
  function Access(s: SlotState, filename: string): SlotState
  {
    if s.Empty? then Holding(filename) else s
  }

  /** The slot after the accessor is called with `calls`, in order. */
  function Run(s: SlotState, calls: seq<string>): SlotState
    decreases |calls|
  {
    if calls == [] then s else Run(Access(s, calls[0]), calls[1..])
  }

  /** For each call, the file of the logger it hands back: one result per call. */
  function Returned(s: SlotState, calls: seq<string>): (r: seq<string>)
    ensures |r| == |calls|
    decreases |calls|
  {
    if calls == [] then []
    else
      var t := Access(s, calls[0]);
      [t.logFile] + Returned(t, calls[1..])
  }

  /** How many of the calls run the constructor. */
  function Constructions(s: SlotState, calls: seq<string>): nat
    decreases |calls|
  {
    if calls == [] then 0
    else (if s.Empty? then 1 else 0) + Constructions(Access(s, calls[0]), calls[1..])
  }

  /** Once filled, the slot never changes, nothing more is constructed and
      every call returns the logger already there, whatever its argument. */
  lemma {:induction false} HoldingIsKept(f: string, calls: seq<string>)
    ensures Run(Holding(f), calls) == Holding(f)
    ensures Constructions(Holding(f), calls) == 0
    ensures forall i :: 0 <= i < |calls| ==> Returned(Holding(f), calls)[i] == f
  {
    if calls != [] {
      HoldingIsKept(f, calls[1..]);
      assert Returned(Holding(f), calls) == [f] + Returned(Holding(f), calls[1..]);
    }
  }

  /** First call wins: from an empty slot, the logger every call returns,
      and the one left in the slot, is bound to the first call's argument. */
  lemma {:induction false} FirstCallWins(calls: seq<string>)
    requires calls != []
    ensures Run(Empty, calls) == Holding(calls[0])
    ensures forall i :: 0 <= i < |calls| ==> Returned(Empty, calls)[i] == calls[0]
  {
    HoldingIsKept(calls[0], calls[1..]);
    assert Returned(Empty, calls) == [calls[0]] + Returned(Holding(calls[0]), calls[1..]);
  }

  /** The constructor runs exactly once from an empty slot with at least one
      call, and never otherwise: at most once over any sequence of calls. */
  lemma {:induction false} ConstructedAtMostOnce(s: SlotState, calls: seq<string>)
    ensures Constructions(s, calls) == if s.Empty? && calls != [] then 1 else 0
  {
    if calls != [] {
      HoldingIsKept(Access(s, calls[0]).logFile, calls[1..]);
    }
  }

  /** Running one more call is one more accessor step on the slot reached so
      far: it constructs exactly when that slot is empty, and it returns the
      logger the step leaves there. */
  lemma {:induction false} RunSnoc(s: SlotState, calls: seq<string>, f: string)
    ensures Run(s, calls + [f]) == Access(Run(s, calls), f)
    ensures Constructions(s, calls + [f])
         == Constructions(s, calls) + (if Run(s, calls).Empty? then 1 else 0)
    ensures Returned(s, calls + [f]) == Returned(s, calls) + [Access(Run(s, calls), f).logFile]
    decreases |calls|
  {
    if calls == [] {
      assert calls + [f] == [f];
      assert [f][1..] == [];
    } else {
      assert (calls + [f])[0] == calls[0];
      assert (calls + [f])[1..] == calls[1..] + [f];
      RunSnoc(Access(s, calls[0]), calls[1..], f);
    }
  }

  class SingletonLogger {
    var logFile: string

    /** Private in the source, so only the accessor below runs it; binds the
        logger to `filename` and prints the construction trace. */
    constructor (filename: string, out: Console)
      modifies out
      ensures logFile == filename
      ensures out.lines == old(out.lines) + [CreatedLine(filename)]
      ensures forall o: object {:trigger allocated(o)} :: allocated(o) ==> old(allocated(o)) || o == this
    {
      logFile := filename;
      new;
      out.lines := out.lines + [CreatedLine(filename)];
    }

    /** Prints one line naming the bound file and the message; the logger
        itself is left as it was. */
    method Log(message: string, out: Console)
      modifies out
      ensures out.lines == old(out.lines) + [LogLine(logFile, message)]
      ensures logFile == old(logFile)
    {
      out.lines := out.lines + [LogLine(logFile, message)];
    }
  }

  /** The static field `loggerInstance` of SingletonLogger, with the ghost
      history of the accessor's arguments, of the references it returned,
      and a count of constructor runs. */
  class LoggerSlot {
    var loggerInstance: SingletonLogger?
    ghost var calls: seq<string>
    ghost var results: seq<SingletonLogger>
    ghost var constructions: nat

    ghost function State(): SlotState
      reads this, loggerInstance
    {
      if loggerInstance == null then Empty else Holding(loggerInstance.logFile)
    }

    /** The slot is what the calls so far make of an empty one, the
        constructor ran as often as those calls demand, and every call so far
        returned the one stored reference, bound as `Returned` says. */
    ghost predicate Valid()
      reads this, loggerInstance
    {
      && State() == Run(Empty, calls)
      && constructions == Constructions(Empty, calls)
      && |results| == |calls|
      && forall i :: 0 <= i < |calls| ==>
           results[i] == loggerInstance && loggerInstance != null
           && loggerInstance.logFile == Returned(Empty, calls)[i]
    }

    /** Class initialisation: the static field starts out null. */
    constructor ()
      ensures Valid() && loggerInstance == null
      ensures calls == [] && results == [] && constructions == 0
    {
      loggerInstance := null;
      calls := [];
      results := [];
      constructions := 0;
    }

    /** `getLoggerInstance(filename)`: builds the logger on the first call
        and returns the stored reference on every call. */
    method GetLoggerInstance(filename: string, out: Console) returns (r: SingletonLogger)
      requires Valid()
      modifies this, out
      ensures Valid()
      ensures r == loggerInstance
      ensures calls == old(calls) + [filename]
      ensures results == old(results) + [r]
      ensures State() == Access(old(State()), filename)
      ensures r.logFile == calls[0]
      ensures constructions <= 1
      ensures old(loggerInstance) != null ==>
                r == old(loggerInstance) && constructions == old(constructions)
                && out.lines == old(out.lines)
      ensures old(loggerInstance) != null ==>
                forall o: object {:trigger allocated(o)} :: allocated(o) ==> old(allocated(o))
      ensures old(loggerInstance) == null ==>
                forall o: object {:trigger allocated(o)} :: allocated(o) ==> old(allocated(o)) || o == r
      ensures old(loggerInstance) == null ==>
                fresh(r) && r.logFile == filename && constructions == old(constructions) + 1
                && out.lines == old(out.lines) + [CreatedLine(filename)]
    {
      RunSnoc(Empty, calls, filename);
      if loggerInstance == null {
        var l := new SingletonLogger(filename, out);
        label Built:
        loggerInstance := l;
        constructions := constructions + 1;
        // the constructor allocated only `l`, and field updates allocate nothing
        forall o: object {:trigger old(allocated(o))} | allocated(o)
          ensures old(allocated(o)) || o == l
        {
          assert old@Built(allocated(o));
        }
      }
      calls := calls + [filename];
      r := loggerInstance;
      results := results + [r];
      FirstCallWins(calls);
      ConstructedAtMostOnce(Empty, calls);
    }
  }
}
