/**
 * The LOGGER of include/robotlog/robotlog.h: a FIFO queue of records filled by
 * `addlog`, an optional format pattern replaced by `setFormatString`, and a
 * worker whose every iteration renders at most ten records from the head of
 * the queue and writes them out.
 *
 * The worker's effect is specified by the pure state machine LoggerState /
 * Step; the class Logger keeps the same three pieces of state as fields and
 * its methods are proved to follow that machine.
 */
module Logger {
  import opened Wrappers
  import opened Decimal
  import opened Colors
  import opened LogMessages
  import opened Template

  /** The pattern used while no pattern has been set: `<CBLEVEL> <FILE>:<LINE> - <MESSAGE>`. */
  const DefaultPattern: string := CBLevelTag + " " + FileTag + ":" + LineTag + " - " + MessageTag

  /** The most records one worker iteration writes. */
  const MaxLogWrites: nat := 10

  /** How many records one worker iteration takes from a queue of `n`. */
  function BatchSize(n: nat): (r: nat)
    ensures r <= n && r <= MaxLogWrites
    ensures r == n || r == MaxLogWrites
  {
    if MaxLogWrites >= n then n else MaxLogWrites
  }

  /** The pattern the worker renders with. */
  function ActivePattern(logFormat: Option<string>): string {
    logFormat.GetOr(DefaultPattern)
  }

  /** The worker's rendering of a record: format with its default colours. */
  function Render(m: LogMessage, pattern: string): string {
    Format(m, pattern, FormatPalette)
  }

  /** How a record is turned into a line, given the active pattern. */
  type Renderer = (LogMessage, string) -> string

  /** The lines written for `ms`, one per record, in queue order. */
  function RenderAll(ms: seq<LogMessage>, pattern: string, render: Renderer): seq<string> {
    if ms == [] then [] else [render(ms[0], pattern)] + RenderAll(ms[1..], pattern, render)
  }

  /** One line per record, each the rendering of the record at the same position. */
  lemma {:induction false} RenderAllElements(ms: seq<LogMessage>, pattern: string, render: Renderer)
    ensures |RenderAll(ms, pattern, render)| == |ms|
    ensures forall i :: 0 <= i < |ms| ==> RenderAll(ms, pattern, render)[i] == render(ms[i], pattern)
  {
    if ms != [] {
      RenderAllElements(ms[1..], pattern, render);
    }
  }

  lemma {:induction false} RenderAllAppend(a: seq<LogMessage>, b: seq<LogMessage>, pattern: string, render: Renderer)
    ensures RenderAll(a + b, pattern, render) == RenderAll(a, pattern, render) + RenderAll(b, pattern, render)
  {
    if a == [] {
      assert a + b == b;
    } else {
      assert (a + b)[1..] == a[1..] + b;
      RenderAllAppend(a[1..], b, pattern, render);
    }
  }

  // ---------------------------------------------------------------------------
  // Specification: the logger as a state machine. The rendering is a
  // parameter; the worker uses Render.

  /** The queue, the pattern and everything written so far. */
  datatype LoggerState = LoggerState(queue: seq<LogMessage>, logFormat: Option<string>, output: seq<string>)

  /** One iteration of the worker. */
  function Step(s: LoggerState, render: Renderer): LoggerState {
    var k := BatchSize(|s.queue|);
    s.(queue := s.queue[k..], output := s.output + RenderAll(s.queue[..k], ActivePattern(s.logFormat), render))
  }

  /** `n` iterations of the worker. */
  function Steps(s: LoggerState, n: nat, render: Renderer): LoggerState
    decreases n
  {
    if n == 0 then s else Steps(Step(s, render), n - 1, render)
  }

  /**
   * One iteration takes min(10, |queue|) records from the head, writes their
   * renderings in queue order after what was written before, leaves the rest
   * of the queue as it was and keeps the pattern.
   */
  lemma StepIsFifo(s: LoggerState, render: Renderer)
    ensures var r, k := Step(s, render), BatchSize(|s.queue|);
      s.queue == s.queue[..k] + r.queue
      && |r.output| == |s.output| + k && r.output[..|s.output|] == s.output
      && (forall i :: 0 <= i < k ==> r.output[|s.output| + i] == render(s.queue[i], ActivePattern(s.logFormat)))
      && r.logFormat == s.logFormat
  {
    var r, k := Step(s, render), BatchSize(|s.queue|);
    var lines := RenderAll(s.queue[..k], ActivePattern(s.logFormat), render);
    RenderAllElements(s.queue[..k], ActivePattern(s.logFormat), render);
    assert s.queue == s.queue[..k] + s.queue[k..];
    forall i | 0 <= i < k
      ensures r.output[|s.output| + i] == render(s.queue[i], ActivePattern(s.logFormat))
    {
      assert r.output[|s.output| + i] == lines[i];
      assert s.queue[..k][i] == s.queue[i];
    }
  }

  /** How many records n iterations take from a queue of `len`. */
  function Drained(len: nat, n: nat): nat {
    if MaxLogWrites * n <= len then MaxLogWrites * n else len
  }

  /** After n iterations the first min(10 n, |queue|) records are gone and the pattern is kept. */
  lemma {:induction false} StepsQueue(s: LoggerState, n: nat, render: Renderer)
    decreases n
    ensures Steps(s, n, render).queue == s.queue[Drained(|s.queue|, n)..]
    ensures Steps(s, n, render).logFormat == s.logFormat
  {
    if n > 0 {
      var t := Step(s, render);
      StepsQueue(t, n - 1, render);
      DrainedStep(|s.queue|, n);
      assert t.queue == s.queue[BatchSize(|s.queue|)..];
      assert t.queue[Drained(|t.queue|, n - 1)..] == s.queue[Drained(|s.queue|, n)..];
    }
  }

  /** The first of n iterations takes one batch and the remaining n - 1 the rest. */
  lemma DrainedStep(len: nat, n: nat)
    requires n > 0
    ensures BatchSize(len) <= len
    ensures Drained(len, n) == BatchSize(len) + Drained(len - BatchSize(len), n - 1)
  {
    assert MaxLogWrites * n == MaxLogWrites * (n - 1) + MaxLogWrites;
  }

  /** A prefix of j + k' records is the first j followed by the next k'. */
  lemma PrefixSplit<T>(q: seq<T>, j: nat, k': nat)
    requires j + k' <= |q|
    ensures q[..j + k'] == q[..j] + q[j..][..k']
  {
    assert q[..j + k'] == q[..j] + q[j..j + k'];
  }

  /**
   * After n iterations the first min(10 n, |queue|) records have been written
   * after what was written before, each once and in queue order.
   */
  lemma {:induction false} StepsOutput(s: LoggerState, n: nat, render: Renderer)
    decreases n
    ensures Steps(s, n, render).output
         == s.output + RenderAll(s.queue[..Drained(|s.queue|, n)], ActivePattern(s.logFormat), render)
  {
    if n > 0 {
      var t, r := Step(s, render), Steps(s, n, render);
      var j, pattern := BatchSize(|s.queue|), ActivePattern(s.logFormat);
      StepsOutput(t, n - 1, render);
      var k, k' := Drained(|s.queue|, n), Drained(|t.queue|, n - 1);
      var done, now := RenderAll(s.queue[..j], pattern, render), RenderAll(t.queue[..k'], pattern, render);
      assert r.output == s.output + done + now;
      assert s.queue[..k] == s.queue[..j] + t.queue[..k'] by {
        assert t.queue == s.queue[j..];
        DrainedStep(|s.queue|, n);
        PrefixSplit(s.queue, j, k');
      }
      RenderAllAppend(s.queue[..j], t.queue[..k'], pattern, render);
      assert s.output + done + now == s.output + (done + now);
    } else {
      assert s.queue[..0] == [];
    }
  }

  /** The queue is empty after n iterations exactly when 10 n covers it. */
  lemma EmptyAfter(s: LoggerState, n: nat, render: Renderer)
    ensures Steps(s, n, render).queue == [] <==> |s.queue| <= MaxLogWrites * n
  {
    StepsQueue(s, n, render);
  }

  /** A queue of fifteen records empties in exactly two iterations, all written in order. */
  lemma FifteenTakesTwo(s: LoggerState, render: Renderer)
    requires |s.queue| == 15
    ensures Steps(s, 1, render).queue != [] && Steps(s, 2, render).queue == []
    ensures Steps(s, 2, render).output == s.output + RenderAll(s.queue, ActivePattern(s.logFormat), render)
  {
    EmptyAfter(s, 1, render);
    EmptyAfter(s, 2, render);
    StepsOutput(s, 2, render);
    assert s.queue[..15] == s.queue;
  }

  // ---------------------------------------------------------------------------
  // The default pattern.

  /**
   * With the default pattern a record is written as its coloured bracketed
   * level, a space, the file, ':', the line, " - " and the message, provided
   * the file name holds no '<' that a later rule could pick up.
   */
  lemma DefaultRendering(m: LogMessage)
    requires m.level != Data && '<' !in m.file
    ensures Render(m, DefaultPattern)
         == LevelFull(m.level, FormatPalette) + " " + m.file + ":" + LineText(m) + " - " + m.message
  {
    var p := FormatPalette;
    FormatPaletteNoAngle();
    FieldValuesNoAngle(3, m, p);
    FieldValuesNoAngle(5, m, p);
    TagConstants();
    var t0 := [Tag(FieldName(3))];
    SingleField(3, m, p);
    var t1 := t0 + [Lit(" ")];
    SnocLit(t0, " ", m, p);
    var t2 := t1 + [Tag(FieldName(4))];
    SnocField(t1, 4, m, p);
    var t3 := t2 + [Lit(":")];
    SnocLit(t2, ":", m, p);
    var t4 := t3 + [Tag(FieldName(5))];
    SnocField(t3, 5, m, p);
    var t5 := t4 + [Lit(" - ")];
    SnocLit(t4, " - ", m, p);
    var t6 := t5 + [Tag(FieldName(6))];
    SnocField(t5, 6, m, p);
    FormatMatchesExpand(t6, m, p);
  }

  /** The decimal text of 42. */
  lemma FortyTwo()
    ensures IntToString(42) == "42"
  {
    assert NatToString(42) == NatToString(4) + [DigitChar(2)];
  }

  /** An error record from sensor.c line 42 with the default pattern. */
  lemma DefaultRenderingExample(m: LogMessage)
    requires m == LogMessage(Err, "disk full", "sensor.c", 42)
    ensures Render(m, DefaultPattern) == Red + "[ERR]" + Reset + " " + "sensor.c" + ":" + "42" + " - " + "disk full"
  {
    DefaultRendering(m);
    FortyTwo();
  }

  // ---------------------------------------------------------------------------
  // The logger object.

  /** The record the constructor queues, stamped with the system time in milliseconds. */
  function InitRecord(millis: nat): LogMessage {
    LogMessage(Debug, "Initalized VexLog @ " + IntToString(millis) + "ms", "robotlog.h", 309)
  }

  class Logger {
    /** Records waiting to be written, oldest first. */
    var logs: seq<LogMessage>
    /** The pattern set by setFormatString. */
    var logFormat: Option<string>
    /** Every line the worker has written, in order. */
    var output: seq<string>
    /** How the worker turns a record into a line; set to Render by the constructor. */
    const render: Renderer

    function State(): LoggerState
      reads this
    {
      LoggerState(logs, logFormat, output)
    }

    /** Starts with the default pattern and one debug record announcing the start time. */
    constructor(millis: nat)
      requires millis < 0x1_0000_0000
      ensures logs == [InitRecord(millis)] && logFormat == Some(DefaultPattern) && output == []
      ensures render == Render
    {
      render := Render;
      logFormat := Some(DefaultPattern);
      output := [];
      logs := [];
      new;
      AddLog(Debug, "Initalized VexLog @ " + IntToString(millis) + "ms", "robotlog.h", 309);
    }

    /** addlog: queues one record at the tail. */
    method AddLog(level: Level, message: string, file: string, line: int32)
      modifies this
      ensures logs == old(logs) + [LogMessage(level, message, file, line)]
      ensures logFormat == old(logFormat) && output == old(output)
    {
      var lmsg := LogMessage(level, message, file, line);
      logs := logs + [lmsg];
    }

    /**
     * setFormatString: `lockTaken` is whether the pattern lock was obtained
     * within its timeout; only then is the pattern replaced.
     */
    method SetFormatString(formatString: string, lockTaken: bool) returns (ok: bool)
      modifies this
      ensures ok == lockTaken
      ensures logFormat == if lockTaken then Some(formatString) else old(logFormat)
      ensures logs == old(logs) && output == old(output)
    {
      if lockTaken {
        logFormat := Some(formatString);
        return true;
      }
      return false;
    }

    /** One iteration of workerTask. */
    method WorkerStep()
      modifies this
      ensures State() == Step(old(State()), render)
    {
      var availableLogs := |logs|;
      var loopIndices := if MaxLogWrites >= availableLogs then availableLogs else MaxLogWrites;
      ghost var lines := RenderAll(logs[..loopIndices], ActivePattern(logFormat), render);
      RenderAllElements(logs[..loopIndices], ActivePattern(logFormat), render);
      for i := 0 to loopIndices
        invariant logs == old(logs)[i..]
        invariant output == old(output) + lines[..i]
        invariant logFormat == old(logFormat)
      {
        var msg := logs[0];
        var logMsg := render(msg, logFormat.GetOr(DefaultPattern));
        assert logMsg == lines[i] by {
          assert msg == old(logs)[..loopIndices][i];
        }
        output := output + [logMsg];
        logs := logs[1..];
        assert lines[..i + 1] == lines[..i] + [lines[i]];
      }
      assert lines[..loopIndices] == lines;
    }
  }
}
