/**
 * The collaborators the wrapper reports to, reduced to what the wrapper can
 * observe of them. Each is an object that records what it was sent. The metric
 * sink may be configured to raise on `timing` or `increment`, as the bare
 * `IMetric` interface does.
 */
module Sinks {
  import opened Wrappers
  import opened PyValues

  /** One successful call on the metric sink. */
  datatype MetricEvent =
    | Timed(name: string, valueMs: int, tags: seq<string>)
    | Counted(name: string, value: int, tags: seq<string>)

  /** What the bare `IMetric.timing` raises. */
  const TimingNotImplemented: Exc :=
    Exc(ExcType("TimingNotTImplementedError", 1), "IMetric: the method is not implemented.")

  /** What the bare `IMetric.increment` raises. */
  const IncrementNotImplemented: Exc :=
    Exc(ExcType("IncrementNotImplementedError", 2), "IMetric: the method is not implemented.")

  /**
   * A metric sink (`IMetric` or `DogStatsd`). `events` is everything it has
   * accepted so far; a configured fault makes every call of that operation
   * raise it and record nothing.
   */
  class MetricSink {
    var events: seq<MetricEvent>
    const timingFault: Option<Exc>
    const incrementFault: Option<Exc>

    /** A working client such as `DogStatsd` or the default `Metric()`. */
    constructor Working()
      ensures events == [] && timingFault.None? && incrementFault.None?
    {
      events := [];
      timingFault := None;
      incrementFault := None;
    }

    /** The bare `IMetric` interface, whose two operations raise "not implemented". */
    constructor Unimplemented()
      ensures events == []
      ensures timingFault == Some(TimingNotImplemented) && incrementFault == Some(IncrementNotImplemented)
    {
      events := [];
      timingFault := Some(TimingNotImplemented);
      incrementFault := Some(IncrementNotImplemented);
    }

    /** `timing(name, value, tags)`; returns the exception it raised, if any. */
    method Timing(name: string, valueMs: int, tags: seq<string>) returns (raised: Option<Exc>)
      modifies this
      ensures raised == timingFault
      ensures events == if raised.None? then old(events) + [Timed(name, valueMs, tags)] else old(events)
    {
      raised := timingFault;
      if raised.None? {
        events := events + [Timed(name, valueMs, tags)];
      }
    }

    /** `increment(name, value, tags)`; returns the exception it raised, if any. */
    method Increment(name: string, value: int, tags: seq<string>) returns (raised: Option<Exc>)
      modifies this
      ensures raised == incrementFault
      ensures events == if raised.None? then old(events) + [Counted(name, value, tags)] else old(events)
    {
      raised := incrementFault;
      if raised.None? {
        events := events + [Counted(name, value, tags)];
      }
    }
  }

  datatype Level = Warning | Error

  /**
   * One log line of the wrapper: its level, the call's identity, the
   * exception, the callable's name and the verdict word ("accepted",
   * "declined" or "raised"). The stack trace text is not modelled.
   */
  datatype LogRecord = LogRecord(level: Level, identity: string, exc: Exc, funcName: string, verdict: string)

  /** The located `logging.Logger`. */
  class Logger {
    var records: seq<LogRecord>

    constructor ()
      ensures records == []
    {
      records := [];
    }

    method Log(r: LogRecord)
      modifies this
      ensures records == old(records) + [r]
    {
      records := records + [r];
    }
  }

  /** One `Slack.error(header=…, title=…, text=…)` notification; the stack trace in the text is not modelled. */
  datatype Notice = Notice(header: string, title: string, text: string)

  /** The located Slack notifier. */
  class Notifier {
    var notices: seq<Notice>

    constructor ()
      ensures notices == []
    {
      notices := [];
    }

    method Error(header: string, title: string, text: string)
      modifies this
      ensures notices == old(notices) + [Notice(header, title, text)]
    {
      notices := notices + [Notice(header, title, text)];
    }
  }
}
