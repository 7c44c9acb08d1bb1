/**
 * The `@observe` wrapper of the complete revision: one call of the wrapped
 * callable, classified as finished, accepted, declined or raised, with the
 * metric events, log records and notifications it produces along the way.
 *
 * The wrapped callable is represented by how it ended (`Outcome`). The metric
 * sink, logger and notifier passed in stand for the collaborators the
 * Provider locates for this call. Elapsed time is the truncated number of
 * whole seconds.
 */
module Decorator {
  import opened Wrappers
  import opened PyValues
  import opened Provider
  import opened Resolver
  import opened Sinks

  /** The decorator's arguments. */
  datatype Config = Config(
    metric: string,
    acceptOn: seq<ExcType>,
    declineOn: seq<ExcType>,
    staticTags: seq<string>,
    tagsFrom: Option<seq<(Key, FieldSpec)>>,
    traceIdFrom: TraceSpec)

  /** How the `except` clause classifies a caught exception. */
  datatype Verdict = Accepted | Declined | Unhandled

  /** Exact-class membership, `accept_on` first: unhandled exactly when neither list names the class. */
  function Classify(kind: ExcType, acceptOn: seq<ExcType>, declineOn: seq<ExcType>): (v: Verdict)
    ensures v == Accepted <==> kind in acceptOn
    ensures v == Unhandled <==> kind !in acceptOn + declineOn
  {
    if kind in acceptOn then Accepted
    else if kind in declineOn then Declined
    else Unhandled
  }

  /** The word that names a verdict in metric names and log lines. */
  function VerdictWord(v: Verdict): string {
    match v
    case Accepted => "accepted"
    case Declined => "declined"
    case Unhandled => "raised"
  }

  /** The tag naming an exception's class. */
  function ExceptionTag(ex: Exc): string {
    "exception:" + ex.kind.name
  }

  /** The tags every metric update of the call starts with: the resolved tags, then the static ones. */
  function BaseTags(cfg: Config, kwargs: map<string, Value>): seq<string> {
    TagsFrom(cfg.tagsFrom, kwargs) + cfg.staticTags
  }

  /** The identity that heads the call's log lines and notification. */
  function CallIdentity(cfg: Config, args: seq<Value>, kwargs: map<string, Value>, funcName: Option<string>): string {
    ResolveIdentity(args, funcName, TraceIdFrom(cfg.traceIdFrom, kwargs))
  }

  /** What `func.__name__` raises for a callable that has no name. */
  const MissingName: Exc := Exc(AttributeErrorClass, "object has no attribute '__name__'")

  /** The `TypeError` a resolver call raises when the keyword arguments repeat one of its own parameters. */
  function DuplicateKeyword(resolver: string, param: string): Exc {
    Exc(TypeErrorClass, "Resolver." + resolver + "() got multiple values for keyword argument '" + param + "'")
  }

  /**
   * What the set-up before the `try` raises: the keyword arguments are passed
   * on to `resolve_trace_id` and then `resolve_tags_from`, so one named like
   * their own first parameter makes the call fail.
   */
  function SetupFault(kwargs: map<string, Value>): (r: Option<Exc>)
    ensures r.None? <==> "trace_id_from" !in kwargs && "tags_from" !in kwargs
    ensures r.Some? ==> r.value.kind == TypeErrorClass
  {
    if "trace_id_from" in kwargs then Some(DuplicateKeyword("resolve_trace_id", "trace_id_from"))
    else if "tags_from" in kwargs then Some(DuplicateKeyword("resolve_tags_from", "tags_from"))
    else None
  }

  /**
   * The four categories of the decorator's contract, for collaborators that
   * never fail: the callable's value, `True` when accepted, `False` when
   * declined, else the same exception re-raised.
   */
  function Settle(outcome: Outcome, acceptOn: seq<ExcType>, declineOn: seq<ExcType>): (r: CallResult)
    ensures outcome.Returns? ==> r == Returned(outcome.value)
    ensures outcome.Raises? ==>
              var v := Classify(outcome.exc.kind, acceptOn, declineOn);
              && (r.Raised? <==> v == Unhandled)
              && (r.Raised? ==> r.exc == outcome.exc)
              && (r.Returned? ==> r.value == Bool(v == Accepted))
  {
    match outcome
    case Returns(v) => Returned(v)
    case Raises(ex) =>
      if ex.kind in acceptOn then Returned(Bool(true))
      else if ex.kind in declineOn then Returned(Bool(false))
      else Raised(ex)
  }

  /* ---- The call, phase by phase ---- */

  /**
   * What reaches the `except` clause: the callable's exception, or on the
   * success path the first fault of the sink's `timing` then `increment`.
   */
  function Caught(outcome: Outcome, timingFault: Option<Exc>, incrementFault: Option<Exc>): Option<Exc> {
    match outcome
    case Raises(ex) => Some(ex)
    case Returns(_) => if timingFault.Some? then timingFault else incrementFault
  }

  /** The tags after the `except` clause has appended the exception's class, if it ran. */
  function FinalTags(base: seq<string>, caught: Option<Exc>): seq<string> {
    match caught
    case None => base
    case Some(ex) => base + [ExceptionTag(ex)]
  }

  /** A `timing` call followed by an `increment`, each recorded only if it does not raise; the first fault stops the pair. */
  function PairEvents(timedName: string, countedName: string, ms: int, tags: seq<string>,
                      timingFault: Option<Exc>, incrementFault: Option<Exc>): seq<MetricEvent> {
    if timingFault.Some? then []
    else [Timed(timedName, ms, tags)] + (if incrementFault.Some? then [] else [Counted(countedName, 1, tags)])
  }

  /** What the sink records in the `try` body. */
  function BodyEvents(metric: string, outcome: Outcome, ms: int, base: seq<string>,
                      timingFault: Option<Exc>, incrementFault: Option<Exc>): seq<MetricEvent> {
    if outcome.Returns? then PairEvents(metric + ".time.finished", metric + ".finished", ms, base, timingFault, incrementFault)
    else []
  }

  /**
   * What the sink records in the `except` clause for the caught `ex`; `tags`
   * already names its class. Nothing when the callable has no name, because
   * the log line before the metric calls raises.
   */
  function HandlerEvents(cfg: Config, ex: Exc, funcName: Option<string>, ms: int, tags: seq<string>,
                         timingFault: Option<Exc>, incrementFault: Option<Exc>): seq<MetricEvent> {
    if funcName.None? then []
    else
      var word := VerdictWord(Classify(ex.kind, cfg.acceptOn, cfg.declineOn));
      PairEvents(cfg.metric + ".time." + word, cfg.metric + ".exception." + word, ms, tags, timingFault, incrementFault)
  }

  /** What the sink records in the `except` clause, if it ran. */
  function HandlerEventsOf(cfg: Config, caught: Option<Exc>, funcName: Option<string>, ms: int, tags: seq<string>,
                           timingFault: Option<Exc>, incrementFault: Option<Exc>): seq<MetricEvent> {
    match caught
    case None => []
    case Some(ex) => HandlerEvents(cfg, ex, funcName, ms, tags, timingFault, incrementFault)
  }

  /** What the sink records in the `finally` clause. */
  function StartEvents(metric: string, tags: seq<string>, incrementFault: Option<Exc>): seq<MetricEvent> {
    if incrementFault.Some? then [] else [Counted(metric + ".start", 1, tags)]
  }

  /** Everything the sink records during one call whose tags before any exception are `base`. */
  function ObserveEvents(cfg: Config, base: seq<string>, funcName: Option<string>, outcome: Outcome, ms: int,
                         timingFault: Option<Exc>, incrementFault: Option<Exc>): seq<MetricEvent> {
    var caught := Caught(outcome, timingFault, incrementFault);
    var tags := FinalTags(base, caught);
    BodyEvents(cfg.metric, outcome, ms, base, timingFault, incrementFault)
    + HandlerEventsOf(cfg, caught, funcName, ms, tags, timingFault, incrementFault)
    + StartEvents(cfg.metric, tags, incrementFault)
  }

  /** The log line the `except` clause writes for the caught `ex`; none when the callable has no name to put in it. */
  function HandlerRecords(identity: string, funcName: Option<string>, ex: Exc, acceptOn: seq<ExcType>, declineOn: seq<ExcType>): seq<LogRecord> {
    if funcName.None? then []
    else
      var v := Classify(ex.kind, acceptOn, declineOn);
      [LogRecord(if v == Accepted then Warning else Error, identity, ex, funcName.value, VerdictWord(v))]
  }

  /** The log line the `except` clause writes, if it ran. */
  function ObserveRecords(identity: string, funcName: Option<string>, outcome: Outcome, acceptOn: seq<ExcType>, declineOn: seq<ExcType>,
                          timingFault: Option<Exc>, incrementFault: Option<Exc>): seq<LogRecord> {
    match Caught(outcome, timingFault, incrementFault)
    case None => []
    case Some(ex) => HandlerRecords(identity, funcName, ex, acceptOn, declineOn)
  }

  /** The notification the `except` clause sends for the caught `ex`: only when it reaches the re-raise and a notifier is available. */
  function HandlerNotices(identity: string, ex: Exc, funcName: Option<string>, acceptOn: seq<ExcType>, declineOn: seq<ExcType>,
                          timingFault: Option<Exc>, incrementFault: Option<Exc>, notifierAvailable: bool): seq<Notice> {
    if funcName.Some? && timingFault.None? && incrementFault.None? && notifierAvailable
       && Classify(ex.kind, acceptOn, declineOn) == Unhandled
    then [Notice(identity, ex.kind.name, ex.message + "\n")]
    else []
  }

  /** The notification sent during one call, if any. */
  function ObserveNotices(identity: string, funcName: Option<string>, outcome: Outcome, acceptOn: seq<ExcType>, declineOn: seq<ExcType>,
                          timingFault: Option<Exc>, incrementFault: Option<Exc>, notifierAvailable: bool): seq<Notice> {
    match Caught(outcome, timingFault, incrementFault)
    case None => []
    case Some(ex) => HandlerNotices(identity, ex, funcName, acceptOn, declineOn, timingFault, incrementFault, notifierAvailable)
  }

  /**
   * How the `except` clause ends for the caught `ex`: the `AttributeError` of
   * a nameless callable's log line, else a fault of its own metric calls, else
   * `True`, `False` or the re-raise.
   */
  function HandlerResult(ex: Exc, funcName: Option<string>, acceptOn: seq<ExcType>, declineOn: seq<ExcType>,
                         timingFault: Option<Exc>, incrementFault: Option<Exc>): CallResult {
    if funcName.None? then Raised(MissingName)
    else if timingFault.Some? then Raised(timingFault.value)
    else if incrementFault.Some? then Raised(incrementFault.value)
    else match Classify(ex.kind, acceptOn, declineOn)
      case Accepted => Returned(Bool(true))
      case Declined => Returned(Bool(false))
      case Unhandled => Raised(ex)
  }

  /**
   * How the call ends: the `finally` clause's failing `increment` overrides
   * everything; otherwise the handler decides if it ran, and the callable's
   * value is returned if it did not.
   */
  function ObserveResult(outcome: Outcome, funcName: Option<string>, acceptOn: seq<ExcType>, declineOn: seq<ExcType>,
                         timingFault: Option<Exc>, incrementFault: Option<Exc>): CallResult {
    if incrementFault.Some? then Raised(incrementFault.value)
    else match Caught(outcome, timingFault, incrementFault)
      case None => Returned(outcome.value)
      case Some(ex) => HandlerResult(ex, funcName, acceptOn, declineOn, timingFault, incrementFault)
  }

  /** The `try` body: the callable's outcome, then on success `timing` and `increment`; returns what the `except` clause catches. */
  method TryBody(metric: string, outcome: Outcome, ms: int, tags: seq<string>, sink: MetricSink) returns (caught: Option<Exc>)
    modifies sink
    ensures caught == Caught(outcome, sink.timingFault, sink.incrementFault)
    ensures sink.events == old(sink.events) + BodyEvents(metric, outcome, ms, tags, sink.timingFault, sink.incrementFault)
  {
    match outcome {
      case Returns(_) =>
        caught := sink.Timing(metric + ".time.finished", ms, tags);
        if caught.None? {
          caught := sink.Increment(metric + ".finished", 1, tags);
        }
      case Raises(ex) =>
        caught := Some(ex);
    }
  }

  /** The `except` clause for the caught `ex`; `tags` already names its class. */
  method Handle(cfg: Config, args: seq<Value>, ex: Exc, identity: string, funcName: Option<string>, ms: int, tags: seq<string>,
                webhookConfigured: bool, sink: MetricSink, logger: Logger, notifier: Notifier)
    returns (result: CallResult)
    modifies sink, logger, notifier
    ensures result == HandlerResult(ex, funcName, cfg.acceptOn, cfg.declineOn, sink.timingFault, sink.incrementFault)
    ensures sink.events == old(sink.events) + HandlerEvents(cfg, ex, funcName, ms, tags, sink.timingFault, sink.incrementFault)
    ensures logger.records == old(logger.records) + HandlerRecords(identity, funcName, ex, cfg.acceptOn, cfg.declineOn)
    ensures notifier.notices == old(notifier.notices)
      + HandlerNotices(identity, ex, funcName, cfg.acceptOn, cfg.declineOn, sink.timingFault, sink.incrementFault,
                       FirstSupplied(args, SlackOf).Some? || webhookConfigured)
  {
    var verdict := Classify(ex.kind, cfg.acceptOn, cfg.declineOn);
    var word := VerdictWord(verdict);
    if funcName.None? {
      return Raised(MissingName);
    }
    logger.Log(LogRecord(if verdict == Accepted then Warning else Error, identity, ex, funcName.value, word));
    var raised := sink.Timing(cfg.metric + ".time." + word, ms, tags);
    if raised.None? {
      raised := sink.Increment(cfg.metric + ".exception." + word, 1, tags);
    }
    if raised.Some? {
      return Raised(raised.value);
    }
    if verdict == Accepted {
      return Returned(Bool(true));
    }
    if verdict == Declined {
      return Returned(Bool(false));
    }
    var slack := GetSlack(args, webhookConfigured);
    if slack.Some? {
      notifier.Error(identity, ex.kind.name, ex.message + "\n");
    }
    return Raised(ex);
  }

  /** The `finally` clause: the `start` counter; if it raises, its exception replaces how the call was ending. */
  method Finally(metric: string, tags: seq<string>, ending: CallResult, sink: MetricSink) returns (r: CallResult)
    modifies sink
    ensures r == if sink.incrementFault.Some? then Raised(sink.incrementFault.value) else ending
    ensures sink.events == old(sink.events) + StartEvents(metric, tags, sink.incrementFault)
  {
    r := ending;
    var startFault := sink.Increment(metric + ".start", 1, tags);
    if startFault.Some? {
      r := Raised(startFault.value);
    }
  }

  /** Appending three pieces one after another is appending their concatenation. */
  lemma Regroup<T>(s0: seq<T>, a: seq<T>, b: seq<T>, c: seq<T>)
    ensures s0 + a + b + c == s0 + (a + b + c)
  {
  }

  /**
   * The set-up before the `try`: the trace id, the identity built from it,
   * and the resolved tags followed by the static ones; or the exception a
   * resolver call raises.
   */
  method Prepare(cfg: Config, args: seq<Value>, kwargs: map<string, Value>, funcName: Option<string>)
    returns (fault: Option<Exc>, identity: string, tags: seq<string>)
    ensures fault == SetupFault(kwargs)
    ensures fault.None? ==> identity == CallIdentity(cfg, args, kwargs, funcName) && tags == BaseTags(cfg, kwargs)
  {
    identity, tags := "", [];
    if "trace_id_from" in kwargs {
      return Some(DuplicateKeyword("resolve_trace_id", "trace_id_from")), identity, tags;
    }
    var traceId := ResolveTraceId(cfg.traceIdFrom, kwargs);
    identity := ResolveIdentity(args, funcName, traceId);
    if "tags_from" in kwargs {
      return Some(DuplicateKeyword("resolve_tags_from", "tags_from")), identity, tags;
    }
    var additionalTags := ResolveTagsFrom(cfg.tagsFrom, kwargs);
    tags := additionalTags + cfg.staticTags;
    fault := None;
  }

  /**
   * One call of the wrapper `inner`: resolve the trace id, identity and tags,
   * run the callable (given as `outcome`), report to the sink, and handle a
   * caught exception; the `start` counter is sent last on every path that
   * reaches the `try`. `funcName` is the callable's `__name__`, `None` when
   * it has none. `sink` is the metric sink `Provider.get_metric(*args)`
   * locates: when no argument supplies one, that is the default `Metric()`,
   * which never raises.
   */
  method Observe(cfg: Config, args: seq<Value>, kwargs: map<string, Value>, funcName: Option<string>, outcome: Outcome,
                 elapsed: nat, webhookConfigured: bool, sink: MetricSink, logger: Logger, notifier: Notifier)
    returns (r: CallResult)
    requires FirstSupplied(args, MetricOf).None? ==> sink.timingFault.None? && sink.incrementFault.None?
    modifies sink, logger, notifier
    ensures SetupFault(kwargs).Some? ==>
              && r == Raised(SetupFault(kwargs).value)
              && sink.events == old(sink.events) && logger.records == old(logger.records)
              && notifier.notices == old(notifier.notices)
    ensures SetupFault(kwargs).None? ==>
              r == ObserveResult(outcome, funcName, cfg.acceptOn, cfg.declineOn, sink.timingFault, sink.incrementFault)
    ensures SetupFault(kwargs).None? ==>
              sink.events == old(sink.events)
                + ObserveEvents(cfg, BaseTags(cfg, kwargs), funcName, outcome, elapsed * 1000, sink.timingFault, sink.incrementFault)
    ensures SetupFault(kwargs).None? ==>
              logger.records == old(logger.records)
                + ObserveRecords(CallIdentity(cfg, args, kwargs, funcName), funcName, outcome, cfg.acceptOn, cfg.declineOn,
                                 sink.timingFault, sink.incrementFault)
    ensures SetupFault(kwargs).None? ==>
              notifier.notices == old(notifier.notices)
                + ObserveNotices(CallIdentity(cfg, args, kwargs, funcName), funcName, outcome, cfg.acceptOn, cfg.declineOn,
                                 sink.timingFault, sink.incrementFault, FirstSupplied(args, SlackOf).Some? || webhookConfigured)
  {
    var fault, identity, tags := Prepare(cfg, args, kwargs, funcName);
    if fault.Some? {
      return Raised(fault.value);
    }
    r := TryStatement(cfg, args, identity, tags, funcName, outcome, elapsed * 1000, webhookConfigured, sink, logger, notifier);
  }

  /** The `try` / `except` / `finally` statement of `inner`, once the identity and the tags before any exception are known. */
  method TryStatement(cfg: Config, args: seq<Value>, identity: string, base: seq<string>, funcName: Option<string>,
                      outcome: Outcome, ms: int, webhookConfigured: bool, sink: MetricSink, logger: Logger, notifier: Notifier)
    returns (r: CallResult)
    modifies sink, logger, notifier
    ensures r == ObserveResult(outcome, funcName, cfg.acceptOn, cfg.declineOn, sink.timingFault, sink.incrementFault)
    ensures sink.events == old(sink.events) + ObserveEvents(cfg, base, funcName, outcome, ms, sink.timingFault, sink.incrementFault)
    ensures logger.records == old(logger.records)
      + ObserveRecords(identity, funcName, outcome, cfg.acceptOn, cfg.declineOn, sink.timingFault, sink.incrementFault)
    ensures notifier.notices == old(notifier.notices)
      + ObserveNotices(identity, funcName, outcome, cfg.acceptOn, cfg.declineOn, sink.timingFault, sink.incrementFault,
                       FirstSupplied(args, SlackOf).Some? || webhookConfigured)
  {
    ghost var events0 := sink.events;
    r := match outcome case Returns(v) => Returned(v) case Raises(ex) => Raised(ex);
    var caught := TryBody(cfg.metric, outcome, ms, base, sink);
    ghost var body := BodyEvents(cfg.metric, outcome, ms, base, sink.timingFault, sink.incrementFault);
    var tags := base;
    if caught.Some? {
      tags := tags + [ExceptionTag(caught.value)];
      r := Handle(cfg, args, caught.value, identity, funcName, ms, tags, webhookConfigured, sink, logger, notifier);
    }
    ghost var handler := HandlerEventsOf(cfg, caught, funcName, ms, tags, sink.timingFault, sink.incrementFault);
    assert sink.events == events0 + body + handler;

    r := Finally(cfg.metric, tags, r, sink);
    Regroup(events0, body, handler, StartEvents(cfg.metric, tags, sink.incrementFault));
  }

  /* ---- What one call promises ---- */

  /**
   * How a call that reaches the `try` ends, by precedence: a failing
   * `increment` (the `finally` clause's counter fails last), else the
   * `AttributeError` of a nameless callable once the `except` clause runs,
   * else a failing `timing` (the handler's own timing fails again), else the
   * four categories of the decorator's contract.
   */
  lemma ResultPrecedence(outcome: Outcome, funcName: Option<string>, acceptOn: seq<ExcType>, declineOn: seq<ExcType>,
                         timingFault: Option<Exc>, incrementFault: Option<Exc>)
    ensures ObserveResult(outcome, funcName, acceptOn, declineOn, timingFault, incrementFault)
         == if incrementFault.Some? then Raised(incrementFault.value)
            else if funcName.None? && (outcome.Raises? || timingFault.Some?) then Raised(MissingName)
            else if timingFault.Some? then Raised(timingFault.value)
            else Settle(outcome, acceptOn, declineOn)
  {
  }

  /** A successful call with a working sink: finished timing, finished counter, start counter, all with the base tags. */
  lemma SuccessEvents(cfg: Config, base: seq<string>, funcName: Option<string>, v: Value, ms: int)
    ensures ObserveEvents(cfg, base, funcName, Returns(v), ms, None, None)
              == [Timed(cfg.metric + ".time.finished", ms, base), Counted(cfg.metric + ".finished", 1, base),
                  Counted(cfg.metric + ".start", 1, base)]
  {
  }

  /**
   * A raising call of a named callable with a working sink: the category's
   * timing and counter, then the start counter, all with the base tags plus
   * one tag naming the exception's class; accepted before declined.
   */
  lemma ExceptionEvents(cfg: Config, base: seq<string>, name: string, ex: Exc, ms: int)
    ensures var word := if ex.kind in cfg.acceptOn then "accepted"
                        else if ex.kind in cfg.declineOn then "declined"
                        else "raised";
            var tags := base + ["exception:" + ex.kind.name];
            ObserveEvents(cfg, base, Some(name), Raises(ex), ms, None, None)
              == [Timed(cfg.metric + ".time." + word, ms, tags), Counted(cfg.metric + ".exception." + word, 1, tags),
                  Counted(cfg.metric + ".start", 1, tags)]
  {
  }

  /**
   * A raising call of a callable without `__name__`, with a working sink: the
   * handler's log line raises `AttributeError` before anything is logged,
   * counted or notified, so the start counter is the only event and the
   * caller sees the `AttributeError`, whatever `accept_on` and `decline_on` say.
   */
  lemma NamelessCallableRaises(cfg: Config, base: seq<string>, identity: string, ex: Exc, ms: int, notifierAvailable: bool)
    ensures ObserveEvents(cfg, base, None, Raises(ex), ms, None, None)
              == [Counted(cfg.metric + ".start", 1, base + ["exception:" + ex.kind.name])]
    ensures ObserveRecords(identity, None, Raises(ex), cfg.acceptOn, cfg.declineOn, None, None) == []
    ensures ObserveNotices(identity, None, Raises(ex), cfg.acceptOn, cfg.declineOn, None, None, notifierAvailable) == []
    ensures ObserveResult(Raises(ex), None, cfg.acceptOn, cfg.declineOn, None, None) == Raised(MissingName)
  {
  }

  /**
   * On every path where `increment` works, the last event is the `start`
   * counter carrying the final tags: the base tags, plus one exception tag
   * whenever the `except` clause ran.
   */
  lemma StartCounterLast(cfg: Config, base: seq<string>, funcName: Option<string>, outcome: Outcome, ms: int, timingFault: Option<Exc>)
    ensures var evs := ObserveEvents(cfg, base, funcName, outcome, ms, timingFault, None);
            var caught := Caught(outcome, timingFault, None);
            && |evs| >= 1
            && evs[|evs| - 1] == Counted(cfg.metric + ".start", 1, FinalTags(base, caught))
            && (caught.Some? <==> outcome.Raises? || timingFault.Some?)
  {
  }

  /**
   * Whatever the sink does, every event it records carries the base tags
   * followed by at most the one exception tag, every timing is the whole
   * elapsed seconds times 1000, and every counter adds 1.
   */
  lemma EventsWellFormed(cfg: Config, base: seq<string>, funcName: Option<string>, outcome: Outcome, elapsed: nat,
                         timingFault: Option<Exc>, incrementFault: Option<Exc>)
    ensures var evs := ObserveEvents(cfg, base, funcName, outcome, elapsed * 1000, timingFault, incrementFault);
            forall i | 0 <= i < |evs| ::
              && (evs[i].tags == base || exists name :: evs[i].tags == base + ["exception:" + name])
              && (evs[i].Timed? ==> evs[i].valueMs == elapsed * 1000 && evs[i].valueMs >= 0 && evs[i].valueMs % 1000 == 0)
              && (evs[i].Counted? ==> evs[i].value == 1)
  {
    var caught := Caught(outcome, timingFault, incrementFault);
    if caught.Some? {
      assert FinalTags(base, caught) == base + ["exception:" + caught.value.kind.name];
    }
  }

  /**
   * The logger hears of a call exactly when the `except` clause ran for a
   * named callable: one warning for an accepted exception, one error
   * otherwise, naming the exception, the callable and the verdict. With a
   * working sink the clause runs exactly when the callable raised.
   */
  lemma OneLogLinePerException(identity: string, funcName: Option<string>, outcome: Outcome, acceptOn: seq<ExcType>,
                               declineOn: seq<ExcType>, timingFault: Option<Exc>, incrementFault: Option<Exc>)
    ensures var recs := ObserveRecords(identity, funcName, outcome, acceptOn, declineOn, timingFault, incrementFault);
            && |recs| == (if Caught(outcome, timingFault, incrementFault).Some? && funcName.Some? then 1 else 0)
            && (timingFault.None? && incrementFault.None? && funcName.Some? ==> (recs != [] <==> outcome.Raises?))
            && (outcome.Raises? && funcName.Some? ==>
                  && recs[0].exc == outcome.exc
                  && recs[0].identity == identity
                  && recs[0].funcName == funcName.value
                  && (recs[0].level == Warning <==> outcome.exc.kind in acceptOn)
                  && recs[0].verdict == (if outcome.exc.kind in acceptOn then "accepted"
                                         else if outcome.exc.kind in declineOn then "declined" else "raised"))
  {
  }

  /**
   * A notification goes out exactly when, with a working sink, a named
   * callable's exception is re-raised and a notifier is available; it names
   * the identity and the exception's class.
   */
  lemma NotifiesOnlyOnReraise(identity: string, funcName: Option<string>, outcome: Outcome, acceptOn: seq<ExcType>,
                              declineOn: seq<ExcType>, timingFault: Option<Exc>, incrementFault: Option<Exc>, notifierAvailable: bool)
    ensures var notes := ObserveNotices(identity, funcName, outcome, acceptOn, declineOn, timingFault, incrementFault, notifierAvailable);
            && (notes != [] <==>
                  && funcName.Some? && timingFault.None? && incrementFault.None? && notifierAvailable
                  && outcome.Raises? && Settle(outcome, acceptOn, declineOn) == Raised(outcome.exc))
            && (notes != [] ==> notes == [Notice(identity, outcome.exc.kind.name, outcome.exc.message + "\n")])
  {
  }

  /**
   * A method `process(self, message)` of a class whose instances carry the
   * bare `IMetric` interface as `.metric`, called on such an instance with a
   * `message` keyword: the Provider locates that interface as the sink. Its
   * `timing` raises inside the `try`, the handler's `timing` raises again,
   * and the `finally` clause's `increment` raises last, so the call raises
   * the increment's not-implemented error instead of returning.
   */
  method UnimplementedInterfaceRaises(cfg: Config, message: Value, elapsed: nat) returns (r: CallResult)
    ensures r == Raised(IncrementNotImplemented)
  {
    var bare := Obj("IMetric", {IMetricCap}, map[], "<IMetric object>");
    var self := Obj("A", {}, map["metric" := bare], "<A object>");
    assert MetricOf(self) == Some(bare);
    var sink := new MetricSink.Unimplemented();
    var logger := new Logger();
    var notifier := new Notifier();
    var kwargs := map["message" := message];
    r := Observe(cfg, [self], kwargs, Some("process"), Returns(message), elapsed, false, sink, logger, notifier);
    ResultPrecedence(Returns(message), Some("process"), cfg.acceptOn, cfg.declineOn, sink.timingFault, sink.incrementFault);
  }

  /**
   * A keyword argument named `trace_id_from` makes the call fail before the
   * `try`: the caller sees the resolver's `TypeError`, and no metric, log line
   * or notification is produced, not even the start counter.
   */
  method ClashingKeywordRaises(cfg: Config, payload: Value, elapsed: nat) returns (r: CallResult, events: seq<MetricEvent>)
    ensures r == Raised(DuplicateKeyword("resolve_trace_id", "trace_id_from"))
    ensures events == []
  {
    var sink := new MetricSink.Working();
    var logger := new Logger();
    var notifier := new Notifier();
    var kwargs := map["trace_id_from" := payload];
    r := Observe(cfg, [], kwargs, Some("process"), Returns(payload), elapsed, false, sink, logger, notifier);
    events := sink.events;
  }
}
