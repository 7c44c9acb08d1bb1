/**
 * The Provider: three first-match searches over the positional arguments of
 * the observed call, one per collaborator (logger, Slack notifier, metric
 * sink). Both revisions of the package carry the same Provider, line for line,
 * so this module models both.
 */
module Provider {
  import opened Wrappers
  import opened PyValues

  /** Where a collaborator came from: an argument supplied it, or a default was built. */
  datatype Located = FromArgs(obj: Value) | Default

  /**
   * What one argument supplies as a logger: the argument itself when it is a
   * `logging.Logger`, otherwise its `.logger` attribute when that is one.
   */
  function LoggerOf(arg: Value): (r: Option<Value>)
    ensures r.Some? ==> IsInstance(r.value, LoggerCap)
    ensures IsInstance(arg, LoggerCap) ==> r == Some(arg)
    ensures !IsInstance(arg, LoggerCap) ==>
              var l := GetAttr(arg, "logger");
              (r.Some? <==> l.Some? && IsInstance(l.value, LoggerCap)) && (r.Some? ==> r == l)
  {
    if IsInstance(arg, LoggerCap) then Some(arg)
    else match GetAttr(arg, "logger")
      case Some(l) => if IsInstance(l, LoggerCap) then Some(l) else None
      case None => None
  }

  /** What one argument supplies as a notifier: itself if a `Slack`, else its `.slack` if a `Slack`. */
  function SlackOf(arg: Value): (r: Option<Value>)
    ensures r.Some? ==> IsInstance(r.value, SlackCap)
    ensures IsInstance(arg, SlackCap) ==> r == Some(arg)
    ensures !IsInstance(arg, SlackCap) ==>
              var sl := GetAttr(arg, "slack");
              (r.Some? <==> sl.Some? && IsInstance(sl.value, SlackCap)) && (r.Some? ==> r == sl)
  {
    if IsInstance(arg, SlackCap) then Some(arg)
    else match GetAttr(arg, "slack")
      case Some(s) => if IsInstance(s, SlackCap) then Some(s) else None
      case None => None
  }

  /**
   * What one argument supplies as a metric sink: itself if an `IMetric` or a
   * `DogStatsd`, else its `.metric` if an `IMetric`, else its `.statsd` if a
   * `DogStatsd`.
   */
  function MetricOf(arg: Value): (r: Option<Value>)
    ensures r.Some? ==> IsInstance(r.value, IMetricCap) || IsInstance(r.value, DogStatsdCap)
    ensures IsInstance(arg, IMetricCap) || IsInstance(arg, DogStatsdCap) ==> r == Some(arg)
    ensures !IsInstance(arg, IMetricCap) && !IsInstance(arg, DogStatsdCap) ==>
              var m := GetAttr(arg, "metric");
              var sd := GetAttr(arg, "statsd");
              if m.Some? && IsInstance(m.value, IMetricCap) then r == m
              else (r.Some? <==> sd.Some? && IsInstance(sd.value, DogStatsdCap)) && (r.Some? ==> r == sd)
  {
    if IsInstance(arg, IMetricCap) || IsInstance(arg, DogStatsdCap) then Some(arg)
    else
      var viaMetric := GetAttr(arg, "metric");
      if viaMetric.Some? && IsInstance(viaMetric.value, IMetricCap) then viaMetric
      else
        var viaStatsd := GetAttr(arg, "statsd");
        if viaStatsd.Some? && IsInstance(viaStatsd.value, DogStatsdCap) then viaStatsd
        else None
  }

  /** `i` is the first argument that supplies something through `probe`. */
  ghost predicate FirstSupplier(args: seq<Value>, probe: Value -> Option<Value>, i: int) {
    && 0 <= i < |args|
    && probe(args[i]).Some?
    && forall j :: 0 <= j < i ==> probe(args[j]).None?
  }

  /** The first thing any argument supplies through `probe`, scanning left to right. */
  function FirstSupplied(args: seq<Value>, probe: Value -> Option<Value>): (r: Option<Value>)
    ensures r.Some? <==> exists i :: 0 <= i < |args| && probe(args[i]).Some?
    ensures r.Some? ==> exists i :: FirstSupplier(args, probe, i) && probe(args[i]) == r
    decreases |args|
  {
    if args == [] then None
    else if probe(args[0]).Some? then
      assert FirstSupplier(args, probe, 0);
      probe(args[0])
    else
      var r := FirstSupplied(args[1..], probe);
      assert forall i :: 0 <= i < |args[1..]| ==> args[1..][i] == args[i + 1];
      assert r.Some? ==> exists i :: FirstSupplier(args, probe, i) && probe(args[i]) == r by {
        if r.Some? {
          var i :| FirstSupplier(args[1..], probe, i) && probe(args[1..][i]) == r;
          assert FirstSupplier(args, probe, i + 1);
        }
      }
      assert (exists i :: 0 <= i < |args| && probe(args[i]).Some?) ==> r.Some? by {
        if exists i :: 0 <= i < |args| && probe(args[i]).Some? {
          var i :| 0 <= i < |args| && probe(args[i]).Some?;
          assert i > 0 && probe(args[1..][i - 1]).Some?;
        }
      }
      r
  }

  /** The search loop the three lookups share: scan the arguments, stop at the first supplier. */
  method FindFirst(args: seq<Value>, probe: Value -> Option<Value>) returns (found: Option<Value>)
    ensures found == FirstSupplied(args, probe)
  {
    var i := 0;
    while i < |args|
      invariant 0 <= i <= |args|
      invariant FirstSupplied(args, probe) == FirstSupplied(args[i..], probe)
    {
      var supplied := probe(args[i]);
      if supplied.Some? {
        return supplied;
      }
      assert args[i..][1..] == args[i + 1..];
      i := i + 1;
    }
    return None;
  }

  /** `Provider.get_logger`: the first logger the arguments supply, else a default named "Observe". */
  method GetLogger(args: seq<Value>) returns (r: Located)
    ensures r.FromArgs? <==> exists i :: 0 <= i < |args| && LoggerOf(args[i]).Some?
    ensures r.FromArgs? ==> exists i :: FirstSupplier(args, LoggerOf, i) && LoggerOf(args[i]) == Some(r.obj)
    ensures r.FromArgs? ==> IsInstance(r.obj, LoggerCap)
  {
    var found := FindFirst(args, LoggerOf);
    r := if found.Some? then FromArgs(found.value) else Default;
  }

  /**
   * `Provider.get_slack`: the first notifier the arguments supply, else a
   * default built from the environment; `None` when building the default
   * fails because no webhook is configured.
   */
  method GetSlack(args: seq<Value>, webhookConfigured: bool) returns (r: Option<Located>)
    ensures r.None? <==> (forall i :: 0 <= i < |args| ==> SlackOf(args[i]).None?) && !webhookConfigured
    ensures r == Some(Default) <==> (forall i :: 0 <= i < |args| ==> SlackOf(args[i]).None?) && webhookConfigured
    ensures r.Some? && r.value.FromArgs? ==>
      exists i :: FirstSupplier(args, SlackOf, i) && SlackOf(args[i]) == Some(r.value.obj)
    ensures r.Some? && r.value.FromArgs? ==> IsInstance(r.value.obj, SlackCap)
  {
    var found := FindFirst(args, SlackOf);
    if found.Some? {
      return Some(FromArgs(found.value));
    }
    if webhookConfigured {
      return Some(Default);
    }
    return None;
  }

  /** `Provider.get_metric`: the first metric sink the arguments supply, else a default `Metric()`. */
  method GetMetric(args: seq<Value>) returns (r: Located)
    ensures r.FromArgs? <==> exists i :: 0 <= i < |args| && MetricOf(args[i]).Some?
    ensures r.FromArgs? ==> exists i :: FirstSupplier(args, MetricOf, i) && MetricOf(args[i]) == Some(r.obj)
    ensures r.FromArgs? ==> IsInstance(r.obj, IMetricCap) || IsInstance(r.obj, DogStatsdCap)
  {
    var found := FindFirst(args, MetricOf);
    r := if found.Some? then FromArgs(found.value) else Default;
  }
}
