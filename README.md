# observe — a Dafny model of the `@observe` decorator

The package wraps a callable so that every call:
- is classified as finished, accepted, declined or raised;
- reports a fixed sequence of metric events to a StatsD-style sink;
- logs handled and unhandled exceptions;
- sends a notification for an exception it re-raises.

Around that wrapper sit two helper classes:
- the **Provider** finds the logger, notifier and metric sink among the call's positional arguments, or falls back to a default;
- the **Resolver** derives tags, a trace id and an identity label from the call's arguments and the decorator's configuration.

The repository holds two revisions, and both are modelled:
- the complete one, `atl_observe/decorator.py` with `atl_observe/lib/utils.py`;
- an older, smaller one, `observe/decorator.py` with `observe/lib/utils.py`.

| file | module | what it holds |
|---|---|---|
| `values.dfy` | `Wrappers`, `PyValues` | Python values, dicts with their insertion order, `str()`, truthiness, `isinstance` against the collaborator classes, exceptions, and how a call ends |
| `collect.dfy` | `Collected` | what a loop that appends each item's contributions builds, with the order, membership and subsequence facts that hold whatever an item contributes |
| `provider.dfy` | `Provider` | the three first-match searches |
| `resolver.dfy` | `Resolver` | the newer revision's `resolve_tags_from`, `resolve_trace_id`, `_get_str_value` and `resolve_identity` |
| `legacy_resolver.dfy` | `LegacyResolver` | the older revision's stricter `resolve_tags_from`, and how it relates to the newer one |
| `sinks.dfy` | `Sinks` | the metric sink, logger and notifier as objects that record what they are sent |
| `decorator.dfy` | `Decorator` | the newer wrapper `inner` with its try / except / finally |
| `legacy_decorator.dfy` | `LegacyDecorator` | the older wrapper `g`, which only classifies |

The Provider of the two revisions is the same, line for line. Compare `observe/lib/utils.py:13-64` with `atl_observe/lib/utils.py:13-64`. `Provider` therefore models both, and its rows below cite the newer file.

Loops in the source are modelled as methods with loops. Each is proved equal to a function:
- `ResolveTagsFrom` to `TagsFrom`;
- `ResolveTraceId` to `TraceIdFrom`;
- `FindFirst` to `FirstSupplied`;
- `LegacyResolveTagsFrom` to `LegacyTagsFrom`.

The lemmas then state the source's promises about those functions.

The wrapper `inner` is the method `Decorator.Observe`:
- It changes the metric sink, logger and notifier objects.
- Its postconditions give the call's result and everything each collaborator has recorded.
- The recorded effects are stated phase by phase: `try` body, `except` clause, `finally` clause.
- The lemmas tie this to the decorator's contract of four categories (`Settle`), and to the metric protocol for each category.

The metric sink may be configured to raise on `timing` or `increment`. This is what the bare `IMetric` interface does, and it lets the model follow a sink failure into the `except` clause.

Where the code does more than its annotations and docstrings say, the model follows the code:
- **Trace id when nothing matches.** `resolve_trace_id` is annotated `-> str` (`atl_observe/lib/utils.py:151`). Without a match it returns whatever the last non-raising lookup assigned. That is `None` when a named keyword payload is a dict without a string under the field (`atl_observe/lib/utils.py:169,175`). The identity then reads `…(None)`.
- **Classes in both lists.** The source states no priority for a class named in both `accept_on` and `decline_on`. The code tests `accept_on` first (`atl_observe/decorator.py:61,72`).
- **Callables without a name.** The log lines of the `except` clause name `func.__name__` (`atl_observe/decorator.py:64,75,84`). For a callable without one, that raises `AttributeError` before the `except` clause logs, counts or notifies anything; the `finally` clause's `start` counter still fires, and the caller sees the `AttributeError`.
- **Keyword arguments named like a resolver parameter.** The call's keyword arguments are passed on to `resolve_trace_id` and `resolve_tags_from` (`atl_observe/decorator.py:38,40`). One named `trace_id_from` or `tags_from` makes that call raise `TypeError` before the `try`, so nothing at all is reported.
- **Membership is exact.** `type(ex) in accept_on` matches the exact class only. With `decline_on=[Exception]`, a `ValueError` is not declined.
- **Non-string names.** The newer `resolve_tags_from` renders non-string lookup keys and field names with `str()`. The older one skips them.

## Model

| member | source | states |
|---|---|---|
| `PyValues.DictGet` | atl_observe/lib/utils.py:73 | `dict.get`: any value other than `None` it returns is stored under the string key; a key stored nowhere gives `None` |
| `PyValues.DictGetFindsFirst` | atl_observe/lib/utils.py:73 | a key that is present is found: the result is the value of the first entry stored under it |
| `Provider.LoggerOf` | atl_observe/lib/utils.py:24-27 | an argument that is a `logging.Logger` supplies itself; any other argument supplies its `.logger` exactly when it has one that is a Logger; whatever is supplied is a Logger |
| `Provider.SlackOf` | atl_observe/lib/utils.py:39-42 | a `Slack` argument supplies itself; any other argument supplies its `.slack` exactly when it has one that is a Slack; whatever is supplied is a Slack |
| `Provider.MetricOf` | atl_observe/lib/utils.py:57-62 | an `IMetric` or `DogStatsd` argument supplies itself; otherwise its `.metric` when that is an `IMetric` (a `DogStatsd` there does not count); otherwise its `.statsd` exactly when that is a `DogStatsd`; whatever is supplied is one of the two |
| `Provider.FirstSupplied` | atl_observe/lib/utils.py:23-29 | finds something exactly when some argument supplies one; what it finds is what the first supplying argument gives, and no earlier argument supplies anything |
| `Provider.FindFirst` | atl_observe/lib/utils.py:23-27 | the left-to-right loop with early return finds exactly `FirstSupplied` |
| `Provider.GetLogger` | atl_observe/lib/utils.py:17-29 | an argument's logger exactly when some argument supplies one, namely the first one's, and it is a Logger; otherwise the default |
| `Provider.GetSlack` | atl_observe/lib/utils.py:32-47 | the first argument's notifier when one supplies it; otherwise the default when a webhook is configured; `None` exactly when neither holds |
| `Provider.GetMetric` | atl_observe/lib/utils.py:50-64 | the first argument's sink when one supplies it, an `IMetric` or `DogStatsd`; otherwise the default `Metric()` |
| `Resolver.GetStrValue` | atl_observe/lib/utils.py:72-76 | a string it returns is stored under `str(key)`; a key stored nowhere gives `None` |
| `Resolver.GetStrValueFindsFirst` | atl_observe/lib/utils.py:72-76 | under a present key, the result is the first entry's value exactly when that value is a string, and `None` otherwise |
| `Resolver.ResolveTagsFrom` | atl_observe/lib/utils.py:104-148 | the nested loops with their `continue` guards append exactly the tags `TagsFrom` describes |
| `Resolver.FalsyTagsFromYieldsNothing` | atl_observe/lib/utils.py:116-119 | `None` or an empty `tags_from` gives no tags, whatever the keyword arguments |
| `Resolver.FieldTagsAppend` | atl_observe/lib/utils.py:135-146 | within one entry, tags follow the order of the field names: the tags of `a + b` are those of `a` followed by those of `b` |
| `Resolver.EntriesTagsAppend` | atl_observe/lib/utils.py:122-146 | tags follow the order of the `tags_from` entries: the tags of `a + b` are those of `a` followed by those of `b` |
| `Resolver.FieldTagsMembership` | atl_observe/lib/utils.py:135-146 | a tag comes from a field list exactly when one of its fields yields exactly that tag |
| `Resolver.EntryTagsMembership` | atl_observe/lib/utils.py:125-146 | a tag comes from entry `i` exactly when the field list is a list, the named payload is a dict, and some field's value there is a non-empty string that makes the tag `field:value` |
| `Resolver.EntriesTagsMembership` | atl_observe/lib/utils.py:122-146 | a tag comes from the entries exactly when it comes from one of them |
| `Resolver.TagsFromMembership` | atl_observe/lib/utils.py:104-148 | the tags of a dict `tags_from` are exactly the `field:value` strings that some entry and field yield, both directions; anything else is skipped without an error |
| `Resolver.ResolveTraceId` | atl_observe/lib/utils.py:151-175 | the loop with early return and swallowed lookups returns exactly `TraceIdFrom` |
| `Resolver.TraceScanFirstHit` | atl_observe/lib/utils.py:165-171 | the first entry whose lookup yields a non-empty string decides, and no later entry is consulted |
| `Resolver.TraceScanHitIff` | atl_observe/lib/utils.py:165-175 | the scan ends with a non-empty string exactly when some entry yields one; it ends with `None` only if it started from `None` or some payload was a dict without a string under the field |
| `Resolver.TraceScanNoHit` | atl_observe/lib/utils.py:165-175 | without a hit, the search ends with what the last non-swallowed lookup assigned, or with its starting value when every lookup was swallowed |
| `Resolver.TraceIdWithoutHit` | atl_observe/lib/utils.py:160-175 | without a hit, `resolve_trace_id` returns the last non-swallowed lookup's value, possibly `None`, or `""` when every lookup was swallowed |
| `Resolver.TraceIdNoneExample` | atl_observe/lib/utils.py:165-175 | `trace_id_from={"message": "eventId"}` with `message={}` gives the trace id `None`, and the identity reads `…(None)` |
| `Resolver.TraceIdNotDict` | atl_observe/lib/utils.py:160-163 | a `trace_id_from` that is not a dict gives the empty string |
| `Resolver.TraceIdFromDict` | atl_observe/lib/utils.py:160-175 | the first hitting entry's value is returned; without a hit the result is `""` or `None`, and `None` only when a dict payload lacked a string under the field |
| `Resolver.ResolveIdentity` | atl_observe/lib/utils.py:79-101 | the four-step fall-through, each step followed by `(trace_id)` with `None` rendered as `None`: `str()` of the first argument's `identity` when it has one; else its class name; without positional arguments the callable's `__name__`; without that, `observe` |
| `Resolver.IdentityIgnoresFuncWithArgs` | atl_observe/lib/utils.py:86-97 | with a positional argument the callable's name never matters, because every object has a class name |
| `Resolver.IdentityExamples` | test/unit/test_resolver.py:247-282 | the fall-through chain: `observe(abcd)`, `process_function()`, `MainProcess()`, `Valheim()` |
| `LegacyResolver.LegacyResolveTagsFrom` | observe/lib/utils.py:70-111 | the older nested loops with their stricter `continue` guards append exactly the tags `LegacyTagsFrom` describes |
| `LegacyResolver.LegacyFalsyTagsFromYieldsNothing` | observe/lib/utils.py:76-78 | a falsy `tags_from` gives no tags |
| `LegacyResolver.LegacyEntryTagsMembership` | observe/lib/utils.py:81-109 | a tag comes from entry `i` exactly when its key is a string, its field list a list, the named payload a non-empty dict, and some string field's value there a non-empty string making the tag `field:value` |
| `LegacyResolver.LegacyTagsFromMembership` | observe/lib/utils.py:70-111 | the older tags are exactly the `field:value` strings some entry and field yield under all five guards, both directions; every other case is skipped |
| `LegacyResolver.FieldTagsAgree` | observe/lib/utils.py:95-109 | on string field names the older field loop emits exactly the newer one's tags |
| `LegacyResolver.EntryTagsAgree` | observe/lib/utils.py:84-92 | one entry with a string key and string field names yields the same tags in both revisions, including when the older revision skips an empty payload |
| `LegacyResolver.EntriesTagsAgree` | observe/lib/utils.py:81-109 | on string lookup keys and string field names the older entry loop emits exactly the newer one's tags |
| `LegacyResolver.RevisionsAgreeOnStringTypedConfig` | observe/lib/utils.py:70-111 | for a string-typed `tags_from` the two revisions produce the same tags |
| `LegacyResolver.FieldTagsRelaxed` | observe/lib/utils.py:95-109 | the older field loop's tags are a subsequence of the newer one's |
| `LegacyResolver.EntryTagsRelaxed` | observe/lib/utils.py:84-92 | one entry's older tags are a subsequence of its newer tags, including when the older revision skips the key or an empty payload |
| `LegacyResolver.EntriesTagsRelaxed` | observe/lib/utils.py:81-109 | the older tags of all entries are a subsequence of the newer ones |
| `LegacyResolver.NewerRevisionKeepsOlderTags` | observe/lib/utils.py:70-111 | every tag the older revision emits, the newer one emits too, in the same order |
| `LegacyResolver.NonStringFieldNameDiffers` | observe/lib/utils.py:97-99 | a non-string field name `None` is skipped by the older revision; the newer one emits `None:x` |
| `Sinks.MetricSink.Working` | atl_observe/lib/metrics.py:43-57 | a `DogStatsd`-backed sink starts empty and never raises |
| `Sinks.MetricSink.Unimplemented` | atl_observe/lib/metrics.py:18-40 | the bare interface raises its not-implemented error from both operations |
| `Sinks.MetricSink.Timing` | atl_observe/lib/metrics.py:22-30 | raises the sink's timing fault if it has one, recording nothing; otherwise records exactly one timing event |
| `Sinks.MetricSink.Increment` | atl_observe/lib/metrics.py:32-40 | raises the sink's increment fault if it has one, recording nothing; otherwise records exactly one counter event |
| `Sinks.Logger.Log` | atl_observe/decorator.py:63-64 | the located logger records one more line |
| `Sinks.Notifier.Error` | atl_observe/decorator.py:92 | the located notifier records one more notification, naming the identity and the exception's class |
| `Decorator.Classify` | atl_observe/decorator.py:61-72 | accepted exactly when `accept_on` names the exact class; unhandled exactly when neither list names it, so `accept_on` wins over `decline_on` |
| `Decorator.Settle` | atl_observe/decorator.py:3-7 | the four categories: a return passes its value; a raise gives `True` when accepted, `False` when declined, and the same exception re-raised exactly when unhandled |
| `Decorator.SetupFault` | atl_observe/decorator.py:38-40 | the set-up raises exactly when a keyword argument is named `trace_id_from` or `tags_from`, and what it raises is a `TypeError` |
| `Decorator.Prepare` | atl_observe/decorator.py:38-41 | the set-up's `TypeError`, or the identity built from the resolved trace id and the resolved tags followed by `static_tags` |
| `Decorator.TryBody` | atl_observe/decorator.py:48-54 | the `try` body: the callable's exception, or on success the finished timing and counter; a sink fault there is what the `except` clause catches |
| `Decorator.Handle` | atl_observe/decorator.py:56-94 | the `except` clause: for a nameless callable only the `AttributeError`; otherwise one log line, the category's timing and counter, then `True`, `False` or the re-raise, with a notification only on the re-raise when a notifier is available |
| `Decorator.Finally` | atl_observe/decorator.py:96-98 | the `finally` clause: the `start` counter is sent with the current tags; if it raises, its exception replaces how the call was ending |
| `Decorator.TryStatement` | atl_observe/decorator.py:48-101 | the `try` / `except` / `finally` statement: the result, every event of the sink, the log line and the notification, as functions of the identity, the base tags, the callable's name and outcome, and the sink's faults |
| `Decorator.Observe` | atl_observe/decorator.py:35-101 | one call, with the sink being the one `get_metric(*args)` locates (the never-failing default when no argument supplies one): with a clashing keyword argument the set-up's `TypeError` and nothing recorded; otherwise the result and everything recorded, as functions of the configuration, the arguments, the callable's name and outcome, and the sink's faults |
| `Decorator.ResultPrecedence` | atl_observe/decorator.py:48-101 | how a call that reaches the `try` ends: a failing `increment` wins; then a nameless callable's `AttributeError` once the `except` clause runs; then a failing `timing`, which no `accept_on` can absorb; otherwise the four categories: the value, `True`, `False`, or the same exception re-raised |
| `Decorator.SuccessEvents` | atl_observe/decorator.py:50-54 | a successful call emits `time.finished`, `finished` and `start`, in that order, all with the base tags |
| `Decorator.ExceptionEvents` | atl_observe/decorator.py:56-98 | a raising call emits the category's `time.…` and `exception.…` events and then `start`, all with the base tags plus exactly one `exception:<class>` tag; accepted before declined |
| `Decorator.NamelessCallableRaises` | atl_observe/decorator.py:56-98 | a raising callable without `__name__`: the start counter with the exception tag is the only event, nothing is logged or notified, and the call raises `AttributeError` |
| `Decorator.StartCounterLast` | atl_observe/decorator.py:96-98 | whenever `increment` works, the last event is the `start` counter with the final tags, on every exit path including the re-raise |
| `Decorator.EventsWellFormed` | atl_observe/decorator.py:40-98 | every event carries the resolved tags and `static_tags` followed by at most one exception tag; every timing is the elapsed whole seconds × 1000, a non-negative multiple of 1000; every counter adds 1 |
| `Decorator.OneLogLinePerException` | atl_observe/decorator.py:60-84 | one log line exactly when the `except` clause runs for a named callable, which with a working sink means the callable raised; a warning exactly when accepted, naming the exception, the callable and the verdict |
| `Decorator.NotifiesOnlyOnReraise` | atl_observe/decorator.py:82-94 | a notification exactly when, for a named callable, a working sink lets the handler reach the re-raise of the callable's own exception and a notifier was located |
| `Decorator.UnimplementedInterfaceRaises` | test/unit/test_observe.py:218-236 | a method called on an instance whose `.metric` is the bare `IMetric`, which the Provider locates as the sink: a successful call ends by raising the increment's not-implemented error |
| `Decorator.ClashingKeywordRaises` | atl_observe/decorator.py:37-40 | a keyword argument named `trace_id_from` makes the call raise the resolver's `TypeError` with no metric event at all |
| `LegacyDecorator.ObserveLegacy` | observe/decorator.py:35-55 | the older wrapper only ever raises the callable's own exception or the `TypeError` of a `None` list; a raising call otherwise yields `True` or `False`, and `True` only when `accept_on` names the class |
| `LegacyDecorator.LegacyAgreesWhenListsGiven` | observe/decorator.py:36-55 | with both lists given, the older wrapper ends every call as the newer contract's four categories say |
| `LegacyDecorator.LegacyReturnsUnchanged` | observe/decorator.py:36-55 | a normal return passes the callable's value through unchanged |
| `LegacyDecorator.LegacyAcceptFirst` | observe/decorator.py:42-47 | a class in `accept_on` yields `True`, even if `decline_on` also lists it or is missing |
| `LegacyDecorator.DefaultAcceptMasksException` | observe/decorator.py:15-43 | with `accept_on` at its `None` default every exception becomes a `TypeError`, and the original is never re-raised |
| `LegacyDecorator.DefaultDeclineMasksException` | observe/decorator.py:16-47 | with `decline_on` at its `None` default, an exception `accept_on` does not list becomes a `TypeError` |
| `LegacyDecorator.DefaultsMaskException` | observe/decorator.py:14-50 | applied with only a metric name, a callable raising `ValueError` makes the wrapper raise `TypeError`, where the contract re-raises the `ValueError` |
| `LegacyDecorator.CorrectedReraisesUnlisted` | observe/decorator.py:39-50 | with the defaults read as empty lists, every exception neither list names is re-raised as the same object |
| `LegacyDecorator.CorrectedAgreesWhenListsGiven` | observe/decorator.py:39-50 | with both lists given, the corrected wrapper is the one as written and follows the contract's four categories |

## Findings

| source | as written | input that shows it | evidently intended | confidence | as-written member | corrected member |
|---|---|---|---|---|---|---|
| observe/decorator.py:15-16,42,46 | `accept_on` and `decline_on` default to `None`, and the handler tests `type(ex) in accept_on` | `@observe(metric="m")` around a callable raising `ValueError` | the `ValueError` is re-raised, as the module's category d says and as the newer revision's `[]` defaults do | high; not executed | `LegacyDecorator.DefaultsMaskException` | `LegacyDecorator.CorrectedReraisesUnlisted` |

## Left out

- Real I/O is not modelled: the Slack HTTP request, the environment variables, the stream handler of the logger, and `logging.Logger` itself. The logger and notifier are objects that record what they are sent. The notifier never fails once located.
- `Provider.get_slack`'s debug line when no webhook is configured is not modelled. Building the default notifier is reduced to whether a webhook is configured, so failing to build it becomes `None`.
- `time.monotonic()` is not modelled. One whole number of elapsed seconds, already truncated by `int()`, stands for every timing of a call. The source reads the clock anew for each timing.
- Log message wording and `traceback.format_exc()` text are not modelled. A log record keeps the identity, the exception, the callable's name and the verdict word. A notification's text is the exception's message followed by a newline, without the traceback.
- Aliasing of the tag list is not modelled. The sink receives the `all_tags` list object itself, and the handler later appends to it. The model records each event's tags as a value at the time of the call. `static_tags` is a value in the model, so it can never be mutated.
- The wrapped callable is given by how it ended. Its arguments reach it unchanged.
- Decorator.Observe: the logger and notifier are objects that record what they are sent; that they are the ones `get_logger(*args)` and `get_slack(*args)` locate is not stated, since the model's loggers and notifiers never fail and differ only in identity. Only whether a notifier is located is tied to the lookup.
- Sinks.MetricSink: a configured fault makes every call of that operation raise, so a sink that fails on some calls and not on others is not modelled. `Decorator.ResultPrecedence` and the other decorator lemmas are stated for sinks whose operations always fail or never fail.
- The message of the `AttributeError` for a nameless callable is a fixed text; Python names the callable's class in it. The `TypeError` of a clashing keyword argument uses the qualified resolver name, as recent Python versions print it.
- The default logger `Logger(name="Observe")` is reduced to the fact that a default is used; its name and handler are not modelled.
- Exceptions outside `Exception`, such as `KeyboardInterrupt`, are not modelled. They bypass the `except` clause.
- Exception chaining (`__context__`) is not modelled.
- Passing `accept_on=None` explicitly to the newer revision is not modelled. The older revision's model covers that case.
- A `tags_from` that is truthy but not a dict would raise at `.items()`. It is not modelled: `tags_from` is `None` or a dict.
- Objects with a custom `.get`, `__bool__`, `__str__` on containers, or `__eq__` are not modelled. An object is truthy and has no `.get`. Dict keys are compared by value, and a dict is assumed to hold each key once.
- `str()` of lists and dicts quotes strings with single quotes and never escapes.
- Python's dynamic class hierarchy is not modelled. `isinstance` is membership of the collaborator class in the object's set of classes. Exception classes are compared by identity, as the source does.
- `functools.wraps`, the decorator syntax and the unused `verbose`, `static_tags`, `tags_from` and `trace_id_from` parameters of the older decorator are not modelled.
- setup.py is not modelled; it only packages the code.
- The older `observe/lib/utils.py` has no `resolve_identity` or `resolve_trace_id`, so only its `resolve_tags_from` is modelled.
- The SLI latency-bucket resolver is not part of this model.
