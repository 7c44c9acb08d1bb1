/**
 * The resolvers of the complete revision (`atl_observe`): tags from keyword
 * payloads, the trace id, and the identity label of the call site.
 */
module Resolver {
  import opened Wrappers
  import opened PyValues
  import opened Collected

  /*** Tags ***/

  /** How a `tags_from` entry names its fields: a list of field names, or something that is not a list. */
  datatype FieldSpec = FieldList(names: seq<Key>) | NotAList

  /** `_get_str_value`: the entry stored under `str(key)`, when it is a string. */
  function GetStrValue(key: Key, message: seq<(Value, Value)>): (r: Option<string>)
    ensures r.Some? ==> exists k :: 0 <= k < |message| && message[k] == (Str(KeyText(key)), Str(r.value))
    ensures (forall k :: 0 <= k < |message| ==> message[k].0 != Str(KeyText(key))) ==> r.None?
  {
    match DictGet(message, KeyText(key))
    case Str(s) => Some(s)
    case _ => None
  }

  /** Under a present key, `_get_str_value` gives the first entry's value exactly when it is a string. */
  lemma GetStrValueFindsFirst(key: Key, message: seq<(Value, Value)>, k: nat)
    requires k < |message| && message[k].0 == Str(KeyText(key))
    requires forall j :: 0 <= j < k ==> message[j].0 != Str(KeyText(key))
    ensures GetStrValue(key, message).Some? <==> message[k].1.Str?
    ensures GetStrValue(key, message).Some? ==> message[k].1 == Str(GetStrValue(key, message).value)
  {
    DictGetFindsFirst(message, KeyText(key), k);
  }

  /** The tag one field name contributes for one message: none, or `"field:value"` for a non-empty string value. */
  function FieldTag(field: Key, message: seq<(Value, Value)>): seq<string> {
    match GetStrValue(field, message)
    case Some(v) => if v != "" then [KeyText(field) + ":" + v] else []
    case None => []
  }

  /** `FieldTag` for a fixed message, as a function of the field name. */
  function FieldTagIn(message: seq<(Value, Value)>): Key -> seq<string> {
    field => FieldTag(field, message)
  }

  /** The tags a list of field names contributes for one message, in field order. */
  function FieldTags(fields: seq<Key>, message: seq<(Value, Value)>): seq<string> {
    Collect(fields, FieldTagIn(message))
  }

  /** The keyword payload a `tags_from` entry names, when it is a dict. */
  function MessageFor(lookupKey: Key, kwargs: map<string, Value>): Option<seq<(Value, Value)>> {
    match KwargGet(kwargs, KeyText(lookupKey))
    case Dict(entries) => Some(entries)
    case _ => None
  }

  /** The tags one `tags_from` entry contributes: nothing unless its field list is a list and its payload a dict. */
  function EntryTags(entry: (Key, FieldSpec), kwargs: map<string, Value>): seq<string> {
    if !entry.1.FieldList? then []
    else match MessageFor(entry.0, kwargs)
      case Some(message) => FieldTags(entry.1.names, message)
      case None => []
  }

  /** `EntryTags` for fixed keyword arguments, as a function of the entry. */
  function EntryTagsWith(kwargs: map<string, Value>): ((Key, FieldSpec)) -> seq<string> {
    entry => EntryTags(entry, kwargs)
  }

  /** The tags a sequence of `tags_from` entries contributes, in entry order. */
  function EntriesTags(entries: seq<(Key, FieldSpec)>, kwargs: map<string, Value>): seq<string> {
    Collect(entries, EntryTagsWith(kwargs))
  }

  /** `resolve_tags_from` as a value: `tags_from` is `None` or a dict given by its ordered entries. */
  function TagsFrom(tagsFrom: Option<seq<(Key, FieldSpec)>>, kwargs: map<string, Value>): seq<string> {
    match tagsFrom
    case None => []
    case Some(entries) => EntriesTags(entries, kwargs)
  }

  /** `Resolver.resolve_tags_from`: nested loops appending one tag at a time. */
  method ResolveTagsFrom(tagsFrom: Option<seq<(Key, FieldSpec)>>, kwargs: map<string, Value>)
    returns (tags: seq<string>)
    ensures tags == TagsFrom(tagsFrom, kwargs)
  {
    tags := [];
    if tagsFrom.None? || tagsFrom.value == [] {
      return;
    }
    var entries := tagsFrom.value;
    for i := 0 to |entries|
      invariant tags == EntriesTags(entries[..i], kwargs)
    {
      assert entries[..i + 1][..i] == entries[..i];
      var (lookupKey, tagKeys) := entries[i];
      if !tagKeys.FieldList? {
        continue;
      }
      var message := KwargGet(kwargs, KeyText(lookupKey));
      if !message.Dict? {
        continue;
      }
      var fields := tagKeys.names;
      for j := 0 to |fields|
        invariant tags == EntriesTags(entries[..i], kwargs) + FieldTags(fields[..j], message.entries)
      {
        assert fields[..j + 1][..j] == fields[..j];
        var tagValue := GetStrValue(fields[j], message.entries);
        if tagValue.None? || tagValue.value == "" {
          continue;
        }
        tags := tags + [KeyText(fields[j]) + ":" + tagValue.value];
      }
      assert fields[..|fields|] == fields;
    }
    assert entries[..|entries|] == entries;
  }

  /** Whatever the keyword arguments, a falsy `tags_from` (`None` or `{}`) yields no tags. */
  lemma FalsyTagsFromYieldsNothing(tagsFrom: Option<seq<(Key, FieldSpec)>>, kwargs: map<string, Value>)
    requires tagsFrom.None? || tagsFrom.value == []
    ensures TagsFrom(tagsFrom, kwargs) == []
  {
  }

  /** Field order is output order: the tags of `a + b` are those of `a`, then those of `b`. */
  lemma FieldTagsAppend(a: seq<Key>, b: seq<Key>, message: seq<(Value, Value)>)
    ensures FieldTags(a + b, message) == FieldTags(a, message) + FieldTags(b, message)
  {
    CollectAppend(a, b, FieldTagIn(message));
  }

  /** Entry order is output order: the tags of entries `a + b` are those of `a`, then those of `b`. */
  lemma EntriesTagsAppend(a: seq<(Key, FieldSpec)>, b: seq<(Key, FieldSpec)>, kwargs: map<string, Value>)
    ensures EntriesTags(a + b, kwargs) == EntriesTags(a, kwargs) + EntriesTags(b, kwargs)
  {
    CollectAppend(a, b, EntryTagsWith(kwargs));
  }

  /**
   * Entry `i`, field `j` of `tags_from` produces tag `t`: the field list is a
   * list, the named keyword payload is a dict, its first-level value under
   * `str(field)` is a non-empty string, and `t` is `str(field) + ":" + value`.
   */
  ghost predicate Yields(entries: seq<(Key, FieldSpec)>, kwargs: map<string, Value>, i: int, j: int, t: string) {
    && 0 <= i < |entries|
    && entries[i].1.FieldList?
    && 0 <= j < |entries[i].1.names|
    && MessageFor(entries[i].0, kwargs).Some?
    && var field := entries[i].1.names[j];
       var v := GetStrValue(field, MessageFor(entries[i].0, kwargs).value);
       v.Some? && v.value != "" && t == KeyText(field) + ":" + v.value
  }

  /** A tag comes from a list of fields exactly when one field yields it. */
  lemma FieldTagsMembership(fields: seq<Key>, message: seq<(Value, Value)>, t: string)
    ensures t in FieldTags(fields, message) <==> exists j :: 0 <= j < |fields| && t in FieldTag(fields[j], message)
  {
    CollectMembership(fields, FieldTagIn(message), t);
  }

  /** The tags of one entry are exactly those `Yields` names for it. */
  lemma EntryTagsMembership(entries: seq<(Key, FieldSpec)>, kwargs: map<string, Value>, i: int, t: string)
    requires 0 <= i < |entries|
    ensures t in EntryTags(entries[i], kwargs) <==> exists j :: Yields(entries, kwargs, i, j, t)
  {
    var e := entries[i];
    if e.1.FieldList? && MessageFor(e.0, kwargs).Some? {
      var message := MessageFor(e.0, kwargs).value;
      FieldTagsMembership(e.1.names, message, t);
      if t in EntryTags(e, kwargs) {
        var j :| 0 <= j < |e.1.names| && t in FieldTag(e.1.names[j], message);
        assert Yields(entries, kwargs, i, j, t);
      }
      if exists j :: Yields(entries, kwargs, i, j, t) {
        var j :| Yields(entries, kwargs, i, j, t);
        assert t in FieldTag(e.1.names[j], message);
      }
    }
  }

  /** A tag of a sequence of entries is a tag of one of them. */
  lemma EntriesTagsMembership(entries: seq<(Key, FieldSpec)>, kwargs: map<string, Value>, t: string)
    ensures t in EntriesTags(entries, kwargs) <==> exists i :: 0 <= i < |entries| && t in EntryTags(entries[i], kwargs)
  {
    CollectMembership(entries, EntryTagsWith(kwargs), t);
  }

  /**
   * A tag is produced exactly when `Yields` holds for some entry and field:
   * every other case (a non-list field list, a missing or non-dict payload,
   * a missing, non-string or empty value, a nested field spec) is skipped.
   */
  lemma TagsFromMembership(entries: seq<(Key, FieldSpec)>, kwargs: map<string, Value>, t: string)
    ensures t in TagsFrom(Some(entries), kwargs) <==> exists i, j :: Yields(entries, kwargs, i, j, t)
  {
    EntriesTagsMembership(entries, kwargs, t);
    forall i | 0 <= i < |entries|
      ensures t in EntryTags(entries[i], kwargs) <==> exists j :: Yields(entries, kwargs, i, j, t)
    {
      EntryTagsMembership(entries, kwargs, i, t);
    }
  }

  /*** Trace id ***/

  /**
   * What one `trace_id_from` entry does to the running trace id: the lookup
   * raises (the payload is not a dict, so it has no `.get`) and is swallowed,
   * or it assigns the payload's string value under `str(field)`, or `None`.
   */
  datatype Attempt = Swallowed | Assigned(traceId: Option<string>)

  /** The `trace_id_from` argument: a dict of (keyword name, field name) entries, or anything else. */
  datatype TraceSpec = TraceDict(entries: seq<(Key, Key)>) | NotADict

  function TraceAttempt(entry: (Key, Key), kwargs: map<string, Value>): Attempt {
    match KwargGet(kwargs, KeyText(entry.0))
    case Dict(message) => Assigned(GetStrValue(entry.1, message))
    case _ => Swallowed
  }

  /** An attempt that ends the search: it assigned a non-empty string. */
  predicate Hit(a: Attempt) {
    a.Assigned? && a.traceId.Some? && a.traceId.value != ""
  }

  /** The loop of `resolve_trace_id` from a given running value onwards. */
  function TraceScan(entries: seq<(Key, Key)>, kwargs: map<string, Value>, current: Option<string>): Option<string>
    decreases |entries|
  {
    if entries == [] then current
    else
      var a := TraceAttempt(entries[0], kwargs);
      if Hit(a) then a.traceId
      else if a.Assigned? then TraceScan(entries[1..], kwargs, a.traceId)
      else TraceScan(entries[1..], kwargs, current)
  }

  /** `resolve_trace_id` as a value; `None` stands for Python's `None`. */
  function TraceIdFrom(traceIdFrom: TraceSpec, kwargs: map<string, Value>): Option<string> {
    if traceIdFrom.TraceDict? then TraceScan(traceIdFrom.entries, kwargs, Some("")) else Some("")
  }

  /** `Resolver.resolve_trace_id`: a loop with early return whose failed lookups are swallowed. */
  method ResolveTraceId(traceIdFrom: TraceSpec, kwargs: map<string, Value>) returns (traceId: Option<string>)
    ensures traceId == TraceIdFrom(traceIdFrom, kwargs)
  {
    traceId := Some("");
    if !traceIdFrom.TraceDict? {
      return;
    }
    var entries := traceIdFrom.entries;
    var i := 0;
    while i < |entries|
      invariant 0 <= i <= |entries|
      invariant TraceScan(entries, kwargs, Some("")) == TraceScan(entries[i..], kwargs, traceId)
    {
      assert entries[i..][1..] == entries[i + 1..];
      var (key, field) := entries[i];
      var message := KwargGet(kwargs, KeyText(key));
      if message.Dict? {
        traceId := GetStrValue(field, message.entries);
        if traceId.Some? && traceId.value != "" {
          return;
        }
      }
      i := i + 1;
    }
  }

  /** First match wins: the first hitting entry decides, whatever came before it or follows it. */
  lemma {:induction false} TraceScanFirstHit(entries: seq<(Key, Key)>, kwargs: map<string, Value>, current: Option<string>, i: nat)
    requires i < |entries| && Hit(TraceAttempt(entries[i], kwargs))
    requires forall j :: 0 <= j < i ==> !Hit(TraceAttempt(entries[j], kwargs))
    ensures TraceScan(entries, kwargs, current) == TraceAttempt(entries[i], kwargs).traceId
    decreases i
  {
    if i > 0 {
      var a := TraceAttempt(entries[0], kwargs);
      assert !Hit(a);
      var next := if a.Assigned? then a.traceId else current;
      assert forall j :: 0 <= j < i - 1 ==> entries[1..][j] == entries[j + 1];
      TraceScanFirstHit(entries[1..], kwargs, next, i - 1);
    }
  }

  /** The search returns a non-empty string exactly when some entry hits, or it started from one. */
  lemma {:induction false} TraceScanHitIff(entries: seq<(Key, Key)>, kwargs: map<string, Value>, current: Option<string>)
    requires current.None? || current.value == ""
    ensures (var r := TraceScan(entries, kwargs, current); r.Some? && r.value != "")
            <==> exists i :: 0 <= i < |entries| && Hit(TraceAttempt(entries[i], kwargs))
    ensures TraceScan(entries, kwargs, current).None? ==>
            current.None? || exists i :: 0 <= i < |entries| && TraceAttempt(entries[i], kwargs) == Assigned(None)
    decreases |entries|
  {
    if entries != [] {
      var a := TraceAttempt(entries[0], kwargs);
      assert forall i :: 0 < i < |entries| ==> entries[1..][i - 1] == entries[i];
      if !Hit(a) {
        var next := if a.Assigned? then a.traceId else current;
        TraceScanHitIff(entries[1..], kwargs, next);
        if exists i :: 0 < i < |entries| && Hit(TraceAttempt(entries[i], kwargs)) {
          var i :| 0 < i < |entries| && Hit(TraceAttempt(entries[i], kwargs));
          assert Hit(TraceAttempt(entries[1..][i - 1], kwargs));
        }
        if TraceScan(entries, kwargs, current).None? && next.None? && a.Swallowed? {
          assert current.None?;
        }
        if TraceScan(entries[1..], kwargs, next).None? && !next.None? {
          var i :| 0 <= i < |entries[1..]| && TraceAttempt(entries[1..][i], kwargs) == Assigned(None);
          assert TraceAttempt(entries[i + 1], kwargs) == Assigned(None);
        }
      }
    }
  }

  /**
   * Without a hit, the search ends with what the last non-swallowed lookup
   * assigned, or with the value it started from when every lookup was
   * swallowed.
   */
  lemma {:induction false} TraceScanNoHit(entries: seq<(Key, Key)>, kwargs: map<string, Value>, current: Option<string>)
    requires forall i :: 0 <= i < |entries| ==> !Hit(TraceAttempt(entries[i], kwargs))
    ensures forall i ::
              (0 <= i < |entries| && TraceAttempt(entries[i], kwargs).Assigned?
               && forall j :: i < j < |entries| ==> TraceAttempt(entries[j], kwargs).Swallowed?)
              ==> TraceScan(entries, kwargs, current) == TraceAttempt(entries[i], kwargs).traceId
    ensures (forall i :: 0 <= i < |entries| ==> TraceAttempt(entries[i], kwargs).Swallowed?)
            ==> TraceScan(entries, kwargs, current) == current
    decreases |entries|
  {
    if entries != [] {
      var a := TraceAttempt(entries[0], kwargs);
      var next := if a.Assigned? then a.traceId else current;
      assert forall i :: 0 < i < |entries| ==> entries[1..][i - 1] == entries[i];
      TraceScanNoHit(entries[1..], kwargs, next);
      assert TraceScan(entries, kwargs, current) == TraceScan(entries[1..], kwargs, next);
      forall i | 0 < i < |entries| && TraceAttempt(entries[i], kwargs).Assigned?
                 && (forall j :: i < j < |entries| ==> TraceAttempt(entries[j], kwargs).Swallowed?)
        ensures TraceScan(entries, kwargs, current) == TraceAttempt(entries[i], kwargs).traceId
      {
        assert TraceAttempt(entries[1..][i - 1], kwargs).Assigned?;
        assert forall j :: i - 1 < j < |entries[1..]| ==> TraceAttempt(entries[1..][j], kwargs).Swallowed?;
      }
    }
  }

  /**
   * `resolve_trace_id` over a dict without a hit: the value the last
   * non-swallowed lookup assigned (possibly `None`), or `""` when every
   * lookup was swallowed.
   */
  lemma TraceIdWithoutHit(entries: seq<(Key, Key)>, kwargs: map<string, Value>)
    requires forall i :: 0 <= i < |entries| ==> !Hit(TraceAttempt(entries[i], kwargs))
    ensures forall i ::
              (0 <= i < |entries| && TraceAttempt(entries[i], kwargs).Assigned?
               && forall j :: i < j < |entries| ==> TraceAttempt(entries[j], kwargs).Swallowed?)
              ==> TraceIdFrom(TraceDict(entries), kwargs) == TraceAttempt(entries[i], kwargs).traceId
    ensures (forall i :: 0 <= i < |entries| ==> TraceAttempt(entries[i], kwargs).Swallowed?)
            ==> TraceIdFrom(TraceDict(entries), kwargs) == Some("")
  {
    TraceScanNoHit(entries, kwargs, Some(""));
  }

  /**
   * `trace_id_from={"message": "eventId"}` with `message={}`: the lookup
   * assigns `None`, nothing hits, so the trace id is `None` and the identity
   * reads `…(None)`.
   */
  lemma TraceIdNoneExample(funcName: string)
    ensures var traceId := TraceIdFrom(TraceDict([(StrKey("message"), StrKey("eventId"))]), map["message" := Dict([])]);
            && traceId == None
            && ResolveIdentity([], Some(funcName), traceId) == funcName + "(None)"
  {
    var entries := [(StrKey("message"), StrKey("eventId"))];
    var kwargs := map["message" := Dict([])];
    assert TraceAttempt(entries[0], kwargs) == Assigned(None);
    TraceIdWithoutHit(entries, kwargs);
  }

  /** `resolve_trace_id` returns `""` when `trace_id_from` is not a dict. */
  lemma TraceIdNotDict(traceIdFrom: TraceSpec, kwargs: map<string, Value>)
    requires !traceIdFrom.TraceDict?
    ensures TraceIdFrom(traceIdFrom, kwargs) == Some("")
  {
  }

  /**
   * `resolve_trace_id` over a dict: the first hitting entry's value when one
   * hits; otherwise never a non-empty string, and `None` only when some entry
   * named a dict payload that lacks a string under the field.
   */
  lemma TraceIdFromDict(entries: seq<(Key, Key)>, kwargs: map<string, Value>)
    ensures forall i :: 0 <= i < |entries| && Hit(TraceAttempt(entries[i], kwargs))
                        && (forall j :: 0 <= j < i ==> !Hit(TraceAttempt(entries[j], kwargs)))
                        ==> TraceIdFrom(TraceDict(entries), kwargs) == TraceAttempt(entries[i], kwargs).traceId
    ensures (forall i :: 0 <= i < |entries| ==> !Hit(TraceAttempt(entries[i], kwargs)))
            ==> TraceIdFrom(TraceDict(entries), kwargs) in {Some(""), None}
    ensures TraceIdFrom(TraceDict(entries), kwargs).None? ==>
            exists i :: 0 <= i < |entries| && TraceAttempt(entries[i], kwargs) == Assigned(None)
  {
    forall i | 0 <= i < |entries| && Hit(TraceAttempt(entries[i], kwargs))
                && (forall j :: 0 <= j < i ==> !Hit(TraceAttempt(entries[j], kwargs)))
      ensures TraceIdFrom(TraceDict(entries), kwargs) == TraceAttempt(entries[i], kwargs).traceId
    {
      TraceScanFirstHit(entries, kwargs, Some(""), i);
    }
    TraceScanHitIff(entries, kwargs, Some(""));
  }

  /*** Identity ***/

  /** `"%s" % trace_id`: Python's `None` prints as "None". */
  function TraceText(traceId: Option<string>): string {
    if traceId.Some? then traceId.value else "None"
  }

  /**
   * `Resolver.resolve_identity`: a label followed by the trace id in
   * parentheses. The label is the first argument's `identity` attribute, else
   * its class name, else the callable's `__name__`, else "observe".
   * `funcName` is `None` when `func` has no `__name__`.
   */
  function ResolveIdentity(args: seq<Value>, funcName: Option<string>, traceId: Option<string>): (r: string)
    ensures var suffix := "(" + TraceText(traceId) + ")";
            |r| >= |suffix| && r[|r| - |suffix|..] == suffix
    ensures |args| > 0 && GetAttr(args[0], "identity").Some? ==>
              r == PyStr(GetAttr(args[0], "identity").value) + "(" + TraceText(traceId) + ")"
    ensures |args| > 0 && GetAttr(args[0], "identity").None? ==> r == ClassName(args[0]) + "(" + TraceText(traceId) + ")"
    ensures |args| == 0 && funcName.Some? ==> r == funcName.value + "(" + TraceText(traceId) + ")"
    ensures |args| == 0 && funcName.None? ==> r == "observe(" + TraceText(traceId) + ")"
  {
    var suffix := "(" + TraceText(traceId) + ")";
    if |args| > 0 && GetAttr(args[0], "identity").Some? then PyStr(GetAttr(args[0], "identity").value) + suffix
    else if |args| > 0 then ClassName(args[0]) + suffix
    else if funcName.Some? then funcName.value + suffix
    else "observe" + suffix
  }

  /** Because every object has a class name, the callable's name only matters without positional arguments. */
  lemma IdentityIgnoresFuncWithArgs(args: seq<Value>, f: Option<string>, g: Option<string>, traceId: Option<string>)
    requires |args| > 0
    ensures ResolveIdentity(args, f, traceId) == ResolveIdentity(args, g, traceId)
  {
  }

  /** The fall-through chain on the shapes the unit tests use. */
  lemma IdentityExamples(main: Value, named: Value)
    requires main.Obj? && main.cls == "MainProcess" && "identity" !in main.attrs
    requires named.Obj? && named.cls == "MainProcess" && named.attrs == map["identity" := Str("Valheim")]
    ensures ResolveIdentity([], None, Some("abcd")) == "observe(abcd)"
    ensures ResolveIdentity([], Some("process_function"), Some("")) == "process_function()"
    ensures ResolveIdentity([main], None, Some("")) == "MainProcess()"
    ensures ResolveIdentity([named], None, Some("")) == "Valheim()"
  {
  }
}
