/**
 * The older `observe` revision of `Resolver.resolve_tags_from`: the same
 * nested loops, but with stricter guards. Lookup keys and field names must be
 * strings, the payload must be a non-empty dict, and a value must be a
 * non-empty string. Nothing is converted with `str()`.
 */
module LegacyResolver {
  import opened Wrappers
  import opened PyValues
  import opened Resolver
  import opened Collected

  /** The tag one field name contributes in the older revision. */
  function LegacyFieldTag(field: Key, message: seq<(Value, Value)>): seq<string> {
    if !field.StrKey? then []
    else
      var value := DictGet(message, field.s);
      if !Truthy(value) || !value.Str? then [] else [field.s + ":" + value.s]
  }

  /** `LegacyFieldTag` for a fixed message, as a function of the field name. */
  function LegacyFieldTagIn(message: seq<(Value, Value)>): Key -> seq<string> {
    field => LegacyFieldTag(field, message)
  }

  /** The older tags of a list of field names, in field order. */
  function LegacyFieldTags(fields: seq<Key>, message: seq<(Value, Value)>): seq<string> {
    Collect(fields, LegacyFieldTagIn(message))
  }

  /** One entry: skipped unless the key is a string, the field spec a list and the payload a non-empty dict. */
  function LegacyEntryTags(entry: (Key, FieldSpec), kwargs: map<string, Value>): seq<string> {
    if !entry.0.StrKey? || !entry.1.FieldList? then []
    else
      var message := KwargGet(kwargs, entry.0.s);
      if !Truthy(message) || !message.Dict? then [] else LegacyFieldTags(entry.1.names, message.entries)
  }

  /** `LegacyEntryTags` for fixed keyword arguments, as a function of the entry. */
  function LegacyEntryTagsWith(kwargs: map<string, Value>): ((Key, FieldSpec)) -> seq<string> {
    entry => LegacyEntryTags(entry, kwargs)
  }

  /** The older tags of a sequence of entries, in entry order. */
  function LegacyEntriesTags(entries: seq<(Key, FieldSpec)>, kwargs: map<string, Value>): seq<string> {
    Collect(entries, LegacyEntryTagsWith(kwargs))
  }

  function LegacyTagsFrom(tagsFrom: Option<seq<(Key, FieldSpec)>>, kwargs: map<string, Value>): seq<string> {
    match tagsFrom
    case None => []
    case Some(entries) => LegacyEntriesTags(entries, kwargs)
  }

  /** The older `Resolver.resolve_tags_from`: nested loops with `continue` guards. */
  method LegacyResolveTagsFrom(tagsFrom: Option<seq<(Key, FieldSpec)>>, kwargs: map<string, Value>)
    returns (tags: seq<string>)
    ensures tags == LegacyTagsFrom(tagsFrom, kwargs)
  {
    tags := [];
    if tagsFrom.None? || tagsFrom.value == [] {
      return;
    }
    var entries := tagsFrom.value;
    for i := 0 to |entries|
      invariant tags == LegacyEntriesTags(entries[..i], kwargs)
    {
      assert entries[..i + 1][..i] == entries[..i];
      var (lookupKey, tagKeys) := entries[i];
      if !lookupKey.StrKey? || !tagKeys.FieldList? {
        continue;
      }
      var message := KwargGet(kwargs, lookupKey.s);
      if !Truthy(message) || !message.Dict? {
        continue;
      }
      var fields := tagKeys.names;
      for j := 0 to |fields|
        invariant tags == LegacyEntriesTags(entries[..i], kwargs) + LegacyFieldTags(fields[..j], message.entries)
      {
        assert fields[..j + 1][..j] == fields[..j];
        var tagKey := fields[j];
        if !tagKey.StrKey? {
          continue;
        }
        var tagValue := DictGet(message.entries, tagKey.s);
        if !Truthy(tagValue) || !tagValue.Str? {
          continue;
        }
        tags := tags + [tagKey.s + ":" + tagValue.s];
      }
      assert fields[..|fields|] == fields;
    }
    assert entries[..|entries|] == entries;
  }

  /** Whatever the keyword arguments, a falsy `tags_from` yields no tags in the older revision too. */
  lemma LegacyFalsyTagsFromYieldsNothing(tagsFrom: Option<seq<(Key, FieldSpec)>>, kwargs: map<string, Value>)
    requires tagsFrom.None? || tagsFrom.value == []
    ensures LegacyTagsFrom(tagsFrom, kwargs) == []
  {
  }

  /**
   * Entry `i`, field `j` of `tags_from` produces tag `t` in the older
   * revision: the lookup key is a string and the field list a list, the named
   * keyword payload is a non-empty dict, the field name is a string, its
   * value there is a non-empty string, and `t` is `field + ":" + value`.
   */
  ghost predicate LegacyYields(entries: seq<(Key, FieldSpec)>, kwargs: map<string, Value>, i: int, j: int, t: string) {
    && 0 <= i < |entries|
    && entries[i].0.StrKey?
    && entries[i].1.FieldList?
    && 0 <= j < |entries[i].1.names|
    && var message := KwargGet(kwargs, entries[i].0.s);
       && message.Dict?
       && message.entries != []
       && var field := entries[i].1.names[j];
          && field.StrKey?
          && var value := DictGet(message.entries, field.s);
             value.Str? && value.s != "" && t == field.s + ":" + value.s
  }

  /** The older tags of one entry are exactly those `LegacyYields` names for it. */
  lemma LegacyEntryTagsMembership(entries: seq<(Key, FieldSpec)>, kwargs: map<string, Value>, i: int, t: string)
    requires 0 <= i < |entries|
    ensures t in LegacyEntryTags(entries[i], kwargs) <==> exists j :: LegacyYields(entries, kwargs, i, j, t)
  {
    var e := entries[i];
    if e.0.StrKey? && e.1.FieldList? {
      var message := KwargGet(kwargs, e.0.s);
      if Truthy(message) && message.Dict? {
        CollectMembership(e.1.names, LegacyFieldTagIn(message.entries), t);
        if t in LegacyEntryTags(e, kwargs) {
          var j :| 0 <= j < |e.1.names| && t in LegacyFieldTag(e.1.names[j], message.entries);
          assert LegacyYields(entries, kwargs, i, j, t);
        }
        if exists j :: LegacyYields(entries, kwargs, i, j, t) {
          var j :| LegacyYields(entries, kwargs, i, j, t);
          assert t in LegacyFieldTagIn(message.entries)(e.1.names[j]);
        }
      }
    }
  }

  /**
   * A tag is produced by the older revision exactly when `LegacyYields` holds
   * for some entry and field: a non-string lookup key or field name, a
   * non-list field list, a missing, empty or non-dict payload, and a missing,
   * non-string or empty value are all skipped.
   */
  lemma LegacyTagsFromMembership(entries: seq<(Key, FieldSpec)>, kwargs: map<string, Value>, t: string)
    ensures t in LegacyTagsFrom(Some(entries), kwargs) <==> exists i, j :: LegacyYields(entries, kwargs, i, j, t)
  {
    CollectMembership(entries, LegacyEntryTagsWith(kwargs), t);
    forall i | 0 <= i < |entries|
      ensures t in LegacyEntryTags(entries[i], kwargs) <==> exists j :: LegacyYields(entries, kwargs, i, j, t)
    {
      LegacyEntryTagsMembership(entries, kwargs, i, t);
    }
  }

  /*** How the two revisions relate ***/

  /** A `tags_from` whose lookup keys and field names are all strings, as its annotation asks. */
  ghost predicate StringTyped(entries: seq<(Key, FieldSpec)>) {
    forall i :: 0 <= i < |entries| ==>
      && entries[i].0.StrKey?
      && (entries[i].1.FieldList? ==> forall j :: 0 <= j < |entries[i].1.names| ==> entries[i].1.names[j].StrKey?)
  }

  /** An empty payload yields no tags in the newer revision either. */
  lemma FieldTagsOfEmptyMessage(fields: seq<Key>)
    ensures FieldTags(fields, []) == []
  {
    CollectNothing(fields, FieldTagIn([]));
  }

  /** On string field names the older field loop emits exactly the newer one's tags. */
  lemma FieldTagsAgree(fields: seq<Key>, message: seq<(Value, Value)>)
    requires forall j :: 0 <= j < |fields| ==> fields[j].StrKey?
    ensures LegacyFieldTags(fields, message) == FieldTags(fields, message)
  {
    CollectAgree(fields, LegacyFieldTagIn(message), FieldTagIn(message));
  }

  /** One string-typed entry yields the same tags in both revisions. */
  lemma EntryTagsAgree(e: (Key, FieldSpec), kwargs: map<string, Value>)
    requires e.0.StrKey?
    requires e.1.FieldList? ==> forall j :: 0 <= j < |e.1.names| ==> e.1.names[j].StrKey?
    ensures LegacyEntryTags(e, kwargs) == EntryTags(e, kwargs)
  {
    if e.1.FieldList? {
      var message := KwargGet(kwargs, e.0.s);
      if message.Dict? {
        FieldTagsAgree(e.1.names, message.entries);
        if message.entries == [] {
          FieldTagsOfEmptyMessage(e.1.names);
        }
      }
    }
  }

  /** On string lookup keys and string field names the older entry loop emits exactly the newer one's tags. */
  lemma EntriesTagsAgree(entries: seq<(Key, FieldSpec)>, kwargs: map<string, Value>)
    requires StringTyped(entries)
    ensures LegacyEntriesTags(entries, kwargs) == EntriesTags(entries, kwargs)
  {
    forall i | 0 <= i < |entries|
      ensures LegacyEntryTagsWith(kwargs)(entries[i]) == EntryTagsWith(kwargs)(entries[i])
    {
      EntryTagsAgree(entries[i], kwargs);
    }
    CollectAgree(entries, LegacyEntryTagsWith(kwargs), EntryTagsWith(kwargs));
  }

  /** On a string-typed `tags_from` the two revisions produce the same tags. */
  lemma RevisionsAgreeOnStringTypedConfig(tagsFrom: Option<seq<(Key, FieldSpec)>>, kwargs: map<string, Value>)
    requires tagsFrom.Some? ==> StringTyped(tagsFrom.value)
    ensures LegacyTagsFrom(tagsFrom, kwargs) == TagsFrom(tagsFrom, kwargs)
  {
    if tagsFrom.Some? {
      EntriesTagsAgree(tagsFrom.value, kwargs);
    }
  }

  /** The older field loop's tags are a subsequence of the newer one's. */
  lemma FieldTagsRelaxed(fields: seq<Key>, message: seq<(Value, Value)>)
    ensures IsSubsequence(LegacyFieldTags(fields, message), FieldTags(fields, message))
  {
    forall j | 0 <= j < |fields|
      ensures IsSubsequence(LegacyFieldTagIn(message)(fields[j]), FieldTagIn(message)(fields[j]))
    {
      SubsequenceOfItselfOrEmpty(FieldTag(fields[j], message));
    }
    CollectSubsequence(fields, LegacyFieldTagIn(message), FieldTagIn(message));
  }

  /** One entry's older tags are a subsequence of its newer tags. */
  lemma EntryTagsRelaxed(e: (Key, FieldSpec), kwargs: map<string, Value>)
    ensures IsSubsequence(LegacyEntryTags(e, kwargs), EntryTags(e, kwargs))
  {
    if LegacyEntryTags(e, kwargs) == [] {
      SubsequenceOfItselfOrEmpty(EntryTags(e, kwargs));
    } else {
      FieldTagsRelaxed(e.1.names, KwargGet(kwargs, e.0.s).entries);
    }
  }

  /** The older tags of all entries are a subsequence of the newer ones. */
  lemma EntriesTagsRelaxed(entries: seq<(Key, FieldSpec)>, kwargs: map<string, Value>)
    ensures IsSubsequence(LegacyEntriesTags(entries, kwargs), EntriesTags(entries, kwargs))
  {
    forall i | 0 <= i < |entries|
      ensures IsSubsequence(LegacyEntryTagsWith(kwargs)(entries[i]), EntryTagsWith(kwargs)(entries[i]))
    {
      EntryTagsRelaxed(entries[i], kwargs);
    }
    CollectSubsequence(entries, LegacyEntryTagsWith(kwargs), EntryTagsWith(kwargs));
  }

  /**
   * The newer revision only relaxes the older one's guards: every tag the
   * older revision emits, the newer emits too, in the same relative order.
   */
  lemma NewerRevisionKeepsOlderTags(tagsFrom: Option<seq<(Key, FieldSpec)>>, kwargs: map<string, Value>)
    ensures IsSubsequence(LegacyTagsFrom(tagsFrom, kwargs), TagsFrom(tagsFrom, kwargs))
  {
    if tagsFrom.Some? {
      EntriesTagsRelaxed(tagsFrom.value, kwargs);
    } else {
      SubsequenceOfItselfOrEmpty([]);
    }
  }

  /** A non-string field name is skipped by the older revision but rendered with `str()` by the newer. */
  lemma NonStringFieldNameDiffers()
    ensures var kwargs := map["message" := Dict([(Str("None"), Str("x"))])];
            var tagsFrom := Some([(StrKey("message"), FieldList([OtherKey("None")]))]);
            LegacyTagsFrom(tagsFrom, kwargs) == [] && TagsFrom(tagsFrom, kwargs) == ["None:x"]
  {
    var message := [(Str("None"), Str("x"))];
    var kwargs := map["message" := Dict(message)];
    var fields := [OtherKey("None")];
    var entries := [(StrKey("message"), FieldList(fields))];
    assert entries[..0] == [] && fields[..0] == [];
    assert DictGet(message, "None") == Str("x");
    assert GetStrValue(OtherKey("None"), message) == Some("x");
    assert FieldTag(OtherKey("None"), message) == ["None" + ":" + "x"];
    assert FieldTags(fields, message) == FieldTags(fields[..0], message) + FieldTag(fields[0], message);
    assert Collect(entries, EntryTagsWith(kwargs)) == Collect(entries[..0], EntryTagsWith(kwargs)) + EntryTags(entries[0], kwargs);
    assert EntriesTags(entries, kwargs) == EntryTags(entries[0], kwargs);
    assert LegacyFieldTags(fields, message) == [];
    assert Collect(entries, LegacyEntryTagsWith(kwargs)) == Collect(entries[..0], LegacyEntryTagsWith(kwargs)) + LegacyEntryTags(entries[0], kwargs);
    assert LegacyEntriesTags(entries, kwargs) == LegacyEntryTags(entries[0], kwargs);
    assert "None" + ":" + "x" == "None:x";
    assert TagsFrom(Some(entries), kwargs) == ["None:x"];
    assert LegacyTagsFrom(Some(entries), kwargs) == [];
  }
}
