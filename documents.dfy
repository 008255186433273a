/**
 * Generic Kubernetes objects as the YAML decoder hands them back: a tree of
 * null, booleans, integers, strings, sequences and string-keyed mappings.
 * Objects that were serialised from Go structs carry two legacy
 * sub-documents, "typemeta" and "objectmeta"; normalisation folds the first
 * into the top level and keeps only the name and namespace of the second,
 * under "metadata".
 */
module Documents {
  import opened Outcomes

  datatype Doc =
    | Null
    | Bool(b: bool)
    | Int(i: int)
    | Str(s: string)
    | Sequence(items: seq<Doc>)
    | Mapping(entries: map<string, Doc>)

  const TypeMetaKey := "typemeta"
  const ObjectMetaKey := "objectmeta"
  const MetadataKey := "metadata"
  const NameKey := "name"
  const NamespaceKey := "namespace"

  /** The part of an object-meta mapping that survives: its name and namespace. */
  function NameAndNamespace(objectMeta: map<string, Doc>): (r: map<string, Doc>)
    ensures r.Keys == objectMeta.Keys * {NameKey, NamespaceKey}
    ensures forall k | k in r :: r[k] == objectMeta[k]
  {
    map k | k in objectMeta && (k == NameKey || k == NamespaceKey) :: objectMeta[k]
  }

  /** First step: merge a "typemeta" mapping into the top level (its values win) and drop the key. */
  function AfterTypeMeta(m: map<string, Doc>): (r: Result<map<string, Doc>>)
    ensures r.Ok? <==> TypeMetaKey !in m || m[TypeMetaKey].Mapping?
    ensures r.Err? ==> r.error == NotAMapping(TypeMetaKey)
    ensures r.Ok? ==> TypeMetaKey !in r.value
    ensures r.Ok? && TypeMetaKey in m ==>
              forall k | k in m[TypeMetaKey].entries && k != TypeMetaKey :: k in r.value && r.value[k] == m[TypeMetaKey].entries[k]
    ensures r.Ok? ==> forall k | k in m && k != TypeMetaKey && (TypeMetaKey in m ==> k !in m[TypeMetaKey].entries) ::
              k in r.value && r.value[k] == m[k]
    ensures r.Ok? ==> r.value.Keys <= m.Keys + (if TypeMetaKey in m then m[TypeMetaKey].entries.Keys else {})
  {
    if TypeMetaKey !in m then Ok(m)
    else if m[TypeMetaKey].Mapping? then Ok((m + m[TypeMetaKey].entries) - {TypeMetaKey})
    else Err(NotAMapping(TypeMetaKey))
  }

  /** Second step: replace an "objectmeta" mapping by "metadata" holding its name and namespace. */
  function AfterObjectMeta(m: map<string, Doc>): (r: Result<map<string, Doc>>)
    ensures r.Ok? <==> ObjectMetaKey !in m || m[ObjectMetaKey].Mapping?
    ensures r.Err? ==> r.error == NotAMapping(ObjectMetaKey)
    ensures r.Ok? ==> ObjectMetaKey !in r.value
    ensures r.Ok? && ObjectMetaKey in m ==>
              MetadataKey in r.value && r.value[MetadataKey] == Mapping(NameAndNamespace(m[ObjectMetaKey].entries))
    ensures r.Ok? ==> forall k | k in m && k != ObjectMetaKey && (ObjectMetaKey in m ==> k != MetadataKey) ::
              k in r.value && r.value[k] == m[k]
    ensures r.Ok? ==> r.value.Keys <= m.Keys - {ObjectMetaKey} + {MetadataKey}
  {
    if ObjectMetaKey !in m then Ok(m)
    else if m[ObjectMetaKey].Mapping? then
      Ok(m[MetadataKey := Mapping(NameAndNamespace(m[ObjectMetaKey].entries))] - {ObjectMetaKey})
    else Err(NotAMapping(ObjectMetaKey))
  }

  /** The normalised top-level mapping, or the error for a legacy sub-document that is not a mapping. */
  function Normalized(m: map<string, Doc>): (r: Result<map<string, Doc>>)
    ensures r.Err? ==> r.error == NotAMapping(TypeMetaKey) || r.error == NotAMapping(ObjectMetaKey)
    ensures r.Ok? ==> TypeMetaKey !in r.value && ObjectMetaKey !in r.value
  {
    var merged :- AfterTypeMeta(m);
    AfterObjectMeta(merged)
  }

  /** The top-level mapping right after the "typemeta" merge, which is where "objectmeta" is read. */
  function Merged(m: map<string, Doc>): map<string, Doc> {
    if TypeMetaKey in m && m[TypeMetaKey].Mapping? then (m + m[TypeMetaKey].entries) - {TypeMetaKey} else m
  }

  /** Normalisation fails exactly when one of the two legacy sub-documents is present and not a mapping. */
  lemma NormalizedFailsOnlyOnNonMapping(m: map<string, Doc>)
    ensures Normalized(m).Err? <==>
              (TypeMetaKey in m && !m[TypeMetaKey].Mapping?) ||
              (ObjectMetaKey in Merged(m) && !Merged(m)[ObjectMetaKey].Mapping?)
    ensures TypeMetaKey in m && !m[TypeMetaKey].Mapping? ==> Normalized(m) == Err(NotAMapping(TypeMetaKey))
  {
  }

  /** After normalisation neither legacy key is left. */
  lemma NormalizedDropsLegacyKeys(m: map<string, Doc>)
    requires Normalized(m).Ok?
    ensures TypeMetaKey !in Normalized(m).value && ObjectMetaKey !in Normalized(m).value
  {
  }

  /**
   * Every "typemeta" entry reaches the top level and overrides the value the
   * object had there, except for the legacy keys themselves and a "metadata"
   * that an "objectmeta" replaces.
   */
  lemma NormalizedMergesTypeMeta(m: map<string, Doc>, k: string)
    requires Normalized(m).Ok?
    requires TypeMetaKey in m && k in m[TypeMetaKey].entries
    requires k != TypeMetaKey && k != ObjectMetaKey
    requires k == MetadataKey ==> ObjectMetaKey !in Merged(m)
    ensures k in Normalized(m).value && Normalized(m).value[k] == m[TypeMetaKey].entries[k]
  {
  }

  /** "metadata" holds exactly the name and namespace entries the object meta had. */
  lemma NormalizedKeepsNameAndNamespace(m: map<string, Doc>)
    requires Normalized(m).Ok? && ObjectMetaKey in Merged(m)
    ensures MetadataKey in Normalized(m).value
    ensures Normalized(m).value[MetadataKey].Mapping?
    ensures Normalized(m).value[MetadataKey].entries.Keys ==
              Merged(m)[ObjectMetaKey].entries.Keys * {NameKey, NamespaceKey}
    ensures forall k | k in Normalized(m).value[MetadataKey].entries ::
              Normalized(m).value[MetadataKey].entries[k] == Merged(m)[ObjectMetaKey].entries[k]
  {
  }

  /** Entries that are neither legacy keys, "metadata", nor supplied by "typemeta" are left alone. */
  lemma NormalizedKeepsOtherEntries(m: map<string, Doc>, k: string)
    requires Normalized(m).Ok? && k in m
    requires k != TypeMetaKey && k != ObjectMetaKey && k != MetadataKey
    requires TypeMetaKey in m ==> k !in m[TypeMetaKey].entries
    ensures k in Normalized(m).value && Normalized(m).value[k] == m[k]
  {
  }

  /** Normalisation adds no key beyond the object's own, those of "typemeta", and "metadata". */
  lemma NormalizedKeysBound(m: map<string, Doc>)
    requires Normalized(m).Ok?
    ensures Normalized(m).value.Keys <=
              m.Keys + (if TypeMetaKey in m then m[TypeMetaKey].entries.Keys else {}) + {MetadataKey}
  {
  }

  /** The pruning loop over an object-meta mapping: every key but name and namespace is deleted. */
  method KeepNameAndNamespace(objectMeta: map<string, Doc>) returns (kept: map<string, Doc>)
    ensures kept == NameAndNamespace(objectMeta)
  {
    kept := objectMeta;
    var unvisited := objectMeta.Keys;
    while unvisited != {}
      invariant unvisited <= objectMeta.Keys
      invariant kept == map k | k in objectMeta && (k in unvisited || k == NameKey || k == NamespaceKey) :: objectMeta[k]
      decreases unvisited
    {
      var k :| k in unvisited;
      if k != NameKey && k != NamespaceKey {
        kept := kept - {k};
      }
      unvisited := unvisited - {k};
    }
  }

  /** A decoded Kubernetes object whose top-level mapping is edited in place. */
  class ObjectMap {
    var entries: map<string, Doc>

    constructor (entries: map<string, Doc>)
      ensures this.entries == entries
    {
      this.entries := entries;
    }

    /** Delete a top-level key, if present. */
    method Delete(key: string)
      modifies this
      ensures entries == old(entries) - {key}
    {
      if key in entries {
        entries := entries - {key};
      }
    }

    /**
     * Normalise the legacy sub-documents in place.  On success the mapping is
     * the normalised one; a "typemeta" that is not a mapping is reported before
     * anything changes, an "objectmeta" that is not a mapping after the
     * "typemeta" merge has already been applied.
     */
    method FilterTypeMetaAndObjectMeta() returns (r: Outcome)
      modifies this
      ensures r.Pass? <==> Normalized(old(entries)).Ok?
      ensures r.Pass? ==> entries == Normalized(old(entries)).value
      ensures r.Fail? ==> r.error == Normalized(old(entries)).error
      ensures r.Fail? && AfterTypeMeta(old(entries)).Err? ==> entries == old(entries)
      ensures r.Fail? && AfterTypeMeta(old(entries)).Ok? ==> entries == AfterTypeMeta(old(entries)).value
    {
      if TypeMetaKey in entries {
        if !entries[TypeMetaKey].Mapping? {
          return Fail(NotAMapping(TypeMetaKey));
        }
        var typeMeta := entries[TypeMetaKey].entries;
        var pending := typeMeta.Keys;
        while pending != {}
          invariant pending <= typeMeta.Keys
          invariant entries == old(entries) + (map k | k in typeMeta.Keys - pending :: typeMeta[k])
          decreases pending
        {
          var k :| k in pending;
          entries := entries[k := typeMeta[k]];
          pending := pending - {k};
        }
        assert (map k | k in typeMeta.Keys - pending :: typeMeta[k]) == typeMeta;
        entries := entries - {TypeMetaKey};
      }
      assert entries == AfterTypeMeta(old(entries)).value;

      if ObjectMetaKey in entries {
        if !entries[ObjectMetaKey].Mapping? {
          return Fail(NotAMapping(ObjectMetaKey));
        }
        var objectMeta := KeepNameAndNamespace(entries[ObjectMetaKey].entries);
        entries := entries[MetadataKey := Mapping(objectMeta)];
        entries := entries - {ObjectMetaKey};
      }
      return Pass;
    }
  }
}
