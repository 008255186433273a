/**
 * The two text projections of a cluster's Kubernetes objects: the spec
 * projection drops each object's "status", the status projection drops its
 * "spec"; both then normalise the legacy metadata, serialise each object and
 * join the documents with the YAML document separator.  Serialisation is the
 * YAML library's and is taken as a parameter `marshal`.
 */
module Projection {
  import opened Outcomes
  import opened Documents

  const StatusKey := "status"
  const SpecKey := "spec"
  const Separator := "---\n"

  /** The object as the spec projection keeps it. */
  function SpecView(obj: map<string, Doc>): (r: Result<map<string, Doc>>)
    ensures r.Ok? <==> (TypeMetaKey !in obj || obj[TypeMetaKey].Mapping?) &&
                       (ObjectMetaKey in Merged(obj - {StatusKey}) ==> Merged(obj - {StatusKey})[ObjectMetaKey].Mapping?)
    ensures r.Ok? ==> TypeMetaKey !in r.value && ObjectMetaKey !in r.value
  {
    Normalized(obj - {StatusKey})
  }

  /** The object as the status projection keeps it. */
  function StatusView(obj: map<string, Doc>): (r: Result<map<string, Doc>>)
    ensures r.Ok? <==> (TypeMetaKey !in obj || obj[TypeMetaKey].Mapping?) &&
                       (ObjectMetaKey in Merged(obj - {SpecKey}) ==> Merged(obj - {SpecKey})[ObjectMetaKey].Mapping?)
    ensures r.Ok? ==> TypeMetaKey !in r.value && ObjectMetaKey !in r.value
  {
    Normalized(obj - {SpecKey})
  }

  /** `parts` joined with `sep` between consecutive elements, as Go's strings.Join. */
  function Join(parts: seq<string>, sep: string): (r: string)
    ensures |parts| == 0 ==> r == ""
    ensures |parts| > 0 ==> parts[0] <= r
  {
    if |parts| == 0 then ""
    else if |parts| == 1 then parts[0]
    else parts[0] + sep + Join(parts[1..], sep)
  }

  /** Every object normalises once `dropKey` is removed. */
  predicate AllNormalize(objs: seq<map<string, Doc>>, dropKey: string) {
    forall i | 0 <= i < |objs| :: Normalized(objs[i] - {dropKey}).Ok?
  }

  /** The serialised objects, in input order. */
  function RenderedParts(objs: seq<map<string, Doc>>, dropKey: string, marshal: Doc -> string): (parts: seq<string>)
    requires AllNormalize(objs, dropKey)
    ensures |parts| == |objs|
  {
    seq(|objs|, i requires 0 <= i < |objs| => marshal(Mapping(Normalized(objs[i] - {dropKey}).value)))
  }

  /** Appending one more part adds one separator and the part at the end. */
  lemma {:induction false} JoinSnoc(parts: seq<string>, p: string, sep: string)
    ensures Join(parts + [p], sep) == if |parts| == 0 then p else Join(parts, sep) + sep + p
  {
    if |parts| == 0 {
      assert parts + [p] == [p];
    } else if |parts| == 1 {
      assert (parts + [p])[1..] == [p];
    } else {
      assert (parts + [p])[1..] == parts[1..] + [p];
      JoinSnoc(parts[1..], p, sep);
    }
  }

  /** Joining two non-empty runs of parts puts exactly one separator between them. */
  lemma {:induction false} JoinAppend(a: seq<string>, b: seq<string>, sep: string)
    requires |a| > 0 && |b| > 0
    ensures Join(a + b, sep) == Join(a, sep) + sep + Join(b, sep)
  {
    if |a| == 1 {
      assert (a + b)[1..] == b;
    } else {
      assert (a + b)[1..] == a[1..] + b;
      JoinAppend(a[1..], b, sep);
    }
  }

  /**
   * Drop `dropKey`, normalise and serialise one object, editing a fresh copy
   * of its mapping in place.
   */
  method ProjectObject(obj: map<string, Doc>, dropKey: string, marshal: Doc -> string) returns (r: Result<string>)
    ensures r.Ok? <==> Normalized(obj - {dropKey}).Ok?
    ensures r.Ok? ==> r.value == marshal(Mapping(Normalized(obj - {dropKey}).value))
    ensures r.Err? ==> r.error == Normalized(obj - {dropKey}).error
  {
    var objMap := new ObjectMap(obj);
    objMap.Delete(dropKey);
    var filtered := objMap.FilterTypeMetaAndObjectMeta();
    if filtered.Fail? {
      return Err(filtered.error);
    }
    return Ok(marshal(Mapping(objMap.entries)));
  }

  /** The spec projection of one object. */
  method YamlWithoutStatus(obj: map<string, Doc>, marshal: Doc -> string) returns (r: Result<string>)
    ensures r.Ok? <==> SpecView(obj).Ok?
    ensures r.Ok? ==> r.value == marshal(Mapping(SpecView(obj).value))
  {
    r := ProjectObject(obj, StatusKey, marshal);
  }

  /** The status projection of one object. */
  method GetK8sObjectStatus(obj: map<string, Doc>, marshal: Doc -> string) returns (r: Result<string>)
    ensures r.Ok? <==> StatusView(obj).Ok?
    ensures r.Ok? ==> r.value == marshal(Mapping(StatusView(obj).value))
  {
    r := ProjectObject(obj, SpecKey, marshal);
  }

  /**
   * Project every object in order and join the results; the first object
   * that fails to normalise aborts the whole projection with its error.
   */
  method ProjectAll(objs: seq<map<string, Doc>>, dropKey: string, marshal: Doc -> string) returns (r: Result<string>)
    ensures r.Ok? <==> AllNormalize(objs, dropKey)
    ensures r.Ok? ==> r.value == Join(RenderedParts(objs, dropKey, marshal), Separator)
    ensures r.Err? ==> exists i | 0 <= i < |objs| ::
              (forall j | 0 <= j < i :: Normalized(objs[j] - {dropKey}).Ok?) &&
              Normalized(objs[i] - {dropKey}).Err? &&
              r.error == Normalized(objs[i] - {dropKey}).error
  {
    var parts: seq<string> := [];
    var i := 0;
    while i < |objs|
      invariant 0 <= i <= |objs|
      invariant |parts| == i
      invariant forall j | 0 <= j < i :: Normalized(objs[j] - {dropKey}).Ok?
      invariant forall j | 0 <= j < i :: parts[j] == marshal(Mapping(Normalized(objs[j] - {dropKey}).value))
    {
      var s := ProjectObject(objs[i], dropKey, marshal);
      if s.Err? {
        return Err(s.error);
      }
      parts := parts + [s.value];
      i := i + 1;
    }
    assert parts == RenderedParts(objs, dropKey, marshal);
    return Ok(Join(parts, Separator));
  }

  /** The spec projection of the cluster's objects. */
  method GetCapiYaml(objs: seq<map<string, Doc>>, marshal: Doc -> string) returns (r: Result<string>)
    ensures r.Ok? <==> forall i | 0 <= i < |objs| :: SpecView(objs[i]).Ok?
    ensures r.Ok? ==> r.value == Join(RenderedParts(objs, StatusKey, marshal), Separator)
  {
    r := ProjectAll(objs, StatusKey, marshal);
  }

  /** The status projection of the cluster's objects. */
  method GetCapiStatusYaml(objs: seq<map<string, Doc>>, marshal: Doc -> string) returns (r: Result<string>)
    ensures r.Ok? <==> forall i | 0 <= i < |objs| :: StatusView(objs[i]).Ok?
    ensures r.Ok? ==> r.value == Join(RenderedParts(objs, SpecKey, marshal), Separator)
  {
    r := ProjectAll(objs, SpecKey, marshal);
  }

  /** The spec projection has no "status" unless the object's "typemeta" itself carries one. */
  lemma SpecViewDropsStatus(obj: map<string, Doc>)
    requires SpecView(obj).Ok?
    requires TypeMetaKey in obj && obj[TypeMetaKey].Mapping? ==> StatusKey !in obj[TypeMetaKey].entries
    ensures StatusKey !in SpecView(obj).value
  {
  }

  /** The status projection has no "spec" unless the object's "typemeta" itself carries one. */
  lemma StatusViewDropsSpec(obj: map<string, Doc>)
    requires StatusView(obj).Ok?
    requires TypeMetaKey in obj && obj[TypeMetaKey].Mapping? ==> SpecKey !in obj[TypeMetaKey].entries
    ensures SpecKey !in StatusView(obj).value
  {
  }

  /**
   * The two projections of one object succeed or fail together and agree on
   * every key other than "spec" and "status", the normalised "metadata" included.
   */
  lemma ViewsAgreeOutsideSpecAndStatus(obj: map<string, Doc>)
    ensures SpecView(obj).Ok? <==> StatusView(obj).Ok?
    ensures SpecView(obj).Ok? ==> forall k | k != SpecKey && k != StatusKey ::
              (k in SpecView(obj).value <==> k in StatusView(obj).value) &&
              (k in SpecView(obj).value ==> SpecView(obj).value[k] == StatusView(obj).value[k])
  {
  }
}
