/**
 * The identity list a VCD cluster keeps in its status: for each tracked OVDC
 * (organisation virtual data centre) its immutable VCD id and its last known
 * display name.  Upsert and remove work on that list in place; the rename
 * check looks an OVDC up by id (or, failing that, by name) and compares the
 * live name with the name the cluster spec declares.
 */
module ResourceIdentity {
  import opened Outcomes

  /** One tracked VCD resource: an id VCD assigned and a display name. */
  datatype VcdResource = VcdResource(id: string, name: string)

  /** The resource-type tag of the tracker; only the OVDC type is handled. */
  datatype ResourceType = Ovdc | Unsupported(tag: string)

  /** A live OVDC as the VCD client returns it. */
  datatype Vdc = Vdc(id: string, name: string)

  const ByNameContext := "failed to get ovdc by name"
  const ByIdContext := "failed to get ovdc by ID"
  const LookupContext := "error occurred while checking if ovdc name has changed"

  predicate HasId(list: seq<VcdResource>, id: string) {
    exists j | 0 <= j < |list| :: list[j].id == id
  }

  /** Position `j` holds the first entry of `list` whose id is `id`. */
  predicate FirstWithId(list: seq<VcdResource>, j: int, id: string)
    requires 0 <= j < |list|
  {
    list[j].id == id && forall k | 0 <= k < j :: list[k].id != id
  }

  /** No id appears twice in the list. */
  predicate UniqueIds(list: seq<VcdResource>) {
    forall i, j | 0 <= i < j < |list| :: list[i].id != list[j].id
  }

  /** Index of the first entry carrying `id`, if any. */
  function IndexOfId(list: seq<VcdResource>, id: string): (r: Option<nat>)
    ensures r.Some? ==> r.value < |list| && FirstWithId(list, r.value, id)
    ensures r.None? <==> !HasId(list, id)
  {
    if |list| == 0 then None
    else if list[0].id == id then Some(0)
    else match IndexOfId(list[1..], id)
      case None => None
      case Some(k) => Some(k + 1)
  }

  /** The list after an upsert: the first entry with `id` is renamed, or a new entry is appended. */
  function Upserted(list: seq<VcdResource>, id: string, name: string): (r: seq<VcdResource>)
    ensures |r| == if HasId(list, id) then |list| else |list| + 1
    ensures forall j | 0 <= j < |list| :: r[j].id == list[j].id
    ensures forall j | 0 <= j < |list| && !FirstWithId(list, j, id) :: r[j] == list[j]
    ensures forall j | 0 <= j < |list| && FirstWithId(list, j, id) :: r[j].name == name
    ensures !HasId(list, id) ==> r[|list|] == VcdResource(id, name)
  {
    match IndexOfId(list, id)
    case None => list + [VcdResource(id, name)]
    case Some(i) => list[i := VcdResource(id, name)]
  }

  /** The list after a remove: the first entry with `id` is deleted, if there is one. */
  function Removed(list: seq<VcdResource>, id: string): (r: seq<VcdResource>)
    ensures !HasId(list, id) ==> r == list
    ensures HasId(list, id) ==> |r| == |list| - 1
    ensures forall i | 0 <= i < |list| && FirstWithId(list, i, id) ::
              (forall j | 0 <= j < i :: r[j] == list[j]) &&
              (forall j | i <= j < |r| :: r[j] == list[j + 1])
    ensures multiset(r) <= multiset(list)
  {
    match IndexOfId(list, id)
    case None => list
    case Some(i) =>
      assert list == list[..i] + [list[i]] + list[i + 1..];
      list[..i] + list[i + 1..]
  }

  /** The id of the LAST entry named `name`, or "" when no entry has that name. */
  function LastIdWithName(list: seq<VcdResource>, name: string): (id: string)
    ensures (forall j | 0 <= j < |list| :: list[j].name != name) ==> id == ""
    ensures forall k | 0 <= k < |list| && list[k].name == name ::
              (forall j | k < j < |list| :: list[j].name != name) ==> id == list[k].id
    ensures id != "" ==> exists k | 0 <= k < |list| :: list[k].name == name && list[k].id == id
  {
    if |list| == 0 then ""
    else if list[|list| - 1].name == name then list[|list| - 1].id
    else LastIdWithName(list[..|list| - 1], name)
  }

  /** The name the status records, falling back to the spec's name when the status has none. */
  function EffectiveStatusName(specName: string, statusName: string): (r: string)
    ensures statusName != "" ==> r == statusName
    ensures statusName == "" ==> r == specName
    ensures r == "" <==> specName == "" && statusName == ""
  {
    if statusName == "" then specName else statusName
  }

  /** One more entry of the search: it wins when it has the name. */
  lemma LastIdWithNameStep(list: seq<VcdResource>, i: nat, name: string)
    requires i < |list|
    ensures LastIdWithName(list[..i + 1], name) == if list[i].name == name then list[i].id else LastIdWithName(list[..i], name)
  {
    assert list[..i + 1][..i] == list[..i];
  }

  /** The search loop of the rename check: no early exit, so the last match wins. */
  method FindOvdcIdByStatusName(list: seq<VcdResource>, name: string) returns (id: string)
    ensures id == LastIdWithName(list, name)
  {
    id := "";
    var i := 0;
    while i < |list|
      invariant 0 <= i <= |list|
      invariant id == LastIdWithName(list[..i], name)
    {
      LastIdWithNameStep(list, i, name);
      if list[i].name == name {
        id := list[i].id;
      }
      i := i + 1;
    }
    assert list[..|list|] == list;
  }

  /** With distinct ids, every entry carrying `id` has the new name after an upsert, and ids stay distinct. */
  lemma UpsertRenamesEveryMatch(list: seq<VcdResource>, id: string, name: string)
    requires UniqueIds(list)
    ensures UniqueIds(Upserted(list, id, name))
    ensures forall j | 0 <= j < |Upserted(list, id, name)| ::
              Upserted(list, id, name)[j].id == id ==> Upserted(list, id, name)[j].name == name
  {
    var r := Upserted(list, id, name);
    forall j | 0 <= j < |r| && r[j].id == id
      ensures r[j].name == name
    {
      if j < |list| {
        assert list[j].id == id;
        assert FirstWithId(list, j, id);
      }
    }
  }

  /** Upserting the name the first matching entry already has leaves the list as it was. */
  lemma UpsertSameNameIsNoop(list: seq<VcdResource>, j: nat, id: string, name: string)
    requires j < |list| && FirstWithId(list, j, id) && list[j].name == name
    ensures Upserted(list, id, name) == list
  {
    var r := Upserted(list, id, name);
    assert HasId(list, id);
    forall k | 0 <= k < |list|
      ensures r[k] == list[k]
    {
      if FirstWithId(list, k, id) {
        assert k == j;
      }
    }
  }

  /** A second identical upsert changes nothing. */
  lemma UpsertIdempotent(list: seq<VcdResource>, id: string, name: string)
    ensures Upserted(Upserted(list, id, name), id, name) == Upserted(list, id, name)
  {
    var r := Upserted(list, id, name);
    match IndexOfId(list, id)
    case Some(i) =>
      assert FirstWithId(r, i, id);
      UpsertSameNameIsNoop(r, i, id, name);
    case None =>
      assert FirstWithId(r, |list|, id);
      UpsertSameNameIsNoop(r, |list|, id, name);
  }

  /** Removing an id that a fresh upsert appended restores the original list. */
  lemma RemoveUndoesFreshUpsert(list: seq<VcdResource>, id: string, name: string)
    requires !HasId(list, id)
    ensures Removed(Upserted(list, id, name), id) == list
  {
    var r := Upserted(list, id, name);
    assert FirstWithId(r, |list|, id);
  }

  /** With distinct ids, a remove leaves no entry with that id and keeps the ids distinct. */
  lemma RemoveDropsUniqueId(list: seq<VcdResource>, id: string)
    requires UniqueIds(list)
    ensures !HasId(Removed(list, id), id)
    ensures UniqueIds(Removed(list, id))
  {
    var r := Removed(list, id);
    match IndexOfId(list, id)
    case None =>
    case Some(i) =>
      forall a, b | 0 <= a < b < |r|
        ensures r[a].id != r[b].id
      {
        var a' := if a < i then a else a + 1;
        var b' := if b < i then b else b + 1;
        assert r[a] == list[a'] && r[b] == list[b'];
      }
      forall j | 0 <= j < |r|
        ensures r[j].id != id
      {
        var j' := if j < i then j else j + 1;
        assert r[j] == list[j'];
      }
  }

  /**
   * Adoption converges to id-based tracking: once the OVDC found by name has
   * been upserted under its id, the next rename check's search finds that id.
   */
  lemma AdoptedIdIsFoundByName(list: seq<VcdResource>, id: string, name: string)
    requires !HasId(list, id)
    ensures LastIdWithName(Upserted(list, id, name), name) == id
  {
    var r := Upserted(list, id, name);
    assert r[|r| - 1] == VcdResource(id, name);
  }

  /** The status of a VCD cluster as far as OVDC tracking goes, updated in place. */
  class VcdCluster {
    var specOrg: string
    var specOvdc: string
    var statusOvdc: string
    var ovdcs: seq<VcdResource>

    constructor (specOrg: string, specOvdc: string, statusOvdc: string, ovdcs: seq<VcdResource>)
      ensures this.specOrg == specOrg && this.specOvdc == specOvdc
      ensures this.statusOvdc == statusOvdc && this.ovdcs == ovdcs
    {
      this.specOrg := specOrg;
      this.specOvdc := specOvdc;
      this.statusOvdc := statusOvdc;
      this.ovdcs := ovdcs;
    }

    /** Upsert by id into the OVDC list; any other type tag is refused and nothing changes. */
    method UpdateVdcResource(kind: ResourceType, id: string, name: string) returns (r: Outcome)
      modifies this
      ensures specOrg == old(specOrg) && specOvdc == old(specOvdc) && statusOvdc == old(statusOvdc)
      ensures kind.Unsupported? ==> r == Fail(UnsupportedResourceType(kind.tag)) && ovdcs == old(ovdcs)
      ensures kind == Ovdc ==> r == Pass && ovdcs == Upserted(old(ovdcs), id, name)
    {
      match kind
      case Unsupported(tag) =>
        return Fail(UnsupportedResourceType(tag));
      case Ovdc =>
        var i := 0;
        while i < |ovdcs|
          invariant 0 <= i <= |ovdcs|
          invariant ovdcs == old(ovdcs)
          invariant forall j | 0 <= j < i :: ovdcs[j].id != id
        {
          if ovdcs[i].id == id {
            assert FirstWithId(ovdcs, i, id);
            if ovdcs[i].name != name {
              ovdcs := ovdcs[i := ovdcs[i].(name := name)];
            }
            return Pass;
          }
          i := i + 1;
        }
        ovdcs := ovdcs + [VcdResource(id, name)];
        return Pass;
    }

    /** Delete the first OVDC entry with `id`; an absent id and any other type tag are errors. */
    method RemoveVcdResource(kind: ResourceType, id: string) returns (r: Outcome)
      modifies this
      ensures specOrg == old(specOrg) && specOvdc == old(specOvdc) && statusOvdc == old(statusOvdc)
      ensures kind.Unsupported? ==> r == Fail(UnsupportedResourceType(kind.tag)) && ovdcs == old(ovdcs)
      ensures kind == Ovdc && HasId(old(ovdcs), id) ==> r == Pass && ovdcs == Removed(old(ovdcs), id)
      ensures kind == Ovdc && !HasId(old(ovdcs), id) ==> r == Fail(ResourceIdNotFound(id)) && ovdcs == old(ovdcs)
    {
      match kind
      case Unsupported(tag) =>
        return Fail(UnsupportedResourceType(tag));
      case Ovdc =>
        var i := 0;
        while i < |ovdcs|
          invariant 0 <= i <= |ovdcs|
          invariant ovdcs == old(ovdcs)
          invariant forall j | 0 <= j < i :: ovdcs[j].id != id
        {
          if ovdcs[i].id == id {
            assert FirstWithId(ovdcs, i, id);
            ovdcs := ovdcs[..i] + ovdcs[i + 1..];
            return Pass;
          }
          i := i + 1;
        }
        return Fail(ResourceIdNotFound(id));
    }

    /**
     * Decide whether the OVDC was renamed in VCD.  The two lookups stand for the
     * VCD client: `getOvdcByName(org, name)` and `getOvdcById(org, id)`, each
     * returning the OVDC or an error, `EntityNotFound` being the client's
     * not-found sentinel.
     */
    method CheckIfOvdcNameChange(getOvdcByName: (string, string) -> Result<Vdc>,
                                 getOvdcById: (string, string) -> Result<Vdc>)
      returns (changed: bool, ovdc: Option<Vdc>, err: Option<Error>)
      modifies this
      ensures specOrg == old(specOrg) && specOvdc == old(specOvdc) && statusOvdc == old(statusOvdc)
      ensures var statusName := EffectiveStatusName(old(specOvdc), old(statusOvdc));
              var id := LastIdWithName(old(ovdcs), statusName);
              if id == "" then
                ovdcs == old(ovdcs) &&
                match getOvdcByName(old(specOrg), statusName)
                case Ok(v) => changed && ovdc == Some(v) && err == None
                case Err(e) => !changed && ovdc == None && err == Some(Wrapped(ByNameContext, e))
              else
                match getOvdcById(old(specOrg), id)
                case Ok(v) =>
                  ovdcs == old(ovdcs) && changed == (v.name != old(specOvdc)) && ovdc == Some(v) && err == None
                case Err(e) =>
                  !changed && ovdc == None &&
                  if e == EntityNotFound then
                    ovdcs == Removed(old(ovdcs), id) && err == Some(Wrapped(ByIdContext, e))
                  else
                    ovdcs == old(ovdcs) && err == Some(Wrapped(LookupContext, e))
    {
      var statusName := EffectiveStatusName(specOvdc, statusOvdc);
      var id := FindOvdcIdByStatusName(ovdcs, statusName);
      if id == "" {
        match getOvdcByName(specOrg, statusName)
        case Err(e) =>
          return false, None, Some(Wrapped(ByNameContext, e));
        case Ok(v) =>
          // no id tracked yet: report a change so that the caller records the mapping
          return true, Some(v), None;
      }
      match getOvdcById(specOrg, id)
      case Err(e) =>
        if e == EntityNotFound {
          var removed := RemoveVcdResource(Ovdc, id);
          if removed.Fail? {
            // the id was read from the list itself, so the removal cannot miss
            assert false;
          }
          return false, None, Some(Wrapped(ByIdContext, e));
        }
        return false, None, Some(Wrapped(LookupContext, e));
      case Ok(v) =>
        return v.name != specOvdc, Some(v), None;
    }
  }
}
