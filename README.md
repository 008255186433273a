# Cluster API objects utilities of the VCD cluster controller, in Dafny

This project models the helpers that the Cluster API provider for VMware Cloud
Director (CAPVCD) uses while reconciling a cluster, and proves what they
guarantee:

- **OVDC identity list** (`resource_identity.dfy`). A `VCDCluster` status keeps
  a list of `{ID, Name}` entries for its organisation virtual data centres. The
  class `VcdCluster` holds that list and the spec/status names. It updates the
  list in place with an upsert by id and a remove of the first entry with an id.
  The rename check finds the id of the OVDC it last knew by name. It then asks
  VCD for that OVDC by id, or by name when no id is known, and compares the
  live name with the name the spec declares.
- **Metadata normalisation and projections** (`documents.dfy`, `projection.dfy`).
  Kubernetes objects are decoded YAML trees (`Doc`). The class `ObjectMap`
  normalises an object's top-level mapping in place: "typemeta" is merged into
  the top level, and "objectmeta" is cut down to name and namespace under
  "metadata". The spec projection drops "status" and the status projection
  drops "spec". Both serialise every object and join the documents with `---\n`.
- **Machines** (`machines.dfy`). These are the Cluster API objects read here.
  The control-plane membership filter keeps a machine when one of its owner
  references names the KubeadmControlPlane.
- **Node-pool aggregation** (`node_pools.dfy`). It makes one pool per
  MachineDeployment, then one per KubeadmControlPlane. Each pool takes its
  template attributes, replica counts and a machine-name-to-phase map.
- **Version convergence** (`convergence.dfy`). It scans control-plane machines,
  then deployment machines, and stops at the first machine whose declared
  Kubernetes version is not the expected one.
- **Credentials** (`credentials.dfy`). This covers the TKG version annotation,
  the merge of declared credentials with a credentials secret (trailing
  newlines trimmed) and the redaction of the serialised cluster copy.
- `outcomes.dfy` holds the shared `Option`, `Result`, `Outcome` and `Error`
  types.

The Kubernetes client and the VCD client become parameters. A list result is
a `Result` value. A per-object lookup is a function that returns
`Result<...>`. The VCD client's "entity not found" sentinel is the error
`EntityNotFound`. YAML serialisation is a parameter `marshal: Doc -> string`.

Behaviour of the code worth knowing:

- Removing an id that is not in the list is an error, not a no-op.
- An upsert renames only the first entry with the id. Under the distinct-ids
  invariant, that entry is the only one (`UpsertRenamesEveryMatch`).
- The aggregation does not reject duplicate pool names.
- The spec and status projections are not key-disjoint. They agree on every
  key other than "spec" and "status" (`ViewsAgreeOutsideSpecAndStatus`).
- Because the merge comes after the drop, a "typemeta" that carries a "status"
  (or "spec") key puts it back.

## Model

| member | source | states |
|---|---|---|
| ResourceIdentity.IndexOfId | controllers/capi_objects_utils.go:211-212 | the index returned holds the first entry with the id; none is returned exactly when no entry has the id |
| ResourceIdentity.Upserted | controllers/capi_objects_utils.go:204-225 | ids keep their positions; only the first entry with the id changes, and it takes the new name; an absent id is appended as `{id, name}` at the end |
| ResourceIdentity.Removed | controllers/capi_objects_utils.go:238-245 | the first entry with the id is deleted; entries before it keep their positions and later ones shift down by one; the result is a sub-multiset; an absent id leaves the list as it was |
| ResourceIdentity.LastIdWithName | controllers/capi_objects_utils.go:271-277 | the id is that of the last entry with the name, or "" when no entry has the name |
| ResourceIdentity.FindOvdcIdByStatusName | controllers/capi_objects_utils.go:266-277 | the search loop without an early exit returns the last matching entry's id |
| ResourceIdentity.LastIdWithNameStep | controllers/capi_objects_utils.go:272-276 | one more entry of the search replaces the id exactly when it has the name |
| ResourceIdentity.EffectiveStatusName | controllers/capi_objects_utils.go:261-264 | the status name when it is set, otherwise the spec name; empty only when both are empty |
| ResourceIdentity.UpsertRenamesEveryMatch | controllers/capi_objects_utils.go:211-219 | with distinct ids, every entry with the id has the new name afterwards, and ids stay distinct |
| ResourceIdentity.UpsertSameNameIsNoop | controllers/capi_objects_utils.go:212-218 | when the first entry with the id already has the name, the list is unchanged |
| ResourceIdentity.UpsertIdempotent | controllers/capi_objects_utils.go:204-225 | repeating an upsert changes nothing |
| ResourceIdentity.RemoveUndoesFreshUpsert | controllers/capi_objects_utils.go:222-243 | removing an id that an upsert just appended gives back the original list |
| ResourceIdentity.RemoveDropsUniqueId | controllers/capi_objects_utils.go:239-243 | with distinct ids, no entry with the id is left after a remove, and ids stay distinct |
| ResourceIdentity.AdoptedIdIsFoundByName | controllers/capi_objects_utils.go:272-286 | after the OVDC found by name is upserted under a new id, the next search by that name finds the id, so tracking moves to ids |
| ResourceIdentity.VcdCluster.UpdateVdcResource | controllers/capi_objects_utils.go:204-230 | an OVDC tag upserts (list becomes `Upserted` of the old list); any other tag fails with the unsupported-type error and leaves the list as it was; the other fields do not change |
| ResourceIdentity.VcdCluster.RemoveVcdResource | controllers/capi_objects_utils.go:235-250 | a present id: success, and the first entry is removed; an absent id: a not-found error, list unchanged; other tags: the unsupported-type error, list unchanged |
| ResourceIdentity.VcdCluster.CheckIfOvdcNameChange | controllers/capi_objects_utils.go:257-301 | the status name defaults to the spec name. No id found: name lookup, success gives changed=true, failure gives changed=false with an error. Id found: changed = (live name != spec name). NotFound by id removes the entry (last match's id) and returns an error. Any other failure leaves the list alone |
| Documents.NameAndNamespace | controllers/capi_objects_utils.go:54-59 | the kept keys are the object meta's keys restricted to name and namespace, with their values |
| Documents.KeepNameAndNamespace | controllers/capi_objects_utils.go:55-59 | the deleting loop over the object meta's keys leaves exactly its name and namespace entries |
| Documents.AfterTypeMeta | controllers/capi_objects_utils.go:37-47 | fails with the "typemeta" error exactly when "typemeta" is present and not a mapping; otherwise "typemeta" is gone, its entries override the top level, other entries are kept and no other key appears |
| Documents.AfterObjectMeta | controllers/capi_objects_utils.go:49-63 | fails with the "objectmeta" error exactly when "objectmeta" is present and not a mapping; otherwise "objectmeta" is gone, "metadata" holds its name and namespace, and every other entry is kept |
| Documents.Normalized | controllers/capi_objects_utils.go:36-65 | the only errors are the two not-a-mapping errors; on success neither legacy key is left |
| Documents.NormalizedFailsOnlyOnNonMapping | controllers/capi_objects_utils.go:37-53 | normalisation fails exactly when "typemeta", or "objectmeta" after the merge, is present and is not a mapping |
| Documents.NormalizedDropsLegacyKeys | controllers/capi_objects_utils.go:46-62 | after normalisation neither "typemeta" nor "objectmeta" is a key |
| Documents.NormalizedMergesTypeMeta | controllers/capi_objects_utils.go:42-46 | each "typemeta" entry ends up at the top level and overrides the earlier value. Exceptions: the two legacy keys, and a "metadata" that an "objectmeta" replaces |
| Documents.NormalizedKeepsNameAndNamespace | controllers/capi_objects_utils.go:54-61 | "metadata" is a mapping with exactly the name/namespace entries the object meta had |
| Documents.NormalizedKeepsOtherEntries | controllers/capi_objects_utils.go:36-65 | keys that are not legacy keys, not "metadata" and not in "typemeta" keep their values |
| Documents.NormalizedKeysBound | controllers/capi_objects_utils.go:36-65 | the result's keys come from the object, from "typemeta", or are "metadata" |
| Documents.ObjectMap.Delete | controllers/capi_objects_utils.go:81-83 | the mapping loses the key and nothing else |
| Documents.ObjectMap.FilterTypeMetaAndObjectMeta | controllers/capi_objects_utils.go:36-65 | success exactly when normalisation succeeds, and the mapping then becomes the normalised one. A bad "typemeta" leaves the mapping untouched. A bad "objectmeta" leaves the merge already applied |
| Projection.RenderedParts | controllers/capi_objects_utils.go:573-580 | one serialised document per object, in input order |
| Projection.SpecView | controllers/capi_objects_utils.go:80-88 | the object without "status" normalises exactly when neither legacy sub-document is a non-mapping; the view has no legacy key |
| Projection.StatusView | controllers/capi_objects_utils.go:111-119 | the same for the object without "spec" |
| Projection.Join | controllers/capi_objects_utils.go:582 | no parts give ""; otherwise the text starts with the first part |
| Projection.JoinSnoc | controllers/capi_objects_utils.go:582 | appending a part adds one separator and the part at the end of the joined text |
| Projection.JoinAppend | controllers/capi_objects_utils.go:582 | joining two non-empty runs puts exactly one separator between their joins |
| Projection.ProjectObject | controllers/capi_objects_utils.go:80-95 | drop the key, normalise, serialise: success exactly when normalisation succeeds; on failure the normalisation error comes back |
| Projection.YamlWithoutStatus | controllers/capi_objects_utils.go:67-96 | the output is the serialised spec view (object without "status", normalised) |
| Projection.GetK8sObjectStatus | controllers/capi_objects_utils.go:98-127 | the output is the serialised status view (object without "spec", normalised) |
| Projection.ProjectAll | controllers/capi_objects_utils.go:573-582 | success exactly when every object normalises. The output is the per-object documents joined with `---\n` in input order. Otherwise the error is the first failing object's, and there is no output |
| Projection.GetCapiYaml | controllers/capi_objects_utils.go:568-584 | the spec projection of all objects, all or nothing |
| Projection.GetCapiStatusYaml | controllers/capi_objects_utils.go:586-600 | the status projection of all objects, all or nothing |
| Projection.SpecViewDropsStatus | controllers/capi_objects_utils.go:80-88 | the spec view has no "status" key unless "typemeta" supplies one |
| Projection.StatusViewDropsSpec | controllers/capi_objects_utils.go:111-119 | the status view has no "spec" key unless "typemeta" supplies one |
| Projection.ViewsAgreeOutsideSpecAndStatus | controllers/capi_objects_utils.go:67-127 | both views succeed or fail together and agree on every key other than "spec" and "status", "metadata" included |
| Machines.MachinesInKcp | controllers/capi_objects_utils.go:413-421 | the nested owner-reference loop with its early exit yields exactly the owner filter of the list |
| Machines.KcpMembersAllOrNone | controllers/capi_objects_utils.go:413-421 | the owner filter keeps a list of owned machines whole and filters a list with no owned machine to [] |
| Machines.KcpMembersStep | controllers/capi_objects_utils.go:414-420 | one more machine of the listing is appended to the filter's result exactly when it is owned |
| Machines.KcpMembersAppend | controllers/capi_objects_utils.go:414-420 | the filter distributes over concatenation, so list order is kept |
| Machines.KcpMembersCount | controllers/capi_objects_utils.go:414-420 | an owned machine is kept as often as it occurs; an unowned one is never kept |
| Machines.KcpMembersOwned | controllers/capi_objects_utils.go:416-417 | every kept machine is owned by the control plane and is from the list, and the result is no longer than the list |
| Machines.GetAllMachinesInKcp | controllers/capi_objects_utils.go:406-423 | a listing failure is passed on; otherwise the result is the owner-filtered listing |
| NodePools.NodeStatusOfSpec | controllers/capi_objects_utils.go:442-445 | the status map has exactly the machine names as keys; each maps to the phase of the last machine with that name |
| NodePools.NodeStatusOfKeys | controllers/capi_objects_utils.go:442-445 | the status map's keys are exactly the machine names |
| NodePools.NodeStatusOfPhase | controllers/capi_objects_utils.go:443-444 | a machine with no later namesake has its phase under its name |
| NodePools.DesiredReplicas | controllers/capi_objects_utils.go:446-449 | the declared count, or 0 when unset; never negative for a non-negative declared count |
| NodePools.BuildNodeStatus | controllers/capi_objects_utils.go:479-482 | the status-map loop computes that map |
| NodePools.PoolFor | controllers/capi_objects_utils.go:446-460 | desired replicas are the declared count, or 0 when unset; available is the ready count; disk MB is the byte size divided by 1048576, rounded down; template attributes are copied; status keys are the machine names |
| NodePools.GetNodePoolList | controllers/capi_objects_utils.go:425-501 | success exactly when every read succeeds. Length is MDs + KCPs. Deployment pools come first, then control-plane pools (owner-filtered machines), each in list order. Duplicate names are not checked |
| Convergence.PassingGroup | controllers/capi_objects_utils.go:643-647 | a group that lists fine and has no blocking machine lets the scan go on to the next group |
| Convergence.Scan | controllers/capi_objects_utils.go:638-661 | the verdict of the scan; a verdict carrying an error is never "converged" |
| Convergence.KcpListing | controllers/capi_objects_utils.go:639-642 | a control plane's listing succeeds exactly when the cluster's machine listing does, with the same error otherwise |
| Convergence.KcpListings | controllers/capi_objects_utils.go:638-648 | one listing per control plane, in list order |
| Convergence.MdListings | controllers/capi_objects_utils.go:650-660 | one listing per deployment, in list order |
| Convergence.Listings | controllers/capi_objects_utils.go:638-661 | control-plane listings first (each succeeds with the cluster listing and holds only owned machines), then deployment listings; length is KCPs + MDs |
| Convergence.ScanAppend | controllers/capi_objects_utils.go:638-661 | scanning two runs gives the first run's verdict when it decides, otherwise the second run's |
| Convergence.StopsAt | controllers/capi_objects_utils.go:640-646 | at a failing listing the scan returns its error; at a listing with a blocking machine it returns "not converged" without error |
| Convergence.ScanErrorAt | controllers/capi_objects_utils.go:650-654 | a listing error reached after passing groups only is the scan's result, with that error |
| Convergence.ScanErrorIff | controllers/capi_objects_utils.go:638-661 | the scan reports an error exactly when some listing fails and every group before it passes |
| Convergence.AnyBlocks | controllers/capi_objects_utils.go:643-647 | the machine loop reports a block exactly when some machine declares a version other than the expected one |
| Convergence.ScanConvergedIff | controllers/capi_objects_utils.go:635-662 | converged exactly when every listing succeeds and no machine declares a version other than the expected one. An error implies not converged |
| Convergence.ScanShortCircuits | controllers/capi_objects_utils.go:643-646 | once the scan has decided (a mismatch or a listing error), later groups, readable or not, do not change the verdict |
| Convergence.HasClusterReconciledToDesiredK8Version | controllers/capi_objects_utils.go:635-662 | the nested loops with early returns compute the scan over control-plane listings followed by deployment listings |
| Credentials.GetTkgVersion | controllers/capi_objects_utils.go:24-30 | the TKGVERSION annotation, or "" when it is missing |
| Credentials.TrimTrailingNewlines | controllers/capi_objects_utils.go:615 | the result is a prefix of the input that does not end in a newline, and only newlines were cut |
| Credentials.TrimIsUnique | controllers/capi_objects_utils.go:614-622 | those three properties determine the trimmed string |
| Credentials.TrimIsIdempotent | controllers/capi_objects_utils.go:614-622 | trimming twice is trimming once |
| Credentials.Override | controllers/capi_objects_utils.go:614-622 | an absent key keeps the declared value; a present key gives a prefix of the secret value with no trailing newline, only newlines cut |
| Credentials.GetUserCredentialsForCluster | controllers/capi_objects_utils.go:602-631 | without a secret reference the declared values are kept. With one, a failed secret read is an error. Otherwise each secret key present overrides its value, trailing newlines trimmed. The result has no secret reference |
| Credentials.MergedSecretValuesHaveNoTrailingNewline | controllers/capi_objects_utils.go:614-622 | no value taken from the secret ends in a newline |
| Credentials.Redacted | controllers/capi_objects_utils.go:505-507 | username, password and refresh token become the redaction marker; the secret reference is kept |
| Credentials.RedactionForgetsSecrets | controllers/capi_objects_utils.go:504-511 | two credentials with the same secret reference redact to the same value, so no secret survives into the projection |

## Left out

- Kubernetes reads (`getAllMachineDeploymentsForCluster`, `getAllKubeadmControlPlaneForCluster`, `getAllCRSBindingForCluster`, the template getters, `getMachineListFromCluster`, `getAllMachinesInMachineDeployment`, the list part of `getAllMachinesInKCP`) are network I/O. They are replaced by the values and functions of `Machines.ClusterReader` and by the lookup parameters of the convergence check.
- VCD reads (`getOrgByName`, `getOrgByID`, `getOvdcByID`, `getOvdcByName`) are network I/O. They are replaced by the two lookup parameters of `CheckIfOvdcNameChange`. An org-lookup failure or a nil result counts as an error other than `EntityNotFound`.
- YAML marshalling and unmarshalling is a foreign library. Serialisation is the parameter `marshal`. Each object comes already decoded into its top-level mapping. Marshal and unmarshal errors, floating-point scalars and non-string keys are not represented; in Go, a non-string key would make the `k.(string)` assertion panic.
- `getK8sClusterObjects` collects objects through network reads. Its template order comes from Go map iteration and is not deterministic. Only its credential redaction is modelled (`Credentials.Redacted`); the projections take the object list as input.
- `insertVcdResourceIntoVcdCluster` and `getVcdResourceFromVcdCluster` always return nil and have no behaviour to model.
- The secret read in `getUserCredentialsForCluster` is network I/O. Its outcome is the `secret` parameter.
- The string value of `ResourceTypeOvdc` is defined outside controllers/capi_objects_utils.go. The tag is a closed datatype: `Ovdc` or `Unsupported(tag)`.
- NodePools.PoolFor: `int32` replica counts and the `int32` disk-size conversion are unbounded integers here, so overflow is not modelled. `resource.Quantity.Value()` is taken as a natural byte count.
- NodePools.GetNodePoolList: states that an error is returned when any read fails, not which error or the message that wraps it.
- Convergence.HasClusterReconciledToDesiredK8Version: a listing error is passed on without the message the code wraps around it.
- Projection.ProjectAll: the failing object's normalisation error is passed on without the messages `yamlWithoutStatus`, `getK8sObjectStatus`, `getCapiYaml` and `getCapiStatusYaml` wrap around it.
- Machines.GetAllMachinesInKcp: the listing error is passed on without its wrapping message.
- Error texts are modelled only in the rename check, as a context string wrapped around the cause. Elsewhere the cause is returned as it is. The code formats the cause into the message with `%v` (capi_objects_utils.go:283, 294), so a caller sees `ErrorEntityNotFound` only as text; `Wrapped(context, cause)` keeps the cause as a value a caller could match on, which the code does not offer.
