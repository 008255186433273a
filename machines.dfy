/**
 * The Cluster API objects the node-pool aggregation and the convergence
 * check read, and the Kubernetes reads they need, given as values (a list
 * result) or as functions (a lookup per object) that return the object or an
 * error.  Also the control-plane membership filter: a machine belongs to a
 * KubeadmControlPlane when one of its owner references names it.
 */
module Machines {
  import opened Outcomes

  datatype OwnerReference = OwnerReference(kind: string, name: string)

  /** A Cluster API machine: name, lifecycle phase, optional Kubernetes version, owners. */
  datatype Machine = Machine(name: string, phase: string, version: Option<string>, ownerRefs: seq<OwnerReference>)

  /** A worker group; `replicas` is optional in its spec, `readyReplicas` comes from its status. */
  datatype MachineDeployment = MachineDeployment(name: string, replicas: Option<int>, readyReplicas: int)

  /** A control-plane group, shaped like a worker group for what is read here. */
  datatype KubeadmControlPlane = KubeadmControlPlane(name: string, replicas: Option<int>, readyReplicas: int)

  /** The sizing and placement attributes of a VCDMachineTemplate; the disk size is in bytes. */
  datatype VcdMachineTemplate = VcdMachineTemplate(
    sizingPolicy: string,
    placementPolicy: string,
    enableNvidiaGpu: bool,
    storageProfile: string,
    diskSizeBytes: nat)

  /**
   * What the Kubernetes API returns for one cluster: the two group lists, the
   * machine template each group refers to, the machines labelled with a
   * MachineDeployment's name, and the machines labelled with the cluster's name
   * in a control plane's namespace.
   */
  datatype ClusterReader = ClusterReader(
    machineDeployments: Result<seq<MachineDeployment>>,
    controlPlanes: Result<seq<KubeadmControlPlane>>,
    mdTemplate: MachineDeployment -> Result<VcdMachineTemplate>,
    kcpTemplate: KubeadmControlPlane -> Result<VcdMachineTemplate>,
    mdMachines: MachineDeployment -> Result<seq<Machine>>,
    clusterMachines: KubeadmControlPlane -> Result<seq<Machine>>)

  const KcpKind := "KubeadmControlPlane"

  /** `m` has an owner reference of kind KubeadmControlPlane naming `kcpName`. */
  predicate OwnedByKcp(m: Machine, kcpName: string) {
    exists j | 0 <= j < |m.ownerRefs| :: m.ownerRefs[j].kind == KcpKind && m.ownerRefs[j].name == kcpName
  }

  /** Every machine of the list is owned by control plane `kcpName`. */
  predicate AllOwned(machines: seq<Machine>, kcpName: string) {
    forall i | 0 <= i < |machines| :: OwnedByKcp(machines[i], kcpName)
  }

  /** No machine of the list is owned by control plane `kcpName`. */
  predicate NoneOwned(machines: seq<Machine>, kcpName: string) {
    forall i | 0 <= i < |machines| :: !OwnedByKcp(machines[i], kcpName)
  }

  /** The machines owned by control plane `kcpName`, in list order. */
  function KcpMembers(machines: seq<Machine>, kcpName: string): seq<Machine> {
    if |machines| == 0 then []
    else
      var last := machines[|machines| - 1];
      KcpMembers(machines[..|machines| - 1], kcpName) + (if OwnedByKcp(last, kcpName) then [last] else [])
  }

  /** A list of owned machines is kept whole; a list without one is filtered to nothing. */
  lemma {:induction false} KcpMembersAllOrNone(machines: seq<Machine>, kcpName: string)
    ensures AllOwned(machines, kcpName) ==> KcpMembers(machines, kcpName) == machines
    ensures NoneOwned(machines, kcpName) ==> KcpMembers(machines, kcpName) == []
  {
    if |machines| > 0 {
      var init := machines[..|machines| - 1];
      KcpMembersAllOrNone(init, kcpName);
      assert machines == init + [machines[|machines| - 1]];
    }
  }

  /** The filter distributes over concatenation, so it keeps the list order. */
  lemma {:induction false} KcpMembersAppend(a: seq<Machine>, b: seq<Machine>, kcpName: string)
    ensures KcpMembers(a + b, kcpName) == KcpMembers(a, kcpName) + KcpMembers(b, kcpName)
  {
    if |b| == 0 {
      assert a + b == a;
    } else {
      assert (a + b)[..|a + b| - 1] == a + b[..|b| - 1];
      KcpMembersAppend(a, b[..|b| - 1], kcpName);
    }
  }

  /** Each owned machine is kept as often as it occurs; nothing else is kept. */
  lemma {:induction false} KcpMembersCount(machines: seq<Machine>, kcpName: string, m: Machine)
    ensures multiset(KcpMembers(machines, kcpName))[m] ==
              if OwnedByKcp(m, kcpName) then multiset(machines)[m] else 0
  {
    if |machines| > 0 {
      var init := machines[..|machines| - 1];
      KcpMembersCount(init, kcpName, m);
      assert machines == init + [machines[|machines| - 1]];
    }
  }

  /** Every kept machine is owned by the control plane and came from the list. */
  lemma {:induction false} KcpMembersOwned(machines: seq<Machine>, kcpName: string)
    ensures |KcpMembers(machines, kcpName)| <= |machines|
    ensures forall m | m in KcpMembers(machines, kcpName) :: OwnedByKcp(m, kcpName) && m in machines
  {
    forall m | m in KcpMembers(machines, kcpName)
      ensures OwnedByKcp(m, kcpName) && m in machines
    {
      KcpMembersCount(machines, kcpName, m);
      assert multiset(KcpMembers(machines, kcpName))[m] > 0;
    }
    if |machines| > 0 {
      KcpMembersOwned(machines[..|machines| - 1], kcpName);
    }
  }

  /** One more machine: the filter of the longer prefix keeps it exactly when it is owned. */
  lemma KcpMembersStep(machines: seq<Machine>, i: nat, kcpName: string)
    requires i < |machines|
    ensures KcpMembers(machines[..i + 1], kcpName) ==
              KcpMembers(machines[..i], kcpName) + (if OwnedByKcp(machines[i], kcpName) then [machines[i]] else [])
  {
    assert machines[..i + 1][..i] == machines[..i];
  }

  /** The owner-reference loop: stop at the first matching reference of each machine. */
  method MachinesInKcp(machines: seq<Machine>, kcpName: string) returns (members: seq<Machine>)
    ensures members == KcpMembers(machines, kcpName)
  {
    members := [];
    var i := 0;
    while i < |machines|
      invariant 0 <= i <= |machines|
      invariant members == KcpMembers(machines[..i], kcpName)
    {
      var m := machines[i];
      KcpMembersStep(machines, i, kcpName);
      ghost var before := members;
      var j := 0;
      while j < |m.ownerRefs|
        invariant 0 <= j <= |m.ownerRefs|
        invariant members == before
        invariant forall k | 0 <= k < j :: !(m.ownerRefs[k].kind == KcpKind && m.ownerRefs[k].name == kcpName)
      {
        var ref := m.ownerRefs[j];
        if ref.kind == KcpKind && ref.name == kcpName {
          assert OwnedByKcp(m, kcpName);
          members := members + [m];
          break;
        }
        j := j + 1;
      }
      i := i + 1;
    }
    assert machines[..|machines|] == machines;
  }

  /** The machines of one control plane: the cluster's machines listing, then the owner filter. */
  method GetAllMachinesInKcp(kcp: KubeadmControlPlane, clusterMachines: Result<seq<Machine>>)
    returns (r: Result<seq<Machine>>)
    ensures r.Ok? <==> clusterMachines.Ok?
    ensures r.Err? ==> r.error == clusterMachines.error
    ensures r.Ok? ==> r.value == KcpMembers(clusterMachines.value, kcp.name)
  {
    match clusterMachines
    case Err(e) =>
      return Err(e);
    case Ok(machines) =>
      var members := MachinesInKcp(machines, kcp.name);
      return Ok(members);
  }
}
