/**
 * Node-pool aggregation: one NodePool per MachineDeployment, then one per
 * KubeadmControlPlane, each in list order, each built from the group's
 * machine template, its replica counts and the phases of its machines.
 */
module NodePools {
  import opened Outcomes
  import opened Machines

  /** The node-pool record of the cluster's runtime description. */
  datatype NodePool = NodePool(
    name: string,
    sizingPolicy: string,
    placementPolicy: string,
    nvidiaGpuEnabled: bool,
    storageProfile: string,
    diskSizeMb: int,
    desiredReplicas: int,
    availableReplicas: int,
    nodeStatus: map<string, string>)

  const BytesPerMb := 1024 * 1024

  /** Machine name to phase, a later machine of the same name overwriting an earlier one. */
  function NodeStatusOf(machines: seq<Machine>): map<string, string> {
    if |machines| == 0 then map[]
    else
      var last := machines[|machines| - 1];
      NodeStatusOf(machines[..|machines| - 1])[last.name := last.phase]
  }

  /** The status map has exactly the machine names as keys. */
  lemma {:induction false} NodeStatusOfKeys(machines: seq<Machine>)
    ensures NodeStatusOf(machines).Keys == set m | m in machines :: m.name
  {
    if |machines| > 0 {
      var init := machines[..|machines| - 1];
      var last := machines[|machines| - 1];
      NodeStatusOfKeys(init);
      assert machines == init + [last];
      assert (set m | m in machines :: m.name) == (set m | m in init :: m.name) + {last.name};
    }
  }

  /** A machine with no later namesake has its phase recorded under its name. */
  lemma {:induction false} NodeStatusOfPhase(machines: seq<Machine>, k: nat)
    requires k < |machines|
    requires forall j | k < j < |machines| :: machines[j].name != machines[k].name
    ensures machines[k].name in NodeStatusOf(machines)
    ensures NodeStatusOf(machines)[machines[k].name] == machines[k].phase
  {
    var n := |machines| - 1;
    if k < n {
      NodeStatusOfPhase(machines[..n], k);
    }
  }

  /** The status map has one key per machine name and records the phase of the last machine of that name. */
  lemma NodeStatusOfSpec(machines: seq<Machine>)
    ensures NodeStatusOf(machines).Keys == set m | m in machines :: m.name
    ensures forall k | 0 <= k < |machines| && (forall j | k < j < |machines| :: machines[j].name != machines[k].name) ::
              NodeStatusOf(machines)[machines[k].name] == machines[k].phase
  {
    NodeStatusOfKeys(machines);
    forall k | 0 <= k < |machines| && (forall j | k < j < |machines| :: machines[j].name != machines[k].name)
      ensures NodeStatusOf(machines)[machines[k].name] == machines[k].phase
    {
      NodeStatusOfPhase(machines, k);
    }
  }

  /** The desired replica count: the declared one, or 0 when the spec leaves it unset. */
  function DesiredReplicas(replicas: Option<int>): (n: int)
    ensures replicas.Some? ==> n == replicas.value
    ensures replicas.None? ==> n == 0
    ensures (replicas.Some? ==> replicas.value >= 0) ==> n >= 0
  {
    match replicas
    case Some(n) => n
    case None => 0
  }

  /** The pool of one group, from its name, replica counts, machine template and machines. */
  function PoolFor(name: string, replicas: Option<int>, readyReplicas: int, template: VcdMachineTemplate,
                   machines: seq<Machine>): (p: NodePool)
    ensures p.name == name && p.availableReplicas == readyReplicas
    ensures p.desiredReplicas == (if replicas.Some? then replicas.value else 0)
    ensures p.diskSizeMb * BytesPerMb <= template.diskSizeBytes < (p.diskSizeMb + 1) * BytesPerMb
    ensures p.sizingPolicy == template.sizingPolicy && p.placementPolicy == template.placementPolicy
    ensures p.nvidiaGpuEnabled == template.enableNvidiaGpu && p.storageProfile == template.storageProfile
    ensures p.nodeStatus.Keys == set m | m in machines :: m.name
  {
    NodeStatusOfKeys(machines);
    NodePool(name, template.sizingPolicy, template.placementPolicy, template.enableNvidiaGpu,
             template.storageProfile, template.diskSizeBytes / BytesPerMb,
             DesiredReplicas(replicas), readyReplicas, NodeStatusOf(machines))
  }

  /** Every worker group's template and machine list can be read. */
  predicate MdGroupsReadable(reader: ClusterReader, mds: seq<MachineDeployment>) {
    forall i | 0 <= i < |mds| :: reader.mdTemplate(mds[i]).Ok? && reader.mdMachines(mds[i]).Ok?
  }

  /** Every control plane's template and the cluster's machine list in its namespace can be read. */
  predicate KcpGroupsReadable(reader: ClusterReader, kcps: seq<KubeadmControlPlane>) {
    forall i | 0 <= i < |kcps| :: reader.kcpTemplate(kcps[i]).Ok? && reader.clusterMachines(kcps[i]).Ok?
  }

  /** Every read the aggregation makes succeeds. */
  predicate Readable(reader: ClusterReader) {
    && reader.machineDeployments.Ok?
    && MdGroupsReadable(reader, reader.machineDeployments.value)
    && reader.controlPlanes.Ok?
    && KcpGroupsReadable(reader, reader.controlPlanes.value)
  }

  function MdPool(reader: ClusterReader, md: MachineDeployment): NodePool
    requires reader.mdTemplate(md).Ok? && reader.mdMachines(md).Ok?
  {
    PoolFor(md.name, md.replicas, md.readyReplicas, reader.mdTemplate(md).value, reader.mdMachines(md).value)
  }

  function KcpPool(reader: ClusterReader, kcp: KubeadmControlPlane): NodePool
    requires reader.kcpTemplate(kcp).Ok? && reader.clusterMachines(kcp).Ok?
  {
    PoolFor(kcp.name, kcp.replicas, kcp.readyReplicas, reader.kcpTemplate(kcp).value,
            KcpMembers(reader.clusterMachines(kcp).value, kcp.name))
  }

  /** The status-map loop of the aggregation. */
  method BuildNodeStatus(machines: seq<Machine>) returns (status: map<string, string>)
    ensures status == NodeStatusOf(machines)
  {
    status := map[];
    var i := 0;
    while i < |machines|
      invariant 0 <= i <= |machines|
      invariant status == NodeStatusOf(machines[..i])
    {
      assert machines[..i + 1][..i] == machines[..i];
      status := status[machines[i].name := machines[i].phase];
      i := i + 1;
    }
    assert machines[..|machines|] == machines;
  }

  /**
   * Build the node pools: worker groups first, then control planes, each in
   * list order; any failed read aborts the aggregation.  Pool names are not
   * checked for duplicates.
   */
  method GetNodePoolList(reader: ClusterReader) returns (r: Result<seq<NodePool>>)
    ensures r.Ok? <==> Readable(reader)
    ensures r.Ok? ==> |r.value| == |reader.machineDeployments.value| + |reader.controlPlanes.value|
    ensures r.Ok? ==> forall i | 0 <= i < |reader.machineDeployments.value| ::
              r.value[i] == MdPool(reader, reader.machineDeployments.value[i])
    ensures r.Ok? ==> forall i | 0 <= i < |reader.controlPlanes.value| ::
              r.value[|reader.machineDeployments.value| + i] == KcpPool(reader, reader.controlPlanes.value[i])
  {
    if reader.machineDeployments.Err? {
      return Err(reader.machineDeployments.error);
    }
    var mds := reader.machineDeployments.value;
    var pools: seq<NodePool> := [];
    var i := 0;
    while i < |mds|
      invariant 0 <= i <= |mds|
      invariant |pools| == i
      invariant forall j | 0 <= j < i :: reader.mdTemplate(mds[j]).Ok? && reader.mdMachines(mds[j]).Ok?
      invariant forall j | 0 <= j < i :: pools[j] == MdPool(reader, mds[j])
    {
      var md := mds[i];
      var template := reader.mdTemplate(md);
      if template.Err? {
        return Err(template.error);
      }
      var machines := reader.mdMachines(md);
      if machines.Err? {
        return Err(machines.error);
      }
      var status := BuildNodeStatus(machines.value);
      var t := template.value;
      var pool := NodePool(md.name, t.sizingPolicy, t.placementPolicy, t.enableNvidiaGpu, t.storageProfile,
                           t.diskSizeBytes / BytesPerMb, DesiredReplicas(md.replicas), md.readyReplicas, status);
      assert pool == MdPool(reader, md);
      pools := pools + [pool];
      i := i + 1;
    }

    if reader.controlPlanes.Err? {
      return Err(reader.controlPlanes.error);
    }
    var kcps := reader.controlPlanes.value;
    var k := 0;
    while k < |kcps|
      invariant 0 <= k <= |kcps|
      invariant |pools| == |mds| + k
      invariant forall j | 0 <= j < k :: reader.kcpTemplate(kcps[j]).Ok? && reader.clusterMachines(kcps[j]).Ok?
      invariant forall j | 0 <= j < |mds| :: pools[j] == MdPool(reader, mds[j])
      invariant forall j | 0 <= j < k :: pools[|mds| + j] == KcpPool(reader, kcps[j])
    {
      var kcp := kcps[k];
      var template := reader.kcpTemplate(kcp);
      if template.Err? {
        return Err(template.error);
      }
      var machines := GetAllMachinesInKcp(kcp, reader.clusterMachines(kcp));
      if machines.Err? {
        return Err(machines.error);
      }
      var status := BuildNodeStatus(machines.value);
      var t := template.value;
      var pool := NodePool(kcp.name, t.sizingPolicy, t.placementPolicy, t.enableNvidiaGpu, t.storageProfile,
                           t.diskSizeBytes / BytesPerMb, DesiredReplicas(kcp.replicas), kcp.readyReplicas, status);
      assert pool == KcpPool(reader, kcp);
      pools := pools + [pool];
      k := k + 1;
    }
    return Ok(pools);
  }
}
