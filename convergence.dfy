/**
 * The version-convergence check: scan the machines of every control plane,
 * then of every machine deployment, and report "not converged" at the first
 * machine that declares a Kubernetes version other than the expected one.
 * Machines that declare no version do not block.
 */
module Convergence {
  import opened Outcomes
  import opened Machines

  /** `m` declares a version and it is not `expected`. */
  predicate Blocks(m: Machine, expected: string) {
    m.version.Some? && m.version.value != expected
  }

  /** The outcome of a scan: the converged flag and the error, if a listing failed. */
  datatype Verdict = Verdict(converged: bool, err: Option<Error>)

  /** A group that lists fine and has no blocking machine. */
  predicate Passes(group: Result<seq<Machine>>, expected: string) {
    group.Ok? && forall m | m in group.value :: !Blocks(m, expected)
  }

  /** The scan over the member listings of the groups, in scan order. */
  function Scan(groups: seq<Result<seq<Machine>>>, expected: string): (v: Verdict)
    ensures v.err.Some? ==> !v.converged
  {
    if |groups| == 0 then Verdict(true, None)
    else match groups[0]
      case Err(e) => Verdict(false, Some(e))
      case Ok(machines) =>
        if exists m | m in machines :: Blocks(m, expected) then Verdict(false, None)
        else Scan(groups[1..], expected)
  }

  /** The member listing of a control plane: the cluster's machines filtered by owner. */
  function KcpListing(clusterMachines: KubeadmControlPlane -> Result<seq<Machine>>, kcp: KubeadmControlPlane)
    : (r: Result<seq<Machine>>)
    ensures r.Ok? <==> clusterMachines(kcp).Ok?
    ensures r.Err? ==> r.error == clusterMachines(kcp).error
    ensures r.Ok? ==> forall m | m in r.value :: OwnedByKcp(m, kcp.name) && m in clusterMachines(kcp).value
  {
    match clusterMachines(kcp)
    case Err(e) => Err(e)
    case Ok(ms) => KcpMembersOwned(ms, kcp.name); Ok(KcpMembers(ms, kcp.name))
  }

  /** The member listing of every control plane, in list order. */
  function KcpListings(kcps: seq<KubeadmControlPlane>, clusterMachines: KubeadmControlPlane -> Result<seq<Machine>>)
    : (groups: seq<Result<seq<Machine>>>)
    ensures |groups| == |kcps|
    ensures forall i | 0 <= i < |kcps| :: groups[i] == KcpListing(clusterMachines, kcps[i])
  {
    seq(|kcps|, i requires 0 <= i < |kcps| => KcpListing(clusterMachines, kcps[i]))
  }

  /** The machine listing of every deployment, in list order. */
  function MdListings(mds: seq<MachineDeployment>, mdMachines: MachineDeployment -> Result<seq<Machine>>)
    : (groups: seq<Result<seq<Machine>>>)
    ensures |groups| == |mds|
    ensures forall i | 0 <= i < |mds| :: groups[i] == mdMachines(mds[i])
  {
    seq(|mds|, i requires 0 <= i < |mds| => mdMachines(mds[i]))
  }

  /** The listings the check reads: every control plane's members, then every deployment's. */
  function Listings(kcps: seq<KubeadmControlPlane>, mds: seq<MachineDeployment>,
                    clusterMachines: KubeadmControlPlane -> Result<seq<Machine>>,
                    mdMachines: MachineDeployment -> Result<seq<Machine>>): (groups: seq<Result<seq<Machine>>>)
    ensures |groups| == |kcps| + |mds|
    ensures forall i | 0 <= i < |kcps| :: groups[i].Ok? <==> clusterMachines(kcps[i]).Ok?
    ensures forall i | 0 <= i < |kcps| :: groups[i].Ok? ==>
              forall m | m in groups[i].value :: OwnedByKcp(m, kcps[i].name)
    ensures forall i | 0 <= i < |mds| :: groups[|kcps| + i] == mdMachines(mds[i])
  {
    KcpListings(kcps, clusterMachines) + MdListings(mds, mdMachines)
  }

  /** The scan of two runs of groups: the first run's verdict if it decides, otherwise the second's. */
  lemma {:induction false} ScanAppend(a: seq<Result<seq<Machine>>>, b: seq<Result<seq<Machine>>>, expected: string)
    ensures Scan(a + b, expected) == if Scan(a, expected) == Verdict(true, None) then Scan(b, expected) else Scan(a, expected)
  {
    if |a| == 0 {
      assert a + b == b;
    } else {
      assert (a + b)[0] == a[0];
      assert (a + b)[1..] == a[1..] + b;
      ScanAppend(a[1..], b, expected);
    }
  }

  /** A group that lists fine and has no blocking machine lets the scan go on to the next. */
  lemma PassingGroup(groups: seq<Result<seq<Machine>>>, i: nat, expected: string)
    requires i < |groups| && groups[i].Ok?
    requires forall m | m in groups[i].value :: !Blocks(m, expected)
    ensures Scan(groups[i..], expected) == Scan(groups[i + 1..], expected)
  {
    assert groups[i..][1..] == groups[i + 1..];
  }

  /** Converged exactly when every listing succeeds and no listed machine blocks. */
  lemma {:induction false} ScanConvergedIff(groups: seq<Result<seq<Machine>>>, expected: string)
    ensures Scan(groups, expected).converged <==>
              forall i | 0 <= i < |groups| ::
                groups[i].Ok? && forall m | m in groups[i].value :: !Blocks(m, expected)
    ensures Scan(groups, expected).err.Some? ==> !Scan(groups, expected).converged
  {
    if |groups| > 0 {
      ScanConvergedIff(groups[1..], expected);
      assert forall i | 1 <= i < |groups| :: groups[i] == groups[1..][i - 1];
    }
  }

  /** A listing error reached after passing groups only is the scan's error. */
  lemma {:induction false} ScanErrorAt(groups: seq<Result<seq<Machine>>>, i: nat, e: Error, expected: string)
    requires i < |groups| && groups[i] == Err(e)
    requires forall j | 0 <= j < i :: Passes(groups[j], expected)
    ensures Scan(groups, expected) == Verdict(false, Some(e))
  {
    if i > 0 {
      ScanErrorAt(groups[1..], i - 1, e, expected);
    }
  }

  /** The scan reports an error exactly when a listing fails before any group blocks. */
  lemma {:induction false} ScanErrorIff(groups: seq<Result<seq<Machine>>>, expected: string)
    ensures Scan(groups, expected).err.Some? <==>
              exists i | 0 <= i < |groups| :: groups[i].Err? && forall j | 0 <= j < i :: Passes(groups[j], expected)
  {
    if |groups| > 0 {
      ScanErrorIff(groups[1..], expected);
      if Scan(groups, expected).err.Some? {
        if groups[0].Err? {
          assert groups[0].Err?;
        } else {
          var i :| 0 <= i < |groups[1..]| && groups[1..][i].Err? &&
                   forall j | 0 <= j < i :: Passes(groups[1..][j], expected);
          assert Passes(groups[0], expected);
          assert groups[i + 1].Err? && forall j | 0 <= j < i + 1 :: Passes(groups[j], expected);
        }
      } else {
        forall i | 0 <= i < |groups| && groups[i].Err?
          ensures !forall j | 0 <= j < i :: Passes(groups[j], expected)
        {
          if forall j | 0 <= j < i :: Passes(groups[j], expected) {
            ScanErrorAt(groups, i, groups[i].error, expected);
          }
        }
      }
    }
  }

  /**
   * The scan stops at the first blocking machine: whatever the groups after
   * the first failing one hold, and whether or not they can be listed, the
   * verdict is the same.
   */
  lemma {:induction false} ScanShortCircuits(done: seq<Result<seq<Machine>>>, later: seq<Result<seq<Machine>>>,
                                             expected: string)
    requires Scan(done, expected) != Verdict(true, None)
    ensures Scan(done + later, expected) == Scan(done, expected)
  {
    if |done| > 0 {
      assert (done + later)[0] == done[0];
      assert (done + later)[1..] == done[1..] + later;
      if done[0].Ok? && !(exists m | m in done[0].value :: Blocks(m, expected)) {
        ScanShortCircuits(done[1..], later, expected);
      }
    }
  }

  /** The scan from group `i` on stops at `i` when that group fails to list or blocks. */
  lemma StopsAt(groups: seq<Result<seq<Machine>>>, i: nat, expected: string)
    requires i < |groups|
    ensures groups[i].Err? ==> Scan(groups[i..], expected) == Verdict(false, Some(groups[i].error))
    ensures groups[i].Ok? && (exists m | m in groups[i].value :: Blocks(m, expected)) ==>
              Scan(groups[i..], expected) == Verdict(false, None)
  {
    assert groups[i..][0] == groups[i];
  }

  /** The inner loop of the check: does some machine of the listing declare another version? */
  method AnyBlocks(machines: seq<Machine>, expected: string) returns (blocked: bool)
    ensures blocked <==> exists m | m in machines :: Blocks(m, expected)
  {
    var j := 0;
    while j < |machines|
      invariant 0 <= j <= |machines|
      invariant forall k | 0 <= k < j :: !Blocks(machines[k], expected)
    {
      var m := machines[j];
      if m.version.Some? && m.version.value != expected {
        assert Blocks(m, expected) && m in machines;
        return true;
      }
      j := j + 1;
    }
    return false;
  }

  /**
   * Scan the control planes' machines and then the deployments' machines;
   * return "not converged" at the first blocking machine and an error at the
   * first listing that fails.
   */
  method HasClusterReconciledToDesiredK8Version(
    kcps: seq<KubeadmControlPlane>, mds: seq<MachineDeployment>,
    clusterMachines: KubeadmControlPlane -> Result<seq<Machine>>,
    mdMachines: MachineDeployment -> Result<seq<Machine>>,
    expected: string)
    returns (converged: bool, err: Option<Error>)
    ensures Verdict(converged, err) == Scan(Listings(kcps, mds, clusterMachines, mdMachines), expected)
  {
    ghost var kcpGroups := KcpListings(kcps, clusterMachines);
    ghost var mdGroups := MdListings(mds, mdMachines);
    ScanAppend(kcpGroups, mdGroups, expected);
    var i := 0;
    while i < |kcps|
      invariant 0 <= i <= |kcps|
      invariant Scan(kcpGroups, expected) == Scan(kcpGroups[i..], expected)
    {
      var kcp := kcps[i];
      var machines := GetAllMachinesInKcp(kcp, clusterMachines(kcp));
      assert kcpGroups[i] == machines;
      StopsAt(kcpGroups, i, expected);
      if machines.Err? {
        return false, Some(machines.error);
      }
      var blocked := AnyBlocks(machines.value, expected);
      if blocked {
        return false, None;
      }
      PassingGroup(kcpGroups, i, expected);
      i := i + 1;
    }
    assert kcpGroups[i..] == [];

    i := 0;
    while i < |mds|
      invariant 0 <= i <= |mds|
      invariant Scan(mdGroups, expected) == Scan(mdGroups[i..], expected)
    {
      var md := mds[i];
      var machines := mdMachines(md);
      StopsAt(mdGroups, i, expected);
      if machines.Err? {
        return false, Some(machines.error);
      }
      var blocked := AnyBlocks(machines.value, expected);
      if blocked {
        return false, None;
      }
      PassingGroup(mdGroups, i, expected);
      i := i + 1;
    }
    assert mdGroups[i..] == [];
    return true, None;
  }
}
