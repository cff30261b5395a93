/** `cleanupPvs`, `fixReclaimPolicy` and `fixReclaimPolicies` (main.ts)
    performed on a `Cluster` in place, each as its function in
    `MaintenanceSpec` says. */
module Maintenance {
  import opened Base
  import opened Kube
  import opened MaintenanceSpec
  import Migrate

  method CleanupOne(api: Cluster, item: ListedPv, yes: bool, pvcNamespace: string, ans: Answers) returns (r: Outcome<()>)
    modifies api
    ensures Step(r, api.Snapshot()) == MaintenanceSpec.CleanupOne(old(api.Snapshot()), item, yes, pvcNamespace, ans)
  {
    if !Eligible(item) || !(yes || ans.deletePv) {
      return Ok(());
    }
    var name := item.name.value;
    var phase := item.pv.phase;
    if phase == Some(Available) {
      r := api.DeletePv(name);
    } else if phase == Some(Released) {
      r := Migrate.RemoveClaimRef(api, name);
      if !r.Ok? {
        return;
      }
      r := api.DeletePv(name);
    } else if phase == Some(Bound) {
      var claim := ClaimKey(item, pvcNamespace);
      if claim.None? || !(yes || ans.deletePvc) {
        return Ok(());
      }
      if PolicyOf(item.pv) == Some(Retain) {
        r := api.PatchPv(name, SetReclaimPolicy(Delete));
        if !r.Ok? {
          return;
        }
      }
      r := api.DeletePvc(claim.value);
    } else {
      r := Ok(());
    }
  }

  method CleanupPvs(api: Cluster, items: seq<ListedPv>, yes: bool, pvcNamespace: string, answers: seq<Answers>)
    returns (r: Outcome<()>)
    modifies api
    ensures Step(r, api.Snapshot()) == MaintenanceSpec.CleanupPvs(old(api.Snapshot()), items, yes, pvcNamespace, answers)
  {
    for i := 0 to |items|
      invariant Step(Ok(()), api.Snapshot()) == MaintenanceSpec.CleanupPvs(old(api.Snapshot()), items[..i], yes, pvcNamespace, answers)
    {
      CleanupOneMore(old(api.Snapshot()), items, i, yes, pvcNamespace, answers);
      r := CleanupOne(api, items[i], yes, pvcNamespace, AnswersAt(answers, i));
      if !r.Ok? {
        CleanupStopsAtFailure(old(api.Snapshot()), items, i + 1, yes, pvcNamespace, answers);
        return;
      }
    }
    assert items[..|items|] == items;
    r := Ok(());
  }

  method FixReclaimPolicy(api: Cluster, pvName: string) returns (r: Outcome<()>)
    modifies api
    ensures Step(r, api.Snapshot()) == MaintenanceSpec.FixReclaimPolicy(old(api.Snapshot()), pvName)
  {
    if pvName !in api.pvs {
      return Err(NotFound);
    }
    if PolicyOf(api.pvs[pvName]) == Some(Delete) {
      return Ok(());
    }
    r := api.PatchPv(pvName, SetReclaimPolicy(Delete));
  }

  method FixReclaimPolicies(api: Cluster, items: seq<ListedPv>, yes: bool, answers: seq<bool>) returns (r: Outcome<()>)
    modifies api
    ensures Step(r, api.Snapshot()) == MaintenanceSpec.FixReclaimPolicies(old(api.Snapshot()), items, yes, answers)
  {
    for i := 0 to |items|
      invariant Step(Ok(()), api.Snapshot()) == MaintenanceSpec.FixReclaimPolicies(old(api.Snapshot()), items[..i], yes, answers)
    {
      FixOneMore(old(api.Snapshot()), items, i, yes, answers);
      if FixEligible(items[i]) && (yes || ConfirmedAt(answers, i)) {
        r := FixReclaimPolicy(api, items[i].name.value);
        if !r.Ok? {
          FixStopsAtFailure(old(api.Snapshot()), items, i + 1, yes, answers);
          return;
        }
      }
    }
    assert items[..|items|] == items;
    r := Ok(());
  }
}
