/** The operations of migrate.ts performed on a `Cluster` in place. Each
    method leaves the cluster as, and returns what, its function in
    `MigrateSpec` says. */
module Migrate {
  import opened Base
  import opened Kube
  import opened Util
  import opened JobsSpec
  import opened MigrateSpec
  import Jobs

  method PatchReclaimRetain(api: Cluster, pvName: string) returns (r: Outcome<()>)
    modifies api
    ensures Step(r, api.Snapshot()) == MigrateSpec.PatchReclaimRetain(old(api.Snapshot()), pvName)
  {
    if pvName !in api.pvs {
      return Err(NotFound);
    }
    if PolicyOf(api.pvs[pvName]) == Some(Retain) {
      return Ok(());
    }
    r := api.PatchPv(pvName, SetReclaimPolicy(Retain));
  }

  /** The poll: one observed phase per read of the volume. */
  method WaitForRelease(api: Cluster, pvName: string, phases: seq<Option<Phase>>) returns (r: Outcome<()>)
    modifies api
    ensures Step(r, api.Snapshot()) == MigrateSpec.WaitForRelease(old(api.Snapshot()), pvName, phases)
  {
    var i := 0;
    while i < |phases|
      invariant i <= |phases|
      invariant MigrateSpec.WaitForRelease(old(api.Snapshot()), pvName, phases)
             == MigrateSpec.WaitForRelease(api.Snapshot(), pvName, phases[i..])
    {
      assert phases[i..][1..] == phases[i + 1..];
      api.ObservePhase(pvName, phases[i]);
      if pvName !in api.pvs {
        return Err(NotFound);
      }
      if api.pvs[pvName].phase == Some(Released) {
        return Ok(());
      }
      i := i + 1;
    }
    r := Waiting;
  }

  method RemoveClaimRef(api: Cluster, pvName: string) returns (r: Outcome<()>)
    modifies api
    ensures Step(r, api.Snapshot()) == MigrateSpec.RemoveClaimRef(old(api.Snapshot()), pvName)
  {
    if pvName !in api.pvs {
      return Err(NotFound);
    }
    if ClaimRefOf(api.pvs[pvName]).None? {
      return Ok(());
    }
    if api.pvs[pvName].phase != Some(Released) {
      return Err(Thrown(MustBeReleased));
    }
    r := api.PatchPv(pvName, PvPatch.RemoveClaimRef);
  }

  method DeleteClaimant(api: Cluster, pvName: string, namespace: string, phases: seq<Option<Phase>>) returns (r: Outcome<()>)
    modifies api
    ensures Step(r, api.Snapshot()) == MigrateSpec.DeleteClaimant(old(api.Snapshot()), pvName, namespace, phases)
  {
    if pvName !in api.pvs {
      return Err(NotFound);
    }
    if PolicyOf(api.pvs[pvName]) != Some(Retain) {
      return Err(Thrown(MustRetain));
    }
    var claim := ClaimantOf(api.pvs[pvName]);
    if claim.None? {
      return Ok(());
    }
    var deleted := api.DeletePvc(ObjectKey(namespace, claim.value));
    if !deleted.Ok? {
      return Ok(());
    }
    r := WaitForRelease(api, pvName, phases);
    if !r.Ok? {
      return;
    }
    r := RemoveClaimRef(api, pvName);
  }

  method PatchClaimRef(api: Cluster, pvName: string, claimer: string, namespace: string) returns (r: Outcome<()>)
    modifies api
    ensures Step(r, api.Snapshot()) == MigrateSpec.PatchClaimRef(old(api.Snapshot()), pvName, claimer, namespace)
  {
    if pvName !in api.pvs {
      return Err(NotFound);
    }
    if api.pvs[pvName].phase != Some(Available) {
      return Err(Thrown(MustBeAvailable));
    }
    r := api.PatchPv(pvName, SetClaimRef(namespace, claimer));
  }

  method PatchPvcVolume(api: Cluster, pvcName: string, toPvName: string, namespace: string) returns (r: Outcome<()>)
    modifies api
    ensures Step(r, api.Snapshot()) == MigrateSpec.PatchPvcVolume(old(api.Snapshot()), pvcName, toPvName, namespace)
  {
    var key := ObjectKey(namespace, pvcName);
    if key !in api.pvcs {
      return Err(NotFound);
    }
    var current := api.pvcs[key].volumeName;
    if !Truthy(current) {
      return Err(Thrown("PVC " + pvcName + " has no volumeName"));
    }
    if current.value == toPvName {
      return Ok(());
    }
    r := api.PatchPvc(key, toPvName);
  }

  method MakeDummyPvc(api: Cluster, pvcName: string, namespace: string) returns (r: Outcome<()>)
    modifies api
    ensures Step(r, api.Snapshot()) == MigrateSpec.MakeDummyPvc(old(api.Snapshot()), pvcName, namespace)
  {
    var _ := api.CreatePvc(ObjectKey(namespace, pvcName));
    r := Ok(());
  }

  method RebindPvcToPv(api: Cluster, pvcName: string, pvName: string, namespace: string, env: RebindEnv) returns (r: Outcome<()>)
    modifies api
    ensures Step(r, api.Snapshot()) == MigrateSpec.RebindPvcToPv(old(api.Snapshot()), pvcName, pvName, namespace, env)
  {
    var oldPv := GetPvcVolume(api.Snapshot(), pvcName, namespace);
    if !oldPv.Ok? {
      return oldPv.Propagate();
    }
    r := PatchReclaimRetain(api, oldPv.value);
    if !r.Ok? {
      return;
    }
    r := DeleteClaimant(api, oldPv.value, namespace, env.oldRelease);
    if !r.Ok? {
      return;
    }
    r := PatchReclaimRetain(api, pvName);
    if !r.Ok? {
      return;
    }
    r := DeleteClaimant(api, pvName, namespace, env.newRelease);
    if !r.Ok? {
      return;
    }
    api.ObservePhase(pvName, env.phaseAtBind);
    r := PatchClaimRef(api, pvName, pvcName, namespace);
  }

  /** `migrateStorage`, polling the copy job in `pollNamespace`: the default
      namespace as written, `namespace` as corrected. */
  method MigrateStorage(api: Cluster, existingPvcName: string, namespace: string, pollNamespace: string, env: MigrateEnv)
    returns (r: Outcome<()>)
    modifies api
    ensures Step(r, api.Snapshot()) == MigrateStorageIn(old(api.Snapshot()), existingPvcName, namespace, pollNamespace, env)
  {
    var dummy := DummyPvcName(existingPvcName);
    var _ := MakeDummyPvc(api, dummy, namespace);
    var created := api.SubmitJob(namespace, MigrateJobFor(existingPvcName));
    if !created.Ok? {
      return created.Propagate();
    }
    var jobName := AssertNonEmpty(Some(created.value.name), "bad migrate job");
    if !jobName.Ok? {
      return Err(Thrown(ErrorMessage("bad migrate job")));
    }
    var success, _, files := Jobs.WaitForJobCompletion(api, jobName.value, pollNamespace, env.job);
    api.Write(files);
    if !success.Ok? {
      return success.Propagate();
    }
    if !success.value {
      return Err(Thrown("Migrate job " + created.value.name + " failed"));
    }
    var key := ObjectKey(namespace, dummy);
    api.ObserveBinding(key, env.binding);
    if key !in api.pvcs {
      return Err(NotFound);
    }
    var dummyPv := AssertNonEmpty(api.pvcs[key].volumeName, "bad dummy PVC");
    if !dummyPv.Ok? {
      return dummyPv.Propagate();
    }
    r := RebindPvcToPv(api, existingPvcName, dummyPv.value, namespace, env.rebind);
  }
}
