/** The cluster as the program sees it through its API client: persistent
    volumes by name, claims, pods and jobs by namespace and name, the log of
    mutating calls the program has issued, and the log files it has written to
    local disk. Each API primitive is a function on the `State` value and a
    method of the `Cluster` object that performs it in place. */
module Kube {
  import opened Base

  datatype Policy = Retain | Delete | Recycle
  datatype Phase = Pending | Available | Bound | Released | Failed

  /** `spec.claimRef` of a volume; both fields are optional in the API. */
  datatype ClaimRef = ClaimRef(namespace: Option<string>, name: Option<string>)
  datatype PvSpec = PvSpec(reclaimPolicy: Option<Policy>, claimRef: Option<ClaimRef>, storageClassName: Option<string>)
  /** A persistent volume: its spec, if any, and `status.phase`, if any. */
  datatype Pv = Pv(spec: Option<PvSpec>, phase: Option<Phase>)
  /** A persistent volume claim: `spec.volumeName`, if any. */
  datatype Pvc = Pvc(volumeName: Option<string>)
  /** A pod volume: `persistentVolumeClaim?.claimName`, if any. */
  datatype PodVolume = PodVolume(claimName: Option<string>)
  /** A pod: `spec.volumes`, if any. */
  datatype Pod = Pod(volumes: Option<seq<PodVolume>>)
  datatype ObjectKey = ObjectKey(namespace: string, name: string)

  /** A batch job, with the fields the program sets. */
  datatype VolumeMount = VolumeMount(mountPath: string, name: string, readOnly: bool)
  datatype Container = Container(name: string, image: string, command: seq<string>, args: seq<string>, volumeMounts: seq<VolumeMount>)
  datatype JobVolume = JobVolume(name: string, claimName: string)
  datatype Job = Job(
    apiVersion: string,
    kind: Option<string>,
    name: string,
    ttlSecondsAfterFinished: nat,
    backoffLimit: nat,
    containers: seq<Container>,
    restartPolicy: string,
    volumes: seq<JobVolume>)

  /** The first mount at `path` in a list of volume mounts. */
  function FindMount(ms: seq<VolumeMount>, path: string): (m: Option<VolumeMount>)
    ensures m.Some? ==> m.value in ms && m.value.mountPath == path
    ensures m.None? ==> forall i :: 0 <= i < |ms| ==> ms[i].mountPath != path
  {
    if |ms| == 0 then None else if ms[0].mountPath == path then Some(ms[0]) else FindMount(ms[1..], path)
  }

  /** The first pod volume called `name`. */
  function FindVolume(vs: seq<JobVolume>, name: string): (v: Option<JobVolume>)
    ensures v.Some? ==> v.value in vs && v.value.name == name
    ensures v.None? ==> forall i :: 0 <= i < |vs| ==> vs[i].name != name
  {
    if |vs| == 0 then None else if vs[0].name == name then Some(vs[0]) else FindVolume(vs[1..], name)
  }

  /** The claim whose volume the job's first container sees at `path`,
      following the mount's volume name to the pod volume of that name. */
  function ClaimMountedAt(j: Job, path: string): Option<string> {
    if |j.containers| == 0 then None
    else
      var m := FindMount(j.containers[0].volumeMounts, path);
      if m.None? then None
      else
        var v := FindVolume(j.volumes, m.value.name);
        if v.None? then None else Some(v.value.claimName)
  }

  /** Whether the first container's mount at `path` is read-only. */
  function ReadOnlyAt(j: Job, path: string): Option<bool> {
    if |j.containers| == 0 then None
    else
      var m := FindMount(j.containers[0].volumeMounts, path);
      if m.None? then None else Some(m.value.readOnly)
  }

  /** The orchestrator has bound a claim to the volume `pvName`, described by `pv`. */
  datatype Binding = Binding(pvName: string, pv: Pv)

  const EmptySpec := PvSpec(None, None, None)

  function PolicyOf(pv: Pv): Option<Policy> {
    if pv.spec.Some? then pv.spec.value.reclaimPolicy else None
  }

  function ClaimRefOf(pv: Pv): Option<ClaimRef> {
    if pv.spec.Some? then pv.spec.value.claimRef else None
  }

  function StorageClassOf(pv: Pv): Option<string> {
    if pv.spec.Some? then pv.spec.value.storageClassName else None
  }

  /** `spec.claimRef.name` when the volume has a claimRef with a non-empty name. */
  function ClaimantOf(pv: Pv): (c: Option<string>)
    ensures c.Some? <==> ClaimRefOf(pv).Some? && Truthy(ClaimRefOf(pv).value.name)
    ensures c.Some? ==> c.value != "" && ClaimRefOf(pv).value.name == Some(c.value)
  {
    var ref := ClaimRefOf(pv);
    if ref.Some? && Truthy(ref.value.name) then ref.value.name else None
  }

  /** The patches the program sends to volumes: two strategic-merge patches of
      the spec and one json-patch that removes `/spec/claimRef`. */
  datatype PvPatch =
    | SetReclaimPolicy(policy: Policy)
    | RemoveClaimRef
    | SetClaimRef(namespace: string, name: string)

  /** The volume after a patch: a merge patch sets one field of the spec
      (creating the spec if there was none) and keeps every other field. */
  function Patched(pv: Pv, p: PvPatch): (q: Pv)
    ensures q.phase == pv.phase && q.spec.Some?
    ensures p.SetReclaimPolicy? ==>
      PolicyOf(q) == Some(p.policy) && ClaimRefOf(q) == ClaimRefOf(pv) && StorageClassOf(q) == StorageClassOf(pv)
    ensures p.RemoveClaimRef? ==>
      ClaimRefOf(q) == None && PolicyOf(q) == PolicyOf(pv) && StorageClassOf(q) == StorageClassOf(pv)
    ensures p.SetClaimRef? ==>
      ClaimRefOf(q) == Some(ClaimRef(Some(p.namespace), Some(p.name)))
      && PolicyOf(q) == PolicyOf(pv) && StorageClassOf(q) == StorageClassOf(pv)
  {
    var sp := pv.spec.GetOr(EmptySpec);
    match p
    case SetReclaimPolicy(policy) => pv.(spec := Some(sp.(reclaimPolicy := Some(policy))))
    case RemoveClaimRef => pv.(spec := Some(sp.(claimRef := None)))
    case SetClaimRef(ns, name) => pv.(spec := Some(sp.(claimRef := Some(ClaimRef(Some(ns), Some(name))))))
  }

  /** A mutating API call, recorded when it is issued, whether or not the API
      accepts it. The names are those of the client's methods. */
  datatype Call =
    | PatchPersistentVolume(pvName: string, patch: PvPatch)
    | DeletePersistentVolume(pvName: string)
    | DeletePersistentVolumeClaim(namespace: string, claimName: string)
    | PatchPersistentVolumeClaim(namespace: string, claimName: string, volumeName: string)
    | CreatePersistentVolumeClaim(namespace: string, claimName: string)
    | CreateJob(namespace: string, jobName: string)

  /** The outcome of an operation together with the state it leaves behind. */
  datatype Step<T> = Step(outcome: Outcome<T>, state: State)

  datatype State = State(
    pvs: map<string, Pv>,
    pvcs: map<ObjectKey, Pvc>,
    pods: map<ObjectKey, Pod>,
    jobs: map<ObjectKey, Job>,
    calls: seq<Call>,
    written: seq<string>)
  {
    function Issue(c: Call): State {
      this.(calls := calls + [c])
    }

    /** `patchPersistentVolume`: fails for a missing volume, and a json-patch
        removing a claimRef fails when there is none. */
    function PatchPv(name: string, p: PvPatch): (r: Step<()>)
      ensures r.outcome.Ok? <==> name in pvs && (p.RemoveClaimRef? ==> ClaimRefOf(pvs[name]).Some?)
      ensures r.outcome.Err? || r.outcome.Ok?
      ensures r.outcome.Ok? ==> r.state == Issue(PatchPersistentVolume(name, p)).(pvs := pvs[name := Patched(pvs[name], p)])
      ensures !r.outcome.Ok? ==> r.state == Issue(PatchPersistentVolume(name, p))
    {
      var t := Issue(PatchPersistentVolume(name, p));
      if name !in pvs then Step(Err(NotFound), t)
      else if p.RemoveClaimRef? && ClaimRefOf(pvs[name]).None? then Step(Err(Invalid), t)
      else Step(Ok(()), t.(pvs := pvs[name := Patched(pvs[name], p)]))
    }

    /** `deletePersistentVolume`. */
    function DeletePv(name: string): (r: Step<()>)
      ensures r.outcome.Ok? <==> name in pvs
      ensures r.outcome.Ok? || r.outcome == Err(NotFound)
      ensures r.state.calls == calls + [DeletePersistentVolume(name)]
      ensures r.state == Issue(DeletePersistentVolume(name)).(pvs := r.state.pvs)
      ensures r.state.pvs == pvs - {name}
    {
      var t := Issue(DeletePersistentVolume(name));
      if name in pvs then Step(Ok(()), t.(pvs := pvs - {name})) else Step(Err(NotFound), t)
    }

    /** `deletePersistentVolumeClaim` in a namespace. */
    function DeletePvc(key: ObjectKey): (r: Step<()>)
      ensures r.outcome.Ok? <==> key in pvcs
      ensures r.outcome.Ok? || r.outcome == Err(NotFound)
      ensures r.state == Issue(DeletePersistentVolumeClaim(key.namespace, key.name)).(pvcs := pvcs - {key})
    {
      var t := Issue(DeletePersistentVolumeClaim(key.namespace, key.name));
      if key in pvcs then Step(Ok(()), t.(pvcs := pvcs - {key})) else Step(Err(NotFound), t)
    }

    /** `patchPersistentVolumeClaim` with a merge patch of `spec.volumeName`. */
    function PatchPvc(key: ObjectKey, volumeName: string): (r: Step<()>)
      ensures r.outcome.Ok? <==> key in pvcs
      ensures r.outcome.Ok? || r.outcome == Err(NotFound)
      ensures r.outcome.Ok? ==> r.state.pvcs == pvcs[key := Pvc(Some(volumeName))]
      ensures r.state == Issue(PatchPersistentVolumeClaim(key.namespace, key.name, volumeName)).(pvcs := r.state.pvcs)
      ensures !r.outcome.Ok? ==> r.state.pvcs == pvcs
    {
      var t := Issue(PatchPersistentVolumeClaim(key.namespace, key.name, volumeName));
      if key in pvcs then Step(Ok(()), t.(pvcs := pvcs[key := Pvc(Some(volumeName))])) else Step(Err(NotFound), t)
    }

    /** `createPersistentVolumeClaim`: a new claim is not bound to any volume yet. */
    function CreatePvc(key: ObjectKey): (r: Step<()>)
      ensures r.outcome.Ok? <==> key !in pvcs
      ensures r.outcome.Ok? || r.outcome == Err(AlreadyExists)
      ensures key in r.state.pvcs
      ensures r.state == Issue(CreatePersistentVolumeClaim(key.namespace, key.name)).(pvcs := r.state.pvcs)
      ensures r.state.pvcs == if key in pvcs then pvcs else pvcs[key := Pvc(None)]
    {
      var t := Issue(CreatePersistentVolumeClaim(key.namespace, key.name));
      if key in pvcs then Step(Err(AlreadyExists), t) else Step(Ok(()), t.(pvcs := pvcs[key := Pvc(None)]))
    }

    /** `createJob` in a namespace; the created job is returned. */
    function SubmitJob(namespace: string, job: Job): (r: Step<Job>)
      ensures r.outcome.Ok? <==> ObjectKey(namespace, job.name) !in jobs
      ensures r.outcome.Ok? ==> r.outcome.value == job
      ensures r.outcome.Ok? || r.outcome == Err(AlreadyExists)
      ensures r.state == Issue(CreateJob(namespace, job.name)).(jobs := r.state.jobs)
      ensures ObjectKey(namespace, job.name) in r.state.jobs
      ensures r.state.jobs == if r.outcome.Ok? then jobs[ObjectKey(namespace, job.name) := job] else jobs
    {
      var key := ObjectKey(namespace, job.name);
      var t := Issue(CreateJob(namespace, job.name));
      if key in jobs then Step(Err(AlreadyExists), t) else Step(Ok(job), t.(jobs := jobs[key := job]))
    }

    /** The orchestrator's phase for volume `name` has become visible. */
    function ObservePhase(name: string, phase: Option<Phase>): (t: State)
      ensures t == this.(pvs := t.pvs)
      ensures t.pvs.Keys == pvs.Keys
      ensures name in pvs ==> t.pvs == pvs[name := pvs[name].(phase := phase)]
      ensures name !in pvs ==> t.pvs == pvs
    {
      if name in pvs then this.(pvs := pvs[name := pvs[name].(phase := phase)]) else this
    }

    /** The orchestrator has bound the existing claim `key` (or has not, for None). */
    function ObserveBinding(key: ObjectKey, binding: Option<Binding>): (t: State)
      ensures t == this.(pvs := t.pvs, pvcs := t.pvcs)
      ensures binding.Some? && key in pvcs ==>
        t.pvcs == pvcs[key := Pvc(Some(binding.value.pvName))] && t.pvs == pvs[binding.value.pvName := binding.value.pv]
      ensures binding.None? || key !in pvcs ==> t == this
    {
      if binding.Some? && key in pvcs then
        this.(pvcs := pvcs[key := Pvc(Some(binding.value.pvName))], pvs := pvs[binding.value.pvName := binding.value.pv])
      else this
    }

    /** Log files written to local disk, in order. */
    function Write(files: seq<string>): (t: State)
      ensures t == this.(written := written + files)
    {
      this.(written := written + files)
    }
  }

  /** The API client over a cluster whose state it changes in place. */
  class Cluster {
    var pvs: map<string, Pv>
    var pvcs: map<ObjectKey, Pvc>
    var pods: map<ObjectKey, Pod>
    var jobs: map<ObjectKey, Job>
    var calls: seq<Call>
    var written: seq<string>

    function Snapshot(): State
      reads this
    {
      State(pvs, pvcs, pods, jobs, calls, written)
    }

    constructor (s: State)
      ensures Snapshot() == s
    {
      pvs, pvcs, pods, jobs, calls, written := s.pvs, s.pvcs, s.pods, s.jobs, s.calls, s.written;
    }

    method PatchPv(name: string, p: PvPatch) returns (r: Outcome<()>)
      modifies this
      ensures Step(r, Snapshot()) == old(Snapshot()).PatchPv(name, p)
    {
      calls := calls + [PatchPersistentVolume(name, p)];
      if name !in pvs {
        r := Err(NotFound);
      } else if p.RemoveClaimRef? && ClaimRefOf(pvs[name]).None? {
        r := Err(Invalid);
      } else {
        pvs := pvs[name := Patched(pvs[name], p)];
        r := Ok(());
      }
    }

    method DeletePv(name: string) returns (r: Outcome<()>)
      modifies this
      ensures Step(r, Snapshot()) == old(Snapshot()).DeletePv(name)
    {
      calls := calls + [DeletePersistentVolume(name)];
      if name in pvs {
        pvs := pvs - {name};
        r := Ok(());
      } else {
        r := Err(NotFound);
      }
    }

    method DeletePvc(key: ObjectKey) returns (r: Outcome<()>)
      modifies this
      ensures Step(r, Snapshot()) == old(Snapshot()).DeletePvc(key)
    {
      calls := calls + [DeletePersistentVolumeClaim(key.namespace, key.name)];
      if key in pvcs {
        pvcs := pvcs - {key};
        r := Ok(());
      } else {
        r := Err(NotFound);
      }
    }

    method PatchPvc(key: ObjectKey, volumeName: string) returns (r: Outcome<()>)
      modifies this
      ensures Step(r, Snapshot()) == old(Snapshot()).PatchPvc(key, volumeName)
    {
      calls := calls + [PatchPersistentVolumeClaim(key.namespace, key.name, volumeName)];
      if key in pvcs {
        pvcs := pvcs[key := Pvc(Some(volumeName))];
        r := Ok(());
      } else {
        r := Err(NotFound);
      }
    }

    method CreatePvc(key: ObjectKey) returns (r: Outcome<()>)
      modifies this
      ensures Step(r, Snapshot()) == old(Snapshot()).CreatePvc(key)
    {
      calls := calls + [CreatePersistentVolumeClaim(key.namespace, key.name)];
      if key in pvcs {
        r := Err(AlreadyExists);
      } else {
        pvcs := pvcs[key := Pvc(None)];
        r := Ok(());
      }
    }

    method SubmitJob(namespace: string, job: Job) returns (r: Outcome<Job>)
      modifies this
      ensures Step(r, Snapshot()) == old(Snapshot()).SubmitJob(namespace, job)
    {
      var key := ObjectKey(namespace, job.name);
      calls := calls + [CreateJob(namespace, job.name)];
      if key in jobs {
        r := Err(AlreadyExists);
      } else {
        jobs := jobs[key := job];
        r := Ok(job);
      }
    }

    method ObservePhase(name: string, phase: Option<Phase>)
      modifies this
      ensures Snapshot() == old(Snapshot()).ObservePhase(name, phase)
    {
      if name in pvs {
        pvs := pvs[name := pvs[name].(phase := phase)];
      }
    }

    method ObserveBinding(key: ObjectKey, binding: Option<Binding>)
      modifies this
      ensures Snapshot() == old(Snapshot()).ObserveBinding(key, binding)
    {
      if binding.Some? && key in pvcs {
        pvcs := pvcs[key := Pvc(Some(binding.value.pvName))];
        pvs := pvs[binding.value.pvName := binding.value.pv];
      }
    }

    method Write(files: seq<string>)
      modifies this
      ensures Snapshot() == old(Snapshot()).Write(files)
    {
      written := written + files;
    }
  }
}
