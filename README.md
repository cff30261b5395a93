# PV migration and maintenance tooling, modelled in Dafny

The tool works on the persistent volumes (PVs) and persistent volume claims
(PVCs) of a Kubernetes cluster that runs Creditcoin nodes. This project
models its core:

- **migrate.ts**: moves a claim's data to a newly provisioned volume and
  rebinds the claim to it. The steps are:
  1. create a dummy claim `dummy-for-<pvc>`;
  2. copy the data with the job `migrate-<pvc>`;
  3. read the volume the dummy claim is bound to: the new volume;
  4. for the claim's old volume, and then for the new one: put it in the
     `Retain` policy, delete its claim, wait for it to be `Released` and
     remove its `claimRef`;
  5. point the new volume's `claimRef` at the original claim.
- **jobs.ts**: polls a job until its status is terminal, then pulls the log
  of every pod of the job.
- **migrate-job.ts, delete-chain.ts, delete-rocksdb.ts**: build the job
  specifications. One job copies a chain directory with rclone; two jobs
  delete a chain's database.
- **main.ts, `cleanupPvs`**: deletes file-share volumes and their claims,
  after confirmation.
- **main.ts, `fixReclaimPolicy` and `fixReclaimPolicies`**: switch volumes to
  the `Delete` policy, after confirmation.
- **util.ts, `assertNonEmpty`**.

The cluster is modelled as a value, `Kube.State`, which holds:

- volumes by name;
- claims, pods and jobs by namespace and name;
- the log of every mutating API call the program issues, recorded whether or
  not the API accepts it;
- the log files written to local disk.

`Kube.Cluster` is the API client object. Its methods perform the primitives
in place.

- Each operation that talks to the cluster is a pure transition function.
  It returns the outcome and the new state. The job builders and
  `assertNonEmpty` are plain functions of their arguments.
  - An outcome is `Ok`, `Err` (a thrown error or an API error), or `Waiting`.
  - `Waiting` means a wait that is still going when the observations run out.
  - For jobs.ts, migrate.ts and main.ts these functions sit in the modules
    `JobsSpec`, `MigrateSpec` and `MaintenanceSpec`.
  - For delete-chain.ts and delete-rocksdb.ts they sit in `DeleteChain` and
    `DeleteRocksdb`, next to the methods: `DeleteChainEffect`,
    `CreateAndAwait` and `DeleteRocksdbEffect`.
- The operations that change the cluster, or that loop, are also imperative
  methods. A method's postcondition ties the client's new state, and what it
  returns, to the transition function. The methods are:
  - `Jobs`: the poll and the log pull;
  - `Migrate`: `patchReclaimRetain`, `waitForRelease`, `removeClaimRef`,
    `deleteClaimant`, `patchClaimRef`, `patchPvcVolume`, `makeDummyPvc`,
    `rebindPvcToPv` and `migrateStorage`;
  - `Maintenance`: `cleanupPvs` (with its per-volume step), `fixReclaimPolicy`
    and `fixReclaimPolicies`;
  - `DeleteChain.DeleteChain`, `DeleteChain.CreateAndAwaitJob` and
    `DeleteRocksdb.DeleteRocksdb`.
- Three lookups are functions only: `getPvcVolume`, `getPodPvc` and
  `podPvcName`. So are the steps inside `migrateStorage`: the submission,
  the wait for the copy job and the rebind to the dummy claim's volume.
  The `Migrate.MigrateStorage` method is proved equal to
  `MigrateSpec.MigrateStorageIn`, which composes them.

The orchestrator changes things the program only observes:

- the phases a volume goes through;
- the volume a new claim is bound to;
- a job's statuses and its pods.

These are inputs: one phase per read of a volume, one status per poll,
and the binding read after the copy. Interactive prompts are inputs too: the
answer each prompt would get, where a missing answer counts as no.

Design decisions, where the code is the authority:

- Each error message keeps the text of the code. The message of
  `removeClaimRef` for a volume that is not Released is written in plain
  quotes (migrate.ts:68). So it is the literal `PV must be Released, not
  ${pv.status?.phase}`, with no phase interpolated.
- `deleteClaimant` deletes the named claim in the namespace passed as its
  argument, not in the `claimRef`'s own namespace. A delete that fails makes
  it return successfully at once, with the `claimRef` left in place.
- `cleanupPvs` acts on the phase and spec shown by the list it fetched once
  at the start. The operations it calls, such as `removeClaimRef`, read the
  current state.
- A mount that sets no `readOnly` is modelled with `readOnly` false. These
  are the copy job's /dst_vol mount and the /src_vol mounts of both deletion
  jobs.

## Model

| member | source | states |
|---|---|---|
| Util.ErrorMessage | util.ts:3 | the message starts with "Expected non-empty value"; it is exactly that iff `extra` is empty, otherwise it is followed by ": " and `extra` |
| Util.AssertNonEmpty | util.ts:1-6 | Ok iff the value is defined and non-empty, and then the value itself; otherwise the thrown message for `extra` |
| Util.DefaultMessage | util.ts:1-3 | with the default `extra`, an empty or missing value throws exactly "Expected non-empty value" |
| Kube.ClaimantOf | migrate.ts:43-44 | the claimant is defined iff the volume has a `claimRef` whose name is non-empty, and it is that name |
| Kube.Patched | migrate.ts:15-20 | a merge patch sets exactly one field of the spec (policy, or claimRef) and keeps the other fields and the phase; the json patch removes just the claimRef |
| MigrateJob.MakeCmdLayout | migrate-job.ts:3-5 | the joined command is the parts in order: part i sits at its offset, a " && " follows every part but the last, and nothing else is added |
| MigrateJob.Extra | migrate-job.ts:26-35 | the extra path is non-empty iff the level is ChainOnly, and then it is "paritydb/full/" |
| MigrateJob.ChainPath | migrate-job.ts:36-37 | trimming leaves `<volume>/chains/<chain>/<extra>` unchanged |
| MigrateJob.CopySteps | migrate-job.ts:39-47 | seven steps, the sixth being the rclone sync from source to destination |
| MigrateJob.CopyJob | migrate-job.ts:50-97 | one container running the command; the source claim is mounted read-only at /src_vol and the destination claim writable at /dst_vol; ttl 60, backoff 1, restart Never |
| MigrateJob.MakeMigrateJobSpec | migrate-job.ts:13-98 | the name defaults to `migrate-pv-<dst>`; a PrintOnly level lists both paths and any other level copies; the mounts and limits are as in CopyJob |
| MigrateJob.Defaults | migrate-job.ts:16-18 | with every option left out, the job is a dry run of chain creditcoin named `migrate-pv-<dst>` |
| MigrateJob.DryRun | migrate-job.ts:48-49 | a dry run lists `/src_vol/chains/<chain>/` and `/dst_vol/chains/<chain>/`, the trim leaving both paths as built |
| JobsSpec.FirstTerminal | jobs.ts:24-35 | the position of the first status with `succeeded` or `failed` set, or none, with nothing terminal before it |
| JobsSpec.PullLogs | jobs.ts:17-23 | ok iff every pod's log is readable; one file `logs/<job>-<pod>.log` per pod in list order, stopping at the first unreadable log |
| JobsSpec.AwaitJob | jobs.ts:4-36 | never stops at a non-terminal status; the result is the last status's `succeeded`; logs are pulled once, at a terminal status, on both paths; a missing job fails with NotFound at the first read, with no log pulled, and only a missing job does; a found job is read up to its first terminal status |
| JobsSpec.TerminalEndsWait | jobs.ts:24-35 | a found job with a terminal status at position k ends the wait within k+1 polls |
| JobsSpec.RunningRunningSucceeded | jobs.ts:24-35 | running, running, succeeded gives three polls, then the logs, then true |
| Jobs.PullLogs | jobs.ts:17-23 | the loop returns what JobsSpec.PullLogs specifies |
| Jobs.WaitForJobCompletion | jobs.ts:4-36 | the polling loop returns what JobsSpec.AwaitJob specifies |
| MigrateSpec.PatchReclaimRetain | migrate.ts:8-21 | a volume in Retain is left alone; any other gets one patch setting Retain, with its other fields kept; a missing volume fails with nothing issued |
| MigrateSpec.RetainIdempotent | migrate.ts:8-21 | a second call changes nothing; two calls issue at most one patch |
| MigrateSpec.WaitForRelease | migrate.ts:23-32 | Ok iff the volume exists and some observed phase is Released, and then its phase is Released; only that volume's phase changes |
| MigrateSpec.RemoveClaimRef | migrate.ts:61-77 | no claimRef: nothing; a claimRef on a volume that is not Released: throws, with no change; otherwise one json patch, after which the claimRef is gone |
| MigrateSpec.RemoveClaimRefIdempotent | migrate.ts:61-77 | after a successful removal a second call changes nothing |
| MigrateSpec.PatchClaimRef | migrate.ts:79-103 | Ok iff the volume is Available; then its claimRef is (namespace, claimer) and its policy is kept; otherwise it throws "PV must be Available" |
| MigrateSpec.PatchClaimRefAlwaysPatches | migrate.ts:79-103 | a volume already claimed by the claimer is patched again |
| MigrateSpec.DeleteClaimant | migrate.ts:34-59 | NotFound iff the volume is missing and the Retain error iff it is not in Retain, and an error changes nothing; a claim is deleted only from a Retain volume that names one, in the given namespace; a failed delete returns Ok; a successful one waits for Released and then removes the claimRef; policies and other volumes are kept |
| MigrateSpec.RerunKeepsClaimRef | migrate.ts:49-54 | when the claim is already gone the claimRef stays, so the volume stays Released and a following `patchClaimRef` throws |
| MigrateSpec.GetPvcVolume | migrate.ts:125-136 | Ok iff the claim exists with a non-empty `volumeName`, and then that name; otherwise NotFound or "PVC <p> has no volumeName" |
| MigrateSpec.PatchPvcVolume | migrate.ts:138-164 | a missing claim is NotFound and a claim without a volume throws, both changing nothing; a claim on the target is left alone; a claim on another volume gets exactly one patch, returns Ok and then names the target |
| MigrateSpec.PatchPvcVolumeIdempotent | migrate.ts:138-164 | after a success, moving the claim to the same non-empty volume again changes nothing |
| MigrateSpec.GetPodPvc | migrate.ts:105-119 | missing `spec.volumes` throws "has no volumes"; Ok iff the first volume names a non-empty claim, and then that claim; otherwise "has no PVC" |
| MigrateSpec.PodPvcName | migrate.ts:121-123 | the name is `node-storage-` followed by the pod name |
| MigrateSpec.PodPvcNameInjective | migrate.ts:121-123 | different pods give different claim names |
| MigrateSpec.MakeDummyPvc | migrate.ts:183-198 | never throws; one create call; afterwards the claim exists, and a new one is unbound |
| MigrateSpec.RetainAndFree | migrate.ts:175-179 | the Retain guard of `deleteClaimant` cannot fire after `patchReclaimRetain`; a volume whose claim exists and which is seen Released is freed, with exactly the retain patch, the claim delete and the claimRef removal issued |
| MigrateSpec.FreeAndBind | migrate.ts:177-180 | the target volume ends in Retain with its claimRef set to the claim; no other volume changes; the Retain guard never fires |
| MigrateSpec.RebindPvcToPv | migrate.ts:166-181 | never fails on the Retain guard; a lookup failure changes nothing; on success both volumes are in Retain and the target's claimRef is the claim |
| MigrateSpec.RebindOrder | migrate.ts:166-181 | a rebind in which every step succeeds issues, in order: retain, delete claim and remove claimRef for the old volume; the same for the target; then the new claimRef |
| MigrateSpec.MigrateJobFor | migrate.ts:213-218 | the copy job is named `migrate-<pvc>`, mounts the claim read-only at /src_vol and the dummy claim at /dst_vol, and copies all of chain creditcoin |
| MigrateSpec.Submitted | migrate.ts:206-222 | the dummy claim and then the job are created in the namespace; AlreadyExists iff the job already exists; the volumes are untouched |
| MigrateSpec.AwaitCopy | migrate.ts:225-228 | the logs are written; Ok iff the job succeeded; a failed job throws "Migrate job <name> failed" |
| MigrateSpec.DummyVolume | migrate.ts:230-235 | the `volumeName` the dummy claim shows when read after the copy: the newly observed binding, or else the volume it already had (a re-run) |
| MigrateSpec.RebindToDummy | migrate.ts:230-240 | a missing dummy claim is NotFound; one that shows no named volume throws "bad dummy PVC" before any call; on success the volume it shows, whether newly bound or already bound, is in Retain and claimed by the existing claim |
| MigrateSpec.MigrateStorageOutcomes | migrate.ts:200-241 | the dummy claim and the job are always created first; a failed copy ends before the rebind; a completed migration copied successfully and rebound the claim to the volume the dummy claim shows, newly bound or already bound |
| MigrateSpec.SubmittedFirst | migrate.ts:206-222 | every migration begins with the dummy-claim create and the job create |
| MigrateSpec.FailedCopyEnds | migrate.ts:225-228 | a copy job that fails throws "Migrate job <name> failed" with no call after the two creates |
| MigrateSpec.CompletedRebinds | migrate.ts:225-240 | a completed migration had a successful copy job and left the dummy claim's volume in Retain, claimed by the existing claim |
| MigrateSpec.CopiedThenRebound | migrate.ts:222-240 | once the job is created, `assertNonEmpty` on its name passes, so the migration is the wait followed, on success, by the rebind |
| MigrateSpec.RebindAfterWrite | migrate.ts:230-240 | writing the logs leaves the claims alone, so the rebind reads the dummy claim as it was after submission |
| MigrateSpec.CopyFailureEnds | migrate.ts:225-228 | a copy job whose wait does not succeed ends the migration with the wait's outcome, before the rebind |
| MigrateSpec.AsWrittenLosesJob | migrate.ts:225 | polling in the default namespace, a migration in any other namespace creates the claim and the job and then fails with NotFound, with no volume touched |
| MigrateSpec.CorrectedFindsJob | migrate.ts:219-228 | polling where the job was created always finds it, and the result follows its first terminal status |
| MigrateSpec.AgreeInDefaultNamespace | migrate.ts:204 | in the default namespace both forms do the same |
| Migrate.PatchReclaimRetain | migrate.ts:8-21 | the client ends in the state, and the method returns the outcome, given by MigrateSpec.PatchReclaimRetain |
| Migrate.WaitForRelease | migrate.ts:23-32 | the polling loop does what MigrateSpec.WaitForRelease says |
| Migrate.RemoveClaimRef | migrate.ts:61-77 | does what MigrateSpec.RemoveClaimRef says |
| Migrate.DeleteClaimant | migrate.ts:34-59 | does what MigrateSpec.DeleteClaimant says |
| Migrate.PatchClaimRef | migrate.ts:79-103 | does what MigrateSpec.PatchClaimRef says |
| Migrate.PatchPvcVolume | migrate.ts:138-164 | does what MigrateSpec.PatchPvcVolume says |
| Migrate.MakeDummyPvc | migrate.ts:183-198 | does what MigrateSpec.MakeDummyPvc says |
| Migrate.RebindPvcToPv | migrate.ts:166-181 | does what MigrateSpec.RebindPvcToPv says |
| Migrate.MigrateStorage | migrate.ts:200-241 | does what MigrateSpec.MigrateStorageIn says for the given poll namespace |
| DeleteChain.FrontierClause | delete-chain.ts:17-19 | the clause is non-empty iff the frontier is to be deleted, and then it removes `<chain>/frontier` |
| DeleteChain.DeleteCommand | delete-chain.ts:36 | the command is three steps joined with " && ", as `MigrateJob.MakeCmd` joins them: list the chain directory; remove `db`, followed by the frontier clause; list it again |
| DeleteChain.FrontierIsInserted | delete-chain.ts:17-36 | the command with the frontier clause is the command without it, with the clause inserted after the removal of `db` |
| DeleteChain.MakeJobSpec | delete-chain.ts:8-60 | job `rm-rocksdb-<pvc>` of kind Job, one container running the command with the claim at /src_vol; ttl 15, backoff 0, restart Never |
| DeleteChain.Defaults | delete-chain.ts:62-70 | the defaults are chain `creditcoin3_dev` with its `db` and `frontier` removed, the default namespace, and confirmation required |
| DeleteChain.CreateAndAwait | delete-chain.ts:83-92 | creates the job and polls it in the same namespace, where it is found; Ok iff it succeeded; the only error it throws itself is the failed job; the logs are written |
| DeleteChain.DeleteChainEffect | delete-chain.ts:62-94 | nothing is issued unless `yes` is set or the prompt is confirmed; then the job is created and awaited |
| DeleteChain.CreateAndAwaitJob | delete-chain.ts:83-92 | does what DeleteChain.CreateAndAwait says |
| DeleteChain.DeleteChain | delete-chain.ts:62-94 | does what DeleteChain.DeleteChainEffect says |
| DeleteRocksdb.CommandSteps | delete-rocksdb.ts:24 | the command is three steps joined with " && " |
| DeleteRocksdb.ChainCommandWithoutFrontier | delete-chain.ts:36 | the delete-chain command for chain creditcoin without the frontier clause, written out |
| DeleteRocksdb.SameStepsAsDeleteChain | delete-rocksdb.ts:24 | the delete-chain command for chain creditcoin without the frontier clause differs from this one only by one space |
| DeleteRocksdb.MakeJobSpec | delete-rocksdb.ts:7-48 | job `rm-rocksdb-<pvc>`, one container running the command with the claim at /src_vol; ttl 60, backoff 0 |
| DeleteRocksdb.SameJobName | delete-rocksdb.ts:12 | both deletion jobs of a claim have the same name |
| DeleteRocksdb.DeleteRocksdbEffect | delete-rocksdb.ts:50-69 | one job is created without confirmation, in the given namespace or "creditcoin"; a job of that name already there fails with AlreadyExists; otherwise it throws iff the job failed, with "Job <name> failed", and is Ok iff it succeeded |
| DeleteRocksdb.DeleteRocksdb | delete-rocksdb.ts:50-69 | does what DeleteRocksdb.DeleteRocksdbEffect says |
| MaintenanceSpec.DeleteAvailable | main.ts:46-48 | deletes the volume and issues only that call; the new state is the old one without that volume |
| MaintenanceSpec.DeleteReleased | main.ts:49-53 | Ok iff the volume exists and has no claimRef or is Released; then the claimRef is removed and the volume deleted; only that volume is touched, the claims and jobs are unchanged, and a failure leaves the volumes as they were |
| MaintenanceSpec.DeleteBoundClaim | main.ts:66-78 | a Retain volume is first switched to Delete; then the claim is deleted; only that volume and that claim are touched; the volumes are unchanged or differ only by that policy patch, and the claims are unchanged or lose only that claim |
| MaintenanceSpec.DefaultClaimNamespace | main.ts:17-21 | with the default `pvcNamespace`, the claim of a claimRef without a namespace is looked up in "creditcoin" (main.ts:65) |
| MaintenanceSpec.CleanupOne | main.ts:23-81 | an unconfirmed item, or one without a spec, an azurefile class or a name, changes nothing; otherwise the action depends on the listed phase: Available, Released, or Bound with a named claim and a second confirmation |
| MaintenanceSpec.CleanupPvs | main.ts:17-83 | the call log only grows, and every failure is an error |
| MaintenanceSpec.CleanupOneMore | main.ts:23-82 | the loop over one more item acts on that item only if everything before it succeeded |
| MaintenanceSpec.CleanupStopsAtFailure | main.ts:22-83 | the first failure ends the loop; later items change nothing |
| MaintenanceSpec.CleanupTouchesOnlyEligible | main.ts:29-34 | every volume patched or deleted is a named azurefile volume of the list, and every claim deleted is the claim of one |
| MaintenanceSpec.CleanupNeedsConfirmation | main.ts:35-40 | without `yes` and without a yes to any first prompt, nothing is touched |
| MaintenanceSpec.FixReclaimPolicy | main.ts:85-98 | a volume in Delete is left alone; any other gets exactly one patch to Delete, which is issued, keeping its claimRef and phase; a missing volume fails |
| MaintenanceSpec.FixReclaimPolicyIdempotent | main.ts:85-98 | a second call changes nothing; two calls issue at most one patch |
| MaintenanceSpec.FixReclaimPolicies | main.ts:100-117 | every volume is either unchanged or only its policy changed, to Delete |
| MaintenanceSpec.FixTargets | main.ts:103-115 | a name is a target iff it is the name of an item with a spec and a name that was confirmed, or any such item with `yes` |
| MaintenanceSpec.FixTouchesOnlyItself | main.ts:85-98 | one fix patches at most the volume it is given and deletes no claim |
| MaintenanceSpec.FixTouchesOnlyConfirmed | main.ts:103-115 | every volume the loop patches is one of its targets; no claim is deleted |
| MaintenanceSpec.FixNeedsConfirmation | main.ts:112-114 | without `yes` and without a single confirmation, the loop changes nothing and succeeds |
| MaintenanceSpec.FixStopsAtFailure | main.ts:102-116 | the first failure ends the loop; later items change nothing |
| MaintenanceSpec.FixedEndInDelete | main.ts:100-117 | when the loop completes, every named volume with a spec that was confirmed (every one, with `yes`) is in Delete |
| Maintenance.CleanupOne | main.ts:23-81 | does what MaintenanceSpec.CleanupOne says |
| Maintenance.CleanupPvs | main.ts:17-83 | the loop does what MaintenanceSpec.CleanupPvs says |
| Maintenance.FixReclaimPolicy | main.ts:85-98 | does what MaintenanceSpec.FixReclaimPolicy says |
| Maintenance.FixReclaimPolicies | main.ts:100-117 | the loop does what MaintenanceSpec.FixReclaimPolicies says |

## Left out

- The Kubernetes client library is not modelled. Its calls are primitives on
  `Kube.State`: gets, lists, patches, deletes, creates and log reads. A call
  on a missing object fails with NotFound, and creating an existing object
  fails with AlreadyExists.
- The exact patch bodies are not modelled: strategic merge, merge patch,
  json patch and their headers. A patch is a label plus its effect on the
  volume.
- Timers are not modelled: the 5-second sleeps between polls.
  Each poll reads the next observation.
- Console output and the prompts' wording are not modelled. A prompt is its
  answer.
- Log contents are not modelled, only the names of the files written.
- pvc-maker.ts is not part of this model. The dummy claim it builds is an
  unbound `Pvc(None)`.
- The command-line wiring of main.ts (lines 119-164) is not modelled. It
  only parses flags and calls the modelled functions.
- Concurrency with the orchestrator is seen only through observations at
  fixed points:
  - the phases read while waiting for a release;
  - the phase of the target volume just before its claimRef is set;
  - the dummy claim's binding, read after the copy.
- Truthiness is modelled for optional strings and for job-status counts
  only. Optional strings are the only values `assertNonEmpty` receives. A
  `status.succeeded` or `status.failed` count is truthy when it is above 0,
  and 0 stands for an absent count.
- `JobsSpec.AwaitJob` has no loop bound. The wait is `Waiting` when the
  statuses run out, because the code polls for ever.
- MaintenanceSpec.CleanupPvs: its own contract states only that the log
  grows. Targeting and confirmation are proved beside it, in
  CleanupTouchesOnlyEligible and CleanupNeedsConfirmation.

## Findings

| source | as written | input that shows it | evidently intended | confidence | as-written member | corrected member |
|---|---|---|---|---|---|---|
| migrate.ts:225 | `migrateStorage` calls `waitForJobCompletion` without a namespace, so the copy job is polled in the default namespace "creditcoin" wherever it was created | `migrateStorage` with namespace "other": the job is created in "other", the first status read finds no job there, and the migration fails after creating the dummy claim and the job | poll the job in the namespace it was created in, as delete-chain.ts:84-89 and delete-rocksdb.ts:60-65 do | not executed | MigrateSpec.AsWrittenLosesJob | MigrateSpec.CorrectedFindsJob |
