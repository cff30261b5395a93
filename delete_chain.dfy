/** delete-chain.ts: a one-off job that deletes a chain's database directory
    (and, unless told otherwise, its frontier directory) on a claim, run only
    after confirmation. */
module DeleteChain {
  import opened Base
  import opened Kube
  import opened Util
  import opened JobsSpec
  import Jobs
  import MigrateJob

  const DefaultChainName := "creditcoin3_dev"

  /** The default of `deleteChain`'s `namespace`; it is the same namespace
      `waitForJobCompletion` defaults to. */
  const DefaultJobNamespace := "creditcoin"

  /** `/src_vol/chains/<chain>`. */
  function ChainDir(chainName: string): string {
    "/src_vol/chains/" + chainName
  }

  /** The optional clause that also removes the frontier directory. */
  function FrontierClause(chainName: string, deleteFrontier: bool): (f: string)
    ensures f != "" <==> deleteFrontier
    ensures deleteFrontier ==> f == "&& rm -rf " + ChainDir(chainName) + "/frontier"
  {
    if deleteFrontier then "&& rm -rf " + ChainDir(chainName) + "/frontier" else ""
  }

  /** The first and the last step: list the chain directory. */
  function ListStep(chainName: string): string {
    "ls -lah " + ChainDir(chainName)
  }

  /** The second step without the frontier clause: remove `db`. */
  function RemoveDbStep(chainName: string): string {
    "rm -rf " + ChainDir(chainName) + "/db "
  }

  /** The shell command: list the chain directory, remove its `db` (and
      optionally its `frontier`), list it again. It is three steps joined as
      `makeCmd` joins them; the frontier clause rides on the second step. */
  function DeleteCommand(chainName: string, deleteFrontier: bool): (c: string)
    ensures c == MigrateJob.MakeCmd([ListStep(chainName),
                                     RemoveDbStep(chainName) + FrontierClause(chainName, deleteFrontier),
                                     ListStep(chainName)])
  {
    var list := ListStep(chainName);
    var remove := RemoveDbStep(chainName) + FrontierClause(chainName, deleteFrontier);
    var parts := [list, remove, list];
    MigrateJob.MakeCmdUnfold(parts);
    MigrateJob.MakeCmdUnfold(parts[1..]);
    assert parts[1..][1..] == [list];
    list + " && " + remove + " && " + list
  }

  /** The frontier clause is the only difference between the two commands:
      the command with it is the command without it, with the clause inserted
      right after the removal of `db`. */
  lemma FrontierIsInserted(chainName: string)
    ensures var without := DeleteCommand(chainName, false);
      var k := |ListStep(chainName)| + |" && "| + |RemoveDbStep(chainName)|;
      k <= |without|
      && DeleteCommand(chainName, true) == without[..k] + FrontierClause(chainName, true) + without[k..]
      && |DeleteCommand(chainName, true)| == |without| + |FrontierClause(chainName, true)|
  {
    var list, remove, f := ListStep(chainName), RemoveDbStep(chainName), FrontierClause(chainName, true);
    var head, tail := list + " && " + remove, " && " + list;
    assert FrontierClause(chainName, false) == "";
    assert remove + "" == remove;
    var without := DeleteCommand(chainName, false);
    assert without == head + tail;
    assert DeleteCommand(chainName, true) == head + f + tail;
    var k := |head|;
    assert without[..k] == head;
    assert without[k..] == tail;
  }

  function JobName(pvcName: string): string {
    "rm-rocksdb-" + pvcName
  }

  /** `makeJobSpec`: one container running the command on the claim mounted at
      /src_vol, retried never, removed 15 seconds after it finishes. */
  function MakeJobSpec(pvcName: string, chainName: string, deleteFrontier: bool): (j: Job)
    ensures j.name == JobName(pvcName) && j.kind == Some("Job")
    ensures |j.containers| == 1 && j.containers[0].args == [DeleteCommand(chainName, deleteFrontier)]
    ensures j.containers[0].command == ["/bin/bash", "-c"]
    ensures |j.volumes| == 1 && |j.containers[0].volumeMounts| == 1
    ensures ClaimMountedAt(j, "/src_vol") == Some(pvcName)
    ensures j.ttlSecondsAfterFinished == 15 && j.backoffLimit == 0 && j.restartPolicy == "Never"
  {
    Job("batch/v1", Some("Job"), JobName(pvcName), 15, 0,
        [Container("migrate", "debian", ["/bin/bash", "-c"], [DeleteCommand(chainName, deleteFrontier)],
                   [VolumeMount("/src_vol", "src", false)])],
        "Never", [JobVolume("src", pvcName)])
  }

  /** The argument object of `deleteChain`; None stands for a field left out. */
  datatype DeleteChainArgs = DeleteChainArgs(
    pvcName: string,
    chainName: Option<string>,
    namespace: Option<string>,
    yes: Option<bool>,
    deleteFrontier: Option<bool>)

  /** The job `deleteChain` submits, with the defaults filled in. */
  function ChainJob(args: DeleteChainArgs): Job {
    MakeJobSpec(args.pvcName, args.chainName.GetOr(DefaultChainName), args.deleteFrontier.GetOr(true))
  }

  /** With the optional fields left out, the job clears `db` and `frontier` of
      the default chain, in the default namespace, after confirmation. */
  lemma Defaults(pvcName: string)
    ensures var args := DeleteChainArgs(pvcName, None, None, None, None);
      ChainJob(args) == MakeJobSpec(pvcName, DefaultChainName, true)
      && ChainJob(args).containers[0].args[0]
         == MigrateJob.MakeCmd([ListStep(DefaultChainName),
                                RemoveDbStep(DefaultChainName) + ("&& rm -rf " + ChainDir(DefaultChainName) + "/frontier"),
                                ListStep(DefaultChainName)])
      && args.namespace.GetOr(DefaultJobNamespace) == DefaultJobNamespace == JobsSpec.DefaultNamespace
      && !args.yes.GetOr(false)
  {
    var args := DeleteChainArgs(pvcName, None, None, None, None);
    assert ChainJob(args) == MakeJobSpec(pvcName, DefaultChainName, true);
    assert ChainJob(args).containers[0].args[0] == DeleteCommand(DefaultChainName, true);
  }

  /** Create a job, wait for it in the same namespace and throw when it fails. */
  function CreateAndAwait(s: State, namespace: string, job: Job, env: JobEnv): (r: Step<()>)
    requires job.name != ""
    ensures r.state.calls == s.calls + [CreateJob(namespace, job.name)]
    ensures ObjectKey(namespace, job.name) in s.jobs ==> r == Step(Err(AlreadyExists), s.Issue(CreateJob(namespace, job.name)))
    ensures ObjectKey(namespace, job.name) !in s.jobs ==>
      var a := AwaitJob(s.jobs[ObjectKey(namespace, job.name) := job], namespace, job.name, env);
      // the job is found where it was created
      a.outcome != Err(NotFound)
      && (r.outcome.Ok? <==> a.outcome == Ok(true))
      && (a.outcome == Ok(false) ==> r.outcome == Err(Thrown("Job " + job.name + " failed")))
      // the only error the operation raises itself is the failed job
      && (r.outcome.Err? && r.outcome.error.Thrown? <==> a.outcome == Ok(false))
      && r.state.written == s.written + a.files
    ensures r.state.pvs == s.pvs && r.state.pvcs == s.pvcs
  {
    var c := s.SubmitJob(namespace, job);
    if !c.outcome.Ok? then Step(c.outcome.Propagate(), c.state)
    else
      var a := AwaitJob(c.state.jobs, namespace, job.name, env);
      var w := c.state.Write(a.files);
      if !a.outcome.Ok? then Step(a.outcome.Propagate(), w)
      else if !a.outcome.value then Step(Err(Thrown("Job " + job.name + " failed")), w)
      else Step(Ok(()), w)
  }

  /** What `deleteChain` does: nothing unless `yes` is set or the prompt is
      answered yes (the prompt is asked only without `yes`). */
  function DeleteChainEffect(s: State, args: DeleteChainArgs, confirmed: bool, env: JobEnv): (r: Step<()>)
    ensures !(args.yes.GetOr(false) || confirmed) ==> r == Step(Ok(()), s)
    ensures args.yes.GetOr(false) || confirmed ==>
      r == CreateAndAwait(s, args.namespace.GetOr(DefaultJobNamespace), ChainJob(args), env)
    ensures r.state.calls != s.calls ==> args.yes.GetOr(false) || confirmed
  {
    var job := ChainJob(args);
    if args.yes.GetOr(false) || confirmed then CreateAndAwait(s, args.namespace.GetOr(DefaultJobNamespace), job, env)
    else Step(Ok(()), s)
  }

  method CreateAndAwaitJob(api: Cluster, namespace: string, job: Job, env: JobEnv) returns (r: Outcome<()>)
    requires job.name != ""
    modifies api
    ensures Step(r, api.Snapshot()) == CreateAndAwait(old(api.Snapshot()), namespace, job, env)
  {
    var created := api.SubmitJob(namespace, job);
    if !created.Ok? {
      return created.Propagate();
    }
    var successful, _, files := Jobs.WaitForJobCompletion(api, job.name, namespace, env);
    api.Write(files);
    if !successful.Ok? {
      return successful.Propagate();
    }
    if !successful.value {
      return Err(Thrown("Job " + job.name + " failed"));
    }
    r := Ok(());
  }

  method DeleteChain(api: Cluster, args: DeleteChainArgs, confirmed: bool, env: JobEnv) returns (r: Outcome<()>)
    modifies api
    ensures Step(r, api.Snapshot()) == DeleteChainEffect(old(api.Snapshot()), args, confirmed, env)
  {
    var job := ChainJob(args);
    if !(args.yes.GetOr(false) || confirmed) {
      return Ok(());
    }
    r := CreateAndAwaitJob(api, args.namespace.GetOr(DefaultJobNamespace), job, env);
  }
}
