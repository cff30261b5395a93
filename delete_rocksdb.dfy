/** delete-rocksdb.ts: the older, fixed form of the chain deletion job. It
    clears the `db` directory of chain creditcoin, asks for no confirmation,
    and keeps the job for 60 seconds. */
module DeleteRocksdb {
  import opened Base
  import opened Kube
  import opened JobsSpec
  import MigrateJob
  import DeleteChain

  const Dir := "/src_vol/chains/creditcoin"

  /** The default of `deleteRocksdb`'s `namespace`; it is the same namespace
      `waitForJobCompletion` defaults to. */
  const DefaultJobNamespace := "creditcoin"

  /** List the chain directory, remove its `db`, list it again. */
  const Command := "ls -lah " + Dir + " && " + "rm -rf " + Dir + "/db" + " && " + "ls -lah " + Dir

  /** The command is the three steps joined with " && ". */
  lemma CommandSteps()
    ensures Command == MigrateJob.MakeCmd(["ls -lah " + Dir, "rm -rf " + Dir + "/db", "ls -lah " + Dir])
  {
    var parts := ["ls -lah " + Dir, "rm -rf " + Dir + "/db", "ls -lah " + Dir];
    MigrateJob.MakeCmdUnfold(parts);
    MigrateJob.MakeCmdUnfold(parts[1..]);
    assert parts[1..][1..] == [parts[2]];
  }

  /** delete-chain.ts's command for chain creditcoin without the frontier clause. */
  lemma ChainCommandWithoutFrontier()
    ensures DeleteChain.DeleteCommand("creditcoin", false)
         == ("ls -lah " + Dir + " && " + "rm -rf " + Dir + "/db") + " " + (" && " + "ls -lah " + Dir)
  {
    var list, remove := "ls -lah " + Dir, "rm -rf " + Dir + "/db";
    assert DeleteChain.ChainDir("creditcoin") == Dir;
    assert DeleteChain.ListStep("creditcoin") == list;
    assert DeleteChain.RemoveDbStep("creditcoin") + DeleteChain.FrontierClause("creditcoin", false) == remove + " ";
  }

  /** delete-chain.ts without the frontier clause runs the same steps on chain
      creditcoin; its command only has one more space, before the second " && ". */
  lemma SameStepsAsDeleteChain()
    ensures var k := |"ls -lah " + Dir + " && " + "rm -rf " + Dir + "/db"|;
      k <= |Command|
      && DeleteChain.DeleteCommand("creditcoin", false) == Command[..k] + " " + Command[k..]
  {
    var head, tail := "ls -lah " + Dir + " && " + "rm -rf " + Dir + "/db", " && " + "ls -lah " + Dir;
    ChainCommandWithoutFrontier();
    assert Command == head + tail;
    assert Command[..|head|] == head;
    assert Command[|head|..] == tail;
  }

  /** `makeJobSpec`: one container running the command on the claim mounted
      at /src_vol, retried never, removed 60 seconds after it finishes. */
  function MakeJobSpec(pvcName: string): (j: Job)
    ensures j.name == DeleteChain.JobName(pvcName) && j.kind == Some("Job")
    ensures |j.containers| == 1 && j.containers[0].args == [Command]
    ensures |j.volumes| == 1 && |j.containers[0].volumeMounts| == 1
    ensures ClaimMountedAt(j, "/src_vol") == Some(pvcName)
    ensures j.ttlSecondsAfterFinished == 60 && j.backoffLimit == 0 && j.restartPolicy == "Never"
  {
    Job("batch/v1", Some("Job"), "rm-rocksdb-" + pvcName, 60, 0,
        [Container("migrate", "debian", ["/bin/bash", "-c"], [Command], [VolumeMount("/src_vol", "src", false)])],
        "Never", [JobVolume("src", pvcName)])
  }

  /** Both deletion jobs of a claim have the same name, so one cannot be
      created while the other still exists in the namespace. */
  lemma SameJobName(pvcName: string, chainName: string, deleteFrontier: bool)
    ensures MakeJobSpec(pvcName).name == DeleteChain.MakeJobSpec(pvcName, chainName, deleteFrontier).name
  {
  }

  /** What `deleteRocksdb` does: create the job with no confirmation, wait
      for it in the same namespace, throw if and only if it fails. */
  function DeleteRocksdbEffect(s: State, pvcName: string, namespace: Option<string>, env: JobEnv): (r: Step<()>)
    ensures r.state.calls == s.calls + [CreateJob(namespace.GetOr(DefaultJobNamespace), DeleteChain.JobName(pvcName))]
    ensures var ns := namespace.GetOr(DefaultJobNamespace);
      var key := ObjectKey(ns, DeleteChain.JobName(pvcName));
      key !in s.jobs ==>
        var a := AwaitJob(s.jobs[key := MakeJobSpec(pvcName)], ns, DeleteChain.JobName(pvcName), env);
        (r.outcome.Err? && r.outcome.error.Thrown? <==> a.outcome == Ok(false))
        && (a.outcome == Ok(false) ==> r.outcome == Err(Thrown("Job " + DeleteChain.JobName(pvcName) + " failed")))
        && (r.outcome.Ok? <==> a.outcome == Ok(true))
    // a job of that name already in the namespace makes the create fail
    ensures var ns := namespace.GetOr(DefaultJobNamespace);
      ObjectKey(ns, DeleteChain.JobName(pvcName)) in s.jobs ==>
        r == Step(Err(AlreadyExists), s.Issue(CreateJob(ns, DeleteChain.JobName(pvcName))))
  {
    DeleteChain.CreateAndAwait(s, namespace.GetOr(DefaultJobNamespace), MakeJobSpec(pvcName), env)
  }

  method DeleteRocksdb(api: Cluster, pvcName: string, namespace: Option<string>, env: JobEnv) returns (r: Outcome<()>)
    modifies api
    ensures Step(r, api.Snapshot()) == DeleteRocksdbEffect(old(api.Snapshot()), pvcName, namespace, env)
  {
    r := DeleteChain.CreateAndAwaitJob(api, namespace.GetOr(DefaultJobNamespace), MakeJobSpec(pvcName), env);
  }
}
