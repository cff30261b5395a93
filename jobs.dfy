/** `waitForJobCompletion` (jobs.ts): poll the job's status until it is
    terminal, then pull the log of every pod listed before the first poll.
    It only reads the cluster: the method has no `modifies` clause. */
module Jobs {
  import opened Base
  import opened Kube
  import opened JobsSpec

  /** `pullLogs`: read each listed pod's log and name its file. */
  method PullLogs(jobName: string, pods: seq<ListedPod>) returns (ok: bool, files: seq<string>)
    ensures Pulled(ok, files) == JobsSpec.PullLogs(jobName, pods)
  {
    ghost var p := JobsSpec.PullLogs(jobName, pods);
    files := [];
    for i := 0 to |pods|
      invariant |files| == i
      invariant forall k :: 0 <= k < i ==> pods[k].logReadable && files[k] == LogFileName(jobName, pods[k].name)
    {
      if !pods[i].logReadable {
        ok := false;
        assert |p.files| == i;
        assert p.files == files;
        return;
      }
      files := files + [LogFileName(jobName, pods[i].name)];
    }
    ok := true;
    assert p.files == files;
  }

  method WaitForJobCompletion(api: Cluster, jobName: string, namespace: string, env: JobEnv)
    returns (r: Outcome<bool>, polls: nat, files: seq<string>)
    ensures Await(r, polls, files) == AwaitJob(api.jobs, namespace, jobName, env)
  {
    var key := ObjectKey(namespace, jobName);
    var sts := env.statuses;
    polls, files := 0, [];
    while polls < |sts|
      invariant polls <= |sts|
      invariant forall i :: 0 <= i < polls ==> !Terminal(sts[i])
      invariant polls > 0 ==> key in api.jobs
    {
      if key !in api.jobs {
        r, polls := Err(NotFound), polls + 1;
        return;
      }
      var status := sts[polls];
      polls := polls + 1;
      if status.succeeded > 0 {
        var ok;
        ok, files := PullLogs(jobName, env.pods);
        r := if ok then Ok(true) else Err(Unavailable);
        return;
      } else if status.failed > 0 {
        var ok;
        ok, files := PullLogs(jobName, env.pods);
        r := if ok then Ok(false) else Err(Unavailable);
        return;
      }
    }
    r := Waiting;
  }
}
