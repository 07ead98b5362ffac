/**
 * The job lifecycle of the job package: build a job from a template and an argument override,
 * submit it, poll it until it is no longer active, classify the outcome and clean it up.
 */
module KubeJob {
  import opened Errors
  import Api
  import Names
  import Cluster

  /** The package's Job struct: the client, the job template (already renamed), the override and the target container. */
  datatype Job = Job(
    client: Cluster.FakeClient,
    currentJob: Api.Job,
    args: seq<string>,
    container: string,
    timeout: int)

  /**
   * What the collaborators of NewJob deliver: the client built from the config file, the
   * template read and unmarshalled from the template file, the random bytes of the name and
   * the argument vector the shell-words parser made of the command.
   */
  datatype Environment = Environment(
    newClient: Result<Cluster.FakeClient>,
    template: Result<Api.Job>,
    random: seq<Names.byte>,
    parsedArgs: Result<seq<string>>)

  // ---------------------------------------------------------------------------------------
  // NewJob

  /** NewJob: three required-parameter checks in order, then the collaborators in order. */
  function NewJob(configFile: string, currentFile: string, container: string, timeout: int, env: Environment): (r: Result<Job>)
    requires |env.random| == Names.RANDOM_BYTES
    ensures configFile == "" ==> r == Err(ConfigFileRequired)
    ensures configFile != "" && currentFile == "" ==> r == Err(TemplateFileRequired)
    ensures configFile != "" && currentFile != "" && container == "" ==> r == Err(ContainerRequired)
    ensures r.Ok? <==>
      configFile != "" && currentFile != "" && container != ""
      && env.newClient.Ok? && env.template.Ok? && env.parsedArgs.Ok?
    ensures configFile != "" && currentFile != "" && container != "" && env.newClient.Err? ==>
      r == Err(env.newClient.error)
    ensures configFile != "" && currentFile != "" && container != "" && env.newClient.Ok? && env.template.Err? ==>
      r == Err(env.template.error)
    ensures (configFile != "" && currentFile != "" && container != ""
             && env.newClient.Ok? && env.template.Ok? && env.parsedArgs.Err?) ==>
      r == Err(env.parsedArgs.error)
    ensures r.Ok? ==>
      r.value == Job(env.newClient.value,
                     env.template.value.(name := Names.GenerateRandomName(env.template.value.name, env.random)),
                     env.parsedArgs.value, container, timeout)
  {
    if |configFile| == 0 then Err(ConfigFileRequired)
    else if |currentFile| == 0 then Err(TemplateFileRequired)
    else if |container| == 0 then Err(ContainerRequired)
    else if env.newClient.Err? then Err(env.newClient.error)
    else if env.template.Err? then Err(env.template.error)
    else
      var currentJob := env.template.value.(name := Names.GenerateRandomName(env.template.value.name, env.random));
      if env.parsedArgs.Err? then Err(env.parsedArgs.error)
      else Ok(Job(env.newClient.value, currentJob, env.parsedArgs.value, container, timeout))
  }

  /** When a required parameter is missing, no collaborator is consulted: the environment cannot change the result. */
  lemma RequiredChecksComeFirst(configFile: string, currentFile: string, container: string, timeout: int, e1: Environment, e2: Environment)
    requires |e1.random| == Names.RANDOM_BYTES && |e2.random| == Names.RANDOM_BYTES
    requires configFile == "" || currentFile == "" || container == ""
    ensures NewJob(configFile, currentFile, container, timeout, e1) == NewJob(configFile, currentFile, container, timeout, e2)
    ensures NewJob(configFile, currentFile, container, timeout, e1).Err?
  {
  }

  // ---------------------------------------------------------------------------------------
  // Container lookup and argument override

  /** The index of the first container named `name`, or |cs| when there is none. */
  function FirstNamed(cs: seq<Api.Container>, name: string): (i: nat)
    ensures i <= |cs|
    ensures forall k :: 0 <= k < i ==> cs[k].name != name
    ensures i < |cs| ==> cs[i].name == name
  {
    if cs == [] then 0
    else if cs[0].name == name then 0
    else 1 + FirstNamed(cs[1..], name)
  }

  /** findContainerIndex: a first-match linear search. */
  method FindContainerIndex(containers: seq<Api.Container>, containerName: string) returns (r: Result<nat>)
    ensures r.Ok? ==> r.value < |containers| && containers[r.value].name == containerName
    ensures r.Ok? ==> forall k :: 0 <= k < r.value ==> containers[k].name != containerName
    ensures r.Err? <==> forall k :: 0 <= k < |containers| ==> containers[k].name != containerName
    ensures r.Err? ==> r.error == ContainerNotInTemplate
  {
    for index := 0 to |containers|
      invariant forall k :: 0 <= k < index ==> containers[k].name != containerName
    {
      if containers[index].name == containerName {
        return Ok(index);
      }
    }
    return Err(ContainerNotInTemplate);
  }

  /** The job RunJob submits: a copy of `job` whose first container named `container` runs `args`. */
  function Override(job: Api.Job, container: string, args: seq<string>): (r: Result<Api.Job>)
    ensures r.Err? <==> forall k :: 0 <= k < |job.containers| ==> job.containers[k].name != container
    ensures r.Err? ==> r.error == ContainerNotInTemplate
    ensures r.Ok? ==>
      r.value.name == job.name && r.value.namespace == job.namespace && r.value.status == job.status
      && |r.value.containers| == |job.containers|
    ensures r.Ok? ==>
      var i := FirstNamed(job.containers, container);
      i < |job.containers|
      && r.value.containers[i] == Api.Container(container, args)
      && forall k :: 0 <= k < |job.containers| && k != i ==> r.value.containers[k] == job.containers[k]
  {
    var i := FirstNamed(job.containers, container);
    if i == |job.containers| then Err(ContainerNotInTemplate)
    else Ok(job.(containers := job.containers[i := job.containers[i].(args := args)]))
  }

  /**
   * RunJob: override the target container's arguments on a copy of the template and submit
   * the copy in the template's namespace. No create is issued when the container is missing.
   * `j.currentJob` is a value, so the copy shares nothing with it and it stays as it was.
   */
  method RunJob(j: Job) returns (r: Result<Api.Job>)
    modifies j.client`calls
    ensures Override(j.currentJob, j.container, j.args).Err? ==>
      r == Err(ContainerNotInTemplate) && j.client.calls == old(j.client.calls)
    ensures Override(j.currentJob, j.container, j.args).Ok? ==>
      var submitted := Override(j.currentJob, j.container, j.args).value;
      j.client.calls == old(j.client.calls) + [Cluster.CreateJob(j.currentJob.namespace, submitted)]
      && r == j.client.createReply
  {
    var currentJob := j.currentJob;
    var index := FindContainerIndex(currentJob.containers, j.container);
    if index.Err? {
      return Err(index.error);
    }
    var i := index.value;
    assert i == FirstNamed(currentJob.containers, j.container);
    var containers := currentJob.containers;
    containers := containers[i := containers[i].(args := j.args)];
    currentJob := currentJob.(containers := containers);
    r := j.client.Create(j.currentJob.namespace, currentJob);
  }

  // ---------------------------------------------------------------------------------------
  // Outcome classification

  /** What a list of job conditions means: failed, with the first failed condition's reason, or not. */
  function ConditionsOutcome(conditions: seq<Api.JobCondition>): (r: Outcome)
    ensures r.Pass? <==> forall k :: 0 <= k < |conditions| ==> conditions[k].conditionType != Api.JOB_FAILED
    ensures r.Fail? ==>
      exists i :: 0 <= i < |conditions| && conditions[i].conditionType == Api.JOB_FAILED
        && r.error == JobFailed(conditions[i].reason)
        && forall k :: 0 <= k < i ==> conditions[k].conditionType != Api.JOB_FAILED
  {
    if conditions == [] then Pass
    else if conditions[0].conditionType == Api.JOB_FAILED then Fail(JobFailed(conditions[0].reason))
    else
      var r := ConditionsOutcome(conditions[1..]);
      if r.Fail? then
        var i :| 0 <= i < |conditions[1..]| && conditions[1..][i].conditionType == Api.JOB_FAILED
          && r.error == JobFailed(conditions[1..][i].reason)
          && forall k :: 0 <= k < i ==> conditions[1..][k].conditionType != Api.JOB_FAILED;
        assert conditions[i + 1] == conditions[1..][i];
        r
      else r
  }

  /** checkJobConditions: a search for the first condition of type Failed. */
  method CheckJobConditions(conditions: seq<Api.JobCondition>) returns (r: Outcome)
    ensures r == ConditionsOutcome(conditions)
  {
    for index := 0 to |conditions|
      invariant forall k :: 0 <= k < index ==> conditions[k].conditionType != Api.JOB_FAILED
    {
      if conditions[index].conditionType == Api.JOB_FAILED {
        return Fail(JobFailed(conditions[index].reason));
      }
    }
    return Pass;
  }

  // ---------------------------------------------------------------------------------------
  // The poll loop

  /** What one poll decides: an error ends the wait with that error, an inactive job with its conditions' outcome. */
  function PollDecision(reply: Result<Api.Job>): (r: Option<Outcome>)
    ensures r.None? <==> reply.Ok? && reply.value.status.active != 0
    ensures reply.Err? ==> r == Some(Fail(reply.error))
    ensures reply.Ok? && reply.value.status.active == 0 ==>
      r == Some(ConditionsOutcome(reply.value.status.conditions))
  {
    match reply
    case Err(e) => Some(Fail(e))
    case Ok(running) =>
      if running.status.active == 0 then Some(ConditionsOutcome(running.status.conditions)) else None
  }

  /** The index of the first poll that decides, or |polls| when every poll reports an active job. */
  function FirstDecisive(polls: seq<Result<Api.Job>>): (i: nat)
    ensures i <= |polls|
    ensures forall k :: 0 <= k < i ==> PollDecision(polls[k]).None?
    ensures i < |polls| ==> PollDecision(polls[i]).Some?
  {
    if polls == [] then 0
    else if PollDecision(polls[0]).Some? then 0
    else 1 + FirstDecisive(polls[1..])
  }

  /** The end of a wait: the returned error value, or still polling when the replies run out first. */
  datatype WaitResult = Returned(outcome: Outcome) | StillPolling

  /** The result of waiting on a sequence of poll replies. */
  function WaitOutcome(polls: seq<Result<Api.Job>>): (r: WaitResult)
    ensures r.StillPolling? <==> forall k :: 0 <= k < |polls| ==> PollDecision(polls[k]).None?
    ensures r.Returned? ==>
      exists i :: 0 <= i < |polls| && Some(r.outcome) == PollDecision(polls[i])
        && forall k :: 0 <= k < i ==> PollDecision(polls[k]).None?
  {
    var i := FirstDecisive(polls);
    if i == |polls| then StillPolling else Returned(PollDecision(polls[i]).value)
  }

  /** How many replies the wait consumes: up to and including the deciding one. */
  function PollsTaken(polls: seq<Result<Api.Job>>): (n: nat)
    ensures n <= |polls|
    ensures n < |polls| ==> WaitOutcome(polls).Returned?
    ensures WaitOutcome(polls).Returned? ==>
      0 < n && Some(WaitOutcome(polls).outcome) == PollDecision(polls[n - 1])
      && forall k :: 0 <= k < n - 1 ==> PollDecision(polls[k]).None?
    ensures WaitOutcome(polls).StillPolling? ==> n == |polls|
  {
    var i := FirstDecisive(polls);
    if i == |polls| then i else i + 1
  }

  /** FirstDecisive is the only index with its two properties. */
  lemma FirstDecisiveUnique(polls: seq<Result<Api.Job>>, n: nat)
    requires n <= |polls|
    requires forall k :: 0 <= k < n ==> PollDecision(polls[k]).None?
    requires n < |polls| ==> PollDecision(polls[n]).Some?
    ensures FirstDecisive(polls) == n
  {
  }

  /** Polls that report an active job have no effect on the outcome. */
  lemma ActivePollsIgnored(active: seq<Result<Api.Job>>, polls: seq<Result<Api.Job>>)
    requires forall k :: 0 <= k < |active| ==> active[k].Ok? && active[k].value.status.active != 0
    ensures WaitOutcome(active + polls) == WaitOutcome(polls)
  {
    var all := active + polls;
    var i := FirstDecisive(polls);
    assert forall k :: 0 <= k < |active| ==> all[k] == active[k];
    assert forall k :: 0 <= k < |polls| ==> all[|active| + k] == polls[k];
    FirstDecisiveUnique(all, |active| + i);
  }

  /** Once a poll decides, no later reply is consulted. */
  lemma LaterPollsIgnored(polls: seq<Result<Api.Job>>, later: seq<Result<Api.Job>>)
    requires WaitOutcome(polls).Returned?
    ensures WaitOutcome(polls + later) == WaitOutcome(polls)
    ensures PollsTaken(polls + later) == PollsTaken(polls)
  {
    var all := polls + later;
    var i := FirstDecisive(polls);
    assert all[i] == polls[i];
    assert forall k :: 0 <= k < i ==> all[k] == polls[k];
    FirstDecisiveUnique(all, i);
  }

  /**
   * WaitJobComplete: poll the job until a reply fails or reports no active pods. The source
   * loops forever; here the loop runs while the fake client still has replies, and the result
   * is StillPolling when they run out. The 3-second sleep between polls is not modelled.
   */
  method WaitJobComplete(j: Job, job: Api.Job) returns (r: WaitResult)
    modifies j.client`calls, j.client`polls
    ensures r == WaitOutcome(old(j.client.polls))
    ensures j.client.polls == old(j.client.polls)[PollsTaken(old(j.client.polls))..]
    ensures j.client.calls == old(j.client.calls) + Cluster.Gets(job.namespace, job.name, PollsTaken(old(j.client.polls)))
  {
    ghost var script := j.client.polls;
    ghost var n := 0;
    while j.client.polls != []
      invariant n <= |script| && j.client.polls == script[n..]
      invariant forall k :: 0 <= k < n ==> PollDecision(script[k]).None?
      invariant j.client.calls == old(j.client.calls) + Cluster.Gets(job.namespace, job.name, n)
      decreases |j.client.polls|
    {
      var running := j.client.Get(job.namespace, job.name);
      assert running == script[n];
      n := n + 1;
      if running.Err? {
        assert FirstDecisive(script) == n - 1;
        return Returned(Fail(running.error));
      }
      if running.value.status.active == 0 {
        assert FirstDecisive(script) == n - 1;
        var outcome := CheckJobConditions(running.value.status.conditions);
        return Returned(outcome);
      }
    }
    assert FirstDecisive(script) == |script|;
    return StillPolling;
  }

  // ---------------------------------------------------------------------------------------
  // Cleanup

  /** The label selector of the pods the cluster created for a job. */
  function JobSelector(jobName: string): (s: string)
    ensures |s| == 9 + |jobName|
    ensures s[..9] == "job-name=" && s[9..] == jobName
  {
    "job-name=" + jobName
  }

  /** Two job names with the same selector are equal. */
  lemma JobSelectorInjective(a: string, b: string)
    requires JobSelector(a) == JobSelector(b)
    ensures a == b
  {
  }

  /** removePods: a collection delete of the job's pods in the job's namespace. */
  method RemovePods(j: Job) returns (r: Outcome)
    modifies j.client`calls
    ensures j.client.calls == old(j.client.calls) + [Cluster.DeletePodCollection(j.currentJob.namespace, JobSelector(j.currentJob.name))]
    ensures r == j.client.deletePodsReply
  {
    var labels := JobSelector(j.currentJob.name);
    r := j.client.DeleteCollection(j.currentJob.namespace, labels);
  }

  /**
   * Cleanup: delete the pods first; when that fails return its error and delete nothing more,
   * otherwise delete the job and return that call's result unchanged ("not found" included).
   */
  method Cleanup(j: Job) returns (r: Outcome)
    modifies j.client`calls
    ensures var pods := Cluster.DeletePodCollection(j.currentJob.namespace, JobSelector(j.currentJob.name));
      if j.client.deletePodsReply.Fail? then
        j.client.calls == old(j.client.calls) + [pods] && r == j.client.deletePodsReply
      else
        j.client.calls == old(j.client.calls) + [pods, Cluster.DeleteJob(j.currentJob.namespace, j.currentJob.name)]
        && r == j.client.deleteJobReply
  {
    var err := RemovePods(j);
    if err.Fail? {
      return err;
    }
    r := j.client.Delete(j.currentJob.namespace, j.currentJob.name);
  }
}
