/** An end-to-end run: what a caller can prove about one job from the contracts alone. */
module Scenario {
  import opened Errors
  import Api
  import Names
  import Cluster
  import opened KubeJob

  /** Template demo/ci with one container "runner", override ["echo", "hi"]; the job is active for two polls. */
  method DemoRun(random: seq<Names.byte>)
    requires |random| == Names.RANDOM_BYTES
  {
    var template := Api.Job("demo", "ci", [Api.Container("runner", ["default"])], Api.JobStatus(0, []));
    var active := Ok(template.(status := Api.JobStatus(1, [])));
    var done := Ok(template.(status := Api.JobStatus(0, [Api.JobCondition(Api.JOB_COMPLETE, "")])));
    var name := Names.GenerateRandomName("demo", random);
    var expected := template.(name := name, containers := [Api.Container("runner", ["echo", "hi"])]);
    var stored := expected.(status := Api.JobStatus(1, []));
    var client := new Cluster.FakeClient([active, active, done], Ok(stored), Pass, Pass);
    var env := Environment(Ok(client), Ok(template), random, Ok(["echo", "hi"]));

    var built := NewJob("kubeconfig", "job.yml", "runner", 0, env);
    var j := built.value;
    assert j.currentJob.name == name && j.currentJob.namespace == "ci";

    var submitted := RunJob(j);
    assert FirstNamed(j.currentJob.containers, "runner") == 0;
    var overridden := Override(j.currentJob, "runner", ["echo", "hi"]).value;
    assert overridden.containers == expected.containers;
    assert submitted == Ok(stored);

    var outcome := WaitJobComplete(j, stored);
    assert FirstDecisive([done]) == 0;
    assert FirstDecisive([active, done]) == 1;
    assert FirstDecisive([active, active, done]) == 2;
    assert outcome == Returned(Pass);

    var cleaned := Cleanup(j);
    assert cleaned == Pass;
    assert client.calls == [Cluster.CreateJob("ci", expected)]
      + Cluster.Gets("ci", name, 3)
      + [Cluster.DeletePodCollection("ci", "job-name=" + name), Cluster.DeleteJob("ci", name)];
  }
}
