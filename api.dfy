/** The part of the batch/v1 Job resource that the job package reads or writes. */
module Api {

  newtype int32 = x: int | -0x8000_0000 <= x < 0x8000_0000

  /** Values of a job condition's type field. */
  const JOB_COMPLETE: string := "Complete"
  const JOB_FAILED: string := "Failed"

  /** A container of the job's pod template. */
  datatype Container = Container(name: string, args: seq<string>)

  datatype JobCondition = JobCondition(conditionType: string, reason: string)

  /** What the cluster reports about a job: its active pod count and its conditions. */
  datatype JobStatus = JobStatus(active: int32, conditions: seq<JobCondition>)

  /** A job: its identity (namespace, name), its pod template's containers and its status. */
  datatype Job = Job(name: string, namespace: string, containers: seq<Container>, status: JobStatus)
}
