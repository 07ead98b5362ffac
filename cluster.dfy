/** A stand-in for the Kubernetes client: it records every call and answers from a script. */
module Cluster {
  import opened Errors
  import Api

  /** One request sent to the cluster. */
  datatype Call =
    | CreateJob(namespace: string, job: Api.Job)
    | GetJob(namespace: string, name: string)
    | DeleteJob(namespace: string, name: string)
    /** A collection delete of pods with the default grace period. */
    | DeletePodCollection(namespace: string, labelSelector: string)

  /** `n` successive gets of the same job. */
  function Gets(namespace: string, name: string, n: nat): (calls: seq<Call>)
    ensures |calls| == n
    ensures forall k :: 0 <= k < n ==> calls[k] == GetJob(namespace, name)
  {
    seq(n, _ => GetJob(namespace, name))
  }

  class FakeClient {
    /** Every call received so far, oldest first. */
    var calls: seq<Call>
    /** Replies to the coming job gets, in order. */
    var polls: seq<Result<Api.Job>>
    /** Reply to a job create: the job as the cluster stored it, or an error. */
    var createReply: Result<Api.Job>
    var deleteJobReply: Outcome
    var deletePodsReply: Outcome

    constructor (polls: seq<Result<Api.Job>>, createReply: Result<Api.Job>, deleteJobReply: Outcome, deletePodsReply: Outcome)
      ensures this.calls == []
      ensures this.polls == polls && this.createReply == createReply
      ensures this.deleteJobReply == deleteJobReply && this.deletePodsReply == deletePodsReply
    {
      this.calls := [];
      this.polls := polls;
      this.createReply := createReply;
      this.deleteJobReply := deleteJobReply;
      this.deletePodsReply := deletePodsReply;
    }

    method Create(namespace: string, job: Api.Job) returns (r: Result<Api.Job>)
      modifies this`calls
      ensures calls == old(calls) + [CreateJob(namespace, job)]
      ensures r == createReply
    {
      calls := calls + [CreateJob(namespace, job)];
      r := createReply;
    }

    /** Answers with the next scripted reply; a script only stands for finitely many polls. */
    method Get(namespace: string, name: string) returns (r: Result<Api.Job>)
      requires polls != []
      modifies this`calls, this`polls
      ensures calls == old(calls) + [GetJob(namespace, name)]
      ensures r == old(polls)[0] && polls == old(polls)[1..]
    {
      calls := calls + [GetJob(namespace, name)];
      r := polls[0];
      polls := polls[1..];
    }

    method Delete(namespace: string, name: string) returns (r: Outcome)
      modifies this`calls
      ensures calls == old(calls) + [DeleteJob(namespace, name)]
      ensures r == deleteJobReply
    {
      calls := calls + [DeleteJob(namespace, name)];
      r := deleteJobReply;
    }

    method DeleteCollection(namespace: string, labelSelector: string) returns (r: Outcome)
      modifies this`calls
      ensures calls == old(calls) + [DeletePodCollection(namespace, labelSelector)]
      ensures r == deletePodsReply
    {
      calls := calls + [DeletePodCollection(namespace, labelSelector)];
      r := deletePodsReply;
    }
  }
}
