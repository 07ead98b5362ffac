# kube-job: the job lifecycle, modelled in Dafny

kube-job runs one ad-hoc command as a Kubernetes batch job. The `job` package loads a job
template, gives it a unique name, overrides the arguments of one named container, submits the
job, polls it until no pod is active, classifies the outcome from the job's conditions, and
finally deletes the job's pods and the job itself.

This project models that lifecycle and proves what it does:

- `errors.dfy` (`Errors`): the package's errors, with the source's message texts, and the Go
  `(T, error)` / `error` returns as `Result<T>` / `Outcome`.
- `api.dfy` (`Api`): the fields of the batch/v1 Job the package touches (name, namespace,
  container names and args, active count as a 32-bit integer, conditions).
- `cluster.dfy` (`Cluster`): `FakeClient`, a class standing for the cluster client. It
  appends every request to a call log and answers from a script: a queue of replies to job
  gets, and fixed replies to create, job delete and pod collection delete. The create reply
  does not depend on the job sent: it stands for the cluster's stored version of the job.
- `names.dfy` (`Names`): `generateRandomName`/`secureRandomStr` with the random bytes as a
  parameter: Go's `%x` formatting (`Hex`, high nibble first), its inverse (`Unhex`), the round trips in both
  directions, and injectivity of generated names in the random bytes.
- `kube_job.dfy` (`KubeJob`): `NewJob`, `findContainerIndex`, `RunJob`,
  `checkJobConditions`, `WaitJobComplete`, `removePods` and `Cleanup`. The search loops and
  the poll loop are methods with loops. `FindContainerIndex` is proved against a quantified
  first-match contract; `CheckJobConditions` against `ConditionsOutcome`; `WaitJobComplete`
  against `WaitOutcome` and `PollsTaken`. `RunJob`, which has no loop, is specified by
  `Override`, a function built on `FirstNamed`. Lemmas about these functions state the
  source's promises.
- `scenario.dfy` (`Scenario`): a client method. It builds the template "demo" in namespace
  "ci" with container "runner", overrides the args with `["echo", "hi"]`, and has the job
  stay active for two polls. From the contracts alone it proves the job name and namespace,
  the submitted containers, the successful outcome and the exact call log: one create, three
  gets, the pod collection delete with selector `job-name=<name>`, then the job delete.

The Go `Job` struct is a datatype here. Dafny datatypes are values, so the deep copy `RunJob`
makes is implicit: nothing it builds can alias `j.currentJob`, which therefore stays as it was.
The client is the only mutable state, and each method's `modifies` clause names which of its
fields it may change.

The code does none of the following, and neither does the model:

- Cleanup treating "not found" as success: the job delete's error is returned unchanged.
- A container-not-found error listing the available container names: the error carries none.
- Correcting the spelling of "Container does not exit in the template": the message keeps the source's text.

## Model

| member | source | states |
|---|---|---|
| KubeJob.NewJob | job/job.go:42-87 | An empty config file, then an empty template file, then an empty container is reported, in that order. Otherwise the first failing collaborator's error is returned, in source order: client, then template, then argument parsing. Success exactly when all succeed; the job's name is then replaced by the generated name and the parsed args and container are kept |
| KubeJob.RequiredChecksComeFirst | job/job.go:43-55 | When a required parameter is empty, the result is an error that no collaborator's result (client, template, random bytes, parsed args) can change |
| KubeJob.FirstNamed | job/job.go:160-167 | The index returned is at most the length; no earlier container has the name; if in bounds, the container at it has the name |
| KubeJob.FindContainerIndex | job/job.go:160-167 | Ok(i) only with i in bounds, naming the container, and no earlier container with that name. Err(ContainerNotInTemplate) exactly when no container has the name |
| KubeJob.Override | job/job.go:144-150 | Error exactly when no container has the name. Otherwise the first such container has the override args, every other container is unchanged, and name, namespace and status are kept |
| KubeJob.RunJob | job/job.go:144-157 | Missing container: a ContainerNotInTemplate error and no client call. Otherwise exactly one create of the overridden copy in the template's namespace, and the create's reply (not the local copy) is returned |
| KubeJob.ConditionsOutcome | job/job.go:219-226 | Pass exactly when no condition has type Failed; a failure carries the reason of the first Failed condition in list order |
| Errors.Message | job/job.go:44 | Each error carries the source's text: the three required-field messages (job.go:44, 47, 50), the container-not-found message with its spelling (job.go:166), `Job is failed: ` plus the reason (job.go:222), and a client error's own text unchanged |
| Errors.FailedMessageCarriesReason | job/job.go:222 | The failed-job message is `Job is failed: ` followed by exactly the failed condition's reason |
| KubeJob.CheckJobConditions | job/job.go:219-226 | The loop's result equals ConditionsOutcome of the conditions |
| KubeJob.PollDecision | job/job.go:203-209 | A poll decides nothing exactly when it succeeded and reports active pods; a failed poll decides its error, an inactive job the outcome of its conditions |
| KubeJob.FirstDecisive | job/job.go:199-212 | The first poll that errors or reports no active pods: every earlier poll reported an active job, and the poll at the index decides |
| KubeJob.WaitOutcome | job/job.go:199-212 | Still polling exactly when every reply reports an active job. Otherwise the outcome is the decision of a poll preceded only by active polls: its error, or its conditions' outcome |
| KubeJob.PollsTaken | job/job.go:200-212 | When the wait returns, the last reply consumed is the deciding one and every earlier one reported an active job; when it is still polling, every reply is consumed |
| KubeJob.ActivePollsIgnored | job/job.go:207-210 | Prefixing any number of polls that report an active job does not change the outcome |
| KubeJob.LaterPollsIgnored | job/job.go:203-208 | Once a poll has decided, replies after it change neither the outcome nor the number of polls taken |
| KubeJob.WaitJobComplete | job/job.go:199-215 | The loop returns WaitOutcome of the scripted replies. It consumes PollsTaken replies and issues exactly that many gets of the job passed in, by its namespace and name |
| KubeJob.JobSelector | job/job.go:241 | The selector is the label key `job-name=` followed by exactly the job's name |
| KubeJob.JobSelectorInjective | job/job.go:241 | The selector string determines the job name: two names with the same selector are equal |
| KubeJob.RemovePods | job/job.go:239-250 | Exactly one pod collection delete in the job's namespace with selector `job-name=<name>`; its result is returned |
| KubeJob.Cleanup | job/job.go:229-237 | The pod delete comes first. If it fails, its error is returned and no job delete is issued. Otherwise the job of that name is deleted in that namespace and that result is returned unchanged |
| Names.Hex | job/job.go:140 | Two lower-case hex digits per byte, high nibble first: characters 2k and 2k+1 are the digits of byte k's high and low nibbles, so the length is twice the byte count |
| Names.Unhex | job/job.go:140 | Reading hex pairs back gives bytes whose Hex is the input string |
| Names.UnhexHex | job/job.go:140 | Unhex(Hex(bs)) == bs for every byte sequence |
| Names.GenerateRandomName | job/job.go:130-141 | The name is the base name, a dash, then 32 lower-case hex digits: its length is the base name's plus 33 |
| Names.RandomPartOfName | job/job.go:130-131 | The random bytes can be read back from the part after the base name and the dash |
| Names.GenerateRandomNameInjective | job/job.go:130-141 | Two names from one base name are equal only when their 16 random bytes are equal |

## Left out

- `downloadFile` (job/job.go:90-128): HTTP GET, the `GITHUB_TOKEN` lookup, the md5-derived `/tmp` path and file writes are I/O and foreign hashing. `NewJob` receives their combined result as `Environment.template`. A path not starting with `https://` is returned unchanged by the source; this is not modelled.
- `newClient`, `ioutil.ReadFile`, `yaml.Unmarshal` and the shell-words parser are foreign libraries and I/O. `NewJob` receives their results in `Environment`: the client, the unmarshalled template and the parsed argument vector. The `command` string is therefore not a parameter.
- `WaitJob` (job/job.go:170-194): a goroutine and a `select` racing against the context's deadline. Its point is concurrency, and when `WaitJobComplete` errors Go may pick either ready case, so no deterministic behaviour is claimed for it. The timeout field is carried in `Job` but has no effect in the model.
- KubeJob.WaitJobComplete: the source polls forever while the job is active. The model polls only while the fake client has scripted replies and returns `StillPolling` when they run out. The 3-second sleep is absent.
- Names.GenerateRandomName: `crypto/rand` is a parameter (the 16 bytes), so the panic on a failed random read is not modelled.
- The unreachable `return nil` after the poll loop (job/job.go:213) and all logging calls.
- `FakeClient`'s replies other than job gets are fixed for the whole run. A script where a second cleanup meets a "not found" job delete therefore cannot be expressed; Cleanup returns whatever the job delete replies.
- `Get` and `Create` return the whole Api.Job. Fields of the real resource that the package never reads, and the default grace period passed to the pod delete, are not modelled.
