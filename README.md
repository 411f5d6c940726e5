# Job scheduler execution core in Dafny

This project models the core of a single-shot job scheduler. A client submits
a job, which names an action (an HTTP request) and optional follow-up actions
to run on success or on failure. When the job fires, the job runner resolves
the action to a command, executes it and then runs the matching follow-up.
Every error of the action or of a follow-up is contained, so a run never
raises. The model covers four parts:

- `models.dfy` (module `Models`): the records `HTTPJobData`, `JobAction`,
  `Job` and `RunnableJob` with their defaults, and the correlation context
  `ToContext` that each command receives.
- `commands.dfy` (module `Commands`): resolving an action to a command
  (`GetCommand`), the effective session timeout (default 360), and how an
  execution is judged from the HTTP reply (success iff the status is in
  [200, 300); other statuses, a timeout and a transport error are failures).
- `job_runner.dfy` (module `JobRunner`): `RunJob`, a function from the job
  and the network's replies to the trace of attempted actions.
- `domain.dfy` (module `Domain`): the envelopes of create, clear, list and
  remove, and the first-match lookup by uuid (`GetJob`, a loop proved
  against the recursive `FirstMatch`).

`wrappers.dfy` holds the `Option` and `Result` datatypes.

Inputs that come from outside the core are parameters:
- The network's answer to each request is a `Reply`: a status, a timeout or
  a transport error. `RunJob` takes one reply for the primary action and one
  for the follow-up.
- The freshly generated uuid is a parameter of `CreateJob`.
- The scheduler's current job list is a parameter of `ClearJobs`, `ListJobs`
  and `GetJob`.

A Python exception is modelled as a `Failed(error)` outcome. `RunJob`
returns a trace and has no error result, which is how the model states that
a run never raises.

## Model

| member | source | states |
|---|---|---|
| Models.ToContext | job_scheduler/models.py:40-45 | the context has exactly the keys job_category, job_name and job_uuid; job_name is the job's name, job_uuid the runnable job's uuid, job_category the category or Null when there is none |
| Models.OptionalValue | job_scheduler/models.py:23 | a missing category becomes Null in the context, a present one its string |
| Models.ContextIdentifiesJob | job_scheduler/models.py:40-45 | two runnable jobs get equal contexts iff they agree on category, name and uuid (both directions) |
| Models.HTTPJobDataDefaults | job_scheduler/models.py:7-12 | HTTP action data defaults to method GET, empty headers, no body and no timeout |
| Models.JobDefaults | job_scheduler/models.py:15-29 | an action defaults to no variant; a job's category, on_success and on_failure default to None |
| Commands.GetCommand | job_scheduler/commands.py:25-36 | resolution yields an HTTP command iff the action's http variant is set, else the UnsupportedAction error; the command has tag "http" and carries url, method, headers, body and timeout unchanged |
| Commands.GetCommandRoundTrip | job_scheduler/commands.py:26-34 | resolving a command's own data gives back that command, and the data of a resolved action is the action's data |
| Commands.HTTPCommandDefaults | job_scheduler/commands.py:42-50 | an HTTP command defaults to GET, empty headers, no body and no timeout, has type "http", and the base `Command.__str__` applied to it gives Command<http> (HTTP commands override it; see "## Left out") |
| Commands.Command.Describe | job_scheduler/commands.py:15-16 | the base rendering is "Command<" followed by the type tag and ">" |
| Commands.EffectiveTimeout | job_scheduler/commands.py:40-69 | the timeout is the command's own when set and non-zero, else 360; the result is never zero |
| Commands.EffectiveTimeoutCases | job_scheduler/commands.py:65-69 | None and 0 both give 360; a positive timeout is used as given |
| Commands.Request | job_scheduler/commands.py:65-78 | the request issued uses the command's method, url, headers and body, and the effective timeout as its total timeout |
| Commands.Execute | job_scheduler/commands.py:79-94 | execution succeeds iff the reply is a status in [200, 300); another status fails with that status; a timeout and a transport error fail |
| Commands.StatusBoundaries | job_scheduler/commands.py:81-84 | 200 and 299 succeed; 199, 300, 404 and 500 fail with their status; a timeout fails |
| JobRunner.ResolveAndExecute | job_scheduler/job_runner.py:15-17 | an action succeeds iff it has an HTTP variant and the reply status is in [200, 300); an action that cannot be resolved fails with UnsupportedAction |
| JobRunner.RunJob | job_scheduler/job_runner.py:10-49 | the primary action is attempted first and exactly once; a failed primary is followed by on_failure when configured, a successful one by on_success when configured, and nothing else; every executed command gets the job's context, and an action that fails to resolve executes nothing; the run returns a trace for every input |
| JobRunner.FailureRunsOnlyOnFailure | job_scheduler/job_runner.py:19-31 | after a failed primary, on_failure is attempted iff it is configured, and on_success never is |
| JobRunner.SuccessRunsOnlyOnSuccess | job_scheduler/job_runner.py:32-46 | after a successful primary, on_success is attempted iff it is configured, and on_failure never is |
| JobRunner.AtMostOneFollowUp | job_scheduler/job_runner.py:19-46 | at most one follow-up is attempted per run; with none configured only the primary is |
| JobRunner.FollowUpErrorsContained | job_scheduler/job_runner.py:23-31 | whatever the follow-up's reply, the run attempts the same actions in the same order with the same primary outcome |
| JobRunner.UnsupportedPrimaryIsFailure | job_scheduler/job_runner.py:15-22 | a primary action with no variant fails with UnsupportedAction and is followed by on_failure when configured |
| Domain.CreateJob | job_scheduler/domain.py:8-12 | the job is submitted unchanged under the new uuid and the success envelope carries that uuid |
| Domain.ClearJobs | job_scheduler/domain.py:15-17 | the success envelope reports the number of jobs the scheduler held before removal |
| Domain.ListJobs | job_scheduler/domain.py:30-32 | the success envelope carries the scheduler's job list unchanged |
| Domain.RemoveJob | job_scheduler/domain.py:35-37 | the success envelope echoes the requested uuid |
| Domain.FirstMatch | job_scheduler/domain.py:23-25 | the index found is the first, in list order, whose uuid matches; there is none iff no job matches |
| Domain.LookupJob | job_scheduler/domain.py:20-27 | the lookup is a success with a listed job of that uuid iff one exists, else the error envelope "Job not found" |
| Domain.GetJob | job_scheduler/domain.py:20-27 | the loop's answer is the first-match lookup answer; a missing uuid gives the error envelope rather than an exception |
| Domain.FirstMatchAppend | job_scheduler/domain.py:23-25 | jobs after the first match do not change it; without a match in a prefix, the match is the suffix's, shifted |
| Domain.CreatedJobIsFound | job_scheduler/domain.py:8-27 | with unique uuids, looking up the uuid a creation returned finds exactly the created job |

## Left out

- The scheduler layer (job_scheduler/scheduler.py) is not part of this model. This covers persistence, due-time ordering, misfire handling, coalescing, instance caps and the effects of removing jobs. Its results are parameters instead: the job list and the uuid of a new job.
- An exception from the scheduler layer propagates unchanged out of create, clear, list, lookup and remove. Examples are removing an unknown uuid and a failure while listing the jobs for a lookup. The model covers only the envelopes these operations return.
- The network exchange is not modelled. That is the aiohttp session, the request and reading the response body. The reply (status, timeout or transport error) is an input, so an error while reading the body of a successful response is not modelled.
- How the reply depends on the effective timeout is not modelled. `Request` computes the timeout, but whether the request times out is part of the reply.
- `HTTPCommand.__str__` and the log messages are not modelled. They render Python reprs of dicts and None. `Command.Describe` is only the base class's rendering, which no HTTP command uses.
- Logging, `datetime` serialisation of `run_at`, uuid generation and async scheduling are not modelled. A due time is an integer timestamp.
- Errors derived from `BaseException` are not modelled. These are what the runner's `except Exception` guards do not catch, such as task cancellation.
- Header values are strings here. The source allows any value.
