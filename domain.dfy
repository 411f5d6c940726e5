/**
 * The domain operations behind the API: creating, clearing, listing,
 * looking up and removing jobs, each answering with a status envelope.
 * The scheduler layer underneath is represented by its results: the list
 * of scheduled runnable jobs it reports, and the uuid of a new job.
 */
module Domain {
  import opened Wrappers
  import opened Models

  const NotFoundMessage: string := "Job not found"

  /** The envelopes the domain operations return. */
  datatype Response =
    | JobCreated(jobUuid: string)
    | JobsCleared(numJobs: nat)
    | JobFound(job: RunnableJob)
    | JobNotFound(message: string)
    | JobsListed(jobs: seq<RunnableJob>)
    | JobRemoved(jobUuid: string)
  {
    /** The envelope's "status" entry. */
    function Status(): string
    {
      if JobNotFound? then "error" else "success"
    }
  }

  /** What creating a job hands to the scheduler, and what it answers. */
  datatype Submission = Submission(submitted: RunnableJob, response: Response)

  /**
   * Creates a job under the freshly generated `newUuid`: the job is
   * submitted unchanged under that uuid, and the answer is a success
   * carrying the same uuid (the scheduler layer returns the uuid of the
   * job it was given).
   */
  function CreateJob(job: Job, newUuid: string): (s: Submission)
    ensures s.submitted.job == job && s.submitted.uuid == newUuid
    ensures s.response.JobCreated? && s.response.jobUuid == s.submitted.uuid
    ensures s.response.Status() == "success"
  {
    var runnable := RunnableJob(job, newUuid);
    Submission(runnable, JobCreated(runnable.uuid))
  }

  /**
   * Clears the scheduler whose jobs are `scheduled`: the answer reports how
   * many jobs there were before removal.
   */
  function ClearJobs(scheduled: seq<RunnableJob>): (r: Response)
    ensures r.JobsCleared? && r.numJobs == |scheduled|
    ensures r.Status() == "success"
  {
    JobsCleared(|scheduled|)
  }

  /** Lists the scheduler's jobs: the answer carries them unchanged, in order. */
  function ListJobs(scheduled: seq<RunnableJob>): (r: Response)
    ensures r.JobsListed? && r.jobs == scheduled
    ensures r.Status() == "success"
  {
    JobsListed(scheduled)
  }

  /** Removes a job: the answer echoes the requested uuid. */
  function RemoveJob(jobUuid: string): (r: Response)
    ensures r.JobRemoved? && r.jobUuid == jobUuid
    ensures r.Status() == "success"
  {
    JobRemoved(jobUuid)
  }

  /**
   * The position of the first job, in list order, whose uuid is `jobUuid`;
   * None exactly when no job has that uuid.
   */
  function FirstMatch(jobs: seq<RunnableJob>, jobUuid: string): (k: Option<nat>)
    ensures k.Some? ==> k.value < |jobs| && jobs[k.value].uuid == jobUuid
    ensures k.Some? ==> forall j :: 0 <= j < k.value ==> jobs[j].uuid != jobUuid
    ensures k.None? <==> forall j :: 0 <= j < |jobs| ==> jobs[j].uuid != jobUuid
  {
    if jobs == [] then None
    else if jobs[0].uuid == jobUuid then Some(0)
    else
      match FirstMatch(jobs[1..], jobUuid)
      case None => None
      case Some(i) => Some(i + 1)
  }

  /**
   * The answer to a lookup: the first job in list order with the uuid,
   * or the "Job not found" error envelope.
   */
  function LookupJob(jobs: seq<RunnableJob>, jobUuid: string): (r: Response)
    ensures r.JobFound? || r == JobNotFound(NotFoundMessage)
    ensures r.JobFound? <==> exists i :: 0 <= i < |jobs| && jobs[i].uuid == jobUuid
    ensures r.JobFound? ==> r.job in jobs && r.job.uuid == jobUuid && r.Status() == "success"
    ensures r.JobNotFound? ==> r.Status() == "error"
  {
    match FirstMatch(jobs, jobUuid)
    case None => JobNotFound(NotFoundMessage)
    case Some(i) => JobFound(jobs[i])
  }

  /**
   * Looks a job up by uuid by scanning the scheduler's jobs in order and
   * answering with the first match; without one it answers with the
   * error envelope rather than raising.
   */
  method GetJob(jobs: seq<RunnableJob>, jobUuid: string) returns (r: Response)
    ensures r == LookupJob(jobs, jobUuid)
  {
    for i := 0 to |jobs|
      invariant forall j :: 0 <= j < i ==> jobs[j].uuid != jobUuid
    {
      if jobs[i].uuid == jobUuid {
        return JobFound(jobs[i]);
      }
    }
    return JobNotFound(NotFoundMessage);
  }

  /**
   * First match is decided by the earliest jobs: jobs appended after a
   * match do not change it, and without a match in the prefix the result
   * is the suffix's match, shifted by the prefix length.
   */
  lemma {:induction false} FirstMatchAppend(a: seq<RunnableJob>, b: seq<RunnableJob>, jobUuid: string)
    ensures FirstMatch(a, jobUuid).Some? ==> FirstMatch(a + b, jobUuid) == FirstMatch(a, jobUuid)
    ensures FirstMatch(a, jobUuid).None? ==>
      FirstMatch(a + b, jobUuid) == (match FirstMatch(b, jobUuid)
                                     case None => None
                                     case Some(i) => Some(|a| + i))
  {
    if a == [] {
      assert a + b == b;
    } else if a[0].uuid != jobUuid {
      assert (a + b)[0] == a[0];
      assert (a + b)[1..] == a[1..] + b;
      FirstMatchAppend(a[1..], b, jobUuid);
    } else {
      assert (a + b)[0] == a[0];
    }
  }

  /** Every uuid names at most one job. */
  predicate UniqueUuids(jobs: seq<RunnableJob>)
  {
    forall i, j :: 0 <= i < j < |jobs| ==> jobs[i].uuid != jobs[j].uuid
  }

  /**
   * Once a created job is among the scheduler's jobs and uuids are unique,
   * looking up the uuid the creation answered with finds exactly that job.
   */
  lemma CreatedJobIsFound(job: Job, newUuid: string, jobs: seq<RunnableJob>)
    requires CreateJob(job, newUuid).submitted in jobs
    requires UniqueUuids(jobs)
    ensures LookupJob(jobs, CreateJob(job, newUuid).response.jobUuid) == JobFound(CreateJob(job, newUuid).submitted)
  {
  }
}
