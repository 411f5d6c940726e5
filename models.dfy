/**
 * The job records of the scheduler: the HTTP action data, the tagged
 * action, the job specification and the runnable job (a job plus the
 * uuid it was submitted under), and the correlation context built from it.
 */
module Models {
  import opened Wrappers

  /** The parameters of an HTTP action. Header values are strings here. */
  datatype HTTPJobData = HTTPJobData(
    url: string,
    httpMethod: string := "GET",
    headers: map<string, string> := map[],
    body: Option<string> := None,
    timeout: Option<int> := None)

  /** The supported action kinds; an action with no variant set is representable. */
  datatype JobAction = JobAction(http: Option<HTTPJobData> := None)

  /** The due time of a job, as an abstract timestamp. */
  type Timestamp = int

  /** An immutable job specification. */
  datatype Job = Job(
    name: string,
    category: Option<string> := None,
    runAt: Timestamp,
    action: JobAction,
    onSuccess: Option<JobAction> := None,
    onFailure: Option<JobAction> := None)

  /** A job together with the uuid it is scheduled under. */
  datatype RunnableJob = RunnableJob(job: Job, uuid: string)

  /** A value of the correlation context: a string or Python's `None`. */
  datatype ContextValue = Str(s: string) | Null

  /** The correlation context handed to every command a job runs. */
  type Context = map<string, ContextValue>

  const CategoryKey: string := "job_category"
  const NameKey: string := "job_name"
  const UuidKey: string := "job_uuid"

  /** A Python optional string as a context value. */
  function OptionalValue(o: Option<string>): (v: ContextValue)
    ensures v.Null? <==> o.None?
    ensures o.Some? ==> v == Str(o.value)
  {
    match o
    case None => Null
    case Some(s) => Str(s)
  }

  /**
   * The context of a runnable job: exactly the three keys job_category,
   * job_name and job_uuid, holding the job's category (Null when it has
   * none), its name and the runnable job's uuid.
   */
  function ToContext(r: RunnableJob): (ctx: Context)
    ensures ctx.Keys == {CategoryKey, NameKey, UuidKey}
    ensures ctx[NameKey] == Str(r.job.name)
    ensures ctx[UuidKey] == Str(r.uuid)
    ensures ctx[CategoryKey] == OptionalValue(r.job.category)
    ensures ctx[CategoryKey] == Null <==> r.job.category.None?
  {
    map[CategoryKey := OptionalValue(r.job.category),
        NameKey := Str(r.job.name),
        UuidKey := Str(r.uuid)]
  }

  /**
   * Two runnable jobs get the same context exactly when they agree on
   * category, name and uuid: the context identifies the job for
   * correlation, and nothing else of the job (its action, due time or
   * follow-ups) leaks into it.
   */
  lemma ContextIdentifiesJob(a: RunnableJob, b: RunnableJob)
    ensures ToContext(a) == ToContext(b) <==>
      a.job.category == b.job.category && a.job.name == b.job.name && a.uuid == b.uuid
  {
  }

  /** The defaults of an HTTP action: GET, no headers, no body, no timeout. */
  lemma HTTPJobDataDefaults(url: string)
    ensures HTTPJobData(url).url == url
    ensures HTTPJobData(url).httpMethod == "GET"
    ensures HTTPJobData(url).headers == map[]
    ensures HTTPJobData(url).body.None? && HTTPJobData(url).timeout.None?
  {
  }

  /** The defaults of an action and a job: no variant, no category, no follow-ups. */
  lemma JobDefaults(name: string, runAt: Timestamp, action: JobAction)
    ensures JobAction().http.None?
    ensures Job(name, runAt := runAt, action := action).category.None?
    ensures Job(name, runAt := runAt, action := action).onSuccess.None?
    ensures Job(name, runAt := runAt, action := action).onFailure.None?
  {
  }
}
