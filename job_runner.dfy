/**
 * The execution engine: what happens when a job fires. The primary action
 * is resolved and executed; on any error the failure follow-up runs, on
 * success the success follow-up runs, and errors of a follow-up are
 * swallowed. A run is described by the trace of the actions it attempted.
 */
module JobRunner {
  import opened Wrappers
  import opened Models
  import opened Commands

  /** Which of a job's actions an attempt ran. */
  datatype Stage = Primary | OnSuccess | OnFailure

  /**
   * One attempted action and how it ended. `context` is the context the
   * resolved command was executed with, and None when resolution failed
   * before anything was executed.
   */
  datatype Attempt = Attempt(stage: Stage, action: JobAction, context: Option<Context>, outcome: Outcome)

  /**
   * Resolves an action and, when resolution works, executes the command:
   * it succeeds exactly when the action has an HTTP variant and the reply
   * is a status in [200, 300). A failed resolution is an error too.
   */
  function ResolveAndExecute(action: JobAction, reply: Reply): (o: Outcome)
    ensures o.Succeeded? <==> action.http.Some? && reply.Responded? && IsSuccessStatus(reply.status)
    ensures action.http.None? ==> o == Failed(UnsupportedAction(action))
    ensures action.http.Some? && reply.Responded? && !IsSuccessStatus(reply.status) ==>
      o == Failed(BadStatus(reply.status))
  {
    match GetCommand(action)
    case Err(e) => Failed(e)
    case Ok(command) => Execute(command, reply)
  }

  /** Attempts one action of `job`; a resolved command is executed in the job's context. */
  function Try(job: RunnableJob, stage: Stage, action: JobAction, reply: Reply): (attempt: Attempt)
  {
    var context := if action.http.Some? then Some(ToContext(job)) else None;
    Attempt(stage, action, context, ResolveAndExecute(action, reply))
  }

  /** The trace of a run attempted the given stage. */
  predicate Attempted(trace: seq<Attempt>, stage: Stage)
  {
    exists i :: 0 <= i < |trace| && trace[i].stage == stage
  }

  /**
   * One run of a job, given the network's reply to the primary action and
   * to the follow-up. The primary action is attempted first and exactly
   * once; a failed primary is followed by the failure action when one is
   * configured, a successful one by the success action when one is
   * configured, and by nothing else. Every command that is executed gets
   * the job's context; an action that cannot be resolved executes nothing.
   * The run always returns a trace: no error escapes it.
   */
  function RunJob(job: RunnableJob, primaryReply: Reply, followUpReply: Reply): (trace: seq<Attempt>)
    ensures 1 <= |trace| <= 2
    ensures trace[0] == Try(job, Primary, job.job.action, primaryReply)
    ensures forall i :: 1 <= i < |trace| ==> trace[i].stage != Primary
    ensures forall i :: 0 <= i < |trace| ==> (trace[i].context.Some? <==> trace[i].action.http.Some?)
    ensures forall i :: 0 <= i < |trace| && trace[i].context.Some? ==> trace[i].context.value == ToContext(job)
    ensures trace[0].outcome.Failed? ==>
      trace == [trace[0]] + (match job.job.onFailure
                             case Some(a) => [Try(job, OnFailure, a, followUpReply)]
                             case None => [])
    ensures trace[0].outcome.Succeeded? ==>
      trace == [trace[0]] + (match job.job.onSuccess
                             case Some(a) => [Try(job, OnSuccess, a, followUpReply)]
                             case None => [])
  {
    var primary := Try(job, Primary, job.job.action, primaryReply);
    match primary.outcome
    case Failed(_) =>
      (match job.job.onFailure
       case Some(a) => [primary, Try(job, OnFailure, a, followUpReply)]
       case None => [primary])
    case Succeeded =>
      (match job.job.onSuccess
       case Some(a) => [primary, Try(job, OnSuccess, a, followUpReply)]
       case None => [primary])
  }

  /**
   * After a failed primary action, the failure action is attempted exactly
   * when one is configured, and the success action never is.
   */
  lemma FailureRunsOnlyOnFailure(job: RunnableJob, primaryReply: Reply, followUpReply: Reply)
    requires ResolveAndExecute(job.job.action, primaryReply).Failed?
    ensures !Attempted(RunJob(job, primaryReply, followUpReply), OnSuccess)
    ensures Attempted(RunJob(job, primaryReply, followUpReply), OnFailure) <==> job.job.onFailure.Some?
  {
    var trace := RunJob(job, primaryReply, followUpReply);
    if job.job.onFailure.Some? {
      assert trace[1].stage == OnFailure;
    }
  }

  /**
   * After a successful primary action, the success action is attempted
   * exactly when one is configured, and the failure action never is.
   */
  lemma SuccessRunsOnlyOnSuccess(job: RunnableJob, primaryReply: Reply, followUpReply: Reply)
    requires ResolveAndExecute(job.job.action, primaryReply).Succeeded?
    ensures !Attempted(RunJob(job, primaryReply, followUpReply), OnFailure)
    ensures Attempted(RunJob(job, primaryReply, followUpReply), OnSuccess) <==> job.job.onSuccess.Some?
  {
    var trace := RunJob(job, primaryReply, followUpReply);
    if job.job.onSuccess.Some? {
      assert trace[1].stage == OnSuccess;
    }
  }

  /**
   * At most one follow-up is attempted, and with no follow-up configured
   * only the primary action is.
   */
  lemma AtMostOneFollowUp(job: RunnableJob, primaryReply: Reply, followUpReply: Reply)
    ensures !(Attempted(RunJob(job, primaryReply, followUpReply), OnSuccess) &&
              Attempted(RunJob(job, primaryReply, followUpReply), OnFailure))
    ensures job.job.onSuccess.None? && job.job.onFailure.None? ==>
      RunJob(job, primaryReply, followUpReply) == [Try(job, Primary, job.job.action, primaryReply)]
  {
  }

  /**
   * Errors of a follow-up are contained: whatever the follow-up's reply,
   * the run attempts the same actions in the same order, and only the
   * follow-up's own recorded outcome differs.
   */
  lemma FollowUpErrorsContained(job: RunnableJob, primaryReply: Reply, reply1: Reply, reply2: Reply)
    ensures |RunJob(job, primaryReply, reply1)| == |RunJob(job, primaryReply, reply2)|
    ensures RunJob(job, primaryReply, reply1)[0] == RunJob(job, primaryReply, reply2)[0]
    ensures forall i :: 0 <= i < |RunJob(job, primaryReply, reply1)| ==>
      RunJob(job, primaryReply, reply1)[i].stage == RunJob(job, primaryReply, reply2)[i].stage &&
      RunJob(job, primaryReply, reply1)[i].action == RunJob(job, primaryReply, reply2)[i].action
  {
  }

  /**
   * A primary action that cannot be resolved (no variant set) is treated
   * as a failure: the failure action, if any, runs next.
   */
  lemma UnsupportedPrimaryIsFailure(job: RunnableJob, primaryReply: Reply, followUpReply: Reply)
    requires job.job.action.http.None?
    ensures RunJob(job, primaryReply, followUpReply)[0].outcome == Failed(UnsupportedAction(job.job.action))
    ensures job.job.onFailure.Some? ==>
      RunJob(job, primaryReply, followUpReply)[1].stage == OnFailure
  {
  }
}
