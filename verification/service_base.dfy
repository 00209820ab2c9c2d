/**
 * The service-layer boilerplate: the unit of work around one database
 * session, and `run_step_job`, which records a job run around a step's
 * callback. The database is the job-runs table; the callback, the input
 * hash callable and the clock are parameters.
 */
module ServiceBase {
  import opened Wrappers
  import opened Text
  import opened Enums
  import opened Models
  import opened Repositories

  // ---------------------------------------------------------------- unit of work

  /**
   * What a unit of work leaves behind: the database state, what the block
   * returned or the error it re-raises, and which of commit and rollback
   * ran. The session is closed on every path.
   */
  datatype Transaction<D, T> = Transaction(
    db: D, result: Result<T, string>, committed: bool, rolledBack: bool, closed: bool)

  /**
   * `unit_of_work`: the block ran on `before` and either produced a new
   * state and a value or raised. A successful block is committed (unless
   * the commit itself raises); a raising block, or a failing commit, is
   * rolled back and the error re-raised.
   */
  function UnitOfWork<D, T>(before: D, block: Result<(D, T), string>, commit: Option<string>)
    : (r: Transaction<D, T>)
    ensures r.closed
    ensures r.committed <==> block.Ok? && commit.None?
    ensures r.rolledBack <==> !r.committed
    ensures r.committed ==> r.db == block.value.0 && r.result == Ok(block.value.1)
    ensures block.Err? ==> r.db == before && r.result == Err(block.error)
    ensures block.Ok? && commit.Some? ==> r.db == before && r.result == Err(commit.value)
  {
    match block
    case Err(e) => Transaction(before, Err(e), false, true, true)
    case Ok((after, v)) =>
      match commit
      case None => Transaction(after, Ok(v), true, false, true)
      case Some(e) => Transaction(before, Err(e), false, true, true)
  }

  // ---------------------------------------------------------------- run_step_job

  /** The `job_name` argument: absent, a text, or a `Step` member. */
  datatype JobNameArg = NoName | NameText(text: string) | NameStep(member: Step)

  /** The `input_hash` argument: a value (possibly `None`), or a callable on the state before the job starts. */
  datatype HashArg = HashValue(value: Option<string>) | HashOf(compute: seq<JobRun> -> string)

  /** What the callback returns: a `StepJobOutcome`, or a plain mapping (`None` reads as empty). */
  datatype CallbackResult =
    | StepJobOutcome(data: Option<map<string, Value>>, status: string, infoUpdate: Option<map<string, Value>>)
    | Plain(mapping: Option<map<string, Value>>)

  /** The name the job is recorded under: an empty or missing name falls back to the step's name. */
  function ResolveJobName(step: Step, jobName: JobNameArg): (r: string)
    ensures r != ""
    ensures jobName.NameText? && jobName.text != "" ==> r == jobName.text
    ensures jobName.NameStep? ==> r == StepName(jobName.member)
    ensures jobName.NoName? || jobName == NameText("") ==> r == StepName(step)
  {
    StepNameDigits(step);
    match jobName
    case NoName => StepName(step)
    case NameText(s) => if s != "" then s else StepName(step)
    case NameStep(m) => StepNameDigits(m); StepName(m)
  }

  /** The hash stored with the job, computed on the state as it was before the job's row exists. */
  function ResolveHash(jobs: seq<JobRun>, inputHash: HashArg): (r: Option<string>)
    ensures inputHash.HashOf? ==> r == Some(inputHash.compute(jobs))
    ensures inputHash.HashValue? ==> r == inputHash.value
  {
    match inputHash
    case HashValue(h) => h
    case HashOf(f) => Some(f(jobs))
  }

  /** `outcome.data or {}` (and `outcome or {}`): an absent mapping reads as the empty one. */
  function OrEmpty(m: Option<map<string, Value>>): (r: map<string, Value>)
    ensures m.Some? ==> r == m.value
    ensures m.None? ==> r == map[]
  {
    m.GetOr(map[])
  }

  /** The finish status and info update a callback result asks for. */
  function FinishArgs(outcome: CallbackResult): (r: (string, Option<map<string, Value>>))
    ensures outcome.StepJobOutcome? ==> r == (outcome.status, outcome.infoUpdate)
    ensures outcome.Plain? ==> r == ("FINISHED", None)
  {
    match outcome
    case StepJobOutcome(_, status, info) => (status, info)
    case Plain(_) => ("FINISHED", None)
  }

  /** The payload a callback result carries. */
  function PayloadOf(outcome: CallbackResult): (r: map<string, Value>)
    ensures outcome.StepJobOutcome? ==> r == OrEmpty(outcome.data)
    ensures outcome.Plain? ==> r == OrEmpty(outcome.mapping)
  {
    match outcome
    case StepJobOutcome(data, _, _) => OrEmpty(data)
    case Plain(m) => OrEmpty(m)
  }

  /**
   * The body of `run_step_job` inside its unit of work: start the job
   * (named, stepped and hashed as above), hand it to the callback, finish
   * it with the callback's status and info update, and answer the payload
   * with "job_id" set. The callback either returns a result or raises.
   */
  function StepJobBlock(
    jobs: seq<JobRun>, step: Step, jobName: JobNameArg, inputHash: HashArg,
    callback: JobRun -> Result<CallbackResult, string>, started: Instant, finished: Instant)
    : (r: Result<(seq<JobRun>, map<string, Value>), string>)
    requires ValidJobs(jobs)
    ensures r.Ok? ==> ValidJobs(r.value.0) && |r.value.0| == |jobs| + 1 && r.value.0[..|jobs|] == jobs
  {
    var hash := ResolveHash(jobs, inputHash);
    var (started_jobs, job) :=
      StartJob(jobs, ResolveJobName(step, jobName), Some(StepName(step)), hash, None, StartStatusDefault, started);
    match callback(job)
    case Err(e) => Err(e)
    case Ok(outcome) =>
      var (status, info) := FinishArgs(outcome);
      match FinishJob(started_jobs, job.id, status, info, finished)
      case Err(e) => Err(e)
      case Ok((finished_jobs, _)) =>
        Ok((finished_jobs, PayloadOf(outcome)["job_id" := Integer(job.id)]))
  }

  /** `run_step_job`: the block above in a unit of work. */
  function RunStepJob(
    jobs: seq<JobRun>, step: Step, jobName: JobNameArg, inputHash: HashArg,
    callback: JobRun -> Result<CallbackResult, string>, started: Instant, finished: Instant,
    commit: Option<string>)
    : (r: Transaction<seq<JobRun>, map<string, Value>>)
    requires ValidJobs(jobs)
    ensures r.closed && ValidJobs(r.db)
    ensures r.result.Ok? ==> |r.db| == |jobs| + 1 && r.db[..|jobs|] == jobs
    ensures r.result.Err? ==> r.db == jobs
  {
    UnitOfWork(jobs, StepJobBlock(jobs, step, jobName, inputHash, callback, started, finished), commit)
  }

  // ---------------------------------------------------------------- properties

  /** The job row a successful block starts, as the callback sees it. */
  function StartedJob(jobs: seq<JobRun>, step: Step, jobName: JobNameArg, inputHash: HashArg, started: Instant)
    : (j: JobRun)
    requires ValidJobs(jobs)
    ensures j.id == |jobs| + 1 && j.status == StartStatusDefault && j.finishedAt.None?
  {
    StartJob(jobs, ResolveJobName(step, jobName), Some(StepName(step)), ResolveHash(jobs, inputHash),
      None, StartStatusDefault, started).1
  }

  /**
   * When the callback returns and the commit succeeds, exactly one job row
   * is added and finished once: named and hashed as resolved before the
   * start, finished with the callback's status and info update; the answer
   * is the callback's payload with "job_id" set to the new row's id.
   */
  lemma RunStepJobSucceeds(
    jobs: seq<JobRun>, step: Step, jobName: JobNameArg, inputHash: HashArg,
    callback: JobRun -> Result<CallbackResult, string>, started: Instant, finished: Instant)
    requires ValidJobs(jobs)
    requires callback(StartedJob(jobs, step, jobName, inputHash, started)).Ok?
    ensures var r := RunStepJob(jobs, step, jobName, inputHash, callback, started, finished, None);
      var outcome := callback(StartedJob(jobs, step, jobName, inputHash, started)).value;
      var j := r.db[|jobs|];
      && r.committed && r.result.Ok? && |r.db| == |jobs| + 1 && r.db[..|jobs|] == jobs
      && j.id == |jobs| + 1
      && j.jobName == ResolveJobName(step, jobName)
      && j.step == Some(StepName(step))
      && j.inputHash == ResolveHash(jobs, inputHash)
      && j.startedAt == started && j.finishedAt == Some(finished)
      && j.status == FinishArgs(outcome).0
      && j.info == MergeInfo(None, FinishArgs(outcome).1)
      && r.result.value == PayloadOf(outcome)["job_id" := Integer(|jobs| + 1)]
  {
    var (s1, job) := StartJob(jobs, ResolveJobName(step, jobName), Some(StepName(step)),
      ResolveHash(jobs, inputHash), None, StartStatusDefault, started);
    assert s1[|jobs|] == job;
  }

  /** A raising callback leaves the job table as it was and re-raises its error. */
  lemma RunStepJobCallbackRaises(
    jobs: seq<JobRun>, step: Step, jobName: JobNameArg, inputHash: HashArg,
    callback: JobRun -> Result<CallbackResult, string>, started: Instant, finished: Instant,
    commit: Option<string>)
    requires ValidJobs(jobs)
    requires callback(StartedJob(jobs, step, jobName, inputHash, started)).Err?
    ensures var r := RunStepJob(jobs, step, jobName, inputHash, callback, started, finished, commit);
      && r.rolledBack && !r.committed && r.closed && r.db == jobs
      && r.result == Err(callback(StartedJob(jobs, step, jobName, inputHash, started)).error)
  {
  }

  /** A payload key "job_id" from the callback is overwritten; every other key is kept. */
  lemma PayloadKeepsData(outcome: CallbackResult, id: nat, k: string)
    requires k != "job_id"
    ensures var p := PayloadOf(outcome)["job_id" := Integer(id)];
      && p["job_id"] == Integer(id)
      && (k in p <==> k in PayloadOf(outcome))
      && (k in p ==> p[k] == PayloadOf(outcome)[k])
  {
  }
}
