/**
 * utils/job_matcher.py: `match_jobs_for_user`. The worker summary and the
 * per-job projection are built before the `try`; only the remote call and
 * the decoding of its answer are guarded.
 */
module JobMatcher {
  import opened Wrappers
  import opened Json
  import opened Gemini

  /** The worker profile lines of the prompt; `skills` is the `", "`-joined skill list. */
  datatype WorkerProfile = WorkerProfile(trade: Json, experienceYears: Json, skills: string, location: Json)

  /** The worker part of the prompt: trade, experience, skills and location only, with `'N/A'`, 0, `[]` and `'N/A'` for missing keys. */
  function WorkerSummary(user: seq<Member>): (r: Result<WorkerProfile>)
    ensures r.Ok? <==> JoinStrings(GetOr(user, "skills", EmptyList), ", ").Ok?
    ensures r.Ok? && !HasKey(user, "trade") ==> r.value.trade == JStr("N/A")
    ensures r.Ok? && !HasKey(user, "experience_years") ==> r.value.experienceYears == JNum(0, 0)
    ensures r.Ok? && !HasKey(user, "skills") ==> r.value.skills == ""
    ensures r.Ok? && !HasKey(user, "location") ==> r.value.location == JStr("N/A")
    ensures r.Ok? && HasKey(user, "trade") ==> Lookup(user, "trade") == Some(r.value.trade)
    ensures r.Ok? && HasKey(user, "experience_years") ==> Lookup(user, "experience_years") == Some(r.value.experienceYears)
    ensures r.Ok? && HasKey(user, "location") ==> Lookup(user, "location") == Some(r.value.location)
  {
    match JoinStrings(GetOr(user, "skills", EmptyList), ", ")
    case Err(e) => Err(e)
    case Ok(skills) =>
      Ok(WorkerProfile(GetOr(user, "trade", JStr("N/A")), GetOr(user, "experience_years", JNum(0, 0)),
                       skills, GetOr(user, "location", JStr("N/A"))))
  }

  /**
   * One entry of `jobs_info`. It has exactly these fields, so nothing else of
   * the job (such as `organization_name`) is forwarded; `salary_range` is the
   * pair of numbers its text is formatted from.
   */
  datatype JobInfo = JobInfo(
    jobId: Json, title: Json, trade: Json, requiredSkills: Json,
    experienceRequired: Json, location: Json, salaryMin: Json, salaryMax: Json)

  /** The entry for one job: `job.get(...)` of each field, with `[]` for skills and 0 for experience and salaries when missing. */
  function JobInfoFor(job: seq<Member>): (r: JobInfo)
    ensures !HasKey(job, "id") ==> r.jobId == JNull
    ensures !HasKey(job, "required_skills") ==> r.requiredSkills == EmptyList
    ensures !HasKey(job, "experience_required") ==> r.experienceRequired == JNum(0, 0)
    ensures !HasKey(job, "salary_min") ==> r.salaryMin == JNum(0, 0)
    ensures !HasKey(job, "salary_max") ==> r.salaryMax == JNum(0, 0)
    ensures !HasKey(job, "title") ==> r.title == JNull
    ensures !HasKey(job, "trade") ==> r.trade == JNull
    ensures !HasKey(job, "location") ==> r.location == JNull
    ensures HasKey(job, "id") ==> Lookup(job, "id") == Some(r.jobId)
    ensures HasKey(job, "title") ==> Lookup(job, "title") == Some(r.title)
    ensures HasKey(job, "trade") ==> Lookup(job, "trade") == Some(r.trade)
    ensures HasKey(job, "required_skills") ==> Lookup(job, "required_skills") == Some(r.requiredSkills)
    ensures HasKey(job, "experience_required") ==> Lookup(job, "experience_required") == Some(r.experienceRequired)
    ensures HasKey(job, "location") ==> Lookup(job, "location") == Some(r.location)
    ensures HasKey(job, "salary_min") ==> Lookup(job, "salary_min") == Some(r.salaryMin)
    ensures HasKey(job, "salary_max") ==> Lookup(job, "salary_max") == Some(r.salaryMax)
  {
    JobInfo(GetOr(job, "id", JNull), GetOr(job, "title", JNull), GetOr(job, "trade", JNull),
            GetOr(job, "required_skills", EmptyList), GetOr(job, "experience_required", JNum(0, 0)),
            GetOr(job, "location", JNull), GetOr(job, "salary_min", JNum(0, 0)), GetOr(job, "salary_max", JNum(0, 0)))
  }

  /** The loop that builds `jobs_info`: one entry per job, in the order given. */
  method ProjectJobs(jobs: seq<seq<Member>>) returns (infos: seq<JobInfo>)
    ensures |infos| == |jobs|
    ensures forall i :: 0 <= i < |jobs| ==> infos[i] == JobInfoFor(jobs[i])
  {
    infos := [];
    for k := 0 to |jobs|
      invariant |infos| == k
      invariant forall i :: 0 <= i < k ==> infos[i] == JobInfoFor(jobs[i])
    {
      infos := infos + [JobInfoFor(jobs[k])];
    }
  }

  /**
   * What `match_jobs_for_user(user, jobs)` returns, with the module cache
   * holding `cached`: the jobs only enter the prompt, so the result does not
   * depend on them. `remote` is the call's result, `Text(v)` when the response
   * parsed to `v`.
   * An `Err` is the exception raised while writing the prompt, outside the
   * `try`. The parsed answer comes back as it is: the top-10 limit and the
   * order are only asked for.
   */
  function Matches(cached: Option<Client>, env: map<string, string>, configKey: Option<string>,
                   user: seq<Member>, remote: Outcome<Json>): (r: (Result<Json>, Option<Client>))
    ensures WorkerSummary(user).Err? ==> r.0.Err? && r.1 == cached
    ensures WorkerSummary(user).Ok? ==> r.1 == GetClient(cached, env, configKey).1
    ensures WorkerSummary(user).Ok? && (GetClient(cached, env, configKey).0.Err? || !remote.Text?) ==>
      r.0 == Ok(EmptyList)
    ensures WorkerSummary(user).Ok? && GetClient(cached, env, configKey).0.Ok? && remote.Text? ==>
      r.0 == Ok(remote.value)
  {
    match WorkerSummary(user)
    case Err(e) => (Err(e), cached)
    case Ok(_) =>
      var (o, after) := CallRemote(cached, env, configKey, remote);
      (Ok(if o.Text? then o.value else EmptyList), after)
  }

  /**
   * The function itself, on the module's `_client`; `shown` is the
   * `jobs_info` list the prompt lists, empty when the prompt is never written.
   */
  method MatchJobsForUser(cache: ClientCache, env: map<string, string>, configKey: Option<string>,
                          user: seq<Member>, jobs: seq<seq<Member>>, remote: Outcome<Json>)
    returns (r: Result<Json>, shown: seq<JobInfo>)
    modifies cache
    ensures (r, cache.client) == Matches(old(cache.client), env, configKey, user, remote)
    ensures WorkerSummary(user).Err? ==> shown == []
    ensures WorkerSummary(user).Ok? ==> |shown| == |jobs| && forall i :: 0 <= i < |jobs| ==> shown[i] == JobInfoFor(jobs[i])
  {
    var profile := WorkerSummary(user);
    if profile.Err? {
      return Err(profile.msg), [];
    }
    shown := ProjectJobs(jobs);
    var o := cache.Call(env, configKey, remote);
    r := Ok(if o.Text? then o.value else EmptyList);
  }
}
