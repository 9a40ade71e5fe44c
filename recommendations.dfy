/**
 * `worker_jobs_recommended` in app.py: the active jobs are listed as dicts,
 * the matcher's answer (an input here) is walked in its own order, and each
 * entry naming one of those jobs gets its score and reasoning written into
 * that job's dict, which is then listed. The handler changes nothing.
 */
module Recommendations {
  import opened Wrappers
  import opened Json
  import opened UserModel
  import opened JobModel
  import opened Records

  /** `db.query(Job).filter_by(status='active').all()`. */
  function ActiveJobs(jobs: seq<Job>): (r: seq<Job>)
    ensures |r| <= |jobs|
    ensures forall k :: 0 <= k < |r| ==> r[k].status == "active" && r[k] in jobs
  {
    if jobs == [] then []
    else
      var init := ActiveJobs(jobs[..|jobs| - 1]);
      var last := jobs[|jobs| - 1];
      assert forall j :: j in jobs[..|jobs| - 1] ==> j in jobs;
      init + (if last.status == "active" then [last] else [])
  }

  /** Every active job is listed. */
  lemma {:induction false} ActiveJobsComplete(jobs: seq<Job>, j: Job)
    requires j in jobs && j.status == "active"
    ensures j in ActiveJobs(jobs)
  {
    var init := jobs[..|jobs| - 1];
    if j != jobs[|jobs| - 1] {
      assert j in init;
      ActiveJobsComplete(init, j);
    }
  }

  /** `org.name if org else 'Unknown'` for the job's organization. */
  function OrgName(orgs: seq<Organization>, orgId: nat): Json
  {
    match OrgById(orgs, orgId)
    case Some(i) => JStr(orgs[i].name)
    case None => JStr("Unknown")
  }

  /** The dict listed for one job; `None` when its `required_skills` column does not decode. */
  function JobView(job: Job, orgs: seq<Organization>): (r: Option<seq<Member>>)
    ensures r.Some? <==> RequiredSkills(job).Some?
    ensures r.Some? ==> Lookup(r.value, "id") == Some(JNum(job.id, 0))
  {
    match RequiredSkills(job)
    case None => None
    case Some(skills) =>
      var ms := [Member("id", JNum(job.id, 0)), Member("title", JStr(job.title)), Member("trade", JStr(job.trade)),
                 Member("required_skills", skills), Member("experience_required", JNum(job.experienceRequired, 0)),
                 Member("location", JStr(job.location)), Member("salary_min", job.salaryMin),
                 Member("salary_max", job.salaryMax), Member("organization_name", OrgName(orgs, job.organizationId))];
      LookupOnly(ms, "id", 0);
      Some(ms)
  }

  /** `jobs_data`: one dict per job, in order, or `None` when some job's skills do not decode. */
  function JobViews(jobs: seq<Job>, orgs: seq<Organization>): (r: Option<seq<seq<Member>>>)
    ensures r.Some? ==> |r.value| == |jobs| && forall k :: 0 <= k < |jobs| ==> JobView(jobs[k], orgs) == Some(r.value[k])
    ensures r.None? ==> exists k :: 0 <= k < |jobs| && JobView(jobs[k], orgs).None?
  {
    if jobs == [] then Some([])
    else
      var init := jobs[..|jobs| - 1];
      match JobViews(init, orgs)
      case None =>
        assert forall k :: 0 <= k < |init| ==> init[k] == jobs[k];
        None
      case Some(vs) =>
        match JobView(jobs[|jobs| - 1], orgs)
        case None => None
        case Some(v) =>
          JobViewsSnoc(jobs, orgs, vs, v);
          Some(vs + [v])
  }

  lemma JobViewsSnoc(jobs: seq<Job>, orgs: seq<Organization>, vs: seq<seq<Member>>, v: seq<Member>)
    requires jobs != [] && |vs| == |jobs| - 1
    requires forall k :: 0 <= k < |vs| ==> JobView(jobs[..|jobs| - 1][k], orgs) == Some(vs[k])
    requires JobView(jobs[|jobs| - 1], orgs) == Some(v)
    ensures forall k :: 0 <= k < |jobs| ==> JobView(jobs[k], orgs) == Some((vs + [v])[k])
  {
    var n := |vs|;
    forall k | 0 <= k < n
      ensures JobView(jobs[k], orgs) == Some((vs + [v])[k])
    {
      assert jobs[..n][k] == jobs[k];
      assert (vs + [v])[k] == vs[k];
    }
    assert (vs + [v])[n] == v;
  }

  function Ids(jobs: seq<Job>): (r: seq<nat>)
    ensures |r| == |jobs| && forall k :: 0 <= k < |jobs| ==> r[k] == jobs[k].id
  {
    if jobs == [] then [] else [jobs[0].id] + Ids(jobs[1..])
  }

  /**
   * `next((j for j in jobs_data if j['id'] == match['job_id']), None)`: the
   * first job whose id equals the entry's `job_id`. The condition is only
   * evaluated against a job, so with no jobs a missing `job_id` raises nothing.
   */
  function FindJob(ids: seq<nat>, m: Json): (r: Result<Option<nat>>)
    ensures ids == [] ==> r == Ok(None)
    ensures ids != [] ==> (r.Ok? <==> Index(m, "job_id").Ok?)
    ensures r.Ok? && r.value.Some? ==>
      r.value.value < |ids| && EqualsInt(Index(m, "job_id").value, ids[r.value.value]) &&
      forall k :: 0 <= k < r.value.value ==> !EqualsInt(Index(m, "job_id").value, ids[k])
    ensures r.Ok? && r.value.None? && ids != [] ==> forall k :: 0 <= k < |ids| ==> !EqualsInt(Index(m, "job_id").value, ids[k])
  {
    if ids == [] then Ok(None)
    else
      match Index(m, "job_id")
      case Err(e) => Err(e)
      case Ok(jobId) => Ok(First(ids, (id: nat) => EqualsInt(jobId, id)))
  }

  /** The job dicts as the loop leaves them, and the positions of the listed jobs, in listing order. */
  datatype Joined = Joined(views: seq<seq<Member>>, picks: seq<nat>)

  predicate Fits(j: Joined, n: nat)
  {
    |j.views| == n && forall t :: 0 <= t < |j.picks| ==> j.picks[t] < n
  }

  /** Only the two match keys of the dicts are ever written. */
  ghost predicate SameOtherKeys(a: seq<seq<Member>>, b: seq<seq<Member>>)
    requires |a| == |b|
  {
    forall k, key :: 0 <= k < |a| && key != "match_score" && key != "match_reasoning" ==> Lookup(b[k], key) == Lookup(a[k], key)
  }

  /** One pass of the loop: an entry naming no job is skipped; otherwise that job's dict gets the entry's score and reasoning and is listed again. */
  function JoinOne(ids: seq<nat>, acc: Joined, m: Json): (r: Result<Joined>)
    requires Fits(acc, |ids|)
    ensures r.Ok? ==> Fits(r.value, |ids|) && SameOtherKeys(acc.views, r.value.views)
    ensures r.Ok? ==> |acc.picks| <= |r.value.picks| <= |acc.picks| + 1 && r.value.picks[..|acc.picks|] == acc.picks
  {
    match FindJob(ids, m)
    case Err(e) => Err(e)
    case Ok(None) => Ok(acc)
    case Ok(Some(k)) =>
      match Index(m, "score")
      case Err(e) => Err(e)
      case Ok(score) =>
        match Index(m, "reasoning")
        case Err(e) => Err(e)
        case Ok(why) =>
          var r := Joined(acc.views[k := Put(Put(acc.views[k], "match_score", score), "match_reasoning", why)], acc.picks + [k]);
          assert r.picks[..|acc.picks|] == acc.picks;
          Ok(r)
  }

  /** The loop over the matcher's entries; an `Err` is the exception a malformed entry raises. */
  function Join(ids: seq<nat>, views: seq<seq<Member>>, matches: seq<Json>): (r: Result<Joined>)
    requires |views| == |ids|
    ensures r.Ok? ==> Fits(r.value, |ids|) && SameOtherKeys(views, r.value.views) && |r.value.picks| <= |matches|
  {
    if matches == [] then Ok(Joined(views, []))
    else
      match Join(ids, views, matches[..|matches| - 1])
      case Err(e) => Err(e)
      case Ok(acc) => JoinOne(ids, acc, matches[|matches| - 1])
  }

  /** An entry that raises stops the loop: the whole walk raises too. */
  lemma {:induction false} JoinPrefixErr(ids: seq<nat>, views: seq<seq<Member>>, matches: seq<Json>, k: int)
    requires |views| == |ids| && 0 <= k <= |matches| && Join(ids, views, matches[..k]).Err?
    ensures Join(ids, views, matches).Err?
    decreases |matches| - k
  {
    if k < |matches| {
      var longer := matches[..k + 1];
      assert longer[..|longer| - 1] == matches[..k];
      JoinPrefixErr(ids, views, matches, k + 1);
    } else {
      assert matches[..k] == matches;
    }
  }

  /** `job_matches`: the listed dicts, each as the loop left it. */
  function Render(j: Joined): (r: seq<seq<Member>>)
    requires Fits(j, |j.views|)
    ensures |r| == |j.picks| && forall t :: 0 <= t < |j.picks| ==> r[t] == j.views[j.picks[t]]
    decreases |j.picks|
  {
    if j.picks == [] then [] else [j.views[j.picks[0]]] + Render(Joined(j.views, j.picks[1..]))
  }

  /** An entry whose `job_id` names none of the jobs is dropped and changes nothing. */
  lemma JoinDropsOrphan(ids: seq<nat>, views: seq<seq<Member>>, matches: seq<Json>, m: Json)
    requires |views| == |ids| && Join(ids, views, matches).Ok?
    requires Index(m, "job_id").Ok? && forall k :: 0 <= k < |ids| ==> !EqualsInt(Index(m, "job_id").value, ids[k])
    ensures Join(ids, views, matches + [m]) == Join(ids, views, matches)
  {
    var ms := matches + [m];
    assert ms[..|ms| - 1] == matches && ms[|ms| - 1] == m;
    assert FindJob(ids, m) == Ok(None);
  }

  /** Entry `m` names job `k` (the first with that id) and has a score and a reasoning. */
  predicate Names(ids: seq<nat>, m: Json, k: nat)
  {
    k < |ids| && Index(m, "job_id").Ok? && EqualsInt(Index(m, "job_id").value, ids[k]) &&
    (forall i :: 0 <= i < k ==> !EqualsInt(Index(m, "job_id").value, ids[i])) &&
    Index(m, "score").Ok? && Index(m, "reasoning").Ok?
  }

  /** An entry naming job `k` lists that job once more, after everything listed so far. */
  lemma JoinAppendsNamed(ids: seq<nat>, views: seq<seq<Member>>, matches: seq<Json>, m: Json, k: nat)
    requires |views| == |ids| && Join(ids, views, matches).Ok? && Names(ids, m, k)
    ensures var after := Join(ids, views, matches + [m]);
      after.Ok? && after.value.picks == Join(ids, views, matches).value.picks + [k] &&
      after.value.views[k] == Put(Put(Join(ids, views, matches).value.views[k], "match_score", Index(m, "score").value),
                                  "match_reasoning", Index(m, "reasoning").value)
  {
    var ms := matches + [m];
    assert ms[..|ms| - 1] == matches && ms[|ms| - 1] == m;
    assert FindJob(ids, m) == Ok(Some(k));
  }

  /**
   * That job's dict now carries the entry's score and reasoning. The dict is
   * shared: an earlier listing of the same job shows the new score too.
   */
  lemma JoinSharesDict(ids: seq<nat>, views: seq<seq<Member>>, matches: seq<Json>, m: Json, k: nat, t: nat)
    requires |views| == |ids| && Join(ids, views, matches).Ok? && Names(ids, m, k)
    requires t < |Join(ids, views, matches).value.picks| && Join(ids, views, matches).value.picks[t] == k
    ensures var after := Join(ids, views, matches + [m]).value;
      Lookup(Render(after)[t], "match_score") == Some(Index(m, "score").value) &&
      Lookup(Render(after)[t], "match_reasoning") == Some(Index(m, "reasoning").value)
  {
    JoinAppendsNamed(ids, views, matches, m, k);
  }

  /** When entry `i` of the matcher names job `ks[i]` for every `i`, the listing has one item per entry: nothing is capped. */
  lemma {:induction false} JoinKeepsAll(ids: seq<nat>, views: seq<seq<Member>>, matches: seq<Json>, ks: seq<nat>)
    requires |views| == |ids| && |ks| == |matches|
    requires forall i :: 0 <= i < |matches| ==> Names(ids, matches[i], ks[i])
    ensures Join(ids, views, matches).Ok? && Join(ids, views, matches).value.picks == ks
  {
    if matches != [] {
      var n := |matches| - 1;
      var init := matches[..n];
      var kinit := ks[..n];
      forall i | 0 <= i < n ensures Names(ids, init[i], kinit[i]) {
        assert init[i] == matches[i] && kinit[i] == ks[i];
      }
      JoinKeepsAll(ids, views, init, kinit);
      SplitLast(matches);
      JoinAppendsNamed(ids, views, init, matches[n], ks[n]);
      assert kinit + [ks[n]] == ks;
    }
  }

  /** A non-empty list is its first entries, then its last one. */
  lemma SplitLast<T>(s: seq<T>)
    requires s != []
    ensures s[..|s| - 1] + [s[|s| - 1]] == s
  {
  }

  /** Every listed dict has the id of one of `jobs`. */
  predicate ListsOnly(listed: seq<seq<Member>>, jobs: seq<Job>)
  {
    forall t :: 0 <= t < |listed| ==> exists k | 0 <= k < |jobs| :: Lookup(listed[t], "id") == Some(JNum(jobs[k].id, 0))
  }

  lemma RenderListsOnly(jobs: seq<Job>, orgs: seq<Organization>, views: seq<seq<Member>>, joined: Joined)
    requires JobViews(jobs, orgs) == Some(views) && Fits(joined, |jobs|) && SameOtherKeys(views, joined.views)
    ensures ListsOnly(Render(joined), jobs)
  {
    var listed := Render(joined);
    forall t | 0 <= t < |listed|
      ensures exists k | 0 <= k < |jobs| :: Lookup(listed[t], "id") == Some(JNum(jobs[k].id, 0))
    {
      var k := joined.picks[t];
      assert JobView(jobs[k], orgs) == Some(views[k]);
      assert Lookup(listed[t], "id") == Lookup(views[k], "id");
    }
  }

  /** The session's worker exists and has finished the resume. */
  predicate ResumeReady(st: State)
    requires IsWorker(st.session)
  {
    exists k | 0 <= k < |st.users| :: st.users[k].id == st.session.userId.value && st.users[k].resumeComplete != 0
  }

  /**
   * `worker_jobs_recommended`, with `matched` what `match_jobs_for_user`
   * returns or raises. Only workers with a complete resume get a listing,
   * and every listed dict is that of an active job.
   */
  function Recommended(st: State, matched: Result<Json>): (r: Reply<seq<seq<Member>>>)
    ensures !IsWorker(st.session) ==> r == Redirect("index")
    ensures IsWorker(st.session) && !ResumeReady(st) ==> r == Redirect("worker_chat")
    ensures r.Success? ==> matched.Ok?
    ensures r.Success? ==> ListsOnly(r.value, ActiveJobs(st.jobs))
  {
    if !IsWorker(st.session) then Redirect("index")
    else
      match UserById(st.users, st.session.userId.value)
      case None => Redirect("worker_chat")
      case Some(i) =>
        if st.users[i].resumeComplete == 0 then Redirect("worker_chat")
        else
          var active := ActiveJobs(st.jobs);
          match JobViews(active, st.orgs)
          case None => ServerError
          case Some(views) =>
            if Skills(st.users[i]).None? || matched.Err? then ServerError
            else
              match Iterate(matched.value)
              case Err(_) => ServerError
              case Ok(entries) =>
                match Join(Ids(active), views, entries)
                case Err(_) => ServerError
                case Ok(joined) =>
                  RenderListsOnly(active, st.orgs, views, joined);
                  Success(Render(joined))
  }
}
