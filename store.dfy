/**
 * The database and session of app.py as one object whose handlers update it
 * in place: a column assignment (`user.language = language`) replaces that
 * row of the table, `db.add(row)` appends it, and `db.commit()` is reached
 * only on the paths that return a success. Each handler is proved to do what
 * the function of the same name in `WorkerRoutes`, `EmployerRoutes`,
 * `Recommendations` or `Matching` says, so the lemmas proved there (and the
 * invariants of `App`) hold of this object.
 */
module Store {
  import opened Wrappers
  import opened PyStr
  import opened Json
  import opened UserModel
  import opened JobModel
  import opened Records
  import opened Ranking
  import Validators
  import Assistant
  import WorkerRoutes
  import EmployerRoutes
  import Recommendations
  import Matching
  import App

  class Store {
    var users: seq<User>
    var orgs: seq<Organization>
    var jobs: seq<Job>
    var applications: seq<Application>
    var session: Session

    /** The tables and the session as a value. */
    function State(): State
      reads this
    {
      Records.State(users, orgs, jobs, applications, session)
    }

    /** An empty database and a fresh session. */
    constructor()
      ensures State() == App.Initial
    {
      users := [];
      orgs := [];
      jobs := [];
      applications := [];
      session := EmptySession;
    }

    method WorkerStart(data: map<string, string>, clean: string -> string) returns (r: Reply<nat>)
      modifies this
      ensures (r, State()) == WorkerRoutes.WorkerStart(old(State()), data, clean)
    {
      var phone := Sanitized(data, "phone", "", clean);
      var language := Sanitized(data, "language", "en", clean);
      if !Validators.ValidateIndianPhone(phone) {
        return BadRequest("Invalid phone number");
      }
      var found := UserByPhone(users, phone);
      var id: nat;
      if found.None? {
        id := |users| + 1;
        users := users + [NewUser(id, phone, language)];
      } else {
        var i := found.value;
        id := users[i].id;
        users := users[i := users[i].(language := language)];
      }
      session := session.(userId := Some(id), userType := Some("worker"), language := Some(language));
      r := Success(id);
    }

    method ChatMessage(data: map<string, string>, clean: string -> string, reply: string, extracted: Json)
      returns (r: Reply<WorkerRoutes.ChatResult>)
      modifies this
      ensures (r, State()) == WorkerRoutes.ChatMessage(old(State()), data, clean, reply, extracted)
    {
      if session.userId.None? {
        return Unauthorized("Unauthorized");
      }
      var message := Sanitized(data, "message", "", clean);
      var found := UserById(users, session.userId.value);
      if found.None? {
        return NotFound("User not found");
      }
      r := Turn(found.value, message, reply, extracted);
    }

    /** The part of `worker_chat_message` after the worker's row `i` is found. */
    method Turn(i: nat, message: string, reply: string, extracted: Json) returns (r: Reply<WorkerRoutes.ChatResult>)
      requires i < |users|
      modifies this
      ensures (r, State()) == WorkerRoutes.Turn(old(State()), i, message, reply, extracted)
    {
      var user := users[i];
      var stored := ChatHistory(user);
      if stored.None? {
        return ServerError;
      }
      var history := if Truthy(stored.value) then stored.value else EmptyList;
      if !history.JArr? {
        return ServerError;
      }
      var turns := history.items;
      turns := turns + [WorkerRoutes.Message("user", message)];
      turns := turns + [WorkerRoutes.Message("assistant", reply)];
      assert turns == WorkerRoutes.AppendTurn(history.items, message, reply);
      user := SetChatHistory(user, JArr(turns));
      r := Commit(i, user, reply, extracted);
    }

    /** The end of `worker_chat_message`: the merge on the marker, then `db.commit()`. */
    method Commit(i: nat, talked: User, reply: string, extracted: Json) returns (r: Reply<WorkerRoutes.ChatResult>)
      requires i < |users| && talked.id == users[i].id && talked.phone == users[i].phone
      modifies this
      ensures (r, State()) == WorkerRoutes.Commit(old(State()), i, talked, reply, extracted)
    {
      var user := talked;
      var isComplete := Contains(reply, Assistant.CompletionMarker);
      if isComplete {
        if !extracted.JObj? {
          return ServerError;
        }
        user := WorkerRoutes.Merge(user, extracted.members);
        if !Storable(user) {
          // the commit raises: the session is rolled back, the transcript included
          return ServerError;
        }
      }
      users := users[i := user];
      r := Success(WorkerRoutes.ChatResult(reply, isComplete));
    }

    method Apply(jobId: nat) returns (r: Reply<string>)
      modifies this
      ensures (r, State()) == WorkerRoutes.Apply(old(State()), jobId)
    {
      if !IsWorker(session) {
        return Unauthorized("Unauthorized");
      }
      var existing := ApplicationFor(applications, session.userId.value, jobId);
      if existing.Some? {
        return BadRequest("Already applied to this job");
      }
      applications := applications + [Application(|applications| + 1, session.userId.value, jobId, "pending")];
      r := Success("Application submitted successfully");
    }

    method WorkerAccountUpdate(data: map<string, string>, clean: string -> string) returns (r: Reply<string>)
      modifies this
      ensures (r, State()) == WorkerRoutes.WorkerAccountUpdate(old(State()), data, clean)
    {
      if !IsWorker(session) {
        return Unauthorized("Unauthorized");
      }
      var found := UserById(users, session.userId.value);
      if found.None? {
        return NotFound("User not found");
      }
      var i := found.value;
      var user := users[i];
      if Given(data, "name") {
        user := user.(name := JStr(Validators.SanitizeInput(data["name"], clean)));
      }
      if Given(data, "location") {
        user := user.(location := JStr(Validators.SanitizeInput(data["location"], clean)));
      }
      if Given(data, "trade") {
        user := user.(trade := JStr(Validators.SanitizeInput(data["trade"], clean)));
      }
      users := users[i := user];
      r := Success("Profile updated successfully");
    }

    /** The two loops of `worker_jobs_recommended`: `jobs_data`, then `job_matches`. Nothing is written. */
    method JobsRecommended(matched: Result<Json>) returns (r: Reply<seq<seq<Member>>>)
      ensures r == Recommendations.Recommended(State(), matched)
    {
      if !IsWorker(session) {
        return Redirect("index");
      }
      var found := UserById(users, session.userId.value);
      if found.None? || users[found.value].resumeComplete == 0 {
        return Redirect("worker_chat");
      }
      var active := Recommendations.ActiveJobs(jobs);
      var views := JobViewsLoop(active, orgs);
      if views.None? || Skills(users[found.value]).None? || matched.Err? {
        return ServerError;
      }
      var entries := Iterate(matched.value);
      if entries.Err? {
        return ServerError;
      }
      var joined := JoinLoop(Recommendations.Ids(active), views.value, entries.value);
      if joined.Err? {
        return ServerError;
      }
      r := Success(Recommendations.Render(joined.value));
    }

    /** The `jobs_data` loop. */
    static method JobViewsLoop(active: seq<Job>, orgs: seq<Organization>) returns (views: Option<seq<seq<Member>>>)
      ensures views == Recommendations.JobViews(active, orgs)
    {
      var acc: seq<seq<Member>> := [];
      for k := 0 to |active|
        invariant Recommendations.JobViews(active[..k], orgs) == Some(acc)
      {
        assert active[..k + 1][..k] == active[..k];
        var view := Recommendations.JobView(active[k], orgs);
        if view.None? {
          assert Recommendations.JobViews(active, orgs).None?;
          return None;
        }
        acc := acc + [view.value];
      }
      assert active[..|active|] == active;
      views := Some(acc);
    }

    /** The `job_matches` loop over the matcher's entries. */
    static method JoinLoop(ids: seq<nat>, views: seq<seq<Member>>, entries: seq<Json>) returns (joined: Result<Recommendations.Joined>)
      requires |views| == |ids|
      ensures joined.Ok? <==> Recommendations.Join(ids, views, entries).Ok?
      ensures joined.Ok? ==> joined == Recommendations.Join(ids, views, entries)
    {
      var acc := Recommendations.Joined(views, []);
      for t := 0 to |entries|
        invariant Recommendations.Join(ids, views, entries[..t]) == Ok(acc)
      {
        var prefix := entries[..t + 1];
        assert prefix[..t] == entries[..t];
        var next := Recommendations.JoinOne(ids, acc, entries[t]);
        if next.Err? {
          Recommendations.JoinPrefixErr(ids, views, entries, t + 1);
          return next;
        }
        acc := next.value;
      }
      assert entries[..|entries|] == entries;
      joined := Ok(acc);
    }

    method EmployerStart(data: map<string, string>, clean: string -> string) returns (r: Reply<nat>)
      modifies this
      ensures (r, State()) == EmployerRoutes.EmployerStart(old(State()), data, clean)
    {
      var phone := Sanitized(data, "phone", "", clean);
      var name := Sanitized(data, "name", "", clean);
      if !Validators.ValidateIndianPhone(phone) {
        return BadRequest("Invalid phone number");
      }
      var found := OrgByPhone(orgs, phone);
      var id: nat;
      if found.None? {
        id := |orgs| + 1;
        orgs := orgs + [Organization(id, name, phone, None, None, None, None)];
      } else {
        id := orgs[found.value].id;
      }
      session := session.(orgId := Some(id), userType := Some("employer"));
      r := Success(id);
    }

    method PostJob(data: map<string, string>, clean: string -> string,
                   toInt: string -> Option<int>, toFloat: string -> Option<Json>) returns (r: Reply<string>)
      modifies this
      ensures (r, State()) == EmployerRoutes.PostJob(old(State()), data, clean, toInt, toFloat)
    {
      if !IsEmployer(session) {
        return Redirect("index");
      }
      var missing := Validators.ValidateRequiredFields(data, EmployerRoutes.JobFields);
      if missing != [] {
        return BadRequest("Missing fields: " + Join(missing, ", "));
      }
      if !EmployerRoutes.Parses(data, toInt, toFloat) || !EmployerRoutes.Commits(data, toInt, toFloat) {
        return ServerError;
      }
      jobs := jobs + [EmployerRoutes.PostedJob(State(), data, clean, toInt, toFloat)];
      r := Success("Job posted successfully");
    }

    /** The two loops of `employer_matches`, `users_data` then `matches`, and the in-place sort. Nothing is written. */
    method EmployerMatches(jobId: nat, matcher: seq<Member> -> Result<Json>) returns (r: Reply<Matching.Page>)
      ensures r == Matching.MatchesPage(State(), jobId, matcher)
    {
      if !IsEmployer(session) {
        return Redirect("index");
      }
      var found := OwnJob(jobs, jobId, session.orgId.value);
      if found.None? {
        return NotFound("Job not found");
      }
      var job := jobs[found.value];
      var candidates := Matching.Candidates(users);
      var views := UserViewsLoop(candidates);
      if views.None? || Matching.JobData(job).None? {
        return ServerError;
      }
      var rows := CollectLoop(views.value, matcher);
      if rows.Err? {
        return ServerError;
      }
      var ranked := SortLoop(rows.value);
      if ranked.Err? {
        return ServerError;
      }
      r := Success(Matching.Page(job, ranked.value));
    }

    /** The `users_data` loop. */
    static method UserViewsLoop(candidates: seq<User>) returns (views: Option<seq<seq<Member>>>)
      ensures views == Matching.UserViews(candidates)
    {
      var acc: seq<seq<Member>> := [];
      for k := 0 to |candidates|
        invariant Matching.UserViews(candidates[..k]) == Some(acc)
      {
        assert candidates[..k + 1][..k] == candidates[..k];
        var view := Matching.UserView(candidates[k]);
        if view.None? {
          assert Matching.UserViews(candidates).None?;
          return None;
        }
        acc := acc + [view.value];
      }
      assert candidates[..|candidates|] == candidates;
      views := Some(acc);
    }

    /** The `matches` loop: each worker's dict is annotated and kept, or skipped. */
    static method CollectLoop(views: seq<seq<Member>>, matcher: seq<Member> -> Result<Json>) returns (rows: Result<seq<seq<Member>>>)
      ensures rows == Matching.Collect(views, matcher)
    {
      var acc: seq<seq<Member>> := [];
      for k := 0 to |views|
        invariant Matching.Collect(views[..k], matcher) == Ok(acc)
      {
        Matching.CollectNext(views, matcher, k, acc);
        var row := Matching.Annotated(views[k], matcher(views[k]));
        if row.Err? {
          Matching.CollectPrefixErr(views, matcher, k + 1);
          return Err(row.msg);
        }
        if row.value.Some? {
          acc := acc + [row.value.value];
        }
      }
      assert views[..|views|] == views;
      rows := Ok(acc);
    }

    /** `matches.sort(key=..., reverse=True)`: each row in turn inserted after the rows scoring at least as much. */
    static method SortLoop(rows: seq<seq<Member>>) returns (r: Result<seq<seq<Member>>>)
      ensures r == Matching.Rank(rows)
    {
      if !Matching.AllScored(rows) {
        if |rows| <= 1 {
          return Ok(rows);
        }
        return Err("'<' not supported between instances");
      }
      var keyed := Matching.Keyed(rows);
      var sorted: seq<Ranked<seq<Member>>> := [];
      for k := 0 to |keyed|
        invariant sorted == SortDesc(keyed[..k])
      {
        assert keyed[..k + 1][..k] == keyed[..k];
        sorted := Insert(sorted, keyed[k]);
      }
      assert keyed[..|keyed|] == keyed;
      r := Ok(Items(sorted));
    }

    method UpdateApplication(applicationId: nat, data: map<string, string>, clean: string -> string) returns (r: Reply<string>)
      modifies this
      ensures (r, State()) == EmployerRoutes.UpdateApplication(old(State()), applicationId, data, clean)
    {
      if !IsEmployer(session) {
        return Unauthorized("Unauthorized");
      }
      var status := Sanitized(data, "status", "", clean);
      if status !in EmployerRoutes.Statuses {
        return BadRequest("Invalid status");
      }
      var found := ApplicationById(applications, applicationId);
      if found.None? {
        return NotFound("Application not found");
      }
      var i := found.value;
      var job := JobById(jobs, applications[i].jobId);
      if job.None? || jobs[job.value].organizationId != session.orgId.value {
        return Forbidden("Unauthorized");
      }
      applications := applications[i := applications[i].(status := status)];
      r := Success("Application status updated");
    }

    method EmployerAccountUpdate(data: map<string, string>, clean: string -> string) returns (r: Reply<string>)
      modifies this
      ensures (r, State()) == EmployerRoutes.EmployerAccountUpdate(old(State()), data, clean)
    {
      if !IsEmployer(session) {
        return Unauthorized("Unauthorized");
      }
      var found := OrgById(orgs, session.orgId.value);
      if found.None? {
        return NotFound("Organization not found");
      }
      var i := found.value;
      var org := orgs[i];
      if Given(data, "name") {
        org := org.(name := Validators.SanitizeInput(data["name"], clean));
      }
      if Given(data, "email") {
        org := org.(email := Some(Validators.SanitizeInput(data["email"], clean)));
      }
      if Given(data, "location") {
        org := org.(location := Some(Validators.SanitizeInput(data["location"], clean)));
      }
      if Given(data, "industry") {
        org := org.(industry := Some(Validators.SanitizeInput(data["industry"], clean)));
      }
      if Given(data, "description") {
        org := org.(description := Some(Validators.SanitizeInput(data["description"], clean)));
      }
      orgs := orgs[i := org];
      r := Success("Profile updated successfully");
    }

    /** `logout`. */
    method Logout()
      modifies this
      ensures State() == App.LogoutState(old(State()))
    {
      session := EmptySession;
    }
  }
}
