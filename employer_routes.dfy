/**
 * The employer handlers of app.py that change the store: `employer_start`,
 * `employer_post_job`, `employer_update_application` and
 * `employer_account_update`.
 *
 * `int()` and `float()` of request text are inputs (`None` is the
 * `ValueError`); salaries are the JSON numbers `float()` returns.
 */
module EmployerRoutes {
  import opened Wrappers
  import opened PyStr
  import opened Json
  import opened JobModel
  import opened Records
  import Validators
  import JsonColumn

  /** `employer_start`: the first registration of a phone creates the organization; later ones only log in. */
  function EmployerStart(st: State, data: map<string, string>, clean: string -> string): (r: (Reply<nat>, State))
    ensures !Validators.ValidateIndianPhone(Sanitized(data, "phone", "", clean)) ==>
      r == (BadRequest("Invalid phone number"), st)
    ensures Validators.ValidateIndianPhone(Sanitized(data, "phone", "", clean)) ==>
      r.0.Success? && IsEmployer(r.1.session) && r.1.session.orgId == Some(r.0.value) &&
      r.1.session.userId == st.session.userId && r.1.session.language == st.session.language
    ensures r.1.users == st.users && r.1.jobs == st.jobs && r.1.applications == st.applications
    ensures (exists k | 0 <= k < |st.orgs| :: st.orgs[k].phone == Sanitized(data, "phone", "", clean)) ==> r.1.orgs == st.orgs
    ensures Valid(st) ==> Valid(r.1)
  {
    var phone := Sanitized(data, "phone", "", clean);
    var name := Sanitized(data, "name", "", clean);
    if !Validators.ValidateIndianPhone(phone) then (BadRequest("Invalid phone number"), st)
    else
      var (orgs, id) :=
        match OrgByPhone(st.orgs, phone)
        case Some(i) => (st.orgs, st.orgs[i].id)
        case None => (st.orgs + [Organization(|st.orgs| + 1, name, phone, None, None, None, None)], |st.orgs| + 1);
      (Success(id), st.(orgs := orgs, session := st.session.(orgId := Some(id), userType := Some("employer"))))
  }

  /** A phone already registered logs in as that organization, whatever name is sent now. */
  lemma EmployerStartFirstWriteWins(st: State, data: map<string, string>, clean: string -> string, i: nat)
    requires Validators.ValidateIndianPhone(Sanitized(data, "phone", "", clean))
    requires OrgsValid(st.orgs) && i < |st.orgs| && st.orgs[i].phone == Sanitized(data, "phone", "", clean)
    ensures EmployerStart(st, data, clean).0 == Success(i + 1)
    ensures EmployerStart(st, data, clean).1.orgs[i].name == st.orgs[i].name
  {
    var phone := Sanitized(data, "phone", "", clean);
    assert OrgByPhone(st.orgs, phone) == Some(i);
  }

  /** A new phone adds exactly one organization, with the next id, the name sent and no profile yet, and logs in as it. */
  lemma EmployerStartNew(st: State, data: map<string, string>, clean: string -> string)
    requires Validators.ValidateIndianPhone(Sanitized(data, "phone", "", clean))
    requires forall k :: 0 <= k < |st.orgs| ==> st.orgs[k].phone != Sanitized(data, "phone", "", clean)
    ensures var (reply, after) := EmployerStart(st, data, clean);
      var id := |st.orgs| + 1;
      reply == Success(id) &&
      after.orgs == st.orgs + [Organization(id, Sanitized(data, "name", "", clean), Sanitized(data, "phone", "", clean), None, None, None, None)] &&
      after.session == st.session.(orgId := Some(id), userType := Some("employer"))
  {
    var phone := Sanitized(data, "phone", "", clean);
    assert OrgByPhone(st.orgs, phone) == None;
  }

  /** The stripped, non-empty pieces of a comma-separated list. */
  function SkillPieces(parts: seq<string>): (r: seq<string>)
    ensures |r| <= |parts|
    ensures forall k :: 0 <= k < |r| ==> r[k] != "" && r[k][0] !in Whitespace && r[k][|r[k]| - 1] !in Whitespace
  {
    if parts == [] then []
    else
      var last := StripSpace(parts[|parts| - 1]);
      SkillPieces(parts[..|parts| - 1]) + (if last != "" then [last] else [])
  }

  /** `[s.strip() for s in raw.split(',') if s.strip()]`. */
  function SkillsOf(raw: string): (r: seq<string>)
    ensures forall k :: 0 <= k < |r| ==> r[k] != "" && ',' !in r[k]
    ensures forall k :: 0 <= k < |r| ==> StripSpace(r[k]) == r[k]
  {
    var parts := Split(raw, ',');
    SkillsNoComma(parts);
    var r := SkillPieces(parts);
    forall k | 0 <= k < |r| ensures StripSpace(r[k]) == r[k] {
      StripUntouched(r[k], Whitespace);
    }
    r
  }

  lemma {:induction false} SkillsNoComma(parts: seq<string>)
    requires forall k :: 0 <= k < |parts| ==> ',' !in parts[k]
    ensures forall k :: 0 <= k < |SkillPieces(parts)| ==> ',' !in SkillPieces(parts)[k]
  {
    if parts != [] {
      var init := parts[..|parts| - 1];
      var p := parts[|parts| - 1];
      SkillsNoComma(init);
      var last := StripSpace(p);
      var n := Lead(p, Whitespace);
      assert last == p[n..n + |last|];
      assert ',' !in last by {
        forall x | 0 <= x < |last| ensures last[x] != ',' {
          assert last[x] == p[n + x];
        }
      }
    }
  }

  /** Text without the separator splits into itself. */
  lemma {:induction false} SplitWhole(a: string, sep: char)
    requires sep !in a
    ensures Split(a, sep) == [a]
  {
    if a != [] {
      SplitWhole(a[1..], sep);
      assert [a[0]] + a[1..] == a;
    }
  }

  /** Splitting cuts at the first separator. */
  lemma {:induction false} SplitAtFirst(a: string, sep: char, b: string)
    requires sep !in a
    ensures Split(a + [sep] + b, sep) == [a] + Split(b, sep)
  {
    if a == [] {
      assert a + [sep] + b == [sep] + b;
      assert ([sep] + b)[1..] == b;
    } else {
      var s := a + [sep] + b;
      assert s[0] == a[0] && s[1..] == a[1..] + [sep] + b;
      SplitAtFirst(a[1..], sep, b);
      assert [a[0]] + a[1..] == a;
    }
  }

  lemma {:induction false} SkillPiecesConcat(p: seq<string>, q: seq<string>)
    ensures SkillPieces(p + q) == SkillPieces(p) + SkillPieces(q)
  {
    if q == [] {
      assert p + q == p;
    } else {
      var q0 := q[..|q| - 1];
      SkillPiecesConcat(p, q0);
      assert (p + q)[..|p + q| - 1] == p + q0;
      assert (p + q)[|p + q| - 1] == q[|q| - 1];
    }
  }

  lemma SkillPiecesOne(a: string)
    ensures SkillPieces([a]) == (if StripSpace(a) != "" then [StripSpace(a)] else [])
  {
    assert [a][..0] == [];
  }

  /** The first piece before a comma is its own skill when it is not blank, and the rest are the skills of what follows. */
  lemma SkillsOfCons(a: string, b: string)
    requires ',' !in a
    ensures SkillsOf(a + "," + b) == (if StripSpace(a) != "" then [StripSpace(a)] else []) + SkillsOf(b)
  {
    var x := a + "," + b;
    SplitAtFirst(a, ',', b);
    assert Split(x, ',') == [a] + Split(b, ',');
    assert SkillsOf(x) == SkillPieces([a] + Split(b, ','));
    SkillPiecesConcat([a], Split(b, ','));
    SkillPiecesOne(a);
  }

  /** A value without commas is one skill, trimmed; a blank one is none. */
  lemma SkillsOfSingle(a: string)
    requires ',' !in a
    ensures SkillsOf(a) == (if StripSpace(a) != "" then [StripSpace(a)] else [])
  {
    SplitWhole(a, ',');
    SkillPiecesOne(a);
  }

  const JobFields: seq<string> := ["title", "trade", "description", "location"]

  /**
   * `employer_post_job` (the POST request): a job owned by the session's
   * organization, `'active'`, its skills the comma-separated list split and
   * trimmed. `toInt` and `toFloat` stand for `int()` and `float()`. The
   * request fails when a conversion raises or when `db.commit()` cannot bind
   * the experience.
   */
  function PostJob(st: State, data: map<string, string>, clean: string -> string,
                   toInt: string -> Option<int>, toFloat: string -> Option<Json>): (r: (Reply<string>, State))
    ensures !IsEmployer(st.session) ==> r == (Redirect("index"), st)
    ensures IsEmployer(st.session) && Validators.MissingFields(data, JobFields) != [] ==>
      r == (BadRequest("Missing fields: " + Join(Validators.MissingFields(data, JobFields), ", ")), st)
    ensures r.0.Success? <==> IsEmployer(st.session) && Validators.MissingFields(data, JobFields) == [] &&
                              Parses(data, toInt, toFloat) && Commits(data, toInt, toFloat)
    ensures !r.0.Success? ==> r.1 == st
    ensures r.1.users == st.users && r.1.orgs == st.orgs && r.1.applications == st.applications && r.1.session == st.session
    ensures r.0.Success? ==> (|r.1.jobs| == |st.jobs| + 1 && r.1.jobs[..|st.jobs|] == st.jobs &&
                              r.1.jobs[|st.jobs|] == PostedJob(st, data, clean, toInt, toFloat))
    ensures Valid(st) ==> Valid(r.1)
  {
    if !IsEmployer(st.session) then (Redirect("index"), st)
    else
      var missing := Validators.MissingFields(data, JobFields);
      if missing != [] then (BadRequest("Missing fields: " + Join(missing, ", ")), st)
      else
        if !Parses(data, toInt, toFloat) || !Commits(data, toInt, toFloat) then (ServerError, st)
        else
          var job := PostedJob(st, data, clean, toInt, toFloat);
          AppendJobValid(st, job);
          (Success("Job posted successfully"), st.(jobs := st.jobs + [job]))
  }

  /** A job with the next id keeps the store valid. */
  lemma AppendJobValid(st: State, job: Job)
    requires job.id == |st.jobs| + 1
    ensures Valid(st) ==> Valid(st.(jobs := st.jobs + [job]))
  {
  }

  /** `int(data.get('experience_required', 0))`: 0 when the field is absent, the conversion of the sent text otherwise. */
  function Experience(data: map<string, string>, toInt: string -> Option<int>): (r: Option<int>)
    ensures "experience_required" !in data ==> r == Some(0)
    ensures "experience_required" in data ==> r == toInt(data["experience_required"])
  {
    if "experience_required" in data then toInt(data["experience_required"]) else Some(0)
  }

  /** `float(data.get(key, 0))`: `0.0` (`float(0)`) when the field is absent, the conversion of the sent text otherwise. */
  function Salary(data: map<string, string>, key: string, toFloat: string -> Option<Json>): (r: Option<Json>)
    ensures key !in data ==> r == Some(JNum(0, 1))
    ensures key in data ==> r == toFloat(data[key])
  {
    if key in data then toFloat(data[key]) else Some(JNum(0, 1))
  }

  /** None of the three conversions raises. */
  predicate Parses(data: map<string, string>, toInt: string -> Option<int>, toFloat: string -> Option<Json>)
  {
    Experience(data, toInt).Some? && Salary(data, "salary_min", toFloat).Some? && Salary(data, "salary_max", toFloat).Some?
  }

  /**
   * `db.commit()` binds the new row: the experience is an integer the driver
   * takes. The salaries are floats, which always bind.
   */
  predicate Commits(data: map<string, string>, toInt: string -> Option<int>, toFloat: string -> Option<Json>)
    requires Parses(data, toInt, toFloat)
  {
    JsonColumn.SqliteInteger(Experience(data, toInt).value)
  }

  /** The row `employer_post_job` inserts once the fields are present and the numbers parse. */
  function PostedJob(st: State, data: map<string, string>, clean: string -> string,
                     toInt: string -> Option<int>, toFloat: string -> Option<Json>): (job: Job)
    requires IsEmployer(st.session) && Validators.MissingFields(data, JobFields) == [] && Parses(data, toInt, toFloat)
    ensures job.id == |st.jobs| + 1 && job.status == "active" && job.organizationId == st.session.orgId.value
    ensures job.title == Sanitized(data, "title", "", clean) && job.location == Sanitized(data, "location", "", clean)
    ensures job.trade == Sanitized(data, "trade", "", clean) && job.description == Sanitized(data, "description", "", clean)
    ensures job.experienceRequired == Experience(data, toInt).value
    ensures job.salaryMin == Salary(data, "salary_min", toFloat).value && job.salaryMax == Salary(data, "salary_max", toFloat).value
    ensures RequiredSkills(job) == Some(JArr(Strings(SkillsOf(Field(data, "required_skills", "")))))
  {
    Validators.MissingFieldsMembership(data, JobFields, "title");
    Validators.MissingFieldsMembership(data, JobFields, "trade");
    Validators.MissingFieldsMembership(data, JobFields, "description");
    Validators.MissingFieldsMembership(data, JobFields, "location");
    NewJob(|st.jobs| + 1, st.session.orgId.value,
           Validators.SanitizeInput(data["title"], clean), Validators.SanitizeInput(data["trade"], clean),
           Validators.SanitizeInput(data["description"], clean), JArr(Strings(SkillsOf(Field(data, "required_skills", "")))),
           Experience(data, toInt).value, Validators.SanitizeInput(data["location"], clean),
           Salary(data, "salary_min", toFloat).value, Salary(data, "salary_max", toFloat).value)
  }

  /** JSON strings for a list of texts. */
  function Strings(xs: seq<string>): (r: seq<Json>)
    ensures |r| == |xs| && forall k :: 0 <= k < |xs| ==> r[k] == JStr(xs[k])
  {
    if xs == [] then [] else [JStr(xs[0])] + Strings(xs[1..])
  }

  /** A job needs all four fields: leaving out any one of them posts nothing. */
  lemma PostJobNeedsField(st: State, data: map<string, string>, clean: string -> string,
                          toInt: string -> Option<int>, toFloat: string -> Option<Json>, f: string)
    requires IsEmployer(st.session) && f in JobFields && !Given(data, f)
    ensures PostJob(st, data, clean, toInt, toFloat).1 == st
    ensures PostJob(st, data, clean, toInt, toFloat).0.BadRequest?
  {
    Validators.MissingFieldsMembership(data, JobFields, f);
  }

  /**
   * An `experience_required` that `int()` turns into an integer wider than
   * 64 bits passes the conversion but not `db.commit()`: the request fails
   * and no job is added.
   */
  lemma PostJobOverflowFails(st: State, data: map<string, string>, clean: string -> string,
                             toInt: string -> Option<int>, toFloat: string -> Option<Json>, n: int)
    requires "experience_required" in data && toInt(data["experience_required"]) == Some(n)
    requires !JsonColumn.SqliteInteger(n)
    ensures !PostJob(st, data, clean, toInt, toFloat).0.Success?
    ensures PostJob(st, data, clean, toInt, toFloat).1 == st
  {
  }

  const Statuses: set<string> := {"pending", "approved", "rejected"}

  /**
   * `employer_update_application`: the status must be one of the three, the
   * application must exist, and its job must belong to the session's
   * organization, checked in that order; then only that status changes.
   */
  function UpdateApplication(st: State, applicationId: nat, data: map<string, string>, clean: string -> string): (r: (Reply<string>, State))
    ensures !IsEmployer(st.session) ==> r == (Unauthorized("Unauthorized"), st)
    ensures IsEmployer(st.session) && Sanitized(data, "status", "", clean) !in Statuses ==> r == (BadRequest("Invalid status"), st)
    ensures IsEmployer(st.session) && Sanitized(data, "status", "", clean) in Statuses && ApplicationById(st.applications, applicationId).None? ==>
      r == (NotFound("Application not found"), st)
    ensures !r.0.Success? ==> r.1 == st
    ensures r.1.users == st.users && r.1.orgs == st.orgs && r.1.jobs == st.jobs && r.1.session == st.session
    ensures |r.1.applications| == |st.applications|
    ensures r.0.Success? ==> exists i | 0 <= i < |st.applications| ::
      st.applications[i].id == applicationId &&
      r.1.applications == st.applications[i := st.applications[i].(status := Sanitized(data, "status", "", clean))] &&
      OwnedBy(st.jobs, st.applications[i].jobId, st.session.orgId.value)
    ensures Valid(st) ==> Valid(r.1)
  {
    if !IsEmployer(st.session) then (Unauthorized("Unauthorized"), st)
    else
      var status := Sanitized(data, "status", "", clean);
      if status !in Statuses then (BadRequest("Invalid status"), st)
      else
        match ApplicationById(st.applications, applicationId)
        case None => (NotFound("Application not found"), st)
        case Some(i) =>
          var app := st.applications[i];
          match JobById(st.jobs, app.jobId)
          case None => (Forbidden("Unauthorized"), st)
          case Some(k) =>
            if st.jobs[k].organizationId != st.session.orgId.value then (Forbidden("Unauthorized"), st)
            else
              assert OwnedBy(st.jobs, app.jobId, st.session.orgId.value);
              (Success("Application status updated"), st.(applications := st.applications[i := app.(status := status)]))
  }

  /** The first job with id `jobId` exists and belongs to organization `orgId`. */
  predicate OwnedBy(jobs: seq<Job>, jobId: nat, orgId: nat)
  {
    exists k | 0 <= k < |jobs| :: jobs[k].id == jobId && jobs[k].organizationId == orgId &&
      forall m | 0 <= m < k :: jobs[m].id != jobId
  }

  /** A valid status for an application of one of the session's own jobs is written, and only to that application. */
  lemma UpdateOwnApplication(st: State, applicationId: nat, data: map<string, string>, clean: string -> string, i: nat)
    requires IsEmployer(st.session) && Sanitized(data, "status", "", clean) in Statuses
    requires ApplicationsValid(st.applications) && JobsValid(st.jobs)
    requires i < |st.applications| && st.applications[i].id == applicationId
    requires var jobId := st.applications[i].jobId;
      1 <= jobId <= |st.jobs| && st.jobs[jobId - 1].organizationId == st.session.orgId.value
    ensures UpdateApplication(st, applicationId, data, clean) ==
      (Success("Application status updated"),
       st.(applications := st.applications[i := st.applications[i].(status := Sanitized(data, "status", "", clean))]))
  {
    assert ApplicationById(st.applications, applicationId) == Some(i);
    var jobId := st.applications[i].jobId;
    assert JobById(st.jobs, jobId) == Some(jobId - 1);
  }

  /** An application whose job another organization owns is refused, and nothing changes. */
  lemma UpdateForeignApplication(st: State, applicationId: nat, data: map<string, string>, clean: string -> string, i: nat)
    requires IsEmployer(st.session) && Sanitized(data, "status", "", clean) in Statuses
    requires ApplicationsValid(st.applications) && JobsValid(st.jobs)
    requires i < |st.applications| && st.applications[i].id == applicationId
    requires var jobId := st.applications[i].jobId;
      1 <= jobId <= |st.jobs| && st.jobs[jobId - 1].organizationId != st.session.orgId.value
    ensures UpdateApplication(st, applicationId, data, clean) == (Forbidden("Unauthorized"), st)
  {
    assert ApplicationById(st.applications, applicationId) == Some(i);
    var jobId := st.applications[i].jobId;
    assert JobById(st.jobs, jobId) == Some(jobId - 1);
  }

  /** `employer_account_update`: the five profile fields are overwritten where the request gives a non-empty value. */
  function EmployerAccountUpdate(st: State, data: map<string, string>, clean: string -> string): (r: (Reply<string>, State))
    ensures !IsEmployer(st.session) ==> r == (Unauthorized("Unauthorized"), st)
    ensures IsEmployer(st.session) && OrgById(st.orgs, st.session.orgId.value).None? ==> r == (NotFound("Organization not found"), st)
    ensures !r.0.Success? ==> r.1 == st
    ensures r.1.users == st.users && r.1.jobs == st.jobs && r.1.applications == st.applications && r.1.session == st.session
    ensures |r.1.orgs| == |st.orgs|
    ensures forall k :: 0 <= k < |st.orgs| ==> r.1.orgs[k].id == st.orgs[k].id && r.1.orgs[k].phone == st.orgs[k].phone
    ensures IsEmployer(st.session) ==>
      forall k :: 0 <= k < |st.orgs| && st.orgs[k].id != st.session.orgId.value ==> r.1.orgs[k] == st.orgs[k]
    ensures Valid(st) ==> Valid(r.1)
  {
    if !IsEmployer(st.session) then (Unauthorized("Unauthorized"), st)
    else
      match OrgById(st.orgs, st.session.orgId.value)
      case None => (NotFound("Organization not found"), st)
      case Some(i) =>
        var o := st.orgs[i];
        var updated := o.(
          name := if Given(data, "name") then Validators.SanitizeInput(data["name"], clean) else o.name,
          email := if Given(data, "email") then Some(Validators.SanitizeInput(data["email"], clean)) else o.email,
          location := if Given(data, "location") then Some(Validators.SanitizeInput(data["location"], clean)) else o.location,
          industry := if Given(data, "industry") then Some(Validators.SanitizeInput(data["industry"], clean)) else o.industry,
          description := if Given(data, "description") then Some(Validators.SanitizeInput(data["description"], clean)) else o.description);
        (Success("Profile updated successfully"), st.(orgs := st.orgs[i := updated]))
  }

  /**
   * The row `employer_account_update` changes is the session's organization:
   * each of the five fields the request gives non-empty takes its cleaned
   * text, the others and the id and phone stay, and no other row changes.
   */
  lemma EmployerAccountUpdateRow(st: State, data: map<string, string>, clean: string -> string, i: nat)
    requires IsEmployer(st.session) && OrgById(st.orgs, st.session.orgId.value) == Some(i)
    ensures var (out, after) := EmployerAccountUpdate(st, data, clean);
      var (o, p) := (st.orgs[i], after.orgs[i]);
      out == Success("Profile updated successfully") && p.id == o.id && p.phone == o.phone &&
      p.name == (if Given(data, "name") then Validators.SanitizeInput(data["name"], clean) else o.name) &&
      p.email == (if Given(data, "email") then Some(Validators.SanitizeInput(data["email"], clean)) else o.email) &&
      p.location == (if Given(data, "location") then Some(Validators.SanitizeInput(data["location"], clean)) else o.location) &&
      p.industry == (if Given(data, "industry") then Some(Validators.SanitizeInput(data["industry"], clean)) else o.industry) &&
      p.description == (if Given(data, "description") then Some(Validators.SanitizeInput(data["description"], clean)) else o.description) &&
      forall k :: 0 <= k < |st.orgs| && k != i ==> after.orgs[k] == st.orgs[k]
  {
  }
}
