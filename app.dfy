/**
 * app.py as one state machine: a request is one of the handlers modelled,
 * with its body and whatever the remote services answered, and `Step` is the
 * store after it. The handlers not listed (the dashboards, the GET pages,
 * the resume pages) only read the tables.
 */
module App {
  import opened Wrappers
  import opened Json
  import opened UserModel
  import opened JobModel
  import opened Records
  import WorkerRoutes
  import EmployerRoutes
  import Validators

  /**
   * One request. `clean` is `bleach.clean`; `reply`/`extracted` are what the
   * assistant answered and extracted; `matched` and `matcher` are what
   * `match_jobs_for_user` returned; `toInt`/`toFloat` are `int()`/`float()`.
   */
  datatype Request =
    | WorkerStart(data: map<string, string>, clean: string -> string)
    | ChatMessage(data: map<string, string>, clean: string -> string, reply: string, extracted: Json)
    | Apply(jobId: nat)
    | WorkerAccountUpdate(data: map<string, string>, clean: string -> string)
    | Recommended(matched: Result<Json>)
    | EmployerStart(data: map<string, string>, clean: string -> string)
    | PostJob(data: map<string, string>, clean: string -> string, toInt: string -> Option<int>, toFloat: string -> Option<Json>)
    | Matches(jobId: nat, matcher: seq<Member> -> Result<Json>)
    | UpdateApplication(applicationId: nat, data: map<string, string>, clean: string -> string)
    | EmployerAccountUpdate(data: map<string, string>, clean: string -> string)
    | Logout

  /** The empty database and an empty session. */
  const Initial: State := State([], [], [], [], EmptySession)

  /** `logout`: `session.clear()`. */
  function LogoutState(st: State): (r: State)
    ensures r.session == EmptySession && r.(session := st.session) == st
  {
    st.(session := EmptySession)
  }

  /** The store after one request. */
  function Step(st: State, req: Request): State
  {
    match req
    case WorkerStart(data, clean) => WorkerRoutes.WorkerStart(st, data, clean).1
    case ChatMessage(data, clean, reply, extracted) => WorkerRoutes.ChatMessage(st, data, clean, reply, extracted).1
    case Apply(jobId) => WorkerRoutes.Apply(st, jobId).1
    case WorkerAccountUpdate(data, clean) => WorkerRoutes.WorkerAccountUpdate(st, data, clean).1
    case Recommended(_) => st
    case EmployerStart(data, clean) => EmployerRoutes.EmployerStart(st, data, clean).1
    case PostJob(data, clean, toInt, toFloat) => EmployerRoutes.PostJob(st, data, clean, toInt, toFloat).1
    case Matches(_, _) => st
    case UpdateApplication(applicationId, data, clean) => EmployerRoutes.UpdateApplication(st, applicationId, data, clean).1
    case EmployerAccountUpdate(data, clean) => EmployerRoutes.EmployerAccountUpdate(st, data, clean).1
    case Logout => LogoutState(st)
  }

  /** The store after a series of requests, in order. */
  function Run(st: State, reqs: seq<Request>): State
  {
    if reqs == [] then st else Step(Run(st, reqs[..|reqs| - 1]), reqs[|reqs| - 1])
  }

  /** Every handler keeps the store's invariant. */
  lemma StepValid(st: State, req: Request)
    requires Valid(st)
    ensures Valid(Step(st, req))
  {
  }

  /** So does every series of requests from the empty store. */
  lemma {:induction false} RunValid(reqs: seq<Request>)
    ensures Valid(Run(Initial, reqs))
  {
    if reqs != [] {
      RunValid(reqs[..|reqs| - 1]);
      StepValid(Run(Initial, reqs[..|reqs| - 1]), reqs[|reqs| - 1]);
    }
  }

  /**
   * How the tables may change: rows are never removed, a row keeps its id
   * (and a worker or organization its phone, an application its worker and
   * job), a posted job never changes, and `resume_complete` only ever
   * becomes 1: once it is 1 it stays 1.
   */
  predicate Grows(before: State, after: State)
  {
    |before.users| <= |after.users| &&
    (forall k :: 0 <= k < |before.users| ==>
      after.users[k].id == before.users[k].id && after.users[k].phone == before.users[k].phone &&
      (after.users[k].resumeComplete == before.users[k].resumeComplete || after.users[k].resumeComplete == 1)) &&
    |before.orgs| <= |after.orgs| &&
    (forall k :: 0 <= k < |before.orgs| ==> after.orgs[k].id == before.orgs[k].id && after.orgs[k].phone == before.orgs[k].phone) &&
    |before.jobs| <= |after.jobs| && after.jobs[..|before.jobs|] == before.jobs &&
    |before.applications| <= |after.applications| &&
    (forall k :: 0 <= k < |before.applications| ==>
      after.applications[k].(status := before.applications[k].status) == before.applications[k])
  }

  lemma GrowsTransitive(a: State, b: State, c: State)
    requires Grows(a, b) && Grows(b, c)
    ensures Grows(a, c)
  {
    assert c.jobs[..|a.jobs|] == c.jobs[..|b.jobs|][..|a.jobs|];
  }

  lemma WorkerStartGrows(st: State, data: map<string, string>, clean: string -> string)
    ensures Grows(st, WorkerRoutes.WorkerStart(st, data, clean).1)
  {
  }

  lemma ChatGrows(st: State, data: map<string, string>, clean: string -> string, reply: string, extracted: Json)
    ensures Grows(st, WorkerRoutes.ChatMessage(st, data, clean, reply, extracted).1)
  {
  }

  lemma ApplyGrows(st: State, jobId: nat)
    ensures Grows(st, WorkerRoutes.Apply(st, jobId).1)
  {
  }

  lemma WorkerAccountUpdateGrows(st: State, data: map<string, string>, clean: string -> string)
    ensures Grows(st, WorkerRoutes.WorkerAccountUpdate(st, data, clean).1)
  {
  }

  lemma EmployerStartGrows(st: State, data: map<string, string>, clean: string -> string)
    ensures Grows(st, EmployerRoutes.EmployerStart(st, data, clean).1)
  {
  }

  lemma PostJobGrows(st: State, data: map<string, string>, clean: string -> string,
                     toInt: string -> Option<int>, toFloat: string -> Option<Json>)
    ensures Grows(st, EmployerRoutes.PostJob(st, data, clean, toInt, toFloat).1)
  {
    assert EmployerRoutes.PostJob(st, data, clean, toInt, toFloat).1.jobs[..|st.jobs|] == st.jobs;
  }

  lemma UpdateApplicationGrows(st: State, applicationId: nat, data: map<string, string>, clean: string -> string)
    ensures Grows(st, EmployerRoutes.UpdateApplication(st, applicationId, data, clean).1)
  {
  }

  lemma EmployerAccountUpdateGrows(st: State, data: map<string, string>, clean: string -> string)
    ensures Grows(st, EmployerRoutes.EmployerAccountUpdate(st, data, clean).1)
  {
  }

  /** A request that changes nothing grows the store. */
  lemma SameGrows(st: State)
    ensures Grows(st, st)
  {
    assert st.jobs[..|st.jobs|] == st.jobs;
  }

  /** What one request may change, for every request. */
  lemma StepGrows(st: State, req: Request)
    ensures Grows(st, Step(st, req))
  {
    match req
    case WorkerStart(data, clean) => WorkerStartGrows(st, data, clean);
    case ChatMessage(data, clean, reply, extracted) => ChatGrows(st, data, clean, reply, extracted);
    case Apply(jobId) => ApplyGrows(st, jobId);
    case WorkerAccountUpdate(data, clean) => WorkerAccountUpdateGrows(st, data, clean);
    case Recommended(_) => SameGrows(st);
    case EmployerStart(data, clean) => EmployerStartGrows(st, data, clean);
    case PostJob(data, clean, toInt, toFloat) => PostJobGrows(st, data, clean, toInt, toFloat);
    case Matches(_, _) => SameGrows(st);
    case UpdateApplication(applicationId, data, clean) => UpdateApplicationGrows(st, applicationId, data, clean);
    case EmployerAccountUpdate(data, clean) => EmployerAccountUpdateGrows(st, data, clean);
    case Logout => SameGrows(st); assert Step(st, req).jobs == st.jobs;
  }

  /** Across any series of requests: a finished resume is never reopened, and nothing is ever deleted. */
  lemma {:induction false} RunGrows(st: State, reqs: seq<Request>)
    ensures Grows(st, Run(st, reqs))
  {
    if reqs == [] {
      assert st.jobs[..|st.jobs|] == st.jobs;
    } else {
      var mid := Run(st, reqs[..|reqs| - 1]);
      RunGrows(st, reqs[..|reqs| - 1]);
      StepGrows(mid, reqs[|reqs| - 1]);
      GrowsTransitive(st, mid, Run(st, reqs));
    }
  }

  /** A worker never leaves the session logged in as anyone but the one the phone names. */
  lemma WorkerStartLogsIn(st: State, data: map<string, string>, clean: string -> string)
    requires UsersValid(st.users)
    requires Validators.ValidateIndianPhone(Sanitized(data, "phone", "", clean))
    ensures var after := Step(st, WorkerStart(data, clean));
      var id := after.session.userId.value;
      IsWorker(after.session) && 1 <= id <= |after.users| && after.users[id - 1].phone == Sanitized(data, "phone", "", clean)
  {
    var phone := Sanitized(data, "phone", "", clean);
    match UserByPhone(st.users, phone)
    case Some(i) => WorkerRoutes.WorkerStartExisting(st, data, clean, i);
    case None => WorkerRoutes.WorkerStartNew(st, data, clean);
  }

  /** After `logout` no handler that checks the session lets the request through. */
  lemma LogoutLocksOut(st: State, jobId: nat, data: map<string, string>, clean: string -> string, reply: string, extracted: Json)
    ensures var out := Step(st, Logout);
      WorkerRoutes.Apply(out, jobId).0 == Unauthorized("Unauthorized") &&
      WorkerRoutes.ChatMessage(out, data, clean, reply, extracted).0 == Unauthorized("Unauthorized") &&
      EmployerRoutes.UpdateApplication(out, jobId, data, clean).0 == Unauthorized("Unauthorized")
  {
    assert Step(st, Logout) == LogoutState(st);
    LockedOut(LogoutState(st), jobId, data, clean, reply, extracted);
  }

  /** With an empty session the handlers that check it answer 401. */
  lemma LockedOut(out: State, jobId: nat, data: map<string, string>, clean: string -> string, reply: string, extracted: Json)
    requires out.session == EmptySession
    ensures WorkerRoutes.Apply(out, jobId).0 == Unauthorized("Unauthorized")
    ensures WorkerRoutes.ChatMessage(out, data, clean, reply, extracted).0 == Unauthorized("Unauthorized")
    ensures EmployerRoutes.UpdateApplication(out, jobId, data, clean).0 == Unauthorized("Unauthorized")
  {
  }
}
