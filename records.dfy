/**
 * The database and session that the handlers of app.py work on.
 *
 * Each table is a sequence in insertion order. The app never deletes a row,
 * so a row's `id` (SQLite's autoincrement key) is its position plus one and
 * `.all()` visits rows in that order. models/organization.py and
 * models/application.py only declare columns; their rows are the records
 * below.
 */
module Records {
  import opened Wrappers
  import opened UserModel
  import opened JobModel
  import Validators

  /** A row of `organizations`; the optional columns are NULL until set. */
  datatype Organization = Organization(
    id: nat, name: string, phone: string,
    email: Option<string>, location: Option<string>, industry: Option<string>, description: Option<string>)

  /** A row of `applications`: `status` is `'pending'` on creation. */
  datatype Application = Application(id: nat, userId: nat, jobId: nat, status: string)

  /** The session keys the handlers read and write; an absent key is `None`. */
  datatype Session = Session(userId: Option<nat>, orgId: Option<nat>, userType: Option<string>, language: Option<string>)

  const EmptySession: Session := Session(None, None, None, None)

  datatype State = State(
    users: seq<User>, orgs: seq<Organization>, jobs: seq<Job>, applications: seq<Application>, session: Session)

  /** How a handler answers: JSON success, an error status with its message, a redirect, or a 500 from an uncaught exception. */
  datatype Reply<T> =
    | Success(value: T)
    | BadRequest(error: string)
    | Unauthorized(error: string)
    | Forbidden(error: string)
    | NotFound(error: string)
    | Redirect(target: string)
    | ServerError

  /** `query.filter(p).first()`: the position of the first row satisfying `p`. */
  function First<T>(xs: seq<T>, p: T -> bool): (r: Option<nat>)
    ensures r.Some? ==> r.value < |xs| && p(xs[r.value]) && forall k :: 0 <= k < r.value ==> !p(xs[k])
    ensures r.None? ==> forall k :: 0 <= k < |xs| ==> !p(xs[k])
  {
    if xs == [] then None
    else if p(xs[0]) then Some(0)
    else
      match First(xs[1..], p)
      case None => None
      case Some(k) =>
        assert forall j :: 0 < j <= k ==> xs[j] == xs[1..][j - 1];
        Some(k + 1)
  }

  /** `filter_by(phone=phone).first()` on `users`. */
  function UserByPhone(users: seq<User>, phone: string): (r: Option<nat>)
    ensures r.Some? ==> r.value < |users| && users[r.value].phone == phone && forall k :: 0 <= k < r.value ==> users[k].phone != phone
    ensures r.None? ==> forall k :: 0 <= k < |users| ==> users[k].phone != phone
  {
    First(users, (u: User) => u.phone == phone)
  }

  /** `filter_by(id=id).first()` on `users`. */
  function UserById(users: seq<User>, id: nat): (r: Option<nat>)
    ensures r.Some? ==> r.value < |users| && users[r.value].id == id && forall k :: 0 <= k < r.value ==> users[k].id != id
    ensures r.None? ==> forall k :: 0 <= k < |users| ==> users[k].id != id
  {
    First(users, (u: User) => u.id == id)
  }

  /** `filter_by(phone=phone).first()` on `organizations`. */
  function OrgByPhone(orgs: seq<Organization>, phone: string): (r: Option<nat>)
    ensures r.Some? ==> r.value < |orgs| && orgs[r.value].phone == phone && forall k :: 0 <= k < r.value ==> orgs[k].phone != phone
    ensures r.None? ==> forall k :: 0 <= k < |orgs| ==> orgs[k].phone != phone
  {
    First(orgs, (o: Organization) => o.phone == phone)
  }

  /** `filter_by(id=id).first()` on `organizations`. */
  function OrgById(orgs: seq<Organization>, id: nat): (r: Option<nat>)
    ensures r.Some? ==> r.value < |orgs| && orgs[r.value].id == id && forall k :: 0 <= k < r.value ==> orgs[k].id != id
    ensures r.None? ==> forall k :: 0 <= k < |orgs| ==> orgs[k].id != id
  {
    First(orgs, (o: Organization) => o.id == id)
  }

  /** `filter_by(id=id).first()` on `jobs`. */
  function JobById(jobs: seq<Job>, id: nat): (r: Option<nat>)
    ensures r.Some? ==> r.value < |jobs| && jobs[r.value].id == id && forall k :: 0 <= k < r.value ==> jobs[k].id != id
    ensures r.None? ==> forall k :: 0 <= k < |jobs| ==> jobs[k].id != id
  {
    First(jobs, (j: Job) => j.id == id)
  }

  /** `filter_by(id=id, organization_id=orgId).first()` on `jobs`. */
  function OwnJob(jobs: seq<Job>, id: nat, orgId: nat): (r: Option<nat>)
    ensures r.Some? ==> r.value < |jobs| && jobs[r.value].id == id && jobs[r.value].organizationId == orgId
    ensures r.None? ==> forall k :: 0 <= k < |jobs| ==> jobs[k].id != id || jobs[k].organizationId != orgId
  {
    First(jobs, (j: Job) => j.id == id && j.organizationId == orgId)
  }

  /** `filter_by(id=id).first()` on `applications`. */
  function ApplicationById(apps: seq<Application>, id: nat): (r: Option<nat>)
    ensures r.Some? ==> r.value < |apps| && apps[r.value].id == id && forall k :: 0 <= k < r.value ==> apps[k].id != id
    ensures r.None? ==> forall k :: 0 <= k < |apps| ==> apps[k].id != id
  {
    First(apps, (a: Application) => a.id == id)
  }

  /** `filter_by(user_id=userId, job_id=jobId).first()` on `applications`. */
  function ApplicationFor(apps: seq<Application>, userId: nat, jobId: nat): (r: Option<nat>)
    ensures r.Some? ==> r.value < |apps| && apps[r.value].userId == userId && apps[r.value].jobId == jobId
    ensures r.None? ==> forall k :: 0 <= k < |apps| ==> apps[k].userId != userId || apps[k].jobId != jobId
  {
    First(apps, (a: Application) => a.userId == userId && a.jobId == jobId)
  }

  /** `data.get(key, default)` on a request body whose values are strings. */
  function Field(data: map<string, string>, key: string, default: string): string
  {
    if key in data then data[key] else default
  }

  /** `key in data and data[key]`. */
  predicate Given(data: map<string, string>, key: string)
  {
    key in data && data[key] != ""
  }

  /** `sanitize_input(data.get(key, default))`, with `clean` standing for `bleach.clean`. */
  function Sanitized(data: map<string, string>, key: string, default: string, clean: string -> string): string
  {
    Validators.SanitizeInput(Field(data, key, default), clean)
  }

  /** `'user_id' in session and session.get('user_type') == 'worker'`. */
  predicate IsWorker(s: Session)
  {
    s.userId.Some? && s.userType == Some("worker")
  }

  /** `'org_id' in session and session.get('user_type') == 'employer'`. */
  predicate IsEmployer(s: Session)
  {
    s.orgId.Some? && s.userType == Some("employer")
  }

  predicate UsersValid(users: seq<User>)
  {
    (forall i :: 0 <= i < |users| ==> users[i].id == i + 1) &&
    forall i, j :: 0 <= i < j < |users| ==> users[i].phone != users[j].phone
  }

  /** Rewriting a worker's row without touching its id or phone keeps the table valid. */
  lemma SetUserValid(users: seq<User>, i: nat, u: User)
    requires i < |users| && u.id == users[i].id && u.phone == users[i].phone
    ensures UsersValid(users) ==> UsersValid(users[i := u])
  {
  }

  predicate OrgsValid(orgs: seq<Organization>)
  {
    (forall i :: 0 <= i < |orgs| ==> orgs[i].id == i + 1) &&
    forall i, j :: 0 <= i < j < |orgs| ==> orgs[i].phone != orgs[j].phone
  }

  predicate JobsValid(jobs: seq<Job>)
  {
    forall i :: 0 <= i < |jobs| ==> jobs[i].id == i + 1
  }

  /** Row ids are positions plus one, and no worker has applied to the same job twice. */
  predicate ApplicationsValid(apps: seq<Application>)
  {
    (forall i :: 0 <= i < |apps| ==> apps[i].id == i + 1) &&
    forall i, j :: 0 <= i < j < |apps| ==> apps[i].userId != apps[j].userId || apps[i].jobId != apps[j].jobId
  }

  /**
   * What the handlers keep true: ids follow positions, worker phones and
   * organization phones are unique (the `unique=True` columns, which the
   * start handlers respect by looking up before inserting), and applications
   * are unique per worker and job.
   */
  predicate Valid(st: State)
  {
    UsersValid(st.users) && OrgsValid(st.orgs) && JobsValid(st.jobs) && ApplicationsValid(st.applications)
  }
}
