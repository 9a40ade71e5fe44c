/**
 * The worker handlers of app.py that change the store: `worker_start`,
 * `worker_chat_message`, `worker_apply` and `worker_account_update`, each a
 * function from the state before the request to the reply and the state
 * after it. A handler that raises before `db.commit()` leaves the tables as
 * they were.
 *
 * What the assistant answers (`assistant.chat`) and what it extracts
 * (`assistant.extract_resume_data`) are inputs; utils/ai_assistant.py
 * guarantees the first never raises.
 */
module WorkerRoutes {
  import opened Wrappers
  import opened PyStr
  import opened Json
  import opened UserModel
  import opened Records
  import Validators
  import Assistant
  import JsonColumn

  /** `worker_start`: log a worker in by phone, creating the account on first use. */
  function WorkerStart(st: State, data: map<string, string>, clean: string -> string): (r: (Reply<nat>, State))
    ensures !Validators.ValidateIndianPhone(Sanitized(data, "phone", "", clean)) ==>
      r == (BadRequest("Invalid phone number"), st)
    ensures Validators.ValidateIndianPhone(Sanitized(data, "phone", "", clean)) ==>
      r.0.Success? && r.1.orgs == st.orgs && r.1.jobs == st.jobs && r.1.applications == st.applications &&
      IsWorker(r.1.session) && r.1.session.userId == Some(r.0.value) && r.1.session.orgId == st.session.orgId &&
      r.1.session.language == Some(Sanitized(data, "language", "en", clean))
    ensures Valid(st) ==> Valid(r.1)
  {
    var phone := Sanitized(data, "phone", "", clean);
    var language := Sanitized(data, "language", "en", clean);
    if !Validators.ValidateIndianPhone(phone) then (BadRequest("Invalid phone number"), st)
    else
      var (users, id) :=
        match UserByPhone(st.users, phone)
        case Some(i) => (st.users[i := st.users[i].(language := language)], st.users[i].id)
        case None => (st.users + [NewUser(|st.users| + 1, phone, language)], |st.users| + 1);
      (Success(id), st.(users := users, session := st.session.(userId := Some(id), userType := Some("worker"), language := Some(language))))
  }

  /** A known phone: the reply is that worker's id and the only column written is its `language`. */
  lemma WorkerStartExisting(st: State, data: map<string, string>, clean: string -> string, i: nat)
    requires Validators.ValidateIndianPhone(Sanitized(data, "phone", "", clean))
    requires UsersValid(st.users) && i < |st.users| && st.users[i].phone == Sanitized(data, "phone", "", clean)
    ensures var (reply, after) := WorkerStart(st, data, clean);
      reply == Success(i + 1) && after.users == st.users[i := st.users[i].(language := Sanitized(data, "language", "en", clean))]
  {
    var phone := Sanitized(data, "phone", "", clean);
    var found := UserByPhone(st.users, phone);
    assert found == Some(i);
  }

  /** A new phone: exactly one worker is added, with the next id, the defaults and the requested language. */
  lemma WorkerStartNew(st: State, data: map<string, string>, clean: string -> string)
    requires Validators.ValidateIndianPhone(Sanitized(data, "phone", "", clean))
    requires forall k :: 0 <= k < |st.users| ==> st.users[k].phone != Sanitized(data, "phone", "", clean)
    ensures var (reply, after) := WorkerStart(st, data, clean);
      reply == Success(|st.users| + 1) &&
      after.users == st.users + [NewUser(|st.users| + 1, Sanitized(data, "phone", "", clean), Sanitized(data, "language", "en", clean))]
  {
    var phone := Sanitized(data, "phone", "", clean);
    var found := UserByPhone(st.users, phone);
    assert found == None;
  }

  /** A stored chat message: `{"role": role, "content": content}`. */
  function Message(role: string, content: string): Json
  {
    JObj([Member("role", JStr(role)), Member("content", JStr(content))])
  }

  /** The JSON body of a chat turn. */
  datatype ChatResult = ChatResult(response: string, isComplete: bool)

  /**
   * The profile update once the marker is seen: each scalar field keeps its
   * value when `data` lacks the key, `skills` and `work_history` become `[]`
   * when it does, and `resume_complete` becomes 1.
   */
  function Merge(u: User, data: seq<Member>): (r: User)
    ensures !HasKey(data, "name") ==> r.name == u.name
    ensures !HasKey(data, "trade") ==> r.trade == u.trade
    ensures !HasKey(data, "experience_years") ==> r.experienceYears == u.experienceYears
    ensures !HasKey(data, "location") ==> r.location == u.location
    ensures !HasKey(data, "education") ==> r.education == u.education
    ensures !HasKey(data, "certifications") ==> r.certifications == u.certifications
    ensures HasKey(data, "name") ==> Lookup(data, "name") == Some(r.name)
    ensures HasKey(data, "trade") ==> Lookup(data, "trade") == Some(r.trade)
    ensures HasKey(data, "experience_years") ==> Lookup(data, "experience_years") == Some(r.experienceYears)
    ensures HasKey(data, "location") ==> Lookup(data, "location") == Some(r.location)
    ensures HasKey(data, "education") ==> Lookup(data, "education") == Some(r.education)
    ensures HasKey(data, "certifications") ==> Lookup(data, "certifications") == Some(r.certifications)
    ensures Skills(r) == Some(GetOr(data, "skills", EmptyList))
    ensures WorkHistory(r) == Some(GetOr(data, "work_history", EmptyList))
    ensures !HasKey(data, "skills") ==> Skills(r) == Some(EmptyList)
    ensures !HasKey(data, "work_history") ==> WorkHistory(r) == Some(EmptyList)
    ensures r.resumeComplete == 1
    ensures r.id == u.id && r.phone == u.phone && r.language == u.language && r.chatHistoryJson == u.chatHistoryJson
  {
    var profile := u.(name := GetOr(data, "name", u.name), trade := GetOr(data, "trade", u.trade),
                      experienceYears := GetOr(data, "experience_years", u.experienceYears),
                      location := GetOr(data, "location", u.location),
                      education := GetOr(data, "education", u.education),
                      certifications := GetOr(data, "certifications", u.certifications));
    var withSkills := SetSkills(profile, GetOr(data, "skills", EmptyList));
    var withHistory := SetWorkHistory(withSkills, GetOr(data, "work_history", EmptyList));
    withHistory.(resumeComplete := 1)
  }

  /** The transcript after a turn: the stored one, then the worker's message, then the reply. */
  function AppendTurn(history: seq<Json>, message: string, reply: string): (r: seq<Json>)
    ensures |r| == |history| + 2 && r[..|history|] == history
    ensures r[|history|] == Message("user", message) && r[|history| + 1] == Message("assistant", reply)
  {
    history + [Message("user", message), Message("assistant", reply)]
  }

  /**
   * `worker_chat_message` with `reply` the assistant's answer and `extracted`
   * what `extract_resume_data` returns. Only `user_id` is checked in the
   * session, not `user_type`. An extraction that puts a list or a dict in a
   * scalar column makes `db.commit()` raise, so the turn is a 500 and nothing
   * of it, the transcript included, is kept.
   */
  function ChatMessage(st: State, data: map<string, string>, clean: string -> string,
                       reply: string, extracted: Json): (r: (Reply<ChatResult>, State))
    ensures st.session.userId.None? ==> r == (Unauthorized("Unauthorized"), st)
    ensures st.session.userId.Some? && UserById(st.users, st.session.userId.value).None? ==> r == (NotFound("User not found"), st)
    ensures r.0.Success? ==>
      (r.0.value.response == reply && (r.0.value.isComplete <==> Contains(reply, Assistant.CompletionMarker)))
    ensures !r.0.Success? ==> r.1 == st
    ensures r.1.orgs == st.orgs && r.1.jobs == st.jobs && r.1.applications == st.applications && r.1.session == st.session
    ensures |r.1.users| == |st.users|
    ensures Valid(st) ==> Valid(r.1)
  {
    if st.session.userId.None? then (Unauthorized("Unauthorized"), st)
    else
      var message := Sanitized(data, "message", "", clean);
      match UserById(st.users, st.session.userId.value)
      case None => (NotFound("User not found"), st)
      case Some(i) => Turn(st, i, message, reply, extracted)
  }

  /** The part of `worker_chat_message` after the worker's row `i` is found. */
  function Turn(st: State, i: nat, message: string, reply: string, extracted: Json): (r: (Reply<ChatResult>, State))
    requires i < |st.users|
    ensures !r.0.Success? ==> r.1 == st
    ensures r.0.Success? ==> r.1 == st.(users := r.1.users) && |r.1.users| == |st.users| &&
                             forall j :: 0 <= j < |st.users| && j != i ==> r.1.users[j] == st.users[j]
    ensures r.0.Success? ==> r.1.users[i].id == st.users[i].id && r.1.users[i].phone == st.users[i].phone
    ensures r.0.Success? ==>
      r.0.value.response == reply && (r.0.value.isComplete <==> Contains(reply, Assistant.CompletionMarker))
    ensures Valid(st) ==> Valid(r.1)
  {
    var u := st.users[i];
    match ChatHistory(u)
    case None => (ServerError, st)
    case Some(stored) =>
      var history := if Truthy(stored) then stored else EmptyList;
      if !history.JArr? then (ServerError, st)
      else
        Commit(st, i, SetChatHistory(u, JArr(AppendTurn(history.items, message, reply))), reply, extracted)
  }

  /**
   * The end of `worker_chat_message` once row `i` holds the new transcript as
   * `talked`: the merge on the marker, then `db.commit()`.
   */
  function Commit(st: State, i: nat, talked: User, reply: string, extracted: Json): (r: (Reply<ChatResult>, State))
    requires i < |st.users| && talked.id == st.users[i].id && talked.phone == st.users[i].phone
    ensures !r.0.Success? ==> r.1 == st
    ensures r.0.Success? ==> r.1 == st.(users := r.1.users) && |r.1.users| == |st.users| &&
                             forall j :: 0 <= j < |st.users| && j != i ==> r.1.users[j] == st.users[j]
    ensures r.0.Success? ==> r.1.users[i].id == st.users[i].id && r.1.users[i].phone == st.users[i].phone
    ensures r.0.Success? ==>
      r.0.value.response == reply && (r.0.value.isComplete <==> Contains(reply, Assistant.CompletionMarker))
    ensures Valid(st) ==> Valid(r.1)
  {
    if !Contains(reply, Assistant.CompletionMarker) then
      SetUserValid(st.users, i, talked);
      (Success(ChatResult(reply, false)), st.(users := st.users[i := talked]))
    else if !extracted.JObj? then (ServerError, st)
    else
      var merged := Merge(talked, extracted.members);
      if !Storable(merged) then (ServerError, st)
      else
        SetUserValid(st.users, i, merged);
        (Success(ChatResult(reply, true)), st.(users := st.users[i := merged]))
  }

  /**
   * What a turn needs from the worker's row to reach `db.commit()` and pass
   * it: the stored transcript decodes to a list or to a falsy value, and when
   * the reply holds the marker the extraction is a dict whose values for the
   * scalar columns can be bound: no list, no dict, no integer wider than
   * 64 bits.
   */
  predicate TurnCommits(u: User, reply: string, extracted: Json)
  {
    ChatHistory(u).Some? && (!Truthy(ChatHistory(u).value) || ChatHistory(u).value.JArr?) &&
    (Contains(reply, Assistant.CompletionMarker) ==> extracted.JObj? && Storable(Merge(u, extracted.members)))
  }

  /** A turn of a logged-in worker whose row is found succeeds exactly when it commits. */
  lemma ChatTurnSucceeds(st: State, data: map<string, string>, clean: string -> string,
                         reply: string, extracted: Json, i: nat)
    requires st.session.userId.Some? && UserById(st.users, st.session.userId.value) == Some(i)
    ensures ChatMessage(st, data, clean, reply, extracted).0.Success? <==> TurnCommits(st.users[i], reply, extracted)
  {
    var u := st.users[i];
    var message := Sanitized(data, "message", "", clean);
    assert ChatMessage(st, data, clean, reply, extracted) == Turn(st, i, message, reply, extracted);
    if ChatHistory(u).Some? {
      var stored := ChatHistory(u).value;
      var history := if Truthy(stored) then stored else EmptyList;
      if history.JArr? {
        var talked := SetChatHistory(u, JArr(AppendTurn(history.items, message, reply)));
        CommitSucceeds(st, i, talked, reply, extracted);
        if extracted.JObj? {
          MergeScalars(u, talked, extracted.members);
        }
      }
    }
  }

  /** The commit passes exactly when, on the marker, the extraction is a dict whose scalar values can be bound. */
  lemma CommitSucceeds(st: State, i: nat, talked: User, reply: string, extracted: Json)
    requires i < |st.users| && talked.id == st.users[i].id && talked.phone == st.users[i].phone
    ensures Commit(st, i, talked, reply, extracted).0.Success? <==>
      (Contains(reply, Assistant.CompletionMarker) ==> extracted.JObj? && Storable(Merge(talked, extracted.members)))
  {
  }

  /** Merging into two rows with the same scalar columns gives the same scalar columns. */
  lemma MergeScalars(u: User, v: User, data: seq<Member>)
    requires u.name == v.name && u.trade == v.trade && u.experienceYears == v.experienceYears
    requires u.location == v.location && u.education == v.education && u.certifications == v.certifications
    ensures Storable(Merge(u, data)) <==> Storable(Merge(v, data))
  {
  }

  /**
   * A turn that commits stores the earlier transcript followed by the
   * worker's message and the reply, whatever the reply says, error texts
   * included; and `resume_complete` becomes 1 exactly when the reply holds
   * the marker, and is otherwise left as it was.
   */
  lemma ChatTurnRecorded(st: State, data: map<string, string>, clean: string -> string,
                         reply: string, extracted: Json, i: nat)
    requires UsersValid(st.users) && st.session.userId.Some? && i < |st.users| && st.users[i].id == st.session.userId.value
    requires TurnCommits(st.users[i], reply, extracted)
    ensures var (out, after) := ChatMessage(st, data, clean, reply, extracted);
      var before := if Truthy(ChatHistory(st.users[i]).value) then ChatHistory(st.users[i]).value.items else [];
      out == Success(ChatResult(reply, Contains(reply, Assistant.CompletionMarker))) &&
      ChatHistory(after.users[i]) == Some(JArr(AppendTurn(before, Sanitized(data, "message", "", clean), reply))) &&
      after.users[i].resumeComplete == (if Contains(reply, Assistant.CompletionMarker) then 1 else st.users[i].resumeComplete) &&
      forall k :: 0 <= k < |st.users| && k != i ==> after.users[k] == st.users[k]
  {
    var found := UserById(st.users, st.session.userId.value);
    assert found == Some(i);
    ChatTurnSucceeds(st, data, clean, reply, extracted, i);
  }

  /** A list under `certifications` after the marker fails the turn, and the store keeps nothing of it. */
  lemma ChatListColumnFails(st: State, data: map<string, string>, clean: string -> string,
                            reply: string, ms: seq<Member>, items: seq<Json>, i: nat)
    requires st.session.userId.Some? && UserById(st.users, st.session.userId.value) == Some(i)
    requires Contains(reply, Assistant.CompletionMarker) && Lookup(ms, "certifications") == Some(JArr(items))
    ensures ChatMessage(st, data, clean, reply, JObj(ms)) == (ServerError, st)
  {
    var u := st.users[i];
    if ChatHistory(u).Some? {
      var stored := ChatHistory(u).value;
      var history := if Truthy(stored) then stored else EmptyList;
      if history.JArr? {
        var talked := SetChatHistory(u, JArr(AppendTurn(history.items, Sanitized(data, "message", "", clean), reply)));
        assert !Bindable(Merge(talked, ms).certifications);
      }
    }
  }

  /**
   * An integer under `experience_years` wider than 64 bits after the marker
   * makes `db.commit()` raise `OverflowError`: the turn fails, and the store
   * keeps neither the profile nor the transcript.
   */
  lemma ChatOverflowFails(st: State, data: map<string, string>, clean: string -> string,
                          reply: string, ms: seq<Member>, n: int, i: nat)
    requires st.session.userId.Some? && UserById(st.users, st.session.userId.value) == Some(i)
    requires Contains(reply, Assistant.CompletionMarker) && Lookup(ms, "experience_years") == Some(JNum(n, 0))
    requires !JsonColumn.SqliteInteger(n)
    ensures ChatMessage(st, data, clean, reply, JObj(ms)) == (ServerError, st)
  {
    var u := st.users[i];
    if ChatHistory(u).Some? {
      var stored := ChatHistory(u).value;
      var history := if Truthy(stored) then stored else EmptyList;
      if history.JArr? {
        var talked := SetChatHistory(u, JArr(AppendTurn(history.items, Sanitized(data, "message", "", clean), reply)));
        assert !Bindable(Merge(talked, ms).experienceYears);
      }
    }
  }

  /** An empty extraction (`{}`) after the marker wipes the skills and work history but keeps the other fields. */
  lemma EmptyExtractionWipesLists(u: User)
    ensures var r := Merge(u, []);
      Skills(r) == Some(EmptyList) && WorkHistory(r) == Some(EmptyList) &&
      r.name == u.name && r.trade == u.trade && r.location == u.location && r.resumeComplete == 1
  {
    assert !HasKey([], "skills") && !HasKey([], "work_history") && !HasKey([], "name");
  }

  /** The handler lets in a session with a `user_id` even when its `user_type` says employer. */
  lemma ChatIgnoresUserType(st: State, data: map<string, string>, clean: string -> string, reply: string, extracted: Json)
    requires st.session.userId.Some? && st.session.userType == Some("employer")
    ensures !ChatMessage(st, data, clean, reply, extracted).0.Unauthorized?
  {
  }

  /** Some application of worker `userId` is for job `jobId`. */
  predicate HasApplied(apps: seq<Application>, userId: nat, jobId: nat)
  {
    exists k | 0 <= k < |apps| :: apps[k].userId == userId && apps[k].jobId == jobId
  }

  /** `worker_apply`: one `'pending'` application per worker and job; whether the job exists is not checked. */
  function Apply(st: State, jobId: nat): (r: (Reply<string>, State))
    ensures !IsWorker(st.session) ==> r == (Unauthorized("Unauthorized"), st)
    ensures IsWorker(st.session) && HasApplied(st.applications, st.session.userId.value, jobId) ==>
      r == (BadRequest("Already applied to this job"), st)
    ensures r.0.Success? ==>
      r.1 == st.(applications := st.applications + [Application(|st.applications| + 1, st.session.userId.value, jobId, "pending")])
    ensures IsWorker(st.session) && !HasApplied(st.applications, st.session.userId.value, jobId) ==> r.0.Success?
    ensures Valid(st) ==> Valid(r.1)
  {
    if !IsWorker(st.session) then (Unauthorized("Unauthorized"), st)
    else
      var uid := st.session.userId.value;
      match ApplicationFor(st.applications, uid, jobId)
      case Some(_) => (BadRequest("Already applied to this job"), st)
      case None =>
        var row := Application(|st.applications| + 1, uid, jobId, "pending");
        (Success("Application submitted successfully"), st.(applications := st.applications + [row]))
  }

  /** Applying twice to the same job is refused the second time and adds nothing. */
  lemma ApplyTwice(st: State, jobId: nat)
    requires IsWorker(st.session)
    ensures var once := Apply(st, jobId).1;
      Apply(once, jobId) == (BadRequest("Already applied to this job"), once)
  {
    var once := Apply(st, jobId).1;
    if Apply(st, jobId).0.Success? {
      var k := |st.applications|;
      assert once.applications[k].userId == st.session.userId.value && once.applications[k].jobId == jobId;
    }
  }

  /** Applying to a job id that names no job still adds the application. */
  lemma ApplyToMissingJob(st: State, jobId: nat)
    requires IsWorker(st.session) && !HasApplied(st.applications, st.session.userId.value, jobId)
    requires forall k :: 0 <= k < |st.jobs| ==> st.jobs[k].id != jobId
    ensures var (out, after) := Apply(st, jobId);
      out == Success("Application submitted successfully") &&
      after.applications == st.applications + [Application(|st.applications| + 1, st.session.userId.value, jobId, "pending")] &&
      JobById(after.jobs, jobId).None?
  {
  }

  /** `worker_account_update`: `name`, `location` and `trade` are overwritten where the request gives a non-empty value, and nothing else changes. */
  function WorkerAccountUpdate(st: State, data: map<string, string>, clean: string -> string): (r: (Reply<string>, State))
    ensures !IsWorker(st.session) ==> r == (Unauthorized("Unauthorized"), st)
    ensures IsWorker(st.session) && UserById(st.users, st.session.userId.value).None? ==> r == (NotFound("User not found"), st)
    ensures !r.0.Success? ==> r.1 == st
    ensures r.1.orgs == st.orgs && r.1.jobs == st.jobs && r.1.applications == st.applications && r.1.session == st.session
    ensures |r.1.users| == |st.users|
    ensures forall k :: 0 <= k < |st.users| ==>
      var (u, v) := (st.users[k], r.1.users[k]);
      v.(name := u.name, location := u.location, trade := u.trade) == u &&
      (v.name == u.name || (Given(data, "name") && v.name == JStr(Validators.SanitizeInput(data["name"], clean)))) &&
      (v.location == u.location || (Given(data, "location") && v.location == JStr(Validators.SanitizeInput(data["location"], clean)))) &&
      (v.trade == u.trade || (Given(data, "trade") && v.trade == JStr(Validators.SanitizeInput(data["trade"], clean))))
    ensures Valid(st) ==> Valid(r.1)
  {
    if !IsWorker(st.session) then (Unauthorized("Unauthorized"), st)
    else
      match UserById(st.users, st.session.userId.value)
      case None => (NotFound("User not found"), st)
      case Some(i) =>
        var u := st.users[i];
        var updated := u.(
          name := if Given(data, "name") then JStr(Validators.SanitizeInput(data["name"], clean)) else u.name,
          location := if Given(data, "location") then JStr(Validators.SanitizeInput(data["location"], clean)) else u.location,
          trade := if Given(data, "trade") then JStr(Validators.SanitizeInput(data["trade"], clean)) else u.trade);
        (Success("Profile updated successfully"), st.(users := st.users[i := updated]))
  }

  /**
   * The row `worker_account_update` changes is the session's worker: it
   * takes the cleaned text of each of `name`, `location` and `trade` that the
   * request gives non-empty, keeps every other column, and no other row
   * changes.
   */
  lemma WorkerAccountUpdateRow(st: State, data: map<string, string>, clean: string -> string, i: nat)
    requires IsWorker(st.session) && UserById(st.users, st.session.userId.value) == Some(i)
    ensures var (out, after) := WorkerAccountUpdate(st, data, clean);
      var (u, v) := (st.users[i], after.users[i]);
      out == Success("Profile updated successfully") &&
      v.(name := u.name, location := u.location, trade := u.trade) == u &&
      (Given(data, "name") ==> v.name == JStr(Validators.SanitizeInput(data["name"], clean))) &&
      (!Given(data, "name") ==> v.name == u.name) &&
      (Given(data, "location") ==> v.location == JStr(Validators.SanitizeInput(data["location"], clean))) &&
      (!Given(data, "location") ==> v.location == u.location) &&
      (Given(data, "trade") ==> v.trade == JStr(Validators.SanitizeInput(data["trade"], clean))) &&
      (!Given(data, "trade") ==> v.trade == u.trade) &&
      forall k :: 0 <= k < |st.users| && k != i ==> after.users[k] == st.users[k]
  {
  }
}
