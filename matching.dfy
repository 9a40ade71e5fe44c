/**
 * `employer_matches` in app.py: for one of the employer's own jobs, every
 * worker with a finished resume is offered to the matcher as a dict; each
 * worker the matcher answers for gets the score and reasoning of the
 * answer's first entry, and the listing is sorted by score, highest first.
 *
 * `matcher` is `match_jobs_for_user(user_data, job_data)` for the job at
 * hand: its result or the exception it raises (`Err`). Nothing is written.
 */
module Matching {
  import opened Wrappers
  import opened Json
  import opened UserModel
  import opened JobModel
  import opened Records
  import opened Ranking

  /** `db.query(User).filter_by(resume_complete=1).all()`. */
  function Candidates(users: seq<User>): (r: seq<User>)
    ensures |r| <= |users|
    ensures forall k :: 0 <= k < |r| ==> r[k].resumeComplete == 1 && r[k] in users
  {
    if users == [] then []
    else
      var init := Candidates(users[..|users| - 1]);
      var last := users[|users| - 1];
      assert forall u :: u in users[..|users| - 1] ==> u in users;
      init + (if last.resumeComplete == 1 then [last] else [])
  }

  /** Every worker with a finished resume is a candidate. */
  lemma {:induction false} CandidatesComplete(users: seq<User>, u: User)
    requires u in users && u.resumeComplete == 1
    ensures u in Candidates(users)
  {
    var init := users[..|users| - 1];
    if u != users[|users| - 1] {
      assert u in init;
      CandidatesComplete(init, u);
    }
  }

  /** The dict of one worker; `None` when the `skills` column does not decode. */
  function UserView(u: User): (r: Option<seq<Member>>)
    ensures r.Some? <==> Skills(u).Some?
    ensures r.Some? ==> Lookup(r.value, "id") == Some(JNum(u.id, 0)) && Lookup(r.value, "skills") == Skills(u)
  {
    match Skills(u)
    case None => None
    case Some(skills) =>
      var ms := [Member("id", JNum(u.id, 0)), Member("name", u.name), Member("trade", u.trade),
                 Member("experience_years", u.experienceYears), Member("skills", skills),
                 Member("location", u.location)];
      LookupOnly(ms, "id", 0);
      LookupOnly(ms, "skills", 4);
      Some(ms)
  }

  /** `users_data`: one dict per worker, in order, or `None` when some worker's skills do not decode. */
  function UserViews(users: seq<User>): (r: Option<seq<seq<Member>>>)
    ensures r.Some? ==> |r.value| == |users| && forall k :: 0 <= k < |users| ==> UserView(users[k]) == Some(r.value[k])
    ensures r.None? ==> exists k :: 0 <= k < |users| && UserView(users[k]).None?
  {
    if users == [] then Some([])
    else
      var init := users[..|users| - 1];
      match UserViews(init)
      case None =>
        assert forall k :: 0 <= k < |init| ==> init[k] == users[k];
        None
      case Some(vs) =>
        match UserView(users[|users| - 1])
        case None => None
        case Some(v) =>
          UserViewsSnoc(users, vs, v);
          Some(vs + [v])
  }

  lemma UserViewsSnoc(users: seq<User>, vs: seq<seq<Member>>, v: seq<Member>)
    requires users != [] && |vs| == |users| - 1
    requires forall k :: 0 <= k < |vs| ==> UserView(users[..|users| - 1][k]) == Some(vs[k])
    requires UserView(users[|users| - 1]) == Some(v)
    ensures forall k :: 0 <= k < |users| ==> UserView(users[k]) == Some((vs + [v])[k])
  {
    forall k | 0 <= k < |users|
      ensures UserView(users[k]) == Some((vs + [v])[k])
    {
      if k < |vs| {
        assert users[..|users| - 1][k] == users[k];
        assert (vs + [v])[k] == vs[k];
      } else {
        assert (vs + [v])[k] == v;
      }
    }
  }

  /** `job_data`: the one-element list describing the job; `None` when `required_skills` does not decode. */
  function JobData(job: Job): (r: Option<Json>)
    ensures r.Some? <==> RequiredSkills(job).Some?
    ensures r.Some? ==> r.value.JArr? && |r.value.items| == 1 && r.value.items[0].JObj?
  {
    match RequiredSkills(job)
    case None => None
    case Some(skills) =>
      Some(JArr([JObj([Member("id", JNum(job.id, 0)), Member("title", JStr(job.title)), Member("trade", JStr(job.trade)),
                       Member("required_skills", skills), Member("experience_required", JNum(job.experienceRequired, 0)),
                       Member("location", JStr(job.location))])]))
  }

  /** `v[0]`: a list's first item, a string's first character; a dict has no key `0`, other values are not subscriptable. */
  function Head(v: Json): (r: Result<Json>)
    ensures r.Ok? <==> (v.JArr? && v.items != []) || (v.JStr? && v.s != [])
    ensures v.JArr? && v.items != [] ==> r == Ok(v.items[0])
  {
    match v
    case JArr(xs) => if xs == [] then Err("list index out of range") else Ok(xs[0])
    case JStr(s) => if s == [] then Err("string index out of range") else Ok(JStr([s[0]]))
    case JObj(_) => Err("0")
    case _ => Err("'" + TypeName(v) + "' object is not subscriptable")
  }

  /**
   * One pass of the loop: a falsy answer skips the worker; otherwise the
   * worker's dict gets the first entry's `score` and `reasoning`.
   */
  function Annotated(view: seq<Member>, answer: Result<Json>): (r: Result<Option<seq<Member>>>)
    ensures r == Ok(None) <==> answer.Ok? && !Truthy(answer.value)
    ensures r.Ok? && r.value.Some? ==>
      answer.Ok? && Head(answer.value).Ok? &&
      Index(Head(answer.value).value, "score").Ok? && Index(Head(answer.value).value, "reasoning").Ok? &&
      Lookup(r.value.value, "match_score") == Some(Index(Head(answer.value).value, "score").value) &&
      Lookup(r.value.value, "match_reasoning") == Some(Index(Head(answer.value).value, "reasoning").value) &&
      forall key :: key != "match_score" && key != "match_reasoning" ==> Lookup(r.value.value, key) == Lookup(view, key)
  {
    match answer
    case Err(e) => Err(e)
    case Ok(v) =>
      if !Truthy(v) then Ok(None)
      else
        match Head(v)
        case Err(e) => Err(e)
        case Ok(first) =>
          match Index(first, "score")
          case Err(e) => Err(e)
          case Ok(score) =>
            match Index(first, "reasoning")
            case Err(e) => Err(e)
            case Ok(why) => Ok(Some(Put(Put(view, "match_score", score), "match_reasoning", why)))
  }

  /** `matches` after the loop, or the exception that stopped it. */
  function Collect(views: seq<seq<Member>>, matcher: seq<Member> -> Result<Json>): (r: Result<seq<seq<Member>>>)
    ensures r.Ok? ==> |r.value| <= |views|
    ensures r.Ok? ==> forall t :: 0 <= t < |r.value| ==> HasKey(r.value[t], "match_score")
  {
    if views == [] then Ok([])
    else
      var v := views[|views| - 1];
      match Collect(views[..|views| - 1], matcher)
      case Err(e) => Err(e)
      case Ok(rows) =>
        match Annotated(v, matcher(v))
        case Err(e) => Err(e)
        case Ok(None) => Ok(rows)
        case Ok(Some(row)) => Ok(rows + [row])
  }

  /** One more worker: the pass so far, extended by that worker's row (or stopped by its error). */
  lemma CollectNext(views: seq<seq<Member>>, matcher: seq<Member> -> Result<Json>, k: int, acc: seq<seq<Member>>)
    requires 0 <= k < |views| && Collect(views[..k], matcher) == Ok(acc)
    ensures Collect(views[..k + 1], matcher) ==
      match Annotated(views[k], matcher(views[k]))
      case Err(e) => Err(e)
      case Ok(None) => Ok(acc)
      case Ok(Some(row)) => Ok(acc + [row])
  {
    var p := views[..k + 1];
    assert p[..|p| - 1] == views[..k] && p[|p| - 1] == views[k];
  }

  /** A worker whose answer raises stops the loop: the whole pass raises too. */
  lemma {:induction false} CollectPrefixErr(views: seq<seq<Member>>, matcher: seq<Member> -> Result<Json>, k: int)
    requires 0 <= k <= |views| && Collect(views[..k], matcher).Err?
    ensures Collect(views, matcher) == Collect(views[..k], matcher)
    decreases |views| - k
  {
    if k < |views| {
      var longer := views[..k + 1];
      assert longer[..|longer| - 1] == views[..k];
      CollectPrefixErr(views, matcher, k + 1);
    } else {
      assert views[..k] == views;
    }
  }

  /** A worker whose answer is falsy (`[]`, `{}`, `None`) is left out and changes nothing. */
  lemma CollectSkipsFalsy(views: seq<seq<Member>>, matcher: seq<Member> -> Result<Json>, v: seq<Member>)
    requires matcher(v).Ok? && !Truthy(matcher(v).value)
    ensures Collect(views + [v], matcher) == Collect(views, matcher)
  {
    var vs := views + [v];
    assert vs[..|vs| - 1] == views && vs[|vs| - 1] == v;
  }

  /** A worker with a usable answer is listed last so far, carrying that answer's score and reasoning. */
  lemma CollectAppends(views: seq<seq<Member>>, matcher: seq<Member> -> Result<Json>, v: seq<Member>)
    requires Collect(views, matcher).Ok? && Annotated(v, matcher(v)).Ok? && Annotated(v, matcher(v)).value.Some?
    ensures Collect(views + [v], matcher) == Ok(Collect(views, matcher).value + [Annotated(v, matcher(v)).value.value])
  {
    var vs := views + [v];
    assert vs[..|vs| - 1] == views && vs[|vs| - 1] == v;
  }

  /** The number the row is sorted by: its `match_score` when that is a number (or a boolean). */
  function ScoreKey(row: seq<Member>): Option<real>
  {
    match Lookup(row, "match_score")
    case Some(v) => AsNumber(v)
    case None => None
  }

  predicate AllScored(rows: seq<seq<Member>>)
  {
    forall i :: 0 <= i < |rows| ==> ScoreKey(rows[i]).Some?
  }

  /** Highest score first. */
  predicate ByScore(rows: seq<seq<Member>>)
  {
    forall i, j :: 0 <= i < j < |rows| ==>
      ScoreKey(rows[i]).Some? && ScoreKey(rows[j]).Some? && ScoreKey(rows[i]).value >= ScoreKey(rows[j]).value
  }

  /** The rows scoring `c`, in order. */
  function ScoredRows(rows: seq<seq<Member>>, c: real): seq<seq<Member>>
  {
    if rows == [] then [] else (if ScoreKey(rows[0]) == Some(c) then [rows[0]] else []) + ScoredRows(rows[1..], c)
  }

  /** Each row paired with its score. */
  function Keyed(rows: seq<seq<Member>>): (r: seq<Ranked<seq<Member>>>)
    requires AllScored(rows)
    ensures |r| == |rows| && forall i :: 0 <= i < |rows| ==> r[i] == Ranked(ScoreKey(rows[i]).value, rows[i])
  {
    if rows == [] then [] else [Ranked(ScoreKey(rows[0]).value, rows[0])] + Keyed(rows[1..])
  }

  /**
   * `matches.sort(key=lambda x: x['match_score'], reverse=True)`. Fewer than
   * two rows are never compared; otherwise every score must be a number, and
   * a score of another type is taken to raise the `TypeError` of comparing it.
   */
  function Rank(rows: seq<seq<Member>>): (r: Result<seq<seq<Member>>>)
    ensures r.Ok? <==> |rows| <= 1 || AllScored(rows)
    ensures r.Ok? ==> |r.value| == |rows|
  {
    if AllScored(rows) then Ok(Items(SortDesc(Keyed(rows))))
    else if |rows| <= 1 then Ok(rows)
    else Err("'<' not supported between instances")
  }

  /** Every ranked row carries its own score. */
  predicate Tagged(xs: seq<Ranked<seq<Member>>>)
  {
    forall i :: 0 <= i < |xs| ==> ScoreKey(xs[i].item) == Some(xs[i].score)
  }

  lemma TaggedPermutation(a: seq<Ranked<seq<Member>>>, b: seq<Ranked<seq<Member>>>)
    requires Tagged(a) && multiset(a) == multiset(b)
    ensures Tagged(b)
  {
    forall i | 0 <= i < |b| ensures ScoreKey(b[i].item) == Some(b[i].score) {
      assert b[i] in multiset(b);
      assert b[i] in a;
    }
  }

  lemma {:induction false} ItemsOfKeyed(rows: seq<seq<Member>>)
    requires AllScored(rows)
    ensures Items(Keyed(rows)) == rows
  {
  }

  lemma {:induction false} ScoredRowsOfItems(xs: seq<Ranked<seq<Member>>>, c: real)
    requires Tagged(xs)
    ensures ScoredRows(Items(xs), c) == Items(WithScore(xs, c))
  {
    if xs != [] {
      var its := Items(xs);
      assert its[0] == xs[0].item && its[1..] == Items(xs[1..]);
      ScoredRowsOfItems(xs[1..], c);
      if xs[0].score == c {
        ItemsConcat([xs[0]], WithScore(xs[1..], c));
      } else {
        assert ScoreKey(its[0]) != Some(c);
      }
    }
  }

  /** The ranking holds the same rows. */
  lemma RankPermutation(rows: seq<seq<Member>>)
    requires Rank(rows).Ok?
    ensures multiset(Rank(rows).value) == multiset(rows)
  {
    if AllScored(rows) {
      SortDescItems(Keyed(rows));
      ItemsOfKeyed(rows);
    }
  }

  /** The ranking puts the highest score first. */
  lemma RankByScore(rows: seq<seq<Member>>)
    requires Rank(rows).Ok?
    ensures ByScore(Rank(rows).value)
  {
    if AllScored(rows) {
      var ks := Keyed(rows);
      var ys := SortDesc(ks);
      SortDescPermutation(ks);
      TaggedPermutation(ks, ys);
      SortDescDescending(ks);
    }
  }

  /** Workers with the same score keep the order in which they were listed. */
  lemma RankStable(rows: seq<seq<Member>>, c: real)
    requires Rank(rows).Ok?
    ensures ScoredRows(Rank(rows).value, c) == ScoredRows(rows, c)
  {
    if AllScored(rows) {
      var ks := Keyed(rows);
      var ys := SortDesc(ks);
      SortDescPermutation(ks);
      TaggedPermutation(ks, ys);
      ScoredRowsOfItems(ys, c);
      SortDescStable(ks, c);
      ScoredRowsOfItems(ks, c);
      ItemsOfKeyed(rows);
    }
  }

  /** What the page shows: the job and the ranked rows. */
  datatype Page = Page(job: Job, matches: seq<seq<Member>>)

  /** The employer's own job with id `jobId`. */
  predicate Owns(st: State, k: int, jobId: nat)
    requires IsEmployer(st.session)
  {
    0 <= k < |st.jobs| && st.jobs[k].id == jobId && st.jobs[k].organizationId == st.session.orgId.value
  }

  /** `employer_matches(job_id)`. */
  function MatchesPage(st: State, jobId: nat, matcher: seq<Member> -> Result<Json>): (r: Reply<Page>)
    ensures !IsEmployer(st.session) ==> r == Redirect("index")
    ensures IsEmployer(st.session) && (forall k :: 0 <= k < |st.jobs| ==> !Owns(st, k, jobId)) ==> r == NotFound("Job not found")
    ensures r.Success? ==> IsEmployer(st.session) && exists k :: Owns(st, k, jobId) && r.value.job == st.jobs[k]
  {
    if !IsEmployer(st.session) then Redirect("index")
    else
      match OwnJob(st.jobs, jobId, st.session.orgId.value)
      case None => NotFound("Job not found")
      case Some(i) =>
        assert Owns(st, i, jobId);
        match UserViews(Candidates(st.users))
        case None => ServerError
        case Some(views) =>
          if JobData(st.jobs[i]).None? then ServerError
          else
            match Collect(views, matcher)
            case Err(_) => ServerError
            case Ok(rows) =>
              match Rank(rows)
              case Err(_) => ServerError
              case Ok(ranked) =>
                Success(Page(st.jobs[i], ranked))
  }

  /**
   * On success the page lists the collected rows, highest score first, each
   * group of equal scores in the order the workers were visited.
   */
  lemma MatchesPageRanked(st: State, jobId: nat, matcher: seq<Member> -> Result<Json>, views: seq<seq<Member>>, c: real)
    requires MatchesPage(st, jobId, matcher).Success?
    requires UserViews(Candidates(st.users)) == Some(views)
    ensures Collect(views, matcher).Ok?
    ensures var rows := Collect(views, matcher).value;
      var shown := MatchesPage(st, jobId, matcher).value.matches;
      multiset(shown) == multiset(rows) && ByScore(shown) && ScoredRows(shown, c) == ScoredRows(rows, c)
  {
    var rows := Collect(views, matcher).value;
    RankPermutation(rows);
    RankByScore(rows);
    RankStable(rows, c);
  }

  /** A worker without a finished resume is never offered, whatever the matcher would say. */
  lemma UnfinishedNotOffered(users: seq<User>, u: User)
    requires u.resumeComplete != 1
    ensures u !in Candidates(users)
  {
  }
}
