/**
 * utils/skill_extractor.py: `extract_and_categorize_skills`. The prompt, which
 * joins the skills with `", "`, is written before the `try`.
 */
module SkillExtractor {
  import opened Wrappers
  import opened Json
  import opened Gemini

  /** The variable parts of the prompt: the trade and the joined skills. */
  datatype SkillsRequest = SkillsRequest(trade: Json, rawSkills: string)

  function CategorizeRequest(skills: Json, trade: Json): (r: Result<SkillsRequest>)
    ensures r.Ok? <==> JoinStrings(skills, ", ").Ok?
    ensures r.Ok? ==> r.value.trade == trade && r.value.rawSkills == JoinStrings(skills, ", ").value
  {
    match JoinStrings(skills, ", ")
    case Err(e) => Err(e)
    case Ok(s) => Ok(SkillsRequest(trade, s))
  }

  /** The answer when nothing usable comes back: the input list as the technical skills, and two empty lists. */
  function Fallback(skills: Json): (r: Json)
    ensures r.JObj? && |r.members| == 3
    ensures Lookup(r.members, "technical_skills") == Some(skills)
    ensures Lookup(r.members, "soft_skills") == Some(EmptyList)
    ensures Lookup(r.members, "tools_equipment") == Some(EmptyList)
  {
    var ms := [Member("technical_skills", skills), Member("soft_skills", EmptyList), Member("tools_equipment", EmptyList)];
    assert ms[..2] == ms[..3][..2] && ms[..2][..1] == [ms[0]];
    JObj(ms)
  }

  /**
   * `extract_and_categorize_skills(skills, trade)` with the module cache holding
   * `cached`: the parsed answer unchecked, or the fallback on an empty answer
   * and on any exception inside the `try`; an `Err` is the `TypeError` of
   * joining skills that are not strings, raised before it.
   */
  function Categorized(cached: Option<Client>, env: map<string, string>, configKey: Option<string>,
                       skills: Json, trade: Json, remote: Outcome<Json>): (r: (Result<Json>, Option<Client>))
    ensures CategorizeRequest(skills, trade).Err? ==> r.0.Err? && r.1 == cached
    ensures CategorizeRequest(skills, trade).Ok? ==> r.1 == GetClient(cached, env, configKey).1
    ensures CategorizeRequest(skills, trade).Ok? && (GetClient(cached, env, configKey).0.Err? || !remote.Text?) ==>
      r.0 == Ok(Fallback(skills))
    ensures CategorizeRequest(skills, trade).Ok? && GetClient(cached, env, configKey).0.Ok? && remote.Text? ==>
      r.0 == Ok(remote.value)
  {
    match CategorizeRequest(skills, trade)
    case Err(e) => (Err(e), cached)
    case Ok(_) =>
      var (o, after) := CallRemote(cached, env, configKey, remote);
      (Ok(if o.Text? then o.value else Fallback(skills)), after)
  }

  method ExtractAndCategorizeSkills(cache: ClientCache, env: map<string, string>, configKey: Option<string>,
                                    skills: Json, trade: Json, remote: Outcome<Json>) returns (r: Result<Json>)
    modifies cache
    ensures (r, cache.client) == Categorized(old(cache.client), env, configKey, skills, trade, remote)
  {
    var request := CategorizeRequest(skills, trade);
    if request.Err? {
      return Err(request.msg);
    }
    var o := cache.Call(env, configKey, remote);
    r := Ok(if o.Text? then o.value else Fallback(skills));
  }
}
