/**
 * models/job.py: a row of the `jobs` table, with the `required_skills` JSON
 * list property. Salaries are the numbers `float()` produced, kept as JSON
 * numbers.
 */
module JobModel {
  import opened Wrappers
  import opened Json
  import JsonColumn

  datatype Job = Job(
    id: nat,
    organizationId: nat,
    title: string,
    trade: string,
    description: string,
    requiredSkillsJson: Option<string>,
    experienceRequired: int,
    location: string,
    salaryMin: Json,
    salaryMax: Json,
    status: string)

  /** `Job(...)` as `employer_post_job` builds it: `required_skills` goes through its setter; `status` defaults to `'active'`. */
  function NewJob(id: nat, organizationId: nat, title: string, trade: string, description: string,
                  requiredSkills: Json, experienceRequired: int, location: string,
                  salaryMin: Json, salaryMax: Json, status: string := "active"): (j: Job)
    ensures j.id == id && j.organizationId == organizationId && j.title == title && j.status == status
    ensures j.trade == trade && j.description == description && j.location == location
    ensures j.experienceRequired == experienceRequired && j.salaryMin == salaryMin && j.salaryMax == salaryMax
    ensures RequiredSkills(j) == Some(requiredSkills)
  {
    Job(id, organizationId, title, trade, description, JsonColumn.Write(requiredSkills),
        experienceRequired, location, salaryMin, salaryMax, status)
  }

  /** The `required_skills` property: `[]` while the column is NULL or empty; `None` when the text does not decode. */
  function RequiredSkills(j: Job): (r: Option<Json>)
    ensures j.requiredSkillsJson == None || j.requiredSkillsJson == Some("") ==> r == Some(EmptyList)
  {
    JsonColumn.Read(j.requiredSkillsJson)
  }

  /** `job.required_skills = v`: reading it back gives `v`; no other column changes. */
  function SetRequiredSkills(j: Job, v: Json): (r: Job)
    ensures RequiredSkills(r) == Some(v)
    ensures r.(requiredSkillsJson := j.requiredSkillsJson) == j
  {
    j.(requiredSkillsJson := JsonColumn.Write(v))
  }
}
