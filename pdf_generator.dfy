/**
 * utils/pdf_generator.py: the `User` shim of `generate_pdf_resume_from_html`
 * and the story that the deprecated `generate_pdf_resume` hands to ReportLab.
 *
 * Rendering is not modelled: whether WeasyPrint or `doc.build` succeeds is an
 * input. The story is kept as a list of tagged items, styles left out.
 */
module PdfGenerator {
  import opened Wrappers
  import opened PyStr
  import opened Json

  /** The object the resume template is rendered with. */
  class UserShim {
    var name: Json
    var phone: Json
    var trade: Json
    var experienceYears: Json
    var location: Json
    var skills: Json
    var education: Json
    var certifications: Json
    var workHistory: Json
    var resumeComplete: Json

    /** Every attribute is `data.get(key, default)`, with `''`, `0` or `[]` as written in the shim. */
    constructor(data: seq<Member>)
      ensures name == GetOr(data, "name", JStr("")) && phone == GetOr(data, "phone", JStr(""))
      ensures trade == GetOr(data, "trade", JStr("")) && experienceYears == GetOr(data, "experience_years", JNum(0, 0))
      ensures location == GetOr(data, "location", JStr("")) && skills == GetOr(data, "skills", EmptyList)
      ensures education == GetOr(data, "education", JStr("")) && certifications == GetOr(data, "certifications", JStr(""))
      ensures workHistory == GetOr(data, "work_history", EmptyList)
      ensures resumeComplete == GetOr(data, "resume_complete", JNum(0, 0))
    {
      name := GetOr(data, "name", JStr(""));
      phone := GetOr(data, "phone", JStr(""));
      trade := GetOr(data, "trade", JStr(""));
      experienceYears := GetOr(data, "experience_years", JNum(0, 0));
      location := GetOr(data, "location", JStr(""));
      skills := GetOr(data, "skills", EmptyList);
      education := GetOr(data, "education", JStr(""));
      certifications := GetOr(data, "certifications", JStr(""));
      workHistory := GetOr(data, "work_history", EmptyList);
      resumeComplete := GetOr(data, "resume_complete", JNum(0, 0));
    }
  }

  /**
   * `generate_pdf_resume_from_html`: `rendered` says whether rendering the
   * template and writing the PDF succeed. Data that is not a dict makes the
   * shim raise, and any exception gives `False`.
   */
  method GeneratePdfResumeFromHtml(userData: Json, categorizedSkills: Json, rendered: bool) returns (ok: bool)
    ensures ok <==> userData.JObj? && rendered
  {
    if !userData.JObj? {
      return false;
    }
    var user := new UserShim(userData.members);
    ok := rendered;
  }

  /** One flowable of the ReportLab story. */
  datatype Item = Title(text: string) | ContactLine(text: string) | Rule | Spacer | Heading(text: string) | Body(text: string)

  /** The characters `lstrip('-• ')` removes. */
  const BulletChars: set<char> := {'-', '•', ' '}

  /** `user_data.get(key)`. */
  function Field(data: seq<Member>, key: string): Json
  {
    GetOr(data, key, JNull)
  }

  /** `contact_parts`: the truthy ones of phone, location and trade, in that order. */
  function ContactParts(data: seq<Member>): (r: seq<Json>)
    ensures |r| == (if Truthy(Field(data, "phone")) then 1 else 0) + (if Truthy(Field(data, "location")) then 1 else 0)
                   + (if Truthy(Field(data, "trade")) then 1 else 0)
    ensures forall i :: 0 <= i < |r| ==> Truthy(r[i])
    ensures Truthy(Field(data, "phone")) ==> r[0] == Field(data, "phone")
    ensures Truthy(Field(data, "location")) ==> r[if Truthy(Field(data, "phone")) then 1 else 0] == Field(data, "location")
    ensures Truthy(Field(data, "trade")) ==> r[|r| - 1] == Field(data, "trade")
  {
    (if Truthy(Field(data, "phone")) then [Field(data, "phone")] else [])
    + (if Truthy(Field(data, "location")) then [Field(data, "location")] else [])
    + (if Truthy(Field(data, "trade")) then [Field(data, "trade")] else [])
  }

  /**
   * The three header items: the upper-cased name (`'Resume'` when missing),
   * the contact line, and the rule. An `Err` is the exception raised on the
   * way: data that is not a dict, a name that is not a string, or a contact
   * value that is not a string.
   */
  function Header(userData: Json): (r: Result<seq<Item>>)
    ensures r.Ok? <==> userData.JObj? && GetOr(userData.members, "name", JStr("Resume")).JStr? &&
                       JoinStrings(JArr(ContactParts(userData.members)), " | ").Ok?
    ensures r.Ok? ==> (|r.value| == 3 && r.value[2] == Rule &&
                       r.value[0] == Title(Upper(GetOr(userData.members, "name", JStr("Resume")).s)) &&
                       r.value[1] == ContactLine(JoinStrings(JArr(ContactParts(userData.members)), " | ").value))
  {
    if !userData.JObj? then Err("'" + TypeName(userData) + "' object has no attribute 'get'")
    else
      var name := GetOr(userData.members, "name", JStr("Resume"));
      if !name.JStr? then Err("'" + TypeName(name) + "' object has no attribute 'upper'")
      else
        match JoinStrings(JArr(ContactParts(userData.members)), " | ")
        case Err(e) => Err(e)
        case Ok(contact) => Ok([Title(Upper(name.s)), ContactLine(contact), Rule])
  }

  /** Without a name the title is `RESUME`. */
  lemma DefaultTitle(data: seq<Member>)
    requires !HasKey(data, "name") && Header(JObj(data)).Ok?
    ensures Header(JObj(data)).value[0] == Title("RESUME")
  {
    ResumeUpper();
  }

  lemma ResumeUpper()
    ensures Upper("Resume") == "RESUME"
  {
    assert Upper("Resume")[1..] == Upper("esume");
  }

  /**
   * The item for one line of the content: a spacer when it is blank once
   * stripped; a heading when the stripped line is upper case or ends with
   * `:`; otherwise body text, with a leading `-` or `•` run replaced by one
   * `• ` bullet.
   */
  function LineItem(line: string): (r: Item)
    ensures r.Spacer? <==> StripSpace(line) == ""
    ensures r.Heading? <==> StripSpace(line) != "" && (IsUpper(StripSpace(line)) || EndsWith(StripSpace(line), ":"))
    ensures r.Heading? ==> r.text == StripSpace(line)
    ensures r.Spacer? || r.Heading? || r.Body?
    ensures r.Body? && !StartsWith(StripSpace(line), "-") && !StartsWith(StripSpace(line), "•") ==>
      r.text == StripSpace(line)
    ensures r.Body? && (StartsWith(StripSpace(line), "-") || StartsWith(StripSpace(line), "•")) ==>
      r.text == "• " + LStrip(StripSpace(line), BulletChars) &&
      (|r.text| > 2 ==> r.text[2] !in BulletChars)
  {
    var s := StripSpace(line);
    if s == "" then Spacer
    else if IsUpper(s) || EndsWith(s, ":") then Heading(s)
    else if StartsWith(s, "-") || StartsWith(s, "•") then Body("• " + LStrip(s, BulletChars))
    else Body(s)
  }

  /** `"- weld"` is already stripped, and its dash and space are what `lstrip` removes. */
  lemma DashedLineText()
    ensures StripSpace("- weld") == "- weld" && LStrip("- weld", BulletChars) == "weld"
  {
    DashedLineStripped();
    DashedLineLead();
  }

  lemma DashedLineStripped()
    ensures StripSpace("- weld") == "- weld"
  {
    var s := "- weld";
    assert s[0] == '-' && s[|s| - 1] == 'd';
    StripUntouched(s, Whitespace);
  }

  lemma DashedLineLead()
    ensures LStrip("- weld", BulletChars) == "weld"
  {
    var s := "- weld";
    assert s == ['-'] + ([' '] + "weld") && "weld"[0] == 'w';
    LeadStops("weld", BulletChars);
    LeadCons(' ', "weld", BulletChars);
    LeadCons('-', [' '] + "weld", BulletChars);
    assert s[2..] == "weld";
  }

  /** A dashed line becomes a bullet, its dash and space dropped. */
  lemma DashedLineIsBullet()
    ensures LineItem("- weld") == Body("• weld")
  {
    var s := "- weld";
    DashedLineText();
    assert !IsUpper(s) by { assert IsAsciiLower(s[2]); }
    assert s[|s| - 1] == 'd' && s[0] == '-';
    assert !EndsWith(s, ":") && StartsWith(s, "-");
  }

  /** A capitalised line is a heading. */
  lemma UpperLineIsHeading()
    ensures LineItem("SKILLS") == Heading("SKILLS")
  {
    SkillsStripped();
    SkillsUpper();
  }

  lemma SkillsStripped()
    ensures StripSpace("SKILLS") == "SKILLS"
  {
    var s := "SKILLS";
    assert s[0] == 'S' && s[|s| - 1] == 'S';
    StripUntouched(s, Whitespace);
  }

  lemma SkillsUpper()
    ensures IsUpper("SKILLS")
  {
    var s := "SKILLS";
    assert IsAsciiUpper(s[0]);
  }

  /** So is a line ending in a colon. */
  lemma ColonLineIsHeading()
    ensures LineItem("Work:") == Heading("Work:")
  {
    var t := "Work:";
    assert t[0] == 'W' && t[|t| - 1] == ':';
    StripUntouched(t, Whitespace);
    assert t[|t| - 1..] == ":";
  }

  /** A line of blanks is a spacer. */
  lemma BlankLineIsSpacer()
    ensures LineItem("  \t") == Spacer
  {
    StripAll("  \t", Whitespace);
  }

  /** One pass of the loop over the lines: `line` is stripped, then maybe rewritten as a bullet. */
  method ClassifyLine(raw: string) returns (item: Item)
    ensures item == LineItem(raw)
  {
    var line := StripSpace(raw);
    if line == "" {
      return Spacer;
    }
    if IsUpper(line) || EndsWith(line, ":") {
      return Heading(line);
    }
    if StartsWith(line, "-") || StartsWith(line, "•") {
      line := "• " + LStrip(line, BulletChars);
    }
    item := Body(line);
  }

  /** The items for the lines, one each, in order. */
  function LineItems(lines: seq<string>): (r: seq<Item>)
    ensures |r| == |lines|
    ensures forall i :: 0 <= i < |lines| ==> r[i] == LineItem(lines[i])
  {
    if lines == [] then []
    else LineItems(lines[..|lines| - 1]) + [LineItem(lines[|lines| - 1])]
  }

  lemma LineItemsSnoc(lines: seq<string>, k: int)
    requires 0 <= k < |lines|
    ensures LineItems(lines[..k + 1]) == LineItems(lines[..k]) + [LineItem(lines[k])]
  {
    assert lines[..k + 1][..k] == lines[..k];
  }

  /**
   * The story `generate_pdf_resume` builds: the header, then exactly one item
   * for each `'\n'`-separated line of `content`; or the exception that stops
   * it before `doc.build`.
   */
  function Story(userData: Json, content: string): (r: Result<seq<Item>>)
    ensures r.Ok? <==> Header(userData).Ok?
    ensures r.Ok? ==> |r.value| == 3 + |Split(content, '\n')| && r.value[..3] == Header(userData).value
    ensures r.Ok? ==> forall i :: 0 <= i < |Split(content, '\n')| ==> r.value[3 + i] == LineItem(Split(content, '\n')[i])
  {
    match Header(userData)
    case Err(e) => Err(e)
    case Ok(h) => Ok(h + LineItems(Split(content, '\n')))
  }

  /** The `for line in lines` loop of `generate_pdf_resume`: one item per line, in order. */
  method ClassifyLines(lines: seq<string>) returns (items: seq<Item>)
    ensures items == LineItems(lines)
  {
    items := [];
    var k := 0;
    while k < |lines|
      invariant 0 <= k <= |lines|
      invariant items == LineItems(lines[..k])
    {
      var item := ClassifyLine(lines[k]);
      LineItemsSnoc(lines, k);
      items := items + [item];
      k := k + 1;
    }
    assert lines[..k] == lines;
  }

  /** The body of the `try` up to `doc.build(story)`. */
  method BuildStory(userData: Json, content: string) returns (r: Result<seq<Item>>)
    ensures r == Story(userData, content)
  {
    var header := Header(userData);
    if header.Err? {
      return Err(header.msg);
    }
    var items := ClassifyLines(Split(content, '\n'));
    r := Ok(header.value + items);
  }

  /** `generate_pdf_resume`: `True` exactly when the story is built and `built`, the outcome of `doc.build`, is success. */
  method GeneratePdfResume(userData: Json, content: string, built: bool) returns (ok: bool)
    ensures ok <==> Story(userData, content).Ok? && built
  {
    var story := BuildStory(userData, content);
    ok := story.Ok? && built;
  }
}
