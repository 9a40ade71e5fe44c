/**
 * models/user.py: a row of the `users` table. The scalar profile columns hold
 * whatever JSON value the resume extraction produced (`JNull` is SQL NULL);
 * `skills`, `work_history` and `chat_history` are JSON text columns.
 *
 * Rows are values here: a setter yields the row with the one column changed.
 * A getter's result is a value too, so changing what it returned can never
 * reach the row; only the setter writes the column.
 */
module UserModel {
  import opened Wrappers
  import opened Json
  import JsonColumn

  datatype User = User(
    id: nat,
    phone: string,
    name: Json,
    trade: Json,
    experienceYears: Json,
    location: Json,
    language: string,
    skillsJson: Option<string>,
    education: Json,
    certifications: Json,
    workHistoryJson: Option<string>,
    chatHistoryJson: Option<string>,
    resumeComplete: int)

  /** `User(phone=..., language=...)` inserted with the column defaults: `language` `'en'`, `resume_complete` 0, the rest NULL. */
  function NewUser(id: nat, phone: string, language: string := "en"): (u: User)
    ensures u.id == id && u.phone == phone && u.language == language && u.resumeComplete == 0
    ensures u.name == JNull && u.trade == JNull && u.experienceYears == JNull && u.location == JNull
    ensures u.education == JNull && u.certifications == JNull
    ensures Skills(u) == Some(EmptyList) && WorkHistory(u) == Some(EmptyList) && ChatHistory(u) == Some(EmptyList)
  {
    User(id, phone, JNull, JNull, JNull, JNull, language, None, JNull, JNull, None, None, 0)
  }

  /**
   * What the `sqlite3` driver can bind to a plain column: `None`, a boolean, a
   * text, a float, or an integer within 64 bits. A list or a dict makes the
   * flush at `db.commit()` raise, and so does a wider integer.
   */
  predicate Bindable(v: Json)
  {
    !v.JArr? && !v.JObj? && (v.JNum? && v.scale == 0 ==> JsonColumn.SqliteInteger(v.mantissa))
  }

  /** The edges of Bindable: an integer binds up to 64 bits and no further; a float or a text always binds; a container never does. */
  lemma BindableEdges(m: int, e: nat, s: string, items: seq<Json>)
    requires e > 0
    ensures Bindable(JNum(0x7FFF_FFFF_FFFF_FFFF, 0)) && !Bindable(JNum(0x8000_0000_0000_0000, 0))
    ensures Bindable(JNum(-0x8000_0000_0000_0000, 0)) && !Bindable(JNum(-0x8000_0000_0000_0001, 0))
    ensures Bindable(JNum(m, e)) && Bindable(JStr(s)) && Bindable(JNull) && !Bindable(JArr(items))
  {
  }

  /** Every scalar profile column of `u` can be written. */
  predicate Storable(u: User)
  {
    Bindable(u.name) && Bindable(u.trade) && Bindable(u.experienceYears) && Bindable(u.location) &&
    Bindable(u.education) && Bindable(u.certifications)
  }

  /** The `skills` property: `[]` while the column is NULL or empty; `None` when the stored text does not decode. */
  function Skills(u: User): (r: Option<Json>)
    ensures u.skillsJson == None || u.skillsJson == Some("") ==> r == Some(EmptyList)
  {
    JsonColumn.Read(u.skillsJson)
  }

  function WorkHistory(u: User): (r: Option<Json>)
    ensures u.workHistoryJson == None || u.workHistoryJson == Some("") ==> r == Some(EmptyList)
  {
    JsonColumn.Read(u.workHistoryJson)
  }

  function ChatHistory(u: User): (r: Option<Json>)
    ensures u.chatHistoryJson == None || u.chatHistoryJson == Some("") ==> r == Some(EmptyList)
  {
    JsonColumn.Read(u.chatHistoryJson)
  }

  /** `user.skills = v`: reading `skills` back gives `v`; no other column changes. */
  function SetSkills(u: User, v: Json): (r: User)
    ensures Skills(r) == Some(v)
    ensures r.(skillsJson := u.skillsJson) == u
  {
    u.(skillsJson := JsonColumn.Write(v))
  }

  function SetWorkHistory(u: User, v: Json): (r: User)
    ensures WorkHistory(r) == Some(v)
    ensures r.(workHistoryJson := u.workHistoryJson) == u
  {
    u.(workHistoryJson := JsonColumn.Write(v))
  }

  function SetChatHistory(u: User, v: Json): (r: User)
    ensures ChatHistory(r) == Some(v)
    ensures r.(chatHistoryJson := u.chatHistoryJson) == u
  {
    u.(chatHistoryJson := JsonColumn.Write(v))
  }
}
