/**
 * The JSON-backed list properties shared by the `User` and `Job` models: the
 * `*_json` text column holds `json.dumps` of the value, the getter decodes it
 * afresh on every read and the setter re-encodes the whole value.
 */
module JsonColumn {
  import opened Wrappers
  import opened Json

  /** The getter: `[]` for a NULL or empty column, else `json.loads` of it (`None`: the decode error it raises). */
  function Read(col: Option<string>): (r: Option<Json>)
    ensures col == None || col == Some("") ==> r == Some(EmptyList)
  {
    if col == None || col.value == "" then Some(EmptyList) else Loads(col.value)
  }

  /**
   * The range in which the `sqlite3` driver binds a Python `int` to a column:
   * a signed 64-bit integer. Outside it the flush at `db.commit()` raises
   * `OverflowError`.
   */
  predicate SqliteInteger(n: int)
  {
    -0x8000_0000_0000_0000 <= n < 0x8000_0000_0000_0000
  }

  /** The setter: the column text after assigning `v`, which the getter reads back as `v`. */
  function Write(v: Json): (r: Option<string>)
    ensures r.Some? && r.value != ""
    ensures Read(r) == Some(v)
  {
    LoadsDumps(v);
    Some(Dumps(v))
  }
}
