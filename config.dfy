/**
 * config.py: cleaning of environment values and the choice between the two
 * variables that can carry the session secret and the Gemini API key. The
 * process environment is a parameter; so is the random hex string that
 * `secrets.token_hex(32)` would produce.
 */
module Config {
  import opened Wrappers
  import opened PyStr

  const DoubleQuote: set<char> := {'"'}

  const SingleQuote: set<char> := {'\''}

  /** `_clean_env_value(v)`: no value for `None` or `""`, else `v.strip().strip('"').strip("'")`. */
  function CleanEnvValue(v: Option<string>): (r: Option<string>)
    ensures r.None? <==> v == None || v == Some("")
    ensures r.Some? ==> Contains(v.value, r.value)
    ensures r.Some? && r.value != "" ==> r.value[0] != '\'' && r.value[|r.value| - 1] != '\''
  {
    if v == None || v.value == "" then None else Some(CleanText(v.value))
  }

  /** `s.strip().strip('"').strip("'")`: a piece of `s` with no single quote at either end. */
  function CleanText(s: string): (c: string)
    ensures Contains(s, c)
    ensures c != "" ==> c[0] != '\'' && c[|c| - 1] != '\''
  {
    CleanTextPiece(s);
    CleanTextEnds(s);
    Strip(Strip(StripSpace(s), DoubleQuote), SingleQuote)
  }

  lemma CleanTextPiece(s: string)
    ensures Contains(s, Strip(Strip(StripSpace(s), DoubleQuote), SingleQuote))
  {
    var a := StripSpace(s);
    var b := Strip(a, DoubleQuote);
    StripContained(s, Whitespace);
    StripContained(a, DoubleQuote);
    StripContained(b, SingleQuote);
    ContainsTrans(s, a, b);
    ContainsTrans(s, b, Strip(b, SingleQuote));
  }

  /** What `strip("'")` leaves neither starts nor ends with a single quote. */
  lemma CleanTextEnds(s: string)
    ensures var c := Strip(Strip(StripSpace(s), DoubleQuote), SingleQuote);
      c != "" ==> c[0] != '\'' && c[|c| - 1] != '\''
  {
    assert '\'' in SingleQuote;
  }

  /** A value made only of whitespace cleans to the empty string, not to no value. */
  lemma BlankCleansToEmpty(s: string)
    requires s != "" && AllIn(s, Whitespace)
    ensures CleanEnvValue(Some(s)) == Some("")
  {
    StripAll(s, Whitespace);
  }

  /** The three strips happen once each, in order: quotes the first strips expose survive the later ones. */
  lemma CleanQuotedTwice()
    ensures CleanEnvValue(Some("'\"x\"'")) == Some("\"x\"")
  {
    var s := "'\"x\"'";
    var m := "\"x\"";
    assert s == ['\''] + m + ['\''] && s[0] == '\'' && s[|s| - 1] == '\'' && m[0] == '"' && m[|m| - 1] == '"';
    StripUntouched(s, Whitespace);
    StripUntouched(s, DoubleQuote);
    StripWrapped('\'', m, '\'', SingleQuote);
  }

  lemma CleanQuoted()
    ensures CleanEnvValue(Some("\"x\"")) == Some("x")
  {
    var s := "\"x\"";
    assert s == ['"'] + "x" + ['"'] && s[0] == '"' && s[|s| - 1] == '"' && "x"[0] == 'x';
    StripUntouched(s, Whitespace);
    StripWrapped('"', "x", '"', DoubleQuote);
    StripUntouched("x", SingleQuote);
  }

  lemma CleanSpacedQuoted()
    ensures CleanEnvValue(Some(" \"abc\" ")) == Some("abc")
  {
    SpacedStripped();
    QuotesStripped();
    StripUntouched("abc", SingleQuote);
  }

  lemma SpacedStripped()
    ensures StripSpace(" \"abc\" ") == "\"abc\""
  {
    var s := " \"abc\" ";
    var q := "\"abc\"";
    assert s == [' '] + q + [' '] && q[0] == '"' && q[|q| - 1] == '"';
    StripWrapped(' ', q, ' ', Whitespace);
  }

  lemma QuotesStripped()
    ensures Strip("\"abc\"", DoubleQuote) == "abc" && "abc"[0] == 'a' && "abc"[2] == 'c'
  {
    var q := "\"abc\"";
    assert q == ['"'] + "abc" + ['"'] && "abc"[0] == 'a' && "abc"[2] == 'c';
    StripWrapped('"', "abc", '"', DoubleQuote);
  }

  /** Cleaning is not idempotent: a second pass can strip quotes the first pass exposed. */
  lemma CleanNotIdempotent()
    ensures exists v :: CleanEnvValue(CleanEnvValue(Some(v))) != CleanEnvValue(Some(v))
  {
    CleanQuotedTwice();
    CleanQuoted();
    assert CleanEnvValue(CleanEnvValue(Some("'\"x\"'"))) != CleanEnvValue(Some("'\"x\"'"));
  }

  /** `os.environ.get(first) or os.environ.get(second)`: the first variable if it is set and non-empty. */
  function EnvOr(env: map<string, string>, first: string, second: string): (r: Option<string>)
    ensures first in env && env[first] != "" ==> r == Some(env[first])
    ensures (first !in env || env[first] == "") ==> r == (if second in env then Some(env[second]) else None)
  {
    if first in env && env[first] != "" then Some(env[first])
    else if second in env then Some(env[second])
    else None
  }

  /** `Config.SECRET_KEY`: SECRET_KEY, else SESSION_SECRET, cleaned; the random value when that is empty. */
  function SecretKey(env: map<string, string>, randomHex: string): (r: string)
    ensures randomHex != "" ==> r != ""
    ensures r != randomHex && "SECRET_KEY" in env && env["SECRET_KEY"] != "" ==> Contains(env["SECRET_KEY"], r)
    ensures r != randomHex && ("SECRET_KEY" !in env || env["SECRET_KEY"] == "") ==>
      "SESSION_SECRET" in env && Contains(env["SESSION_SECRET"], r)
  {
    var k := CleanEnvValue(EnvOr(env, "SECRET_KEY", "SESSION_SECRET"));
    if k == None || k.value == "" then randomHex else k.value
  }

  /** `Config.GEMINI_API_KEY`: GEMINI_API_KEY, else GOOGLE_API_KEY, cleaned. */
  function GeminiApiKey(env: map<string, string>): (r: Option<string>)
    ensures r.None? <==> ("GEMINI_API_KEY" !in env || env["GEMINI_API_KEY"] == "") &&
                         ("GOOGLE_API_KEY" !in env || env["GOOGLE_API_KEY"] == "")
    ensures r.Some? && "GEMINI_API_KEY" in env && env["GEMINI_API_KEY"] != "" ==> Contains(env["GEMINI_API_KEY"], r.value)
    ensures r.Some? && ("GEMINI_API_KEY" !in env || env["GEMINI_API_KEY"] == "") ==>
      "GOOGLE_API_KEY" in env && Contains(env["GOOGLE_API_KEY"], r.value)
  {
    CleanEnvValue(EnvOr(env, "GEMINI_API_KEY", "GOOGLE_API_KEY"))
  }

  lemma SecretKeyPrecedence(env: map<string, string>, randomHex: string)
    ensures "SECRET_KEY" in env && env["SECRET_KEY"] != "" ==>
      SecretKey(env, randomHex) == (var k := CleanEnvValue(Some(env["SECRET_KEY"])); if k.value == "" then randomHex else k.value)
    ensures ("SECRET_KEY" !in env || env["SECRET_KEY"] == "") && ("SESSION_SECRET" !in env || env["SESSION_SECRET"] == "") ==>
      SecretKey(env, randomHex) == randomHex
  {
  }

  lemma GeminiKeyPrecedence(env: map<string, string>)
    ensures "GEMINI_API_KEY" in env && env["GEMINI_API_KEY"] != "" ==>
      GeminiApiKey(env) == CleanEnvValue(Some(env["GEMINI_API_KEY"]))
    ensures ("GEMINI_API_KEY" !in env || env["GEMINI_API_KEY"] == "") ==>
      GeminiApiKey(env) == (if "GOOGLE_API_KEY" in env then CleanEnvValue(Some(env["GOOGLE_API_KEY"])) else None)
  {
  }

  /** A blank SECRET_KEY still shadows SESSION_SECRET: the secret then falls back to the random value. */
  lemma BlankSecretShadowsSessionSecret(randomHex: string)
    ensures SecretKey(map["SECRET_KEY" := " ", "SESSION_SECRET" := "abc"], randomHex) == randomHex
  {
    BlankCleansToEmpty(" ");
  }
}
