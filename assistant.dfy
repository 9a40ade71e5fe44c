/**
 * utils/ai_assistant.py: `ResumeAssistant`, the conversational resume builder.
 *
 * Of each system prompt only the sentence that asks for the completion marker
 * is kept. `chat` turns the stored transcript into the request contents and
 * maps the remote outcome to a reply; `extract_resume_data` maps it to a dict.
 */
module Assistant {
  import opened Wrappers
  import opened PyStr
  import opened Json
  import opened Gemini

  /** The word the assistant types once it has everything; app.py looks for it in each reply. */
  const CompletionMarker: string := "COMPLETE"

  datatype Tongue = English | Hindi | Odia

  /** `_get_system_prompt`'s choice: Hindi for `'hi'`, Odia for `'or'`, English for every other code. */
  function PromptTongue(language: string): (t: Tongue)
    ensures t == Hindi <==> language == "hi"
    ensures t == Odia <==> language == "or"
    ensures t == English <==> language != "hi" && language != "or"
  {
    if language == "hi" then Hindi else if language == "or" then Odia else English
  }

  /** The words before and after the quoted marker in the prompt's closing instruction. */
  function MarkerSentence(t: Tongue): (string, string)
  {
    match t
    case English => ("When all information is gathered, type ", ".")
    case Hindi => ("जब सभी जानकारी एकत्र हो जाए, तो ", " टाइप करें।")
    case Odia => ("ଯେତେବେଳେ ସମସ୍ତ ସୂଚନା ସଂଗ୍ରହ ହୋଇଗଲା, ", " ଟାଇପ୍ କରନ୍ତୁ।")
  }

  /** The system prompt for a language code, reduced to its instruction to type the marker. */
  function SystemPrompt(language: string): (p: string)
    ensures Contains(p, CompletionMarker)
  {
    var (before, after) := MarkerSentence(PromptTongue(language));
    var p := before + ("\"" + (CompletionMarker + ("\"" + after)));
    assert OccursAt(p, CompletionMarker, |before| + 1) by {
      assert p[|before| + 1..|before| + 1 + |CompletionMarker|] == CompletionMarker;
    }
    p
  }

  /** One `types.Content`: a role and the text of its single part. */
  datatype Content = Content(role: string, text: Json)

  /** The content for one stored message: role `"user"` when its `"role"` is `"user"`, `"model"` otherwise. */
  function ContentFor(msg: Json): (r: Result<Content>)
    ensures r.Ok? <==> Index(msg, "role").Ok? && Index(msg, "content").Ok?
    ensures r.Ok? ==> (r.value.role == "user" <==> Index(msg, "role").value == JStr("user"))
    ensures r.Ok? ==> (r.value.role == "user" || r.value.role == "model") && r.value.text == Index(msg, "content").value
  {
    match Index(msg, "role")
    case Err(e) => Err(e)
    case Ok(role) =>
      match Index(msg, "content")
      case Err(e) => Err(e)
      case Ok(text) => Ok(Content(if role == JStr("user") then "user" else "model", text))
  }

  /** The contents for a transcript, in order; the first message that cannot be read stops it. */
  function HistoryContents(history: seq<Json>): (r: Result<seq<Content>>)
    ensures r.Ok? ==> |r.value| == |history|
  {
    if history == [] then Ok([])
    else
      match HistoryContents(history[..|history| - 1])
      case Err(e) => Err(e)
      case Ok(cs) =>
        match ContentFor(history[|history| - 1])
        case Err(e) => Err(e)
        case Ok(c) => Ok(cs + [c])
  }

  /** The request contents of `chat`: the transcript, then the new message as `"user"`. */
  function ChatContents(history: seq<Json>, message: string): (r: Result<seq<Content>>)
    ensures r.Ok? ==> |r.value| == |history| + 1 && r.value[|history|] == Content("user", JStr(message))
  {
    match HistoryContents(history)
    case Err(e) => Err(e)
    case Ok(cs) => Ok(cs + [Content("user", JStr(message))])
  }

  /** The loop of `chat` that builds `contents`. */
  method BuildContents(history: seq<Json>, message: string) returns (r: Result<seq<Content>>)
    ensures r == ChatContents(history, message)
  {
    var contents: seq<Content> := [];
    var k := 0;
    while k < |history|
      invariant 0 <= k <= |history|
      invariant HistoryContents(history[..k]) == Ok(contents)
    {
      var msg := history[k];
      assert history[..k + 1][..k] == history[..k];
      var c := ContentFor(msg);
      if c.Err? {
        PrefixErrorStops(history, k + 1);
        return Err(c.msg);
      }
      contents := contents + [c.value];
      k := k + 1;
    }
    assert history[..k] == history;
    r := Ok(contents + [Content("user", JStr(message))]);
  }

  /** Once a prefix of the transcript cannot be read, neither can the whole, with the same error. */
  lemma {:induction false} PrefixErrorStops(history: seq<Json>, k: int)
    requires 0 <= k <= |history| && HistoryContents(history[..k]).Err?
    ensures HistoryContents(history) == HistoryContents(history[..k])
    decreases |history| - k
  {
    if k < |history| {
      var longer := history[..k + 1];
      assert longer[..|longer| - 1] == history[..k];
      PrefixErrorStops(history, k + 1);
    } else {
      assert history[..k] == history;
    }
  }

  /** Message `i` of the transcript becomes content `i`, with its role mapped. */
  lemma {:induction false} HistoryContentsInOrder(history: seq<Json>, i: int)
    requires HistoryContents(history).Ok? && 0 <= i < |history|
    ensures ContentFor(history[i]) == Ok(HistoryContents(history).value[i])
  {
    var n := |history| - 1;
    var init := history[..n];
    HistoryContentsSnoc(history);
    var whole := HistoryContents(history).value;
    var cs := HistoryContents(init).value;
    var last := ContentFor(history[n]);
    assert whole == cs + [last.value];
    if i < n {
      HistoryContentsInOrder(init, i);
      assert init[i] == history[i] && whole[i] == cs[i];
      assert ContentFor(history[i]) == Ok(whole[i]);
    } else {
      assert i == n && whole[n] == last.value;
      assert last == Ok(last.value);
    }
  }

  /** A readable transcript: its first messages are readable, and the last one's content comes last. */
  lemma HistoryContentsSnoc(history: seq<Json>)
    requires HistoryContents(history).Ok? && history != []
    ensures var n := |history| - 1;
      HistoryContents(history[..n]).Ok? && ContentFor(history[n]).Ok? &&
      HistoryContents(history).value == HistoryContents(history[..n]).value + [ContentFor(history[n]).value]
  {
  }

  /** The transcript is readable exactly when every message has a `"role"` and a `"content"`. */
  lemma HistoryContentsOk(history: seq<Json>)
    ensures HistoryContents(history).Ok? <==> forall i :: 0 <= i < |history| ==> ContentFor(history[i]).Ok?
  {
    if HistoryContents(history).Ok? {
      forall i | 0 <= i < |history|
        ensures ContentFor(history[i]).Ok?
      {
        HistoryContentsInOrder(history, i);
      }
    } else if forall i :: 0 <= i < |history| ==> ContentFor(history[i]).Ok? {
      ReadableHistory(history);
    }
  }

  /** A transcript whose every message has a `"role"` and a `"content"` reads. */
  lemma {:induction false} ReadableHistory(history: seq<Json>)
    requires forall i :: 0 <= i < |history| ==> ContentFor(history[i]).Ok?
    ensures HistoryContents(history).Ok?
  {
    if history != [] {
      var n := |history| - 1;
      var init := history[..n];
      assert forall i :: 0 <= i < n ==> init[i] == history[i];
      ReadableHistory(init);
      HistoryContentsStep(history);
    }
  }

  /** A transcript reads exactly when its first messages read and then its last one does. */
  lemma HistoryContentsStep(history: seq<Json>)
    requires history != []
    ensures var n := |history| - 1;
      HistoryContents(history).Ok? <==> HistoryContents(history[..n]).Ok? && ContentFor(history[n]).Ok?
  {
  }

  const EmptyReply: string := "I'm here to help you build your resume."

  /** `chat`'s reply once the call was made: the response text, the fixed line for an empty one, or the error. */
  function ReplyFor(o: Outcome<string>): (r: string)
    ensures r != ""
    ensures o.Text? && o.value != "" ==> r == o.value
    ensures o.Empty? || o == Text("") ==> r == EmptyReply
    ensures o.Fail? ==> |r| >= 7 && r[..7] == "Error: " && r[7..] == o.msg
  {
    match o
    case Text(s) => if s != "" then s else EmptyReply
    case Empty => EmptyReply
    case Fail(m) => "Error: " + m
  }

  /** The contents `chat` sends for a stored transcript (`None` counts as `[]`), or the error reading it raised. */
  function ChatRequest(history: Option<Json>, message: string): (r: Result<seq<Content>>)
    ensures history == None ==> r == Ok([Content("user", JStr(message))])
    ensures history.Some? && history.value.JArr? ==> r == ChatContents(history.value.items, message)
  {
    var h := if history == None then EmptyList else history.value;
    assert [] + [Content("user", JStr(message))] == [Content("user", JStr(message))];
    match Iterate(h)
    case Err(e) => Err(e)
    case Ok(items) => ChatContents(items, message)
  }

  /**
   * `ResumeAssistant(language).chat(message, history)` with the module cache
   * holding `cached`; `remote` is what the model call gives. Returns the reply
   * and the cache afterwards. It never raises: every failure inside the `try`
   * becomes a reply starting with `"Error: "`.
   */
  function ChatReply(cached: Option<Client>, env: map<string, string>, configKey: Option<string>,
                     message: string, history: Option<Json>, remote: Outcome<string>): (r: (string, Option<Client>))
    ensures ChatRequest(history, message).Err? ==>
      r == ("Error: " + ChatRequest(history, message).msg, cached)
    ensures ChatRequest(history, message).Ok? && GetClient(cached, env, configKey).0.Err? ==>
      r == ("Error: " + KeyMissingMessage, None)
    ensures ChatRequest(history, message).Ok? && GetClient(cached, env, configKey).0.Ok? ==>
      r.1 == GetClient(cached, env, configKey).1 &&
      (remote.Empty? || remote == Text("") ==> r.0 == EmptyReply) &&
      (remote.Fail? ==> r.0 == "Error: " + remote.msg) &&
      (remote.Text? && remote.value != "" ==> r.0 == remote.value)
  {
    match ChatRequest(history, message)
    case Err(e) => ("Error: " + e, cached)
    case Ok(_) =>
      var (o, after) := CallRemote(cached, env, configKey, remote);
      (ReplyFor(o), after)
  }

  /** A transcript with a message lacking `"content"` gives Python's `KeyError` text and never reaches the client. */
  lemma MissingContentReply(cached: Option<Client>, env: map<string, string>, configKey: Option<string>,
                            message: string, remote: Outcome<string>)
    ensures ChatReply(cached, env, configKey, message, Some(JArr([JObj([Member("role", JStr("user"))])])), remote)
      == ("Error: 'content'", cached)
  {
    var msg := JObj([Member("role", JStr("user"))]);
    assert !HasKey(msg.members, "content");
    assert Index(msg, "role") == Ok(JStr("user"));
    assert Index(msg, "content") == Err("'content'");
    assert ContentFor(msg) == Err("'content'");
    assert HistoryContents([msg]) == Err("'content'") by {
      assert [msg][..0] == [];
    }
    assert ChatContents([msg], message) == Err("'content'");
    assert "Error: " + "'content'" == "Error: 'content'";
  }

  /** `chat`, with the module's `_client` in `cache`. */
  method Chat(cache: ClientCache, env: map<string, string>, configKey: Option<string>,
              message: string, history: Option<Json>, remote: Outcome<string>) returns (reply: string)
    modifies cache
    ensures (reply, cache.client) == ChatReply(old(cache.client), env, configKey, message, history, remote)
  {
    var h := if history == None then EmptyList else history.value;
    var items := Iterate(h);
    if items.Err? {
      return "Error: " + items.msg;
    }
    var contents := BuildContents(items.value, message);
    if contents.Err? {
      return "Error: " + contents.msg;
    }
    var o := cache.Call(env, configKey, remote);
    reply := ReplyFor(o);
  }

  /**
   * `extract_resume_data`: the parsed response, whatever its shape, or `{}`
   * for an empty response and for any exception in the `try` (a missing key,
   * an API error, text that is not JSON). `remote` is `Text(v)` when the text
   * parsed to `v`.
   */
  function ExtractedData(cached: Option<Client>, env: map<string, string>, configKey: Option<string>,
                         remote: Outcome<Json>): (r: (Json, Option<Client>))
    ensures GetClient(cached, env, configKey).0.Err? ==> r.0 == EmptyDict
    ensures remote.Empty? || remote.Fail? ==> r.0 == EmptyDict
    ensures remote.Text? && GetClient(cached, env, configKey).0.Ok? ==> r.0 == remote.value
    ensures r.1 == GetClient(cached, env, configKey).1
  {
    var (o, after) := CallRemote(cached, env, configKey, remote);
    match o
    case Text(v) => (v, after)
    case _ => (EmptyDict, after)
  }

  method ExtractResumeData(cache: ClientCache, env: map<string, string>, configKey: Option<string>,
                           remote: Outcome<Json>) returns (data: Json)
    modifies cache
    ensures (data, cache.client) == ExtractedData(old(cache.client), env, configKey, remote)
  {
    var o := cache.Call(env, configKey, remote);
    data := if o.Text? then o.value else EmptyDict;
  }
}
