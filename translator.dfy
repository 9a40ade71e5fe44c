/**
 * utils/translator.py: `translate_text`. English is returned untouched without
 * a call; every other code is translated, with the original text as the
 * answer whenever the call gives nothing usable.
 */
module Translator {
  import opened Wrappers
  import opened Gemini

  /** `language_map.get(code, 'Hindi')`. */
  function LanguageName(code: string): (name: string)
    ensures code == "hi" ==> name == "Hindi"
    ensures code == "or" ==> name == "Odia"
    ensures code == "en" ==> name == "English"
    ensures code != "hi" && code != "or" && code != "en" ==> name == "Hindi"
  {
    if code == "hi" then "Hindi" else if code == "en" then "English" else if code == "or" then "Odia" else "Hindi"
  }

  /** The variable parts of the prompt: the language name and the text. */
  datatype TranslationRequest = TranslationRequest(languageName: string, text: string)

  /**
   * `translate_text(text, target)` with the module cache holding `cached`:
   * the text and cache unchanged for `'en'`; otherwise the non-empty response,
   * or the text itself on an empty response or any exception.
   */
  function Translation(cached: Option<Client>, env: map<string, string>, configKey: Option<string>,
                       remote: Outcome<string>, text: string, target: string): (r: (string, Option<Client>))
    ensures target == "en" ==> r == (text, cached)
    ensures target != "en" ==> r.1 == GetClient(cached, env, configKey).1
    ensures target != "en" && (GetClient(cached, env, configKey).0.Err? || remote.Empty? || remote.Fail? || remote == Text("")) ==>
      r.0 == text
    ensures target != "en" && GetClient(cached, env, configKey).0.Ok? && remote.Text? && remote.value != "" ==>
      r.0 == remote.value
  {
    if target == "en" then (text, cached)
    else
      var (o, after) := CallRemote(cached, env, configKey, remote);
      (if o.Text? && o.value != "" then o.value else text, after)
  }

  /**
   * `translate_text`, whose target defaults to `'hi'`. `request` is what the
   * prompt is written from: nothing for `'en'`, else the language name and
   * the text.
   */
  method TranslateText(cache: ClientCache, env: map<string, string>, configKey: Option<string>,
                       remote: Outcome<string>, text: string, targetLanguage: string := "hi")
    returns (r: string, request: Option<TranslationRequest>)
    modifies cache
    ensures (r, cache.client) == Translation(old(cache.client), env, configKey, remote, text, targetLanguage)
    ensures targetLanguage == "en" <==> request.None?
    ensures request.Some? ==> request.value == TranslationRequest(LanguageName(targetLanguage), text)
  {
    if targetLanguage == "en" {
      return text, None;
    }
    request := Some(TranslationRequest(LanguageName(targetLanguage), text));
    var o := cache.Call(env, configKey, remote);
    r := if o.Text? && o.value != "" then o.value else text;
  }

  /** Called without a target, it translates to Hindi. */
  method TranslateToDefault(cache: ClientCache, env: map<string, string>, configKey: Option<string>,
                            remote: Outcome<string>, text: string) returns (r: string)
    modifies cache
    ensures (r, cache.client) == Translation(old(cache.client), env, configKey, remote, text, "hi")
  {
    var request;
    r, request := TranslateText(cache, env, configKey, remote, text);
  }
}
