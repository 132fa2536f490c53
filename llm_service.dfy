/**
 * The LLM provider layer (app/services/llm_service.py): the prompt
 * template shared by every adapter, the two adapter variants (Gemini and
 * OpenAI-compatible) with their constructor checks, the mapping of every
 * failure inside `analyze` to one 502 error, and `get_llm_provider`, which
 * picks an adapter by a case-insensitive name.
 *
 * The vendor SDK calls, `json.loads` and Python's rendering of the history
 * list are foreign code: they enter as the oracles of an `Oracles` value.
 */
module LlmService {
  import opened Wrappers
  import opened Errors
  import opened Schemas

  // ---------------------------------------------------------------------
  // Configuration
  // ---------------------------------------------------------------------

  /**
   * The attributes of the settings object: a name that is not a key has no
   * attribute (reading it raises AttributeError); a key mapped to None holds
   * Python's None.
   */
  type Settings = map<string, Option<string>>

  /** `settings.<name>`. */
  function Attr(settings: Settings, name: string): (r: Result<Option<string>, Error>)
    ensures r.Success? <==> name in settings
    ensures r.Success? ==> r.value == settings[name]
    ensures r.Failure? ==> r.error == AttributeError(name)
  {
    if name in settings then Success(settings[name]) else Failure(AttributeError(name))
  }

  /** Python's `not value` for a settings value: None or the empty string. */
  predicate Falsy(value: Option<string>) {
    value.None? || value.value == ""
  }

  // ---------------------------------------------------------------------
  // Adapters
  // ---------------------------------------------------------------------

  /**
   * An adapter as its constructor leaves it: the API key its vendor client
   * was built with, the base URL of an OpenAI-compatible client, and the
   * model name (Python's None when the setting holds None).
   */
  datatype Provider =
    | GeminiProvider(apiKey: string, modelName: Option<string>)
    | OpenAICompatibleProvider(apiKey: string, baseUrl: string, modelName: Option<string>)

  const OpenAIBaseUrl: string := "https://api.openai.com/v1"
  const DeepSeekBaseUrl: string := "https://api.deepseek.com/v1"

  /**
   * `GeminiProvider()`: the key is checked before the model name is read,
   * so an empty key is reported even when GEMINI_MODEL is not a setting.
   */
  function NewGeminiProvider(settings: Settings): (r: Result<Provider, Error>)
    ensures "GEMINI_API_KEY" !in settings ==> r == Failure(AttributeError("GEMINI_API_KEY"))
    ensures "GEMINI_API_KEY" in settings && Falsy(settings["GEMINI_API_KEY"])
      ==> r == Failure(ValueError("GEMINI_API_KEY not set"))
    ensures r.Success? <==>
      "GEMINI_API_KEY" in settings && !Falsy(settings["GEMINI_API_KEY"]) && "GEMINI_MODEL" in settings
    ensures r.Success? ==>
      && r.value.GeminiProvider?
      && settings["GEMINI_API_KEY"] == Some(r.value.apiKey)
      && settings["GEMINI_MODEL"] == r.value.modelName
  {
    var key :- Attr(settings, "GEMINI_API_KEY");
    if Falsy(key) then Failure(ValueError("GEMINI_API_KEY not set"))
    else
      var model :- Attr(settings, "GEMINI_MODEL");
      Success(GeminiProvider(key.value, model))
  }

  /** `OpenAICompatibleProvider(api_key, base_url, model_name)`: a missing or empty key is refused. */
  function NewOpenAICompatibleProvider(apiKey: Option<string>, baseUrl: string, modelName: Option<string>)
    : (r: Result<Provider, Error>)
    ensures r.Failure? <==> Falsy(apiKey)
    ensures r.Failure? ==> r.error == ValueError("API Key missing for OpenAI/DeepSeek provider")
    ensures r.Success? ==>
      && r.value.OpenAICompatibleProvider?
      && apiKey == Some(r.value.apiKey) && r.value.apiKey != ""
      && r.value.baseUrl == baseUrl && r.value.modelName == modelName
  {
    if Falsy(apiKey) then Failure(ValueError("API Key missing for OpenAI/DeepSeek provider"))
    else Success(OpenAICompatibleProvider(apiKey.value, baseUrl, modelName))
  }

  // ---------------------------------------------------------------------
  // Provider dispatch
  // ---------------------------------------------------------------------

  const KelvinSign: char := '\U{212A}'

  /**
   * Python's `str.lower` on one character, for the characters whose lower
   * case can spell a provider name: ASCII capitals, and the Kelvin sign,
   * whose lower case is an ASCII `k`.
   */
  function LowerChar(c: char): char {
    if 'A' <= c <= 'Z' then (c as int + 32) as char
    else if c == KelvinSign then 'k'
    else c
  }

  function Lower(s: string): (r: string)
    ensures |r| == |s|
    ensures forall i :: 0 <= i < |s| ==> r[i] == LowerChar(s[i])
  {
    seq(|s|, i requires 0 <= i < |s| => LowerChar(s[i]))
  }

  lemma LowerIdempotent(s: string)
    ensures Lower(Lower(s)) == Lower(s)
  {
  }

  const SupportedProviderNames: set<string> := {"gemini", "openai", "deepseek"}

  /** The setting that holds each provider's API key. */
  function KeyAttribute(name: string): string {
    if name == "gemini" then "GEMINI_API_KEY"
    else if name == "openai" then "OPENAI_API_KEY"
    else "DEEPSEEK_API_KEY"
  }

  /** The setting that holds each provider's model name. */
  function ModelAttribute(name: string): string {
    if name == "gemini" then "GEMINI_MODEL"
    else if name == "openai" then "OPENAI_MODEL"
    else "DEEPSEEK_MODEL"
  }

  /**
   * `get_llm_provider(provider_name)`: the name is lowercased before any
   * comparison (a missing name, Python's None, has no `lower` and raises
   * AttributeError); the three supported names build their adapter afresh,
   * any other name is a 400 error and builds none. For OpenAI and DeepSeek
   * both settings are read before the constructor checks the key.
   */
  function GetLlmProvider(providerName: Option<string>, settings: Settings): (r: Result<Provider, Error>)
    ensures providerName.None? ==> r == Failure(AttributeError("lower"))
    ensures providerName.Some? ==>
      var n := Lower(providerName.value);
      && (n !in SupportedProviderNames <==> r == Failure(HttpError(400, "Unsupported provider: " + n)))
      && (n in SupportedProviderNames ==>
            (r.Success? <==>
               && KeyAttribute(n) in settings && !Falsy(settings[KeyAttribute(n)])
               && ModelAttribute(n) in settings))
    ensures r.Success? ==>
      var n := Lower(providerName.value);
      && n in SupportedProviderNames
      && (r.value.GeminiProvider? <==> n == "gemini")
      && (r.value.OpenAICompatibleProvider? ==>
            r.value.baseUrl == (if n == "openai" then OpenAIBaseUrl else DeepSeekBaseUrl))
      && settings[KeyAttribute(n)] == Some(r.value.apiKey)
      && settings[ModelAttribute(n)] == r.value.modelName
  {
    if providerName.None? then Failure(AttributeError("lower"))
    else
      var n := Lower(providerName.value);
      if n == "gemini" then NewGeminiProvider(settings)
      else if n == "openai" then
        var key :- Attr(settings, "OPENAI_API_KEY");
        var model :- Attr(settings, "OPENAI_MODEL");
        NewOpenAICompatibleProvider(key, OpenAIBaseUrl, model)
      else if n == "deepseek" then
        var key :- Attr(settings, "DEEPSEEK_API_KEY");
        var model :- Attr(settings, "DEEPSEEK_MODEL");
        NewOpenAICompatibleProvider(key, DeepSeekBaseUrl, model)
      else Failure(HttpError(400, "Unsupported provider: " + n))
  }

  /** Dispatch depends on the lowercased name alone. */
  lemma DispatchIgnoresCase(name: string, settings: Settings)
    ensures GetLlmProvider(Some(name), settings) == GetLlmProvider(Some(Lower(name)), settings)
  {
    LowerIdempotent(name);
  }

  /**
   * A supported provider whose key setting exists but is None or empty
   * fails with the constructor's ValueError, once the settings read before
   * the check exist.
   */
  lemma MissingApiKeyRejected(name: string, settings: Settings)
    requires Lower(name) in SupportedProviderNames
    requires KeyAttribute(Lower(name)) in settings && Falsy(settings[KeyAttribute(Lower(name))])
    requires Lower(name) != "gemini" ==> ModelAttribute(Lower(name)) in settings
    ensures GetLlmProvider(Some(name), settings).Failure?
    ensures GetLlmProvider(Some(name), settings).error.ValueError?
  {
  }

  /** Every literal an analysis request admits is lowercase already. */
  lemma ModelNameIsLowercase(c: ModelChoice)
    ensures Lower(ModelName(c)) == ModelName(c)
  {
  }

  /**
   * A validated request never reaches the unsupported-provider branch: its
   * model's literal is dispatched, and a successful dispatch builds the
   * variant belonging to that model.
   */
  lemma ValidatedModelIsDispatched(field: Option<Json>, settings: Settings)
    requires ParseModel(field).Some?
    ensures var name := ModelName(ParseModel(field).value);
      GetLlmProvider(Some(name), settings).Failure? ==> !GetLlmProvider(Some(name), settings).error.HttpError?
    ensures var c := ParseModel(field).value;
      GetLlmProvider(Some(ModelName(c)), settings).Success? ==>
      var p := GetLlmProvider(Some(ModelName(c)), settings).value;
      && (p.GeminiProvider? <==> c == Gemini)
      && (c == OpenAI ==> p.baseUrl == OpenAIBaseUrl)
      && (c == DeepSeek ==> p.baseUrl == DeepSeekBaseUrl)
  {
    var c := ParseModel(field).value;
    ModelNameIsLowercase(c);
  }

  // ---------------------------------------------------------------------
  // Prompt template
  // ---------------------------------------------------------------------

  const PromptIntro: string :=
    "\n        You are an academic risk analysis engine.\n        \n        TASK:\n"
    + "        Analyze the student's readiness for the target subject using ONLY the provided academic history.\n"
    + "        \n"
  const TargetLabel: string := "        TARGET SUBJECT: "
  const HistoryLabel: string := "\n        STUDENT ACADEMIC HISTORY: "
  const RulesHead: string :=
    "\n        \n        OUTPUT RULES:\n        - Return ONLY valid JSON.\n        - JSON Structure:\n        {\n          "
  const SubjectCodeKey: string := "\"subject_code\": \""
  const RiskLevelLine: string := "\"risk_level\": \"Low | Medium | High\""
  const FieldSeparator: string := "\",\n          "
  const RulesRest: string :=
    ",\n          \"key_signals\": [{\"signal\": \"...\", \"description\": \"...\"}],"
    + "\n          \"risk_drivers\": [\"...\"],"
    + "\n          \"recommended_focus\": [\"...\"]\n        }\n        "
  const RulesTail: string := FieldSeparator + RiskLevelLine + RulesRest

  predicate StartsWith(s: string, prefix: string) {
    |prefix| <= |s| && s[..|prefix|] == prefix
  }

  predicate EndsWith(s: string, suffix: string) {
    |suffix| <= |s| && s[|s| - |suffix|..] == suffix
  }

  /**
   * `_build_prompt(subject_code, history)`: a fixed template with the
   * subject code on the TARGET SUBJECT line and again in the `subject_code`
   * field of the requested JSON shape, and the history as `render` prints
   * it. It reads nothing but its arguments and does not depend on the
   * adapter.
   */
  function BuildPrompt(subjectCode: string, history: seq<SubjectHistory>, render: seq<SubjectHistory> -> string)
    : (r: string)
    ensures StartsWith(r, PromptIntro + TargetLabel + subjectCode + HistoryLabel + render(history))
    ensures EndsWith(r, SubjectCodeKey + subjectCode + RulesTail)
  {
    var head := PromptIntro + TargetLabel + subjectCode + HistoryLabel + render(history);
    var tail := SubjectCodeKey + subjectCode + RulesTail;
    var r := head + RulesHead + tail;
    assert r == head + (RulesHead + tail);
    assert r[..|head|] == head;
    assert r == (head + RulesHead) + tail;
    assert r[|r| - |tail|..] == tail;
    r
  }

  lemma ConcatAssoc(a: string, b: string, c: string)
    ensures (a + b) + c == a + (b + c)
  {
  }

  lemma EndsWithPart(s: string, a: string, b: string)
    requires EndsWith(s, a + b)
    ensures EndsWith(s, b)
  {
    assert (a + b)[|a|..] == b;
    assert s[|s| - |b|..] == s[|s| - |a + b|..][|a|..];
  }

  /**
   * The closing part of every prompt asks for one of the risk levels
   * Low, Medium or High, right after the repeated subject code.
   */
  lemma PromptListsRiskLevels(subjectCode: string, history: seq<SubjectHistory>, render: seq<SubjectHistory> -> string)
    ensures EndsWith(BuildPrompt(subjectCode, history, render), RiskLevelLine + RulesRest)
  {
    var p := BuildPrompt(subjectCode, history, render);
    EndsWithPart(p, SubjectCodeKey + subjectCode, RulesTail);
    ConcatAssoc(FieldSeparator, RiskLevelLine, RulesRest);
    EndsWithPart(p, FieldSeparator, RiskLevelLine + RulesRest);
  }

  /** The characters of `s` up to its first line break. */
  function FirstLine(s: string): (r: string)
    ensures '\n' !in r
    ensures StartsWith(s, r)
  {
    if s == [] || s[0] == '\n' then [] else [s[0]] + FirstLine(s[1..])
  }

  /** The subject a prompt's TARGET SUBJECT line names, if it has the template's opening. */
  function TargetSubjectOf(prompt: string): Option<string> {
    var head := PromptIntro + TargetLabel;
    if StartsWith(prompt, head) then Some(FirstLine(prompt[|head|..])) else None
  }

  lemma {:induction false} FirstLineOfConcat(line: string, rest: string)
    requires '\n' !in line
    requires rest != [] && rest[0] == '\n'
    ensures FirstLine(line + rest) == line
  {
    if line != [] {
      assert (line + rest)[1..] == line[1..] + rest;
      FirstLineOfConcat(line[1..], rest);
    }
  }

  /**
   * The TARGET SUBJECT line gives the subject code back: a code without a
   * line break is recovered exactly from the prompt built for it.
   */
  lemma TargetSubjectRoundTrip(subjectCode: string, history: seq<SubjectHistory>, render: seq<SubjectHistory> -> string)
    requires '\n' !in subjectCode
    ensures TargetSubjectOf(BuildPrompt(subjectCode, history, render)) == Some(subjectCode)
  {
    var head := PromptIntro + TargetLabel;
    var p := BuildPrompt(subjectCode, history, render);
    var rest := HistoryLabel + render(history);
    ConcatAssoc(head + subjectCode, HistoryLabel, render(history));
    assert rest[0] == HistoryLabel[0] == '\n';
    FirstLineAfterPrefix(p, head, subjectCode, rest);
  }

  /** In a string that starts with `head + line + rest`, the line after `head` is `line`. */
  lemma FirstLineAfterPrefix(s: string, head: string, line: string, rest: string)
    requires StartsWith(s, head + line + rest)
    requires '\n' !in line
    requires rest != [] && rest[0] == '\n'
    ensures StartsWith(s, head)
    ensures FirstLine(s[|head|..]) == line
  {
    var whole := head + line + rest;
    assert s[..|head|] == whole[..|head|] == head;
    var after := s[|head|..];
    assert after == line + after[|line|..];
    assert after[|line|..][0] == rest[0];
    FirstLineOfConcat(line, after[|line|..]);
  }

  // ---------------------------------------------------------------------
  // analyze
  // ---------------------------------------------------------------------

  datatype ChatMessage = ChatMessage(role: string, content: string)

  /** The one call an adapter makes to its vendor SDK. */
  datatype VendorRequest =
    | GenerateContent(model: Option<string>, contents: string, responseMimeType: string)
    | ChatCompletion(model: Option<string>, messages: seq<ChatMessage>, responseFormatType: string)

  /**
   * The foreign code `analyze` depends on: Python's rendering of the
   * history list inside the prompt; the vendor call, giving the reply's
   * text, or None when the call raises or the reply carries no text (both
   * end in the same exception handler); and `json.loads`, None when it
   * raises.
   */
  datatype Oracles = Oracles(
    renderHistory: seq<SubjectHistory> -> string,
    vendor: (Provider, VendorRequest) -> Option<string>,
    loads: string -> Option<Json>)

  const SystemMessage: ChatMessage := ChatMessage("system", "You are a helpful JSON API.")

  /** The request each adapter sends for a prompt. */
  function VendorRequestFor(p: Provider, prompt: string): (r: VendorRequest)
    ensures r.GenerateContent? <==> p.GeminiProvider?
    ensures r.model == p.modelName
    ensures r.GenerateContent? ==> r.contents == prompt && r.responseMimeType == "application/json"
    ensures r.ChatCompletion? ==>
      r.messages == [SystemMessage, ChatMessage("user", prompt)] && r.responseFormatType == "json_object"
  {
    match p
    case GeminiProvider(_, model) => GenerateContent(model, prompt, "application/json")
    case OpenAICompatibleProvider(_, _, model) =>
      ChatCompletion(model, [SystemMessage, ChatMessage("user", prompt)], "json_object")
  }

  /** The user prompt a vendor request carries. */
  function PromptOf(req: VendorRequest): string {
    match req
    case GenerateContent(_, contents, _) => contents
    case ChatCompletion(_, messages, _) => if |messages| == 2 then messages[1].content else ""
  }

  /** Both adapters send the same prompt for the same subject and history. */
  lemma SamePromptForEveryAdapter(p: Provider, q: Provider, subjectCode: string,
                                  history: seq<SubjectHistory>, oracles: Oracles)
    ensures PromptOf(VendorRequestFor(p, BuildPrompt(subjectCode, history, oracles.renderHistory)))
         == PromptOf(VendorRequestFor(q, BuildPrompt(subjectCode, history, oracles.renderHistory)))
         == BuildPrompt(subjectCode, history, oracles.renderHistory)
  {
  }

  const ProviderFailed: Error := HttpError(502, "AI provider failed")

  /**
   * `analyze(subject_code, history)` on either adapter: one vendor call
   * with the built prompt, whose text goes through `json.loads`. A failure
   * of either step becomes the same 502 error; otherwise the parsed value
   * is returned as it is, whatever its shape.
   */
  function Analyze(p: Provider, subjectCode: string, history: seq<SubjectHistory>, oracles: Oracles)
    : (r: Result<Json, Error>)
    ensures r.Failure? ==> r.error == HttpError(502, "AI provider failed")
    ensures
      var reply := oracles.vendor(p, VendorRequestFor(p, BuildPrompt(subjectCode, history, oracles.renderHistory)));
      && (r.Success? <==> reply.Some? && oracles.loads(reply.value).Some?)
      && (r.Success? ==> Some(r.value) == oracles.loads(reply.value))
  {
    var prompt := BuildPrompt(subjectCode, history, oracles.renderHistory);
    match oracles.vendor(p, VendorRequestFor(p, prompt))
    case None => Failure(ProviderFailed)
    case Some(text) =>
      match oracles.loads(text)
      case None => Failure(ProviderFailed)
      case Some(parsed) => Success(parsed)
  }
}
