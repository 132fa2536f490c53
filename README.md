# NATHAC academic-risk analysis core, modelled in Dafny

NATHAC takes a student's academic history and a list of target subjects.
For each target subject it asks a large language model how risky that
subject is for the student, and it returns one structured outcome per
subject. This project models the service's core and proves properties of it:

- **`Processor`** (`processor.dfy`) models `process_student_risk`. For each
  target subject, in request order:
  - it builds the set of the subject's prerequisite codes;
  - it keeps the history records whose code is in that set, in their
    original order;
  - it passes the subject code and that history to the analyzer;
  - it validates the parsed reply into a `SubjectOutcome` and appends it.

  The first failure aborts the whole batch with that error. On success the
  response echoes the student id and the requested subject codes. The loop
  is a method with loop invariants. The set, the filter and the list of
  codes are functions with lemmas.
- **`LlmService`** (`llm_service.dfy`) models the provider layer:
  - `get_llm_provider` lowercases the provider name, then builds a Gemini
    adapter or an OpenAI-compatible adapter (OpenAI or DeepSeek base URL).
    Any other name is a 400 "Unsupported provider" error.
  - Each adapter constructor refuses a missing or empty API key.
  - Both adapters build the same prompt from one fixed template.
  - Every failure inside `analyze` becomes the same 502 "AI provider
    failed" error. Otherwise the parsed reply is returned unchanged.

  Adapters are a closed datatype with two variants. Each adapter is written
  once, by its constructor, and never changed.
- **`Schemas`** (`schemas.dfy`) holds the request and response records as
  datatypes, plus a JSON value type for what `json.loads` returns.
  - `ValidateSubjectOutcome` is the total validator behind
    `SubjectOutcome(**raw)`. Its partner is `OutcomeToJson`, the JSON shape
    the prompt asks for.
  - The `model` selector is an enum with `Gemini` as its default.
  - The optional fields `semester`, `final_grade` and `reason` are `Option`
    values that default to `None`.
  - `internal` is a sequence of scores; `external` is exactly one score.
- **`Errors`** and **`Wrappers`** hold the exception taxonomy and the
  Option/Result types.

Foreign code enters only as parameters:
- the vendor SDK calls, `json.loads` and Python's `repr` of the history
  inside the prompt, bundled as `LlmService.Oracles`;
- the analyzer that `process_student_risk` calls, which also receives the
  position of the call in the batch, so that the same subject asked twice
  may get two different answers;
- the settings object, as a map from attribute name to value;
- the `uuid4` analysis id.

Notes on the source as written:
- `processor.py:4` imports `analyze_with_ai` from `llm_service.py`, which
  does not define it. The analyzer is therefore a parameter. No lemma links
  it to `LlmService.Analyze`.
- `app/api/analyze.py:18-21` does not pass `request.model` on. So the
  request's model choice never reaches `get_llm_provider` in this code.
  `ValidatedModelIsDispatched` shows what would happen if it did.
- Of the settings `llm_service.py` reads, `config.py` declares only
  `GEMINI_API_KEY` (it also declares `NATHAC_ENV`, which the core never
  reads). Reading `GEMINI_MODEL`,
  `OPENAI_*` or `DEEPSEEK_*` from it raises AttributeError. The `Settings`
  map models an absent attribute as exactly that error.
- `get_llm_provider` defaults its argument to `None` and then calls
  `.lower()` on it. Called without a name, it raises AttributeError, and
  the model says so.
- The code has no cascade that recovers JSON from noisy replies, no
  per-process cache of adapters, and no concurrent fan-out that turns
  failures into "Unknown" outcomes. It calls `json.loads` directly, builds
  a new adapter on every call, and loops sequentially, re-raising the first
  failure. The model follows the code.
- The outcome's `subject_code` comes from the model's reply. Nothing checks
  that it equals the requested subject's code, and nothing checks that
  `risk_level` is Low, Medium or High.

## Model

| member | source | states |
|---|---|---|
| `Schemas.ParseModel` | app/models/schemas.py:76 | the `model` field accepts exactly "openai", "gemini" and "deepseek" (case-sensitive), rejects null and everything else, and is Gemini when absent |
| `Schemas.ModelNameRoundTrip` | app/models/schemas.py:76 | every model choice's literal validates back to that choice |
| `Schemas.ValidateEach` | app/models/schemas.py:62-64 | a list field is accepted iff every element is, and then the i-th value is the i-th element's validated value |
| `Schemas.AsStringList` | app/models/schemas.py:63-64 | a `List[str]` field is accepted iff it is a JSON list of strings, and the strings are kept in order |
| `Schemas.ValidateKeySignal` | app/models/schemas.py:55-57 | a key signal is accepted iff it is an object whose `signal` and `description` are both strings; other keys are ignored |
| `Schemas.ValidateSubjectOutcome` | app/models/schemas.py:59-64 | accepted only if all five fields are present; then each field of the outcome is the value of its JSON field; all five present and well-shaped is enough to be accepted |
| `Schemas.KeySignalsRoundTrip` | app/models/schemas.py:55-62 | validating the JSON form of a list of key signals gives that list back |
| `Schemas.StringsRoundTrip` | app/models/schemas.py:63-64 | validating the JSON form of a list of strings gives that list back |
| `Schemas.OutcomeRoundTrip` | app/models/schemas.py:59-64 | every outcome survives encoding to the requested JSON shape and validating back, unchanged |
| `Schemas.AnyRiskLevelAccepted` | app/models/schemas.py:61 | a reply with any risk-level string is accepted, and that string becomes the outcome's risk level |
| `Schemas.ExtraFieldsIgnored` | app/models/schemas.py:59-64 | adding a key outside the five fields does not change the verdict or the outcome |
| `Schemas.MissingFieldRejected` | app/models/schemas.py:59-64 | removing any one of the five fields makes validation fail |
| `Schemas.KeySignalWithoutDescriptionRejected` | app/models/schemas.py:55-57 | an outcome whose key signal lacks a `description` is rejected, however well-formed the rest is |
| `LlmService.NewGeminiProvider` | app/services/llm_service.py:39-44 | a missing key attribute is an AttributeError, a None or empty key is the "GEMINI_API_KEY not set" ValueError, checked before GEMINI_MODEL is read; success exactly when the key is non-empty and the model setting exists, holding both values |
| `LlmService.NewOpenAICompatibleProvider` | app/services/llm_service.py:66-71 | fails iff the key is None or empty, always with the same ValueError; otherwise holds the key, base URL and model name it was given |
| `LlmService.Lower` | app/services/llm_service.py:93 | lowercasing keeps the length and lowercases each character |
| `LlmService.LowerIdempotent` | app/services/llm_service.py:93 | lowercasing twice is lowercasing once |
| `LlmService.GetLlmProvider` | app/services/llm_service.py:91-115 | no name is an AttributeError; a lowercased name outside gemini/openai/deepseek is exactly the 400 "Unsupported provider: name" error, and that error means the name was unsupported; a supported name succeeds iff its key setting is non-empty and its model setting exists; a success is the Gemini variant iff the name is "gemini", carries the OpenAI or DeepSeek base URL by name, and holds the configured key and model |
| `LlmService.DispatchIgnoresCase` | app/services/llm_service.py:93-115 | dispatching a name and dispatching its lowercase give the same result |
| `LlmService.MissingApiKeyRejected` | app/services/llm_service.py:97-112 | a supported provider whose key setting is None or empty fails with a ValueError |
| `LlmService.ModelNameIsLowercase` | app/models/schemas.py:76 | the three literals the request admits are already lowercase |
| `LlmService.ValidatedModelIsDispatched` | app/services/llm_service.py:97-112 | for any `model` field the request validator accepts, dispatching the validated choice's literal never hits the unsupported-provider branch, and on success it builds that choice's variant and base URL |
| `LlmService.BuildPrompt` | app/services/llm_service.py:16-36 | the prompt opens with the fixed introduction, the TARGET SUBJECT line with the code and the rendered history, and closes with the JSON template whose `subject_code` field is the code |
| `LlmService.PromptListsRiskLevels` | app/services/llm_service.py:31-35 | every prompt ends with the template part that lists the risk levels "Low \| Medium \| High" |
| `LlmService.TargetSubjectRoundTrip` | app/services/llm_service.py:23 | a subject code without a line break is read back exactly from the TARGET SUBJECT line of its prompt |
| `LlmService.VendorRequestFor` | app/services/llm_service.py:46-85 | Gemini sends one generate-content request with the prompt and mime type application/json; the OpenAI-compatible adapter sends a system message and the prompt as the user message with a json_object format; both pass the adapter's model name |
| `LlmService.SamePromptForEveryAdapter` | app/services/llm_service.py:46-74 | both adapters send the same prompt for the same subject and history |
| `LlmService.Analyze` | app/services/llm_service.py:46-88 | every failure, whether the vendor call or `json.loads`, is the same 502 "AI provider failed" error; success iff both steps succeed, and then the parsed value is returned unchanged |
| `Processor.DependencyCodes` | app/services/processor.py:28-30 | the set holds exactly the codes of the subject's dependencies, and is empty when there are none |
| `Processor.FilterHistory` | app/services/processor.py:33-36 | the filtered history is no longer than the history and every kept record's code is a dependency code |
| `Processor.FilterHistoryPositions` | app/services/processor.py:33-36 | the filtered history is the subsequence of the history at exactly the positions whose code is in the set, in increasing order |
| `Processor.FilterHistoryCounts` | app/services/processor.py:33-36 | a record with a dependency code is kept as many times as it occurs (duplicates included), any other record never |
| `Processor.NoDependenciesMeansEmptyHistory` | app/services/processor.py:28-36 | a subject with no dependencies gets an empty filtered history |
| `Processor.CallFor` | app/services/processor.py:28-47 | the analyzer call for a subject carries that subject's own code and a history no longer than the student's, holding only records whose code is one of the subject's dependency codes |
| `Processor.ReplyOutcome` | app/services/processor.py:47-50 | the analyzer call made at position `i`: an analyzer error is passed on unchanged; otherwise the call succeeds iff the reply is a JSON object that validates as a `SubjectOutcome`, and then the outcome is the validated one |
| `Processor.SubjectResult` | app/services/processor.py:28-50 | one pass of the loop body at position `i`: an analyzer failure is the subject's error unchanged; otherwise the subject succeeds iff the reply is a JSON object that validates as a `SubjectOutcome`, and then the outcome is the validated one |
| `Processor.AnalyzeSubject` | app/services/processor.py:28-50 | the loop body's steps (dependency codes, filter, analyzer call at the subject's position, `SubjectOutcome(**raw)`) compute exactly `SubjectResult` |
| `Processor.BuildOutcome` | app/services/processor.py:50 | a reply that is not an object is a TypeError; an object is accepted iff it validates, as the validated outcome, and a rejection is a ValidationError |
| `Processor.WellFormedReplyIsOutcome` | app/services/processor.py:44-51 | a reply in the requested JSON shape becomes the subject's outcome unchanged |
| `Processor.RepeatedSubjectAnsweredSeparately` | app/services/processor.py:19-47 | every entry of the batch is a separate analyzer call: a subject listed twice may succeed at its first position and fail at its second |
| `Processor.SubjectCodes` | app/services/processor.py:68-70 | one code per requested subject, in request order |
| `Processor.ProcessStudentRisk` | app/services/processor.py:11-72 | the analyzer is called in request order, the i-th call at position i with the i-th subject's own code and filtered history; every call before the last one succeeded; success iff every subject was analyzed and validated; a failure is the last call's own error, and later subjects are never analyzed; a success echoes the analysis id, the student id and the requested codes, with the i-th outcome being the i-th call's validated reply |

## Left out

- Vendor SDK calls (`generate_content`, `chat.completions.create`) and `json.loads`: foreign libraries, modelled as oracles. A reply without text (`response.text` or `message.content` set to None) is treated like a failed call, since both end in the same handler with the same 502 error.
- The exact rendering of `{history}` in the prompt: it is Python's `repr` of pydantic objects, so it enters as the oracle `renderHistory`. The rest of the template text is modelled exactly.
- Construction of the vendor clients (`genai.Client`, `AsyncOpenAI`): assumed not to fail. An adapter keeps only the key, base URL and model name the client is built from.
- LlmService.Lower: models Python's `str.lower` only for ASCII capitals and the Kelvin sign, the characters whose lower case can spell a provider name. Other characters are left unchanged. This affects only the text of the 400 error's detail, never which branch is taken.
- Floating point: the `float` fields `score`, `max` and `weight` are `real`. The core does no arithmetic on them, so no rounding behaviour is lost.
- The `calls` output of `ProcessStudentRisk` (and `call` of `AnalyzeSubject`) has no counterpart in the source, which returns only the response. It records the analyzer's arguments in call order so that the contract can state them.
- Logging (`app_logger`, `error_logger`): file I/O with no effect on results.
- async/await: the loop in `process_student_risk` awaits one call at a time, so it is modelled as a sequential loop.
- `uuid4`: nondeterministic, so the analysis id is a parameter and is not constrained.
- Validation of whole request bodies by FastAPI and pydantic: the inputs are typed datatypes. Only the `model` field's literal check and default are modelled.
- Processor.BuildOutcome: the TypeError message is abbreviated (Python's message also names the class and the argument's type). The ValidationError carries only the model name, not pydantic's per-field error list.
- app/main.py (HTTP client lifespan, CORS), app/api/analyze.py (a router that forwards and re-raises), app/api/auth.py and app/core/security.py (credential check, JWT handling on the wall clock), app/core/logging_config.py and app/core/config.py: framework, I/O and configuration plumbing outside the core. Settings are an abstract parameter.
