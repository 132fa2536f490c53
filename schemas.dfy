/**
 * The request and response records of the risk-analysis service
 * (app/models/schemas.py), the validation that turns a model's parsed JSON
 * reply into a SubjectOutcome, and the `model` selector of an analysis
 * request.
 *
 * Floating-point fields (scores, maxima, weights) are kept as `real`: the
 * service only carries them and never computes with them.
 */
module Schemas {
  import opened Wrappers

  /** A value as `json.loads` produces it. Object keys are unique, as in a Python dict. */
  datatype Json =
    | JNull
    | JBool(b: bool)
    | JNumber(n: real)
    | JString(s: string)
    | JArray(items: seq<Json>)
    | JObject(fields: map<string, Json>)

  // ---------------------------------------------------------------------
  // Student performance input
  // ---------------------------------------------------------------------

  datatype InternalScore = InternalScore(name: string, score: real, max: real)

  datatype ExternalScore = ExternalScore(score: real, max: real)

  /**
   * One course of a student's history: any number of internal assessments
   * and exactly one external score. `semester` and `finalGrade` are
   * optional and are None when the caller leaves them out.
   */
  datatype SubjectHistory = SubjectHistory(
    subjectCode: string,
    internal: seq<InternalScore>,
    external: ExternalScore,
    semester: Option<int> := None,
    finalGrade: Option<string> := None)

  datatype StudentHistory = StudentHistory(studentId: string, academicHistory: seq<SubjectHistory>)

  // ---------------------------------------------------------------------
  // Dependency input
  // ---------------------------------------------------------------------

  /** A prerequisite of a target subject; `reason` is None when left out. */
  datatype Dependency = Dependency(subjectCode: string, weight: real, reason: Option<string> := None)

  datatype SubjectDependency = SubjectDependency(subjectCode: string, dependencies: seq<Dependency>)

  datatype DependencyRequest = DependencyRequest(subjectsToPredict: seq<SubjectDependency>)

  // ---------------------------------------------------------------------
  // Output models
  // ---------------------------------------------------------------------

  datatype KeySignal = KeySignal(signal: string, description: string)

  /** `riskLevel` is any string: nothing restricts it to Low, Medium or High. */
  datatype SubjectOutcome = SubjectOutcome(
    subjectCode: string,
    riskLevel: string,
    keySignals: seq<KeySignal>,
    riskDrivers: seq<string>,
    recommendedFocus: seq<string>)

  datatype AnalysisResponse = AnalysisResponse(
    analysisId: string,
    studentId: string,
    subjectsRequested: seq<string>,
    subjectOutcomes: seq<SubjectOutcome>)

  /** The three values the `model` field of an analysis request admits. */
  datatype ModelChoice = OpenAI | Gemini | DeepSeek

  /** An analysis request; its model is Gemini unless the caller chooses another. */
  datatype AnalyzeRequest = AnalyzeRequest(
    student: StudentHistory,
    dependencies: DependencyRequest,
    model: ModelChoice := Gemini)

  // ---------------------------------------------------------------------
  // The `model` selector
  // ---------------------------------------------------------------------

  /** The literal that stands for each model choice. */
  function ModelName(c: ModelChoice): string {
    match c
    case OpenAI => "openai"
    case Gemini => "gemini"
    case DeepSeek => "deepseek"
  }

  /**
   * Validation of the `model` field of a request: `field` is None when the
   * field is absent. The literal match is exact (case-sensitive), and JSON
   * null or any other value is rejected.
   */
  function ParseModel(field: Option<Json>): (r: Option<ModelChoice>)
    ensures field.None? ==> r == Some(Gemini)
    ensures r.Some? <==>
      field.None? || field == Some(JString("openai")) || field == Some(JString("gemini"))
      || field == Some(JString("deepseek"))
    ensures r.Some? && field.Some? ==> field.value == JString(ModelName(r.value))
  {
    match field
    case None => Some(Gemini)
    case Some(j) =>
      if j == JString("openai") then Some(OpenAI)
      else if j == JString("gemini") then Some(Gemini)
      else if j == JString("deepseek") then Some(DeepSeek)
      else None
  }

  /** Every choice survives the trip to its literal and back. */
  lemma ModelNameRoundTrip(c: ModelChoice)
    ensures ParseModel(Some(JString(ModelName(c)))) == Some(c)
  {
  }

  // ---------------------------------------------------------------------
  // Validation of a parsed reply into a SubjectOutcome
  // ---------------------------------------------------------------------

  const OutcomeFieldNames: set<string> :=
    {"subject_code", "risk_level", "key_signals", "risk_drivers", "recommended_focus"}

  function AsString(j: Json): (r: Option<string>)
    ensures r.Some? <==> j.JString?
    ensures r.Some? ==> j == JString(r.value)
  {
    if j.JString? then Some(j.s) else None
  }

  /**
   * Validates every element of a JSON list with `f`: the list is accepted
   * exactly when every element is, and then the i-th result is the i-th
   * element's validated value.
   */
  function ValidateEach<T>(items: seq<Json>, f: Json -> Option<T>): (r: Option<seq<T>>)
    ensures r.Some? <==> forall i :: 0 <= i < |items| ==> f(items[i]).Some?
    ensures r.Some? ==> |r.value| == |items|
    ensures r.Some? ==> forall i :: 0 <= i < |items| ==> f(items[i]) == Some(r.value[i])
    decreases |items|
  {
    if items == [] then Some([])
    else
      var x :- f(items[0]);
      var rest :- ValidateEach(items[1..], f);
      assert forall i :: 1 <= i < |items| ==> items[i] == items[1..][i - 1];
      Some([x] + rest)
  }

  /** A `List[str]` field: a JSON list whose every element is a string. */
  function AsStringList(j: Json): (r: Option<seq<string>>)
    ensures r.Some? ==> j == JArray(StringsToJson(r.value))
    ensures j.JArray? && (forall i :: 0 <= i < |j.items| ==> j.items[i].JString?) ==> r.Some?
    ensures !j.JArray? ==> r.None?
  {
    if j.JArray? then
      var ss :- ValidateEach(j.items, AsString);
      assert j.items == StringsToJson(ss);
      Some(ss)
    else None
  }

  /** A KeySignal is accepted only when both `signal` and `description` are strings; other keys are ignored. */
  function ValidateKeySignal(j: Json): (r: Option<KeySignal>)
    ensures r.Some? <==>
      j.JObject? && "signal" in j.fields && j.fields["signal"].JString?
      && "description" in j.fields && j.fields["description"].JString?
    ensures r.Some? ==>
      j.fields["signal"] == JString(r.value.signal)
      && j.fields["description"] == JString(r.value.description)
  {
    if j.JObject? && "signal" in j.fields && "description" in j.fields then
      var signal :- AsString(j.fields["signal"]);
      var description :- AsString(j.fields["description"]);
      Some(KeySignal(signal, description))
    else None
  }

  /**
   * `SubjectOutcome(**fields)`: accepted only when all five fields are
   * present with the right shapes; keys outside the five are ignored, and
   * `risk_level` may be any string.
   */
  function ValidateSubjectOutcome(fields: map<string, Json>): (r: Option<SubjectOutcome>)
    ensures r.Some? ==> OutcomeFieldNames <= fields.Keys
    ensures r.Some? ==>
      && fields["subject_code"] == JString(r.value.subjectCode)
      && fields["risk_level"] == JString(r.value.riskLevel)
      && fields["key_signals"].JArray?
      && |fields["key_signals"].items| == |r.value.keySignals|
      && (forall i :: 0 <= i < |r.value.keySignals| ==>
            ValidateKeySignal(fields["key_signals"].items[i]) == Some(r.value.keySignals[i]))
      && fields["risk_drivers"] == JArray(StringsToJson(r.value.riskDrivers))
      && fields["recommended_focus"] == JArray(StringsToJson(r.value.recommendedFocus))
    ensures
      (&& OutcomeFieldNames <= fields.Keys
       && fields["subject_code"].JString?
       && fields["risk_level"].JString?
       && fields["key_signals"].JArray?
       && (forall i :: 0 <= i < |fields["key_signals"].items| ==>
             ValidateKeySignal(fields["key_signals"].items[i]).Some?)
       && IsStringList(fields["risk_drivers"])
       && IsStringList(fields["recommended_focus"]))
      ==> r.Some?
  {
    if OutcomeFieldNames <= fields.Keys && fields["key_signals"].JArray? then
      var subjectCode :- AsString(fields["subject_code"]);
      var riskLevel :- AsString(fields["risk_level"]);
      var keySignals :- ValidateEach(fields["key_signals"].items, ValidateKeySignal);
      var riskDrivers :- AsStringList(fields["risk_drivers"]);
      var recommendedFocus :- AsStringList(fields["recommended_focus"]);
      Some(SubjectOutcome(subjectCode, riskLevel, keySignals, riskDrivers, recommendedFocus))
    else None
  }

  predicate IsStringList(j: Json) {
    j.JArray? && forall i :: 0 <= i < |j.items| ==> j.items[i].JString?
  }

  // ---------------------------------------------------------------------
  // The JSON form of an outcome, the partner of the validator
  // ---------------------------------------------------------------------

  function StringsToJson(ss: seq<string>): (r: seq<Json>)
    ensures |r| == |ss|
  {
    seq(|ss|, i requires 0 <= i < |ss| => JString(ss[i]))
  }

  function KeySignalToJson(k: KeySignal): Json {
    JObject(map["signal" := JString(k.signal), "description" := JString(k.description)])
  }

  function KeySignalsToJson(ks: seq<KeySignal>): (r: seq<Json>)
    ensures |r| == |ks|
  {
    seq(|ks|, i requires 0 <= i < |ks| => KeySignalToJson(ks[i]))
  }

  /** The reply a model is asked for, one key per field of the outcome. */
  function OutcomeToJson(o: SubjectOutcome): map<string, Json> {
    map[
      "subject_code" := JString(o.subjectCode),
      "risk_level" := JString(o.riskLevel),
      "key_signals" := JArray(KeySignalsToJson(o.keySignals)),
      "risk_drivers" := JArray(StringsToJson(o.riskDrivers)),
      "recommended_focus" := JArray(StringsToJson(o.recommendedFocus))
    ]
  }

  /** Validating the JSON form of a list of key signals gives the list back. */
  lemma {:induction false} KeySignalsRoundTrip(ks: seq<KeySignal>)
    ensures ValidateEach(KeySignalsToJson(ks), ValidateKeySignal) == Some(ks)
  {
    if ks != [] {
      KeySignalsRoundTrip(ks[1..]);
      assert KeySignalsToJson(ks)[1..] == KeySignalsToJson(ks[1..]);
      assert ks == [ks[0]] + ks[1..];
    }
  }

  /** Validating the JSON form of a list of strings gives the list back. */
  lemma {:induction false} StringsRoundTrip(ss: seq<string>)
    ensures ValidateEach(StringsToJson(ss), AsString) == Some(ss)
  {
    if ss != [] {
      StringsRoundTrip(ss[1..]);
      assert StringsToJson(ss)[1..] == StringsToJson(ss[1..]);
      assert ss == [ss[0]] + ss[1..];
    }
  }

  /** Validation inverts the JSON form: every outcome survives the round trip unchanged. */
  lemma OutcomeRoundTrip(o: SubjectOutcome)
    ensures ValidateSubjectOutcome(OutcomeToJson(o)) == Some(o)
  {
    KeySignalsRoundTrip(o.keySignals);
    StringsRoundTrip(o.riskDrivers);
    StringsRoundTrip(o.recommendedFocus);
    var m := OutcomeToJson(o);
    assert OutcomeFieldNames <= m.Keys;
  }

  /** The risk level is not checked: a reply with any risk-level string is accepted as it is. */
  lemma AnyRiskLevelAccepted(o: SubjectOutcome, level: string)
    ensures ValidateSubjectOutcome(OutcomeToJson(o)["risk_level" := JString(level)])
         == Some(o.(riskLevel := level))
  {
    OutcomeRoundTrip(o.(riskLevel := level));
    assert OutcomeToJson(o)["risk_level" := JString(level)] == OutcomeToJson(o.(riskLevel := level));
  }

  /** Keys outside the five outcome fields do not change the verdict. */
  lemma ExtraFieldsIgnored(fields: map<string, Json>, k: string, v: Json)
    requires k !in OutcomeFieldNames
    ensures ValidateSubjectOutcome(fields[k := v]) == ValidateSubjectOutcome(fields)
  {
  }

  /** Leaving out any one of the five fields gets a reply rejected. */
  lemma MissingFieldRejected(fields: map<string, Json>, k: string)
    requires k in OutcomeFieldNames
    ensures ValidateSubjectOutcome(fields - {k}) == None
  {
  }

  /**
   * A reply whose i-th key signal lacks a `description` string is rejected,
   * however well-formed the rest of it is.
   */
  lemma KeySignalWithoutDescriptionRejected(o: SubjectOutcome, i: nat, signal: Json)
    requires i < |o.keySignals|
    ensures ValidateSubjectOutcome(
              OutcomeToJson(o)["key_signals" :=
                JArray(KeySignalsToJson(o.keySignals)[i := JObject(map["signal" := signal])])])
         == None
  {
    var items := KeySignalsToJson(o.keySignals)[i := JObject(map["signal" := signal])];
    assert ValidateKeySignal(items[i]).None?;
  }
}
