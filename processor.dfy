/**
 * The per-student analysis pipeline (app/services/processor.py): for each
 * target subject in request order, collect its prerequisite codes, keep the
 * history records of those subjects, ask the analyzer, validate its reply
 * into a SubjectOutcome and append it; the first failure aborts the batch.
 *
 * The analyzer (`analyze_with_ai`) is not part of this model: it is a
 * parameter that returns a parsed reply or an error. The analysis id, a
 * fresh `uuid4` in the service, is a parameter too.
 */
module Processor {
  import opened Wrappers
  import opened Errors
  import opened Schemas

  /**
   * The analyzer: the position of the call within the batch, a subject code
   * and its filtered history give a parsed reply or an error. The position
   * makes every call a separate question, so two calls with the same code and
   * history may be answered differently, as a language model may answer the
   * same prompt differently.
   */
  type Analyzer = (nat, string, seq<SubjectHistory>) -> Result<Json, Error>

  /** One invocation of the analyzer, with the arguments it was given. */
  datatype AnalyzerCall = AnalyzerCall(subjectCode: string, history: seq<SubjectHistory>)

  // ---------------------------------------------------------------------
  // Dependency codes and the history filter
  // ---------------------------------------------------------------------

  /** The set of a subject's prerequisite codes. */
  function DependencyCodes(subject: SubjectDependency): (r: set<string>)
    ensures forall i :: 0 <= i < |subject.dependencies| ==> subject.dependencies[i].subjectCode in r
    ensures forall c :: c in r ==>
      exists i :: 0 <= i < |subject.dependencies| && subject.dependencies[i].subjectCode == c
    ensures subject.dependencies == [] ==> r == {}
  {
    set d | d in subject.dependencies :: d.subjectCode
  }

  /** The records of `history` whose subject code is in `codes`, in their original order. */
  function FilterHistory(history: seq<SubjectHistory>, codes: set<string>): (r: seq<SubjectHistory>)
    ensures |r| <= |history|
    ensures forall i :: 0 <= i < |r| ==> r[i].subjectCode in codes
  {
    if history == [] then []
    else
      (if history[0].subjectCode in codes then [history[0]] else [])
      + FilterHistory(history[1..], codes)
  }

  /** The positions of `history` whose code is in `codes`, in increasing order. */
  function Positions(history: seq<SubjectHistory>, codes: set<string>): (r: seq<nat>)
    ensures forall i :: 0 <= i < |r| ==> r[i] < |history|
  {
    if history == [] then []
    else (if history[0].subjectCode in codes then [0] else []) + Shift(Positions(history[1..], codes))
  }

  function Shift(ps: seq<nat>): (r: seq<nat>)
    ensures |r| == |ps|
    ensures forall i :: 0 <= i < |ps| ==> r[i] == ps[i] + 1
  {
    seq(|ps|, i requires 0 <= i < |ps| => ps[i] + 1)
  }

  lemma {:induction false} PositionsLength(history: seq<SubjectHistory>, codes: set<string>)
    ensures |Positions(history, codes)| == |FilterHistory(history, codes)|
  {
    if history != [] {
      PositionsLength(history[1..], codes);
    }
  }

  predicate Increasing(s: seq<nat>) {
    forall i, j :: 0 <= i < j < |s| ==> s[i] < s[j]
  }

  lemma ShiftIncreasing(s: seq<nat>)
    requires Increasing(s)
    ensures Increasing(Shift(s))
  {
  }

  lemma ZeroThenIncreasing(s: seq<nat>)
    requires Increasing(s)
    requires forall i :: 0 <= i < |s| ==> 0 < s[i]
    ensures Increasing([0] + s)
  {
    var t := [0] + s;
    forall i, j | 0 <= i < j < |t| ensures t[i] < t[j] {
      assert t[j] == s[j - 1];
      if i > 0 {
        assert t[i] == s[i - 1];
      }
    }
  }

  lemma {:induction false} PositionsIncreasing(history: seq<SubjectHistory>, codes: set<string>)
    ensures Increasing(Positions(history, codes))
  {
    if history != [] {
      PositionsIncreasing(history[1..], codes);
      var shifted := Shift(Positions(history[1..], codes));
      ShiftIncreasing(Positions(history[1..], codes));
      if history[0].subjectCode in codes {
        ZeroThenIncreasing(shifted);
      }
    }
  }

  lemma {:induction false} PositionsSelect(history: seq<SubjectHistory>, codes: set<string>)
    requires |Positions(history, codes)| == |FilterHistory(history, codes)|
    ensures forall i :: 0 <= i < |Positions(history, codes)| ==>
      FilterHistory(history, codes)[i] == history[Positions(history, codes)[i]]
  {
    if history != [] {
      PositionsLength(history[1..], codes);
      PositionsSelect(history[1..], codes);
      ShiftSelect(history, codes);
      if history[0].subjectCode in codes {
        ZeroThenSelect(history, codes);
      }
    }
  }

  /** The tail's positions, moved past the head, select the tail's kept records from `history`. */
  lemma ShiftSelect(history: seq<SubjectHistory>, codes: set<string>)
    requires history != []
    requires |Positions(history[1..], codes)| == |FilterHistory(history[1..], codes)|
    requires forall i :: 0 <= i < |Positions(history[1..], codes)| ==>
      FilterHistory(history[1..], codes)[i] == history[1..][Positions(history[1..], codes)[i]]
    ensures forall i :: 0 <= i < |Positions(history[1..], codes)| ==>
      FilterHistory(history[1..], codes)[i] == history[Shift(Positions(history[1..], codes))[i]]
  {
  }

  /** When the head is kept, position 0 selects it and the shifted tail positions select the rest. */
  lemma ZeroThenSelect(history: seq<SubjectHistory>, codes: set<string>)
    requires history != [] && history[0].subjectCode in codes
    requires |Positions(history[1..], codes)| == |FilterHistory(history[1..], codes)|
    requires forall i :: 0 <= i < |Positions(history[1..], codes)| ==>
      FilterHistory(history[1..], codes)[i] == history[Shift(Positions(history[1..], codes))[i]]
    ensures forall i :: 0 <= i < |Positions(history, codes)| ==>
      FilterHistory(history, codes)[i] == history[Positions(history, codes)[i]]
  {
    var shifted := Shift(Positions(history[1..], codes));
    var tail := FilterHistory(history[1..], codes);
    var ps := Positions(history, codes);
    var f := FilterHistory(history, codes);
    assert ps == [0] + shifted;
    assert f == [history[0]] + tail;
    forall i | 0 < i < |ps| ensures f[i] == history[ps[i]] {
      assert ps[i] == shifted[i - 1];
      assert f[i] == tail[i - 1];
    }
  }

  lemma {:induction false} PositionsExact(history: seq<SubjectHistory>, codes: set<string>)
    ensures forall k :: 0 <= k < |history| ==>
      (k in Positions(history, codes) <==> history[k].subjectCode in codes)
  {
    if history != [] {
      var tail := history[1..];
      PositionsExact(tail, codes);
      var rest := Positions(tail, codes);
      var shifted := Shift(rest);
      var ps := Positions(history, codes);
      assert 0 !in shifted;
      forall k | 1 <= k < |history| ensures k in shifted <==> history[k].subjectCode in codes {
        assert tail[k - 1] == history[k];
        if k - 1 in rest {
          var i :| 0 <= i < |rest| && rest[i] == k - 1;
          assert shifted[i] == k;
        }
      }
      if history[0].subjectCode in codes {
        assert ps == [0] + shifted;
      } else {
        assert ps == shifted;
      }
    }
  }

  /**
   * The filtered history is the subsequence of `history` at exactly the
   * positions whose code is in `codes`: `idx` lists those positions in
   * increasing order and the i-th kept record is the record at `idx[i]`.
   */
  lemma FilterHistoryPositions(history: seq<SubjectHistory>, codes: set<string>)
    returns (idx: seq<nat>)
    ensures |idx| == |FilterHistory(history, codes)|
    ensures forall i, j :: 0 <= i < j < |idx| ==> idx[i] < idx[j]
    ensures forall i :: 0 <= i < |idx| ==>
      idx[i] < |history| && FilterHistory(history, codes)[i] == history[idx[i]]
    ensures forall k :: 0 <= k < |history| ==> (k in idx <==> history[k].subjectCode in codes)
  {
    idx := Positions(history, codes);
    PositionsLength(history, codes);
    PositionsIncreasing(history, codes);
    PositionsSelect(history, codes);
    PositionsExact(history, codes);
  }

  /**
   * Completeness with duplicates: a record whose code is a dependency code
   * is kept as many times as it occurs in the history; any other record is
   * not kept at all.
   */
  lemma {:induction false} FilterHistoryCounts(history: seq<SubjectHistory>, codes: set<string>, rec: SubjectHistory)
    ensures multiset(FilterHistory(history, codes))[rec]
         == if rec.subjectCode in codes then multiset(history)[rec] else 0
  {
    if history != [] {
      FilterHistoryCounts(history[1..], codes, rec);
      assert history == [history[0]] + history[1..];
    }
  }

  /** With no dependency codes nothing is kept. */
  lemma {:induction false} FilterHistoryEmptyCodes(history: seq<SubjectHistory>)
    ensures FilterHistory(history, {}) == []
  {
    if history != [] {
      FilterHistoryEmptyCodes(history[1..]);
    }
  }

  /** A subject with no dependencies is analyzed with an empty history. */
  lemma NoDependenciesMeansEmptyHistory(subject: SubjectDependency, history: seq<SubjectHistory>)
    requires subject.dependencies == []
    ensures FilterHistory(history, DependencyCodes(subject)) == []
  {
    FilterHistoryEmptyCodes(history);
  }

  // ---------------------------------------------------------------------
  // One subject
  // ---------------------------------------------------------------------

  /** The analyzer call made for a subject: its code and its filtered history. */
  function CallFor(student: StudentHistory, subject: SubjectDependency): (r: AnalyzerCall)
    ensures r.subjectCode == subject.subjectCode
    ensures |r.history| <= |student.academicHistory|
    ensures forall i :: 0 <= i < |r.history| ==> r.history[i].subjectCode in DependencyCodes(subject)
  {
    AnalyzerCall(subject.subjectCode, FilterHistory(student.academicHistory, DependencyCodes(subject)))
  }

  /**
   * `SubjectOutcome(**raw)`: a reply that is not a JSON object raises
   * TypeError; an object is validated field by field.
   */
  function BuildOutcome(raw: Json): (r: Result<SubjectOutcome, Error>)
    ensures !raw.JObject? ==> r.Failure? && r.error.TypeError?
    ensures raw.JObject? ==>
      (r.Success? <==> ValidateSubjectOutcome(raw.fields).Some?)
      && (r.Success? ==> Some(r.value) == ValidateSubjectOutcome(raw.fields))
      && (r.Failure? ==> r.error == ValidationError("SubjectOutcome"))
  {
    match raw
    case JObject(fields) =>
      (match ValidateSubjectOutcome(fields)
       case Some(o) => Success(o)
       case None => Failure(ValidationError("SubjectOutcome")))
    case _ => Failure(TypeError("argument after ** must be a mapping"))
  }

  /** The outcome of the analyzer call `call` made at position `i`: the analyzer's reply, validated. */
  function ReplyOutcome(call: AnalyzerCall, i: nat, analyzer: Analyzer): (r: Result<SubjectOutcome, Error>)
    ensures var reply := analyzer(i, call.subjectCode, call.history);
      && (reply.Failure? ==> r == Failure(reply.error))
      && (r.Success? <==>
            reply.Success? && reply.value.JObject? && ValidateSubjectOutcome(reply.value.fields).Some?)
      && (r.Success? ==> Some(r.value) == ValidateSubjectOutcome(reply.value.fields))
  {
    var raw :- analyzer(i, call.subjectCode, call.history);
    BuildOutcome(raw)
  }

  /** What the loop body gives for the subject at position `i`. */
  function SubjectResult(student: StudentHistory, subject: SubjectDependency, i: nat, analyzer: Analyzer)
    : (r: Result<SubjectOutcome, Error>)
    ensures var reply := analyzer(i, CallFor(student, subject).subjectCode, CallFor(student, subject).history);
      && (reply.Failure? ==> r == Failure(reply.error))
      && (r.Success? <==>
            reply.Success? && reply.value.JObject? && ValidateSubjectOutcome(reply.value.fields).Some?)
      && (r.Success? ==> Some(r.value) == ValidateSubjectOutcome(reply.value.fields))
  {
    ReplyOutcome(CallFor(student, subject), i, analyzer)
  }

  /** A reply in the requested JSON shape is taken as the subject's outcome unchanged. */
  lemma WellFormedReplyIsOutcome(student: StudentHistory, subject: SubjectDependency,
                                 i: nat, analyzer: Analyzer, o: SubjectOutcome)
    requires analyzer(i, CallFor(student, subject).subjectCode, CallFor(student, subject).history)
          == Success(JObject(OutcomeToJson(o)))
    ensures SubjectResult(student, subject, i, analyzer) == Success(o)
  {
    OutcomeRoundTrip(o);
  }

  /**
   * The same subject asked twice in one batch is asked twice: the first call
   * may be answered with an outcome and the second with an error.
   */
  lemma RepeatedSubjectAnsweredSeparately(student: StudentHistory, subject: SubjectDependency,
                                          o: SubjectOutcome, e: Error)
    ensures exists analyzer: Analyzer ::
      SubjectResult(student, subject, 0, analyzer) == Success(o)
      && SubjectResult(student, subject, 1, analyzer) == Failure(e)
  {
    var analyzer: Analyzer := (i: nat, code: string, history: seq<SubjectHistory>) =>
      if i == 0 then Success(JObject(OutcomeToJson(o))) else Failure(e);
    WellFormedReplyIsOutcome(student, subject, 0, analyzer, o);
    assert SubjectResult(student, subject, 1, analyzer) == Failure(e);
  }

  /** The subject codes of the requested subjects, in request order. */
  function SubjectCodes(subjects: seq<SubjectDependency>): (r: seq<string>)
    ensures |r| == |subjects|
    ensures forall i :: 0 <= i < |subjects| ==> r[i] == subjects[i].subjectCode
  {
    seq(|subjects|, i requires 0 <= i < |subjects| => subjects[i].subjectCode)
  }

  // ---------------------------------------------------------------------
  // The batch
  // ---------------------------------------------------------------------

  /**
   * One pass of the loop body for the subject at position `k`: collect the
   * dependency codes, filter the history, call the analyzer, and build the
   * outcome from its reply. `call` records the analyzer's arguments.
   */
  method AnalyzeSubject(student: StudentHistory, subject: SubjectDependency, k: nat, analyzer: Analyzer)
    returns (outcome: Result<SubjectOutcome, Error>, call: AnalyzerCall)
    ensures call == CallFor(student, subject)
    ensures outcome == ReplyOutcome(call, k, analyzer)
  {
    var dependencyCodes := DependencyCodes(subject);
    var filteredHistory := FilterHistory(student.academicHistory, dependencyCodes);
    call := AnalyzerCall(subject.subjectCode, filteredHistory);
    var raw := analyzer(k, subject.subjectCode, filteredHistory);
    if raw.Failure? {
      return Failure(raw.error), call;
    }
    outcome := BuildOutcome(raw.value);
  }

  /**
   * `process_student_risk(student, dependencies)`. `calls` lists the
   * analyzer invocations in the order they happen. Subjects are analyzed in
   * request order, each with its own code and filtered history; the batch
   * stops at the first subject whose analysis or validation fails, with that
   * subject's error and no response, and later subjects are never analyzed.
   * Otherwise the response echoes the student id and the requested codes and
   * holds one outcome per subject, in request order.
   */
  method ProcessStudentRisk(student: StudentHistory, dependencies: DependencyRequest,
                            analyzer: Analyzer, analysisId: string)
    returns (result: Result<AnalysisResponse, Error>, calls: seq<AnalyzerCall>)
    ensures |calls| <= |dependencies.subjectsToPredict|
    ensures forall i {:trigger calls[i]} :: 0 <= i < |calls| ==> calls[i] == CallFor(student, dependencies.subjectsToPredict[i])
    ensures forall i {:trigger calls[i]} :: 0 <= i < |calls| - 1 ==>
      ReplyOutcome(calls[i], i, analyzer).Success?
    ensures result.Success? <==>
      && |calls| == |dependencies.subjectsToPredict|
      && forall i {:trigger calls[i]} :: 0 <= i < |calls| ==> ReplyOutcome(calls[i], i, analyzer).Success?
    ensures result.Failure? ==>
      && |calls| > 0
      && ReplyOutcome(calls[|calls| - 1], |calls| - 1, analyzer)
         == Failure(result.error)
    ensures result.Success? ==>
      && result.value.analysisId == analysisId
      && result.value.studentId == student.studentId
      && result.value.subjectsRequested == SubjectCodes(dependencies.subjectsToPredict)
      && |result.value.subjectOutcomes| == |dependencies.subjectsToPredict|
      && forall i {:trigger calls[i]} :: 0 <= i < |dependencies.subjectsToPredict| ==>
           ReplyOutcome(calls[i], i, analyzer)
           == Success(result.value.subjectOutcomes[i])
  {
    var subjects := dependencies.subjectsToPredict;
    var subjectOutcomes: seq<SubjectOutcome> := [];
    calls := [];
    var k := 0;
    while k < |subjects|
      invariant 0 <= k <= |subjects|
      invariant |calls| == k && |subjectOutcomes| == k
      invariant forall i {:trigger calls[i]} :: 0 <= i < k ==> calls[i] == CallFor(student, subjects[i])
      invariant forall i {:trigger calls[i]} :: 0 <= i < k ==>
        ReplyOutcome(calls[i], i, analyzer) == Success(subjectOutcomes[i])
    {
      var outcome, call := AnalyzeSubject(student, subjects[k], k, analyzer);
      calls := calls + [call];
      if outcome.Failure? {
        assert ReplyOutcome(calls[k], k, analyzer).Failure?;
        return Failure(outcome.error), calls;
      }
      subjectOutcomes := subjectOutcomes + [outcome.value];
      k := k + 1;
    }
    result := Success(AnalysisResponse(analysisId, student.studentId, SubjectCodes(subjects), subjectOutcomes));
  }
}
