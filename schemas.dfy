/**
 * The response records of the API and the constraints their validation
 * enforces: confidences in [0,1], progress in [0,100], a closed set of stage
 * names, string-typed fields, and empty lists by default.
 */
module Schemas {
  import opened Wrappers
  import opened Json

  /** A float declared with `Field(ge=0.0, le=1.0)`. */
  type Confidence = r: real | 0.0 <= r <= 1.0

  /** An int declared with `Field(ge=0, le=100)`. */
  type Progress = p: int | 0 <= p <= 100

  /** The seven values the `stage` literal admits. */
  datatype Stage = Queued | Triage | Retrieve | RootCauseStage | Synthesize | Done | Error

  /** The literal text of a stage. */
  function StageName(st: Stage): (r: string)
    ensures ParseStage(r) == Some(st)
  {
    match st
    case Queued => "queued"
    case Triage => "triage"
    case Retrieve => "retrieve"
    case RootCauseStage => "root_cause"
    case Synthesize => "synthesize"
    case Done => "done"
    case Error => "error"
  }

  /** Validation of the `stage` literal: only the seven names are accepted. */
  function ParseStage(s: string): (r: Option<Stage>)
  {
    if s == "queued" then Some(Queued)
    else if s == "triage" then Some(Triage)
    else if s == "retrieve" then Some(Retrieve)
    else if s == "root_cause" then Some(RootCauseStage)
    else if s == "synthesize" then Some(Synthesize)
    else if s == "done" then Some(Done)
    else if s == "error" then Some(Error)
    else None
  }

  /**
   * A string passes stage validation exactly when it is the literal of some
   * stage, and then it names that stage.
   */
  lemma StageLiteral(s: string)
    ensures ParseStage(s).Some? ==> StageName(ParseStage(s).value) == s
    ensures ParseStage(s).None? <==> forall st: Stage :: StageName(st) != s
  {
  }

  /** Validation of a `Field(ge=0.0, le=1.0)` float. */
  function CheckConfidence(x: real): (r: Result<Confidence, string>)
    ensures r.Success? <==> 0.0 <= x <= 1.0
    ensures r.Success? ==> r.value == x
  {
    if 0.0 <= x <= 1.0 then Success(x) else Failure("confidence must lie in [0, 1]")
  }

  /** Validation of a `Field(ge=0, le=100)` int. */
  function CheckProgress(p: int): (r: Result<Progress, string>)
    ensures r.Success? <==> 0 <= p <= 100
    ensures r.Success? ==> r.value == p
  {
    if 0 <= p <= 100 then Success(p) else Failure("progress must lie in [0, 100]")
  }

  datatype TimelineEvent = TimelineEvent(time: string, message: string, source: string)

  datatype RootCause = RootCause(cause: string, confidence: Confidence)

  datatype Reference = Reference(source: string, snippet: string)

  datatype IncidentSummary = IncidentSummary(
    summary: string,
    confidence: Confidence,
    timeline: seq<TimelineEvent>,
    immediateEvidence: seq<string>,
    rootCauses: seq<RootCause>,
    nextSteps: seq<string>,
    relatedCases: seq<string>,
    references: seq<Reference>)

  datatype AnalysisJobStatus = AnalysisJobStatus(
    jobId: string,
    stage: Stage,
    progress: Progress,
    message: string,
    createdAt: int,
    updatedAt: int)

  datatype Answer = Answer(answer: string, confidence: Confidence, citations: seq<Reference>)

  /** Every value is a JSON string, as a `List[str]` field demands. */
  predicate AllStrings(vs: seq<Value>) {
    forall i :: 0 <= i < |vs| ==> vs[i].Str?
  }

  function Strings(vs: seq<Value>): (r: seq<string>)
    requires AllStrings(vs)
    ensures |r| == |vs|
    ensures forall i :: 0 <= i < |vs| ==> Str(r[i]) == vs[i]
  {
    seq(|vs|, i requires 0 <= i < |vs| => vs[i].s)
  }

  /** An incident summary built from only its required fields: every list is empty. */
  function DefaultIncidentSummary(summary: string, confidence: real): (r: Result<IncidentSummary, string>)
    ensures r.Success? <==> 0.0 <= confidence <= 1.0
    ensures r.Success? ==> r.value.summary == summary && r.value.confidence == confidence
    ensures r.Success? ==> r.value.timeline == [] && r.value.immediateEvidence == [] &&
                           r.value.rootCauses == [] && r.value.nextSteps == [] &&
                           r.value.relatedCases == [] && r.value.references == []
  {
    match CheckConfidence(confidence)
    case Success(c) => Success(IncidentSummary(summary, c, [], [], [], [], [], []))
    case Failure(e) => Failure(e)
  }

  /**
   * Construction of an `IncidentSummary` from loosely typed parts: it fails
   * exactly when the summary is not a string, the confidence lies outside
   * [0, 1], or an evidence line or next step is not a string.
   */
  function MakeIncidentSummary(
    summary: Value, confidence: real, timeline: seq<TimelineEvent>, evidence: seq<Value>,
    rootCauses: seq<RootCause>, nextSteps: seq<Value>, related: seq<string>, references: seq<Reference>
  ): (r: Result<IncidentSummary, string>)
    ensures r.Success? <==>
              summary.Str? && 0.0 <= confidence <= 1.0 && AllStrings(evidence) && AllStrings(nextSteps)
    ensures r.Success? ==>
              && Str(r.value.summary) == summary
              && r.value.confidence == confidence
              && r.value.timeline == timeline
              && |r.value.immediateEvidence| == |evidence|
              && (forall i :: 0 <= i < |evidence| ==> Str(r.value.immediateEvidence[i]) == evidence[i])
              && r.value.rootCauses == rootCauses
              && |r.value.nextSteps| == |nextSteps|
              && (forall i :: 0 <= i < |nextSteps| ==> Str(r.value.nextSteps[i]) == nextSteps[i])
              && r.value.relatedCases == related
              && r.value.references == references
  {
    if !summary.Str? then Failure("summary: input should be a valid string")
    else if !AllStrings(evidence) then Failure("immediate_evidence: input should be a valid string")
    else if !AllStrings(nextSteps) then Failure("next_steps: input should be a valid string")
    else
      match CheckConfidence(confidence)
      case Failure(e) => Failure(e)
      case Success(c) =>
        Success(IncidentSummary(summary.s, c, timeline, Strings(evidence), rootCauses,
                                Strings(nextSteps), related, references))
  }

  /** Construction of an `Answer`: the text must be a string and the confidence in [0, 1]. */
  function MakeAnswer(answer: Value, confidence: real, citations: seq<Reference>): (r: Result<Answer, string>)
    ensures r.Success? <==> answer.Str? && 0.0 <= confidence <= 1.0
    ensures r.Success? ==> Str(r.value.answer) == answer && r.value.confidence == confidence &&
                           r.value.citations == citations
  {
    if !answer.Str? then Failure("answer: input should be a valid string")
    else
      match CheckConfidence(confidence)
      case Failure(e) => Failure(e)
      case Success(c) => Success(Answer(answer.s, c, citations))
  }
}
