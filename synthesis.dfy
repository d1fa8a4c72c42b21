/**
 * Coercion of untrusted LLM output into bounded records, and the three
 * branches (disabled, failed, succeeded) of incident synthesis and question
 * answering (backend/app/synthesis.py).
 *
 * The chat completion together with `json.loads` of its content is the
 * collaborator `chat`: it gives the decoded value, or None where the call or
 * the decoding raises. The API key is a plain string, empty when unset.
 */
module Synthesis {
  import opened Wrappers
  import opened Seqs
  import opened Text
  import opened Json
  import opened Schemas

  // ---------------------------------------------------------------------------
  // Helpers shared by the coercers

  /** `_safe_list(x, [])`: a list passes unchanged, anything else becomes []. */
  function SafeList(v: Value): (r: seq<Value>)
    ensures v.Arr? ==> r == v.items
    ensures !v.Arr? ==> r == []
  {
    if v.Arr? then v.items else []
  }

  /** `str(v or default)`: the value's text when it is truthy, the default otherwise. */
  function StrOr(v: Value, default: string): (r: string)
    ensures Truthy(v) ==> r == Show(v)
    ensures !Truthy(v) ==> r == default
  {
    Show(FirstTruthy([v], Str(default)))
  }

  /** The `for it in items: ... out.append(...)` loop. */
  method KeepSome<T, U>(xs: seq<T>, f: T -> Option<U>) returns (out: seq<U>)
    ensures out == FilterMap(xs, f)
  {
    out := [];
    var i := 0;
    while i < |xs|
      invariant 0 <= i <= |xs|
      invariant out == FilterMap(xs[..i], f)
    {
      assert xs[..i + 1][..i] == xs[..i];
      match f(xs[i]) {
        case Some(y) => out := out + [y];
        case None =>
      }
      i := i + 1;
    }
    assert xs[..|xs|] == xs;
  }

  // ---------------------------------------------------------------------------
  // _clip_lines

  /** One input of `_clip_lines`: its stripped text, or nothing when it is blank. */
  function StrippedLine(s: string): (r: Option<string>)
    ensures r.Some? <==> !IsBlank(s)
    ensures r.Some? ==> r.value == Strip(s) && r.value != []
  {
    var t := Strip(s);
    if t == [] then None else Some(t)
  }

  /** The number of lines `_clip_lines` keeps at most: the break comes after an append, so at least one. */
  function ClipBound(n: int): (b: nat)
    ensures b >= 1 && (n >= 1 ==> b == n)
  {
    if n >= 1 then n else 1
  }

  /** What `_clip_lines(lines, n)` returns. */
  function Clip(lines: seq<string>, n: int): seq<string> {
    Take(FilterMap(lines, StrippedLine), ClipBound(n))
  }

  /**
   * `_clip_lines` keeps the stripped non-blank lines in order, as many as
   * there are up to the bound: its length is the smaller of the two.
   */
  lemma ClipShape(lines: seq<string>, n: int)
    ensures var r := Clip(lines, n);
            var kept := FilterMap(lines, StrippedLine);
            && |r| == (if |kept| < ClipBound(n) then |kept| else ClipBound(n))
            && r == kept[..|r|]
            && forall k :: 0 <= k < |r| ==>
                 r[k] != [] && exists i :: 0 <= i < |lines| && !IsBlank(lines[i]) && r[k] == Strip(lines[i])
  {
    var r := Clip(lines, n);
    forall k | 0 <= k < |r|
      ensures r[k] != [] && exists i :: 0 <= i < |lines| && !IsBlank(lines[i]) && r[k] == Strip(lines[i])
    {
      FilterMapMember(lines, StrippedLine, k);
    }
  }

  /** `_clip_lines`, with its early `break`. */
  method ClipLines(lines: seq<string>, n: int) returns (out: seq<string>)
    ensures out == Clip(lines, n)
  {
    out := [];
    var i := 0;
    while i < |lines|
      invariant 0 <= i <= |lines|
      invariant out == FilterMap(lines[..i], StrippedLine)
      invariant |out| < ClipBound(n)
    {
      assert lines[..i + 1][..i] == lines[..i];
      var s := Strip(lines[i]);
      if s != [] {
        out := out + [s];
        if |out| >= n {
          assert lines == lines[..i + 1] + lines[i + 1..];
          FilterMapAppend(lines[..i + 1], lines[i + 1..], StrippedLine);
          return;
        }
      }
      i := i + 1;
    }
    assert lines[..|lines|] == lines;
  }

  // ---------------------------------------------------------------------------
  // The coercers

  /** One item of `_coerce_timeline`: a dict with a non-empty message, time and source defaulted. */
  function TimelineEntry(it: Value): (r: Option<TimelineEvent>)
    ensures r.Some? <==> it.Obj? && StrOr(Get(it.fields, "message"), "") != []
    ensures r.Some? ==> && r.value.message == StrOr(Get(it.fields, "message"), "")
                        && r.value.time == StrOr(Get(it.fields, "time"), "-")
                        && r.value.source == StrOr(Get(it.fields, "source"), "analysis")
  {
    if !it.Obj? then None
    else
      var o := it.fields;
      var msg := StrOr(Get(o, "message"), "");
      if msg == [] then None
      else Some(TimelineEvent(StrOr(Get(o, "time"), "-"), msg, StrOr(Get(o, "source"), "analysis")))
  }

  /** What `_coerce_timeline` returns: the first 12 valid entries. */
  function TimelineOf(items: seq<Value>): seq<TimelineEvent> {
    Take(FilterMap(items, TimelineEntry), 12)
  }

  method CoerceTimeline(items: seq<Value>) returns (out: seq<TimelineEvent>)
    ensures out == TimelineOf(items)
  {
    var all := KeepSome(items, TimelineEntry);
    out := Take(all, 12);
  }

  /**
   * At most 12 entries, each with a non-empty message and each built from a
   * dict among the items; all valid entries are kept when there are at most 12.
   */
  lemma TimelineShape(items: seq<Value>)
    ensures var r := TimelineOf(items);
            && |r| <= 12
            && (|FilterMap(items, TimelineEntry)| <= 12 ==> r == FilterMap(items, TimelineEntry))
            && forall k :: 0 <= k < |r| ==>
                 r[k].message != [] && exists i :: 0 <= i < |items| && items[i].Obj? && TimelineEntry(items[i]) == Some(r[k])
  {
    var r := TimelineOf(items);
    forall k | 0 <= k < |r|
      ensures r[k].message != [] &&
              exists i :: 0 <= i < |items| && items[i].Obj? && TimelineEntry(items[i]) == Some(r[k])
    {
      FilterMapMember(items, TimelineEntry, k);
    }
  }

  /** `min(1.0, max(0.0, x))`, the clamp `_coerce_root_causes` applies. */
  function Clamp(x: real): (r: Confidence)
    ensures 0.0 <= x <= 1.0 ==> r == x
    ensures x < 0.0 ==> r == 0.0
    ensures x > 1.0 ==> r == 1.0
  {
    if x < 0.0 then 0.0 else if x > 1.0 then 1.0 else x
  }

  /** `float(it.get("confidence", 0.7))`, with 0.7 where the conversion raises. */
  function CauseConfidence(o: map<string, Value>): real {
    match ToFloat(GetOr(o, "confidence", Num(0.7, "0.7")))
    case Some(x) => x
    case None => 0.7
  }

  /** One item of `_coerce_root_causes`: a dict with a non-empty cause and a clamped confidence. */
  function RootCauseEntry(it: Value): (r: Option<RootCause>)
    ensures r.Some? <==> it.Obj? && StrOr(Get(it.fields, "cause"), "") != []
    ensures r.Some? ==> && r.value.cause == StrOr(Get(it.fields, "cause"), "")
                        && r.value.confidence == Clamp(CauseConfidence(it.fields))
  {
    if !it.Obj? then None
    else
      var cause := StrOr(Get(it.fields, "cause"), "");
      if cause == [] then None else Some(RootCause(cause, Clamp(CauseConfidence(it.fields))))
  }

  /** A missing or unconvertible confidence becomes 0.7; any number is clamped into [0, 1]. */
  lemma CauseConfidenceDefaults(o: map<string, Value>)
    ensures "confidence" !in o ==> CauseConfidence(o) == 0.7
    ensures "confidence" in o && ToFloat(o["confidence"]).None? ==> CauseConfidence(o) == 0.7
    ensures "confidence" in o && o["confidence"].Num? ==> CauseConfidence(o) == o["confidence"].x
    ensures "confidence" in o && o["confidence"].Null? ==> CauseConfidence(o) == 0.7
  {
  }

  /** What `_coerce_root_causes` returns: the first 6 valid entries. */
  function RootCausesOf(items: seq<Value>): seq<RootCause> {
    Take(FilterMap(items, RootCauseEntry), 6)
  }

  method CoerceRootCauses(items: seq<Value>) returns (out: seq<RootCause>)
    ensures out == RootCausesOf(items)
  {
    var all := KeepSome(items, RootCauseEntry);
    out := Take(all, 6);
  }

  /** At most 6 entries, each with a non-empty cause and a confidence in [0, 1], each from a dict item. */
  lemma RootCausesShape(items: seq<Value>)
    ensures var r := RootCausesOf(items);
            && |r| <= 6
            && (|FilterMap(items, RootCauseEntry)| <= 6 ==> r == FilterMap(items, RootCauseEntry))
            && forall k :: 0 <= k < |r| ==>
                 r[k].cause != [] && 0.0 <= r[k].confidence <= 1.0 &&
                 exists i :: 0 <= i < |items| && items[i].Obj? && RootCauseEntry(items[i]) == Some(r[k])
  {
    var r := RootCausesOf(items);
    forall k | 0 <= k < |r|
      ensures r[k].cause != [] &&
              exists i :: 0 <= i < |items| && items[i].Obj? && RootCauseEntry(items[i]) == Some(r[k])
    {
      FilterMapMember(items, RootCauseEntry, k);
    }
  }

  /** One item of `_coerce_refs`: a dict with a non-empty snippet, the source defaulted. */
  function RefEntry(it: Value): (r: Option<Reference>)
    ensures r.Some? <==> it.Obj? && StrOr(Get(it.fields, "snippet"), "") != []
    ensures r.Some? ==> && r.value.snippet == StrOr(Get(it.fields, "snippet"), "")
                        && r.value.source == StrOr(Get(it.fields, "source"), "retrieved_case")
  {
    if !it.Obj? then None
    else
      var snip := StrOr(Get(it.fields, "snippet"), "");
      if snip == [] then None else Some(Reference(StrOr(Get(it.fields, "source"), "retrieved_case"), snip))
  }

  /** What `_coerce_refs` returns: the first 10 valid entries. */
  function RefsOf(items: seq<Value>): seq<Reference> {
    Take(FilterMap(items, RefEntry), 10)
  }

  method CoerceRefs(items: seq<Value>) returns (out: seq<Reference>)
    ensures out == RefsOf(items)
  {
    var all := KeepSome(items, RefEntry);
    out := Take(all, 10);
  }

  /** At most 10 entries, each with a non-empty snippet, each from a dict item. */
  lemma RefsShape(items: seq<Value>)
    ensures var r := RefsOf(items);
            && |r| <= 10
            && (|FilterMap(items, RefEntry)| <= 10 ==> r == FilterMap(items, RefEntry))
            && forall k :: 0 <= k < |r| ==>
                 r[k].snippet != [] && exists i :: 0 <= i < |items| && items[i].Obj? && RefEntry(items[i]) == Some(r[k])
  {
    var r := RefsOf(items);
    forall k | 0 <= k < |r|
      ensures r[k].snippet != [] &&
              exists i :: 0 <= i < |items| && items[i].Obj? && RefEntry(items[i]) == Some(r[k])
    {
      FilterMapMember(items, RefEntry, k);
    }
  }

  // ---------------------------------------------------------------------------
  // Incident synthesis

  /** What the chat model is asked: the clipped log lines, related cases and, for Q&A, the question. */
  datatype Prompt =
    | SynthesisPrompt(lines: seq<string>, cases: seq<string>)
    | QuestionPrompt(question: string, lines: seq<string>, cases: seq<string>)

  /** The chat collaborator: the decoded JSON reply, or None when the call or the decoding raises. */
  datatype Llm = Llm(apiKey: string, chat: Prompt -> Option<Value>)

  /** The dict `synthesize_with_llm` returns, before schema validation. */
  datatype Draft = Draft(
    summary: Value,
    confidence: real,
    timeline: seq<TimelineEvent>,
    evidence: seq<Value>,
    rootCauses: seq<RootCause>,
    nextSteps: seq<Value>,
    references: seq<Reference>)

  const DisabledSummary: string := "Auto-summary (LLM disabled): based on log evidence and related cases."
  const DisabledCause: string := "Likely issue inferred from logs"
  const DisabledStep: string := "Review logs and related cases; LLM synthesizer is disabled."
  const ErrorSummary: string := "Analysis unavailable (synthesis error)."
  const ErrorCause: string := "Unknown (synthesis error)"
  const ErrorStep: string := "Retry synthesis later; check logs and related cases."

  /** The prompt of `synthesize_with_llm`: up to 50 clipped lines and the first 5 related cases. */
  function SynthesisPromptOf(topLines: seq<string>, related: seq<string>): (p: Prompt)
    ensures p.SynthesisPrompt? && |p.lines| <= 50 && |p.cases| <= 5
  {
    ClipShape(topLines, 50);
    SynthesisPrompt(Clip(topLines, 50), Take(related, 5))
  }

  /** The deterministic draft of the disabled and failed branches. */
  function FallbackDraft(summary: string, cause: string, causeConfidence: Confidence, step: string,
                         topLines: seq<string>): (d: Draft)
  {
    var tl := Clip(topLines, 50);
    var ev := Clip(topLines, 12);
    Draft(Str(summary), 0.5,
          seq(|tl|, i requires 0 <= i < |tl| => TimelineEvent("-", tl[i], "analysis")),
          seq(|ev|, i requires 0 <= i < |ev| => Str(ev[i])),
          [RootCause(cause, causeConfidence)],
          [Str(step)],
          [])
  }

  /** The success branch: `data.get(...)` on the decoded reply; an exception where it is not a dict or the confidence is not a float. */
  function DraftOf(data: Value): (r: Result<Draft, string>)
    ensures r.Success? <==> data.Obj? && ToFloat(GetOr(data.fields, "confidence", Num(0.75, "0.75"))).Some?
  {
    if !data.Obj? then Failure("the reply is not a JSON object")
    else
      var o := data.fields;
      match ToFloat(GetOr(o, "confidence", Num(0.75, "0.75")))
      case None => Failure("confidence: could not convert to float")
      case Some(c) =>
        Success(Draft(GetOr(o, "summary", Str("Analysis unavailable.")),
                      c,
                      TimelineOf(SafeList(Get(o, "timeline"))),
                      Take(SafeList(Get(o, "immediate_evidence")), 12),
                      RootCausesOf(SafeList(Get(o, "root_causes"))),
                      Take(SafeList(Get(o, "next_steps")), 10),
                      RefsOf(SafeList(Get(o, "references")))))
  }

  /** `synthesize_with_llm`; `queryText` is accepted and not used. */
  function Synthesize(queryText: string, topLines: seq<string>, related: seq<string>, llm: Llm): Result<Draft, string> {
    if llm.apiKey == [] then Success(FallbackDraft(DisabledSummary, DisabledCause, 0.4, DisabledStep, topLines))
    else
      match llm.chat(SynthesisPromptOf(topLines, related))
      case None => Success(FallbackDraft(ErrorSummary, ErrorCause, 0.3, ErrorStep, topLines))
      case Some(data) => DraftOf(data)
  }

  /**
   * The fallback draft: the fixed summary with confidence 0.5, one timeline
   * entry ("-", line, "analysis") per clipped line (up to 50), the first 12
   * clipped lines as evidence, one root cause, one next step, no references;
   * and it always passes `IncidentSummary` validation.
   */
  lemma FallbackShape(summary: string, cause: string, causeConfidence: Confidence, step: string,
                      topLines: seq<string>, related: seq<string>, refs: seq<Reference>)
    ensures var d := FallbackDraft(summary, cause, causeConfidence, step, topLines);
            var tl := Clip(topLines, 50);
            && d.summary == Str(summary) && d.confidence == 0.5
            && |d.timeline| == |tl| <= 50
            && (forall k :: 0 <= k < |tl| ==> d.timeline[k] == TimelineEvent("-", tl[k], "analysis"))
            && |d.evidence| == |Clip(topLines, 12)| <= 12
            && (forall k :: 0 <= k < |d.evidence| ==> d.evidence[k] == Str(Clip(topLines, 12)[k]))
            && d.rootCauses == [RootCause(cause, causeConfidence)]
            && d.nextSteps == [Str(step)]
            && d.references == []
            && MakeIncidentSummary(d.summary, d.confidence, d.timeline, d.evidence, d.rootCauses,
                                   d.nextSteps, related, d.references).Success?
  {
    ClipShape(topLines, 50);
    ClipShape(topLines, 12);
  }

  /** Without an API key the chat is never called and the disabled fallback is returned. */
  lemma SynthesizeDisabled(queryText: string, topLines: seq<string>, related: seq<string>, llm: Llm)
    requires llm.apiKey == []
    ensures Synthesize(queryText, topLines, related, llm) ==
            Success(FallbackDraft(DisabledSummary, DisabledCause, 0.4, DisabledStep, topLines))
  {
  }

  /** A failed call or an undecodable reply gives the error fallback, never an exception. */
  lemma SynthesizeChatFails(queryText: string, topLines: seq<string>, related: seq<string>, llm: Llm)
    requires llm.apiKey != [] && llm.chat(SynthesisPromptOf(topLines, related)).None?
    ensures Synthesize(queryText, topLines, related, llm) ==
            Success(FallbackDraft(ErrorSummary, ErrorCause, 0.3, ErrorStep, topLines))
  {
  }

  /**
   * On a decoded reply the draft caps evidence at 12, next steps at 10, the
   * timeline at 12, root causes at 6 and references at 10; its confidence is
   * the reply's number as given (0.75 when absent), without clamping.
   */
  lemma SynthesizeReplyShape(queryText: string, topLines: seq<string>, related: seq<string>, llm: Llm)
    requires llm.apiKey != [] && llm.chat(SynthesisPromptOf(topLines, related)).Some?
    ensures var data := llm.chat(SynthesisPromptOf(topLines, related)).value;
            var r := Synthesize(queryText, topLines, related, llm);
            && (r.Success? <==> data.Obj? && ToFloat(GetOr(data.fields, "confidence", Num(0.75, "0.75"))).Some?)
            && (r.Success? ==>
                  && |r.value.evidence| <= 12 && |r.value.nextSteps| <= 10
                  && |r.value.timeline| <= 12 && |r.value.rootCauses| <= 6 && |r.value.references| <= 10
                  && ("confidence" !in data.fields ==> r.value.confidence == 0.75)
                  && ("confidence" in data.fields && data.fields["confidence"].Num? ==>
                        r.value.confidence == data.fields["confidence"].x)
                  && ("summary" !in data.fields ==> r.value.summary == Str("Analysis unavailable.")))
  {
    var data := llm.chat(SynthesisPromptOf(topLines, related)).value;
    if data.Obj? {
      TimelineShape(SafeList(Get(data.fields, "timeline")));
      RootCausesShape(SafeList(Get(data.fields, "root_causes")));
      RefsShape(SafeList(Get(data.fields, "references")));
    }
  }

  /** The success-branch confidence is not clamped: a reply of 2.0 yields a draft the schema rejects. */
  lemma UnclampedConfidence(topLines: seq<string>, related: seq<string>)
    ensures var reply := Obj(map["summary" := Str("s"), "confidence" := Num(2.0, "2.0")]);
            var llm := Llm("key", (p: Prompt) => Some(reply));
            var r := Synthesize("", topLines, related, llm);
            && r.Success? && r.value.confidence == 2.0
            && MakeIncidentSummary(r.value.summary, r.value.confidence, r.value.timeline, r.value.evidence,
                                   r.value.rootCauses, r.value.nextSteps, related, r.value.references).Failure?
  {
  }

  // ---------------------------------------------------------------------------
  // Question answering

  /** The dict `answer_question` returns, before response validation. */
  datatype AnswerDraft = AnswerDraft(answer: Value, confidence: real, citations: seq<Reference>)

  const DisabledAnswer: string := "LLM is disabled; cannot answer the question."
  const FailedAnswer: string := "Q&A failed (synthesis error)."

  /** The prompt of `answer_question`: the question, up to 50 clipped lines, the first 5 related cases. */
  function QuestionPromptOf(question: string, topLines: seq<string>, related: seq<string>): (p: Prompt)
    ensures p.QuestionPrompt? && p.question == question && |p.lines| <= 50 && |p.cases| <= 5
  {
    ClipShape(topLines, 50);
    QuestionPrompt(question, Clip(topLines, 50), Take(related, 5))
  }

  /** `answer_question` */
  function AnswerQuestion(question: string, topLines: seq<string>, related: seq<string>, llm: Llm): Result<AnswerDraft, string> {
    if llm.apiKey == [] then Success(AnswerDraft(Str(DisabledAnswer), 0.0, []))
    else
      match llm.chat(QuestionPromptOf(question, topLines, related))
      case None => Success(AnswerDraft(Str(FailedAnswer), 0.0, []))
      case Some(data) =>
        if !data.Obj? then Failure("the reply is not a JSON object")
        else
          var o := data.fields;
          match ToFloat(GetOr(o, "confidence", Num(0.6, "0.6")))
          case None => Failure("confidence: could not convert to float")
          case Some(c) => Success(AnswerDraft(GetOr(o, "answer", Str("No answer.")), c, RefsOf(SafeList(Get(o, "citations")))))
  }

  /**
   * Without a key: the fixed disabled text, confidence 0.0, no citations. On
   * a failed call: the fixed failure text, 0.0, no citations. On a decoded
   * dict: at most 10 citations, confidence 0.6 when absent, "No answer." when
   * the answer is absent.
   */
  lemma AnswerShape(question: string, topLines: seq<string>, related: seq<string>, llm: Llm)
    ensures llm.apiKey == [] ==>
              AnswerQuestion(question, topLines, related, llm) == Success(AnswerDraft(Str(DisabledAnswer), 0.0, []))
    ensures llm.apiKey != [] && llm.chat(QuestionPromptOf(question, topLines, related)).None? ==>
              AnswerQuestion(question, topLines, related, llm) == Success(AnswerDraft(Str(FailedAnswer), 0.0, []))
    ensures var reply := llm.chat(QuestionPromptOf(question, topLines, related));
            var r := AnswerQuestion(question, topLines, related, llm);
            llm.apiKey != [] && reply.Some? && reply.value.Obj? ==>
              && (r.Success? <==> ToFloat(GetOr(reply.value.fields, "confidence", Num(0.6, "0.6"))).Some?)
              && (r.Success? ==>
                    && |r.value.citations| <= 10
                    && ("confidence" !in reply.value.fields ==> r.value.confidence == 0.6)
                    && ("answer" !in reply.value.fields ==> r.value.answer == Str("No answer.")))
  {
    var reply := llm.chat(QuestionPromptOf(question, topLines, related));
    if reply.Some? && reply.value.Obj? {
      RefsShape(SafeList(Get(reply.value.fields, "citations")));
    }
  }
}
