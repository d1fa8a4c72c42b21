/**
 * The job registry and the analysis pipeline of the API (backend/app/main.py):
 * job submission, the background pipeline that moves a job through its
 * stages, and the status, result and question endpoints.
 *
 * Everything the pipeline meets outside the registry is an input of one run
 * (`World`): the entries of the job's upload directory, whether writing the
 * query file succeeds, the vector-store query, the chat collaborator and the
 * clock. The registry's two dictionaries are the fields of `Registry`.
 */
module Orchestrator {
  import opened Wrappers
  import opened Seqs
  import opened Text
  import opened Json
  import opened Schemas
  import Synthesis
  import opened Retriever

  // ---------------------------------------------------------------------------
  // Records

  /** How opening an uploaded file turns out: its physical lines, or an error. */
  datatype Contents = Readable(lines: seq<string>) | Unreadable

  /** An entry of a job's upload directory. */
  datatype Upload = Upload(name: string, isFile: bool, contents: Contents)

  /** How listing a job's upload directory turns out: no such directory, its entries, or an error. */
  datatype Listing = NoDirectory | Listed(entries: seq<Upload>) | ListingFailed(error: string)

  /**
   * A job record of JOBS. The query path, the cached top lines and the
   * related cases are keys the pipeline may add; None while absent.
   */
  datatype Job = Job(
    jobId: string,
    stage: Stage,
    progress: Progress,
    message: string,
    createdAt: int,
    updatedAt: int,
    files: seq<string>,
    queryPath: Option<string>,
    topLines: Option<seq<string>>,
    relatedCases: Option<seq<string>>)

  /** One call of `update`: the stage, progress and message it writes. */
  datatype StageUpdate = StageUpdate(jobId: string, stage: Stage, progress: Progress, message: string)

  /** The HTTP errors the endpoints raise, with their detail text. */
  datatype ApiError = BadRequest(detail: string) | NotFound(detail: string) | ServerError(detail: string)

  /** The `/ask` response model; its confidence carries no bounds. */
  datatype QnAResponse = QnAResponse(answer: string, confidence: real, citations: seq<Reference>)

  /** What one pipeline run meets outside the registry; `clock(k)` is the k-th reading of the clock. */
  datatype World = World(
    uploads: Listing,
    queryWriteOk: bool,
    store: Store,
    synthesize: Synthesizer,
    clock: nat -> int)

  /** `synthesize_with_llm` as the pipeline calls it: query text, top lines and related cases. */
  type Synthesizer = (string, seq<string>, seq<string>) -> Result<Synthesis.Draft, string>

  /** The synthesizer the application wires in: the LLM synthesis over the configured client. */
  function Backend(llm: Synthesis.Llm): Synthesizer {
    (q: string, top: seq<string>, related: seq<string>) => Synthesis.Synthesize(q, top, related, llm)
  }

  const LinesPerFile: nat := 200
  const QueryLines: nat := 50
  const RelatedTopK: nat := 3
  const AskSnippet: nat := 800
  const PlaceholderQuery: string := "Database pool timeout after 30s; in_use=50; waiters=12"
  const QueryFileName: string := "triage_query.txt"

  const QueuedMessage: string := "Queued"
  const TriageMessage: string := "Reading files and extracting signals\U{2026}"
  const RetrieveMessage: string := "Retrieving similar past incidents\U{2026}"
  const RootCauseMessage: string := "Evaluating hypotheses\U{2026}"
  const SynthesizeMessage: string := "Compiling incident summary\U{2026}"
  const DoneMessage: string := "Complete"

  /** The record `analyze` registers: queued, at 0%, created and updated at the same instant. */
  function NewJob(jobId: string, files: seq<string>, now: int): (j: Job)
    ensures j.jobId == jobId && j.files == files
    ensures j.stage == Queued && j.progress == 0 && j.message == QueuedMessage
    ensures j.createdAt == j.updatedAt == now
    ensures j.queryPath.None? && j.topLines.None? && j.relatedCases.None?
  {
    Job(jobId, Queued, 0, QueuedMessage, now, now, files, None, None, None)
  }

  // ---------------------------------------------------------------------------
  // Line collection and the query text

  /** A name whose lower-cased form ends in .log, .txt or .json. */
  predicate IsLogName(name: string) {
    var low := Lower(name);
    EndsWith(low, ".log") || EndsWith(low, ".txt") || EndsWith(low, ".json")
  }

  /** The lines one directory entry contributes: the stripped non-blank ones among its first 200. */
  function Signals(u: Upload): (r: seq<string>)
    ensures |r| <= LinesPerFile
  {
    if u.isFile && IsLogName(u.name) && u.contents.Readable? then
      FilterMap(Take(u.contents.lines, LinesPerFile), Synthesis.StrippedLine)
    else []
  }

  /** The lines of all entries, entry by entry; none when the directory is missing or cannot be listed. */
  function CollectedLines(dir: Listing): seq<string> {
    match dir
    case Listed(entries) => ConcatMap(entries, Signals)
    case _ => []
  }

  /** Each line an entry contributes is the stripped form of one of its first 200 lines, and stripped itself. */
  lemma SignalsShape(u: Upload, line: string)
    requires line in Signals(u)
    ensures line != [] && Strip(line) == line
    ensures exists j :: FromFile(u, j, line)
  {
    var head := Take(u.contents.lines, LinesPerFile);
    var m :| 0 <= m < |Signals(u)| && Signals(u)[m] == line;
    FilterMapMember(head, Synthesis.StrippedLine, m);
    var j :| 0 <= j < |head| && Synthesis.StrippedLine(head[j]) == Some(line);
    StripIdempotent(head[j]);
    assert FromFile(u, j, line);
  }

  /**
   * Each collected line is non-blank, stripped, and the stripped form of
   * one of the first 200 lines of a readable file whose name has a log
   * extension.
   */
  lemma CollectedShape(dir: Listing, k: nat)
    requires k < |CollectedLines(dir)|
    ensures dir.Listed?
    ensures var line := CollectedLines(dir)[k];
            && line != [] && Strip(line) == line
            && exists i, j :: 0 <= i < |dir.entries| && FromFile(dir.entries[i], j, line)
  {
    var entries := dir.entries;
    var line := CollectedLines(dir)[k];
    var i, m := ConcatMapMember(entries, Signals, k);
    SignalsShape(entries[i], line);
  }

  /** `line` is the stripped form of line `j` of `u`, one of the first 200 of a readable log file. */
  predicate FromFile(u: Upload, j: int, line: string) {
    && u.isFile && IsLogName(u.name) && u.contents.Readable?
    && 0 <= j < |u.contents.lines| && j < LinesPerFile
    && line == Strip(u.contents.lines[j])
  }

  /** The line loop of one file: at most 200 physical lines, blank ones skipped. */
  method ReadLines(ls: seq<string>, lines: seq<string>) returns (out: seq<string>)
    ensures out == lines + FilterMap(Take(ls, LinesPerFile), Synthesis.StrippedLine)
  {
    out := lines;
    var i := 0;
    while i < |ls|
      invariant 0 <= i <= |ls| && i <= LinesPerFile
      invariant out == lines + FilterMap(ls[..i], Synthesis.StrippedLine)
    {
      if i >= LinesPerFile {
        break;
      }
      ghost var done := FilterMap(ls[..i], Synthesis.StrippedLine);
      FilterMapSnoc(ls, Synthesis.StrippedLine, i);
      var s := Synthesis.StrippedLine(ls[i]);
      if s.Some? {
        out := out + [s.value];
        assert out == lines + (done + [s.value]);
      }
      i := i + 1;
    }
    assert Take(ls, LinesPerFile) == ls[..i];
  }

  /** The body of the directory loop: only readable files with a log extension are read. */
  method ReadSignals(u: Upload, lines: seq<string>) returns (out: seq<string>)
    ensures out == lines + Signals(u)
  {
    out := lines;
    if u.isFile && IsLogName(u.name) {
      match u.contents {
        case Unreadable =>
        case Readable(ls) =>
          out := ReadLines(ls, lines);
      }
    }
  }

  /**
   * The directory loop of the pipeline: the collected lines, or the error of
   * a listing that failed, which nothing inside the loop catches.
   */
  method CollectLines(dir: Listing) returns (r: Result<seq<string>, string>)
    ensures dir.ListingFailed? ==> r == Failure(dir.error)
    ensures !dir.ListingFailed? ==> r == Success(CollectedLines(dir))
  {
    match dir {
      case NoDirectory =>
        r := Success([]);
      case ListingFailed(e) =>
        r := Failure(e);
      case Listed(entries) =>
        var lines := [];
        var i := 0;
        while i < |entries|
          invariant 0 <= i <= |entries|
          invariant lines == ConcatMap(entries[..i], Signals)
        {
          ConcatMapSnoc(entries, Signals, i);
          lines := ReadSignals(entries[i], lines);
          i := i + 1;
        }
        assert entries[..i] == entries;
        r := Success(lines);
    }
  }

  /** `" ".join(lines[:50]) or placeholder` */
  function QueryText(lines: seq<string>): string {
    var joined := Join(" ", Take(lines, QueryLines));
    if joined != [] then joined else PlaceholderQuery
  }

  /**
   * The query text is never empty: the placeholder without lines, otherwise
   * (the first line being non-empty) the space-join of the first 50 lines,
   * each of which occurs in it.
   */
  lemma QueryTextShape(lines: seq<string>)
    ensures QueryText(lines) != []
    ensures lines == [] ==> QueryText(lines) == PlaceholderQuery
    ensures lines != [] && lines[0] != [] ==>
              && QueryText(lines) == Join(" ", Take(lines, QueryLines))
              && forall k :: 0 <= k < |lines| && k < QueryLines ==> Contains(QueryText(lines), lines[k])
  {
    var parts := Take(lines, QueryLines);
    if lines != [] && lines[0] != [] {
      assert parts[0] == lines[0];
      forall k | 0 <= k < |lines| && k < QueryLines
        ensures Contains(QueryText(lines), lines[k])
      {
        assert parts[k] == lines[k];
        JoinHasPart(" ", parts, k);
      }
    }
  }

  // ---------------------------------------------------------------------------
  // One pipeline run, as a specification

  /** `os.path.join(UPLOAD_ROOT, job_id, "triage_query.txt")` */
  function QueryPath(root: string, jobId: string): string {
    root + "/" + jobId + "/" + QueryFileName
  }

  /** The result `IncidentSummary(...)` builds from the synthesis output, or the exception text. */
  function Summarize(queryText: string, topLines: seq<string>, related: seq<string>, synthesize: Synthesizer)
    : (r: Result<IncidentSummary, string>)
    ensures r.Success? ==> r.value.relatedCases == related
    ensures synthesize(queryText, topLines, related).Failure? ==> r.Failure?
  {
    match synthesize(queryText, topLines, related)
    case Failure(e) => Failure(e)
    case Success(d) =>
      MakeIncidentSummary(d.summary, d.confidence, d.timeline, d.evidence, d.rootCauses, d.nextSteps,
                          related, d.references)
  }

  /** The values a run computes. */
  datatype Run = Run(
    lines: seq<string>,
    queryText: string,
    retrieved: Result<seq<string>, string>,
    related: seq<string>,
    topLines: seq<string>,
    outcome: Result<IncidentSummary, string>)

  /**
   * What a run computes, from the job record it starts from and the world.
   * When the directory listing fails the run stops after triage with that
   * error as its outcome, and the other values are never used.
   */
  function PlanRun(job: Job, w: World): (run: Run)
    ensures run.retrieved.Failure? ==> run.related == []
    ensures run.retrieved.Success? ==> run.related == run.retrieved.value
    ensures w.queryWriteOk ==> run.topLines == Take(run.lines, QueryLines)
    ensures run.outcome.Success? ==> run.outcome.value.relatedCases == run.related
    ensures w.uploads.ListingFailed? ==> run.outcome == Failure(w.uploads.error)
    ensures !w.uploads.ListingFailed? ==> run.outcome == Summarize(run.queryText, run.topLines, run.related, w.synthesize)
  {
    var lines := CollectedLines(w.uploads);
    var q := QueryText(lines);
    var retrieved := RetrieveRelated(q, RelatedTopK, w.store);
    var related := if retrieved.Success? then retrieved.value else [];
    var top := if w.queryWriteOk then Take(lines, QueryLines) else job.topLines.GetOr([]);
    var outcome := match w.uploads
      case ListingFailed(e) => Failure(e)
      case _ => Summarize(q, top, related, w.synthesize);
    Run(lines, q, retrieved, related, top, outcome)
  }

  /** The last update of a run: done on success, error with the exception text otherwise. */
  function FinalUpdate(jobId: string, outcome: Result<IncidentSummary, string>): (u: StageUpdate)
    ensures u.progress == 100
    ensures u.stage == Done <==> outcome.Success?
    ensures u.stage == Error <==> outcome.Failure?
    ensures outcome.Failure? ==> StartsWith(u.message, "Error: ")
  {
    match outcome
    case Success(_) => StageUpdate(jobId, Done, 100, DoneMessage)
    case Failure(e) => StageUpdate(jobId, Error, 100, "Error: " + e)
  }

  /** The order in which a run moves through the stages. */
  function StageRank(st: Stage): nat {
    match st
    case Queued => 0
    case Triage => 1
    case Retrieve => 2
    case RootCauseStage => 3
    case Synthesize => 4
    case Done => 5
    case Error => 5
  }

  predicate IsTerminal(st: Stage) {
    st == Done || st == Error
  }

  /**
   * The updates of one run: triage 20, retrieve 50, root_cause 75,
   * synthesize 90, then done or error at 100; or, when the directory
   * listing fails, triage 20 and then error at 100.
   */
  function Trace(jobId: string, dir: Listing, outcome: Result<IncidentSummary, string>): (t: seq<StageUpdate>)
    ensures dir.ListingFailed? ==> |t| == 2 && t[1] == FinalUpdate(jobId, Failure(dir.error))
    ensures !dir.ListingFailed? ==> |t| == 5 && t[4] == FinalUpdate(jobId, outcome)
    ensures t[0] == TriageUpdate(jobId)
  {
    match dir
    case ListingFailed(e) => [TriageUpdate(jobId), FinalUpdate(jobId, Failure(e))]
    case _ => EarlyUpdates(jobId) + LateUpdates(jobId, outcome)
  }

  function TriageUpdate(jobId: string): StageUpdate {
    StageUpdate(jobId, Triage, 20, TriageMessage)
  }

  /** The updates of triage and retrieval. */
  function EarlyUpdates(jobId: string): seq<StageUpdate> {
    [TriageUpdate(jobId), StageUpdate(jobId, Retrieve, 50, RetrieveMessage)]
  }

  /** The updates of root-cause analysis and synthesis, and the final one. */
  function LateUpdates(jobId: string, outcome: Result<IncidentSummary, string>): seq<StageUpdate> {
    [StageUpdate(jobId, RootCauseStage, 75, RootCauseMessage),
     StageUpdate(jobId, Stage.Synthesize, 90, SynthesizeMessage),
     FinalUpdate(jobId, outcome)]
  }

  /**
   * Along a run, stages and progress strictly increase, every update is for
   * the run's job, and only the last update is terminal.
   */
  lemma TraceOrdered(jobId: string, dir: Listing, outcome: Result<IncidentSummary, string>)
    ensures var t := Trace(jobId, dir, outcome);
            && (forall k :: 0 <= k < |t| ==> t[k].jobId == jobId && StageRank(t[k].stage) > StageRank(Queued))
            && (forall k :: 0 < k < |t| ==> StageRank(t[k - 1].stage) < StageRank(t[k].stage))
            && (forall k :: 0 < k < |t| ==> t[k - 1].progress < t[k].progress)
            && (forall k :: 0 <= k < |t| - 1 ==> !IsTerminal(t[k].stage))
            && IsTerminal(t[|t| - 1].stage)
  {
  }

  /** The record after triage: the first update, then the cached query path and top lines when the write succeeds. */
  function TriagedJob(job: Job, root: string, jobId: string, w: World, lines: seq<string>): Job {
    var job := job.(stage := Triage, progress := 20, message := TriageMessage, updatedAt := w.clock(0));
    if w.queryWriteOk then job.(queryPath := Some(QueryPath(root, jobId)), topLines := Some(Take(lines, QueryLines)))
    else job
  }

  /** The record after retrieval: the second update, then the related cases when the store answered. */
  function RetrievedJob(job: Job, w: World, got: Result<seq<string>, string>): Job {
    var job := job.(stage := Retrieve, progress := 50, message := RetrieveMessage, updatedAt := w.clock(1));
    if got.Success? then job.(relatedCases := Some(got.value)) else job
  }

  /** The record after a run whose directory listing failed: the error update right after triage. */
  function AbortedJob(job: Job, jobId: string, w: World, outcome: Result<IncidentSummary, string>): Job {
    var last := FinalUpdate(jobId, outcome);
    job.(stage := last.stage, progress := last.progress, message := last.message, updatedAt := w.clock(1))
  }

  /** A run whose directory was listed (or missing) goes through all five updates. */
  lemma ListedRun(job: Job, root: string, jobId: string, w: World)
    requires !w.uploads.ListingFailed?
    ensures var run := PlanRun(job, w);
            && run.outcome == Summarize(run.queryText, run.topLines, run.related, w.synthesize)
            && RunJob(job, root, jobId, w, run) ==
               FinishedJob(RetrievedJob(TriagedJob(job, root, jobId, w, run.lines), w, run.retrieved), jobId, w, run.outcome)
            && Trace(jobId, w.uploads, run.outcome) == EarlyUpdates(jobId) + LateUpdates(jobId, run.outcome)
  {
  }

  /** A run whose directory listing fails makes the triage update and then the error update. */
  lemma FailedListingRun(job: Job, root: string, jobId: string, w: World)
    requires w.uploads.ListingFailed?
    ensures var run := PlanRun(job, w);
            && run.outcome == Failure(w.uploads.error)
            && RunJob(job, root, jobId, w, run) == AbortedJob(job, jobId, w, run.outcome)
            && Trace(jobId, w.uploads, run.outcome) == [TriageUpdate(jobId), FinalUpdate(jobId, run.outcome)]
  {
  }

  /** The error update overwrites everything the triage update wrote. */
  lemma AbortedAfterTriage(job: Job, jobId: string, w: World, outcome: Result<IncidentSummary, string>)
    ensures AbortedJob(job.(stage := Triage, progress := 20, message := TriageMessage, updatedAt := w.clock(0)),
                       jobId, w, outcome) == AbortedJob(job, jobId, w, outcome)
  {
  }

  /** The record after the last update of a run. */
  function FinishedJob(job: Job, jobId: string, w: World, outcome: Result<IncidentSummary, string>): Job {
    var last := FinalUpdate(jobId, outcome);
    job.(stage := last.stage, progress := last.progress, message := last.message, updatedAt := w.clock(4))
  }

  /**
   * The job record after a run: its identity and files kept; the query path
   * and the first 50 lines cached exactly when the query file was written;
   * the related cases cached exactly when retrieval succeeded; and the stage,
   * progress and message of the final update, at the fifth clock reading.
   * A run whose directory listing fails caches nothing and ends in error at
   * the second reading.
   */
  function RunJob(job: Job, root: string, jobId: string, w: World, run: Run): (j: Job)
    ensures j.jobId == job.jobId && j.files == job.files && j.createdAt == job.createdAt
    ensures var last := FinalUpdate(jobId, run.outcome);
            j.stage == last.stage && j.progress == last.progress && j.message == last.message
    ensures w.uploads.ListingFailed? ==>
              && j.queryPath == job.queryPath && j.topLines == job.topLines && j.relatedCases == job.relatedCases
              && j.updatedAt == w.clock(1)
    ensures !w.uploads.ListingFailed? ==>
              && (w.queryWriteOk ==> j.queryPath == Some(QueryPath(root, jobId)) && j.topLines == Some(Take(run.lines, QueryLines)))
              && (!w.queryWriteOk ==> j.queryPath == job.queryPath && j.topLines == job.topLines)
              && (run.retrieved.Success? ==> j.relatedCases == Some(run.retrieved.value))
              && (run.retrieved.Failure? ==> j.relatedCases == job.relatedCases)
              && j.updatedAt == w.clock(4)
  {
    match w.uploads
    case ListingFailed(_) => AbortedJob(job, jobId, w, run.outcome)
    case _ => FinishedJob(RetrievedJob(TriagedJob(job, root, jobId, w, run.lines), w, run.retrieved), jobId, w, run.outcome)
  }

  /**
   * A reply whose confidence lies outside [0, 1] passes synthesis but fails
   * result validation, so the run ends in error and stores no result.
   */
  lemma OutOfRangeConfidenceFails(job: Job, w: World)
    requires var q := QueryText(CollectedLines(w.uploads));
             var run := PlanRun(job, w);
             && w.synthesize(q, run.topLines, run.related).Success?
             && !(0.0 <= w.synthesize(q, run.topLines, run.related).value.confidence <= 1.0)
    ensures PlanRun(job, w).outcome.Failure?
    ensures FinalUpdate(job.jobId, PlanRun(job, w).outcome).stage == Error
  {
  }

  /**
   * With the application's backend and no API key the run always completes:
   * the disabled fallback passes validation, with confidence 0.5 and the
   * retrieved related cases.
   */
  lemma DisabledLlmRunIsDone(job: Job, w: World, llm: Synthesis.Llm)
    requires w.synthesize == Backend(llm) && llm.apiKey == []
    ensures var run := PlanRun(job, w);
            !w.uploads.ListingFailed? ==>
              && run.outcome.Success?
              && run.outcome.value.confidence == 0.5
              && run.outcome.value.relatedCases == run.related
    ensures FinalUpdate(job.jobId, PlanRun(job, w).outcome).stage == Done <==> !w.uploads.ListingFailed?
  {
    var run := PlanRun(job, w);
    Synthesis.SynthesizeDisabled(run.queryText, run.topLines, run.related, llm);
    Synthesis.FallbackShape(Synthesis.DisabledSummary, Synthesis.DisabledCause, 0.4, Synthesis.DisabledStep,
                            run.topLines, run.related, []);
  }

  // ---------------------------------------------------------------------------
  // The registry

  /** `/ask`'s lines: the cached top lines, else the first 800 characters of the stripped query file. */
  function AskLines(j: Job, readQuery: string -> Option<string>): (r: seq<string>)
    ensures j.topLines.Some? && j.topLines.value != [] ==> r == j.topLines.value
    ensures (j.topLines.None? || j.topLines.value == []) ==>
              && |r| <= 1
              && (r != [] <==> && j.queryPath.Some? && j.queryPath.value != []
                               && readQuery(j.queryPath.value).Some?
                               && !IsBlank(readQuery(j.queryPath.value).value))
              && (r != [] ==> var txt := Strip(readQuery(j.queryPath.value).value);
                              && StartsWith(txt, r[0])
                              && |r[0]| == (if |txt| < AskSnippet then |txt| else AskSnippet))
  {
    var top := j.topLines.GetOr([]);
    if top != [] then top
    else
      match j.queryPath
      case None => []
      case Some(qp) =>
        if qp == [] then []
        else
          match readQuery(qp)
          case None => []
          case Some(content) =>
            var txt := Strip(content);
            if txt != [] then [Take(txt, AskSnippet)] else []
  }

  /** `QnAResponse(**out)`: the answer must be a string; the confidence is not bounded. */
  function MakeQnA(a: Synthesis.AnswerDraft): (r: Result<QnAResponse, ApiError>)
    ensures r.Success? <==> a.answer.Str?
    ensures r.Success? ==> Str(r.value.answer) == a.answer && r.value.confidence == a.confidence &&
                           r.value.citations == a.citations
  {
    if a.answer.Str? then Success(QnAResponse(a.answer.s, a.confidence, a.citations))
    else Failure(ServerError("answer: input should be a valid string"))
  }

  class Registry {
    /** `UPLOAD_ROOT` */
    const uploadRoot: string
    /** `JOBS` */
    var jobs: map<string, Job>
    /** `RESULTS` */
    var results: map<string, IncidentSummary>
    /** Every `update` made so far, in order. */
    ghost var updates: seq<StageUpdate>

    /** Results belong to registered jobs, and each job is filed under its own id. */
    ghost predicate Valid()
      reads this
    {
      && results.Keys <= jobs.Keys
      && forall id :: id in jobs ==> jobs[id].jobId == id
    }

    constructor (uploadRoot: string)
      ensures this.uploadRoot == uploadRoot
      ensures jobs == map[] && results == map[] && updates == []
      ensures Valid()
    {
      this.uploadRoot := uploadRoot;
      jobs := map[];
      results := map[];
      updates := [];
    }

    /** `analyze`: rejects an empty upload, else registers a queued job under the fresh id. */
    method Analyze(files: seq<string>, jobId: string, now: int) returns (r: Result<string, ApiError>)
      requires Valid()
      modifies this
      ensures Valid()
      ensures files == [] ==> r == Failure(BadRequest("No files uploaded.")) && jobs == old(jobs)
      ensures files != [] ==> r == Success(jobId) && jobs == old(jobs)[jobId := NewJob(jobId, files, now)]
      ensures results == old(results) && updates == old(updates)
    {
      if files == [] {
        return Failure(BadRequest("No files uploaded."));
      }
      jobs := jobs[jobId := NewJob(jobId, files, now)];
      r := Success(jobId);
    }

    /** The pipeline's `update`: writes stage, progress, message and the time, and nothing else. */
    method Update(jobId: string, stage: Stage, progress: Progress, message: string, now: int)
      requires Valid() && jobId in jobs
      modifies this
      ensures Valid()
      ensures jobs == old(jobs)[jobId := old(jobs)[jobId].(stage := stage, progress := progress, message := message,
                                                          updatedAt := now)]
      ensures results == old(results)
      ensures updates == old(updates) + [StageUpdate(jobId, stage, progress, message)]
    {
      var job := jobs[jobId];
      jobs := jobs[jobId := job.(stage := stage, progress := progress, message := message, updatedAt := now)];
      updates := updates + [StageUpdate(jobId, stage, progress, message)];
    }

    /**
     * Triage: collect the lines and build the query; cache them when the
     * query file is written. A failed directory listing is returned, with
     * only the triage update made.
     */
    method TriageStep(jobId: string, w: World) returns (listed: Result<seq<string>, string>, queryText: string)
      requires Valid() && jobId in jobs
      modifies this
      ensures Valid() && jobId in jobs
      ensures w.uploads.ListingFailed? ==>
                && listed == Failure(w.uploads.error)
                && jobs == old(jobs)[jobId := old(jobs[jobId]).(stage := Triage, progress := 20, message := TriageMessage,
                                                                 updatedAt := w.clock(0))]
      ensures !w.uploads.ListingFailed? ==>
                && listed == Success(CollectedLines(w.uploads))
                && queryText == QueryText(listed.value)
                && jobs == old(jobs)[jobId := TriagedJob(old(jobs[jobId]), uploadRoot, jobId, w, listed.value)]
      ensures results == old(results)
      ensures updates == old(updates) + [TriageUpdate(jobId)]
    {
      Update(jobId, Triage, 20, TriageMessage, w.clock(0));
      listed := CollectLines(w.uploads);
      if listed.Failure? {
        return listed, [];
      }
      var lines := listed.value;
      queryText := QueryText(lines);
      if w.queryWriteOk {
        var job := jobs[jobId];
        jobs := jobs[jobId := job.(queryPath := Some(QueryPath(uploadRoot, jobId)), topLines := Some(Take(lines, QueryLines)))];
      }
    }

    /** Retrieval: the related cases are cached on success; a failure leaves none. */
    method RetrieveStep(jobId: string, queryText: string, w: World) returns (related: seq<string>)
      requires Valid() && jobId in jobs
      modifies this
      ensures Valid() && jobId in jobs
      ensures var got := RetrieveRelated(queryText, RelatedTopK, w.store);
              && related == (if got.Success? then got.value else [])
              && jobs == old(jobs)[jobId := RetrievedJob(old(jobs[jobId]), w, got)]
      ensures results == old(results)
      ensures updates == old(updates) + [StageUpdate(jobId, Retrieve, 50, RetrieveMessage)]
    {
      Update(jobId, Retrieve, 50, RetrieveMessage, w.clock(1));
      match RetrieveRelated(queryText, RelatedTopK, w.store) {
        case Success(rs) =>
          related := rs;
          var job := jobs[jobId];
          jobs := jobs[jobId := job.(relatedCases := Some(rs))];
        case Failure(_) =>
          related := [];
      }
    }

    /** Synthesis: the result is stored before "done"; any failure ends the job in "error". */
    method SynthesizeStep(jobId: string, queryText: string, related: seq<string>, w: World)
      requires Valid() && jobId in jobs
      modifies this
      ensures Valid() && jobId in jobs
      ensures var outcome := Summarize(queryText, old(jobs[jobId]).topLines.GetOr([]), related, w.synthesize);
              && jobs == old(jobs)[jobId := FinishedJob(old(jobs[jobId]), jobId, w, outcome)]
              && results == (if outcome.Success? then old(results)[jobId := outcome.value] else old(results))
              && updates == old(updates) + LateUpdates(jobId, outcome)
    {
      Update(jobId, RootCauseStage, 75, RootCauseMessage, w.clock(2));
      Update(jobId, Stage.Synthesize, 90, SynthesizeMessage, w.clock(3));
      var top := jobs[jobId].topLines.GetOr([]);
      match Summarize(queryText, top, related, w.synthesize) {
        case Success(summary) =>
          results := results[jobId := summary];
          Update(jobId, Done, 100, DoneMessage, w.clock(4));
        case Failure(e) =>
          Update(jobId, Error, 100, "Error: " + e, w.clock(4));
      }
    }

    /**
     * `_simulate_pipeline`, on a queued job: the job ends as `RunJob`
     * describes, a result is stored exactly when the run succeeds, and the
     * updates are `Trace`, each of which moves the job past `queued`
     * (`TraceOrdered`).
     */
    method RunPipeline(jobId: string, w: World)
      requires Valid() && jobId in jobs && jobs[jobId].stage == Queued
      modifies this
      ensures Valid()
      ensures var run := PlanRun(old(jobs[jobId]), w);
              && jobs == old(jobs)[jobId := RunJob(old(jobs[jobId]), uploadRoot, jobId, w, run)]
              && results == (if run.outcome.Success? then old(results)[jobId := run.outcome.value] else old(results))
              && updates == old(updates) + Trace(jobId, w.uploads, run.outcome)
    {
      ghost var jobs0, updates0 := jobs, updates;
      ghost var job0 := jobs[jobId];
      ghost var run := PlanRun(job0, w);
      var listed, queryText, related := TriageAndRetrieve(jobId, w);
      if listed.Failure? {
        FailedListingRun(job0, uploadRoot, jobId, w);
        AbortRun(jobId, listed.error, w);
        AbortedAfterTriage(job0, jobId, w, run.outcome);
      } else {
        ListedRun(job0, uploadRoot, jobId, w);
        FinishRun(jobId, queryText, related, w, jobs0, updates0, run);
      }
    }

    /** The last three stages of a run whose directory was listed, from the state the first two leave. */
    method FinishRun(jobId: string, queryText: string, related: seq<string>, w: World,
                     ghost jobs0: map<string, Job>, ghost updates0: seq<StageUpdate>, ghost run: Run)
      requires jobId in jobs0 && Valid()
      requires queryText == run.queryText && related == run.related
      requires run.outcome == Summarize(run.queryText, run.topLines, run.related, w.synthesize)
      requires jobs == jobs0[jobId := RetrievedJob(TriagedJob(jobs0[jobId], uploadRoot, jobId, w, run.lines),
                                                   w, run.retrieved)]
      requires jobs[jobId].topLines.GetOr([]) == run.topLines
      requires updates == updates0 + EarlyUpdates(jobId)
      modifies this
      ensures Valid()
      ensures jobs == jobs0[jobId := FinishedJob(RetrievedJob(TriagedJob(jobs0[jobId], uploadRoot, jobId, w, run.lines),
                                                              w, run.retrieved), jobId, w, run.outcome)]
      ensures results == (if run.outcome.Success? then old(results)[jobId := run.outcome.value] else old(results))
      ensures updates == updates0 + (EarlyUpdates(jobId) + LateUpdates(jobId, run.outcome))
    {
      SynthesizeStep(jobId, queryText, related, w);
    }

    /** The pipeline's `except` clause after a failed directory listing: the error update. */
    method AbortRun(jobId: string, error: string, w: World)
      requires Valid() && jobId in jobs
      modifies this
      ensures Valid()
      ensures jobs == old(jobs)[jobId := AbortedJob(old(jobs[jobId]), jobId, w, Failure(error))]
      ensures results == old(results)
      ensures updates == old(updates) + [FinalUpdate(jobId, Failure(error))]
    {
      Update(jobId, Error, 100, "Error: " + error, w.clock(1));
    }

    /** The first two stages of a run: the job as triage and retrieval leave it; retrieval is skipped when listing fails. */
    method TriageAndRetrieve(jobId: string, w: World)
      returns (listed: Result<seq<string>, string>, queryText: string, related: seq<string>)
      requires Valid() && jobId in jobs
      modifies this
      ensures Valid() && jobId in jobs
      ensures w.uploads.ListingFailed? ==>
                && listed == Failure(w.uploads.error)
                && jobs == old(jobs)[jobId := old(jobs[jobId]).(stage := Triage, progress := 20, message := TriageMessage,
                                                                 updatedAt := w.clock(0))]
                && updates == old(updates) + [TriageUpdate(jobId)]
      ensures !w.uploads.ListingFailed? ==>
                var run := PlanRun(old(jobs[jobId]), w);
                && listed.Success?
                && queryText == run.queryText && related == run.related
                && jobs == old(jobs)[jobId := RetrievedJob(TriagedJob(old(jobs[jobId]), uploadRoot, jobId, w, run.lines),
                                                           w, run.retrieved)]
                && jobs[jobId].topLines.GetOr([]) == run.topLines
                && updates == old(updates) + EarlyUpdates(jobId)
      ensures results == old(results)
    {
      ghost var jobs0 := jobs;
      listed, queryText := TriageStep(jobId, w);
      if listed.Failure? {
        return listed, queryText, [];
      }
      ghost var job1 := jobs[jobId];
      assert jobs == jobs0[jobId := job1];
      related := RetrieveStep(jobId, queryText, w);
    }

    /** `status`: the job's stage, progress, message and times; not found for an unknown id. */
    function Status(jobId: string): (r: Result<AnalysisJobStatus, ApiError>)
      reads this
      ensures r.Failure? <==> jobId !in jobs
      ensures r.Failure? ==> r.error == NotFound("Unknown job_id")
      ensures r.Success? ==> var j := jobs[jobId];
                             r.value == AnalysisJobStatus(j.jobId, j.stage, j.progress, j.message, j.createdAt, j.updatedAt)
    {
      if jobId !in jobs then Failure(NotFound("Unknown job_id"))
      else
        var j := jobs[jobId];
        Success(AnalysisJobStatus(j.jobId, j.stage, j.progress, j.message, j.createdAt, j.updatedAt))
    }

    /** `result`: the stored summary; not found while there is none. */
    function ResultOf(jobId: string): (r: Result<IncidentSummary, ApiError>)
      reads this
      ensures r.Failure? <==> jobId !in results
      ensures r.Failure? ==> r.error == NotFound("Result not ready or job_id not found")
      ensures r.Success? ==> r.value == results[jobId] && (Valid() ==> Status(jobId).Success?)
    {
      if jobId !in results then Failure(NotFound("Result not ready or job_id not found"))
      else Success(results[jobId])
    }

    /** `ask`: answer from the cached lines (or the saved query text) and the cached related cases. */
    function Ask(jobId: string, question: string, readQuery: string -> Option<string>, llm: Synthesis.Llm)
      : (r: Result<QnAResponse, ApiError>)
      reads this
      ensures jobId !in jobs ==> r == Failure(NotFound("Unknown job_id"))
      ensures jobId in jobs ==>
                var j := jobs[jobId];
                var out := Synthesis.AnswerQuestion(question, AskLines(j, readQuery), j.relatedCases.GetOr([]), llm);
                && (out.Failure? ==> r == Failure(ServerError(out.error)))
                && (out.Success? ==> r == MakeQnA(out.value))
    {
      if jobId !in jobs then Failure(NotFound("Unknown job_id"))
      else
        var j := jobs[jobId];
        match Synthesis.AnswerQuestion(question, AskLines(j, readQuery), j.relatedCases.GetOr([]), llm)
        case Failure(e) => Failure(ServerError(e))
        case Success(a) => MakeQnA(a)
    }
  }
}
