# AgentL3 incident-triage backend, modelled in Dafny

AgentL3 is an incident-triage backend. A user uploads log files. A
background job then does three things:

- it reads the logs and extracts signal lines (triage);
- it asks a vector store for similar past incidents (retrieval);
- it has an LLM write an incident summary (synthesis).

While the job runs, its stage moves from `queued` through `triage`,
`retrieve`, `root_cause` and `synthesize` to `done` or `error`. Status,
result and follow-up question endpoints read the job registry. A seeding
script reads a directory of Markdown post-mortems into the vector store.

This project models the core of that system:

- `log_parser.dfy` (module `LogParser`) models log-line classification and
  the aggregation of parsed lines into events, de-duplicated ERROR/WARN
  evidence, level counts and a hint. Each line is classified into time,
  level and message. A JSON-object branch is tried first, and
  timestamp/level scanning is the fallback.
- `synthesis.dfy` (module `Synthesis`) models:
  - the coercion of untrusted LLM output into bounded records;
  - `_clip_lines`;
  - the disabled, failed and succeeded branches of incident synthesis and of
    grounded question answering.
- `main.dfy` (module `Orchestrator`) models the job registry as a class:
  `JOBS` and `RESULTS` are fields that the methods update. It also models
  one pipeline run, with its line collection, query text, caching and
  stage updates, and the `analyze`, `status`, `result` and `ask` endpoints.
- `retriever.dfy` (module `Retriever`) models the shaping of vector-store
  matches into related-case lines.
- `rag_seed.dfy` (module `RagSeed`) models the reading of knowledge files:
  `title:`/`takeaway:` header extraction and the index-aligned texts and
  metadata.
- `schemas.dfy` (module `Schemas`) models the response records and the
  constraints their validation enforces.
- Four supporting modules model the Python semantics the code relies on:
  - `wrappers.dfy`: `Option` and `Result`;
  - `seqs.dfy`: recursive map, filter-map and concat-map, which specify the
    source's append loops;
  - `text.dfy`: ASCII `strip`, `lower`, `startswith`, `replace`, `join`,
    `split`, `splitlines` and the base name of a path;
  - `json.dfy`: decoded JSON values, Python truthiness and `or` chains,
    `dict.get`, `str()` and `float()`.

The model's boundaries are as follows:

- The model reaches the outside world only through parameters:
  - JSON decoding (`decode`);
  - the LLM chat call together with the decoding of its reply
    (`Synthesis.Llm`);
  - the vector-store query (`Retriever.Store`);
  - the entries of a job's upload directory, with their contents;
  - whether writing the query file succeeds;
  - the clock (`Orchestrator.World`);
  - the knowledge directory listing (`RagSeed.Entry`).
- The pipeline calls `synthesize_with_llm` through the collaborator
  `World.synthesize`. `Orchestrator.Backend(llm)` is the application's
  wiring of it to `Synthesis.Synthesize`.
- Every loop of the source is a method. Each is proved against a
  specification function, and the properties are proved about those
  functions.

## Notes on the source

- The fallback timeline of `synthesize_with_llm` takes up to 50 clipped
  lines (backend/app/synthesis.py:77-87).
- On a successful reply, the top-level confidence of a synthesis is not
  clamped. A value outside [0, 1] passes synthesis and then fails
  `IncidentSummary` validation, which ends the job in `error`
  (`Synthesis.UnclampedConfidence`, `Orchestrator.OutOfRangeConfidenceFails`).
- A reply that decodes to something other than a JSON object, or whose
  confidence `float()` rejects, raises outside the `try` block of
  `synthesize_with_llm`. The raise reaches the pipeline, which records
  `error`. `Synthesis.DraftOf` and `Synthesis.AnswerQuestion` return
  `Failure` there.
- A directory listing that raises is not caught by the per-file `try`. The
  pipeline's outer `except` turns it into the `error` update right after
  the triage update (backend/app/main.py:150-151, 219-222).

## Model

| member | source | states |
|---|---|---|
| LogParser.MatchLen | backend/app/parsers/log_parser.py:12-15 | a date-time match has length 19, or 23 with its `[.,]ddd` fraction; a clock match has length 8; every match lies inside the line |
| LogParser.SearchFrom | backend/app/parsers/log_parser.py:38-41 | `re.search`: the result is the leftmost index where the pattern matches; None only when no index matches |
| LogParser.TextTimestamp | backend/app/parsers/log_parser.py:37-41 | the date-time pattern wins over the bare `HH:MM:SS` pattern; None exactly when neither matches anywhere in the line |
| LogParser.FirstLevelIndex | backend/app/parsers/log_parser.py:43-46 | the first level word, in list order, found as a whole word; no earlier word is found |
| LogParser.TextLevel | backend/app/parsers/log_parser.py:42-46 | the level is always one of ERROR, WARN, INFO, DEBUG and TRACE; it is INFO when no level word is found; otherwise it is the first word found, with WARNING reported as WARN |
| LogParser.RemoveLevelWords | backend/app/parsers/log_parser.py:50 | `re.sub` of the level-word pattern: no level word, in any case and at a word boundary, remains; only word characters are deleted, so the other characters are kept in order; the text never grows; a text without level words is unchanged |
| LogParser.RemoveLevelWordsKeeps | backend/app/parsers/log_parser.py:50 | the result keeps exactly the characters that lie in no whole level word starting at a word boundary, in their order, so every other word survives |
| LogParser.RemovedIsKept | backend/app/parsers/log_parser.py:50 | the left-to-right scan from any scan point equals the filter that drops the characters of removed level words |
| LogParser.LevelWordAtIsRegex | backend/app/parsers/log_parser.py:50 | the removal test is the regex: no match right after a word character (`\b`), else the first alternative of ERROR, WARN, WARNING, INFO, DEBUG and TRACE that matches up to case and ends at a word boundary |
| LogParser.RemovedHasNoWord | backend/app/parsers/log_parser.py:50 | after `re.sub` of whole words, no removable word is left at any later word boundary, nor at the start when the scan began at one |
| LogParser.RemovedKeepsNonWord | backend/app/parsers/log_parser.py:50 | removing whole words keeps every non-word character, in order |
| LogParser.CutKeepsNoRemovable | backend/app/parsers/log_parser.py:50-51 | stripping characters that are not word characters from a text with no removable word leaves a text with no removable word |
| LogParser.TrimMessage | backend/app/parsers/log_parser.py:50-51 | the message is a slice of the text with level words removed, cut only at ' ', '-', ':' and tab on either side; it still has no level word; it neither starts nor ends with one of those four characters |
| LogParser.TextBranch | backend/app/parsers/log_parser.py:36-52 | the text branch: the timestamp that `TextTimestamp` finds (Null when none), the level `TextLevel` gives, and a trimmed message free of level words; without a timestamp the message is the whole line with level words removed and then trimmed; with one, it is the line with every occurrence of the timestamp text removed, then level words removed and trimmed |
| LogParser.TrimPlainMessage | backend/app/parsers/log_parser.py:50-51 | a message with no level word in any case keeps its whole text, trimmed of ' -:\t' at both ends |
| LogParser.JsonBranchTaken | backend/app/parsers/log_parser.py:21-34 | the JSON branch is used exactly when the stripped line starts with '{', ends with '}', decodes to an object and has a string level; every other line, including a failed decode, goes to the text branch |
| LogParser.JsonKeyPrecedence | backend/app/parsers/log_parser.py:26-32 | time: the first truthy of ts, time and @timestamp, else timestamp; level: the first truthy of level, severity and lvl, else INFO, upper-cased, with WARNING as WARN; message: the first truthy of message, msg and log, else the stripped line, then stripped |
| LogParser.JsonLevelIsOpen | backend/app/parsers/log_parser.py:21-29 | the JSON branch can report a level outside the five text levels: any object-shaped line whose decoded level is `"critical"` gets CRITICAL |
| LogParser.PlainLineLevel | backend/app/parsers/log_parser.py:22 | a line that does not look like a JSON object always gets one of the five text-branch levels |
| LogParser.FileLines | backend/app/parsers/log_parser.py:63-66 | a file contributes at most as many lines as it has |
| LogParser.FileLinesShape | backend/app/parsers/log_parser.py:63-66 | the texts a file contributes are exactly its non-blank lines, in order, each tagged with the file's name; nothing when every line is blank |
| LogParser.EventOf | backend/app/parsers/log_parser.py:67-73 | the event carries the source of its line |
| LogParser.EvidenceOf | backend/app/parsers/log_parser.py:75-76 | there are at most as many evidence lines as events |
| LogParser.CountsOf | backend/app/parsers/log_parser.py:75-77 | the counter has only ERROR and WARN keys, each with a positive count |
| LogParser.Dedup | backend/app/parsers/log_parser.py:88-93 | de-duplication keeps exactly the members of its input, without duplicates and no longer than the input |
| LogParser.DedupLines | backend/app/parsers/log_parser.py:89-93 | the seen-set loop computes `Dedup` of the evidence lines |
| LogParser.DedupOrder | backend/app/parsers/log_parser.py:88-93 | de-duplicated lines appear in the order of their first occurrence |
| LogParser.EvidenceMembers | backend/app/parsers/log_parser.py:75-76 | a line is evidence exactly when it is `source: msg` of some ERROR or WARN event |
| LogParser.CountsMatchEvidence | backend/app/parsers/log_parser.py:75-77 | counts[ERROR] + counts[WARN] equals the number of evidence lines, duplicates included |
| LogParser.FirstUnreadable | backend/app/parsers/log_parser.py:60-79 | the first file whose opening raises something other than FileNotFoundError, or the number of files when there is none |
| LogParser.TracksStep | backend/app/parsers/log_parser.py:67-77 | one more non-blank line appends its event and its text, and its evidence and count when it is ERROR or WARN |
| LogParser.ScanLine | backend/app/parsers/log_parser.py:64-77 | one pass of the line loop: a blank line is skipped; any other line is recorded in every accumulator |
| LogParser.ScanFile | backend/app/parsers/log_parser.py:63-77 | the line loop over one file records exactly that file's non-blank lines |
| LogParser.ReadFile | backend/app/parsers/log_parser.py:61-79 | a readable file contributes its non-blank lines; a missing file contributes nothing |
| LogParser.ParseLogFiles | backend/app/parsers/log_parser.py:55-101 | `parse_log_files` returns the report of `Triage`, or the error of the first unreadable file |
| LogParser.SourcedLinesAppend | backend/app/parsers/log_parser.py:60 | files are read in order: lines of concatenated file lists concatenate |
| LogParser.MissingFileSkipped | backend/app/parsers/log_parser.py:78-79 | a missing file changes nothing: removing it from the list gives the same lines |
| LogParser.SourcedLinesShape | backend/app/parsers/log_parser.py:60-74 | every line read is non-blank, comes from a readable file and carries that file's base name |
| LogParser.TriageFails | backend/app/parsers/log_parser.py:60-79 | triage fails exactly when some file is unreadable (not merely missing), and then with the first such file's error |
| LogParser.ReportShape | backend/app/parsers/log_parser.py:95-101 | one event and one text per non-blank line, in order; the top lines are exactly the distinct `source: msg` lines of ERROR/WARN events, in first-occurrence order; the counts have only ERROR and WARN keys and add up to at least the number of top lines |
| LogParser.TriageSucceeds | backend/app/parsers/log_parser.py:55-101 | a successful triage is the report on the non-blank lines of all files, file by file |
| LogParser.MentionsLine | backend/app/parsers/log_parser.py:81 | a line that mentions a word (lower-cased) makes the joined, lower-cased text mention it |
| LogParser.HintFromLines | backend/app/parsers/log_parser.py:81-86 | the pool-exhaustion hint exactly when the joined text mentions both "pool" and "timeout", so whenever one line does; otherwise the exception hint whenever a line mentions "exception"; None exactly when the text mentions "exception" nowhere and not both "pool" and "timeout" |
| Synthesis.SafeList | backend/app/synthesis.py:9-12 | a list passes unchanged; anything else becomes [] |
| Synthesis.StrOr | backend/app/synthesis.py:19-21 | `str(v or default)`: the value's text when the value is truthy, else the default |
| Synthesis.KeepSome | backend/app/synthesis.py:15-23 | the append loop keeps, in order, every item the entry rule accepts |
| Synthesis.StrippedLine | backend/app/synthesis.py:56-59 | a line is kept exactly when it is not blank, and then as its stripped non-empty text |
| Synthesis.ClipBound | backend/app/synthesis.py:60-62 | the check comes after an append, so at least one line is kept even for n < 1; otherwise the bound is n |
| Synthesis.ClipShape | backend/app/synthesis.py:53-63 | `_clip_lines` keeps the stripped non-blank lines in order; its length is the smaller of their number and the bound; each line is the stripped form of an input |
| Synthesis.ClipLines | backend/app/synthesis.py:53-63 | the loop with its early break computes `Clip` |
| Synthesis.TimelineEntry | backend/app/synthesis.py:16-23 | an item is kept exactly when it is a dict with a non-empty message; time defaults to "-" and source to "analysis" |
| Synthesis.CoerceTimeline | backend/app/synthesis.py:14-24 | the loop returns the first 12 valid entries |
| Synthesis.TimelineShape | backend/app/synthesis.py:14-24 | at most 12 entries; all valid ones when there are at most 12; each has a non-empty message and comes from a dict item |
| Synthesis.Clamp | backend/app/synthesis.py:38 | a value in [0, 1] is kept; below 0 gives 0; above 1 gives 1 |
| Synthesis.RootCauseEntry | backend/app/synthesis.py:28-38 | an item is kept exactly when it is a dict with a non-empty cause; its confidence is the clamped converted confidence |
| Synthesis.CauseConfidenceDefaults | backend/app/synthesis.py:32-36 | a missing, null or unconvertible confidence becomes 0.7; a number is taken as given |
| Synthesis.CoerceRootCauses | backend/app/synthesis.py:26-39 | the loop returns the first 6 valid entries |
| Synthesis.RootCausesShape | backend/app/synthesis.py:26-39 | at most 6 entries, each with a non-empty cause and a confidence in [0, 1], each from a dict item |
| Synthesis.RefEntry | backend/app/synthesis.py:44-50 | an item is kept exactly when it is a dict with a non-empty snippet; source defaults to "retrieved_case" |
| Synthesis.CoerceRefs | backend/app/synthesis.py:41-51 | the loop returns the first 10 valid entries |
| Synthesis.RefsShape | backend/app/synthesis.py:41-51 | at most 10 entries, each with a non-empty snippet, each from a dict item |
| Synthesis.SynthesisPromptOf | backend/app/synthesis.py:102-103 | the prompt carries at most 50 clipped lines and at most 5 related cases |
| Synthesis.DraftOf | backend/app/synthesis.py:135-143 | the success branch yields a draft exactly when the reply is an object whose confidence (0.75 when absent) converts to a float |
| Synthesis.FallbackShape | backend/app/synthesis.py:77-87 | the fallback: fixed summary, confidence 0.5, one ("-", line, "analysis") entry per clipped line (up to 50), the first 12 clipped lines as evidence, one root cause, one next step, no references; it always passes `IncidentSummary` validation |
| Synthesis.SynthesizeDisabled | backend/app/synthesis.py:77-87 | without an API key the chat is not called and the disabled fallback (root cause confidence 0.4) is returned |
| Synthesis.SynthesizeChatFails | backend/app/synthesis.py:122-133 | a failed call or an undecodable reply gives the error fallback (root cause "Unknown (synthesis error)", 0.3) |
| Synthesis.SynthesizeReplyShape | backend/app/synthesis.py:135-143 | on a decoded reply: evidence capped at 12, next steps at 10, timeline at 12, root causes at 6, references at 10; confidence as given, 0.75 when absent, not clamped; summary "Analysis unavailable." when absent |
| Synthesis.UnclampedConfidence | backend/app/synthesis.py:137 | a reply confidence of 2.0 yields a draft with confidence 2.0, which `IncidentSummary` validation rejects |
| Synthesis.QuestionPromptOf | backend/app/synthesis.py:165-166 | the Q&A prompt carries the question, at most 50 clipped lines and at most 5 related cases |
| Synthesis.AnswerShape | backend/app/synthesis.py:147-204 | no key: the disabled text, 0.0 and no citations; failed call: the failure text, 0.0 and no citations; decoded object: at most 10 citations, confidence 0.6 when absent, "No answer." when absent |
| Retriever.Label | backend/app/rag/retriever.py:9 | the title when truthy, else "related case" |
| Retriever.Note | backend/app/rag/retriever.py:10 | the first truthy of takeaway, summary and snippet, else "" |
| Retriever.RelatedLines | backend/app/rag/retriever.py:6-13 | one line per match, in match order, each the formatted match |
| Retriever.FormatMatches | backend/app/rag/retriever.py:7-13 | the loop over the matches computes `RelatedLines` |
| Retriever.RetrieveRelated | backend/app/rag/retriever.py:4-13 | a store error propagates unchanged; otherwise there is exactly one line per match |
| Retriever.FormatShape | backend/app/rag/retriever.py:12 | a title that does not start with whitespace opens the stripped line with `title (score s):`; with an empty note the line ends in that ':' |
| Retriever.MatchLine | backend/app/rag/retriever.py:8-12 | a match line opens with its label and score part, and is exactly that part when the note prints empty |
| Retriever.UntitledMatchLine | backend/app/rag/retriever.py:9-12 | a match without a truthy title opens with `related case (score s):` |
| RagSeed.KeyColon | backend/app/rag_seed.py:20-21 | a header line carries its key's letters in either case, then the key's ':', with no earlier ':' |
| RagSeed.HeaderColon | backend/app/rag_seed.py:20-21 | in a header line the first ':' ends the key, so `split(":", 1)[1].strip()` is the stripped text after the key |
| RagSeed.HeaderValueSnoc | backend/app/rag_seed.py:18-21 | one more line: a header line replaces the value; any other line keeps it |
| RagSeed.TrailingNonHeaders | backend/app/rag_seed.py:18-21 | lines without a header after position m leave the value it had there |
| RagSeed.LastHeaderAt | backend/app/rag_seed.py:18-21 | when line k is a header line and none follows, the value is line k's text |
| RagSeed.LastHeaderWins | backend/app/rag_seed.py:18-21 | without a header line the value stays ""; otherwise it comes from the last header line |
| RagSeed.ScanHeaders | backend/app/rag_seed.py:17-21 | the header loop leaves title and takeaway as the values of the last `title:` and `takeaway:` lines |
| RagSeed.BaseNameOfJoin | backend/app/rag_seed.py:23 | the base name of the joined path is the file name |
| RagSeed.CaseFilesSnoc | backend/app/rag_seed.py:14 | one more entry: a `*.md` file is appended; any other entry is skipped |
| RagSeed.CaseFilesMember | backend/app/rag_seed.py:14 | exactly the `*.md` entries are read |
| RagSeed.MetaTitle | backend/app/rag_seed.py:23 | the title is the header title, or the file name when the header is missing or empty, so never empty for a knowledge file; the takeaway is the header takeaway, "" by default |
| RagSeed.ReadCase | backend/app/rag_seed.py:15-23 | one knowledge file gives its stripped content and its metadata |
| RagSeed.ReadCases | backend/app/rag_seed.py:12-24 | texts and metas are index-aligned, one per `*.md` file in listing order; each text is the stripped content |
| RagSeed.SeedMain | backend/app/rag_seed.py:26-30 | nothing is seeded exactly when there is no knowledge file; otherwise the upsert gets, in listing order, the stripped contents of the `*.md` files as texts and each file's metadata record at the same index |
| Schemas.StageName | backend/app/schemas.py:30 | every stage's literal validates back to that stage |
| Schemas.StageLiteral | backend/app/schemas.py:30 | a string validates as a stage exactly when it is one of the seven literals, and then names that stage |
| Schemas.CheckConfidence | backend/app/schemas.py:12 | a confidence validates exactly when it lies in [0, 1], unchanged |
| Schemas.CheckProgress | backend/app/schemas.py:31 | a progress validates exactly when it lies in [0, 100], unchanged |
| Schemas.Strings | backend/app/schemas.py:22 | the texts of a list of JSON strings, element by element |
| Schemas.DefaultIncidentSummary | backend/app/schemas.py:18-26 | a summary from its required fields has every list field empty, and validates exactly when its confidence lies in [0, 1] |
| Schemas.MakeIncidentSummary | backend/app/schemas.py:18-26 | validation succeeds exactly when the summary is a string, the confidence lies in [0, 1] and every evidence line and next step is a string; the fields are then carried over unchanged |
| Schemas.MakeAnswer | backend/app/schemas.py:40-43 | an `Answer` validates exactly when its text is a string and its confidence lies in [0, 1] |
| Orchestrator.NewJob | backend/app/main.py:237-245 | a new job is queued at 0% with message "Queued" and created_at == updated_at, and has no cached keys |
| Orchestrator.Signals | backend/app/main.py:153-161 | a directory entry contributes at most 200 lines |
| Orchestrator.SignalsShape | backend/app/main.py:150-164 | each line an entry contributes is non-empty, already stripped, and the stripped form of one of the first 200 lines of a readable file with a log extension |
| Orchestrator.CollectedShape | backend/app/main.py:150-164 | lines are collected only from a listed directory; every collected line is non-empty, stripped, and comes from one of the first 200 lines of some readable `.log`/`.txt`/`.json` entry |
| Orchestrator.ReadLines | backend/app/main.py:155-161 | the line loop reads at most the first 200 physical lines, blank ones included in the cap, and appends the stripped non-blank ones |
| Orchestrator.ReadSignals | backend/app/main.py:152-164 | only readable files with a log extension are read; others are skipped |
| Orchestrator.CollectLines | backend/app/main.py:150-164 | the directory loop collects the lines of all entries in listing order; nothing when the directory is missing; a listing that raises gives its error |
| Orchestrator.QueryTextShape | backend/app/main.py:167 | the query text is never empty: the placeholder without lines; otherwise the space-join of the first 50 lines, each of which it contains |
| Orchestrator.Summarize | backend/app/main.py:200-216 | a stored result's related cases are exactly the retrieved ones; a synthesis failure is a failure |
| Orchestrator.PlanRun | backend/app/main.py:140-222 | a retrieval failure is absorbed as no related cases; the first 50 lines are the top lines when the query file was written; a failed listing is the run's outcome; otherwise the outcome is the synthesis result over the run's query text, top lines and related cases, whose related cases are the run's |
| Orchestrator.FinalUpdate | backend/app/main.py:218-222 | the last update is at 100%: done exactly on success, error with "Error: ..." exactly on failure |
| Orchestrator.Trace | backend/app/main.py:142-222 | the first update is always the triage update; a listed or missing directory gives five updates, the last being the final update; a failed listing gives the triage update and then the error update |
| Orchestrator.TraceOrdered | backend/app/main.py:142-222 | along a run, every update is for the run's job and past `queued`, stage and progress strictly increase, and only the last update is terminal |
| Orchestrator.ListedRun | backend/app/main.py:140-218 | a run over a listed or missing directory is triage, retrieval and synthesis in order, with five updates |
| Orchestrator.FailedListingRun | backend/app/main.py:150-151 | a run whose listing fails has that error as its outcome, makes the triage and error updates, and ends as the aborted job |
| Orchestrator.AbortedAfterTriage | backend/app/main.py:142-222 | the error update overwrites every field the triage update wrote |
| Orchestrator.RunJob | backend/app/main.py:140-222 | after a run the job keeps its id, files and creation time and ends with the final update's stage, progress and message; with a listed directory it caches the query path and the first 50 lines exactly when the write succeeded, and the related cases exactly when retrieval succeeded; after a failed listing it caches nothing new and ends at the second clock reading |
| Orchestrator.OutOfRangeConfidenceFails | backend/app/main.py:207-222 | a synthesis confidence outside [0, 1] makes result construction fail and the job end in error |
| Orchestrator.DisabledLlmRunIsDone | backend/app/main.py:200-222 | with the LLM backend and no API key, a run ends done exactly when its directory listing does not fail, and then with confidence 0.5 and the retrieved related cases |
| Orchestrator.AskLines | backend/app/main.py:308-321 | the cached top lines when non-empty; otherwise at most one line, present exactly when a non-empty query path is cached, the file reads and is not blank, and then the first min(len, 800) characters of the stripped text |
| Orchestrator.MakeQnA | backend/app/main.py:94-97 | the response validates exactly when the answer is a string; its confidence is not bounded |
| Orchestrator.Registry.constructor | backend/app/main.py:50-51 | the registry starts with no jobs and no results |
| Orchestrator.Registry.Analyze | backend/app/main.py:233-249 | an empty upload is rejected with 400 "No files uploaded."; otherwise a queued job is registered under the new id, which is returned |
| Orchestrator.Registry.Update | backend/app/main.py:129-138 | `update` changes only stage, progress, message and updated_at of its job; nothing else changes |
| Orchestrator.Registry.TriageStep | backend/app/main.py:142-178 | triage: the triage update, then the collected lines and the query text; the query path and top lines are cached only when the write succeeds; a failed listing is returned with only the triage update made |
| Orchestrator.Registry.RetrieveStep | backend/app/main.py:181-189 | retrieval: the retrieve update; the related cases are cached on success; a failure leaves none and the run goes on |
| Orchestrator.Registry.SynthesizeStep | backend/app/main.py:192-222 | the root_cause and synthesize updates; the result is stored only on success, before done; any failure ends in error with no result |
| Orchestrator.Registry.TriageAndRetrieve | backend/app/main.py:140-189 | the first two stages leave the job as triage and retrieval describe, with the run's query text, related cases and top lines; after a failed listing only the triage update is made and retrieval does not run |
| Orchestrator.Registry.AbortRun | backend/app/main.py:219-222 | the `except` clause after a failed listing: the error update with "Error: " and the message, at 100%; the results are unchanged |
| Orchestrator.Registry.FinishRun | backend/app/main.py:192-218 | from the state triage and retrieval leave, the last three updates and the stored result make the run's job, results and trace |
| Orchestrator.Registry.RunPipeline | backend/app/main.py:116-222 | `_simulate_pipeline` on a queued job: the job ends as `RunJob` says, a result is stored exactly when the run succeeds, and the updates made are the run's trace |
| Orchestrator.Registry.Status | backend/app/main.py:257-267 | not found exactly for an unknown id; otherwise the job's stage, progress, message and times |
| Orchestrator.Registry.ResultOf | backend/app/main.py:275-277 | not found exactly while no result is stored; a stored result belongs to a known job |
| Orchestrator.Registry.Ask | backend/app/main.py:304-324 | not found for an unknown id; otherwise the answer to the question over `AskLines` and the cached related cases, validated as a `QnAResponse` |
| Json.FirstTruthy | backend/app/parsers/log_parser.py:26 | a Python `or` chain: the first truthy value, else the last operand |
| Json.ToFloat | backend/app/synthesis.py:34 | `float()` gives a number's own value and rejects null, lists and dicts |
| Text.Strip | backend/app/parsers/log_parser.py:21 | `strip()`: a slice of the input with only whitespace cut on either side; empty exactly for a blank text; otherwise it starts and ends with a non-space character |
| Text.StripBy | backend/app/parsers/log_parser.py:51 | `strip(chars)`: a slice of the input with only dropped characters cut on either side; empty exactly when every character is dropped; otherwise it starts and ends with a kept character |
| Text.StripIdempotent | backend/app/synthesis.py:57 | stripping twice is stripping once |
| Text.RemoveAll | backend/app/parsers/log_parser.py:49 | `replace(t, '')` never lengthens the text and changes it exactly when the text contains `t` |
| Text.BaseName | backend/app/parsers/log_parser.py:72 | `split('/')[-1]`: the suffix after the last '/', with no '/' in it |
| Text.SplitLinesRoundTrip | backend/app/rag_seed.py:18 | joining the lines of a text that does not end in a line break gives the text back |

## Left out

- File I/O, the directory listing, the clock, `uuid4`, the environment and
  the vector store are inputs of the model, not effects. `_save_uploads`,
  `load_dotenv`, `time.sleep` and the `print` logging are not modelled.
- The OpenAI client, the prompt wording, `json.loads` and the embedding and
  Pinecone code are not modelled. The chat call and reply decoding are one
  collaborator that returns a decoded value or fails. JSON decoding in the
  log parser is the parameter `decode`.
- Background-task scheduling and concurrent access to the registry are not
  modelled. One pipeline run is modelled sequentially.
- The FastAPI routing, CORS, the static UI mount, `/healthz` and
  `/debug/query` are not modelled, because they are transport only.
- The store upsert in the seeding script is not modelled. `SeedMain`
  returns what it would upsert. The `glob` order is taken as the order of
  the listing input.
- Character classes (`\d`, `\w`, whitespace, `lower`/`upper`) are ASCII
  only. There is no Unicode case mapping or Unicode whitespace.
- `splitlines` and the file line iterators break on '\n' only. File
  contents are given already split into lines.
- `str()` of a list or dict is a placeholder text, not Python's repr. A
  number carries its own printed text, which is also how
  `round(score, 3)` is carried in `Retriever.Match`.
- `float()` of a string accepts plain decimal text only: no exponent, no
  `inf`/`nan` and no underscores. Floating-point values are exact reals.
- Exception texts are placeholder strings, not Python's wording.
- `Orchestrator.ReadSignals`: a file that cannot be opened in the pipeline
  is skipped as a whole. A read that fails part-way through a file is not
  modelled.
- `Synthesis.Synthesize`: the `query_text` argument is accepted and unused,
  as in the source.
- `Orchestrator.Registry.Analyze`: the new id is a parameter, standing in
  for `uuid4`, and is not checked for freshness.
- `Orchestrator.World`: `queryWriteOk` does not depend on `uploads`. When
  there is no upload directory, the query-file write at main.py:171-172
  would fail. The model leaves that to the caller's choice of world.
- Schema validation is modelled as strict. A non-string summary, evidence
  line, next step or answer fails, with no lax coercion. The
  `datetime` fields are integers from the clock.
