/**
 * Shaping of vector-store matches into the related-case lines the pipeline
 * shows and passes to the LLM (backend/app/rag/retriever.py).
 *
 * The store query is the collaborator `store`: the matches for a query and a
 * `top_k`, or the error it raises. A match's score is carried as the text
 * `round(score, 3)` prints.
 */
module Retriever {
  import opened Wrappers
  import opened Text
  import opened Json
  import opened Seqs

  /** One store match: its rounded score as printed, and its metadata. */
  datatype Match = Match(scoreText: string, metadata: map<string, Value>)

  /** The store query, as a function of the query text and `top_k`. */
  type Store = (string, nat) -> Result<seq<Match>, string>

  /** The label: the metadata title when truthy, else "related case". */
  function Label(md: map<string, Value>): (r: Value)
    ensures Truthy(Get(md, "title")) ==> r == md["title"]
    ensures !Truthy(Get(md, "title")) ==> r == Str("related case")
  {
    FirstTruthy([Get(md, "title")], Str("related case"))
  }

  /** The note: the first truthy of takeaway, summary and snippet, else "". */
  function Note(md: map<string, Value>): (r: Value)
    ensures Truthy(Get(md, "takeaway")) ==> r == md["takeaway"]
    ensures !Truthy(Get(md, "takeaway")) && Truthy(Get(md, "summary")) ==> r == md["summary"]
    ensures !Truthy(Get(md, "takeaway")) && !Truthy(Get(md, "summary")) && Truthy(Get(md, "snippet")) ==>
              r == md["snippet"]
    ensures !Truthy(Get(md, "takeaway")) && !Truthy(Get(md, "summary")) && !Truthy(Get(md, "snippet")) ==>
              r == Str("")
  {
    var notes := [Get(md, "takeaway"), Get(md, "summary"), Get(md, "snippet")];
    assert notes[0] == Get(md, "takeaway") && notes[1] == Get(md, "summary") && notes[2] == Get(md, "snippet");
    FirstTruthy(notes, Str(""))
  }

  /** The label and the score, up to the colon. */
  function Heading(title: string, scoreText: string): string {
    title + " (score " + scoreText + "):"
  }

  /** `f"{title} (score {score}): {takeaway}".strip()` */
  function FormatMatch(m: Match): string {
    MatchText(Show(Label(m.metadata)), m.scoreText, Show(Note(m.metadata)))
  }

  /** The stripped line for a label, a score and a note. */
  function MatchText(title: string, scoreText: string, note: string): string {
    Strip(Heading(title, scoreText) + " " + note)
  }

  /** One line per match, in match order. */
  function RelatedLines(ms: seq<Match>): (r: seq<string>)
    ensures |r| == |ms| && forall i :: 0 <= i < |ms| ==> r[i] == FormatMatch(ms[i])
  {
    MapIndex(ms, FormatMatch);
    Map(ms, FormatMatch)
  }

  /** The loop of `retrieve_related_context` over the matches. */
  method FormatMatches(ms: seq<Match>) returns (lines: seq<string>)
    ensures lines == RelatedLines(ms)
  {
    lines := [];
    var i := 0;
    while i < |ms|
      invariant 0 <= i <= |ms|
      invariant lines == Map(ms[..i], FormatMatch)
    {
      MapSnoc(ms, FormatMatch, i);
      lines := lines + [FormatMatch(ms[i])];
      i := i + 1;
    }
    assert ms[..i] == ms;
  }

  /** `retrieve_related_context`: the store's error is not caught here. */
  function RetrieveRelated(query: string, topK: nat, store: Store): (r: Result<seq<string>, string>)
    ensures store(query, topK).Failure? ==> r == Failure(store(query, topK).error)
    ensures store(query, topK).Success? ==> r.Success? && |r.value| == |store(query, topK).value|
  {
    match store(query, topK)
    case Failure(e) => Failure(e)
    case Success(ms) => Success(RelatedLines(ms))
  }

  /**
   * A title that does not start with whitespace opens the line, followed by
   * the score part up to its colon; with an empty note the line ends in that
   * colon.
   */
  lemma FormatShape(title: string, scoreText: string, note: string)
    requires title != [] && !IsSpace(title[0])
    ensures var head := Heading(title, scoreText);
            var r := MatchText(title, scoreText, note);
            && StartsWith(r, head)
            && (note == [] ==> r == head)
  {
    var head := Heading(title, scoreText);
    assert head[0] == title[0];
    assert head[|head| - 1] == ':';
    assert head + " " + note == head + (" " + note);
    StripKeepsHead(head, " " + note);
    if note == [] {
      assert IsBlank(" " + note) by { assert " " + note == " "; }
    }
  }

  /**
   * A match line opens with its label when the label does not start with
   * whitespace, and is exactly the label and score part when the note prints
   * empty.
   */
  lemma MatchLine(m: Match)
    ensures var title := Show(Label(m.metadata));
            title != [] && !IsSpace(title[0]) ==> StartsWith(FormatMatch(m), Heading(title, m.scoreText))
    ensures var title := Show(Label(m.metadata));
            title != [] && !IsSpace(title[0]) && Show(Note(m.metadata)) == [] ==>
              FormatMatch(m) == Heading(title, m.scoreText)
  {
    var title := Show(Label(m.metadata));
    if title != [] && !IsSpace(title[0]) {
      FormatShape(title, m.scoreText, Show(Note(m.metadata)));
    }
  }

  /** A match without a truthy title is shown as a "related case". */
  lemma UntitledMatchLine(m: Match)
    requires !Truthy(Get(m.metadata, "title"))
    ensures StartsWith(FormatMatch(m), Heading("related case", m.scoreText))
  {
    var title := Show(Label(m.metadata));
    assert title == "related case";
    FormatShape(title, m.scoreText, Show(Note(m.metadata)));
  }
}
