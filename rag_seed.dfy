/**
 * Reading of the knowledge base before it is seeded into the vector store
 * (backend/app/rag_seed.py): every `*.md` file of the knowledge directory
 * gives one case text and one metadata record, with the title and takeaway
 * taken from `title:` and `takeaway:` header lines.
 *
 * The directory listing is the input `entries`, in the order the listing
 * gives; the store upsert is left to the caller of `SeedMain`.
 */
module RagSeed {
  import opened Text
  import opened Seqs

  /** An entry of the knowledge directory: its file name and its content. */
  datatype Entry = Entry(name: string, content: string)

  /** The metadata stored beside a case text. */
  datatype CaseMeta = CaseMeta(title: string, takeaway: string, path: string)

  const TitleKey: string := "title:"
  const TakeawayKey: string := "takeaway:"

  /** A header key: lower-case letters followed by one ':'. */
  predicate IsKey(key: string) {
    |key| >= 1 && key[|key| - 1] == ':' && forall i :: 0 <= i < |key| - 1 ==> 'a' <= key[i] <= 'z'
  }

  /** `line.lower().startswith(key)` */
  predicate IsHeader(line: string, key: string) {
    StartsWith(Lower(line), key)
  }

  /** `line.split(":", 1)[1].strip()` */
  function AfterColon(line: string): string
    requires ':' in line
  {
    Strip(line[IndexOf(line, ':') + 1..])
  }

  /**
   * In a header line the first ':' is the one that ends the key, so the
   * header's value is the stripped text after the key.
   */
  lemma HeaderColon(line: string, key: string)
    requires IsKey(key) && IsHeader(line, key)
    ensures ':' in line && IndexOf(line, ':') == |key| - 1
    ensures AfterColon(line) == Strip(line[|key|..])
  {
    KeyColon(line, key);
    IndexOfIs(line, ':', |key| - 1);
  }

  /** A header line carries its key's letters, in either case, and then the key's ':'. */
  lemma KeyColon(line: string, key: string)
    requires IsKey(key) && IsHeader(line, key)
    ensures |key| <= |line| && line[|key| - 1] == ':'
    ensures forall i :: 0 <= i < |key| - 1 ==> line[i] != ':'
  {
    var low := Lower(line);
    assert forall i :: 0 <= i < |key| ==> low[..|key|][i] == low[i];
    assert forall i :: 0 <= i < |key| ==> LowerChar(line[i]) == key[i];
  }

  /** The stripped text after the key of a header line. */
  function HeaderText(line: string, key: string): string
    requires IsHeader(line, key)
  {
    Strip(line[|key|..])
  }

  /** The value a header scan ends with: the last header line for `key` wins; "" when there is none. */
  function HeaderValue(lines: seq<string>, key: string): string {
    if lines == [] then ""
    else
      var last := lines[|lines| - 1];
      if IsHeader(last, key) then HeaderText(last, key) else HeaderValue(lines[..|lines| - 1], key)
  }

  /** One more line: a header line replaces the value, any other line keeps it. */
  lemma HeaderValueSnoc(lines: seq<string>, i: nat, key: string)
    requires i < |lines|
    ensures HeaderValue(lines[..i + 1], key) ==
            if IsHeader(lines[i], key) then HeaderText(lines[i], key) else HeaderValue(lines[..i], key)
  {
    assert lines[..i + 1][..i] == lines[..i];
  }

  /** Lines after the last header line leave the value as it was. */
  lemma {:induction false} TrailingNonHeaders(lines: seq<string>, m: nat, key: string)
    requires m <= |lines|
    requires forall j :: m <= j < |lines| ==> !IsHeader(lines[j], key)
    ensures HeaderValue(lines, key) == HeaderValue(lines[..m], key)
    decreases |lines| - m
  {
    if m < |lines| {
      var n := |lines| - 1;
      var init := lines[..n];
      assert !IsHeader(lines[n], key);
      assert forall j :: m <= j < |init| ==> init[j] == lines[j];
      TrailingNonHeaders(init, m, key);
      assert init[..m] == lines[..m];
    } else {
      assert lines[..m] == lines;
    }
  }

  /**
   * Without a header line for `key` the value stays ""; otherwise it is the
   * stripped text after the key on the last header line.
   */
  lemma {:induction false} LastHeaderWins(lines: seq<string>, key: string)
    ensures (forall k :: 0 <= k < |lines| ==> !IsHeader(lines[k], key)) ==> HeaderValue(lines, key) == ""
    ensures forall k :: 0 <= k < |lines| && IsHeader(lines[k], key) &&
                        (forall j :: k < j < |lines| ==> !IsHeader(lines[j], key)) ==>
                          HeaderValue(lines, key) == HeaderText(lines[k], key)
  {
    if forall k :: 0 <= k < |lines| ==> !IsHeader(lines[k], key) {
      TrailingNonHeaders(lines, 0, key);
      assert lines[..0] == [];
    }
    forall k | 0 <= k < |lines| && IsHeader(lines[k], key) && (forall j :: k < j < |lines| ==> !IsHeader(lines[j], key))
      ensures HeaderValue(lines, key) == HeaderText(lines[k], key)
    {
      LastHeaderAt(lines, k, key);
    }
  }

  /** The value after a header line followed by no other is that line's text. */
  lemma LastHeaderAt(lines: seq<string>, k: nat, key: string)
    requires k < |lines| && IsHeader(lines[k], key)
    requires forall j :: k < j < |lines| ==> !IsHeader(lines[j], key)
    ensures HeaderValue(lines, key) == HeaderText(lines[k], key)
  {
    TrailingNonHeaders(lines, k + 1, key);
    assert lines[..k + 1][k] == lines[k];
  }

  /** The header loop of `_read_cases` over the lines of one stripped file. */
  method ScanHeaders(raw: string) returns (title: string, takeaway: string)
    ensures title == HeaderValue(SplitLines(raw), TitleKey)
    ensures takeaway == HeaderValue(SplitLines(raw), TakeawayKey)
  {
    assert IsKey(TitleKey) && IsKey(TakeawayKey);
    var lines := SplitLines(raw);
    title, takeaway := "", "";
    var i := 0;
    while i < |lines|
      invariant 0 <= i <= |lines|
      invariant title == HeaderValue(lines[..i], TitleKey)
      invariant takeaway == HeaderValue(lines[..i], TakeawayKey)
    {
      var line := lines[i];
      var low := Lower(line);
      HeaderValueSnoc(lines, i, TitleKey);
      HeaderValueSnoc(lines, i, TakeawayKey);
      if StartsWith(low, TitleKey) {
        HeaderColon(line, TitleKey);
        title := AfterColon(line);
      }
      if StartsWith(low, TakeawayKey) {
        HeaderColon(line, TakeawayKey);
        takeaway := AfterColon(line);
      }
      i := i + 1;
    }
    assert lines[..i] == lines;
  }

  /** `glob("*.md")`: a name ending in ".md" that does not start with a dot. */
  predicate IsCaseFile(name: string) {
    EndsWith(name, ".md") && !StartsWith(name, ".")
  }

  /** `os.path.join(know, name)` */
  function JoinPath(know: string, name: string): string {
    if know == [] || know[|know| - 1] == '/' then know + name else know + "/" + name
  }

  /** The base name of a joined path is the file name. */
  lemma BaseNameOfJoin(know: string, name: string)
    requires '/' !in name
    ensures BaseName(JoinPath(know, name)) == name
  {
    var dir := if know == [] || know[|know| - 1] == '/' then know else know + "/";
    assert JoinPath(know, name) == dir + name;
    BaseNameAfterSlash(dir, name);
  }

  /** The knowledge files among the entries, in listing order. */
  function CaseFiles(entries: seq<Entry>): seq<Entry> {
    if entries == [] then []
    else
      var last := entries[|entries| - 1];
      CaseFiles(entries[..|entries| - 1]) + (if IsCaseFile(last.name) then [last] else [])
  }

  /** One more entry: a knowledge file is appended, anything else skipped. */
  lemma CaseFilesSnoc(entries: seq<Entry>, i: nat)
    requires i < |entries|
    ensures CaseFiles(entries[..i + 1]) ==
            CaseFiles(entries[..i]) + if IsCaseFile(entries[i].name) then [entries[i]] else []
  {
    assert entries[..i + 1][..i] == entries[..i];
  }

  /** Exactly the `*.md` entries are read, and no more than there are entries. */
  lemma {:induction false} CaseFilesMember(entries: seq<Entry>)
    ensures |CaseFiles(entries)| <= |entries|
    ensures forall e :: e in CaseFiles(entries) <==> e in entries && IsCaseFile(e.name)
  {
    if entries != [] {
      var init := entries[..|entries| - 1];
      CaseFilesMember(init);
      assert entries == init + [entries[|entries| - 1]];
    }
  }

  /** The metadata of one knowledge file. */
  function MetaOf(know: string, e: Entry): CaseMeta {
    var lines := SplitLines(Strip(e.content));
    var title := HeaderValue(lines, TitleKey);
    var path := JoinPath(know, e.name);
    CaseMeta(if title != [] then title else BaseName(path), HeaderValue(lines, TakeawayKey), path)
  }

  /**
   * The title is the header title, or the file name when the header is
   * missing or empty; for a knowledge file it is never empty.
   */
  lemma MetaTitle(know: string, e: Entry)
    requires '/' !in e.name
    ensures var title := HeaderValue(SplitLines(Strip(e.content)), TitleKey);
            MetaOf(know, e).title == if title != [] then title else e.name
    ensures IsCaseFile(e.name) ==> MetaOf(know, e).title != []
    ensures MetaOf(know, e).takeaway == HeaderValue(SplitLines(Strip(e.content)), TakeawayKey)
  {
    BaseNameOfJoin(know, e.name);
  }

  /** The text stored for a knowledge file: its stripped content. */
  function CaseText(e: Entry): string {
    Strip(e.content)
  }

  /** `MetaOf` for the files of one knowledge directory. */
  function MetaFor(know: string): Entry -> CaseMeta {
    e => MetaOf(know, e)
  }

  /** The body of the file loop of `_read_cases` for one knowledge file. */
  method ReadCase(know: string, e: Entry) returns (text: string, meta: CaseMeta)
    ensures text == CaseText(e) && meta == MetaOf(know, e)
  {
    var path := JoinPath(know, e.name);
    text := Strip(e.content);
    var title, takeaway := ScanHeaders(text);
    meta := CaseMeta(if title != [] then title else BaseName(path), takeaway, path);
  }

  /**
   * `_read_cases`: one stripped text and one metadata record per knowledge
   * file, index-aligned and in listing order.
   */
  method ReadCases(know: string, entries: seq<Entry>) returns (texts: seq<string>, metas: seq<CaseMeta>)
    ensures texts == Map(CaseFiles(entries), CaseText)
    ensures metas == Map(CaseFiles(entries), MetaFor(know))
  {
    texts, metas := [], [];
    ghost var files: seq<Entry> := [];
    var i := 0;
    while i < |entries|
      invariant 0 <= i <= |entries|
      invariant files == CaseFiles(entries[..i])
      invariant texts == Map(files, CaseText) && metas == Map(files, MetaFor(know))
    {
      var e := entries[i];
      CaseFilesSnoc(entries, i);
      if IsCaseFile(e.name) {
        var text, meta := ReadCase(know, e);
        MapPush(files, e, CaseText);
        MapPush(files, e, MetaFor(know));
        texts, metas, files := texts + [text], metas + [meta], files + [e];
      }
      i := i + 1;
    }
    assert entries[..i] == entries;
  }

  /** What the seeding script does: stop when there is nothing to seed, else upsert the cases. */
  datatype SeedOutcome = NoKnowledge | Upsert(texts: seq<string>, metas: seq<CaseMeta>)

  /** The main block of the seeding script. */
  method SeedMain(know: string, entries: seq<Entry>) returns (out: SeedOutcome)
    ensures out.NoKnowledge? <==> forall e :: e in entries ==> !IsCaseFile(e.name)
    ensures out.Upsert? ==> |out.texts| == |out.metas| == |CaseFiles(entries)| > 0
    ensures out.Upsert? ==> forall k :: 0 <= k < |out.metas| ==> out.metas[k] == MetaOf(know, CaseFiles(entries)[k])
    ensures out.Upsert? ==> out.texts == Map(CaseFiles(entries), CaseText)
  {
    var texts, metas := ReadCases(know, entries);
    CaseFilesMember(entries);
    MapIndex(CaseFiles(entries), MetaFor(know));
    if |texts| == 0 {
      out := NoKnowledge;
    } else {
      assert CaseFiles(entries)[0] in CaseFiles(entries);
      out := Upsert(texts, metas);
    }
  }
}
