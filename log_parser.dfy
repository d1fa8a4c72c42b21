/**
 * Log line triage: the classification of one line into (time, level,
 * message), and the aggregation over files into events, de-duplicated
 * ERROR/WARN evidence, level counts and a coarse hint
 * (backend/app/parsers/log_parser.py).
 *
 * JSON decoding is a parameter `decode` (None when `json.loads` raises); the
 * timestamp patterns and the whole-word level search are hand-written
 * matchers.
 */
module LogParser {
  import opened Wrappers
  import opened Seqs
  import opened Text
  import opened Json

  /** The result of classifying one line; `time` is `Null` where Python has None. */
  datatype Parsed = Parsed(time: Value, level: string, message: string)

  /** The level words in the order the text branch tries them. */
  const Levels: seq<string> := ["ERROR", "WARN", "WARNING", "INFO", "DEBUG", "TRACE"]

  /** The levels the text branch can report. */
  const TextLevels: set<string> := {"ERROR", "WARN", "INFO", "DEBUG", "TRACE"}

  // ---------------------------------------------------------------------------
  // Timestamp patterns

  /**
   * A pattern as a shape: 'd' is a digit, '?' a space or 'T', '#' a '.' or
   * ',', and any other character stands for itself.
   */
  predicate CharFits(c: char, p: char) {
    if p == 'd' then IsDigit(c)
    else if p == '?' then c == ' ' || c == 'T'
    else if p == '#' then c == '.' || c == ','
    else c == p
  }

  predicate FitsAt(s: string, i: nat, shape: string) {
    i + |shape| <= |s| && forall k :: 0 <= k < |shape| ==> CharFits(s[i + k], shape[k])
  }

  const DateTimeShape: string := "dddd-dd-dd?dd:dd:dd"
  const FractionShape: string := "#ddd"
  const ClockShape: string := "dd:dd:dd"

  datatype TsPattern = DateTime | Clock

  /**
   * Length of the match of a timestamp pattern anchored at `i`, 0 for none.
   * The date-time pattern takes its optional `[.,]ddd` fraction when present.
   */
  function MatchLen(p: TsPattern, s: string, i: nat): (n: nat)
    ensures n > 0 ==> i + n <= |s|
    ensures p.Clock? ==> n == 0 || n == 8
    ensures p.DateTime? ==> n == 0 || n == 19 || n == 23
  {
    match p
    case DateTime =>
      if !FitsAt(s, i, DateTimeShape) then 0
      else if FitsAt(s, i + 19, FractionShape) then 23
      else 19
    case Clock => if FitsAt(s, i, ClockShape) then 8 else 0
  }

  /** `re.search` from index `i`: the leftmost index where `p` matches. */
  function SearchFrom(p: TsPattern, s: string, i: nat): (r: Option<nat>)
    requires i <= |s|
    ensures r.Some? ==> i <= r.value <= |s| && MatchLen(p, s, r.value) > 0
    ensures r.Some? ==> forall j :: i <= j < r.value ==> MatchLen(p, s, j) == 0
    ensures r.None? ==> forall j :: i <= j <= |s| ==> MatchLen(p, s, j) == 0
    decreases |s| - i
  {
    if MatchLen(p, s, i) > 0 then Some(i)
    else if i == |s| then None
    else SearchFrom(p, s, i + 1)
  }

  /** The text of the leftmost match of `p` in `s`. */
  function Search(p: TsPattern, s: string): (r: Option<string>)
    ensures r.Some? <==> exists j :: 0 <= j <= |s| && MatchLen(p, s, j) > 0
    ensures r.Some? ==> |r.value| > 0
  {
    match SearchFrom(p, s, 0)
    case Some(j) => Some(s[j..j + MatchLen(p, s, j)])
    case None => None
  }

  /**
   * The text-branch timestamp: the date-time pattern is tried first and the
   * bare `HH:MM:SS` pattern only when it does not match anywhere.
   */
  function TextTimestamp(line: string): (r: Option<string>)
    ensures Search(DateTime, line).Some? ==> r == Search(DateTime, line)
    ensures Search(DateTime, line).None? ==> r == Search(Clock, line)
    ensures r.None? <==> forall j :: 0 <= j <= |line| ==>
                           MatchLen(DateTime, line, j) == 0 && MatchLen(Clock, line, j) == 0
  {
    match Search(DateTime, line)
    case Some(t) => Some(t)
    case None => Search(Clock, line)
  }

  // ---------------------------------------------------------------------------
  // Level words

  /** `w` occurs at `i` as a whole word: `\bw\b` for a word made of word characters. */
  predicate WordAt(s: string, w: string, i: int) {
    OccursAt(s, w, i)
    && (i == 0 || !IsWordChar(s[i - 1]))
    && (i + |w| == |s| || !IsWordChar(s[i + |w|]))
  }

  /** `re.search(r'\b' + w + r'\b', s)` (case-sensitive). */
  predicate ContainsWord(s: string, w: string) {
    exists i :: 0 <= i <= |s| - |w| && WordAt(s, w, i)
  }

  /** Index into `Levels` of the first level word found, or |Levels| when none is. */
  function FirstLevelIndex(line: string, k: nat): (i: nat)
    requires k <= |Levels|
    ensures k <= i <= |Levels|
    ensures forall j :: k <= j < i ==> !ContainsWord(line, Levels[j])
    ensures i < |Levels| ==> ContainsWord(line, Levels[i])
    decreases |Levels| - k
  {
    if k == |Levels| || ContainsWord(line, Levels[k]) then k
    else FirstLevelIndex(line, k + 1)
  }

  function NormalizeLevel(w: string): string {
    if w == "WARNING" then "WARN" else w
  }

  /**
   * The text-branch level: the first of ERROR, WARN, WARNING, INFO, DEBUG,
   * TRACE found as a whole word, WARNING reported as WARN, INFO when none.
   */
  function TextLevel(line: string): (r: string)
    ensures r in TextLevels
    ensures (forall j :: 0 <= j < |Levels| ==> !ContainsWord(line, Levels[j])) ==> r == "INFO"
    ensures forall j :: 0 <= j < |Levels| && ContainsWord(line, Levels[j]) &&
                        (forall i :: 0 <= i < j ==> !ContainsWord(line, Levels[i])) ==>
                        r == NormalizeLevel(Levels[j])
  {
    var i := FirstLevelIndex(line, 0);
    if i < |Levels| then NormalizeLevel(Levels[i]) else "INFO"
  }

  /**
   * `w` occurs at `i` up to case, as a pattern compiled with `re.I`
   * compares, and is followed by a non-word character or the end.
   */
  predicate MatchAt(s: string, i: nat, w: string) {
    && i + |w| <= |s|
    && (forall d :: 0 <= d < |w| ==> LowerChar(s[i + d]) == LowerChar(w[d]))
    && (i + |w| == |s| || !IsWordChar(s[i + |w|]))
  }

  /**
   * Length of the match of `(?:ERROR|WARN|WARNING|INFO|DEBUG|TRACE)\b`
   * (with `re.I`) at `i`, trying the alternatives from `Levels[k]` on in the
   * order the regex does; 0 for none.
   */
  function AlternationAt(s: string, i: nat, k: nat): (n: nat)
    requires i <= |s| && k <= |Levels|
    decreases |Levels| - k
  {
    if k == |Levels| then 0
    else if MatchAt(s, i, Levels[k]) then |Levels[k]|
    else AlternationAt(s, i, k + 1)
  }

  /** A non-empty word of upper-case letters. */
  predicate UpperWord(w: string) {
    |w| > 0 && forall d :: 0 <= d < |w| ==> 'A' <= w[d] <= 'Z'
  }

  /** Every level word is a non-empty run of upper-case letters. */
  lemma LevelsAreWords()
    ensures forall k :: 0 <= k < |Levels| ==> UpperWord(Levels[k])
  {
  }

  /** The end of the run of word characters that starts at `i`. */
  function RunEnd(s: string, i: nat): (e: nat)
    requires i <= |s|
    ensures i <= e <= |s| && (e == |s| || !IsWordChar(s[e]))
    ensures forall d :: i <= d < e ==> IsWordChar(s[d])
    decreases |s| - i
  {
    if i == |s| || !IsWordChar(s[i]) then i else RunEnd(s, i + 1)
  }

  /** A run of word characters followed by a non-word character or the end ends there. */
  lemma RunEndIs(s: string, i: nat, e: nat)
    requires i <= e <= |s| && (e == |s| || !IsWordChar(s[e]))
    requires forall d :: i <= d < e ==> IsWordChar(s[d])
    ensures RunEnd(s, i) == e
  {
  }

  /** Prefixing a character moves a run by one position. */
  lemma {:induction false} RunEndCons(c: char, y: string, j: nat)
    requires j <= |y|
    ensures RunEnd([c] + y, j + 1) == RunEnd(y, j) + 1
    decreases |y| - j
  {
    var x := [c] + y;
    assert forall d :: j <= d < |y| ==> x[d + 1] == y[d];
    if j < |y| && IsWordChar(y[j]) {
      RunEndCons(c, y, j + 1);
    }
  }

  // Removing whole words. `re.sub(r'\b(?:A|B|...)\b', '', s)` with alternatives
  // made of word characters removes, at each word boundary, the whole run of
  // word characters that starts there when it is one of the alternatives. The
  // removal is stated for any test `isWord` on runs; `IsLevelWord` is the
  // backend's.

  /** The length of the run of word characters at `i` when `isWord` accepts it; 0 otherwise. */
  function AcceptedRun(s: string, i: nat, isWord: string -> bool): (n: nat)
    requires i <= |s|
    ensures n == 0 || n == RunEnd(s, i) - i
  {
    var e := RunEnd(s, i);
    if isWord(s[i..e]) then e - i else 0
  }

  /** What the removal takes at `i`: nothing without a word boundary before `i`, else the accepted run. */
  function RemovableAt(s: string, i: nat, isWord: string -> bool): (n: nat)
    requires i <= |s|
    ensures n == 0 || n == RunEnd(s, i) - i
  {
    if i > 0 && IsWordChar(s[i - 1]) then 0 else AcceptedRun(s, i, isWord)
  }

  /** The removal, scanning left to right from `i` and resuming after each removed word. */
  function RemoveWordsFrom(s: string, i: nat, isWord: string -> bool): (r: string)
    requires i <= |s|
    ensures |r| <= |s| - i
    decreases |s| - i
  {
    if i == |s| then []
    else
      var n := RemovableAt(s, i, isWord);
      if n > 0 then RemoveWordsFrom(s, i + n, isWord)
      else [s[i]] + RemoveWordsFrom(s, i + 1, isWord)
  }

  /** Nothing is removable anywhere in `s`. */
  predicate NoRemovable(s: string, isWord: string -> bool) {
    forall j :: 0 <= j <= |s| ==> RemovableAt(s, j, isWord) == 0
  }

  /** The characters of `s` that are not word characters, in order. */
  function NonWordChars(s: string): string {
    if s == [] then [] else (if IsWordChar(s[0]) then [] else [s[0]]) + NonWordChars(s[1..])
  }

  /** Nothing is removed from a text where nothing is removable. */
  lemma {:induction false} RemovedUnchanged(s: string, i: nat, isWord: string -> bool)
    requires i <= |s|
    ensures (forall j :: i <= j < |s| ==> RemovableAt(s, j, isWord) == 0) ==> RemoveWordsFrom(s, i, isWord) == s[i..]
    decreases |s| - i
  {
    if i < |s| && forall j :: i <= j < |s| ==> RemovableAt(s, j, isWord) == 0 {
      RemovedUnchanged(s, i + 1, isWord);
      assert s[i..] == [s[i]] + s[i + 1..];
    }
  }

  /** Whether a run is accepted depends only on the run. */
  lemma AcceptedRunShared(s: string, i: nat, t: string, j: nat, isWord: string -> bool)
    requires i <= |s| && j <= |t|
    requires s[i..RunEnd(s, i)] == t[j..RunEnd(t, j)]
    ensures AcceptedRun(s, i, isWord) == AcceptedRun(t, j, isWord)
  {
  }

  /** Nothing is removable at a non-word character or at the end. */
  lemma NotAcceptedAtNonWord(x: string, p: nat, isWord: string -> bool)
    requires !isWord([])
    requires p <= |x| && (p == |x| || !IsWordChar(x[p]))
    ensures AcceptedRun(x, p, isWord) == 0
  {
    assert x[p..RunEnd(x, p)] == [];
  }

  /** Prefixing a character shifts the removal test by one position. */
  lemma RemovableAtCons(c: char, y: string, j: nat, isWord: string -> bool)
    requires j <= |y|
    ensures RemovableAt([c] + y, j + 1, isWord) ==
            if j == 0 then (if IsWordChar(c) then 0 else AcceptedRun(y, 0, isWord)) else RemovableAt(y, j, isWord)
  {
    var x := [c] + y;
    RunEndCons(c, y, j);
    assert x[j + 1..RunEnd(x, j + 1)] == y[j..RunEnd(y, j)];
    AcceptedRunShared(x, j + 1, y, j, isWord);
    if j > 0 {
      assert x[j] == y[j - 1];
    }
  }

  /** Inside a run of word characters nothing is removed up to the run's end. */
  lemma {:induction false} KeepRun(s: string, i: nat, isWord: string -> bool)
    requires 0 < i <= |s| && IsWordChar(s[i - 1])
    ensures RemoveWordsFrom(s, i, isWord) == s[i..RunEnd(s, i)] + RemoveWordsFrom(s, RunEnd(s, i), isWord)
    decreases |s| - i
  {
    if i < |s| && IsWordChar(s[i]) {
      KeepRun(s, i + 1, isWord);
      assert s[i..RunEnd(s, i)] == [s[i]] + s[i + 1..RunEnd(s, i + 1)];
    }
  }

  /** A run of word characters followed by a non-word character or nothing is the run at the start. */
  lemma RunEndAppend(x: string, y: string)
    requires forall d :: 0 <= d < |x| ==> IsWordChar(x[d])
    requires y == [] || !IsWordChar(y[0])
    ensures RunEnd(x + y, 0) == |x|
  {
    assert forall d :: 0 <= d < |x| ==> (x + y)[d] == x[d];
    if y != [] {
      assert (x + y)[|x|] == y[0];
    }
    RunEndIs(x + y, 0, |x|);
  }

  /** A slice is its first character followed by the rest. */
  lemma SliceCons(s: string, i: nat, e: nat)
    requires i < e <= |s|
    ensures s[i..e] == [s[i]] + s[i + 1..e]
  {
  }

  /** A run through a word character at `i` ends where the run from `i + 1` does. */
  lemma RunEndStep(s: string, i: nat)
    requires i < |s| && IsWordChar(s[i])
    ensures RunEnd(s, i) == RunEnd(s, i + 1)
  {
  }

  /** Putting a character in front of a concatenation. */
  lemma ConsAppend(c: char, x: string, y: string)
    ensures [c] + (x + y) == ([c] + x) + y
  {
  }

  /** A slice of a slice is a slice of the whole. */
  lemma SliceOfSlice(t: string, a: nat, b: nat, x: nat, y: nat)
    requires a <= b <= |t| && x <= y <= b - a
    ensures t[a..b][x..y] == t[a + x..a + y]
  {
    var u := t[a..b][x..y];
    forall d | 0 <= d < y - x
      ensures u[d] == t[a + x + d]
    {
      assert u[d] == t[a..b][x + d];
    }
  }

  /** A character that is not removed is kept in front of what follows. */
  lemma KeptChar(s: string, i: nat, isWord: string -> bool)
    requires i < |s| && RemovableAt(s, i, isWord) == 0
    ensures RemoveWordsFrom(s, i, isWord) == [s[i]] + RemoveWordsFrom(s, i + 1, isWord)
  {
  }

  /** A kept word character keeps the rest of its run. */
  lemma KeptPrefix(s: string, i: nat, isWord: string -> bool)
    requires i < |s| && IsWordChar(s[i]) && RemovableAt(s, i, isWord) == 0
    ensures RemoveWordsFrom(s, i, isWord) == s[i..RunEnd(s, i)] + RemoveWordsFrom(s, RunEnd(s, i), isWord)
  {
    var e := RunEnd(s, i + 1);
    RunEndStep(s, i);
    KeptChar(s, i, isWord);
    KeepRun(s, i + 1, isWord);
    SliceCons(s, i, e);
    ConsAppend(s[i], s[i + 1..e], RemoveWordsFrom(s, e, isWord));
  }

  /** What is left after the end of a run starts with a non-word character, if with anything. */
  lemma TailAfterRun(s: string, e: nat, isWord: string -> bool)
    requires 0 < e <= |s| && IsWordChar(s[e - 1]) && (e == |s| || !IsWordChar(s[e]))
    ensures var tail := RemoveWordsFrom(s, e, isWord);
            tail == [] || !IsWordChar(tail[0])
  {
    if e < |s| {
      assert RemovableAt(s, e, isWord) == 0;
    }
  }

  /** At a word boundary, a kept run of word characters is still a whole, unaccepted run afterwards. */
  lemma RunStartKept(s: string, i: nat, isWord: string -> bool)
    requires i < |s| && (i == 0 || !IsWordChar(s[i - 1])) && IsWordChar(s[i])
    requires RemovableAt(s, i, isWord) == 0
    ensures AcceptedRun(RemoveWordsFrom(s, i, isWord), 0, isWord) == 0
  {
    var r := RemoveWordsFrom(s, i, isWord);
    var e := RunEnd(s, i);
    KeptPrefix(s, i, isWord);
    TailAfterRun(s, e, isWord);
    var tail := RemoveWordsFrom(s, e, isWord);
    RunEndAppend(s[i..e], tail);
    assert r[0..e - i] == s[i..e];
    AcceptedRunShared(r, 0, s, i, isWord);
  }

  /**
   * What remains from `i` has nothing removable after its first character,
   * and nothing at its start either when `i` is at a word boundary.
   */
  lemma {:induction false} RemovedHasNoWord(s: string, i: nat, isWord: string -> bool)
    requires i <= |s| && !isWord([])
    ensures var r := RemoveWordsFrom(s, i, isWord);
            && (forall j :: 1 <= j <= |r| ==> RemovableAt(r, j, isWord) == 0)
            && ((i == 0 || !IsWordChar(s[i - 1])) ==> AcceptedRun(r, 0, isWord) == 0)
    decreases |s| - i, 0
  {
    if i < |s| {
      var n := RemovableAt(s, i, isWord);
      var r := RemoveWordsFrom(s, i, isWord);
      if n > 0 {
        var e := RunEnd(s, i);
        SkipScan(s, i, isWord);
        RemovedHasNoWord(s, e, isWord);
        assert IsWordChar(s[e - 1]);
        TailAfterRun(s, e, isWord);
        NotAcceptedAtNonWord(r, 0, isWord);
      } else {
        var rest := RemoveWordsFrom(s, i + 1, isWord);
        RemovedHasNoWord(s, i + 1, isWord);
        assert r == [s[i]] + rest;
        forall j | 1 <= j <= |r|
          ensures RemovableAt(r, j, isWord) == 0
        {
          RemovableAtCons(s[i], rest, j - 1, isWord);
          if j > 1 {
            RemovedHasNoWordAt(s, i + 1, isWord, j - 1);
          } else if !IsWordChar(s[i]) {
            assert AcceptedRun(rest, 0, isWord) == 0;
          }
        }
        if i == 0 || !IsWordChar(s[i - 1]) {
          if IsWordChar(s[i]) {
            RunStartKept(s, i, isWord);
          } else {
            NotAcceptedAtNonWord(r, 0, isWord);
          }
        }
      }
    }
  }

  /** One position of `RemovedHasNoWord`. */
  lemma {:induction false} RemovedHasNoWordAt(s: string, i: nat, isWord: string -> bool, j: nat)
    requires i <= |s| && !isWord([]) && 1 <= j <= |RemoveWordsFrom(s, i, isWord)|
    ensures RemovableAt(RemoveWordsFrom(s, i, isWord), j, isWord) == 0
    decreases |s| - i, 1
  {
    RemovedHasNoWord(s, i, isWord);
  }

  /** Skipping word characters skips no non-word character. */
  lemma {:induction false} SkipWordChars(s: string, i: nat, e: nat)
    requires i <= e <= |s| && forall d :: i <= d < e ==> IsWordChar(s[d])
    ensures NonWordChars(s[i..]) == NonWordChars(s[e..])
    decreases e - i
  {
    if i < e {
      assert s[i..][1..] == s[i + 1..];
      SkipWordChars(s, i + 1, e);
    }
  }

  /** The removal deletes word characters only. */
  lemma {:induction false} RemovedKeepsNonWord(s: string, i: nat, isWord: string -> bool)
    requires i <= |s|
    ensures NonWordChars(RemoveWordsFrom(s, i, isWord)) == NonWordChars(s[i..])
    decreases |s| - i
  {
    if i < |s| {
      var n := RemovableAt(s, i, isWord);
      if n > 0 {
        RemovedKeepsNonWord(s, i + n, isWord);
        SkipWordChars(s, i, i + n);
      } else {
        RemovedKeepsNonWord(s, i + 1, isWord);
        var rest := RemoveWordsFrom(s, i + 1, isWord);
        assert ([s[i]] + rest)[1..] == rest;
        assert s[i..][1..] == s[i + 1..];
      }
    }
  }

  /** The start of the run of word characters that ends at `p` or runs through it. */
  function RunStart(s: string, p: nat): (j: nat)
    requires p <= |s|
    ensures j <= p && (j == 0 || !IsWordChar(s[j - 1]))
    ensures forall d :: j <= d < p ==> IsWordChar(s[d])
  {
    if p == 0 || !IsWordChar(s[p - 1]) then p else RunStart(s, p - 1)
  }

  /**
   * `s[p]` lies in a whole word the removal deletes: it is a word character
   * and the run of word characters around it is removable where it starts.
   */
  predicate InRemovedWord(s: string, p: nat, isWord: string -> bool)
    requires p < |s|
  {
    IsWordChar(s[p]) && RemovableAt(s, RunStart(s, p), isWord) > 0
  }

  /** The characters of `s` from `i` on that lie in no removed word, in order. */
  function KeptFrom(s: string, i: nat, isWord: string -> bool): string
    requires i <= |s|
    decreases |s| - i
  {
    if i == |s| then []
    else (if InRemovedWord(s, i, isWord) then [] else [s[i]]) + KeptFrom(s, i + 1, isWord)
  }

  /** Inside a run of word characters that starts at a word boundary, the run starts there. */
  lemma {:induction false} RunStartIs(s: string, i: nat, q: nat)
    requires i <= q <= |s| && (i == 0 || !IsWordChar(s[i - 1]))
    requires forall d :: i <= d < q ==> IsWordChar(s[d])
    ensures RunStart(s, q) == i
    decreases q - i
  {
    if i < q {
      RunStartIs(s, i, q - 1);
    }
  }

  /** Every character of a removed word is dropped from what is kept. */
  lemma {:induction false} SkipRemovedWord(s: string, i: nat, q: nat, isWord: string -> bool)
    requires i <= |s| && RemovableAt(s, i, isWord) > 0
    requires i <= q <= RunEnd(s, i)
    ensures KeptFrom(s, q, isWord) == KeptFrom(s, RunEnd(s, i), isWord)
    decreases RunEnd(s, i) - q
  {
    if q < RunEnd(s, i) {
      RunStartIs(s, i, q);
      assert InRemovedWord(s, q, isWord);
      SkipRemovedWord(s, i, q + 1, isWord);
    }
  }

  /** The scan is at `i` and not strictly inside a removed word. */
  predicate ScanPoint(s: string, i: nat, isWord: string -> bool)
    requires i <= |s|
  {
    i == 0 || i == |s| || !IsWordChar(s[i - 1]) || !IsWordChar(s[i]) || !InRemovedWord(s, i - 1, isWord)
  }

  /** A removed word is skipped as a whole. */
  lemma SkipScan(s: string, i: nat, isWord: string -> bool)
    requires i < |s| && RemovableAt(s, i, isWord) > 0
    ensures RunEnd(s, i) > i && ScanPoint(s, RunEnd(s, i), isWord)
    ensures RemoveWordsFrom(s, i, isWord) == RemoveWordsFrom(s, RunEnd(s, i), isWord)
  {
  }

  /** A character outside removed words is kept in front of the rest. */
  lemma KeptStep(s: string, i: nat, isWord: string -> bool)
    requires i < |s| && !InRemovedWord(s, i, isWord)
    ensures KeptFrom(s, i, isWord) == [s[i]] + KeptFrom(s, i + 1, isWord)
    ensures ScanPoint(s, i + 1, isWord)
  {
  }

  /**
   * From any position that is not strictly inside a removed word, the scan
   * keeps exactly the characters that lie in no removed word.
   */
  lemma {:induction false} RemovedIsKept(s: string, i: nat, isWord: string -> bool)
    requires i <= |s| && ScanPoint(s, i, isWord)
    ensures RemoveWordsFrom(s, i, isWord) == KeptFrom(s, i, isWord)
    decreases |s| - i
  {
    if i < |s| {
      if RemovableAt(s, i, isWord) > 0 {
        SkipRemovedWord(s, i, i, isWord);
        SkipScan(s, i, isWord);
        RemovedIsKept(s, RunEnd(s, i), isWord);
      } else {
        NotInRemovedWord(s, i, isWord);
        KeptChar(s, i, isWord);
        KeptStep(s, i, isWord);
        RemovedIsKept(s, i + 1, isWord);
      }
    }
  }

  /** A character the scan keeps, at a position not strictly inside a removed word, lies in no removed word. */
  lemma NotInRemovedWord(s: string, i: nat, isWord: string -> bool)
    requires i < |s| && RemovableAt(s, i, isWord) == 0 && ScanPoint(s, i, isWord)
    ensures !InRemovedWord(s, i, isWord)
  {
    if IsWordChar(s[i]) {
      if i > 0 && IsWordChar(s[i - 1]) {
        assert RunStart(s, i) == RunStart(s, i - 1);
      } else {
        assert RunStart(s, i) == i;
      }
    }
  }

  /** Cutting non-word characters off both ends of a text with nothing removable leaves nothing removable. */
  lemma CutKeepsNoRemovable(t: string, r: string, cut: char -> bool, isWord: string -> bool)
    requires forall c :: cut(c) ==> !IsWordChar(c)
    requires NoRemovable(t, isWord) && CutFrom(t, r, cut)
    ensures NoRemovable(r, isWord)
  {
    var a, b :| 0 <= a <= b <= |t| && r == t[a..b]
                && (forall i :: 0 <= i < a ==> cut(t[i]))
                && (forall i :: b <= i < |t| ==> cut(t[i]));
    forall j | 0 <= j <= |r|
      ensures RemovableAt(r, j, isWord) == 0
    {
      CutRemovableAt(t, a, b, j, isWord);
    }
  }

  /** One position of `CutKeepsNoRemovable`. */
  lemma CutRemovableAt(t: string, a: nat, b: nat, j: nat, isWord: string -> bool)
    requires a <= b <= |t| && j <= b - a
    requires a == 0 || !IsWordChar(t[a - 1])
    requires b == |t| || !IsWordChar(t[b])
    requires RemovableAt(t, a + j, isWord) == 0
    ensures RemovableAt(t[a..b], j, isWord) == 0
  {
    if j > 0 {
      assert t[a..b][j - 1] == t[a + j - 1];
    }
    AcceptedInSlice(t, a, b, a + j, isWord);
  }

  /** The run at `p` is accepted in the slice exactly when it is in the whole text. */
  lemma AcceptedInSlice(t: string, a: nat, b: nat, p: nat, isWord: string -> bool)
    requires a <= p <= b <= |t| && (b == |t| || !IsWordChar(t[b]))
    ensures AcceptedRun(t[a..b], p - a, isWord) == AcceptedRun(t, p, isWord)
  {
    var e := RunEnd(t, p);
    RunEndSlice(t, a, b, p);
    assert e <= b;
    SliceOfSlice(t, a, b, p - a, e - a);
    AcceptedRunShared(t[a..b], p - a, t, p, isWord);
  }

  /** A run inside a slice that ends at a non-word character or the end is the same run. */
  lemma {:induction false} RunEndSlice(t: string, a: nat, b: nat, p: nat)
    requires a <= p <= b <= |t| && (b == |t| || !IsWordChar(t[b]))
    ensures RunEnd(t[a..b], p - a) == RunEnd(t, p) - a
    decreases b - p
  {
    if p < b {
      assert t[a..b][p - a] == t[p];
      if IsWordChar(t[p]) {
        RunEndSlice(t, a, b, p + 1);
      }
    }
  }

  /** A level word, up to case. */
  predicate IsLevelWord(w: string) {
    Upper(w) in Levels
  }

  /** The level word removed at `i`. */
  function LevelWordAt(s: string, i: nat): (n: nat)
    requires i <= |s|
    ensures n > 0 ==> i + n <= |s|
  {
    RemovableAt(s, i, IsLevelWord)
  }

  /** No level word would be removed anywhere in `s`. */
  predicate NoLevelWord(s: string) {
    NoRemovable(s, IsLevelWord)
  }

  /** For an upper-case letter, equality up to case is equality after upper-casing. */
  lemma UpperCharIgnoreCase(c: char, w: char)
    requires 'A' <= w <= 'Z'
    ensures UpperChar(c) == w <==> LowerChar(c) == LowerChar(w)
  {
  }

  /** An alternative matches exactly when it is the upper-cased run at `i`. */
  lemma MatchIsRun(s: string, i: nat, w: string)
    requires i <= |s| && UpperWord(w)
    ensures MatchAt(s, i, w) <==> Upper(s[i..RunEnd(s, i)]) == w
  {
    var e := RunEnd(s, i);
    var run := s[i..e];
    forall d | 0 <= d < |w| && i + d < |s|
      ensures UpperChar(s[i + d]) == w[d] <==> LowerChar(s[i + d]) == LowerChar(w[d])
    {
      UpperCharIgnoreCase(s[i + d], w[d]);
    }
    if MatchAt(s, i, w) {
      forall d | i <= d < i + |w|
        ensures IsWordChar(s[d])
      {
        assert LowerChar(s[i + (d - i)]) == LowerChar(w[d - i]);
      }
      RunEndIs(s, i, i + |w|);
      assert forall d :: 0 <= d < |w| ==> Upper(run)[d] == UpperChar(s[i + d]);
    }
    if Upper(run) == w {
      assert forall d :: 0 <= d < |w| ==> w[d] == Upper(run)[d] == UpperChar(s[i + d]);
    }
  }

  /** Trying the alternatives from `Levels[k]` finds the run at `i` exactly when it is one of them. */
  lemma {:induction false} AlternationIsRun(s: string, i: nat, k: nat)
    requires i <= |s| && k <= |Levels|
    ensures AlternationAt(s, i, k) == if Upper(s[i..RunEnd(s, i)]) in Levels[k..] then RunEnd(s, i) - i else 0
    decreases |Levels| - k
  {
    if k < |Levels| {
      AlternationIsRun(s, i, k + 1);
      LevelsAreWords();
      MatchIsRun(s, i, Levels[k]);
      assert Levels[k..] == [Levels[k]] + Levels[k + 1..];
    }
  }

  /**
   * The removal test is the regex's: a word boundary before `i`, then the
   * first alternative that matches and ends at a word boundary.
   */
  lemma LevelWordAtIsRegex(s: string, i: nat)
    requires i <= |s|
    ensures LevelWordAt(s, i) == if i > 0 && IsWordChar(s[i - 1]) then 0 else AlternationAt(s, i, 0)
  {
    AlternationIsRun(s, i, 0);
    assert Levels[0..] == Levels;
  }

  /** `LevelWordAt` is the removal test on level words. */
  lemma LevelWordFree(s: string)
    ensures (forall j :: 0 <= j < |s| ==> LevelWordAt(s, j) == 0) ==>
            (forall j :: 0 <= j < |s| ==> RemovableAt(s, j, IsLevelWord) == 0)
  {
    if forall j :: 0 <= j < |s| ==> LevelWordAt(s, j) == 0 {
      forall j | 0 <= j < |s|
        ensures RemovableAt(s, j, IsLevelWord) == 0
      {
        assert LevelWordAt(s, j) == 0;
      }
    }
  }

  /**
   * `re.sub(r'\b(?:ERROR|WARN|WARNING|INFO|DEBUG|TRACE)\b', '', s, flags=re.I)`.
   * It leaves no level word behind (a removed word has non-word characters
   * or an end on both sides, so no new word forms where it was), deletes
   * word characters only, and changes nothing in a text without level words.
   */
  function RemoveLevelWords(s: string): (r: string)
    ensures |r| <= |s|
    ensures (forall j :: 0 <= j < |s| ==> LevelWordAt(s, j) == 0) ==> r == s
    ensures NoLevelWord(r)
    ensures NonWordChars(r) == NonWordChars(s)
  {
    assert Upper([]) == [];
    RemovedHasNoWord(s, 0, IsLevelWord);
    RemovedKeepsNonWord(s, 0, IsLevelWord);
    LevelWordFree(s);
    RemovedUnchanged(s, 0, IsLevelWord);
    assert s[0..] == s;
    RemoveWordsFrom(s, 0, IsLevelWord)
  }

  /**
   * What the removal keeps, position by position: exactly the characters
   * that lie in no whole level word starting at a word boundary, in order.
   */
  lemma RemoveLevelWordsKeeps(s: string)
    ensures RemoveLevelWords(s) == KeptFrom(s, 0, IsLevelWord)
  {
    RemovedIsKept(s, 0, IsLevelWord);
  }

  /** The characters `msg.strip(' -:\t')` removes. */
  predicate IsMessageTrim(c: char) {
    c == ' ' || c == '-' || c == ':' || c == '\t'
  }

  // ---------------------------------------------------------------------------
  // One line

  /** The text branch: timestamp and level scanning on the line as read. */
  function TextBranch(line: string): (r: Parsed)
    ensures r.level in TextLevels
    ensures r.level == TextLevel(line)
    ensures r.time == match TextTimestamp(line) case Some(t) => Str(t) case None => Null
    ensures TextTimestamp(line).None? ==> r.message == TrimMessage(line)
    ensures TextTimestamp(line).Some? ==> r.message == TrimMessage(RemoveAll(line, TextTimestamp(line).value))
    ensures NoLevelWord(r.message)
    ensures r.message != [] ==> !IsMessageTrim(r.message[0]) && !IsMessageTrim(r.message[|r.message| - 1])
  {
    var ts := TextTimestamp(line);
    var msg := match ts case Some(t) => RemoveAll(line, t) case None => line;
    Parsed(match ts case Some(t) => Str(t) case None => Null, TextLevel(line), TrimMessage(msg))
  }

  /**
   * The level words removed, then `.strip(' -:\t')`: a slice of the text
   * without level words, cut only at ' ', '-', ':' and tab, and still
   * without level words.
   */
  function TrimMessage(msg: string): (r: string)
    ensures CutFrom(RemoveLevelWords(msg), r, IsMessageTrim)
    ensures NoLevelWord(r)
    ensures r != [] ==> !IsMessageTrim(r[0]) && !IsMessageTrim(r[|r| - 1])
  {
    var t := RemoveLevelWords(msg);
    var r := StripBy(t, IsMessageTrim);
    CutKeepsNoRemovable(t, r, IsMessageTrim, IsLevelWord);
    r
  }

  /** The key lookups of the JSON branch, given the decoded value of the stripped line `s`. */
  function JsonFields(s: string, v: Value): Option<Parsed> {
    if !v.Obj? then None
    else
      var o := v.fields;
      var ts := FirstTruthy([Get(o, "ts"), Get(o, "time"), Get(o, "@timestamp")], Get(o, "timestamp"));
      var lv := FirstTruthy([Get(o, "level"), Get(o, "severity"), Get(o, "lvl")], Str("INFO"));
      if !lv.Str? then None
      else
        var up := Upper(lv.s);
        var msg := FirstTruthy([Get(o, "message"), Get(o, "msg"), Get(o, "log")], Str(s));
        Some(Parsed(ts, if up == "WARNING" then "WARN" else up, Strip(Show(msg))))
  }

  /** The JSON branch: None where Python's try block raises. */
  function JsonBranch(s: string, decode: string -> Option<Value>): Option<Parsed> {
    match decode(s)
    case None => None
    case Some(v) => JsonFields(s, v)
  }

  predicate JsonShaped(s: string) {
    StartsWith(s, "{") && EndsWith(s, "}")
  }

  /** `_parse_line`: the JSON branch when the stripped line looks like an object and it succeeds. */
  function ParseLine(line: string, decode: string -> Option<Value>): Parsed {
    var s := Strip(line);
    if JsonShaped(s) then
      match JsonBranch(s, decode)
      case Some(p) => p
      case None => TextBranch(line)
    else TextBranch(line)
  }

  /**
   * The JSON branch is taken only for a stripped line that starts with '{'
   * and ends with '}', and only when decoding gives an object whose chosen
   * level is a string; in every other case the line goes to the text branch.
   */
  lemma JsonBranchTaken(line: string, decode: string -> Option<Value>)
    ensures var s := Strip(line);
            var taken := JsonShaped(s) && decode(s).Some? && decode(s).value.Obj? &&
                         FirstTruthy([Get(decode(s).value.fields, "level"), Get(decode(s).value.fields, "severity"),
                                      Get(decode(s).value.fields, "lvl")], Str("INFO")).Str?;
            (taken ==> ParseLine(line, decode) == JsonFields(s, decode(s).value).value) &&
            (!taken ==> ParseLine(line, decode) == TextBranch(line))
  {
  }

  /**
   * JSON-branch key precedence: the time is the first truthy of ts, time,
   * @timestamp (else whatever timestamp holds), the level the upper-cased
   * first truthy of level, severity, lvl (else INFO) with WARNING as WARN,
   * and the message the stripped text of the first truthy of message, msg,
   * log (else the stripped line).
   */
  lemma JsonKeyPrecedence(s: string, o: map<string, Value>, level: string)
    requires FirstTruthy([Get(o, "level"), Get(o, "severity"), Get(o, "lvl")], Str("INFO")) == Str(level)
    ensures var p := JsonFields(s, Obj(o));
            && p.Some?
            && p.value.time == FirstTruthy([Get(o, "ts"), Get(o, "time"), Get(o, "@timestamp")], Get(o, "timestamp"))
            && p.value.level == NormalizeLevel(Upper(level))
            && p.value.message == Strip(Show(FirstTruthy([Get(o, "message"), Get(o, "msg"), Get(o, "log")], Str(s))))
            && (p.value.message != [] ==> !IsSpace(p.value.message[0]))
  {
  }

  /** A decoded object whose only key is `level`, holding `critical`, gives the level CRITICAL. */
  lemma CriticalFields(s: string, o: map<string, Value>)
    requires o == map["level" := Str("critical")]
    ensures FirstTruthy([Get(o, "level"), Get(o, "severity"), Get(o, "lvl")], Str("INFO")).Str?
    ensures JsonFields(s, Obj(o)).Some? && JsonFields(s, Obj(o)).value.level == "CRITICAL"
  {
    assert Truthy(Get(o, "level"));
    assert FirstTruthyIndex([Get(o, "level"), Get(o, "severity"), Get(o, "lvl")]) == 0;
    assert Upper("critical") == "CRITICAL";
  }

  /**
   * The JSON branch can report a level outside the five text-branch levels:
   * every line that looks like an object, decoded as `{"level": "critical"}`.
   */
  lemma JsonLevelIsOpen(line: string)
    ensures var decode := (s: string) => Some(Obj(map["level" := Str("critical")]));
            JsonShaped(Strip(line)) ==> ParseLine(line, decode).level == "CRITICAL"
  {
    var decode := (s: string) => Some(Obj(map["level" := Str("critical")]));
    CriticalFields(Strip(line), map["level" := Str("critical")]);
    JsonBranchTaken(line, decode);
  }

  /** A line that does not look like a JSON object always gets one of the five text levels. */
  lemma PlainLineLevel(line: string, decode: string -> Option<Value>)
    requires !JsonShaped(Strip(line))
    ensures ParseLine(line, decode).level in TextLevels
    ensures ParseLine(line, decode).level == TextLevel(line)
  {
  }

  /**
   * A message with no level word (in any case) keeps its text, with only
   * ' ', '-', ':' and tab trimmed from both ends.
   */
  lemma TrimPlainMessage(msg: string)
    requires forall j :: 0 <= j < |msg| ==> LevelWordAt(msg, j) == 0
    ensures TrimMessage(msg) == StripBy(msg, IsMessageTrim)
  {
    assert RemoveLevelWords(msg) == msg;
  }

  // ---------------------------------------------------------------------------
  // Files

  /** How opening a file turned out: its physical lines (without terminators), or an error. */
  datatype FileRead = Lines(lines: seq<string>) | NotFound | Unreadable(reason: string)

  datatype LogFile = LogFile(path: string, read: FileRead)

  datatype Event = Event(time: Value, level: string, message: string, source: string)

  /** A non-blank line and the name of the file it came from. */
  datatype SourcedLine = SourcedLine(source: string, text: string)

  datatype TriageReport = TriageReport(
    events: seq<Event>,
    topLines: seq<string>,
    counts: map<string, nat>,
    hint: Option<string>,
    allText: seq<string>)

  /** The non-blank lines of one file, in order. */
  function FileLines(source: string, lines: seq<string>): (r: seq<SourcedLine>)
    ensures |r| <= |lines|
  {
    if lines == [] then []
    else
      var last := lines[|lines| - 1];
      FileLines(source, lines[..|lines| - 1]) + if IsBlank(last) then [] else [SourcedLine(source, last)]
  }

  /** The non-blank lines a file contributes: none when it is missing or unreadable. */
  function FileContribution(f: LogFile): seq<SourcedLine> {
    if f.read.Lines? then FileLines(BaseName(f.path), f.read.lines) else []
  }

  /** The non-blank lines of all files, file by file. */
  function SourcedLines(files: seq<LogFile>): seq<SourcedLine> {
    ConcatMap(files, FileContribution)
  }

  /** `parse_line` with the decoder fixed. */
  function LineParser(decode: string -> Option<Value>): string -> Parsed {
    line => ParseLine(line, decode)
  }

  function EventOf(l: SourcedLine, parse: string -> Parsed): (e: Event)
    ensures e.source == l.source
  {
    var p := parse(l.text);
    Event(p.time, p.level, p.message, l.source)
  }

  predicate IsSignal(level: string) {
    level == "ERROR" || level == "WARN"
  }

  function EvidenceLine(e: Event): string {
    e.source + ": " + e.message
  }

  /** `source: msg` for every ERROR or WARN event, duplicates included. */
  function EvidenceOf(events: seq<Event>): (r: seq<string>)
    ensures |r| <= |events|
  {
    if events == [] then []
    else
      var e := events[|events| - 1];
      EvidenceOf(events[..|events| - 1]) + if IsSignal(e.level) then [EvidenceLine(e)] else []
  }

  function Lookup(m: map<string, nat>, k: string): nat {
    if k in m then m[k] else 0
  }

  /** The Counter of ERROR and WARN events; a level with no event has no key. */
  function CountsOf(events: seq<Event>): (c: map<string, nat>)
    ensures forall k :: k in c ==> IsSignal(k) && c[k] > 0
  {
    if events == [] then map[]
    else
      var c := CountsOf(events[..|events| - 1]);
      var e := events[|events| - 1];
      if IsSignal(e.level) then c[e.level := Lookup(c, e.level) + 1] else c
  }

  /** Index of the first occurrence of `x`. */
  function FirstIndex<T(==)>(xs: seq<T>, x: T): (i: nat)
    requires x in xs
    ensures i < |xs| && xs[i] == x && x !in xs[..i]
  {
    if xs[0] == x then 0
    else
      var i := FirstIndex(xs[1..], x);
      assert xs[..i + 1] == [xs[0]] + xs[1..][..i];
      i + 1
  }

  predicate NoDuplicates<T(==)>(xs: seq<T>) {
    forall i, j :: 0 <= i < j < |xs| ==> xs[i] != xs[j]
  }

  /** The seen-set de-duplication: first occurrences, in order. */
  function Dedup(xs: seq<string>): (r: seq<string>)
    ensures forall x :: x in r <==> x in xs
    ensures NoDuplicates(r)
    ensures |r| <= |xs|
  {
    if xs == [] then []
    else
      var d := Dedup(xs[..|xs| - 1]);
      var x := xs[|xs| - 1];
      assert xs == xs[..|xs| - 1] + [x];
      if x in d then d else d + [x]
  }

  /** The joined, lower-cased text mentions `w`. */
  predicate Mentions(allText: seq<string>, w: string) {
    Contains(Lower(Join(" ", allText)), w)
  }

  const PoolHint: string := "Database pool exhaustion/timeout observed; multiple services impacted."
  const ExceptionHint: string := "Exceptions detected; see top error lines."

  function Hint(allText: seq<string>): Option<string> {
    if Mentions(allText, "pool") && Mentions(allText, "timeout") then Some(PoolHint)
    else if Mentions(allText, "exception") then Some(ExceptionHint)
    else None
  }

  function Texts(ls: seq<SourcedLine>): (r: seq<string>)
    ensures |r| == |ls| && forall k :: 0 <= k < |ls| ==> r[k] == ls[k].text
  {
    seq(|ls|, k requires 0 <= k < |ls| => ls[k].text)
  }

  function Events(ls: seq<SourcedLine>, parse: string -> Parsed): (r: seq<Event>)
    ensures |r| == |ls| && forall k :: 0 <= k < |ls| ==> r[k] == EventOf(ls[k], parse)
  {
    seq(|ls|, k requires 0 <= k < |ls| => EventOf(ls[k], parse))
  }

  /** Index of the first file whose opening raises something other than FileNotFoundError. */
  function FirstUnreadable(files: seq<LogFile>): (i: nat)
    ensures i <= |files|
    ensures forall j :: 0 <= j < i ==> !files[j].read.Unreadable?
    ensures i < |files| ==> files[i].read.Unreadable?
  {
    if files == [] || files[0].read.Unreadable? then 0
    else
      var i := FirstUnreadable(files[1..]);
      assert forall j :: 1 <= j < i + 1 ==> files[j] == files[1..][j - 1];
      i + 1
  }

  /** The report built from the non-blank lines read, in order. */
  function ReportOf(ls: seq<SourcedLine>, parse: string -> Parsed): TriageReport {
    var events := Events(ls, parse);
    var texts := Texts(ls);
    TriageReport(events, Dedup(EvidenceOf(events)), CountsOf(events), Hint(texts), texts)
  }

  /** What `parse_log_files` returns, or the error it raises. */
  function Triage(files: seq<LogFile>, decode: string -> Option<Value>): Result<TriageReport, string> {
    var k := FirstUnreadable(files);
    if k < |files| then Failure(files[k].read.reason)
    else Success(ReportOf(SourcedLines(files), LineParser(decode)))
  }

  lemma EventsSnoc(ls: seq<SourcedLine>, x: SourcedLine, parse: string -> Parsed)
    ensures Events(ls + [x], parse) == Events(ls, parse) + [EventOf(x, parse)]
    ensures Texts(ls + [x]) == Texts(ls) + [x.text]
  {
  }

  lemma EvidenceSnoc(events: seq<Event>, e: Event)
    ensures EvidenceOf(events + [e]) == EvidenceOf(events) + if IsSignal(e.level) then [EvidenceLine(e)] else []
    ensures CountsOf(events + [e]) == if IsSignal(e.level) then CountsOf(events)[e.level := Lookup(CountsOf(events), e.level) + 1]
                                      else CountsOf(events)
  {
    assert (events + [e])[..|events|] == events;
  }

  lemma FileLinesSnoc(source: string, ls: seq<string>, j: nat)
    requires j < |ls|
    ensures FileLines(source, ls[..j + 1]) ==
            FileLines(source, ls[..j]) + if IsBlank(ls[j]) then [] else [SourcedLine(source, ls[j])]
  {
    assert ls[..j + 1][..j] == ls[..j];
  }

  lemma SourcedLinesSnoc(files: seq<LogFile>, i: nat)
    requires i < |files|
    ensures SourcedLines(files[..i + 1]) == SourcedLines(files[..i]) + FileContribution(files[i])
  {
    assert files[..i + 1][..i] == files[..i];
  }

  /** The accumulators of `parse_log_files` after reading the non-blank lines `ls`. */
  predicate Tracks(ls: seq<SourcedLine>, parse: string -> Parsed, events: seq<Event>,
                   evidence: seq<string>, allText: seq<string>, counts: map<string, nat>)
  {
    && events == Events(ls, parse)
    && allText == Texts(ls)
    && evidence == EvidenceOf(events)
    && counts == CountsOf(events)
  }

  /** Reading one more non-blank line appends its event and text, and its evidence and count when it is a signal. */
  lemma TracksStep(ls: seq<SourcedLine>, x: SourcedLine, parse: string -> Parsed, e: Event, events: seq<Event>,
                   evidence: seq<string>, allText: seq<string>, counts: map<string, nat>)
    requires Tracks(ls, parse, events, evidence, allText, counts)
    requires e == EventOf(x, parse)
    ensures Tracks(ls + [x], parse, events + [e],
                   if IsSignal(e.level) then evidence + [EvidenceLine(e)] else evidence,
                   allText + [x.text],
                   if IsSignal(e.level) then counts[e.level := Lookup(counts, e.level) + 1] else counts)
  {
    EventsSnoc(ls, x, parse);
    EvidenceSnoc(events, e);
  }

  /** The seen-set loop of `parse_log_files`: keep the first occurrence of each line. */
  method DedupLines(evidence: seq<string>) returns (top: seq<string>)
    ensures top == Dedup(evidence)
  {
    var seen: set<string> := {};
    top := [];
    var k := 0;
    while k < |evidence|
      invariant 0 <= k <= |evidence|
      invariant top == Dedup(evidence[..k])
      invariant forall x :: x in seen <==> x in evidence[..k]
    {
      assert evidence[..k + 1][..k] == evidence[..k];
      assert evidence[..k + 1] == evidence[..k] + [evidence[k]];
      if evidence[k] !in seen {
        seen := seen + {evidence[k]};
        top := top + [evidence[k]];
      }
      k := k + 1;
    }
    assert evidence[..|evidence|] == evidence;
  }

  /** One pass of the `for line in f` loop: a blank line is skipped, any other is parsed and recorded. */
  method ScanLine(source: string, line: string, parse: string -> Parsed, ghost before: seq<SourcedLine>,
                  events0: seq<Event>, evidence0: seq<string>, allText0: seq<string>, counts0: map<string, nat>)
    returns (events: seq<Event>, evidence: seq<string>, allText: seq<string>, counts: map<string, nat>)
    requires Tracks(before, parse, events0, evidence0, allText0, counts0)
    ensures Tracks(before + FileLines(source, [line]), parse, events, evidence, allText, counts)
  {
    events, evidence, allText, counts := events0, evidence0, allText0, counts0;
    assert FileLines(source, [line]) == if IsBlank(line) then [] else [SourcedLine(source, line)];
    if !IsBlank(line) {
      var x := SourcedLine(source, line);
      var e := EventOf(x, parse);
      TracksStep(before, x, parse, e, events, evidence, allText, counts);
      if IsSignal(e.level) {
        evidence := evidence + [source + ": " + e.message];
        counts := counts[e.level := Lookup(counts, e.level) + 1];
      }
      events := events + [e];
      allText := allText + [line];
    } else {
      assert before + FileLines(source, [line]) == before;
    }
  }

  /** The `for line in f` loop of `parse_log_files` over one opened file. */
  method ScanFile(source: string, ls: seq<string>, parse: string -> Parsed, ghost before: seq<SourcedLine>,
                  events0: seq<Event>, evidence0: seq<string>, allText0: seq<string>, counts0: map<string, nat>)
    returns (events: seq<Event>, evidence: seq<string>, allText: seq<string>, counts: map<string, nat>)
    requires Tracks(before, parse, events0, evidence0, allText0, counts0)
    ensures Tracks(before + FileLines(source, ls), parse, events, evidence, allText, counts)
  {
    events, evidence, allText, counts := events0, evidence0, allText0, counts0;
    var j := 0;
    while j < |ls|
      invariant 0 <= j <= |ls|
      invariant Tracks(before + FileLines(source, ls[..j]), parse, events, evidence, allText, counts)
    {
      FileLinesSnoc(source, ls, j);
      ghost var lines := before + FileLines(source, ls[..j]);
      events, evidence, allText, counts := ScanLine(source, ls[j], parse, lines, events, evidence, allText, counts);
      assert lines + FileLines(source, [ls[j]]) == before + FileLines(source, ls[..j + 1]);
      j := j + 1;
    }
    assert ls[..|ls|] == ls;
  }

  /** The lines one readable or missing file contributes: a missing file is skipped. */
  method ReadFile(f: LogFile, parse: string -> Parsed, ghost before: seq<SourcedLine>,
                  events0: seq<Event>, evidence0: seq<string>, allText0: seq<string>, counts0: map<string, nat>)
    returns (events: seq<Event>, evidence: seq<string>, allText: seq<string>, counts: map<string, nat>)
    requires Tracks(before, parse, events0, evidence0, allText0, counts0)
    ensures Tracks(before + FileContribution(f), parse, events, evidence, allText, counts)
  {
    if f.read.Lines? {
      events, evidence, allText, counts := ScanFile(BaseName(f.path), f.read.lines, parse, before, events0, evidence0, allText0, counts0);
    } else {
      assert before + FileContribution(f) == before;
      events, evidence, allText, counts := events0, evidence0, allText0, counts0;
    }
  }

  /** `parse_log_files`, over the files as opened. */
  method ParseLogFiles(files: seq<LogFile>, decode: string -> Option<Value>) returns (r: Result<TriageReport, string>)
    ensures r == Triage(files, decode)
  {
    var parse := LineParser(decode);
    var events: seq<Event> := [];
    var evidence: seq<string> := [];
    var allText: seq<string> := [];
    var counts: map<string, nat> := map[];
    var i := 0;
    while i < |files|
      invariant 0 <= i <= |files|
      invariant FirstUnreadable(files) >= i
      invariant Tracks(SourcedLines(files[..i]), parse, events, evidence, allText, counts)
    {
      if files[i].read.Unreadable? {
        return Failure(files[i].read.reason);
      }
      assert FirstUnreadable(files) != i;
      SourcedLinesSnoc(files, i);
      events, evidence, allText, counts := ReadFile(files[i], parse, SourcedLines(files[..i]), events, evidence, allText, counts);
      i := i + 1;
    }
    assert files[..|files|] == files;
    var top := DedupLines(evidence);
    r := Success(TriageReport(events, top, counts, Hint(allText), allText));
    assert r.value == ReportOf(SourcedLines(files), parse);
  }

  // ---------------------------------------------------------------------------
  // Properties of the report

  /** A line kept as it is unless it is blank. */
  function NonBlank(line: string): (r: Option<string>)
    ensures r.Some? <==> !IsBlank(line)
    ensures r.Some? ==> r.value == line
  {
    if IsBlank(line) then None else Some(line)
  }

  /** The texts of two runs of lines, one after the other. */
  lemma TextsAppend(a: seq<SourcedLine>, b: seq<SourcedLine>)
    ensures Texts(a + b) == Texts(a) + Texts(b)
  {
  }

  /**
   * The lines one file contributes are its non-blank lines, in order, all
   * tagged with its name; nothing when every line is blank.
   */
  lemma {:induction false} FileLinesShape(source: string, lines: seq<string>)
    ensures var r := FileLines(source, lines);
            && Texts(r) == FilterMap(lines, NonBlank)
            && (forall k :: 0 <= k < |r| ==> r[k].source == source && !IsBlank(r[k].text) && r[k].text in lines)
            && (r == [] <==> forall k :: 0 <= k < |lines| ==> IsBlank(lines[k]))
  {
    if lines != [] {
      var init, last := lines[..|lines| - 1], lines[|lines| - 1];
      FileLinesShape(source, init);
      var ri, r := FileLines(source, init), FileLines(source, lines);
      var tail := if IsBlank(last) then [] else [SourcedLine(source, last)];
      assert r == ri + tail;
      TextsAppend(ri, tail);
      assert Texts(tail) == match NonBlank(last) case Some(y) => [y] case None => [];
      assert forall k :: 0 <= k < |init| ==> init[k] == lines[k];
      forall k | 0 <= k < |r|
        ensures r[k].source == source && !IsBlank(r[k].text) && r[k].text in lines
      {
        if k < |ri| {
          assert r[k] == ri[k];
        } else {
          assert r[k] == SourcedLine(source, last);
        }
      }
      if forall k :: 0 <= k < |lines| ==> IsBlank(lines[k]) {
        assert IsBlank(last);
        assert ri == [];
      }
      if r == [] {
        assert ri == [] && IsBlank(last);
      }
    }
  }

  /** Concatenating file lists concatenates their lines: file order is kept. */
  lemma SourcedLinesAppend(a: seq<LogFile>, b: seq<LogFile>)
    ensures SourcedLines(a + b) == SourcedLines(a) + SourcedLines(b)
  {
    ConcatMapAppend(a, b, FileContribution);
  }

  /** A missing file is skipped: removing it changes nothing. */
  lemma MissingFileSkipped(files: seq<LogFile>, i: nat)
    requires i < |files| && files[i].read.NotFound?
    ensures SourcedLines(files) == SourcedLines(files[..i] + files[i + 1..])
  {
    var pre, post := files[..i], files[i + 1..];
    assert files == (pre + [files[i]]) + post;
    ConcatMapAppend(pre + [files[i]], post, FileContribution);
    assert (pre + [files[i]])[..|pre|] == pre;
    assert FileContribution(files[i]) == [];
    assert ConcatMap(pre + [files[i]], FileContribution) == ConcatMap(pre, FileContribution);
    ConcatMapAppend(pre, post, FileContribution);
  }

  /** Every line read comes from a readable file, is non-blank, and carries that file's base name. */
  lemma SourcedLinesShape(files: seq<LogFile>)
    ensures var r := SourcedLines(files);
            forall k :: 0 <= k < |r| ==>
              !IsBlank(r[k].text) &&
              exists i :: 0 <= i < |files| && files[i].read.Lines? &&
                          r[k].source == BaseName(files[i].path) && r[k].text in files[i].read.lines
  {
    var r := SourcedLines(files);
    forall k | 0 <= k < |r|
      ensures !IsBlank(r[k].text) &&
              exists i :: 0 <= i < |files| && files[i].read.Lines? &&
                          r[k].source == BaseName(files[i].path) && r[k].text in files[i].read.lines
    {
      var i, m := ConcatMapMember(files, FileContribution, k);
      var c := FileContribution(files[i]);
      assert files[i].read.Lines?;
      FileLinesShape(BaseName(files[i].path), files[i].read.lines);
      assert c[m].source == BaseName(files[i].path) && c[m].text in files[i].read.lines;
    }
  }

  /** The evidence lines are exactly `source: msg` of the ERROR and WARN events, duplicates included. */
  lemma {:induction false} EvidenceMembers(events: seq<Event>, x: string)
    ensures x in EvidenceOf(events) <==>
            exists k :: 0 <= k < |events| && IsSignal(events[k].level) && x == EvidenceLine(events[k])
  {
    if events != [] {
      var n := |events| - 1;
      EvidenceMembers(events[..n], x);
      assert forall k :: 0 <= k < n ==> events[..n][k] == events[k];
    }
  }

  /** The ERROR and WARN counts add up to the number of evidence lines. */
  lemma {:induction false} CountsMatchEvidence(events: seq<Event>)
    ensures Lookup(CountsOf(events), "ERROR") + Lookup(CountsOf(events), "WARN") == |EvidenceOf(events)|
  {
    if events != [] {
      CountsMatchEvidence(events[..|events| - 1]);
    }
  }

  /** First occurrence of a member of a prefix is found in the prefix. */
  lemma FirstIndexPrefix(xs: seq<string>, n: nat, x: string)
    requires n <= |xs| && x in xs[..n]
    ensures FirstIndex(xs, x) == FirstIndex(xs[..n], x)
  {
    var i := FirstIndex(xs, x);
    var j := FirstIndex(xs[..n], x);
    assert xs[..n][..j] == xs[..j];
    assert forall m :: 0 <= m < j ==> xs[..j][m] == xs[m];
    assert forall m :: 0 <= m < i ==> xs[..i][m] == xs[m];
  }

  /** The members of `r` appear in the order of their first occurrences in `xs`. */
  predicate InFirstOccurrenceOrder(xs: seq<string>, r: seq<string>)
    requires forall x :: x in r ==> x in xs
  {
    forall i, j :: 0 <= i < j < |r| ==> FirstIndex(xs, r[i]) < FirstIndex(xs, r[j])
  }

  /** De-duplication keeps first occurrences in the order they first appear. */
  lemma {:induction false} DedupOrder(xs: seq<string>)
    ensures InFirstOccurrenceOrder(xs, Dedup(xs))
  {
    if xs != [] {
      var n := |xs| - 1;
      var init := xs[..n];
      var d := Dedup(init);
      DedupOrder(init);
      var r := Dedup(xs);
      forall i, j | 0 <= i < j < |r|
        ensures FirstIndex(xs, r[i]) < FirstIndex(xs, r[j])
      {
        assert xs[..n] == init;
        assert r[i] == d[i];
        FirstIndexPrefix(xs, n, d[i]);
        if j < |d| {
          assert r[j] == d[j];
          FirstIndexPrefix(xs, n, d[j]);
          assert FirstIndex(init, d[i]) < FirstIndex(init, d[j]);
        } else {
          assert r[j] == xs[n] && xs[n] !in init;
          assert forall m :: 0 <= m < n ==> xs[m] != xs[n] by {
            assert forall m :: 0 <= m < n ==> xs[..n][m] == xs[m];
          }
          assert FirstIndex(xs, r[j]) == n;
          assert FirstIndex(init, d[i]) < n;
        }
      }
    }
  }

  /** An unreadable file makes the whole triage fail, with the first such file's error. */
  lemma TriageFails(files: seq<LogFile>, decode: string -> Option<Value>)
    ensures Triage(files, decode).Failure? <==> exists i :: 0 <= i < |files| && files[i].read.Unreadable?
    ensures Triage(files, decode).Failure? ==>
              exists i :: 0 <= i < |files| && files[i].read.Unreadable? &&
                          (forall j :: 0 <= j < i ==> !files[j].read.Unreadable?) &&
                          Triage(files, decode).error == files[i].read.reason
  {
    var k := FirstUnreadable(files);
    if k < |files| {
      assert files[k].read.Unreadable?;
    }
  }

  /**
   * The report has one event and one text per non-blank line read, in
   * order; its top lines are the distinct `source: msg` lines of its ERROR
   * and WARN events, in first-occurrence order; its counts have only ERROR
   * and WARN keys and add up to at least the number of top lines.
   */
  lemma ReportShape(ls: seq<SourcedLine>, parse: string -> Parsed)
    ensures var rep := ReportOf(ls, parse);
            && |rep.events| == |ls| && |rep.allText| == |ls|
            && (forall k :: 0 <= k < |ls| ==> rep.events[k] == EventOf(ls[k], parse) && rep.allText[k] == ls[k].text)
            && (forall x :: x in rep.topLines <==>
                  exists k :: 0 <= k < |rep.events| && IsSignal(rep.events[k].level) &&
                              x == EvidenceLine(rep.events[k]))
            && NoDuplicates(rep.topLines)
            && InFirstOccurrenceOrder(EvidenceOf(rep.events), rep.topLines)
            && (forall lv :: lv in rep.counts ==> lv == "ERROR" || lv == "WARN")
            && Lookup(rep.counts, "ERROR") + Lookup(rep.counts, "WARN") >= |rep.topLines|
  {
    var rep := ReportOf(ls, parse);
    var events := Events(ls, parse);
    var ev := EvidenceOf(events);
    assert rep.events == events && rep.topLines == Dedup(ev) && rep.counts == CountsOf(events);
    forall x
      ensures x in Dedup(ev) <==>
              exists k :: 0 <= k < |events| && IsSignal(events[k].level) && x == EvidenceLine(events[k])
    {
      EvidenceMembers(events, x);
    }
    DedupOrder(ev);
    CountsMatchEvidence(events);
  }

  /** A successful triage reports on the non-blank lines of all files, as `ReportShape` describes. */
  lemma TriageSucceeds(files: seq<LogFile>, decode: string -> Option<Value>)
    requires Triage(files, decode).Success?
    ensures Triage(files, decode).value == ReportOf(SourcedLines(files), LineParser(decode))
    ensures forall k :: 0 <= k < FirstUnreadable(files) ==> !files[k].read.Unreadable?
  {
  }

  /** A line that mentions `w` (lower-cased) makes the joined text mention it. */
  lemma MentionsLine(allText: seq<string>, k: nat, w: string)
    requires k < |allText| && Contains(Lower(allText[k]), w)
    ensures Mentions(allText, w)
  {
    JoinHasPart(" ", allText, k);
    var o :| OccursAt(Join(" ", allText), allText[k], o);
    LowerOccurs(Join(" ", allText), allText[k], o);
    ContainsTrans(Lower(Join(" ", allText)), Lower(allText[k]), o, w);
  }

  /**
   * The hint: pool exhaustion exactly when the joined text mentions both
   * "pool" and "timeout" in any case, which it does when one line mentions
   * both; otherwise the exception hint when a line mentions "exception"; and
   * none exactly when the joined text mentions neither.
   */
  lemma HintFromLines(allText: seq<string>)
    ensures Hint(allText) == Some(PoolHint) <==> Mentions(allText, "pool") && Mentions(allText, "timeout")
    ensures (exists k :: 0 <= k < |allText| && Contains(Lower(allText[k]), "pool") &&
                                                Contains(Lower(allText[k]), "timeout")) ==>
            Hint(allText) == Some(PoolHint)
    ensures !(Mentions(allText, "pool") && Mentions(allText, "timeout")) &&
            (exists k :: 0 <= k < |allText| && Contains(Lower(allText[k]), "exception")) ==>
            Hint(allText) == Some(ExceptionHint)
    ensures Hint(allText).None? <==> !Mentions(allText, "exception") &&
                                      !(Mentions(allText, "pool") && Mentions(allText, "timeout"))
  {
    if k :| 0 <= k < |allText| && Contains(Lower(allText[k]), "pool") && Contains(Lower(allText[k]), "timeout") {
      MentionsLine(allText, k, "pool");
      MentionsLine(allText, k, "timeout");
    }
    if k :| 0 <= k < |allText| && Contains(Lower(allText[k]), "exception") {
      MentionsLine(allText, k, "exception");
    }
  }
}
