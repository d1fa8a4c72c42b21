/**
 * The string operations of Python's `str` that the backend relies on, over
 * `seq<char>`. Character classes (whitespace, digits, word characters, case)
 * are the ASCII ones.
 */
module Text {

  /** `str.isspace()` on ASCII: space, \t \n \v \f \r and the separators \x1c-\x1f. */
  predicate IsSpace(c: char) {
    var n := c as int;
    n == 32 || 9 <= n <= 13 || 28 <= n <= 31
  }

  predicate IsDigit(c: char) {
    '0' <= c <= '9'
  }

  /** A regex `\w` character (ASCII letters, digits and underscore). */
  predicate IsWordChar(c: char) {
    ('a' <= c <= 'z') || ('A' <= c <= 'Z') || IsDigit(c) || c == '_'
  }

  function LowerChar(c: char): char {
    if 'A' <= c <= 'Z' then (c as int + 32) as char else c
  }

  function UpperChar(c: char): char {
    if 'a' <= c <= 'z' then (c as int - 32) as char else c
  }

  /** `str.lower()` */
  function Lower(s: string): (r: string)
    ensures |r| == |s|
    ensures forall i :: 0 <= i < |s| ==> r[i] == LowerChar(s[i])
  {
    seq(|s|, i requires 0 <= i < |s| => LowerChar(s[i]))
  }

  /** `str.upper()` */
  function Upper(s: string): (r: string)
    ensures |r| == |s|
    ensures forall i :: 0 <= i < |s| ==> r[i] == UpperChar(s[i])
  {
    seq(|s|, i requires 0 <= i < |s| => UpperChar(s[i]))
  }

  predicate StartsWith(s: string, prefix: string) {
    |prefix| <= |s| && s[..|prefix|] == prefix
  }

  predicate EndsWith(s: string, suffix: string) {
    |suffix| <= |s| && s[|s| - |suffix|..] == suffix
  }

  /** `pat` occurs in `s` at index `i`. */
  predicate OccursAt(s: string, pat: string, i: int) {
    0 <= i && i + |pat| <= |s| && s[i..i + |pat|] == pat
  }

  /** `pat in s` */
  predicate Contains(s: string, pat: string) {
    exists i :: 0 <= i <= |s| - |pat| && OccursAt(s, pat, i)
  }

  /** `not s.strip()`: the string holds only whitespace. */
  predicate IsBlank(s: string) {
    forall i :: 0 <= i < |s| ==> IsSpace(s[i])
  }

  /** `s[:n]` */
  function Take<T>(s: seq<T>, n: nat): (r: seq<T>)
    ensures |r| == if n < |s| then n else |s|
    ensures r == s[..|r|]
  {
    if n < |s| then s[..n] else s
  }

  /** `r` is the slice `s[a..b]` of `s`, and every character cut off on either side is one `drop` selects. */
  ghost predicate CutFrom(s: string, r: string, drop: char -> bool) {
    exists a, b :: 0 <= a <= b <= |s| && r == s[a..b]
                   && (forall i :: 0 <= i < a ==> drop(s[i]))
                   && (forall i :: b <= i < |s| ==> drop(s[i]))
  }

  /** A cut of `s[1..]` is a cut of `s` when `s[0]` is dropped. */
  lemma CutFromTail(s: string, r: string, drop: char -> bool)
    requires s != [] && drop(s[0]) && CutFrom(s[1..], r, drop)
    ensures CutFrom(s, r, drop)
  {
    var a, b :| 0 <= a <= b <= |s| - 1 && r == s[1..][a..b]
                && (forall i :: 0 <= i < a ==> drop(s[1..][i]))
                && (forall i :: b <= i < |s| - 1 ==> drop(s[1..][i]));
    assert forall d :: 0 <= d < b - a ==> r[d] == s[a + 1 + d];
    assert r == s[a + 1..b + 1];
    forall i | 0 <= i < a + 1
      ensures drop(s[i])
    {
      if i > 0 {
        assert s[i] == s[1..][i - 1];
      }
    }
    forall i | b + 1 <= i < |s|
      ensures drop(s[i])
    {
      assert s[i] == s[1..][i - 1];
    }
  }

  /** A cut of `s[..|s| - 1]` is a cut of `s` when the last character is dropped. */
  lemma CutFromInit(s: string, r: string, drop: char -> bool)
    requires s != [] && drop(s[|s| - 1]) && CutFrom(s[..|s| - 1], r, drop)
    ensures CutFrom(s, r, drop)
  {
    var init := s[..|s| - 1];
    var a, b :| 0 <= a <= b <= |init| && r == init[a..b]
                && (forall i :: 0 <= i < a ==> drop(init[i]))
                && (forall i :: b <= i < |init| ==> drop(init[i]));
    assert forall d :: 0 <= d < b - a ==> r[d] == s[a + d];
    assert r == s[a..b];
    forall i | 0 <= i < a
      ensures drop(s[i])
    {
      assert s[i] == init[i];
    }
    forall i | b <= i < |s|
      ensures drop(s[i])
    {
      if i < |init| {
        assert s[i] == init[i];
      }
    }
  }

  /**
   * `s.strip(chars)`: drop the characters `drop` selects from both ends.
   * The result is a slice of `s` with only dropped characters cut on either
   * side; it is empty exactly when every character of `s` is dropped, and
   * otherwise starts and ends with a kept character.
   */
  function StripBy(s: string, drop: char -> bool): (r: string)
    ensures CutFrom(s, r, drop)
    ensures r == [] <==> forall i :: 0 <= i < |s| ==> drop(s[i])
    ensures r != [] ==> !drop(r[0]) && !drop(r[|r| - 1])
    ensures |r| <= |s|
    decreases |s|
  {
    if s == [] then
      assert s[0..0] == [];
      []
    else if drop(s[0]) then
      var r := StripBy(s[1..], drop);
      assert forall i :: 1 <= i < |s| ==> s[i] == s[1..][i - 1];
      CutFromTail(s, r, drop);
      r
    else if drop(s[|s| - 1]) then
      var r := StripBy(s[..|s| - 1], drop);
      assert forall i :: 0 <= i < |s| - 1 ==> s[i] == s[..|s| - 1][i];
      CutFromInit(s, r, drop);
      r
    else
      assert s[0..|s|] == s;
      s
  }

  /** `str.strip()` */
  function Strip(s: string): (r: string)
    ensures CutFrom(s, r, IsSpace)
    ensures r == [] <==> IsBlank(s)
    ensures r != [] ==> !IsSpace(r[0]) && !IsSpace(r[|r| - 1])
    ensures |r| <= |s|
  {
    StripBy(s, IsSpace)
  }

  /** A string that neither starts nor ends with whitespace strips to itself. */
  lemma StripNoop(s: string)
    requires s != [] && !IsSpace(s[0]) && !IsSpace(s[|s| - 1])
    ensures Strip(s) == s
  {
  }

  /** Stripping twice strips no more than once. */
  lemma StripIdempotent(s: string)
    ensures Strip(Strip(s)) == Strip(s)
  {
    if Strip(s) != [] {
      StripNoop(Strip(s));
    }
  }

  /**
   * Stripping `p + q` keeps all of `p` when `p` neither starts nor ends with
   * whitespace, and gives exactly `p` when `q` is blank.
   */
  lemma {:induction false} StripKeepsHead(p: string, q: string)
    requires p != [] && !IsSpace(p[0]) && !IsSpace(p[|p| - 1])
    ensures StartsWith(Strip(p + q), p)
    ensures IsBlank(q) ==> Strip(p + q) == p
    decreases |q|
  {
    var s := p + q;
    assert s[0] == p[0];
    assert s[..|p|] == p;
    if q != [] && IsSpace(q[|q| - 1]) {
      var q' := q[..|q| - 1];
      assert s[|s| - 1] == q[|q| - 1];
      assert s[..|s| - 1] == p + q';
      StripKeepsHead(p, q');
      assert forall i :: 0 <= i < |q'| ==> q'[i] == q[i];
    } else {
      assert s[|s| - 1] == if q == [] then p[|p| - 1] else q[|q| - 1];
      StripNoop(s);
      assert IsBlank(q) ==> q == [];
      assert q == [] ==> s == p;
    }
  }

  /** `sep.join(parts)` */
  function Join(sep: string, parts: seq<string>): (r: string)
    ensures |parts| > 0 ==> |r| >= |parts[0]|
  {
    if |parts| == 0 then ""
    else if |parts| == 1 then parts[0]
    else parts[0] + sep + Join(sep, parts[1..])
  }

  /**
   * `s.replace(pat, '')`: remove the occurrences of `pat`, scanning from the
   * left and resuming after each removed occurrence.
   */
  function RemoveAll(s: string, pat: string): (r: string)
    requires pat != []
    ensures |r| <= |s|
    ensures r == s <==> !Contains(s, pat)
    decreases |s|
  {
    if s == [] then []
    else if OccursAt(s, pat, 0) then RemoveAll(s[|pat|..], pat)
    else
      var rest := RemoveAll(s[1..], pat);
      ContainsStep(s, pat);
      [s[0]] + rest
  }

  /** An occurrence in `s` is at its head or in its tail. */
  lemma ContainsStep(s: string, pat: string)
    requires s != [] && pat != []
    ensures Contains(s, pat) <==> OccursAt(s, pat, 0) || Contains(s[1..], pat)
  {
    if Contains(s, pat) && !OccursAt(s, pat, 0) {
      var i :| 0 <= i <= |s| - |pat| && OccursAt(s, pat, i);
      assert i > 0;
      assert s[1..][i - 1..i - 1 + |pat|] == s[i..i + |pat|];
      assert OccursAt(s[1..], pat, i - 1);
    }
    if Contains(s[1..], pat) {
      var i :| 0 <= i <= |s[1..]| - |pat| && OccursAt(s[1..], pat, i);
      assert s[i + 1..i + 1 + |pat|] == s[1..][i..i + |pat|];
      assert OccursAt(s, pat, i + 1);
    }
  }

  /** `p.split('/')[-1]`: the text after the last '/'. */
  function BaseName(p: string): (r: string)
    ensures '/' !in r
    ensures |r| <= |p| && r == p[|p| - |r|..]
    ensures |r| < |p| ==> p[|p| - |r| - 1] == '/'
  {
    if p == [] || p[|p| - 1] == '/' then []
    else BaseName(p[..|p| - 1]) + [p[|p| - 1]]
  }

  /** The base name of a path that is a directory part ending in '/' and a name without '/' is the name. */
  lemma {:induction false} BaseNameAfterSlash(dir: string, name: string)
    requires dir == [] || dir[|dir| - 1] == '/'
    requires '/' !in name
    ensures BaseName(dir + name) == name
    decreases |name|
  {
    if name != [] {
      var init := name[..|name| - 1];
      BaseNameAfterSlash(dir, init);
      assert (dir + name)[..|dir + name| - 1] == dir + init;
    } else {
      assert dir + name == dir;
    }
  }

  /** Index of the first `c` in `s`. */
  function IndexOf(s: string, c: char): (i: nat)
    requires c in s
    ensures i < |s| && s[i] == c && c !in s[..i]
  {
    if s[0] == c then 0 else 1 + IndexOf(s[1..], c)
  }

  /** The first `c` is at `n` when `s[n]` is `c` and no earlier character is. */
  lemma {:induction false} IndexOfIs(s: string, c: char, n: nat)
    requires n < |s| && s[n] == c && forall i :: 0 <= i < n ==> s[i] != c
    ensures c in s && IndexOf(s, c) == n
  {
    assert s[n] in s;
    if n > 0 {
      assert forall i :: 0 <= i < n - 1 ==> s[1..][i] == s[i + 1];
      IndexOfIs(s[1..], c, n - 1);
    }
  }

  /** `s.split(c)`: the pieces between the separators. */
  function Split(s: string, c: char): (r: seq<string>)
    ensures |r| >= 1
    ensures forall k :: 0 <= k < |r| ==> c !in r[k]
    ensures Join([c], r) == s
    decreases |s|
  {
    if c !in s then [s]
    else
      var i := IndexOf(s, c);
      var rest := Split(s[i + 1..], c);
      assert s == s[..i] + [c] + s[i + 1..];
      [s[..i]] + rest
  }

  /**
   * `s.splitlines()` with '\n' as the only line break: no line for an empty
   * text and none after a final line break.
   */
  function SplitLines(s: string): (r: seq<string>)
    ensures forall k :: 0 <= k < |r| ==> '\n' !in r[k]
  {
    if s == [] then []
    else
      var pieces := Split(s, '\n');
      if pieces[|pieces| - 1] == [] then pieces[..|pieces| - 1] else pieces
  }

  /** Joining the lines of a text that does not end in a line break gives the text back. */
  lemma SplitLinesRoundTrip(s: string)
    requires s != [] && s[|s| - 1] != '\n'
    ensures Join("\n", SplitLines(s)) == s
  {
    var pieces := Split(s, '\n');
    if pieces[|pieces| - 1] == [] {
      JoinLastEmpty("\n", pieces);
      assert false;
    }
  }

  /** A join whose last part is empty ends with the separator (or is empty). */
  lemma {:induction false} JoinLastEmpty(sep: string, parts: seq<string>)
    requires |parts| >= 1 && parts[|parts| - 1] == []
    ensures var j := Join(sep, parts); j == [] || (|j| >= |sep| && j[|j| - |sep|..] == sep)
  {
    if |parts| >= 2 {
      JoinLastEmpty(sep, parts[1..]);
      var rest := Join(sep, parts[1..]);
      if rest == [] {
        assert Join(sep, parts) == parts[0] + sep;
      } else {
        var j := Join(sep, parts);
        assert j == parts[0] + sep + rest;
        assert j[|j| - |sep|..] == rest[|rest| - |sep|..];
      }
    }
  }

  /** An occurrence inside an occurrence is an occurrence. */
  lemma ContainsTrans(s: string, p: string, o: int, w: string)
    requires OccursAt(s, p, o) && Contains(p, w)
    ensures Contains(s, w)
  {
    var i :| 0 <= i <= |p| - |w| && OccursAt(p, w, i);
    assert forall k :: 0 <= k < |p| ==> s[o + k] == p[k] by {
      assert p == s[o..o + |p|];
    }
    assert forall k :: 0 <= k < |w| ==> p[i + k] == w[k] by {
      assert w == p[i..i + |w|];
    }
    assert s[o + i..o + i + |w|] == w;
    assert OccursAt(s, w, o + i);
  }

  /** Lower-casing keeps occurrences in place. */
  lemma LowerOccurs(s: string, p: string, o: int)
    requires OccursAt(s, p, o)
    ensures OccursAt(Lower(s), Lower(p), o)
  {
    assert forall k :: 0 <= k < |p| ==> Lower(s)[o + k] == LowerChar(s[o + k]) == LowerChar(p[k]);
    assert Lower(s)[o..o + |p|] == Lower(p);
  }

  /** A slice of the right operand of a concatenation, taken in the whole. */
  lemma SliceOfAppend(x: string, y: string, p: nat, q: nat)
    requires p <= q <= |y|
    ensures (x + y)[|x| + p..|x| + q] == y[p..q]
  {
    var u := (x + y)[|x| + p..|x| + q];
    forall d | 0 <= d < q - p
      ensures u[d] == y[p + d]
    {
      assert u[d] == (x + y)[|x| + p + d];
    }
  }

  /** Every part occurs in the join. */
  lemma {:induction false} JoinHasPart(sep: string, parts: seq<string>, k: nat)
    requires k < |parts|
    ensures exists o :: OccursAt(Join(sep, parts), parts[k], o)
    decreases |parts|
  {
    var j := Join(sep, parts);
    if |parts| == 1 {
      assert OccursAt(j, parts[k], 0);
    } else if k == 0 {
      assert j[..|parts[0]|] == parts[0];
      assert OccursAt(j, parts[k], 0);
    } else {
      JoinHasPart(sep, parts[1..], k - 1);
      var rest := Join(sep, parts[1..]);
      var o :| OccursAt(rest, parts[1..][k - 1], o);
      var d := |parts[0]| + |sep|;
      assert j == (parts[0] + sep) + rest;
      SliceOfAppend(parts[0] + sep, rest, o, o + |parts[k]|);
      assert OccursAt(j, parts[k], d + o);
    }
  }
}
