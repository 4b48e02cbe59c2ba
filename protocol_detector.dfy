/**
 * The protocol detector `protocol_list` (net_tui.py:47-52): the routing
 * protocols named in a device's `show configuration | display set` output.
 * The source applies `re.findall(".*protocols (\w+).*", text)` and then
 * `list(set(...))`; the regex runs without flags, so `.` stops at '\n' and
 * every line is matched on its own.
 */
module ProtocolDetector {
  import opened Results
  import Text

  const Keyword: string := "protocols "

  /** `\w`, taken as ASCII letters, digits and '_'. */
  predicate IsWordChar(c: char) {
    'a' <= c <= 'z' || 'A' <= c <= 'Z' || '0' <= c <= '9' || c == '_'
  }

  /** The index of the first c in s. */
  function IndexOf(s: string, c: char): (k: nat)
    requires c in s
    ensures k < |s| && s[k] == c && c !in s[..k]
  {
    if s[0] == c then 0
    else
      var k := 1 + IndexOf(s[1..], c);
      assert s[..k] == [s[0]] + s[1..][..k - 1];
      k
  }

  lemma {:induction false} IndexOfAfter(a: string, b: string)
    requires '\n' !in a
    ensures IndexOf(a + ("\n" + b), '\n') == |a|
  {
    if a != [] {
      assert (a + ("\n" + b))[1..] == a[1..] + ("\n" + b);
      assert a[0] in a;
      IndexOfAfter(a[1..], b);
    }
  }

  /** The text cut at every '\n'; a text without one is a single line. */
  function Lines(text: string): (ls: seq<string>)
    ensures ls != []
    ensures forall i :: 0 <= i < |ls| ==> '\n' !in ls[i]
    decreases |text|
  {
    if '\n' in text then
      var k := IndexOf(text, '\n');
      [text[..k]] + Lines(text[k + 1..])
    else
      [text]
  }

  /** `'\n'.join(lines)`. */
  function JoinLines(ls: seq<string>): string
    requires ls != []
  {
    if |ls| == 1 then ls[0] else ls[0] + ("\n" + JoinLines(ls[1..]))
  }

  /** Cutting a text into lines loses nothing: joining the lines gives the text back. */
  lemma {:induction false} JoinLinesOfText(text: string)
    ensures JoinLines(Lines(text)) == text
    decreases |text|
  {
    if '\n' in text {
      var k := IndexOf(text, '\n');
      JoinLinesOfText(text[k + 1..]);
      assert text == text[..k] + ("\n" + text[k + 1..]);
    }
  }

  /** ... and the lines of a joined text are the lines that were joined. */
  lemma {:induction false} LinesOfJoined(ls: seq<string>)
    requires ls != []
    requires forall i :: 0 <= i < |ls| ==> '\n' !in ls[i]
    ensures Lines(JoinLines(ls)) == ls
  {
    if |ls| > 1 {
      var rest := JoinLines(ls[1..]);
      assert '\n' in ls[0] + ("\n" + rest) by {
        assert (ls[0] + ("\n" + rest))[|ls[0]|] == '\n';
      }
      IndexOfAfter(ls[0], rest);
      assert (ls[0] + ("\n" + rest))[..|ls[0]|] == ls[0];
      assert (ls[0] + ("\n" + rest))[|ls[0]| + 1..] == rest;
      LinesOfJoined(ls[1..]);
    }
  }

  /** `protocols (\w+)` matches at index i of a line. */
  predicate MatchAt(line: string, i: int) {
    0 <= i && i + |Keyword| < |line| && line[i..i + |Keyword|] == Keyword && IsWordChar(line[i + |Keyword|])
  }

  /** The largest index below n at which the keyword matches. */
  function LastMatchBelow(line: string, n: nat): (r: Option<nat>)
    requires n <= |line|
    ensures r.Some? ==> r.value < n && MatchAt(line, r.value)
    ensures r.Some? ==> forall j :: r.value < j < n ==> !MatchAt(line, j)
    ensures r.None? ==> forall j :: 0 <= j < n ==> !MatchAt(line, j)
  {
    if n == 0 then None
    else if MatchAt(line, n - 1) then Some(n - 1)
    else LastMatchBelow(line, n - 1)
  }

  /** The end of the run of word characters that starts at index i. */
  function WordEnd(line: string, i: nat): (j: nat)
    requires i <= |line|
    ensures i <= j <= |line|
    ensures forall k :: i <= k < j ==> IsWordChar(line[k])
    ensures j < |line| ==> !IsWordChar(line[j])
    decreases |line| - i
  {
    if i < |line| && IsWordChar(line[i]) then WordEnd(line, i + 1) else i
  }

  /**
   * What `.*protocols (\w+).*` captures on one line. The leading greedy `.*`
   * backtracks from the end of the line, so the match is at the LAST
   * `protocols ` that a word character follows; `\w+` then takes the whole
   * run of word characters after it.
   */
  function LineCapture(line: string): (r: Option<string>)
    ensures r.None? <==> forall j :: 0 <= j < |line| ==> !MatchAt(line, j)
    ensures r.Some? ==>
      exists i :: && MatchAt(line, i)
                  && (forall j :: i < j < |line| ==> !MatchAt(line, j))
                  && CapturedAt(line, i + |Keyword|, r.value)
  {
    match LastMatchBelow(line, |line|)
    case None => None
    case Some(i) =>
      var w := line[i + |Keyword|..WordEnd(line, i + |Keyword|)];
      assert CapturedAt(line, i + |Keyword|, w);
      Some(w)
  }

  /** w is the maximal run of word characters starting at index k of the line. */
  predicate CapturedAt(line: string, k: nat, w: string) {
    && w != []
    && k + |w| <= |line|
    && line[k..k + |w|] == w
    && (forall c :: 0 <= c < |w| ==> IsWordChar(w[c]))
    && (k + |w| == |line| || !IsWordChar(line[k + |w|]))
  }

  /** The captures of a sequence of lines, in line order, at most one per line. */
  function CapturesOf(lines: seq<string>): seq<string> {
    if lines == [] then []
    else
      (match LineCapture(lines[0]) case Some(w) => [w] case None => []) + CapturesOf(lines[1..])
  }

  lemma {:induction false} CapturesOfLines(lines: seq<string>)
    ensures |CapturesOf(lines)| <= |lines|
    ensures forall w :: w in CapturesOf(lines) <==> exists i :: 0 <= i < |lines| && LineCapture(lines[i]) == Some(w)
  {
    if lines != [] {
      CapturesOfLines(lines[1..]);
      forall w | (exists i :: 0 <= i < |lines| && LineCapture(lines[i]) == Some(w))
        ensures w in CapturesOf(lines)
      {
        var i :| 0 <= i < |lines| && LineCapture(lines[i]) == Some(w);
        if i > 0 {
          assert lines[1..][i - 1] == lines[i];
        }
      }
    }
  }

  /** `re.findall(".*protocols (\w+).*", text)`. */
  function FindAll(text: string): seq<string> {
    CapturesOf(Lines(text))
  }

  predicate NoDuplicates(s: seq<string>) {
    forall i, j :: 0 <= i < j < |s| ==> s[i] != s[j]
  }

  /** `list(set(s))`, listing the elements in the order they first occur. */
  function Dedup(s: seq<string>): (r: seq<string>)
    ensures NoDuplicates(r)
    ensures forall x :: x in r <==> x in s
  {
    if s == [] then []
    else
      var d := Dedup(s[..|s| - 1]);
      assert s == s[..|s| - 1] + [s[|s| - 1]];
      if s[|s| - 1] in d then d else d + [s[|s| - 1]]
  }

  /**
   * `protocol_list`: every protocol name captured from some line of the
   * configuration, each once.
   */
  function ProtocolList(text: string): (r: seq<string>)
    ensures NoDuplicates(r)
    ensures forall w :: w in r <==> exists i :: 0 <= i < |Lines(text)| && LineCapture(Lines(text)[i]) == Some(w)
    ensures |r| <= |Lines(text)|
  {
    CapturesOfLines(Lines(text));
    DedupNoLonger(FindAll(text));
    Dedup(FindAll(text))
  }

  lemma {:induction false} DedupNoLonger(s: seq<string>)
    ensures |Dedup(s)| <= |s|
  {
    if s != [] {
      DedupNoLonger(s[..|s| - 1]);
    }
  }

  /** The keyword occurring nowhere in s rules out a match in any slice of s. */
  lemma SliceHasNoKeyword(s: string, a: nat, b: nat)
    requires a <= b <= |s|
    requires !Text.Contains(s, Keyword)
    ensures !Text.Contains(s[a..b], Keyword)
  {
    if Text.Contains(s[a..b], Keyword) {
      var i :| 0 <= i <= |s[a..b]| - |Keyword| && Text.OccursAt(s[a..b], Keyword, i);
      forall m | 0 <= m < |Keyword|
        ensures s[a + i..a + i + |Keyword|][m] == Keyword[m]
      {
        assert s[a..b][i..i + |Keyword|][m] == Keyword[m];
      }
      assert s[a + i..a + i + |Keyword|] == Keyword;
      assert Text.OccursAt(s, Keyword, a + i);
    }
  }

  lemma NoKeywordLineCapture(l: string)
    requires !Text.Contains(l, Keyword)
    ensures LineCapture(l) == None
  {
    if LineCapture(l).Some? {
      var j :| 0 <= j < |l| && MatchAt(l, j);
      assert Text.OccursAt(l, Keyword, j);
    }
  }

  lemma {:induction false} NoKeywordNoCaptures(text: string)
    requires !Text.Contains(text, Keyword)
    ensures FindAll(text) == []
    decreases |text|
  {
    var ls := Lines(text);
    if '\n' in text {
      var k := IndexOf(text, '\n');
      SliceHasNoKeyword(text, 0, k);
      assert text[0..k] == text[..k];
      NoKeywordLineCapture(text[..k]);
      SliceHasNoKeyword(text, k + 1, |text|);
      assert text[k + 1..|text|] == text[k + 1..];
      NoKeywordNoCaptures(text[k + 1..]);
      assert ls[0] == text[..k];
      assert ls[1..] == Lines(text[k + 1..]);
    } else {
      NoKeywordLineCapture(text);
      assert ls == [text];
      assert CapturesOf(ls[1..]) == [];
      assert CapturesOf(ls) == [] + CapturesOf(ls[1..]);
    }
  }

  /** A configuration that never says `protocols ` yields no protocol. */
  lemma NoKeywordNoProtocols(text: string)
    requires !Text.Contains(text, Keyword)
    ensures ProtocolList(text) == []
  {
    NoKeywordNoCaptures(text);
  }
}
