/** The Python string operations the core relies on: int(), re.sub('%', ...), `in`, splitlines(). */
module Text {
  import opened Results

  predicate IsDigit(c: char) {
    '0' <= c <= '9'
  }

  predicate AllDigits(s: string) {
    forall i :: 0 <= i < |s| ==> IsDigit(s[i])
  }

  /** The number an all-digit string denotes (leading zeros allowed, as int() allows them). */
  function DigitsValue(s: string): nat
    requires AllDigits(s)
  {
    if s == [] then 0 else 10 * DigitsValue(s[..|s| - 1]) + (s[|s| - 1] as int - '0' as int)
  }

  /** `int(s)` on a string of ASCII decimal digits; anything else is a parse failure. */
  function ParseNat(s: string): Option<nat> {
    if s != [] && AllDigits(s) then Some(DigitsValue(s)) else None
  }

  /** `str(n)`: the decimal numeral of n. */
  function Decimal(n: nat): (d: string)
    ensures d != [] && AllDigits(d)
  {
    (if n < 10 then "" else Decimal(n / 10)) + [('0' as int + n % 10) as char]
  }

  /** int() reads back what str() writes. */
  lemma {:induction false} ParseDecimal(n: nat)
    ensures ParseNat(Decimal(n)) == Some(n)
  {
    var d := Decimal(n);
    assert d[|d| - 1] as int - '0' as int == n % 10;
    assert DigitsValue(d) == 10 * DigitsValue(d[..|d| - 1]) + n % 10;
    if n < 10 {
      assert d[..|d| - 1] == "";
      assert DigitsValue(d) == n;
    } else {
      assert d[..|d| - 1] == Decimal(n / 10);
      ParseDecimal(n / 10);
    }
  }

  /** `re.sub('%', '', s)`: s with every '%' deleted and every other character kept in order. */
  function StripPercent(s: string): (r: string)
    ensures '%' !in r
    ensures '%' !in s ==> r == s
  {
    if s == [] then [] else (if s[0] == '%' then [] else [s[0]]) + StripPercent(s[1..])
  }

  /** Deleting '%' works piece by piece. */
  lemma {:induction false} StripPercentAppend(a: string, b: string)
    ensures StripPercent(a + b) == StripPercent(a) + StripPercent(b)
  {
    if a != [] {
      assert (a + b)[0] == a[0];
      assert (a + b)[1..] == a[1..] + b;
      StripPercentAppend(a[1..], b);
    } else {
      assert a + b == b;
    }
  }

  /** `p in s` on two strings: p occurs in s as a substring. */
  predicate Contains(s: string, p: string) {
    exists i | 0 <= i <= |s| - |p| :: OccursAt(s, p, i)
  }

  predicate OccursAt(s: string, p: string, i: int) {
    0 <= i && i + |p| <= |s| && s[i..i + |p|] == p
  }

  /** The characters at which Python's str.splitlines breaks a string. */
  predicate IsLineBreak(c: char) {
    || c == '\n' || c == '\r' || c == '\U{0B}' || c == '\U{0C}'
    || c == '\U{1C}' || c == '\U{1D}' || c == '\U{1E}'
    || c == '\U{85}' || c == '\U{2028}' || c == '\U{2029}'
  }

  predicate HasNoLineBreak(s: string) {
    forall i :: 0 <= i < |s| ==> !IsLineBreak(s[i])
  }

  /** Each string followed by "\n", all concatenated: what a loop of `text += line + '\n'` builds. */
  function Terminated(lines: seq<string>): string {
    if lines == [] then "" else lines[0] + "\n" + Terminated(lines[1..])
  }

  lemma {:induction false} TerminatedAppend(a: seq<string>, b: seq<string>)
    ensures Terminated(a + b) == Terminated(a) + Terminated(b)
  {
    if a == [] {
      assert a + b == b;
    } else {
      assert (a + b)[0] == a[0];
      assert (a + b)[1..] == a[1..] + b;
      TerminatedAppend(a[1..], b);
    }
  }

  /** The length of the first line of s: the index of its first line break, or |s| when it has none. */
  function LineEnd(s: string): (k: nat)
    ensures k <= |s|
    ensures HasNoLineBreak(s[..k])
    ensures k < |s| ==> IsLineBreak(s[k])
  {
    if s == "" || IsLineBreak(s[0]) then 0
    else
      var k := 1 + LineEnd(s[1..]);
      assert s[..k] == [s[0]] + s[1..][..k - 1];
      k
  }

  lemma {:induction false} LineEndAtBreak(a: string, b: string)
    requires HasNoLineBreak(a)
    ensures LineEnd(a + ("\n" + b)) == |a|
  {
    if a != [] {
      assert (a + ("\n" + b))[1..] == a[1..] + ("\n" + b);
      LineEndAtBreak(a[1..], b);
    }
  }

  /** `s.splitlines()`: the lines of s without their breaks; "\r\n" is one break, and a final break opens no line. */
  function SplitLines(s: string): seq<string>
    decreases |s|
  {
    if s == "" then []
    else
      var k := LineEnd(s);
      if k == |s| then [s]
      else
        var width := if s[k] == '\r' && k + 1 < |s| && s[k + 1] == '\n' then 2 else 1;
        [s[..k]] + SplitLines(s[k + width..])
  }

  /** splitlines() undoes the `line + '\n'` accumulation when no line holds a break of its own. */
  lemma {:induction false} SplitTerminated(lines: seq<string>)
    requires forall i :: 0 <= i < |lines| ==> HasNoLineBreak(lines[i])
    ensures SplitLines(Terminated(lines)) == lines
  {
    if lines != [] {
      var s := Terminated(lines);
      var l := lines[0];
      assert s == l + ("\n" + Terminated(lines[1..]));
      LineEndAtBreak(l, Terminated(lines[1..]));
      assert s[..|l|] == l;
      assert s[|l| + 1..] == Terminated(lines[1..]);
      SplitTerminated(lines[1..]);
    }
  }
}
