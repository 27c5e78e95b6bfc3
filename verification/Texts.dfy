/** Python's text operations that the audit tool relies on, and what they mean. */
module Texts {

  // ----- str.strip and friends -----

  /** The characters that str.strip removes. */
  predicate IsSpace(c: char) {
    || '\U{0009}' <= c <= '\U{000D}' || '\U{001C}' <= c <= '\U{0020}' || c == '\U{0085}' || c == '\U{00A0}'
    || c == '\U{1680}' || '\U{2000}' <= c <= '\U{200A}' || c == '\U{2028}' || c == '\U{2029}' || c == '\U{202F}'
    || c == '\U{205F}' || c == '\U{3000}'
  }

  function StripLeft(s: string): (r: string)
    ensures |r| <= |s| && (r == "" || !IsSpace(r[0]))
  {
    if s == "" || !IsSpace(s[0]) then s else StripLeft(s[1..])
  }

  function StripRight(s: string): (r: string)
    ensures r <= s && (r == "" || !IsSpace(r[|r| - 1]))
  {
    if s == "" || !IsSpace(s[|s| - 1]) then s else StripRight(s[..|s| - 1])
  }

  function Strip(s: string): string {
    StripRight(StripLeft(s))
  }

  predicate Trimmed(s: string) {
    s == "" || (!IsSpace(s[0]) && !IsSpace(s[|s| - 1]))
  }

  predicate StartsWith(s: string, p: string) {
    p <= s
  }

  /** The position of the first occurrence of c. */
  function Find(s: string, c: char): (i: nat)
    ensures i <= |s| && c !in s[..i] && (i < |s| ==> s[i] == c)
  {
    if s == "" || s[0] == c then 0
    else
      var i := 1 + Find(s[1..], c);
      assert s[..i] == [s[0]] + s[1..][..i - 1];
      i
  }

  // ----- lines -----

  predicate IsBreak(c: char) {
    c == '\n' || c == '\r'
  }

  function FindBreak(s: string): (i: nat)
    ensures i <= |s| && (forall k | 0 <= k < i :: !IsBreak(s[k])) && (i < |s| ==> IsBreak(s[i]))
  {
    if s == "" || IsBreak(s[0]) then 0 else 1 + FindBreak(s[1..])
  }

  /** The lines of a file opened in text mode: "\n", "\r" and "\r\n" all end a line. */
  function Lines(text: string): seq<string>
    decreases |text|
  {
    if text == "" then []
    else
      var i := FindBreak(text);
      if i == |text| then [text]
      else [text[..i]] + Lines(text[i + (if text[i] == '\r' && i + 1 < |text| && text[i + 1] == '\n' then 2 else 1)..])
  }

  lemma {:induction false} StripTrimmed(s: string)
    requires Trimmed(s)
    ensures Strip(s) == s
  {
  }

  lemma {:induction false} StripIndented(s: string)
    requires s != "" && Trimmed(s)
    ensures Strip(" " + s) == s && Strip("  " + s) == s
  {
    assert (" " + s)[1..] == s && ("  " + s)[1..] == " " + s;
    assert StripLeft(" " + s) == s && StripLeft("  " + s) == StripLeft(" " + s);
  }

  lemma {:induction false} FindFirst(s: string, c: char, i: nat)
    requires i < |s| && c !in s[..i] && s[i] == c
    ensures Find(s, c) == i
  {
    if i > 0 {
      assert s[..i][0] == s[0];
      assert s[..i] == [s[0]] + s[1..][..i - 1];
      FindFirst(s[1..], c, i - 1);
    }
  }

  // ----- what lines are -----

  ghost predicate OneLine(line: string) {
    forall i | 0 <= i < |line| :: !IsBreak(line[i])
  }

  lemma {:induction false} FindBreakFirst(s: string, i: nat)
    requires i < |s| && IsBreak(s[i]) && forall k | 0 <= k < i :: !IsBreak(s[k])
    ensures FindBreak(s) == i
  {
    if i > 0 {
      FindBreakFirst(s[1..], i - 1);
    }
  }

  /** A line ends at the first line break, of either kind. */
  lemma {:induction false} LineEnds(line: string, end: string, rest: string)
    requires OneLine(line) && end in {"\n", "\r", "\r\n"} && (end == "\r" ==> !StartsWith(rest, "\n"))
    ensures Lines(line + end + rest) == [line] + Lines(rest)
  {
    var text := line + end + rest;
    assert text[|line|] == end[0];
    FindBreakFirst(text, |line|);
    assert text[..|line|] == line && text[|line| + |end|..] == rest;
    if |line| + 1 < |text| {
      assert text[|line| + 1] == (end + rest)[1];
    }
  }

  /** The last line needs no line break; an empty text has no line. */
  lemma {:induction false} LastLine(line: string)
    requires OneLine(line)
    ensures Lines(line) == if line == "" then [] else [line]
  {
  }

  // ----- what stripping means -----

  /** The white space of Unicode, as str.isspace has it. */
  predicate Blank(c: char) {
    c in {'\t', '\n', '\U{000B}', '\U{000C}', '\r', '\U{001C}', '\U{001D}', '\U{001E}', '\U{001F}', ' ', '\U{0085}',
          '\U{00A0}', '\U{1680}', '\U{2000}', '\U{2001}', '\U{2002}', '\U{2003}', '\U{2004}', '\U{2005}', '\U{2006}',
          '\U{2007}', '\U{2008}', '\U{2009}', '\U{200A}', '\U{2028}', '\U{2029}', '\U{202F}', '\U{205F}', '\U{3000}'}
  }

  ghost predicate Blanks(s: string) {
    forall c | c in s :: Blank(c)
  }

  /** c is what remains of s without the white space around it. */
  ghost predicate Core(s: string, c: string) {
    && (c != "" ==> !Blank(c[0]) && !Blank(c[|c| - 1]))
    && exists l, r :: Blanks(l) && Blanks(r) && s == l + c + r
  }

  /** The same but for white space around. */
  ghost predicate SameText(s: string, t: string) {
    exists c :: Core(s, c) && Core(t, c)
  }

  lemma {:induction false} BlankIsSpace(c: char)
    ensures Blank(c) <==> IsSpace(c)
  {
  }

  lemma {:induction false} StripIsCore(s: string, c: string)
    ensures Core(s, c) <==> c == Strip(s)
  {
    hide Blank, IsSpace, StripLeft, StripRight;
    forall x ensures Blank(x) <==> IsSpace(x) {
      BlankIsSpace(x);
    }
    if Core(s, c) {
      var l, r :| Blanks(l) && Blanks(r) && s == l + c + r;
      StripPadded(l, c, r);
    }
    StripSplits(s);
  }

  lemma {:induction false} StripSplits(s: string)
    ensures exists l, r :: Blanks(l) && Blanks(r) && s == l + Strip(s) + r
  {
    hide Blanks, StripLeft, StripRight;
    var l := StripLeftSplits(s);
    var r := StripRightSplits(StripLeft(s));
    assert s == l + Strip(s) + r;
  }

  lemma {:induction false} StripLeftSplits(s: string) returns (l: string)
    ensures Blanks(l) && s == l + StripLeft(s)
  {
    hide Blank, IsSpace;
    l := "";
    if s != "" && IsSpace(s[0]) {
      BlankIsSpace(s[0]);
      l := StripLeftSplits(s[1..]);
      l := [s[0]] + l;
    }
  }

  lemma {:induction false} StripRightSplits(s: string) returns (r: string)
    ensures Blanks(r) && s == StripRight(s) + r
  {
    hide Blank, IsSpace;
    r := "";
    if s != "" && IsSpace(s[|s| - 1]) {
      BlankIsSpace(s[|s| - 1]);
      r := StripRightSplits(s[..|s| - 1]);
      r := r + [s[|s| - 1]];
    }
  }

  lemma {:induction false} StripPadded(l: string, c: string, r: string)
    requires Blanks(l) && Blanks(r) && (c != "" ==> !Blank(c[0]) && !Blank(c[|c| - 1]))
    ensures Strip(l + c + r) == c
  {
    hide Blank, IsSpace;
    if c == "" {
      assert l + c + r == (l + r) + "";
      StripLeftPadded(l + r, "");
    } else {
      assert l + c + r == l + (c + r);
      BlankIsSpace(c[0]);
      BlankIsSpace(c[|c| - 1]);
      StripLeftPadded(l, c + r);
      StripRightPadded(c, r);
    }
  }

  lemma {:induction false} StripLeftPadded(l: string, t: string)
    requires Blanks(l) && (t == "" || !IsSpace(t[0]))
    ensures StripLeft(l + t) == t
  {
    hide Blank, IsSpace;
    if l == "" {
      assert l + t == t;
    } else {
      BlankIsSpace(l[0]);
      StripLeftPadded(l[1..], t);
      assert (l + t)[1..] == l[1..] + t;
    }
  }

  lemma {:induction false} StripRightPadded(t: string, r: string)
    requires Blanks(r) && (t == "" || !IsSpace(t[|t| - 1]))
    ensures StripRight(t + r) == t
  {
    hide Blank, IsSpace;
    if r == "" {
      assert t + r == t;
    } else {
      BlankIsSpace(r[|r| - 1]);
      StripRightPadded(t, r[..|r| - 1]);
      assert (t + r)[..|t + r| - 1] == t + r[..|r| - 1];
    }
  }

  lemma {:induction false} SameTextMeans(s: string, t: string)
    ensures SameText(s, t) <==> Strip(s) == Strip(t)
  {
    hide Core, Strip;
    StripIsCore(s, Strip(s));
    StripIsCore(t, Strip(s));
    if c :| Core(s, c) && Core(t, c) {
      StripIsCore(s, c);
      StripIsCore(t, c);
    }
  }

  lemma {:induction false} BlanksMeans(s: string)
    ensures Blanks(s) <==> Strip(s) == ""
  {
    hide Blank, Strip;
    StripIsCore(s, "");
    if Blanks(s) {
      assert Blanks("") && s == s + "" + "";
    }
    if l, r :| Blanks(l) && Blanks(r) && s == l + "" + r {
      assert forall c | c in s :: c in l || c in r;
    }
  }
}
