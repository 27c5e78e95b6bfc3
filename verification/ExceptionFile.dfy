/** The line-oriented parser of the audit exception list. */
module ExceptionFile {
  import opened Wrappers
  import opened Texts

  type Record = map<string, string>

  /** The error of unpacking a list item that has no colon. */
  datatype ParseError = NoColon(line: string)

  predicate Quoted(s: string, q: char) {
    s != "" && s[0] == q && s[|s| - 1] == q
  }

  /** split_kv: the text before and after the first colon, trimmed, one pair of quotes removed. */
  function SplitKV(line: string): Result<(string, string), ParseError> {
    var i := Find(line, ':');
    if i == |line| then Err(NoColon(line))
    else
      var v := Strip(line[i + 1..]);
      var unquoted :=
        if Quoted(v, '"') || Quoted(v, '\'') then (if |v| < 2 then "" else v[1..|v| - 1]) else v;
      Ok((Strip(line[..i]), unquoted))
  }

  // ----- the parser -----

  /** The records completed so far, and the one being filled. */
  datatype State = State(exceptions: seq<Record>, current: Option<Record>)

  const START := State([], None)

  /** An empty record is as good as none. */
  function Flushed(s: State): seq<Record> {
    if s.current.Some? && s.current.value != map[] then s.exceptions + [s.current.value] else s.exceptions
  }

  function Feed(s: State, raw: string): Result<State, ParseError> {
    var line := Strip(raw);
    if line == "" || StartsWith(line, "#") then Ok(s)
    else if StartsWith(line, "version:") || StartsWith(line, "exceptions:") then Ok(s)
    else if StartsWith(line, "- ") then
      var item := Strip(line[2..]);
      if item == "" then Ok(State(Flushed(s), Some(map[])))
      else
        match SplitKV(item)
        case Err(e) => Err(e)
        case Ok((key, value)) => Ok(State(Flushed(s), Some(map[key := value])))
    else if s.current.Some? && ':' in line then
      match SplitKV(line)
      case Err(e) => Err(e)
      case Ok((key, value)) => Ok(s.(current := Some(s.current.value[key := value])))
    else Ok(s)
  }

  function FeedAll(s: State, lines: seq<string>): Result<State, ParseError>
    decreases |lines|
  {
    if lines == [] then Ok(s)
    else
      match Feed(s, lines[0])
      case Err(e) => Err(e)
      case Ok(s1) => FeedAll(s1, lines[1..])
  }

  function Parse(text: string): Result<seq<Record>, ParseError> {
    match FeedAll(START, Lines(text))
    case Err(e) => Err(e)
    case Ok(s) => Ok(Flushed(s))
  }

  method ParseExceptions(text: string) returns (r: Result<seq<Record>, ParseError>)
    ensures r == Parse(text)
  {
    var exceptions: seq<Record> := [];
    var current: Option<Record> := None;
    var lines := Lines(text);
    for i := 0 to |lines|
      invariant FeedAll(START, lines) == FeedAll(State(exceptions, current), lines[i..])
    {
      var line := Strip(lines[i]);
      if line == "" || StartsWith(line, "#") {
        continue;
      }
      if StartsWith(line, "version:") || StartsWith(line, "exceptions:") {
        continue;
      }
      if StartsWith(line, "- ") {
        if current.Some? && current.value != map[] {
          exceptions := exceptions + [current.value];
        }
        current := Some(map[]);
        line := Strip(line[2..]);
        if line != "" {
          var kv := SplitKV(line);
          if kv.Err? {
            return Err(kv.error);
          }
          current := Some(map[kv.value.0 := kv.value.1]);
        }
        continue;
      }
      if current.Some? && ':' in line {
        var kv := SplitKV(line);
        if kv.Err? {
          return Err(kv.error);
        }
        current := Some(current.value[kv.value.0 := kv.value.1]);
      }
    }
    if current.Some? && current.value != map[] {
      exceptions := exceptions + [current.value];
    }
    r := Ok(exceptions);
  }

  // ----- printing -----

  type Entry = (string, string)

  function PrintEntry(e: Entry): string {
    e.0 + ": \"" + e.1 + "\""
  }

  /** "- key: value" for the first entry, "  key: value" for the others. */
  function RecordLines(entries: seq<Entry>): seq<string> {
    var n := |entries| - 1;
    if n < 0 then []
    else if n == 0 then ["- " + PrintEntry(entries[0])]
    else RecordLines(entries[..n]) + ["  " + PrintEntry(entries[n])]
  }

  function AllLines(records: seq<seq<Entry>>): seq<string> {
    if records == [] then [] else AllLines(records[..|records| - 1]) + RecordLines(records[|records| - 1])
  }

  function Text(lines: seq<string>): string {
    if lines == [] then "" else lines[0] + "\n" + Text(lines[1..])
  }

  function RecordOf(entries: seq<Entry>): (r: Record)
    ensures forall i | 0 <= i < |entries| :: entries[i].0 in r
  {
    if entries == [] then map[] else RecordOf(entries[..|entries| - 1])[entries[|entries| - 1].0 := entries[|entries| - 1].1]
  }

  function RecordsOf(records: seq<seq<Entry>>): (r: seq<Record>)
    ensures |r| == |records|
  {
    if records == [] then [] else RecordsOf(records[..|records| - 1]) + [RecordOf(records[|records| - 1])]
  }

  /** A key that can be printed anywhere in a record. */
  predicate PlainKey(k: string) {
    && Trimmed(k) && ':' !in k && '\n' !in k && '\r' !in k
  }

  /** A line with such a key is skipped, as a comment or a header. */
  predicate SkippedKey(k: string) {
    k == "version" || k == "exceptions" || StartsWith(k, "#")
  }

  /** A line with such a key starts a record. */
  predicate DashedKey(k: string) {
    StartsWith(k, "- ")
  }

  ghost predicate PlainEntries(entries: seq<Entry>) {
    entries != [] && forall i | 0 <= i < |entries| :: PlainKey(entries[i].0) && '\n' !in entries[i].1 && '\r' !in entries[i].1
  }

  /** After the first key, none is taken for a comment, a header or a list item. */
  ghost predicate Printable(entries: seq<Entry>) {
    PlainEntries(entries) && forall i | 0 < i < |entries| :: !SkippedKey(entries[i].0) && !DashedKey(entries[i].0)
  }

  /** What becomes of a printed record: its entries without the skipped ones, split where a record starts. */
  function Reread(entries: seq<Entry>): (r: seq<seq<Entry>>)
    ensures entries != [] ==> r != []
    ensures forall i | 0 <= i < |r| :: r[i] != []
  {
    var n := |entries| - 1;
    if n < 0 then []
    else if n == 0 then [entries]
    else
      var r, e := Reread(entries[..n]), entries[n];
      if SkippedKey(e.0) then r
      else if DashedKey(e.0) then r + [[(Strip(e.0[2..]), e.1)]]
      else r[..|r| - 1] + [r[|r| - 1] + [e]]
  }

  function Parsed(records: seq<seq<Entry>>): seq<Record> {
    if records == [] then [] else Parsed(records[..|records| - 1]) + RecordsOf(Reread(records[|records| - 1]))
  }

  // ----- round trip -----

  lemma {:induction false} PrintedShape(e: Entry)
    requires PlainKey(e.0)
    ensures var line := PrintEntry(e);
            line != "" && Trimmed(line) && ':' in line && Find(line, ':') == |e.0| && line[..|e.0|] == e.0
  {
    var line := PrintEntry(e);
    assert line == e.0 + (": \"" + e.1 + "\"");
    assert line[..|e.0|] == e.0 && line[|e.0|] == ':';
    FindFirst(line, ':', |e.0|);
  }

  lemma {:induction false} SplitPrinted(e: Entry)
    requires PlainKey(e.0)
    ensures SplitKV(PrintEntry(e)) == Ok(e)
  {
    hide Find, Strip, PlainKey;
    var quoted := "\"" + e.1 + "\"";
    assert quoted[1..|quoted| - 1] == e.1 && PrintEntry(e) == e.0 + ": " + quoted;
    SplitAtColon(e.0, quoted);
  }

  /** A line splits unless it has no colon. */
  lemma {:induction false} SplitNeedsColon(line: string)
    ensures SplitKV(line).Err? <==> ':' !in line
  {
    assert line[..|line|] == line;
  }

  /** The value may also be in single quotes. */
  lemma {:induction false} SplitSingleQuoted(k: string, v: string)
    requires PlainKey(k)
    ensures SplitKV(k + ": '" + v + "'") == Ok((k, v))
  {
    hide Find, Strip, PlainKey;
    var quoted := "'" + v + "'";
    assert quoted[1..|quoted| - 1] == v && k + ": '" + v + "'" == k + ": " + quoted;
    SplitAtColon(k, quoted);
  }

  /** Or bare. */
  lemma {:induction false} SplitBare(k: string, v: string)
    requires PlainKey(k) && v != "" && Trimmed(v) && !Quoted(v, '"') && !Quoted(v, '\'')
    ensures SplitKV(k + ": " + v) == Ok((k, v))
  {
    hide Find, Strip, PlainKey;
    SplitAtColon(k, v);
  }

  lemma {:induction false} SplitAtColon(k: string, v: string)
    requires PlainKey(k) && v != "" && Trimmed(v)
    ensures var line := k + ": " + v;
            Find(line, ':') == |k| < |line| && Strip(line[..|k|]) == k && Strip(line[|k| + 1..]) == v
  {
    var line := k + ": " + v;
    assert line[..|k|] == k && line[|k|] == ':' && line[|k| + 1..] == " " + v;
    FindFirst(line, ':', |k|);
    StripIndented(v);
    StripTrimmed(k);
  }

  /** What splitting gives for any line with a colon: the text before the first one and the text after it,
      without white space around, and the latter without one pair of quotes. A lone quote is empty. */
  lemma {:induction false} SplitMeans(before: string, after: string, key: string, text: string)
    requires ':' !in before && Core(before, key) && Core(after, text)
    ensures var r := SplitKV(before + ":" + after);
            && r.Ok? && r.value.0 == key
            && (forall q, inner | q in {'"', '\''} && text == [q] + inner + [q] :: r.value.1 == inner)
            && (forall q | q in {'"', '\''} && text == [q] :: r.value.1 == "")
            && ((text == "" || text[0] !in {'"', '\''} || text[|text| - 1] != text[0]) ==> r.value.1 == text)
  {
    hide Find, Strip;
    var line := before + ":" + after;
    assert line[..|before|] == before && line[|before|] == ':' && line[|before| + 1..] == after;
    FindFirst(line, ':', |before|);
    StripIsCore(before, key);
    StripIsCore(after, text);
    forall q, inner: string | text == [q] + inner + [q] ensures Quoted(text, q) && text[1..|text| - 1] == inner {
      assert text[|text| - 1] == q;
    }
  }

  // ----- single lines -----

  /** White space around a line does not matter. */
  lemma {:induction false} FeedPadded(s: State, line: string, padded: string)
    requires SameText(line, padded)
    ensures Feed(s, line) == Feed(s, padded)
  {
    hide Strip, SplitKV, Flushed;
    SameTextMeans(line, padded);
  }

  /** A line that starts no record is skipped unless it has a colon and belongs to a record. */
  lemma {:induction false} StraySkipped(s: State, line: string, text: string)
    requires Core(line, text) && !StartsWith(text, "- ") && (':' !in text || s.current.None?)
    ensures Feed(s, line) == Ok(s)
  {
    hide Strip, SplitKV, Flushed;
    StripIsCore(line, text);
  }

  /** A list item without a colon. */
  ghost predicate Malformed(line: string) {
    exists text :: Core(line, text) && StartsWith(text, "- ") && ':' !in text
  }

  lemma {:induction false} MalformedFails(s: State, line: string)
    ensures Feed(s, line).Err? <==> Malformed(line)
  {
    hide Strip, Flushed, SplitKV, Core;
    var text := Strip(line);
    forall t ensures Core(line, t) <==> t == text {
      StripIsCore(line, t);
    }
    if StartsWith(text, "- ") {
      ItemHasText(line);
      SplitNeedsColon(Strip(text[2..]));
      assert "#"[0] == '#' && "version:"[0] == 'v' && "exceptions:"[0] == 'e';
    } else {
      SplitNeedsColon(text);
    }
  }

  /** What follows the dash of a list item is never blank, and keeps every colon. */
  lemma {:induction false} ItemHasText(line: string)
    requires StartsWith(Strip(line), "- ")
    ensures var text := Strip(line); Strip(text[2..]) != "" && (':' in Strip(text[2..]) <==> ':' in text)
  {
    hide Core;
    var text := Strip(line);
    var rest := text[2..];
    assert text == "- " + rest;
    StripIsCore(line, text);
    CoreEnds(line, text);
    StripIsCore(rest, Strip(rest));
    CoreKeeps(rest, Strip(rest), ':');
    BlanksMeans(rest);
    assert rest != "" ==> rest[|rest| - 1] in rest && rest[|rest| - 1] == text[|text| - 1];
  }

  lemma {:induction false} CoreEnds(s: string, c: string)
    requires Core(s, c) && c != ""
    ensures !Blank(c[|c| - 1])
  {
  }

  lemma {:induction false} CoreKeeps(s: string, c: string, x: char)
    requires Core(s, c) && !Blank(x)
    ensures x in c <==> x in s
  {
    var l, r :| Blanks(l) && Blanks(r) && s == l + c + r;
    assert forall y | y in s :: y in l || y in c || y in r;
    assert forall y | y in c :: y in l + c + r;
  }

  ghost predicate SomeMalformed(lines: seq<string>) {
    exists i :: 0 <= i < |lines| && Malformed(lines[i])
  }

  /** The first malformed line is the i-th, and what follows its dash is the item. */
  ghost predicate FailsAt(lines: seq<string>, i: int, item: string) {
    && 0 <= i < |lines| && (forall j | 0 <= j < i :: !Malformed(lines[j]))
    && exists text :: Core(lines[i], text) && StartsWith(text, "- ") && ':' !in text && Core(text[2..], item)
  }

  /** Parsing fails exactly when some line is a list item without a colon, wherever it stands, and the first
      such item is the error. */
  lemma {:induction false} ParseFails(text: string)
    ensures Parse(text).Err? <==> SomeMalformed(Lines(text))
    ensures Parse(text).Err? ==> exists i :: FailsAt(Lines(text), i, Parse(text).error.line)
  {
    hide SomeMalformed, FailsAt;
    FeedAllFails(START, Lines(text));
  }

  lemma {:induction false} FeedAllFails(s: State, lines: seq<string>)
    ensures FeedAll(s, lines).Err? <==> SomeMalformed(lines)
    ensures FeedAll(s, lines).Err? ==> exists i :: FailsAt(lines, i, FeedAll(s, lines).error.line)
    decreases |lines|
  {
    hide Feed, Malformed, Core, StartsWith;
    if lines != [] {
      MalformedFails(s, lines[0]);
      if Feed(s, lines[0]).Ok? {
        FeedAllFails(Feed(s, lines[0]).value, lines[1..]);
        assert forall i | 0 < i < |lines| :: lines[i] == lines[1..][i - 1];
        if FeedAll(s, lines).Err? {
          var i :| FailsAt(lines[1..], i, FeedAll(s, lines).error.line);
          assert FailsAt(lines, i + 1, FeedAll(s, lines).error.line);
        }
      } else {
        MalformedItem(s, lines[0]);
        assert FailsAt(lines, 0, Feed(s, lines[0]).error.line);
      }
    }
  }

  lemma {:induction false} MalformedItem(s: State, line: string)
    requires Feed(s, line).Err?
    ensures var item := Feed(s, line).error.line;
            exists text :: Core(line, text) && StartsWith(text, "- ") && ':' !in text && Core(text[2..], item)
  {
    hide Strip, Flushed, Core;
    var text := Strip(line);
    MalformedFails(s, line);
    forall t ensures Core(line, t) <==> t == text {
      StripIsCore(line, t);
    }
    StripIsCore(text[2..], Strip(text[2..]));
  }

  /** Blank lines, comments and the two headers. */
  predicate Ignorable(line: string) {
    var l := Strip(line);
    l == "" || StartsWith(l, "#") || StartsWith(l, "version:") || StartsWith(l, "exceptions:")
  }

  /** Such lines may stand anywhere. */
  lemma {:induction false} IgnorableAnywhere(s: State, before: seq<string>, line: string, after: seq<string>)
    requires Ignorable(line)
    ensures FeedAll(s, before + [line] + after) == FeedAll(s, before + after)
  {
    hide Feed, FeedAll, Strip;
    FeedAllConcat(s, before + [line], after);
    FeedAllConcat(s, before, [line]);
    FeedAllConcat(s, before, after);
    if FeedAll(s, before).Ok? {
      FeedOne(FeedAll(s, before).value, line);
      FeedIgnorable(FeedAll(s, before).value, line);
    }
  }

  lemma {:induction false} FeedIgnorable(s: State, line: string)
    requires Ignorable(line)
    ensures Feed(s, line) == Ok(s)
  {
  }

  lemma {:induction false} ListItem(item: string)
    requires item != "" && Trimmed(item)
    ensures var raw := "- " + item;
            && Strip(raw) == raw && raw != "" && raw[2..] == item && StartsWith(raw, "- ")
            && !StartsWith(raw, "#") && !StartsWith(raw, "version:") && !StartsWith(raw, "exceptions:")
  {
    var raw := "- " + item;
    assert raw[0] == '-' && raw[|raw| - 1] == item[|item| - 1];
    StripTrimmed(raw);
    assert "#"[0] == '#' && "version:"[0] == 'v' && "exceptions:"[0] == 'e';
  }

  lemma {:induction false} FeedFirst(s: State, e: Entry)
    requires PlainKey(e.0)
    ensures Feed(s, "- " + PrintEntry(e)) == Ok(State(Flushed(s), Some(map[e.0 := e.1])))
  {
    hide SplitKV, Strip, PrintEntry, Trimmed, StartsWith, Flushed;
    PrintedShape(e);
    ListItem(PrintEntry(e));
    StripTrimmed(PrintEntry(e));
    SplitPrinted(e);
  }

  /** A line that starts with a word and a colon starts with that word as its key. */
  lemma {:induction false} ReservedKey(e: Entry, word: string)
    requires PlainKey(e.0) && ':' !in word && StartsWith(PrintEntry(e), word + ":")
    ensures e.0 == word
  {
    PrintedShape(e);
    var line := PrintEntry(e);
    assert line[..|word| + 1] == word + ":";
    assert line[|word|] == (word + ":")[|word|] == ':';
    assert line[..|word|] == word;
    FindFirst(line, ':', |word|);
  }

  lemma {:induction false} FeedInner(s: State, e: Entry)
    requires s.current.Some? && PlainKey(e.0) && !SkippedKey(e.0) && !DashedKey(e.0)
    ensures Feed(s, "  " + PrintEntry(e)) == Ok(s.(current := Some(s.current.value[e.0 := e.1])))
  {
    hide SplitKV, Strip, PrintEntry, Trimmed, StartsWith, Flushed;
    PrintedShape(e);
    StripIndented(PrintEntry(e));
    SplitPrinted(e);
    NotReserved(e);
    NotMarked(e, "#");
    NotMarked(e, "- ");
  }

  lemma {:induction false} FeedSkipped(s: State, e: Entry)
    requires PlainKey(e.0) && SkippedKey(e.0)
    ensures Feed(s, "  " + PrintEntry(e)) == Ok(s)
  {
    hide SplitKV, Strip, Flushed;
    var line := PrintEntry(e);
    PrintedShape(e);
    StripIndented(line);
    assert line == e.0 + ":" + (" \"" + e.1 + "\"");
    assert line[..|e.0| + 1] == e.0 + ":";
    if StartsWith(e.0, "#") {
      assert line[..1] == e.0[..1];
    }
  }

  /** The key of a record that starts at a key with a dash. */
  lemma {:induction false} DashedKeyIsPlain(k: string)
    requires PlainKey(k) && DashedKey(k)
    ensures PlainKey(Strip(k[2..])) && StripLeft(k[2..]) == Strip(k[2..]) != ""
  {
    var inner := k[2..];
    assert k[|k| - 1] == inner[|inner| - 1];
    StripLeftKeepsEnd(inner);
    assert forall c | c in StripLeft(inner) :: c in k;
  }

  lemma {:induction false} StripLeftKeepsEnd(s: string)
    requires s != "" && !IsSpace(s[|s| - 1])
    ensures StripLeft(s) != "" && StripLeft(s)[|StripLeft(s)| - 1] == s[|s| - 1]
    ensures forall c | c in StripLeft(s) :: c in s
    ensures forall t :: StripLeft(s + t) == StripLeft(s) + t
  {
    if IsSpace(s[0]) {
      StripLeftKeepsEnd(s[1..]);
      forall t ensures StripLeft(s + t) == StripLeft(s) + t {
        assert (s + t)[1..] == s[1..] + t;
      }
    }
  }

  lemma {:induction false} FeedDashed(s: State, e: Entry)
    requires PlainKey(e.0) && DashedKey(e.0)
    ensures Feed(s, "  " + PrintEntry(e)) == Feed(s, "- " + PrintEntry((Strip(e.0[2..]), e.1)))
  {
    hide SplitKV, Flushed, PlainKey;
    var line, e' := PrintEntry(e), (Strip(e.0[2..]), e.1);
    DashedItem(e);
    ListItem(PrintEntry(e'));
    assert "#"[0] == '#' && "version:"[0] == 'v' && "exceptions:"[0] == 'e';
  }

  lemma {:induction false} DashedItem(e: Entry)
    requires PlainKey(e.0) && DashedKey(e.0)
    ensures var line, item := PrintEntry(e), PrintEntry((Strip(e.0[2..]), e.1));
            && Strip("  " + line) == line && StartsWith(line, "- ") && line[0] == '-' && Strip(line[2..]) == item
            && item != "" && Trimmed(item) && Strip(item) == item
  {
    hide Strip;
    var line, e' := PrintEntry(e), (Strip(e.0[2..]), e.1);
    PrintedShape(e);
    StripIndented(line);
    DashedKeyIsPlain(e.0);
    PrintedShape(e');
    StripTrimmed(PrintEntry(e'));
    DashedText(e);
    assert line[..2] == e.0[..2];
  }

  lemma {:induction false} DashedText(e: Entry)
    requires PlainKey(e.0) && DashedKey(e.0)
    ensures Strip(PrintEntry(e)[2..]) == PrintEntry((Strip(e.0[2..]), e.1))
  {
    hide IsSpace, Strip;
    var rest := ": \"" + e.1 + "\"";
    DashedKeyIsPlain(e.0);
    KeyEnds(e.0);
    StripLeftKeepsEnd(e.0[2..]);
    assert PrintEntry(e) == e.0 + rest && PrintEntry(e)[2..] == e.0[2..] + rest;
    var item := PrintEntry((Strip(e.0[2..]), e.1));
    assert item == StripLeft(e.0[2..]) + rest;
    StripIsStripRight(PrintEntry(e)[2..], item);
  }

  lemma {:induction false} KeyEnds(k: string)
    requires PlainKey(k) && DashedKey(k)
    ensures k[2..] != "" && !IsSpace(k[2..][|k[2..]| - 1])
  {
  }

  lemma {:induction false} StripIsStripRight(s: string, t: string)
    requires StripLeft(s) == t != "" && t[|t| - 1] == '"'
    ensures Strip(s) == t
  {
  }

  lemma {:induction false} NotReserved(e: Entry)
    requires PlainKey(e.0) && !SkippedKey(e.0)
    ensures !StartsWith(PrintEntry(e), "version:") && !StartsWith(PrintEntry(e), "exceptions:")
  {
    hide StartsWith, PrintEntry, PlainKey;
    assert "version" + ":" == "version:" && "exceptions" + ":" == "exceptions:";
    if StartsWith(PrintEntry(e), "version:") {
      ReservedKey(e, "version");
    }
    if StartsWith(PrintEntry(e), "exceptions:") {
      ReservedKey(e, "exceptions");
    }
  }

  lemma {:induction false} NotMarked(e: Entry, mark: string)
    requires PlainKey(e.0) && mark in {"#", "- "} && !StartsWith(e.0, mark)
    ensures !StartsWith(PrintEntry(e), mark)
  {
    var line := PrintEntry(e);
    assert line == e.0 + (": \"" + e.1 + "\"");
    if |e.0| >= |mark| {
      assert line[..|mark|] == e.0[..|mark|];
    } else {
      assert line[|e.0|] == ':' != mark[|e.0|];
    }
  }

  lemma {:induction false} FeedAllConcat(s: State, a: seq<string>, b: seq<string>)
    ensures FeedAll(s, a + b) == match FeedAll(s, a) case Err(e) => Err(e) case Ok(s1) => FeedAll(s1, b)
    decreases |a|
  {
    if a == [] {
      assert a + b == b;
    } else {
      assert (a + b)[1..] == a[1..] + b;
      match Feed(s, a[0])
      case Err(_) =>
      case Ok(s1) => FeedAllConcat(s1, a[1..], b);
    }
  }

  lemma {:induction false} FeedOne(s: State, line: string)
    ensures FeedAll(s, [line]) == Feed(s, line)
  {
    assert [line][1..] == [];
    match Feed(s, line)
    case Err(_) =>
    case Ok(s1) => assert FeedAll(s1, []) == Ok(s1);
  }

  /** The state after the lines of one record. */
  function Reading(s: State, groups: seq<seq<Entry>>): State
    requires groups != []
  {
    State(Flushed(s) + RecordsOf(groups[..|groups| - 1]), Some(RecordOf(groups[|groups| - 1])))
  }

  lemma {:induction false} FeedRecord(s: State, entries: seq<Entry>)
    requires PlainEntries(entries)
    ensures FeedAll(s, RecordLines(entries)) == Ok(Reading(s, Reread(entries)))
    decreases |entries|
  {
    hide Feed, FeedAll, PrintEntry, PlainKey, Flushed, Reading, Reread;
    var n := |entries| - 1;
    var last, rest := entries[n], entries[..n];
    if n == 0 {
      assert entries == [last];
      FeedFirst(s, last);
      FeedOne(s, "- " + PrintEntry(last));
      OneEntry(s, last);
    } else {
      FeedRecord(s, rest);
      var line := "  " + PrintEntry(last);
      FeedAllConcat(s, RecordLines(rest), [line]);
      FeedOne(Reading(s, Reread(rest)), line);
      FeedEntry(s, entries);
    }
  }

  lemma {:induction false} OneEntry(s: State, e: Entry)
    ensures Reread([e]) == [[e]] && RecordOf([e]) == map[e.0 := e.1]
    ensures Reading(s, Reread([e])) == State(Flushed(s), Some(map[e.0 := e.1]))
  {
    hide Flushed;
    assert RecordOf([e][..0]) == map[];
    assert [[e]][..0] == [] && Flushed(s) + [] == Flushed(s);
  }

  lemma {:induction false} FeedEntry(s: State, entries: seq<Entry>)
    requires PlainEntries(entries) && |entries| > 1
    ensures var n := |entries| - 1;
            Feed(Reading(s, Reread(entries[..n])), "  " + PrintEntry(entries[n])) == Ok(Reading(s, Reread(entries)))
  {
    hide Feed, PrintEntry, PlainKey, Flushed, SkippedKey, RecordOf, RecordsOf, Strip;
    var n := |entries| - 1;
    var r, e := Reread(entries[..n]), entries[n];
    var m := |r| - 1;
    if SkippedKey(e.0) {
      FeedSkipped(Reading(s, r), e);
    } else if DashedKey(e.0) {
      var e' := (Strip(e.0[2..]), e.1);
      FeedDashed(Reading(s, r), e);
      DashedKeyIsPlain(e.0);
      FeedFirst(Reading(s, r), e');
      FlushedReading(s, r);
      OneEntry(s, e');
      assert (r + [[e']])[..|r|] == r;
    } else {
      FeedInner(Reading(s, r), e);
      RecordAppend(r[m], e);
      assert (r[..m] + [r[m] + [e]])[..m] == r[..m];
    }
  }

  lemma {:induction false} RecordAppend(entries: seq<Entry>, e: Entry)
    ensures RecordOf(entries + [e]) == RecordOf(entries)[e.0 := e.1]
  {
    assert (entries + [e])[..|entries|] == entries;
  }

  lemma {:induction false} FlushedReading(s: State, groups: seq<seq<Entry>>)
    requires groups != [] && groups[|groups| - 1] != []
    ensures Flushed(Reading(s, groups)) == Flushed(s) + RecordsOf(groups)
  {
    var last := groups[|groups| - 1];
    assert last[|last| - 1].0 in RecordOf(last);
  }

  lemma {:induction false} FeedNothing(s: State)
    ensures FeedAll(s, AllLines([])) == Ok(s)
  {
  }

  lemma {:induction false} FeedRecords(s: State, records: seq<seq<Entry>>)
    requires forall i | 0 <= i < |records| :: PlainEntries(records[i])
    ensures var r := FeedAll(s, AllLines(records)); r.Ok? && Flushed(r.value) == Flushed(s) + Parsed(records)
    decreases |records|
  {
    hide FeedAll, RecordLines, PlainEntries, Flushed, RecordsOf, Reading, Reread;
    if records == [] {
      FeedNothing(s);
      assert Flushed(s) + [] == Flushed(s);
    } else {
      var rest, last := records[..|records| - 1], records[|records| - 1];
      FeedRecords(s, rest);
      FeedAllConcat(s, AllLines(rest), RecordLines(last));
      var s1 := FeedAll(s, AllLines(rest)).value;
      FeedRecord(s1, last);
      NotNothing(last);
      FlushedReading(s1, Reread(last));
      assert Flushed(s) + Parsed(rest) + RecordsOf(Reread(last)) == Flushed(s) + Parsed(records);
    }
  }

  lemma {:induction false} NotNothing(entries: seq<Entry>)
    requires PlainEntries(entries)
    ensures entries != []
  {
  }

  lemma {:induction false} LinesOfText(lines: seq<string>)
    requires AllOnOneLine(lines)
    ensures Lines(Text(lines)) == lines
  {
    hide Lines, OneLine;
    if lines == [] {
      LastLine("");
    } else {
      LineEnds(lines[0], "\n", Text(lines[1..]));
      LinesOfText(lines[1..]);
    }
  }

  ghost predicate AllOnOneLine(lines: seq<string>) {
    forall i | 0 <= i < |lines| :: OneLine(lines[i])
  }

  lemma {:induction false} RecordOnOneLine(entries: seq<Entry>)
    requires PlainEntries(entries)
    ensures AllOnOneLine(RecordLines(entries))
  {
    hide OneLine, PrintEntry, PlainKey;
    var n := |entries| - 1;
    EntryOnOneLine(entries[n]);
    if n > 0 {
      RecordOnOneLine(entries[..n]);
    }
  }

  lemma {:induction false} PrintedOnOneLine(records: seq<seq<Entry>>)
    requires forall i | 0 <= i < |records| :: PlainEntries(records[i])
    ensures AllOnOneLine(AllLines(records))
  {
    hide OneLine, PlainEntries, RecordLines;
    if records != [] {
      RecordOnOneLine(records[|records| - 1]);
      PrintedOnOneLine(records[..|records| - 1]);
    }
  }

  lemma {:induction false} EntryOnOneLine(e: Entry)
    requires PlainKey(e.0) && '\n' !in e.1 && '\r' !in e.1
    ensures OneLine("- " + PrintEntry(e)) && OneLine("  " + PrintEntry(e))
  {
    forall i | 0 <= i < |e.0| ensures !IsBreak(e.0[i]) {
      assert e.0[i] in e.0;
    }
    forall i | 0 <= i < |e.1| ensures !IsBreak(e.1[i]) {
      assert e.1[i] in e.1;
    }
  }

  /** What parsing a printed list of records gives, whatever their keys look like. */
  lemma {:induction false} ParsePrinted(records: seq<seq<Entry>>)
    requires forall i | 0 <= i < |records| :: PlainEntries(records[i])
    ensures Parse(Text(AllLines(records))) == Ok(Parsed(records))
  {
    hide Feed, FeedAll, Lines, Text, AllLines, PlainEntries, AllOnOneLine, Parsed;
    PrintedOnOneLine(records);
    LinesOfText(AllLines(records));
    FeedRecords(START, records);
    assert [] + Parsed(records) == Parsed(records);
  }

  // ----- when printing and parsing give the records back -----

  /** After the first, no key starts a record, and one that is skipped repeats the first entry. */
  ghost predicate Survives(entries: seq<Entry>) {
    forall i | 0 < i < |entries| ::
      && !DashedKey(entries[i].0)
      && (SkippedKey(entries[i].0) ==> entries[i].0 == entries[0].0 && RecordOf(entries)[entries[i].0] == entries[0].1)
  }

  /** Printing and parsing gives the records back if and only if each of them survives. Values may
      hold quotes, colons, "#" and outer blanks. */
  lemma {:induction false} RoundTrip(records: seq<seq<Entry>>)
    requires forall i | 0 <= i < |records| :: PlainEntries(records[i])
    ensures Parse(Text(AllLines(records))) == Ok(RecordsOf(records)) <==> forall i | 0 <= i < |records| :: Survives(records[i])
    ensures forall i | 0 <= i < |records| && Printable(records[i]) :: Survives(records[i])
  {
    hide Parse, Text, AllLines, Parsed, RecordsOf, PlainEntries, PlainKey, SkippedKey, DashedKey;
    ParsePrinted(records);
    ParsedIsRecords(records);
  }

  lemma {:induction false} ParsedIsRecords(records: seq<seq<Entry>>)
    requires forall i | 0 <= i < |records| :: PlainEntries(records[i])
    ensures |Parsed(records)| >= |records|
    ensures Parsed(records) == RecordsOf(records) <==> forall i | 0 <= i < |records| :: Survives(records[i])
    decreases |records|
  {
    hide PlainEntries, Survives, Reread, RecordOf;
    if records != [] {
      var n := |records| - 1;
      var rest, last := records[..n], records[n];
      ParsedIsRecords(rest);
      NotNothing(last);
      RereadIsRecord(last);
      var a, b, c, d := Parsed(rest), RecordsOf(Reread(last)), RecordsOf(rest), [RecordOf(last)];
      assert Parsed(records) == a + b && RecordsOf(records) == c + d;
      ConcatEqual(a, b, c, d);
      assert (forall i | 0 <= i < |records| :: Survives(records[i])) <==>
             (forall i | 0 <= i < |rest| :: Survives(rest[i])) && Survives(last);
    }
  }

  lemma {:induction false} ConcatEqual<T>(a: seq<T>, b: seq<T>, c: seq<T>, d: seq<T>)
    requires |a| >= |c| && |b| >= |d|
    ensures a + b == c + d <==> a == c && b == d
  {
    if a + b == c + d {
      assert |a| == |c| && a == (a + b)[..|a|] && c == (c + d)[..|c|];
      assert b == (a + b)[|a|..] && d == (c + d)[|c|..];
    }
  }

  lemma {:induction false} RereadIsRecord(entries: seq<Entry>)
    requires entries != []
    ensures RecordsOf(Reread(entries)) == [RecordOf(entries)] <==> Survives(entries)
  {
    hide DashedKey, SkippedKey, Reread, RecordOf;
    RereadCount(entries);
    if |Reread(entries)| == 1 {
      var kept := Reread(entries)[0];
      assert Reread(entries) == [kept] && [kept][..0] == [] && RecordsOf([kept]) == [RecordOf(kept)];
      KeptIsRecord(entries, kept);
    }
  }

  lemma {:induction false} RereadCount(entries: seq<Entry>)
    requires entries != []
    ensures |Reread(entries)| == 1 <==> forall i | 0 < i < |entries| :: !DashedKey(entries[i].0) || SkippedKey(entries[i].0)
  {
    hide DashedKey, SkippedKey, Strip;
    var n := |entries| - 1;
    if n > 0 {
      RereadCount(entries[..n]);
    }
  }

  lemma {:induction false} KeptIsRecord(entries: seq<Entry>, kept: seq<Entry>)
    requires entries != [] && Reread(entries) == [kept]
    ensures RecordOf(kept) == RecordOf(entries) <==> Survives(entries)
  {
    hide DashedKey, SkippedKey, Reread, RecordOf;
    var all, some := RecordOf(entries), RecordOf(kept);
    RereadCount(entries);
    forall i | 0 <= i < |entries| ensures !DashedKey(entries[i].0) || !SkippedKey(entries[i].0) {
      SkippedOrDashed(entries[i].0);
    }
    forall k ensures !SkippedKey(k) ==> Lookup(some, k) == Lookup(all, k)
             ensures SkippedKey(k) ==> Lookup(some, k) == if k == entries[0].0 then Some(entries[0].1) else None
    {
      KeptLookup(entries, kept, k);
    }
    if Survives(entries) {
      forall k ensures Lookup(some, k) == Lookup(all, k) {
        if k in all {
          var i := LastWithKey(entries, k);
        }
      }
      assert forall k :: k in some <==> Lookup(some, k).Some?;
      assert forall k :: k in all <==> Lookup(all, k).Some?;
    }
  }

  function Lookup(r: Record, k: string): Option<string> {
    if k in r then Some(r[k]) else None
  }

  lemma {:induction false} SkippedOrDashed(k: string)
    ensures !DashedKey(k) || !SkippedKey(k)
  {
    assert "- "[0] == '-' && "#"[0] == '#' && "version"[0] == 'v' && "exceptions"[0] == 'e';
  }

  lemma {:induction false} KeptLookup(entries: seq<Entry>, kept: seq<Entry>, k: string)
    requires entries != [] && Reread(entries) == [kept]
    ensures Lookup(RecordOf(kept), k) == if !SkippedKey(k) then Lookup(RecordOf(entries), k)
                                         else if k == entries[0].0 then Some(entries[0].1) else None
  {
    hide DashedKey, SkippedKey, Strip;
    var n := |entries| - 1;
    if n == 0 {
      assert entries == [entries[0]] && RecordOf(entries[..0]) == map[];
    } else {
      var r, e := Reread(entries[..n]), entries[n];
      assert |Reread(entries)| == 1 && Reread(entries)[0] == kept;
      assert r == [r[0]] && (kept == r[0] || kept == r[0] + [e]);
      KeptLookup(entries[..n], r[0], k);
      RecordAppend(r[0], e);
      assert entries[..n][0] == entries[0];
    }
  }

  /** Of the entries with one key the last counts. */
  lemma {:induction false} LastWithKey(entries: seq<Entry>, k: string) returns (i: nat)
    requires k in RecordOf(entries)
    ensures i < |entries| && entries[i] == (k, RecordOf(entries)[k])
    ensures forall j | i < j < |entries| :: entries[j].0 != k
  {
    var n := |entries| - 1;
    if entries[n].0 == k {
      i := n;
    } else {
      i := LastWithKey(entries[..n], k);
    }
  }

  /** So a key after the first that is taken for a comment or a header is lost, unless the first
      entry has it too; the record is otherwise as printed. */
  lemma {:induction false} ReservedKeyDropped(entries: seq<Entry>, k: string)
    requires PlainEntries(entries) && forall i | 0 < i < |entries| :: !DashedKey(entries[i].0)
    ensures var r := Parse(Text(AllLines([entries])));
            && r.Ok? && |r.value| == 1
            && Lookup(r.value[0], k) == if !SkippedKey(k) then Lookup(RecordOf(entries), k)
                                        else if k == entries[0].0 then Some(entries[0].1) else None
  {
    hide Parse, Text, AllLines, Reread, RecordOf, Lookup, SkippedKey, DashedKey, PlainKey;
    ParsePrinted([entries]);
    RereadCount(entries);
    var groups := Reread(entries);
    assert groups == [groups[0]];
    KeptLookup(entries, groups[0], k);
    assert [entries][..0] == [] && Parsed([]) == [] && groups[..0] == [];
    assert Parsed([entries]) == RecordsOf(groups);
  }
}
