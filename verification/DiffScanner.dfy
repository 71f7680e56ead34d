/**
  `scan_added_secrets`: a line scanner over a unified diff, against the structured
  diff it was printed from.  The secret patterns are a parameter.
 */
module DiffScanner {
  import opened Prelude

  type Kind = nat
  type Matcher = (Kind, string) -> bool
  datatype Finding = Finding(kind: Kind, file: string, line: int)

  /** private_key, github_token, openai_key, aws_access_key, generic_secret. */
  const KINDS := 5

  // ---------- str.splitlines ----------

  /** The line boundaries of `str.splitlines`. */
  predicate IsBoundary(c: char) {
    c in {'\n', '\r', '\U{0B}', '\U{0C}', '\U{1C}', '\U{1D}', '\U{1E}', '\U{85}', '\U{2028}', '\U{2029}'}
  }

  /** The length of the first line, without its boundary. */
  function LineLength(text: string): (n: nat)
    ensures n <= |text| && (n < |text| ==> IsBoundary(text[n]))
    ensures forall i :: 0 <= i < n ==> !IsBoundary(text[i])
  {
    if text == "" || IsBoundary(text[0]) then 0 else 1 + LineLength(text[1..])
  }

  /** A carriage return and the newline after it are one boundary. */
  function BoundaryLength(rest: string): (n: nat)
    ensures n <= |rest| && (rest != "" ==> n > 0)
  {
    if rest == "" then 0 else if "\r\n" <= rest then 2 else 1
  }

  function SplitLines(text: string): seq<string>
    decreases |text|
  {
    if text == "" then []
    else
      var n := LineLength(text);
      [text[..n]] + SplitLines(text[n..][BoundaryLength(text[n..])..])
  }

  predicate OneLine(s: string) { forall i :: 0 <= i < |s| ==> !IsBoundary(s[i]) }

  /** The lines as text, each ended by a newline. */
  function Joined(lines: seq<string>): string {
    if lines == [] then "" else lines[0] + ("\n" + Joined(lines[1..]))
  }

  lemma FirstLine(line: string, rest: string)
    requires OneLine(line)
    ensures SplitLines(line + ("\n" + rest)) == [line] + SplitLines(rest)
  {
    var text := line + ("\n" + rest);
    assert text[|line|] == '\n' && text[|line|..] == "\n" + rest;
    assert LineLength(text) == |line|;
    assert BoundaryLength(text[|line|..]) == 1 && text[|line|..][1..] == rest;
  }

  lemma {:induction false} SplitInvertsJoin(lines: seq<string>)
    requires forall l :: l in lines ==> OneLine(l)
    ensures SplitLines(Joined(lines)) == lines
  {
    if lines != [] {
      SplitInvertsJoin(lines[1..]);
      FirstLine(lines[0], Joined(lines[1..]));
    }
  }

  lemma TailEndsLine(line: string, tail: string)
    requires OneLine(line) && tail != "" && IsBoundary(tail[0])
    ensures SplitLines(line + tail) == [line] + SplitLines(tail[BoundaryLength(tail)..])
  {
    var text := line + tail;
    assert text[|line|] == tail[0] && text[|line|..] == tail && text[..|line|] == line;
    assert LineLength(text) == |line|;
  }

  /** Every boundary character ends a line. */
  lemma BoundaryEndsLine(line: string, c: char, rest: string)
    requires OneLine(line) && (c == '\r' && rest != "" ==> rest[0] != '\n')
    requires '\n' <= c <= '\r' || '\U{1C}' <= c <= '\U{1E}' || c == '\U{85}' || '\U{2028}' <= c <= '\U{2029}'
    ensures SplitLines(line + ([c] + rest)) == [line] + SplitLines(rest)
  {
    var tail := [c] + rest;
    TailEndsLine(line, tail);
    assert tail[0] == c && (rest != "" ==> tail[1] == rest[0]);
    assert BoundaryLength(tail) == 1 && tail[1..] == rest;
  }

  /** A carriage return and the newline after it end only one. */
  lemma ReturnAndNewlineEndOneLine(line: string, rest: string)
    requires OneLine(line)
    ensures SplitLines(line + (['\r', '\n'] + rest)) == [line] + SplitLines(rest)
  {
    var tail := ['\r', '\n'] + rest;
    TailEndsLine(line, tail);
    assert tail[0] == '\r' && tail[1] == '\n';
    assert BoundaryLength(tail) == 2 && tail[2..] == rest;
  }

  /** The text without its last newline. */
  function Chopped(text: string): string { if text == "" then "" else text[..|text| - 1] }

  lemma LastLine(line: string)
    requires OneLine(line) && line != ""
    ensures SplitLines(line) == [line]
  {
    assert LineLength(line) == |line|;
    assert line[..|line|] == line && line[|line|..] == "";
    assert SplitLines("") == [];
  }

  lemma ChopInside(line: string, rest: string)
    requires rest != ""
    ensures Chopped(line + ("\n" + rest)) == line + ("\n" + Chopped(rest))
  {
  }

  lemma ChopAtEnd(line: string)
    ensures Chopped(line + ("\n" + "")) == line
  {
  }

  lemma {:induction false} SplitInvertsChoppedJoin(lines: seq<string>)
    requires forall l :: l in lines ==> OneLine(l) && l != ""
    ensures SplitLines(Chopped(Joined(lines))) == lines
  {
    if lines == [] {
    } else if lines[1..] == [] {
      ChopAtEnd(lines[0]);
      LastLine(lines[0]);
    } else {
      SplitInvertsChoppedJoin(lines[1..]);
      ChopInside(lines[0], Joined(lines[1..]));
      FirstLine(lines[0], Chopped(Joined(lines[1..])));
    }
  }

  // ---------- the scanner ----------

  /** What the loop carries from line to line. */
  datatype Cursor = Cursor(file: string, line: int)

  function Hits(m: Matcher, content: string, c: Cursor, kinds: nat): seq<Finding> {
    if kinds == 0 then []
    else Hits(m, content, c, kinds - 1) + if m(kinds - 1, content) then [Finding(kinds - 1, c.file, c.line)] else []
  }

  predicate IsDigit(c: char) { '0' <= c <= '9' }

  function DigitsPrefix(s: string): string {
    if s != "" && IsDigit(s[0]) then [s[0]] + DigitsPrefix(s[1..]) else ""
  }

  function DigitOf(c: char): nat { if IsDigit(c) then (c - '0') as nat else 0 }

  function Value(digits: string): nat {
    if digits == "" then 0 else 10 * Value(digits[..|digits| - 1]) + DigitOf(digits[|digits| - 1])
  }

  /** `re.search(r"\+(\d+)", line)`: the number after the first plus sign that has one. */
  function PlusNumber(line: string): Option<nat> {
    if line == "" then None
    else if line[0] == '+' && DigitsPrefix(line[1..]) != "" then Some(Value(DigitsPrefix(line[1..])))
    else PlusNumber(line[1..])
  }

  predicate NamesFile(line: string) { "+++ b/" <= line }

  predicate StartsHunk(line: string) { "@@" <= line }

  predicate IsAddition(line: string) { "+" <= line && !("+++" <= line) }

  function Next(c: Cursor, line: string): Cursor {
    if NamesFile(line) then c.(file := line[6..])
    else if StartsHunk(line) then
      c.(line := if PlusNumber(line).Some? then PlusNumber(line).value else 0)
    else if IsAddition(line) || !("-" <= line) then c.(line := c.line + 1)
    else c
  }

  function Found(m: Matcher, c: Cursor, line: string): seq<Finding> {
    if !NamesFile(line) && !StartsHunk(line) && IsAddition(line) then Hits(m, line[1..], c, KINDS) else []
  }

  function Scan(m: Matcher, lines: seq<string>, c: Cursor): seq<Finding> {
    if lines == [] then [] else Found(m, c, lines[0]) + Scan(m, lines[1..], Next(c, lines[0]))
  }

  function After(lines: seq<string>, c: Cursor): Cursor {
    if lines == [] then c else After(lines[1..], Next(c, lines[0]))
  }

  const START := Cursor("unknown", 0)

  /** The patterns in their order, on one added line. */
  method MatchPatterns(m: Matcher, content: string, file: string, line: int) returns (hits: seq<Finding>)
    ensures hits == Hits(m, content, Cursor(file, line), KINDS)
    ensures forall f :: f in hits <==> f.kind < 5 && m(f.kind, content) && f.file == file && f.line == line
    ensures forall i, j :: 0 <= i < j < |hits| ==> hits[i].kind < hits[j].kind
  {
    hits := [];
    for kind := 0 to KINDS
      invariant hits == Hits(m, content, Cursor(file, line), kind)
      invariant forall f :: f in hits <==> f.kind < kind && m(f.kind, content) && f.file == file && f.line == line
      invariant forall i, j :: 0 <= i < j < |hits| ==> hits[i].kind < hits[j].kind
    {
      if m(kind, content) {
        hits := hits + [Finding(kind, file, line)];
      }
    }
  }

  function ScanText(m: Matcher, diff: string): seq<Finding> { Scan(m, SplitLines(diff), START) }

  method ScanAddedSecrets(m: Matcher, diff: string) returns (findings: seq<Finding>)
    ensures findings == ScanText(m, diff)
  {
    findings := [];
    var lines := SplitLines(diff);
    var currentFile, addedLine := "unknown", 0;
    for i := 0 to |lines|
      invariant findings + Scan(m, lines[i..], Cursor(currentFile, addedLine)) == Scan(m, lines, START)
    {
      var line := lines[i];
      ghost var c, before := Cursor(currentFile, addedLine), findings;
      if NamesFile(line) {
        currentFile := line[6..];
      } else if StartsHunk(line) {
        var number := PlusNumber(line);
        addedLine := if number.Some? then number.value else 0;
      } else if IsAddition(line) {
        var hits := MatchPatterns(m, line[1..], currentFile, addedLine);
        findings := findings + hits;
        addedLine := addedLine + 1;
      } else if !("-" <= line) {
        addedLine := addedLine + 1;
      }
      assert findings == before + Found(m, c, line) && Cursor(currentFile, addedLine) == Next(c, line);
      ScanStep(m, lines, i, c, before);
    }
  }

  lemma ScanStep(m: Matcher, lines: seq<string>, i: nat, c: Cursor, before: seq<Finding>)
    requires i < |lines|
    ensures before + Scan(m, lines[i..], c) == before + Found(m, c, lines[i]) + Scan(m, lines[i + 1..], Next(c, lines[i]))
  {
    assert lines[i..][1..] == lines[i + 1..];
  }

  // ---------- the structured diff and its printer ----------

  datatype Line = Context(text: string) | Added(text: string) | Removed(text: string) | NoNewline
  datatype Hunk = Hunk(oldStart: nat, oldCount: nat, newStart: nat, newCount: nat, heading: string, lines: seq<Line>)
  datatype FileDiff = FileDiff(name: string, hunks: seq<Hunk>)

  function Decimal(n: nat): string {
    if n < 10 then [n as char + '0'] else Decimal(n / 10) + [(n % 10) as char + '0']
  }

  function LineText(l: Line): string {
    match l
    case Context(t) => " " + t
    case Added(t) => "+" + t
    case Removed(t) => "-" + t
    case NoNewline => "\\ No newline at end of file"
  }

  /** A count of one is not printed. */
  function CountText(count: nat): string { if count == 1 then "" else "," + Decimal(count) }

  function OldRange(h: Hunk): string { "@@ -" + Decimal(h.oldStart) + CountText(h.oldCount) + " " }

  function HunkHeader(h: Hunk): string {
    OldRange(h) + ("+" + (Decimal(h.newStart) + (CountText(h.newCount) + " @@" + h.heading)))
  }

  function LineTexts(lines: seq<Line>): seq<string> {
    if lines == [] then [] else [LineText(lines[0])] + LineTexts(lines[1..])
  }

  function HunkTexts(hunks: seq<Hunk>): seq<string> {
    if hunks == [] then [] else [HunkHeader(hunks[0])] + LineTexts(hunks[0].lines) + HunkTexts(hunks[1..])
  }

  function FileHeader(name: string): seq<string> {
    ["diff --git a/" + name + " b/" + name, "--- a/" + name, "+++ b/" + name]
  }

  function Printed(files: seq<FileDiff>): seq<string> {
    if files == [] then [] else FileHeader(files[0].name) + HunkTexts(files[0].hunks) + Printed(files[1..])
  }

  // ---------- what should be reported ----------

  /** `n` is the number of the next line in the new file. */
  function LineFindings(m: Matcher, lines: seq<Line>, file: string, n: int): seq<Finding> {
    if lines == [] then []
    else match lines[0]
      case Added(t) => Hits(m, t, Cursor(file, n), KINDS) + LineFindings(m, lines[1..], file, n + 1)
      case Context(_) => LineFindings(m, lines[1..], file, n + 1)
      case _ => LineFindings(m, lines[1..], file, n)
  }

  function HunkFindings(m: Matcher, hunks: seq<Hunk>, file: string): seq<Finding> {
    if hunks == [] then []
    else LineFindings(m, hunks[0].lines, file, hunks[0].newStart) + HunkFindings(m, hunks[1..], file)
  }

  function Expected(m: Matcher, files: seq<FileDiff>): seq<Finding> {
    if files == [] then [] else HunkFindings(m, files[0].hunks, files[0].name) + Expected(m, files[1..])
  }

  // ---------- when the scanner is exact ----------

  predicate HasAddition(lines: seq<Line>) { exists l :: l in lines && l.Added? }

  /** No added text starts with `++`, and no line is added after a no-newline marker. */
  predicate Plain(lines: seq<Line>) {
    lines == []
    || (&& (lines[0].Added? ==> !("++" <= lines[0].text))
        && (lines[0].NoNewline? ==> !HasAddition(lines[1..]))
        && Plain(lines[1..]))
  }

  predicate PlainDiff(files: seq<FileDiff>) {
    forall f, h :: f in files && h in f.hunks ==> Plain(h.lines)
  }

  // ---------- reading the hunk header ----------

  lemma {:induction false} DecimalIsDigits(n: nat)
    ensures Decimal(n) != "" && (forall c :: c in Decimal(n) ==> IsDigit(c)) && Value(Decimal(n)) == n
  {
    if n < 10 {
      assert Decimal(n)[..0] == "";
    } else {
      DecimalIsDigits(n / 10);
      assert Decimal(n)[..|Decimal(n)| - 1] == Decimal(n / 10);
    }
  }

  lemma {:induction false} DigitsPrefixOf(d: string, rest: string)
    requires (forall c :: c in d ==> IsDigit(c)) && (rest == "" || !IsDigit(rest[0]))
    ensures DigitsPrefix(d + rest) == d
  {
    if d == "" {
      assert d + rest == rest;
    } else {
      assert (d + rest)[1..] == d[1..] + rest;
      DigitsPrefixOf(d[1..], rest);
    }
  }

  lemma {:induction false} PlusNumberSkips(prefix: string, rest: string)
    requires '+' !in prefix
    ensures PlusNumber(prefix + rest) == PlusNumber(rest)
  {
    if prefix == "" {
      assert prefix + rest == rest;
    } else {
      assert (prefix + rest)[1..] == prefix[1..] + rest;
      PlusNumberSkips(prefix[1..], rest);
    }
  }

  lemma HeaderGivesNewStart(h: Hunk)
    ensures StartsHunk(HunkHeader(h)) && !NamesFile(HunkHeader(h)) && PlusNumber(HunkHeader(h)) == Some(h.newStart)
  {
    DecimalIsDigits(h.oldStart);
    DecimalIsDigits(h.oldCount);
    DecimalIsDigits(h.newStart);
    var rest := CountText(h.newCount) + " @@" + h.heading;
    var tail := "+" + (Decimal(h.newStart) + rest);
    assert '+' !in OldRange(h);
    PlusNumberSkips(OldRange(h), tail);
    assert tail[1..] == Decimal(h.newStart) + rest;
    DigitsPrefixOf(Decimal(h.newStart), rest);
    assert OldRange(h)[0] == '@' && OldRange(h)[1] == '@';
  }

  // ---------- the scanner follows the printer ----------

  lemma {:induction false} ScanAppend(m: Matcher, a: seq<string>, b: seq<string>, c: Cursor)
    ensures Scan(m, a + b, c) == Scan(m, a, c) + Scan(m, b, After(a, c))
    ensures After(a + b, c) == After(b, After(a, c))
  {
    if a == [] {
      assert a + b == b;
    } else {
      assert (a + b)[1..] == a[1..] + b;
      ScanAppend(m, a[1..], b, Next(c, a[0]));
    }
  }

  lemma HeaderIsRead(m: Matcher, name: string, c: Cursor)
    ensures Scan(m, FileHeader(name), c) == [] && After(FileHeader(name), c).file == name
  {
    var h := FileHeader(name);
    assert h[0][0] == 'd' && h[1][0] == '-' && h[2][..6] == "+++ b/" && h[2][6..] == name;
    var c1 := Next(c, h[0]);
    var c2 := Next(c1, h[1]);
    assert Found(m, c, h[0]) == [] && Found(m, c1, h[1]) == [] && Found(m, c2, h[2]) == [];
    assert h[1..] == [h[1], h[2]] && h[1..][1..] == [h[2]] && h[1..][1..][1..] == [];
    assert Scan(m, h[1..][1..], c2) == [] && After(h[1..][1..], c2) == Next(c2, h[2]);
  }

  /** How one printed line is read. */
  lemma LineIsRead(m: Matcher, l: Line, c: Cursor)
    ensures !l.Added? ==> Found(m, c, LineText(l)) == [] && Next(c, LineText(l)) == c.(line := c.line + if l.Removed? then 0 else 1)
    ensures l.Added? && !("++" <= l.text) ==>
              Found(m, c, LineText(l)) == Hits(m, l.text, c, KINDS) && Next(c, LineText(l)) == c.(line := c.line + 1)
    ensures l.Added? && "++" <= l.text ==> Found(m, c, LineText(l)) == []
  {
    var t := LineText(l);
    PrefixFacts(t);
    if l.Added? {
      assert t[1..] == l.text;
      PrefixFacts(l.text);
    }
  }

  lemma PrefixFacts(t: string)
    ensures NamesFile(t) ==> "+++" <= t
    ensures StartsHunk(t) ==> t != "" && t[0] == '@'
    ensures "+" <= t <==> t != "" && t[0] == '+'
    ensures "-" <= t <==> t != "" && t[0] == '-'
    ensures "+++" <= t <==> t != "" && t[0] == '+' && "++" <= t[1..]
  {
    if NamesFile(t) {
      assert t[..3] == "+++ b/"[..3] == "+++";
    }
    if t != "" && t[0] == '+' && "++" <= t[1..] {
      assert t[1] == t[1..][0] && t[2] == t[1..][1];
    }
  }

  lemma LinesUnfold(m: Matcher, lines: seq<Line>, c: Cursor)
    requires lines != []
    ensures var next := Next(c, LineText(lines[0]));
            && Scan(m, LineTexts(lines), c) == Found(m, c, LineText(lines[0])) + Scan(m, LineTexts(lines[1..]), next)
            && After(LineTexts(lines), c) == After(LineTexts(lines[1..]), next)
  {
    assert LineTexts(lines)[1..] == LineTexts(lines[1..]);
  }

  lemma {:induction false} NoAdditionFindsNothing(m: Matcher, lines: seq<Line>, c: Cursor, n: int)
    requires !HasAddition(lines)
    ensures Scan(m, LineTexts(lines), c) == [] && After(LineTexts(lines), c).file == c.file
    ensures LineFindings(m, lines, c.file, n) == []
  {
    if lines != [] {
      assert lines[0] in lines;
      LineIsRead(m, lines[0], c);
      LinesUnfold(m, lines, c);
      NoAdditionFindsNothing(m, lines[1..], Next(c, LineText(lines[0])), if lines[0].Context? then n + 1 else n);
    }
  }

  lemma {:induction false} PlainLinesAreExact(m: Matcher, lines: seq<Line>, c: Cursor)
    requires Plain(lines)
    ensures Scan(m, LineTexts(lines), c) == LineFindings(m, lines, c.file, c.line)
    ensures After(LineTexts(lines), c).file == c.file
  {
    if lines != [] {
      var l, rest := lines[0], lines[1..];
      var next := Next(c, LineText(l));
      LineIsRead(m, l, c);
      LinesUnfold(m, lines, c);
      PlainLinesAreExact(m, rest, next);
      if l.NoNewline? {
        NoAdditionFindsNothing(m, rest, next, c.line);
      }
    }
  }

  lemma HunksUnfold(m: Matcher, hunks: seq<Hunk>, c: Cursor)
    requires hunks != []
    ensures var body, c1 := LineTexts(hunks[0].lines), Cursor(c.file, hunks[0].newStart);
            Scan(m, HunkTexts(hunks), c) == Scan(m, body, c1) + Scan(m, HunkTexts(hunks[1..]), After(body, c1))
  {
    var h, c1 := hunks[0], Cursor(c.file, hunks[0].newStart);
    var body, rest := LineTexts(h.lines), HunkTexts(hunks[1..]);
    assert HunkTexts(hunks) == [HunkHeader(h)] + (body + rest);
    HeaderThenBody(m, h, body + rest, c);
    ScanAppend(m, body, rest, c1);
  }

  lemma HeaderThenBody(m: Matcher, h: Hunk, body: seq<string>, c: Cursor)
    ensures Scan(m, [HunkHeader(h)] + body, c) == Scan(m, body, Cursor(c.file, h.newStart))
  {
    HeaderGivesNewStart(h);
    assert ([HunkHeader(h)] + body)[1..] == body;
  }

  lemma {:induction false} PlainHunksAreExact(m: Matcher, hunks: seq<Hunk>, c: Cursor)
    requires forall h :: h in hunks ==> Plain(h.lines)
    ensures Scan(m, HunkTexts(hunks), c) == HunkFindings(m, hunks, c.file)
  {
    if hunks != [] {
      var body, c1 := LineTexts(hunks[0].lines), Cursor(c.file, hunks[0].newStart);
      HunksUnfold(m, hunks, c);
      PlainLinesAreExact(m, hunks[0].lines, c1);
      PlainHunksAreExact(m, hunks[1..], After(body, c1));
    }
  }

  lemma FilesUnfold(m: Matcher, files: seq<FileDiff>, c: Cursor) returns (c1: Cursor, c2: Cursor)
    requires files != []
    ensures c1.file == files[0].name
    ensures Scan(m, Printed(files), c) == Scan(m, HunkTexts(files[0].hunks), c1) + Scan(m, Printed(files[1..]), c2)
  {
    var head, hunks, rest := FileHeader(files[0].name), HunkTexts(files[0].hunks), Printed(files[1..]);
    assert Printed(files) == head + (hunks + rest);
    HeaderIsRead(m, files[0].name, c);
    c1 := After(head, c);
    c2 := After(hunks, c1);
    ScanAppend(m, head, hunks + rest, c);
    ScanAppend(m, hunks, rest, c1);
  }

  /** On a plain diff the scanner reports exactly the matching added lines, each with
      its file and its true line number in the new file. */
  lemma {:induction false} PlainDiffIsExact(m: Matcher, files: seq<FileDiff>, c: Cursor)
    requires PlainDiff(files)
    ensures Scan(m, Printed(files), c) == Expected(m, files)
    decreases |files|
  {
    if files != [] {
      assert files[0] in files;
      var c1, c2 := FilesUnfold(m, files, c);
      PlainHunksAreExact(m, files[0].hunks, c1);
      PlainDiffIsExact(m, files[1..], c2);
    }
  }

  // ---------- which findings those are ----------

  lemma {:induction false} HitsAre(m: Matcher, content: string, c: Cursor, kinds: nat, f: Finding)
    ensures f in Hits(m, content, c, kinds) <==> f.kind < kinds && m(f.kind, content) && f.file == c.file && f.line == c.line
  {
    if kinds > 0 {
      HitsAre(m, content, c, kinds - 1, f);
    }
  }

  function IsNew(l: Line): nat { if l.Added? || l.Context? then 1 else 0 }

  /** How many of the lines are lines of the new file. */
  function NewLines(lines: seq<Line>): nat {
    if lines == [] then 0 else IsNew(lines[0]) + NewLines(lines[1..])
  }

  /** The finding is a match on added line `i`, whose number in the new file counts from `n`. */
  predicate MatchAt(m: Matcher, lines: seq<Line>, file: string, n: int, f: Finding, i: int) {
    && 0 <= i < |lines| && lines[i].Added? && f.kind < 5 && m(f.kind, lines[i].text)
    && f.file == file && f.line == n + NewLines(lines[..i])
  }

  lemma MatchFurtherOn(m: Matcher, lines: seq<Line>, file: string, n: int, f: Finding, i: nat)
    requires lines != []
    ensures MatchAt(m, lines, file, n, f, i + 1)
       <==> MatchAt(m, lines[1..], file, n + IsNew(lines[0]), f, i)
  {
    if i < |lines| - 1 {
      assert lines[..i + 1][1..] == lines[1..][..i];
    }
  }

  lemma FirstLineFindings(m: Matcher, lines: seq<Line>, file: string, n: int, f: Finding)
    requires lines != []
    ensures f in LineFindings(m, lines, file, n)
       <==> MatchAt(m, lines, file, n, f, 0) || f in LineFindings(m, lines[1..], file, n + IsNew(lines[0]))
  {
    assert lines[..0] == [];
    if lines[0].Added? {
      HitsAre(m, lines[0].text, Cursor(file, n), KINDS, f);
    }
  }

  ghost predicate SomeMatch(m: Matcher, lines: seq<Line>, file: string, n: int, f: Finding) {
    exists i :: MatchAt(m, lines, file, n, f, i)
  }

  lemma SomeMatchUnfold(m: Matcher, lines: seq<Line>, file: string, n: int, f: Finding)
    requires lines != []
    ensures SomeMatch(m, lines, file, n, f)
       <==> MatchAt(m, lines, file, n, f, 0) || SomeMatch(m, lines[1..], file, n + IsNew(lines[0]), f)
  {
    var next := n + IsNew(lines[0]);
    if i :| MatchAt(m, lines[1..], file, next, f, i) {
      MatchFurtherOn(m, lines, file, n, f, i);
    }
    if i :| MatchAt(m, lines, file, n, f, i) && i > 0 {
      MatchFurtherOn(m, lines, file, n, f, i - 1);
    }
  }

  lemma {:induction false} LineFindingsAre(m: Matcher, lines: seq<Line>, file: string, n: int, f: Finding)
    ensures f in LineFindings(m, lines, file, n) <==> SomeMatch(m, lines, file, n, f)
  {
    if lines != [] {
      FirstLineFindings(m, lines, file, n, f);
      SomeMatchUnfold(m, lines, file, n, f);
      LineFindingsAre(m, lines[1..], file, n + IsNew(lines[0]), f);
    }
  }

  /** The finding is a match in this hunk. */
  ghost predicate MatchIn(m: Matcher, h: Hunk, file: string, f: Finding) { SomeMatch(m, h.lines, file, h.newStart, f) }

  lemma {:induction false} HunkFindingsAre(m: Matcher, hunks: seq<Hunk>, file: string, f: Finding)
    ensures f in HunkFindings(m, hunks, file) <==> exists h :: h in hunks && MatchIn(m, h, file, f)
  {
    if hunks != [] {
      HunkFindingsAre(m, hunks[1..], file, f);
      LineFindingsAre(m, hunks[0].lines, file, hunks[0].newStart, f);
      assert hunks[0] in hunks;
      if h :| h in hunks[1..] && MatchIn(m, h, file, f) {
        assert h in hunks;
      }
      if h :| h in hunks && MatchIn(m, h, file, f) {
        assert h == hunks[0] || h in hunks[1..];
      }
    }
  }

  ghost predicate MatchInFile(m: Matcher, d: FileDiff, f: Finding) { exists h :: h in d.hunks && MatchIn(m, h, d.name, f) }

  lemma {:induction false} ExpectedAre(m: Matcher, files: seq<FileDiff>, f: Finding)
    ensures f in Expected(m, files) <==> exists d :: d in files && MatchInFile(m, d, f)
  {
    if files != [] {
      ExpectedAre(m, files[1..], f);
      HunkFindingsAre(m, files[0].hunks, files[0].name, f);
      assert files[0] in files;
      if d :| d in files[1..] && MatchInFile(m, d, f) {
        assert d in files;
      }
      if d :| d in files && MatchInFile(m, d, f) {
        assert d == files[0] || d in files[1..];
      }
    }
  }

  /** So a secret is reported from a plain diff if and only if some hunk of some file adds a
      line that matches; it is reported under the name of that file and the number the line
      has in the new file. */
  lemma ReportedIffAdded(m: Matcher, files: seq<FileDiff>, f: Finding)
    requires PlainDiff(files)
    ensures f in Scan(m, Printed(files), START)
       <==> exists d, h, i :: d in files && h in d.hunks && MatchAt(m, h.lines, d.name, h.newStart, f, i)
  {
    PlainDiffIsExact(m, files, START);
    ExpectedAre(m, files, f);
    if d, h, i :| d in files && h in d.hunks && MatchAt(m, h.lines, d.name, h.newStart, f, i) {
      assert MatchInFile(m, d, f);
    }
  }

  // ---------- and only on a plain diff ----------

  /** The matcher that finds every pattern on every line. */
  const ALL: Matcher := (kind: Kind, content: string) => true

  function LineSum(findings: seq<Finding>): int {
    if findings == [] then 0 else LineSum(findings[..|findings| - 1]) + findings[|findings| - 1].line
  }

  lemma {:induction false} LineSumAppend(a: seq<Finding>, b: seq<Finding>)
    ensures LineSum(a + b) == LineSum(a) + LineSum(b)
  {
    if b == [] {
      assert a + b == a;
    } else {
      assert (a + b)[..|a + b| - 1] == a + b[..|b| - 1];
      LineSumAppend(a, b[..|b| - 1]);
    }
  }

  lemma {:induction false} AllHits(content: string, c: Cursor, kinds: nat)
    ensures |Hits(ALL, content, c, kinds)| == kinds && LineSum(Hits(ALL, content, c, kinds)) == kinds * c.line
  {
    if kinds > 0 {
      AllHits(content, c, kinds - 1);
      LineSumAppend(Hits(ALL, content, c, kinds - 1), [Finding(kinds - 1, c.file, c.line)]);
      assert [Finding(kinds - 1, c.file, c.line)][..0] == [];
    }
  }

  lemma HitsSum(content: string, c: Cursor, rest: seq<Finding>)
    ensures LineSum(Hits(ALL, content, c, KINDS) + rest) == 5 * c.line + LineSum(rest)
  {
    AllHits(content, c, KINDS);
    LineSumAppend(Hits(ALL, content, c, KINDS), rest);
  }

  /** Added lines that look like a file header. */
  function Missed(lines: seq<Line>): nat {
    if lines == [] then 0 else Missed(lines[1..]) + if lines[0].Added? && "++" <= lines[0].text then 1 else 0
  }

  /** How far `found` falls short of `expected`: in number, or failing that in line numbers. */
  ghost predicate Deviates(found: seq<Finding>, expected: seq<Finding>, missed: nat, plain: bool) {
    && |found| + KINDS * missed == |expected|
    && (missed == 0 ==> LineSum(found) >= LineSum(expected) && (!plain ==> LineSum(found) > LineSum(expected)))
  }

  lemma DeviationsAdd(f1: seq<Finding>, e1: seq<Finding>, m1: nat, p1: bool,
                      f2: seq<Finding>, e2: seq<Finding>, m2: nat, p2: bool)
    requires Deviates(f1, e1, m1, p1) && Deviates(f2, e2, m2, p2)
    ensures Deviates(f1 + f2, e1 + e2, m1 + m2, p1 && p2)
  {
    LineSumAppend(f1, f2);
    LineSumAppend(e1, e2);
  }

  /** Once a line is missed only the number of findings matters. */
  lemma {:induction false} CountsDeviate(lines: seq<Line>, c: Cursor, file: string, n: int)
    ensures |Scan(ALL, LineTexts(lines), c)| + KINDS * Missed(lines) == |LineFindings(ALL, lines, file, n)|
    decreases |lines|
  {
    if lines != [] {
      var l := lines[0];
      LineIsRead(ALL, l, c);
      LinesUnfold(ALL, lines, c);
      CountsDeviate(lines[1..], Next(c, LineText(l)), file, if l.Context? || l.Added? then n + 1 else n);
      AllHits(if l.NoNewline? then "" else l.text, c, KINDS);
      AllHits(if l.NoNewline? then "" else l.text, Cursor(file, n), KINDS);
    }
  }

  /** The scanner's line count never falls behind, and is ahead after a marker. */
  lemma {:induction false} LineNumbersDrift(lines: seq<Line>, c: Cursor, file: string, n: int)
    requires Missed(lines) == 0 && c.line >= n
    ensures var found, expected := LineSum(Scan(ALL, LineTexts(lines), c)), LineSum(LineFindings(ALL, lines, file, n));
            found >= expected && (!Plain(lines) || (c.line > n && HasAddition(lines)) ==> found > expected)
    decreases |lines|
  {
    if lines != [] {
      var l, rest := lines[0], lines[1..];
      var next, m := Next(c, LineText(l)), if l.Context? || l.Added? then n + 1 else n;
      LineIsRead(ALL, l, c);
      LinesUnfold(ALL, lines, c);
      LineNumbersDrift(rest, next, file, m);
      HasAdditionUnfold(lines);
      if l.Added? {
        HitsSum(l.text, c, Scan(ALL, LineTexts(rest), next));
        HitsSum(l.text, Cursor(file, n), LineFindings(ALL, rest, file, m));
      } else {
        assert Scan(ALL, LineTexts(lines), c) == Scan(ALL, LineTexts(rest), next);
      }
    }
  }

  lemma HasAdditionUnfold(lines: seq<Line>)
    requires lines != []
    ensures HasAddition(lines) <==> lines[0].Added? || HasAddition(lines[1..])
  {
    assert lines == [lines[0]] + lines[1..];
  }

  lemma LinesDeviate(lines: seq<Line>, c: Cursor, file: string)
    ensures Deviates(Scan(ALL, LineTexts(lines), c), LineFindings(ALL, lines, file, c.line), Missed(lines), Plain(lines))
  {
    CountsDeviate(lines, c, file, c.line);
    if Missed(lines) == 0 {
      LineNumbersDrift(lines, c, file, c.line);
    }
  }

  function MissedInHunks(hunks: seq<Hunk>): nat {
    if hunks == [] then 0 else Missed(hunks[0].lines) + MissedInHunks(hunks[1..])
  }

  predicate PlainHunks(hunks: seq<Hunk>) {
    hunks == [] || (Plain(hunks[0].lines) && PlainHunks(hunks[1..]))
  }

  lemma {:induction false} HunksDeviate(hunks: seq<Hunk>, c: Cursor, file: string)
    ensures Deviates(Scan(ALL, HunkTexts(hunks), c), HunkFindings(ALL, hunks, file), MissedInHunks(hunks), PlainHunks(hunks))
    decreases |hunks|
  {
    if hunks != [] {
      var h, c1 := hunks[0], Cursor(c.file, hunks[0].newStart);
      var body, rest := LineTexts(h.lines), HunkTexts(hunks[1..]);
      HunksUnfold(ALL, hunks, c);
      LinesDeviate(h.lines, c1, file);
      HunksDeviate(hunks[1..], After(body, c1), file);
      DeviationsAdd(Scan(ALL, body, c1), LineFindings(ALL, h.lines, file, h.newStart), Missed(h.lines), Plain(h.lines),
                    Scan(ALL, rest, After(body, c1)), HunkFindings(ALL, hunks[1..], file), MissedInHunks(hunks[1..]), PlainHunks(hunks[1..]));
    }
  }

  function MissedInFiles(files: seq<FileDiff>): nat {
    if files == [] then 0 else MissedInHunks(files[0].hunks) + MissedInFiles(files[1..])
  }

  predicate PlainFiles(files: seq<FileDiff>) {
    files == [] || (PlainHunks(files[0].hunks) && PlainFiles(files[1..]))
  }

  lemma {:induction false} FilesDeviate(files: seq<FileDiff>, c: Cursor)
    ensures Deviates(Scan(ALL, Printed(files), c), Expected(ALL, files), MissedInFiles(files), PlainFiles(files))
    decreases |files|
  {
    if files != [] {
      var f, rest := files[0], Printed(files[1..]);
      var c1, c2 := FilesUnfold(ALL, files, c);
      HunksDeviate(f.hunks, c1, f.name);
      FilesDeviate(files[1..], c2);
      DeviationsAdd(Scan(ALL, HunkTexts(f.hunks), c1), HunkFindings(ALL, f.hunks, f.name), MissedInHunks(f.hunks), PlainHunks(f.hunks),
                    Scan(ALL, rest, c2), Expected(ALL, files[1..]), MissedInFiles(files[1..]), PlainFiles(files[1..]));
    }
  }

  lemma {:induction false} PlainHunksMeaning(hunks: seq<Hunk>)
    ensures PlainHunks(hunks) <==> forall h :: h in hunks ==> Plain(h.lines)
  {
    if hunks != [] {
      assert hunks == [hunks[0]] + hunks[1..];
      PlainHunksMeaning(hunks[1..]);
    }
  }

  lemma {:induction false} PlainFilesMeaning(files: seq<FileDiff>)
    ensures PlainFiles(files) <==> PlainDiff(files)
  {
    if files != [] {
      assert files == [files[0]] + files[1..];
      PlainHunksMeaning(files[0].hunks);
      PlainFilesMeaning(files[1..]);
    }
  }

  /** The scanner agrees with the structured diff for every set of patterns if and only
      if the diff is plain. */
  lemma ExactIffPlain(files: seq<FileDiff>)
    ensures (forall m: Matcher :: Scan(m, Printed(files), START) == Expected(m, files)) <==> PlainDiff(files)
  {
    if PlainDiff(files) {
      forall m: Matcher ensures Scan(m, Printed(files), START) == Expected(m, files) {
        PlainDiffIsExact(m, files, START);
      }
    } else {
      FilesDeviate(files, START);
      PlainFilesMeaning(files);
      assert Scan(ALL, Printed(files), START) != Expected(ALL, files);
    }
  }

  // ---------- the diff as text ----------

  function DiffText(files: seq<FileDiff>): string { Joined(Printed(files)) }

  predicate UnbrokenLine(l: Line) { !l.NoNewline? ==> OneLine(l.text) }

  predicate UnbrokenHunk(h: Hunk) { OneLine(h.heading) && forall l :: l in h.lines ==> UnbrokenLine(l) }

  /** No name, heading or line contains a boundary of `str.splitlines`. */
  predicate Unbroken(files: seq<FileDiff>) {
    forall f :: f in files ==> OneLine(f.name) && forall h :: h in f.hunks ==> UnbrokenHunk(h)
  }

  predicate AllOneLine(lines: seq<string>) { forall l :: l in lines ==> OneLine(l) }

  lemma OneLinePlus(a: string, b: string)
    requires OneLine(a) && OneLine(b)
    ensures OneLine(a + b)
  {
  }

  lemma DecimalIsOneLine(n: nat)
    ensures OneLine(Decimal(n)) && OneLine(CountText(n))
  {
    DecimalIsDigits(n);
    forall i | 0 <= i < |Decimal(n)|
      ensures !IsBoundary(Decimal(n)[i])
    {
      assert Decimal(n)[i] in Decimal(n);
    }
  }

  lemma HeaderIsOneLine(h: Hunk)
    requires OneLine(h.heading)
    ensures OneLine(HunkHeader(h))
  {
    DecimalIsOneLine(h.oldStart);
    DecimalIsOneLine(h.oldCount);
    DecimalIsOneLine(h.newStart);
    DecimalIsOneLine(h.newCount);
  }

  lemma {:induction false} LineTextsAreOneLine(lines: seq<Line>)
    requires forall l :: l in lines ==> UnbrokenLine(l)
    ensures AllOneLine(LineTexts(lines))
  {
    if lines != [] {
      assert lines[0] in lines;
      LineTextsAreOneLine(lines[1..]);
    }
  }

  lemma {:induction false} HunkTextsAreOneLine(hunks: seq<Hunk>)
    requires forall h :: h in hunks ==> UnbrokenHunk(h)
    ensures AllOneLine(HunkTexts(hunks))
  {
    if hunks != [] {
      assert hunks[0] in hunks;
      HeaderIsOneLine(hunks[0]);
      LineTextsAreOneLine(hunks[0].lines);
      HunkTextsAreOneLine(hunks[1..]);
    }
  }

  lemma FileHeaderIsOneLine(name: string)
    requires OneLine(name)
    ensures AllOneLine(FileHeader(name))
  {
    OneLinePlus("--- a/", name);
    OneLinePlus("+++ b/", name);
    OneLinePlus("diff --git a/", name);
    OneLinePlus("diff --git a/" + name, " b/");
    OneLinePlus("diff --git a/" + name + " b/", name);
  }

  lemma {:induction false} PrintedIsOneLine(files: seq<FileDiff>)
    requires Unbroken(files)
    ensures AllOneLine(Printed(files))
  {
    if files != [] {
      assert files[0] in files;
      FileHeaderIsOneLine(files[0].name);
      HunkTextsAreOneLine(files[0].hunks);
      PrintedIsOneLine(files[1..]);
    }
  }

  lemma {:induction false} NoLineIsEmpty(lines: seq<Line>)
    ensures forall l :: l in LineTexts(lines) ==> l != ""
  {
    if lines != [] {
      NoLineIsEmpty(lines[1..]);
    }
  }

  lemma {:induction false} NoHunkLineIsEmpty(hunks: seq<Hunk>)
    ensures forall l :: l in HunkTexts(hunks) ==> l != ""
  {
    if hunks != [] {
      NoLineIsEmpty(hunks[0].lines);
      NoHunkLineIsEmpty(hunks[1..]);
    }
  }

  lemma {:induction false} NoPrintedLineIsEmpty(files: seq<FileDiff>)
    ensures forall l :: l in Printed(files) ==> l != ""
  {
    if files != [] {
      NoHunkLineIsEmpty(files[0].hunks);
      NoPrintedLineIsEmpty(files[1..]);
    }
  }

  /** On the text of a diff without extra line boundaries, with or without its last newline,
      the scanner reports, for every set of patterns, exactly the matching added lines with
      their files and true line numbers, if and only if the diff is plain. */
  lemma TextExactIffPlain(files: seq<FileDiff>)
    requires Unbroken(files)
    ensures (forall m: Matcher :: ScanText(m, DiffText(files)) == Expected(m, files)) <==> PlainDiff(files)
    ensures (forall m: Matcher :: ScanText(m, Chopped(DiffText(files))) == Expected(m, files)) <==> PlainDiff(files)
  {
    ExactIffPlain(files);
    forall m: Matcher
      ensures ScanText(m, DiffText(files)) == Scan(m, Printed(files), START)
      ensures ScanText(m, Chopped(DiffText(files))) == Scan(m, Printed(files), START)
    {
      TextScanIsLineScan(m, files);
    }
  }

  lemma TextScanIsLineScan(m: Matcher, files: seq<FileDiff>)
    requires Unbroken(files)
    ensures ScanText(m, DiffText(files)) == Scan(m, Printed(files), START)
    ensures ScanText(m, Chopped(DiffText(files))) == Scan(m, Printed(files), START)
  {
    PrintedIsOneLine(files);
    NoPrintedLineIsEmpty(files);
    SplitInvertsJoin(Printed(files));
    SplitInvertsChoppedJoin(Printed(files));
  }
}
