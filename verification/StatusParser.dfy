/**
  `changed_paths`: the parser of `git status --porcelain=v1 -z`, against the printer
  it is meant to invert, with and without the `strip()` applied to git's output.
 */
module StatusParser {
  import opened Prelude

  const NUL: char := '\0'

  function Slashed(path: string): string {
    seq(|path|, i requires 0 <= i < |path| => if path[i] == '\\' then '/' else path[i])
  }

  // ---------- the parser ----------

  /** `text.split("\0")`. */
  function Split(text: string): (items: seq<string>)
    ensures items != []
  {
    if text == [] then [""]
    else
      var rest := Split(text[1..]);
      if text[0] == NUL then [""] + rest else [[text[0]] + rest[0]] + rest[1..]
  }

  function CodeOf(item: string): string { item[..Min(2, |item|)] }

  function PathOf(item: string): string { if |item| <= 3 then "" else item[3..] }

  predicate HasSecondPath(code: string) { 'R' in code || 'C' in code }

  function ParseItems(items: seq<string>): set<string>
    decreases |items|
  {
    if items == [] then {}
    else if items[0] == "" then ParseItems(items[1..])
    else
      var first := {Slashed(PathOf(items[0]))};
      if !HasSecondPath(CodeOf(items[0])) then first + ParseItems(items[1..])
      else if |items| == 1 then first
      else first + (if items[1] == "" then {} else {Slashed(items[1])}) + ParseItems(items[2..])
  }

  function Parse(text: string): set<string> { ParseItems(Split(text)) }

  method ChangedPaths(status: string, diff: Option<string>) returns (paths: set<string>)
    ensures paths == Parse(status)
                     + if diff.None? then {} else set item | item in Split(diff.value) && item != "" :: Slashed(item)
  {
    paths := {};
    var items := Split(status);
    var index := 0;
    while index < |items|
      invariant paths + (if index <= |items| then ParseItems(items[index..]) else {}) == Parse(status)
    {
      var entry := items[index];
      assert items[index..][1..] == items[index + 1..];
      if entry == "" {
        index := index + 1;
        continue;
      }
      assert index + 1 < |items| ==> items[index..][2..] == items[index + 2..] && items[index..][1] == items[index + 1];
      paths := paths + {Slashed(PathOf(entry))};
      if 'R' in CodeOf(entry) || 'C' in CodeOf(entry) {
        index := index + 1;
        if index < |items| && items[index] != "" {
          paths := paths + {Slashed(items[index])};
        }
      }
      index := index + 1;
    }
    if diff.Some? {
      paths := paths + set item | item in Split(diff.value) && item != "" :: Slashed(item);
    }
  }

  // ---------- the printer ----------

  /** One status entry; renames and copies carry the original path as well. */
  datatype Entry = Entry(index: char, worktree: char, path: string, original: Option<string>)

  predicate StatusChar(c: char) {
    c == ' ' || c == 'M' || c == 'T' || c == 'A' || c == 'D' || c == 'R' || c == 'C' || c == 'U' || c == '?' || c == '!'
  }

  predicate PathText(p: string) { p != "" && NUL !in p }

  predicate WellFormed(e: Entry) {
    && StatusChar(e.index) && StatusChar(e.worktree) && (e.index != ' ' || e.worktree != ' ')
    && PathText(e.path)
    && (e.original.Some? <==> HasSecondPath([e.index, e.worktree]))
    && (e.original.Some? ==> PathText(e.original.value))
  }

  function ItemText(e: Entry): string { [e.index, e.worktree, ' '] + e.path }

  function RenderEntry(e: Entry): string {
    ItemText(e) + [NUL] + if e.original.Some? then e.original.value + [NUL] else ""
  }

  function Render(entries: seq<Entry>): string {
    if entries == [] then "" else RenderEntry(entries[0]) + Render(entries[1..])
  }

  function PathsOf(e: Entry): set<string> {
    {Slashed(e.path)} + if e.original.Some? then {Slashed(e.original.value)} else {}
  }

  function Paths(entries: seq<Entry>): set<string> {
    if entries == [] then {} else PathsOf(entries[0]) + Paths(entries[1..])
  }

  // ---------- the parser inverts the printer ----------

  lemma {:induction false} SplitField(field: string, rest: string)
    requires NUL !in field
    ensures Split(field + [NUL] + rest) == [field] + Split(rest)
  {
    var text := field + [NUL] + rest;
    if field == "" {
      assert text[1..] == rest;
    } else {
      SplitField(field[1..], rest);
      assert text[1..] == field[1..] + [NUL] + rest;
      assert [field[0]] + field[1..] == field;
    }
  }

  /** Parsing a rendered entry in front of any text adds exactly the paths of the entry. */
  lemma ParseEntry(item: string, original: Option<string>, rest: string)
    requires item != "" && NUL !in item
    requires original.Some? <==> HasSecondPath(CodeOf(item))
    requires original.Some? ==> PathText(original.value)
    ensures Parse(item + [NUL] + (if original.Some? then original.value + [NUL] else "") + rest)
         == {Slashed(PathOf(item))} + (if original.Some? then {Slashed(original.value)} else {}) + Parse(rest)
  {
    if original.None? {
      assert item + [NUL] + "" + rest == item + [NUL] + rest;
      SplitField(item, rest);
      assert ([item] + Split(rest))[1..] == Split(rest);
    } else {
      var second := original.value;
      assert item + [NUL] + (second + [NUL]) + rest == item + [NUL] + (second + [NUL] + rest);
      SplitField(item, second + [NUL] + rest);
      SplitField(second, rest);
      var items := [item] + ([second] + Split(rest));
      assert items[2..] == Split(rest) && items[1] == second;
    }
  }

  lemma ItemFacts(e: Entry)
    requires WellFormed(e)
    ensures ItemText(e) != "" && NUL !in ItemText(e)
    ensures CodeOf(ItemText(e)) == [e.index, e.worktree] && PathOf(ItemText(e)) == e.path
  {
  }

  lemma {:induction false} ParseInvertsRender(entries: seq<Entry>)
    requires forall e :: e in entries ==> WellFormed(e)
    ensures Parse(Render(entries)) == Paths(entries)
  {
    if entries == [] {
      assert Split("") == [""];
      assert [""][1..] == [];
    } else {
      var e := entries[0];
      ItemFacts(e);
      ParseEntry(ItemText(e), e.original, Render(entries[1..]));
      ParseInvertsRender(entries[1..]);
    }
  }

  // ---------- what the paths are, character by character ----------

  /** The path with every backslash turned into a slash, and nothing else changed. */
  predicate Turned(path: string, turned: string) {
    |turned| == |path| && forall i :: 0 <= i < |path| ==> turned[i] == if path[i] == '\\' then '/' else path[i]
  }

  lemma ColumnsAndPath(index: char, worktree: char, path: string)
    requires index != NUL && worktree != NUL && PathText(path)
    ensures var item := [index, worktree, ' '] + path;
            && CodeOf(item) == [index, worktree] && PathOf(item) == path && item != "" && NUL !in item
            && (HasSecondPath(CodeOf(item)) <==> index == 'R' || index == 'C' || worktree == 'R' || worktree == 'C')
  {
  }

  /** A rename or a copy gives both of its paths, any other entry the path after its two
      columns and a blank, whatever follows. */
  lemma EntryIsRead(index: char, worktree: char, path: string, second: string, turned: string, turnedSecond: string, rest: string)
    requires index != NUL && worktree != NUL && PathText(path) && PathText(second)
    requires Turned(path, turned) && Turned(second, turnedSecond)
    ensures index == 'R' || index == 'C' || worktree == 'R' || worktree == 'C' ==>
              Parse([index, worktree, ' '] + path + [NUL] + (second + [NUL]) + rest) == {turned, turnedSecond} + Parse(rest)
    ensures index != 'R' && index != 'C' && worktree != 'R' && worktree != 'C' ==>
              Parse([index, worktree, ' '] + path + [NUL] + rest) == {turned} + Parse(rest)
  {
    var item := [index, worktree, ' '] + path;
    ColumnsAndPath(index, worktree, path);
    assert Slashed(path) == turned && Slashed(second) == turnedSecond;
    if HasSecondPath(CodeOf(item)) {
      ParseEntry(item, Some(second), rest);
    } else {
      ParseEntry(item, None, rest);
      assert item + [NUL] + "" + rest == item + [NUL] + rest;
    }
  }

  // ---------- what `strip()` does to it ----------

  predicate IsSpace(c: char) {
    c == ' ' || '\t' <= c <= '\r' || '\U{1c}' <= c <= '\U{1f}' || c == '\U{85}' || c == '\U{a0}'
  }

  function StripLeft(s: string): string {
    if s != "" && IsSpace(s[0]) then StripLeft(s[1..]) else s
  }

  function StripRight(s: string): string {
    if s != "" && IsSpace(s[|s| - 1]) then StripRight(s[..|s| - 1]) else s
  }

  function Strip(s: string): string { StripRight(StripLeft(s)) }

  lemma {:induction false} RenderEndsInNul(entries: seq<Entry>)
    requires entries != []
    ensures Render(entries) != "" && Render(entries)[|Render(entries)| - 1] == NUL
  {
    if |entries| > 1 {
      RenderEndsInNul(entries[1..]);
    }
  }

  function WithoutFirst(p: string): string { if p == "" then "" else p[1..] }

  /** The paths found when the first entry has lost its blank index column: its path
      loses the first character. */
  function Shortened(entries: seq<Entry>): set<string>
    requires entries != []
  {
    PathsOf(entries[0].(path := WithoutFirst(entries[0].path))) + Paths(entries[1..])
  }

  lemma StripOfStatus(text: string)
    requires |text| >= 2 && text[|text| - 1] == NUL && !IsSpace(text[1]) && (text[0] == ' ' || !IsSpace(text[0]))
    ensures Strip(text) == if text[0] == ' ' then text[1..] else text
  {
    if text[0] == ' ' {
      assert StripLeft(text[1..]) == text[1..];
      assert text[1..][|text| - 2] == NUL;
    }
  }

  /** With the strip, the parser is exact if the index column of the first entry is not
      blank; if it is blank, the first path is reported without its first character. */
  lemma ParseAfterStrip(entries: seq<Entry>)
    requires forall e :: e in entries ==> WellFormed(e)
    ensures Parse(Strip(Render(entries)))
         == if entries == [] || entries[0].index != ' ' then Paths(entries) else Shortened(entries)
  {
    if entries == [] {
      ParseInvertsRender(entries);
    } else {
      var e, rest := entries[0], Render(entries[1..]);
      var text := Render(entries);
      RenderEndsInNul(entries);
      assert WellFormed(e) && text[0] == e.index && text[1] == e.worktree;
      if e.index == ' ' {
        StripOfStatus(text);
        BlankColumn(e, rest);
        ParseInvertsRender(entries[1..]);
      } else {
        KeptIndex(text);
        ParseInvertsRender(entries);
      }
    }
  }

  lemma KeptIndex(text: string)
    requires text != [] && !IsSpace(text[0]) && text[|text| - 1] == NUL
    ensures Strip(text) == text
  {
  }

  lemma BlankColumn(e: Entry, rest: string)
    requires WellFormed(e) && e.index == ' '
    ensures Parse((RenderEntry(e) + rest)[1..]) == PathsOf(e.(path := WithoutFirst(e.path))) + Parse(rest)
  {
    var item := [e.worktree, ' '] + e.path;
    var tail := if e.original.Some? then e.original.value + [NUL] else "";
    assert (RenderEntry(e) + rest)[1..] == item + [NUL] + tail + rest;
    assert CodeOf(item) == [e.worktree, ' '] && PathOf(item) == e.path[1..];
    ParseEntry(item, e.original, rest);
  }

  lemma ShortenedLosesPath(e: Entry, others: set<string>)
    requires PathText(e.path) && Slashed(e.path) !in others
    requires e.original.Some? ==> Slashed(e.original.value) != Slashed(e.path)
    ensures Slashed(e.path) !in PathsOf(e.(path := WithoutFirst(e.path))) + others
  {
    assert |Slashed(e.path)| != |Slashed(WithoutFirst(e.path))|;
  }

  /** So, when no other entry carries the path of the first one, the stripped output is
      parsed exactly if and only if its first index column is not blank. */
  lemma StripIsHarmlessIff(entries: seq<Entry>)
    requires forall e :: e in entries ==> WellFormed(e)
    requires entries != [] ==> Slashed(entries[0].path) !in Paths(entries[1..])
                               && (entries[0].original.Some? ==> Slashed(entries[0].original.value) != Slashed(entries[0].path))
    ensures Parse(Strip(Render(entries))) == Paths(entries) <==> entries == [] || entries[0].index != ' '
  {
    ParseAfterStrip(entries);
    if entries != [] && entries[0].index == ' ' {
      assert entries[0] in entries;
      ShortenedLosesPath(entries[0], Paths(entries[1..]));
    }
  }

  /** A witness: one modified, unstaged file. */
  lemma UnstagedChangeIsMisread()
    ensures var e := Entry(' ', 'M', "a.py", None);
            WellFormed(e) && Parse(Strip(Render([e]))) == {".py"}
  {
    var e := Entry(' ', 'M', "a.py", None);
    ParseAfterStrip([e]);
    assert [e][1..] == [];
    assert Slashed(WithoutFirst(e.path)) == ".py";
  }
}
