/** The edit methods of internal/setup/codex.go for given names, values and keys, each proved equal to its
    meaning on lines. The text functions are in TomlText, the line-level meaning in CodexLines. */
module CodexEditor {
  import opened Seqs
  import opened Strings
  import opened TomlText
  import opened CodexLines

  datatype Scalar = Scalar(key: string, value: string)

  /** What to edit: the managed table, the stale one, the scalar keys, the exporter key and its value. */
  datatype Settings = Settings(otel: string, stale: string, scalars: seq<Scalar>, exporter: string, table: string)

  /** `key = value`. */
  function Assignment(key: string, value: string): string { (key + " =") + (" " + value) }

  function AssignsKey(key: string): string -> bool { (line: string) => HasPrefix(TrimSpace(line), key + " =") }

  function IsTable(table: string): string -> bool { (line: string) => HeaderMatches(line, table) }

  function IsBlank(): string -> bool { (line: string) => TrimSpace(line) == "" }

  function IsLine(wanted: string): string -> bool { (line: string) => TrimSpace(line) == wanted }

  /** How the plan output describes a change to a key. */
  function Description(otel: string, s: Scalar): string { otel + "." + Assignment(s.key, s.value) }

  function Descriptions(otel: string, scalars: seq<Scalar>): (r: seq<string>)
    ensures |r| == |scalars|
  {
    seq(|scalars|, i requires 0 <= i < |scalars| => Description(otel, scalars[i]))
  }

  function EntryOf(s: Scalar): Entry<string> { Entry(AssignsKey(s.key), Assignment(s.key, s.value)) }

  function Entries(scalars: seq<Scalar>): (r: seq<Entry<string>>)
    ensures |r| == |scalars|
  {
    seq(|scalars|, i requires 0 <= i < |scalars| => EntryOf(scalars[i]))
  }

  function Patterns(c: Settings): Grammar<string> { Grammar(LineDelta, IsHeader, IsTable(c.otel), IsTable(c.stale)) }

  function HeadOf(c: Settings): string { "[" + c.otel + "]" }

  function EditorOf(c: Settings): Editor<string> {
    Editor(Patterns(c), IsBlank(), "", HeadOf(c), Entries(c.scalars), EntryOf(Scalar(c.exporter, c.table)),
           IsLine(Assignment(c.exporter, c.table)))
  }

  /** The edited text. */
  function Edited(ed: Editor<string>, text: string): string { Text(Edit(ed, SplitLines(text)).0) }

  predicate Changes(ed: Editor<string>, text: string) { Edit(ed, SplitLines(text)).1 }

  // ---------- the settings' own lines ----------

  predicate StartsPlain(key: string) { |key| > 1 && 'a' <= key[0] <= 'z' }

  /** Two keys that differ in their first two characters. */
  predicate AreApart(a: string, b: string) { |a| > 1 && |b| > 1 && (a[0] != b[0] || a[1] != b[1]) }

  predicate IsFlatScalar(s: Scalar) {
    StartsPlain(s.key) && EndsPlain(s.value) && LineDelta(Assignment(s.key, s.value)) == 0
  }

  predicate IsName(name: string) { IsSegment(name) && NoBrackets(name) && IsUnquoted(name) }

  /** Settings whose lines are flat, no headers, and told apart by their keys. */
  predicate AreFlat(c: Settings) {
    && IsName(c.otel) && SplitDottedKey(c.otel) != SplitDottedKey(c.stale)
    && IsFlatScalar(Scalar(c.exporter, c.table))
    && forall i :: 0 <= i < |c.scalars| ==> IsFlatScalar(c.scalars[i]) && AreApart(c.exporter, c.scalars[i].key)
  }

  predicate IsOneLine(s: Scalar) { '\n' !in s.key && '\n' !in s.value }

  /** Settings without line feeds. */
  predicate AreOneLine(c: Settings) {
    && '\n' !in c.otel && IsOneLine(Scalar(c.exporter, c.table))
    && forall i :: 0 <= i < |c.scalars| ==> IsOneLine(c.scalars[i])
  }

  lemma AssignmentTrimmed(key: string, value: string)
    requires StartsPlain(key) && EndsPlain(value)
    ensures TrimSpace(Assignment(key, value)) == Assignment(key, value)
  {
    TrimmedIs(Assignment(key, value));
  }

  lemma AssignmentAssigns(key: string, value: string)
    requires StartsPlain(key) && EndsPlain(value)
    ensures AssignsKey(key)(Assignment(key, value))
  {
    AssignmentTrimmed(key, value);
  }

  /** An assignment is no header. */
  lemma AssignmentIsNoHeader(key: string, value: string, table: string)
    requires StartsPlain(key) && EndsPlain(value)
    ensures !IsHeader(Assignment(key, value)) && !HeaderMatches(Assignment(key, value), table)
  {
    var line := Assignment(key, value);
    assert line[0] == key[0];
    NotHeader(line);
    AssignmentTrimmed(key, value);
    NoTable(line, table);
  }

  lemma NotAssigned(key: string, line: string)
    requires TrimSpace(line) == ""
    ensures !AssignsKey(key)(line)
  {
    assert |key + " ="| > 0;
  }

  lemma PrefixChar(s: string, key: string, rest: string, i: nat)
    requires HasPrefix(s, key + rest) && i < |key|
    ensures i < |s| && s[i] == key[i]
  {
    assert (key + rest)[i] == key[i];
  }

  /** Two keys that differ in their first two characters cannot begin one text. */
  lemma ApartPrefixes(s: string, a: string, b: string, rest: string)
    requires AreApart(a, b) && HasPrefix(s, a + rest)
    ensures !HasPrefix(s, b + rest)
  {
    if HasPrefix(s, b + rest) {
      var i := if a[0] != b[0] then 0 else 1;
      PrefixChar(s, a, rest, i);
      PrefixChar(s, b, rest, i);
    }
  }

  lemma KeysExclude(a: string, b: string, line: string)
    requires AreApart(a, b) && AssignsKey(a)(line)
    ensures !AssignsKey(b)(line)
  {
    ApartPrefixes(TrimSpace(line), a, b, " =");
  }

  lemma AssignmentIsInert(c: Settings, s: Scalar)
    requires IsFlatScalar(s)
    ensures IsInert(Patterns(c), Assignment(s.key, s.value))
  {
    AssignmentIsNoHeader(s.key, s.value, c.otel);
    AssignmentIsNoHeader(s.key, s.value, c.stale);
  }

  lemma EmptyIsInert(c: Settings)
    ensures IsInert(Patterns(c), "")
  {
    EmptyLine();
  }

  lemma EntryFits(c: Settings, s: Scalar)
    requires IsFlatScalar(s)
    ensures IsEntry(EditorOf(c), EntryOf(s))
  {
    AssignmentIsInert(c, s);
    AssignmentAssigns(s.key, s.value);
    EmptyLine();
    NotAssigned(s.key, "");
  }

  lemma ScalarIsApart(ed: Editor<string>, i: nat, exporter: string, key: string)
    requires i < |ed.scalars| && IsEntry(ed, ed.scalars[i]) && AreApart(exporter, key)
    requires ed.exporter.assigns == AssignsKey(exporter) && ed.scalars[i].assigns == AssignsKey(key)
    ensures ScalarFits(ed, i)
  {
    forall l | ed.exporter.assigns(l) ensures !ed.scalars[i].assigns(l) {
      KeysExclude(exporter, key, l);
    }
  }

  lemma ScalarIsSane(c: Settings, i: nat)
    requires i < |c.scalars| && IsFlatScalar(c.scalars[i]) && AreApart(c.exporter, c.scalars[i].key)
    ensures ScalarFits(EditorOf(c), i)
  {
    EntryFits(c, c.scalars[i]);
    ScalarIsApart(EditorOf(c), i, c.exporter, c.scalars[i].key);
  }

  lemma ExporterIsSane(c: Settings)
    requires IsFlatScalar(Scalar(c.exporter, c.table))
    ensures ExporterFits(EditorOf(c))
  {
    EntryFits(c, Scalar(c.exporter, c.table));
    AssignmentTrimmed(c.exporter, c.table);
  }

  lemma LinesAreSane(c: Settings)
    requires IsName(c.otel)
    ensures LinesFit(EditorOf(c))
  {
    EmptyIsInert(c);
    WrittenHeader(c.otel);
  }

  lemma ScalarsAreSane(c: Settings, ed: Editor<string>)
    requires AreFlat(c) && ed == EditorOf(c)
    ensures forall i :: 0 <= i < |ed.scalars| ==> ScalarFits(ed, i)
  {
    forall i | 0 <= i < |ed.scalars| ensures ScalarFits(ed, i) {
      ScalarIsSane(c, i);
    }
  }

  lemma RestIsSane(c: Settings, ed: Editor<string>)
    requires AreFlat(c) && ed == EditorOf(c)
    ensures ExporterFits(ed) && LinesFit(ed)
  {
    ExporterIsSane(c);
    LinesAreSane(c);
  }

  lemma TablesDiffer(c: Settings, ed: Editor<string>)
    requires AreFlat(c) && ed == EditorOf(c)
    ensures forall l :: !(ed.grammar.otel(l) && ed.grammar.stale(l))
  {
  }

  /** Everything the line editor assumes of its own lines holds of these. */
  lemma EditorIsSane(c: Settings, ed: Editor<string>)
    requires AreFlat(c) && ed == EditorOf(c)
    ensures IsSane(ed)
  {
    ScalarsAreSane(c, ed);
    RestIsSane(c, ed);
    TablesDiffer(c, ed);
    SaneFromParts(ed);
  }

  lemma AbsentFromAll(a: string, b: string, d: string, e: string, c: char)
    requires c !in a && c !in b && c !in d && c !in e
    ensures c !in (a + b) + (d + e) && c !in a + b + d
  {
  }

  lemma SeparatorsAreClean()
    ensures '\n' !in " =" && '\n' !in " " && '\n' !in "[" && '\n' !in "]"
  {
  }

  lemma AssignmentIsLine(key: string, value: string)
    requires '\n' !in key && '\n' !in value
    ensures '\n' !in Assignment(key, value)
  {
    SeparatorsAreClean();
    AbsentFromAll(key, " =", " ", value, '\n');
  }

  lemma EntryIsLine(s: Scalar)
    requires IsOneLine(s)
    ensures '\n' !in EntryOf(s).line
  {
    AssignmentIsLine(s.key, s.value);
  }

  lemma HeadIsLine(c: Settings)
    requires '\n' !in c.otel
    ensures '\n' !in HeadOf(c)
  {
    SeparatorsAreClean();
    AbsentFromAll("[", c.otel, "]", "]", '\n');
  }

  lemma ScalarLineIsLine(c: Settings, e: Entry<string>)
    requires AreOneLine(c) && e in Entries(c.scalars)
    ensures '\n' !in e.line
  {
    var i :| 0 <= i < |c.scalars| && e == EntryOf(c.scalars[i]);
    EntryIsLine(c.scalars[i]);
  }

  /** An editor whose own lines hold no line feed. */
  ghost predicate HasOneLiners(ed: Editor<string>) { forall l :: IsOwn(ed, l) ==> '\n' !in l }

  lemma OwnLinesAreLines(c: Settings, ed: Editor<string>, l: string)
    requires AreOneLine(c) && ed == EditorOf(c) && IsOwn(ed, l)
    ensures '\n' !in l
  {
    HeadIsLine(c);
    EntryIsLine(Scalar(c.exporter, c.table));
    if e :| e in ed.scalars && l == e.line {
      ScalarLineIsLine(c, e);
    }
  }

  lemma EditorHasOneLiners(c: Settings, ed: Editor<string>)
    requires AreOneLine(c) && ed == EditorOf(c)
    ensures HasOneLiners(ed)
  {
    forall l | IsOwn(ed, l) ensures '\n' !in l {
      OwnLinesAreLines(c, ed, l);
    }
  }

  // ---------- properties of the edit ----------

  lemma EditedSplits(ed: Editor<string>, text: string)
    requires HasOneLiners(ed)
    ensures SplitLines(Edited(ed, text)) == Edit(ed, SplitLines(text)).0
  {
    TextOfSplitLines(text);
    EditLines(ed, SplitLines(text));
    SplitLinesOfText(Edit(ed, SplitLines(text)).0);
  }

  /** An edit that reports no change and keeps the text keeps the lines. */
  lemma SameTextSameLines(ed: Editor<string>, lines: seq<string>, text: string)
    requires HasOneLiners(ed) && lines == SplitLines(text) && text == Text(lines)
    ensures Edited(ed, text) == text && !Changes(ed, text) <==> Edit(ed, lines) == (lines, false)
  {
    EditedSplits(ed, text);
  }

  /** Editing twice: the second edit reports no change and returns the same text if and only if the text had
      at most two stale tables. What that takes of the text a caller can check: its brackets balance at the
      end, every header to act on is one as written, and the exporter line to be replaced, if any, opens no
      bracket it leaves open. */
  lemma EditedTwice(ed: Editor<string>, text: string)
    requires IsSane(ed) && HasOneLiners(ed) && IsTame(ed, SplitLines(text))
    ensures var once := Edited(ed, text);
            Edited(ed, once) == once && !Changes(ed, once) <==>
              Count(ed.grammar, ed.grammar.stale, 0, SplitLines(text)) <= 2
  {
    EditTwice(ed, SplitLines(text));
    EditedSplits(ed, text);
    SameTextSameLines(ed, Edit(ed, SplitLines(text)).0, Edited(ed, text));
  }

  lemma ThreeStaleTwice(ed: Editor<string>, s: string)
    requires IsSane(ed) && HasOneLiners(ed) && ed.grammar.stale(s) && ed.grammar.header(s) && ed.grammar.delta(s) == 0
             && '\n' !in s
    ensures var once := Edited(ed, Text([s, s, s])); !(Edited(ed, once) == once && !Changes(ed, once))
  {
    ThreeStaleTables(ed, s);
    SplitLinesOfText([s, s, s]);
    EditedTwice(ed, Text([s, s, s]));
  }

  lemma ExposedTextIsCut(ed: Editor<string>, h: string, x: string, s: string, c: string)
    requires IsSane(ed) && HasOneLiners(ed) && HidesStale(ed, h, x, s, c) && ed.scalars != [] && AreLines([h, x, s, c])
    ensures Edited(ed, Text([h, x, s, c])) == Text([h, ed.exporter.line]) && Changes(ed, Text([h, ed.exporter.line]))
  {
    ExposedTableIsCut(ed, h, x, s, c);
    SplitLinesOfText([h, x, s, c]);
    assert IsOwn(ed, ed.exporter.line) && h in [h, x, s, c];
    SplitLinesOfText([h, ed.exporter.line]);
  }

  lemma UnplainTextIsCut(ed: Editor<string>, s: string, n: string)
    requires IsSane(ed) && ed.grammar.stale(s) && ed.grammar.delta(s) == 0 && '\n' !in s
    requires ed.grammar.otel(n) && !ed.grammar.header(n) && ed.grammar.delta(n) == 0 && '\n' !in n
    ensures Edited(ed, Text([s, n])) == "" && Changes(ed, "")
  {
    UnplainTableIsCut(ed, s, n);
    SplitLinesOfText([s, n]);
  }

  /** Up to empty lines at the end, the edited lines are the old ones, with the one exporter line of the first
      managed table (appended when there was none) replaced, the missing keys added at its end, and the first two
      stale tables cut. */
  lemma EditedFrame(ed: Editor<string>, text: string)
    returns (before: seq<string>, head: string, body: seq<string>, more: seq<string>, after: seq<string>)
    requires IsSane(ed) && HasOneLiners(ed) && IsTame(ed, SplitLines(text))
    ensures Prepared(ed, SplitLines(text)) == Whole(before, head, body, after)
    ensures IsLayout(ed.grammar, ed.grammar.otel, before, head, body, after)
    ensures AreAdded(ed, Inside(ed.grammar, head), body, more) && AddsAll(ed, Inside(ed.grammar, head), body, more)
    ensures var managed := Whole(before, head, WithExporter(ed, Inside(ed.grammar, head), body) + more, after);
            var cut := WithoutFirstStale(ed.grammar, WithoutFirstStale(ed.grammar, managed));
            IsTrimOf(ed, SplitLines(Edited(ed, text)), cut)
  {
    EditedSplits(ed, text);
    before, head, body, more, after := EditFrame(ed, SplitLines(text));
  }

  /** The keys an editor manages. */
  ghost function ManagedBy(ed: Editor<string>): Entry<string> -> bool { e => e in ed.scalars || e == ed.exporter }

  /** After an edit every managed key is assigned where it should be. */
  lemma EditedAssigns(ed: Editor<string>, text: string, e: Entry<string>)
    requires IsSane(ed) && HasOneLiners(ed) && IsTame(ed, SplitLines(text)) && ManagedBy(ed)(e)
    ensures IsAssigned(ed, SplitLines(Edited(ed, text)), e)
  {
    EditedSplits(ed, text);
    EditedKeysFound(ed, SplitLines(text), e);
  }

  /** Where a text ends inside a bracket and lacks both tables, no number of edits is enough. */
  lemma OpenTextNeverSettles(ed: Editor<string>, text: string)
    requires IsSane(ed) && HasOneLiners(ed) && IsOpenEnded(ed.grammar, SplitLines(text))
    ensures Changes(ed, text) && IsOpenEnded(ed.grammar, SplitLines(Edited(ed, text)))
    ensures |SplitLines(Edited(ed, text))| > |SplitLines(text)|
  {
    EditedSplits(ed, text);
    OpenEndedNeverSettles(ed, SplitLines(text));
  }

  // ---------- the methods ----------

  ghost predicate AreDepths(lines: seq<string>, depths: seq<int>) {
    |depths| == |lines| && forall i :: 0 <= i < |lines| ==> depths[i] == DepthOf(lines, i)
  }

  /** Bracket depth at the start of line `i`. */
  function DepthOf(lines: seq<string>, i: nat): nat
    requires i <= |lines|
  {
    Depth(Scanner(), 0, lines[..i])
  }

  /** The scanner alone; depths do not depend on which headers matter. */
  function Scanner(): Grammar<string> { Grammar(LineDelta, IsHeader, IsHeader, IsHeader) }

  ghost predicate ScansLines(g: Grammar<string>) { g.delta == LineDelta && g.header == IsHeader }

  lemma {:induction false} SameDepth(g: Grammar<string>, d: nat, lines: seq<string>)
    requires ScansLines(g)
    ensures Depth(g, d, lines) == Depth(Scanner(), d, lines)
    decreases |lines|
  {
    if lines != [] {
      SameDepth(g, Clamp(d + LineDelta(lines[0])), lines[1..]);
    }
  }

  method LineDepths(lines: seq<string>) returns (depths: seq<int>)
    ensures AreDepths(lines, depths)
    ensures depths != [] ==> depths[0] == 0
    ensures forall i, j :: 0 <= i < j < |depths| && j == i + 1 ==> depths[j] == Max(0, depths[i] + LineDelta(lines[i]))
  {
    depths := [];
    var depth := 0;
    for i := 0 to |lines|
      invariant |depths| == i && depth == DepthOf(lines, i)
      invariant if i == 0 then depth == 0 else depth == Max(0, depths[i - 1] + LineDelta(lines[i - 1]))
      invariant i > 0 ==> depths[0] == 0
      invariant forall k, j :: 0 <= k < j < i && j == k + 1 ==> depths[j] == Max(0, depths[k] + LineDelta(lines[k]))
      invariant forall j :: 0 <= j < i ==> depths[j] == DepthOf(lines, j)
    {
      depths := depths + [depth];
      DepthNext(Scanner(), lines, i);
      var delta := LineDeltaOf(lines[i]);
      depth := depth + delta;
      if depth < 0 {
        depth := 0;
      }
    }
  }

  lemma ScanStep(g: Grammar<string>, p: string -> bool, lines: seq<string>, depths: seq<int>, at: nat, to: nat)
    requires ScansLines(g) && AreDepths(lines, depths) && at < to <= |lines|
    ensures Rest(g, p, lines, at, to) == if depths[at] == 0 && p(lines[at]) then at else Rest(g, p, lines, at + 1, to)
  {
    RestStep(g, p, lines, at, to);
    SameDepth(g, 0, lines[..at]);
  }

  lemma RestOfAll(g: Grammar<string>, p: string -> bool, lines: seq<string>)
    ensures Rest(g, p, lines, 0, |lines|) == First(g, p, 0, lines)
  {
    assert lines[0..|lines|] == lines && lines[..0] == [];
  }

  lemma RestAfter(g: Grammar<string>, lines: seq<string>, start: nat)
    requires start < |lines|
    ensures TableEnd(g, lines, start) == Rest(g, g.header, lines, start + 1, |lines|)
  {
    assert lines[start + 1..|lines|] == lines[start + 1..];
  }

  /** First header line of the table at depth zero, or -1. */
  method FindTable(lines: seq<string>, depths: seq<int>, table: string, ghost g: Grammar<string>) returns (at: int)
    requires ScansLines(g) && AreDepths(lines, depths)
    ensures at == var first := First(g, IsTable(table), 0, lines); if first < |lines| then first else -1
  {
    RestOfAll(g, IsTable(table), lines);
    for idx := 0 to |lines|
      invariant First(g, IsTable(table), 0, lines) == Rest(g, IsTable(table), lines, idx, |lines|)
    {
      ScanStep(g, IsTable(table), lines, depths, idx, |lines|);
      if depths[idx] == 0 && HeaderMatches(lines[idx], table) {
        return idx;
      }
    }
    at := -1;
  }

  method TableEndAt(lines: seq<string>, depths: seq<int>, start: nat, ghost g: Grammar<string>) returns (end: nat)
    requires ScansLines(g) && AreDepths(lines, depths) && start < |lines|
    ensures end == TableEnd(g, lines, start)
  {
    RestAfter(g, lines, start);
    for idx := start + 1 to |lines|
      invariant TableEnd(g, lines, start) == Rest(g, g.header, lines, idx, |lines|)
    {
      ScanStep(g, g.header, lines, depths, idx, |lines|);
      if depths[idx] == 0 && IsHeader(lines[idx]) {
        return idx;
      }
    }
    end := |lines|;
  }

  method Assigns(line: string, key: string) returns (yes: bool)
    ensures yes == AssignsKey(key)(line)
  {
    yes := HasPrefix(TrimSpace(line), key + " =");
  }

  method KeyPresent(lines: seq<string>, depths: seq<int>, from: nat, to: nat, key: string, ghost g: Grammar<string>)
    returns (present: bool)
    requires ScansLines(g) && AreDepths(lines, depths) && from <= to <= |lines|
    ensures present == (Rest(g, AssignsKey(key), lines, from, to) < to)
  {
    ghost var assigns := AssignsKey(key);
    ghost var found := Rest(g, assigns, lines, from, to);
    var idx := from;
    while idx < to
      invariant from <= idx <= to && found == Rest(g, assigns, lines, idx, to)
    {
      ScanStep(g, assigns, lines, depths, idx, to);
      var yes := Assigns(lines[idx], key);
      if depths[idx] == 0 && yes {
        present := true;
        return;
      }
      idx := idx + 1;
    }
    RestOfNone(g, assigns, lines, to);
    present := false;
  }

  /** The search loop of replaceOrInsertTableKey: the first line that assigns the key, or `to`. */
  method FindKey(lines: seq<string>, depths: seq<int>, from: nat, to: nat, key: string, ghost g: Grammar<string>)
    returns (at: nat)
    requires ScansLines(g) && AreDepths(lines, depths) && from <= to <= |lines|
    ensures at == Rest(g, AssignsKey(key), lines, from, to)
  {
    ghost var assigns := AssignsKey(key);
    ghost var found := Rest(g, assigns, lines, from, to);
    at := from;
    while at < to
      invariant from <= at <= to && found == Rest(g, assigns, lines, at, to)
    {
      ScanStep(g, assigns, lines, depths, at, to);
      var yes := Assigns(lines[at], key);
      if depths[at] == 0 && yes {
        break;
      }
      at := at + 1;
    }
    if at == to {
      RestOfNone(g, assigns, lines, to);
    }
  }

  method InsertAt(lines: seq<string>, idx: nat, s: string) returns (out: seq<string>)
    requires idx <= |lines|
    ensures out == Inserted(lines, idx, s)
  {
    out := [];
    out := out + lines[..idx];
    out := out + [s];
    out := out + lines[idx..];
  }

  method JoinLines(lines: seq<string>) returns (text: string)
    requires lines != []
    ensures text == Text(lines)
  {
    JoinIsText(lines);
    text := Join(lines) + "\n";
  }

  /** An editor that reads and appends lines as these methods do, for the table `otel`. */
  ghost predicate EditsTable(ed: Editor<string>, otel: string) {
    ScansLines(ed.grammar) && ed.grammar.otel == IsTable(otel) && ed.blank == IsBlank() && ed.empty == ""
    && ed.head == "[" + otel + "]"
  }

  method AppendTableText(lines: seq<string>, otel: string, bodyLine: string, ghost ed: Editor<string>)
    returns (text: string)
    requires EditsTable(ed, otel)
    ensures text == Text(AppendTable(ed, lines, bodyLine))
    ensures AppendTable(ed, lines, bodyLine) ==
              lines + (if lines != [] && TrimSpace(lines[|lines| - 1]) != "" then [""] else [])
              + ["[" + otel + "]", bodyLine]
  {
    var all := lines;
    if |lines| > 0 && TrimSpace(lines[|lines| - 1]) != "" {
      all := all + [""];
    }
    assert all == AppendBase(ed, lines);
    all := all + ["[" + otel + "]", bodyLine];
    assert all == AppendTable(ed, lines, bodyLine);
    text := JoinLines(all);
  }

  function TextOf(r: (seq<string>, bool)): (string, bool) { (Text(r.0), r.1) }

  /** ensureTableKey: insert the assignment at the end of the table unless the key is assigned. */
  method EnsureTableKey(text: string, otel: string, key: string, line: string, ghost ed: Editor<string>)
    returns (out: string, added: bool)
    requires EditsTable(ed, otel)
    ensures (out, added) == TextOf(EnsureKey(ed, Entry(AssignsKey(key), line), SplitLines(text)))
  {
    var lines := SplitLines(text);
    var depths := LineDepths(lines);
    var start := FindTable(lines, depths, otel, ed.grammar);
    if start < 0 {
      out, added := AppendKey(lines, otel, key, line, ed);
    } else {
      TextOfSplitLines(text);
      out, added := EnsureInTable(lines, EnsureTrailingNewline(text), depths, start, key, line, ed);
    }
  }

  method AppendKey(lines: seq<string>, otel: string, key: string, line: string, ghost ed: Editor<string>)
    returns (out: string, added: bool)
    requires EditsTable(ed, otel) && Lacks(ed.grammar, ed.grammar.otel, 0, lines)
    ensures (out, added) == TextOf(EnsureKey(ed, Entry(AssignsKey(key), line), lines))
  {
    EnsureAbsentCase(ed, Entry(AssignsKey(key), line), lines);
    out := AppendTableText(lines, otel, line, ed);
    added := true;
  }

  method EnsureInTable(lines: seq<string>, same: string, depths: seq<int>, start: nat, key: string, line: string,
                       ghost ed: Editor<string>)
    returns (out: string, added: bool)
    requires ScansLines(ed.grammar) && same == Text(lines) && AreDepths(lines, depths)
    requires start == First(ed.grammar, ed.grammar.otel, 0, lines) && start < |lines|
    ensures (out, added) == TextOf(EnsureKey(ed, Entry(AssignsKey(key), line), lines))
  {
    var end := TableEndAt(lines, depths, start, ed.grammar);
    var present := KeyPresent(lines, depths, start + 1, end, key, ed.grammar);
    EnsureCases(ed, Entry(AssignsKey(key), line), lines, start, end);
    out, added := InsertUnless(present, lines, same, end, line);
  }

  method InsertUnless(present: bool, lines: seq<string>, same: string, end: nat, line: string)
    returns (out: string, added: bool)
    requires end <= |lines| && same == Text(lines)
    ensures (out, added) == TextOf(if present then (lines, false) else (Inserted(lines, end, line), true))
  {
    if present {
      return same, false;
    }
    var inserted := InsertAt(lines, end, line);
    out := JoinLines(inserted);
    added := true;
  }

  /** replaceOrInsertTableKey: replace the first line that assigns the key, unless it is the wanted one. */
  method ReplaceOrInsertTableKey(text: string, otel: string, key: string, line: string, ghost ed: Editor<string>)
    returns (out: string, changed: bool)
    requires EditsTable(ed, otel) && ed.exporter == Entry(AssignsKey(key), line) && ed.wanted == IsLine(line)
    ensures (out, changed) == TextOf(PutExporter(ed, SplitLines(text)))
  {
    var lines := SplitLines(text);
    var depths := LineDepths(lines);
    var start := FindTable(lines, depths, otel, ed.grammar);
    if start < 0 {
      ExportAbsentCase(ed, lines);
      out := AppendTableText(lines, otel, line, ed);
      changed := true;
    } else {
      out, changed := ReplaceOrInsertInTable(lines, depths, start, key, line, ed);
    }
  }

  method ReplaceOrInsertInTable(lines: seq<string>, depths: seq<int>, start: nat, key: string, line: string,
                                ghost ed: Editor<string>)
    returns (out: string, changed: bool)
    requires ScansLines(ed.grammar) && ed.exporter == Entry(AssignsKey(key), line) && ed.wanted == IsLine(line)
             && AreDepths(lines, depths)
    requires start == First(ed.grammar, ed.grammar.otel, 0, lines) && start < |lines|
    ensures (out, changed) == TextOf(PutExporter(ed, lines))
  {
    var end := TableEndAt(lines, depths, start, ed.grammar);
    var at := FindKey(lines, depths, start + 1, end, key, ed.grammar);
    ExportCases(ed, lines, start, end, at);
    out, changed := PutLine(lines, end, at, line);
  }

  method PutLine(lines: seq<string>, end: nat, at: nat, line: string) returns (out: string, changed: bool)
    requires end <= |lines|
    ensures (out, changed) == TextOf(Put(lines, end, at, line, at < end && TrimSpace(lines[at]) == line))
  {
    if at >= end {
      var inserted := InsertAt(lines, end, line);
      out := JoinLines(inserted);
      changed := true;
    } else if TrimSpace(lines[at]) == line {
      out := JoinLines(lines);
      changed := false;
    } else {
      out := JoinLines(Replaced(lines, at, line));
      changed := true;
    }
  }

  /** removeTable: cut the first such table. */
  method RemoveTable(text: string, name: string, ghost ed: Editor<string>) returns (out: string, removed: bool)
    requires ScansLines(ed.grammar) && ed.empty == "" && (forall l :: ed.grammar.stale(l) == IsTable(name)(l))
    ensures (out, removed) == TextOf(RemoveStale(ed, SplitLines(text)))
  {
    var lines := SplitLines(text);
    TextOfSplitLines(text);
    var depths := LineDepths(lines);
    SameFirst(ed.grammar, IsTable(name), ed.grammar.stale, 0, lines);
    var start := FindTable(lines, depths, name, ed.grammar);
    if start < 0 {
      return EnsureTrailingNewline(text), false;
    }
    var end := TableEndAt(lines, depths, start, ed.grammar);
    out := CutTable(lines, start, end, ed.grammar);
    removed := true;
  }

  method CutTable(found: seq<string>, start: nat, end: nat, ghost g: Grammar<string>) returns (out: string)
    requires AreLines(found) && start < |found| && ScansLines(g) && end == TableEnd(g, found, start)
    ensures out == Text(WithoutLastEmpty(Cut(found, start, end)))
  {
    var lines := Cut(found, start, end);
    TableEndIsHeader(g, found, start);
    if start < |lines| {
      HeaderIsNotBlank(lines[start]);
    }
    lines := CollapseBlankLines(lines, start);
    JoinDropsLastEmpty(lines);
    out := EnsureTrailingNewline(Join(lines));
  }

  /** The loop after the cut. It never runs: the line after the cut is a header or there is none. */
  method CollapseBlankLines(given: seq<string>, start: nat) returns (lines: seq<string>)
    ensures start >= |given| || TrimSpace(given[start]) != "" ==> lines == given
  {
    lines := given;
    while start < |lines| && TrimSpace(lines[start]) == "" && start > 0 && TrimSpace(lines[start - 1]) == ""
      invariant start >= |given| || TrimSpace(given[start]) != "" ==> lines == given
      decreases |lines|
    {
      lines := lines[..start] + lines[start + 1..];
    }
  }

  lemma TableEndIsHeader(g: Grammar<string>, lines: seq<string>, start: nat)
    requires ScansLines(g) && start < |lines|
    ensures var end := TableEnd(g, lines, start); end < |lines| ==> IsHeader(lines[end])
  {
    if TableEnd(g, lines, start) < |lines| {
      FirstFinds(g, g.header, Depth(g, 0, lines[..start + 1]), lines[start + 1..]);
    }
  }

  // ---------- the whole edit ----------

  /** Lines, and whether anything changed so far. */
  type Progress = (seq<string>, bool)

  function Ensured(ed: Editor<string>, e: Entry<string>, p: Progress): Progress {
    var r := EnsureKey(ed, e, p.0);
    (r.0, p.1 || r.1)
  }

  /** What the entries from `i` on make of it. */
  function EnsureFrom(ed: Editor<string>, entries: seq<Entry<string>>, i: nat, p: Progress): Progress
    requires i <= |entries|
  {
    var rest := EnsureAll(ed, entries[i..], p.0);
    (rest.0, p.1 || rest.1)
  }

  lemma NoEntryLeft(ed: Editor<string>, entries: seq<Entry<string>>, p: Progress)
    ensures EnsureFrom(ed, entries, |entries|, p) == p
  {
    assert entries[|entries|..] == [];
  }

  lemma AllEntriesLeft(ed: Editor<string>, entries: seq<Entry<string>>, lines: seq<string>)
    ensures EnsureFrom(ed, entries, 0, (lines, false)) == EnsureAll(ed, entries, lines)
  {
    assert entries[0..] == entries;
  }

  lemma NextEntry(ed: Editor<string>, entries: seq<Entry<string>>, i: nat, e: Entry<string>, p: Progress)
    requires i < |entries| && entries[i] == e
    ensures EnsureFrom(ed, entries, i, p) == EnsureFrom(ed, entries, i + 1, Ensured(ed, e, p))
  {
    assert entries[i..][0] == entries[i] && entries[i..][1..] == entries[i + 1..];
  }

  lemma EnsureKeepsLines(ed: Editor<string>, e: Entry<string>, lines: seq<string>)
    requires AreLines(lines) && '\n' !in e.line && '\n' !in ed.head && ed.empty == ""
    ensures AreLines(EnsureKey(ed, e, lines).0)
            && SplitLines(Text(EnsureKey(ed, e, lines).0)) == EnsureKey(ed, e, lines).0
  {
    EnsureLines(ed, e, lines);
    SplitLinesOfText(EnsureKey(ed, e, lines).0);
  }

  method EnsureScalar(text: string, otel: string, s: Scalar, ghost ed: Editor<string>)
    returns (out: string, added: bool)
    requires EditsTable(ed, otel) && IsOneLine(s) && '\n' !in otel
    ensures (SplitLines(out), added) == EnsureKey(ed, EntryOf(s), SplitLines(text))
  {
    TextOfSplitLines(text);
    EntryIsLine(s);
    NameIsLine(otel);
    EnsureKeepsLines(ed, EntryOf(s), SplitLines(text));
    out, added := EnsureTableKey(text, otel, s.key, Assignment(s.key, s.value), ed);
  }

  lemma NameIsLine(otel: string)
    requires '\n' !in otel
    ensures '\n' !in "[" + otel + "]"
  {
    SeparatorsAreClean();
    AbsentFromAll("[", otel, "]", "]", '\n');
  }

  /** The scalar insertions, one after another, with a description of each that changes something. */
  method EnsureScalars(text: string, otel: string, scalars: seq<Scalar>, ghost ed: Editor<string>)
    returns (out: string, changes: seq<string>)
    requires EditsTable(ed, otel) && '\n' !in otel && forall i :: 0 <= i < |scalars| ==> IsOneLine(scalars[i])
    ensures (SplitLines(out), |changes| > 0) == EnsureAll(ed, Entries(scalars), SplitLines(text))
    ensures changes == NotesFrom(ed, Entries(scalars), Descriptions(otel, scalars), SplitLines(text))
  {
    out, changes := text, [];
    var descriptions := Descriptions(otel, scalars);
    ghost var entries := Entries(scalars);
    ghost var progress: Progress := (SplitLines(text), false);
    ghost var whole := EnsureFrom(ed, entries, 0, progress);
    ghost var notes := NotesFrom(ed, entries, descriptions, SplitLines(text));
    AllEntriesLeft(ed, entries, SplitLines(text));
    AllNotes(ed, entries, descriptions, SplitLines(text));
    for i := 0 to |scalars|
      invariant progress == (SplitLines(out), |changes| > 0)
      invariant EnsureFrom(ed, entries, i, progress) == whole
      invariant changes + NotesFrom(ed, entries[i..], descriptions[i..], progress.0) == notes
    {
      NextEntry(ed, entries, i, EntryOf(scalars[i]), progress);
      NextNote(ed, entries, descriptions, i, progress.0, changes, EntryOf(scalars[i]), descriptions[i]);
      out, changes, progress := NoteScalar(out, changes, otel, scalars[i], descriptions[i], ed, progress);
    }
    NoEntryLeft(ed, entries, progress);
    NoNotesLeft(ed, entries, descriptions, progress.0, changes);
  }

  method NoteScalar(text: string, before: seq<string>, otel: string, s: Scalar, note: string, ghost ed: Editor<string>,
                    ghost p: Progress)
    returns (out: string, changes: seq<string>, ghost p': Progress)
    requires EditsTable(ed, otel) && IsOneLine(s) && '\n' !in otel && p == (SplitLines(text), |before| > 0)
    ensures p' == Ensured(ed, EntryOf(s), p) && p' == (SplitLines(out), |changes| > 0)
    ensures changes == before + NoteIf(EnsureKey(ed, EntryOf(s), p.0).1, note)
  {
    var added;
    out, added := EnsureScalar(text, otel, s, ed);
    ghost var r := EnsureKey(ed, EntryOf(s), p.0);
    p' := Ensured(ed, EntryOf(s), p);
    changes := AddNote(before, added, note, out, p, r);
  }

  /** One more note when something changed. */
  method AddNote(before: seq<string>, changed: bool, note: string, ghost out: string, ghost p: Progress,
                 ghost r: Progress)
    returns (changes: seq<string>)
    requires r == (SplitLines(out), changed) && p == (p.0, |before| > 0)
    ensures changes == before + NoteIf(r.1, note) && (r.0, p.1 || r.1) == (SplitLines(out), |changes| > 0)
  {
    changes := before + NoteIf(changed, note);
  }

  /** ensureCodexExporter on lines. */
  function ExporterEnsured(ed: Editor<string>, lines: seq<string>): (string, bool) {
    var put := PutExporter(ed, lines);
    var once := RemoveStale(ed, put.0);
    var twice := RemoveStale(ed, once.0);
    (Text(twice.0), put.1 || once.1 || twice.1)
  }

  lemma ExportKeepsLines(ed: Editor<string>, lines: seq<string>)
    requires AreLines(lines) && '\n' !in ed.exporter.line && '\n' !in ed.head && ed.empty == ""
    ensures var put := PutExporter(ed, lines).0;
            && AreLines(put) && SplitLines(Text(put)) == put
            && SplitLines(Text(RemoveStale(ed, put).0)) == RemoveStale(ed, put).0
  {
    var put := PutExporter(ed, lines).0;
    ExportLines(ed, lines);
    SplitLinesOfText(put);
    RemoveLines(ed, put);
    SplitLinesOfText(RemoveStale(ed, put).0);
  }

  /** ensureCodexExporter: set the exporter, then remove the stale table under both its spellings. */
  method EnsureExporter(text: string, otel: string, staleQuoted: string, staleBare: string, key: string, line: string,
                        ghost ed: Editor<string>)
    returns (out: string, changed: bool)
    requires EditsTable(ed, otel) && ed.exporter == Entry(AssignsKey(key), line) && ed.wanted == IsLine(line)
    requires '\n' !in line && '\n' !in otel
    requires ed.grammar.stale == IsTable(staleBare) && SplitDottedKey(staleQuoted) == SplitDottedKey(staleBare)
    ensures (out, changed) == ExporterEnsured(ed, SplitLines(text))
  {
    TextOfSplitLines(text);
    NameIsLine(otel);
    ExportKeepsLines(ed, SplitLines(text));
    out, changed := ReplaceOrInsertTableKey(text, otel, key, line, ed);
    var removed;
    out, removed := RemoveTable(out, staleQuoted, ed);
    changed := changed || removed;
    out, removed := RemoveTable(out, staleBare, ed);
    changed := changed || removed;
  }

  /** `ed` is the line editor these settings stand for. */
  ghost predicate IsEditorFor(ed: Editor<string>, c: Settings) {
    && EditsTable(ed, c.otel) && ed.scalars == Entries(c.scalars)
    && ed.exporter == Entry(AssignsKey(c.exporter), Assignment(c.exporter, c.table))
    && ed.wanted == IsLine(Assignment(c.exporter, c.table)) && ed.grammar.stale == IsTable(c.stale)
  }

  lemma EditorOfPatterns(c: Settings, ed: Editor<string>)
    requires ed == EditorOf(c)
    ensures ed.grammar == Patterns(c) && ed.head == HeadOf(c)
  {
  }

  lemma EditorOfBlank(c: Settings, ed: Editor<string>)
    requires ed == EditorOf(c)
    ensures ed.blank == IsBlank() && ed.empty == ""
  {
  }

  lemma EditorOfExporter(c: Settings, ed: Editor<string>)
    requires ed == EditorOf(c)
    ensures ed.exporter == EntryOf(Scalar(c.exporter, c.table))
  {
  }

  lemma EditorOfKeys(c: Settings, ed: Editor<string>)
    requires ed == EditorOf(c)
    ensures ed.wanted == IsLine(Assignment(c.exporter, c.table)) && ed.scalars == Entries(c.scalars)
  {
  }

  lemma PatternsOf(c: Settings)
    ensures ScansLines(Patterns(c)) && Patterns(c).otel == IsTable(c.otel) && Patterns(c).stale == IsTable(c.stale)
  {
  }

  lemma FactsOfEditor(c: Settings, ed: Editor<string>)
    requires ed.grammar == Patterns(c) && ed.head == HeadOf(c) && ed.blank == IsBlank() && ed.empty == ""
    requires ed.exporter == EntryOf(Scalar(c.exporter, c.table)) && ed.scalars == Entries(c.scalars)
    requires ed.wanted == IsLine(Assignment(c.exporter, c.table))
    ensures IsEditorFor(ed, c)
  {
    PatternsOf(c);
  }

  lemma EditorOfSettings(c: Settings, ed: Editor<string>)
    requires ed == EditorOf(c)
    ensures IsEditorFor(ed, c)
  {
    EditorOfPatterns(c, ed);
    EditorOfBlank(c, ed);
    EditorOfExporter(c, ed);
    EditorOfKeys(c, ed);
    FactsOfEditor(c, ed);
  }

  lemma EditAssembles(ed: Editor<string>, lines: seq<string>, scalars: Progress, r: (string, bool))
    requires scalars == EnsureAll(ed, ed.scalars, lines) && r == ExporterEnsured(ed, scalars.0)
    ensures (r.0, scalars.1 || r.1) == TextOf(Edit(ed, lines))
  {
  }

  method SetScalars(text: string, c: Settings, ghost ed: Editor<string>)
    returns (out: string, changes: seq<string>, ghost p: Progress)
    requires IsEditorFor(ed, c) && AreOneLine(c)
    ensures p == EnsureAll(ed, ed.scalars, SplitLines(text)) && p == (SplitLines(out), |changes| > 0)
    ensures changes == NotesFrom(ed, ed.scalars, Descriptions(c.otel, c.scalars), SplitLines(text))
  {
    out, changes := EnsureScalars(text, c.otel, c.scalars, ed);
    p := (SplitLines(out), |changes| > 0);
  }

  method SetExporter(text: string, c: Settings, staleQuoted: string, ghost ed: Editor<string>)
    returns (out: string, changed: bool, ghost r: (string, bool))
    requires IsEditorFor(ed, c) && AreOneLine(c) && SplitDottedKey(staleQuoted) == SplitDottedKey(c.stale)
    ensures r == (out, changed) == ExporterEnsured(ed, SplitLines(text))
  {
    EntryIsLine(Scalar(c.exporter, c.table));
    var line := Assignment(c.exporter, c.table);
    out, changed := EnsureExporter(text, c.otel, staleQuoted, c.stale, c.exporter, line, ed);
    r := (out, changed);
  }

  method NoteExporter(out: string, before: seq<string>, changed: bool, note: string,
                      ghost lines: seq<string>, ghost p: Progress, ghost r: (string, bool))
    returns (changes: seq<string>)
    requires p == (lines, |before| > 0) && r == (out, changed)
    ensures (out, |changes| > 0) == (r.0, p.1 || r.1) && changes == before + NoteIf(r.1, note)
  {
    changes := before + NoteIf(changed, note);
  }

  lemma NotesAssemble(ed: Editor<string>, notes: seq<string>, note: string, lines: seq<string>,
                      before: seq<string>, p: Progress, r: (string, bool), changes: seq<string>)
    requires before == NotesFrom(ed, ed.scalars, notes, lines) && p == EnsureAll(ed, ed.scalars, lines)
    requires r == ExporterEnsured(ed, p.0) && changes == before + NoteIf(r.1, note)
    ensures changes == Notes(ed, notes, note, lines)
  {
  }

  /** The line editor for these settings, which have no line feeds; `staleQuoted` also names their stale table. */
  ghost function EditorReadyFor(c: Settings, staleQuoted: string): Editor<string> -> bool {
    ed => IsEditorFor(ed, c) && AreOneLine(c) && SplitDottedKey(staleQuoted) == SplitDottedKey(c.stale)
  }

  lemma SettingsAreReady(c: Settings, staleQuoted: string, ed: Editor<string>)
    requires ed == EditorOf(c) && AreOneLine(c) && SplitDottedKey(staleQuoted) == SplitDottedKey(c.stale)
    ensures EditorReadyFor(c, staleQuoted)(ed)
  {
    EditorOfSettings(c, ed);
  }

  /** editCodex for the given settings: the new text, and a description of each change in which `shown` stands
      for the exporter's value. */
  method EditWith(text: string, c: Settings, staleQuoted: string, shown: string, ghost ed: Editor<string>)
    returns (out: string, changes: seq<string>)
    requires EditorReadyFor(c, staleQuoted)(ed)
    ensures (out, |changes| > 0) == TextOf(Edit(ed, SplitLines(text)))
    ensures changes ==
              Notes(ed, Descriptions(c.otel, c.scalars), Description(c.otel, Scalar(c.exporter, shown)),
                    SplitLines(text))
  {
    ghost var scalars, exported;
    var noted, changed;
    out, noted, scalars := SetScalars(text, c, ed);
    ghost var lines := SplitLines(out);
    out, changed, exported := SetExporter(out, c, staleQuoted, ed);
    var note := Description(c.otel, Scalar(c.exporter, shown));
    changes := NoteExporter(out, noted, changed, note, lines, scalars, exported);
    EditAssembles(ed, SplitLines(text), scalars, exported);
    NotesAssemble(ed, Descriptions(c.otel, c.scalars), note, SplitLines(text), noted, scalars, exported, changes);
  }
}
