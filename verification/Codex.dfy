/** editCodex of internal/setup/codex.go: the keys it manages in the [otel] table of Codex's config.toml, and
    what editing twice does. */
module Codex {
  import opened Seqs
  import opened Strings
  import opened TomlText
  import opened CodexLines
  import opened CodexEditor

  const TOKEN_HEADER := "X-Burndown-Token"

  const REDACTED := "<redacted>"

  function Decimal(n: nat): (r: string)
    ensures r != "" && forall i :: 0 <= i < |r| ==> '0' <= r[i] <= '9'
  {
    var digit := [('0' as int + n % 10) as char];
    if n < 10 then digit else Decimal(n / 10) + digit
  }

  function Endpoint(port: nat): string { "http://127.0.0.1:" + Decimal(port) + "/v1/logs" }

  const TEXT0 := "{" + " otlp-http = " + "{" + " endpoint = "
  const TEXT1 := ", protocol = "
  const TEXT2 := ", headers = " + "{" + " "
  const TEXT3 := " = "
  const TABLE_TAIL := " } } }"

  /** The [otel].exporter inline table: endpoint, JSON protocol, and the token as a header. */
  function ExporterTable(endpoint: string, token: string): string {
    Filled([TEXT0, TEXT1, TEXT2, TEXT3], [endpoint, "json", TOKEN_HEADER, token], TABLE_TAIL)
  }

  function ScalarAt(i: nat): Scalar {
    match i
    case 0 => Scalar("environment", "\"control-center\"")
    case 1 => Scalar("metrics_exporter", "\"none\"")
    case 2 => Scalar("trace_exporter", "\"none\"")
    case _ => Scalar("log_user_prompt", "false")
  }

  /** The scalar keys, in insertion order. */
  function Scalars(): (r: seq<Scalar>)
    ensures |r| == 4 && forall i :: 0 <= i < 4 ==> r[i] == ScalarAt(i)
  {
    [ScalarAt(0), ScalarAt(1), ScalarAt(2), ScalarAt(3)]
  }

  function StaleBare(): string { Dotted("otel", "exporter", "otlp-http") }

  function StaleQuoted(): string { Dotted("otel", "exporter", InQuotes("otlp-http")) }

  function SettingsFor(port: nat, token: string): Settings {
    Settings("otel", StaleBare(), Scalars(), "exporter", ExporterTable(Endpoint(port), token))
  }

  // ---------- the exporter table is flat ----------

  lemma Text0Is()
    ensures IsText(TEXT0, 2)
  {
    TwoOpen(" otlp-http = ", " endpoint = ");
  }

  lemma Text1Is()
    ensures IsText(TEXT1, 0)
  {
    PlainText(TEXT1);
  }

  lemma Text2Is()
    ensures IsText(TEXT2, 1)
  {
    OneOpen(", headers = ", " ");
  }

  lemma Text3Is()
    ensures IsText(TEXT3, 0)
  {
    PlainText(TEXT3);
  }

  lemma TailIs()
    ensures IsText(TABLE_TAIL, -3) && EndsPlain(TABLE_TAIL)
  {
    ThreeClose();
  }

  lemma NamesAreClean()
    ensures '"' !in TOKEN_HEADER && '"' !in "json"
  {
  }

  lemma TableIsFlat(lead: string, endpoint: string, token: string)
    requires '"' !in endpoint && '"' !in token && IsUnquoted(lead) && NoBrackets(lead)
    ensures LineDelta(lead + ExporterTable(endpoint, token)) == 0 && EndsPlain(ExporterTable(endpoint, token))
  {
    Text0Is();
    Text1Is();
    Text2Is();
    Text3Is();
    TailIs();
    NamesAreClean();
    FourClean(endpoint, "json", TOKEN_HEADER, token);
    FilledAssignment(lead, TEXT0, TEXT1, TEXT2, TEXT3, [endpoint, "json", TOKEN_HEADER, token], TABLE_TAIL);
  }

  // ---------- the settings are as the editor needs them ----------

  lemma ExporterLead()
    ensures IsUnquoted("exporter =" + " ") && NoBrackets("exporter =" + " ") && "exporter =" == "exporter" + " ="
  {
  }

  lemma ExporterIsFlat(table: string, endpoint: string, token: string)
    requires '"' !in endpoint && '"' !in token && table == ExporterTable(endpoint, token)
    ensures IsFlatScalar(Scalar("exporter", table))
  {
    ExporterLead();
    TableIsFlat("exporter =" + " ", endpoint, token);
    assert Assignment("exporter", table) == ("exporter =" + " ") + table;
  }

  lemma PlainScalar(key: string, value: string)
    requires StartsPlain(key) && EndsPlain(value) && NoBrackets(key) && NoBrackets(value)
    ensures IsFlatScalar(Scalar(key, value))
  {
    FlatLine(Assignment(key, value));
  }

  predicate IsPlainScalar(key: string, value: string) {
    StartsPlain(key) && EndsPlain(value) && NoBrackets(key) && NoBrackets(value) && AreApart("exporter", key)
    && IsOneLine(Scalar(key, value))
  }

  lemma ControlCenter()
    ensures IsPlainScalar("environment", "\"control-center\"")
  {
  }

  lemma NoMetrics()
    ensures IsPlainScalar("metrics_exporter", "\"none\"")
  {
  }

  lemma NoTraces()
    ensures IsPlainScalar("trace_exporter", "\"none\"")
  {
  }

  lemma NoPrompts()
    ensures IsPlainScalar("log_user_prompt", "false")
  {
  }

  lemma ScalarText(i: nat)
    requires i < 4
    ensures IsPlainScalar(ScalarAt(i).key, ScalarAt(i).value)
  {
    match i
    case 0 => ControlCenter();
    case 1 => NoMetrics();
    case 2 => NoTraces();
    case _ => NoPrompts();
  }

  lemma PlainIsFlat(s: Scalar)
    requires IsPlainScalar(s.key, s.value)
    ensures IsFlatScalar(s) && AreApart("exporter", s.key) && IsOneLine(s)
  {
    PlainScalar(s.key, s.value);
  }

  lemma ScalarIsFlat(i: nat)
    requires i < 4
    ensures IsFlatScalar(ScalarAt(i)) && AreApart("exporter", ScalarAt(i).key) && IsOneLine(ScalarAt(i))
  {
    ScalarText(i);
    PlainIsFlat(ScalarAt(i));
  }

  lemma OtelPath()
    ensures IsName("otel") && |SplitDottedKey("otel")| == 1
  {
    OnePart("otel");
  }

  lemma StalePath()
    ensures |SplitDottedKey(StaleBare())| == 3
  {
    ThreeParts("otel", "exporter", "otlp-http");
  }

  lemma QuotedPath()
    ensures SplitDottedKey(StaleQuoted()) == SplitDottedKey(StaleBare())
  {
    QuotedSegment("otlp-http");
    ThreeParts("otel", "exporter", "otlp-http");
    ThreeParts("otel", "exporter", InQuotes("otlp-http"));
  }

  /** Both spellings name the same table, and it is not the managed one. */
  lemma TablePaths()
    ensures IsName("otel") && |SplitDottedKey("otel")| == 1 && |SplitDottedKey(StaleBare())| == 3
    ensures SplitDottedKey(StaleQuoted()) == SplitDottedKey(StaleBare())
  {
    OtelPath();
    StalePath();
    QuotedPath();
  }

  lemma EndpointIsClean(port: nat)
    ensures '"' !in Endpoint(port) && '\n' !in Endpoint(port)
  {
  }

  lemma TextsAreLines()
    ensures '\n' !in TEXT0 && '\n' !in TEXT1 && '\n' !in TEXT2 && '\n' !in TEXT3 && '\n' !in TABLE_TAIL
    ensures '\n' !in TOKEN_HEADER && '\n' !in "json" && '\n' !in "otel" && '\n' !in "exporter"
  {
  }

  lemma TableIsLine(endpoint: string, token: string)
    requires '\n' !in endpoint && '\n' !in token
    ensures '\n' !in ExporterTable(endpoint, token)
  {
    TextsAreLines();
    FourLack(TEXT0, TEXT1, TEXT2, TEXT3, '\n');
    FourLack(endpoint, "json", TOKEN_HEADER, token, '\n');
    FilledLacks([TEXT0, TEXT1, TEXT2, TEXT3], [endpoint, "json", TOKEN_HEADER, token], TABLE_TAIL, '\n');
  }

  lemma SettingsAreOneLine(port: nat, token: string)
    requires '\n' !in token
    ensures AreOneLine(SettingsFor(port, token))
  {
    TextsAreLines();
    EndpointIsClean(port);
    TableIsLine(Endpoint(port), token);
    forall i | 0 <= i < 4 ensures IsOneLine(Scalars()[i]) {
      ScalarIsFlat(i);
    }
  }

  lemma SettingsAreFlat(port: nat, token: string)
    requires '"' !in token
    ensures AreFlat(SettingsFor(port, token))
  {
    TablePaths();
    EndpointIsClean(port);
    ExporterIsFlat(ExporterTable(Endpoint(port), token), Endpoint(port), token);
    forall i | 0 <= i < 4 ensures IsFlatScalar(Scalars()[i]) && AreApart("exporter", Scalars()[i].key) {
      ScalarIsFlat(i);
    }
  }

  // ---------- editCodex ----------

  /** `c` and `ed` are the settings and the line editor that editCodex is for this port and token. */
  ghost predicate IsCodexEdit(port: nat, token: string, c: Settings, ed: Editor<string>) {
    '\n' !in token && c == SettingsFor(port, token) && ed == EditorOf(c)
  }

  lemma EditorIsReady(port: nat, token: string, c: Settings, ed: Editor<string>)
    requires '"' !in token && IsCodexEdit(port, token, c, ed)
    ensures IsSane(ed) && HasOneLiners(ed)
  {
    SettingsAreFlat(port, token);
    SettingsAreOneLine(port, token);
    EditorIsSane(c, ed);
    EditorHasOneLiners(c, ed);
  }

  lemma SettingsForAreReady(port: nat, token: string, c: Settings, ed: Editor<string>)
    requires IsCodexEdit(port, token, c, ed)
    ensures EditorReadyFor(c, StaleQuoted())(ed)
  {
    SettingsAreOneLine(port, token);
    TablePaths();
    SettingsAreReady(c, StaleQuoted(), ed);
  }

  /** What the plan output shows of the exporter: its token redacted. */
  function ShownExporter(port: nat): Scalar { Scalar("exporter", ExporterTable(Endpoint(port), REDACTED)) }

  /** The edited text, and a description of each change, in order. */
  method EditCodex(text: string, port: nat, token: string, ghost c: Settings, ghost ed: Editor<string>)
    returns (out: string, changes: seq<string>)
    requires IsCodexEdit(port, token, c, ed)
    ensures (out, |changes| > 0) == TextOf(Edit(ed, SplitLines(text)))
    ensures changes ==
              Notes(ed, Descriptions(c.otel, c.scalars), Description(c.otel, ShownExporter(port)), SplitLines(text))
  {
    SettingsForAreReady(port, token, c, ed);
    var settings := SettingsFor(port, token);
    var shown := ExporterTable(Endpoint(port), REDACTED);
    out, changes := EditWith(text, settings, StaleQuoted(), shown, ed);
  }

  /** The five descriptions there are. None depends on the token. */
  function AllShown(port: nat): seq<string> {
    Descriptions("otel", Scalars()) + [Description("otel", ShownExporter(port))]
  }

  lemma ShownIs(port: nat, token: string, c: Settings)
    requires c == SettingsFor(port, token)
    ensures c.otel == "otel" && c.scalars == Scalars()
  {
  }

  lemma NotesHideToken(port: nat, token: string, c: Settings, ed: Editor<string>, lines: seq<string>, note: string)
    requires IsCodexEdit(port, token, c, ed)
    requires note in Notes(ed, Descriptions(c.otel, c.scalars), Description(c.otel, ShownExporter(port)), lines)
    ensures note in AllShown(port)
  {
    ShownIs(port, token, c);
    NotesShow(ed, Descriptions(c.otel, c.scalars), Description(c.otel, ShownExporter(port)), lines, note);
  }

  /** editCodex on its own output, for every port, every token without a double quote or line feed, and every
      tame text: no change and the same bytes, if and only if the text had at most two stale tables. */
  lemma EditCodexTwice(text: string, port: nat, token: string, c: Settings, ed: Editor<string>)
    requires '"' !in token && IsCodexEdit(port, token, c, ed) && IsTame(ed, SplitLines(text))
    ensures var once := Edited(ed, text);
            Edited(ed, once) == once && !Changes(ed, once) <==>
              Count(ed.grammar, ed.grammar.stale, 0, SplitLines(text)) <= 2
  {
    EditorIsReady(port, token, c, ed);
    EditedTwice(ed, text);
  }

  /** What editCodex leaves alone: up to empty lines at the end, every line but the one exporter line it replaces
      and the first two stale tables, in order; what it adds to the [otel] table comes last there. */
  lemma EditCodexFrame(text: string, port: nat, token: string, c: Settings, ed: Editor<string>)
    returns (before: seq<string>, head: string, body: seq<string>, more: seq<string>, after: seq<string>)
    requires '"' !in token && IsCodexEdit(port, token, c, ed) && IsTame(ed, SplitLines(text))
    ensures Prepared(ed, SplitLines(text)) == Whole(before, head, body, after)
    ensures IsLayout(ed.grammar, ed.grammar.otel, before, head, body, after)
    ensures AreAdded(ed, Inside(ed.grammar, head), body, more) && AddsAll(ed, Inside(ed.grammar, head), body, more)
    ensures var managed := Whole(before, head, WithExporter(ed, Inside(ed.grammar, head), body) + more, after);
            var cut := WithoutFirstStale(ed.grammar, WithoutFirstStale(ed.grammar, managed));
            IsTrimOf(ed, SplitLines(Edited(ed, text)), cut)
  {
    EditorIsReady(port, token, c, ed);
    before, head, body, more, after := EditedFrame(ed, text);
  }

  /** After editCodex every managed key, the exporter among them, is assigned inside the [otel] table. */
  lemma EditCodexAssigns(text: string, port: nat, token: string, c: Settings, ed: Editor<string>, e: Entry<string>)
    requires '"' !in token && IsCodexEdit(port, token, c, ed) && IsTame(ed, SplitLines(text))
    requires ManagedBy(ed)(e)
    ensures IsAssigned(ed, SplitLines(Edited(ed, text)), e)
  {
    EditorIsReady(port, token, c, ed);
    EditedAssigns(ed, text, e);
  }

  // ---------- texts it does not settle on ----------

  /** The stale table's header, and a managed one behind a no-break space. */
  function StaleHeader(): string { "[" + StaleBare() + "]" }

  function SpacedHeader(): string { "\U{00A0}" + ("[" + "otel" + "]") }

  lemma StaleNameIsPlain(name: string)
    requires name == StaleBare()
    ensures name != "" && ']' !in name && '\n' !in name && NoBrackets(name) && IsUnquoted(name)
  {
  }

  lemma StaleHeaderIs(c: Settings, line: string)
    requires c.stale == StaleBare() && line == StaleHeader()
    ensures IsHeader(line) && LineDelta(line) == 0 && IsTable(c.stale)(line) && '\n' !in line
  {
    StaleNameIsPlain(c.stale);
    WrittenHeader(c.stale);
  }

  lemma SpacedTrims(line: string, rest: string)
    requires line == "\U{00A0}" + rest && rest != "" && !IsSpace(rest[0]) && !IsSpace(rest[|rest| - 1])
    ensures TrimSpace(line) == rest
  {
    assert line[1..] == rest;
    TrimmedIs(rest);
  }

  lemma SpacedDelta(line: string, header: string)
    requires line == "\U{00A0}" + header && header == "[" + "otel" + "]"
    ensures LineDelta(line) == 0
  {
    assert NoBrackets("otel") && IsUnquoted("otel") && IsUnquoted(header);
    BracketedDelta("otel");
    StrippedUnquoted(header, "");
    StrippedUnquoted(line, "");
    assert header + "" == header && line + "" == line;
    BracketsConcat("\U{00A0}", header);
  }

  lemma TrimmedMatches(line: string, header: string, table: string)
    requires TrimSpace(line) == header && TrimSpace(header) == header
             && HeaderKeyPath(header) == Some(SplitDottedKey(table))
    ensures IsTable(table)(line)
  {
  }

  lemma OtelIsPlain(name: string)
    requires name == "otel"
    ensures name != "" && ']' !in name && '\n' !in name && NoBrackets(name) && IsUnquoted(name)
  {
  }

  lemma BracketedName(name: string, header: string)
    requires name != "" && ']' !in name && '\n' !in name && NoBrackets(name) && IsUnquoted(name)
             && header == "[" + name + "]"
    ensures HeaderKeyPath(header) == Some(SplitDottedKey(name)) && TrimSpace(header) == header && '\n' !in header
    ensures header != "" && !IsSpace(header[0]) && !IsSpace(header[|header| - 1])
  {
    WrittenHeader(name);
    TrimmedIs(header);
  }

  lemma ManagedHeader(name: string, header: string)
    requires name == "otel" && header == "[" + name + "]"
    ensures HeaderKeyPath(header) == Some(SplitDottedKey(name)) && TrimSpace(header) == header && '\n' !in header
    ensures header != "" && !IsSpace(header[0]) && !IsSpace(header[|header| - 1])
  {
    OtelIsPlain(name);
    BracketedName(name, header);
  }

  lemma SpacedHeaderIs(name: string, line: string)
    requires name == "otel" && line == SpacedHeader()
    ensures !IsHeader(line) && LineDelta(line) == 0 && IsTable(name)(line) && '\n' !in line
  {
    var header := "[" + name + "]";
    ManagedHeader(name, header);
    NotHeader(line);
    SpacedTrims(line, header);
    SpacedDelta(line, header);
    TrimmedMatches(line, header, name);
  }

  /** What the grammar of these settings sees in the two headers. */
  lemma HeadersSeen(c: Settings, g: Grammar<string>, s: string, n: string)
    requires g == Patterns(c) && c.otel == "otel" && c.stale == StaleBare() && s == StaleHeader() && n == SpacedHeader()
    ensures g.stale(s) && g.header(s) && g.delta(s) == 0 && g.otel(n) && !g.header(n) && g.delta(n) == 0
    ensures '\n' !in s && '\n' !in n
  {
    StaleHeaderIs(c, s);
    SpacedHeaderIs(c.otel, n);
  }

  lemma CodexHeadersSeen(port: nat, token: string, c: Settings, ed: Editor<string>, s: string, n: string)
    requires IsCodexEdit(port, token, c, ed) && s == StaleHeader() && n == SpacedHeader()
    ensures var g := ed.grammar;
            g.stale(s) && g.header(s) && g.delta(s) == 0 && g.otel(n) && !g.header(n) && g.delta(n) == 0
    ensures '\n' !in s && '\n' !in n
  {
    EditorOfPatterns(c, ed);
    HeadersSeen(c, ed.grammar, s, n);
  }

  lemma CodexStaleSeen(port: nat, token: string, c: Settings, ed: Editor<string>, s: string)
    requires IsCodexEdit(port, token, c, ed) && s == StaleHeader()
    ensures ed.grammar.stale(s) && ed.grammar.header(s) && ed.grammar.delta(s) == 0 && '\n' !in s
  {
    EditorOfPatterns(c, ed);
    StaleHeaderIs(c, s);
  }

  /** A managed header behind a no-break space, after a stale table: the first edit deletes the whole file, and
      the second one still reports changes. */
  lemma SpacedHeaderIsCut(port: nat, token: string, c: Settings, ed: Editor<string>, s: string, n: string)
    requires '"' !in token && IsCodexEdit(port, token, c, ed) && s == StaleHeader() && n == SpacedHeader()
    ensures Edited(ed, Text([s, n])) == "" && Changes(ed, "")
  {
    EditorIsReady(port, token, c, ed);
    CodexHeadersSeen(port, token, c, ed, s, n);
    UnplainTextIsCut(ed, s, n);
  }

  /** Three stale tables: the second edit changes the text again. */
  lemma ThreeStaleTablesNeedTwoEdits(port: nat, token: string, c: Settings, ed: Editor<string>, s: string)
    requires '"' !in token && IsCodexEdit(port, token, c, ed) && s == StaleHeader()
    ensures var once := Edited(ed, Text([s, s, s])); !(Edited(ed, once) == once && !Changes(ed, once))
  {
    EditorIsReady(port, token, c, ed);
    CodexStaleSeen(port, token, c, ed, s);
    ThreeStaleTwice(ed, s);
  }

  /** An exporter line that opens a bracket it leaves open. */
  function OpenExporter(): string { Assignment("exporter", "{") }

  lemma OpenDelta(key: string, x: string)
    requires x == (key + " =") + " {" && NoBrackets(key + " =") && IsUnquoted(x)
    ensures LineDelta(x) == 1
  {
    StrippedUnquoted(x, "");
    assert x + "" == x;
    BracketsConcat(key + " =", " {");
    NoBracketsCount(key + " =");
    assert " {" == " " + "{";
    BracketsConcat(" ", "{");
    assert "{"[1..] == "";
  }

  lemma ExporterKeyIs(key: string)
    requires key == "exporter"
    ensures StartsPlain(key) && EndsPlain("{") && NoBrackets(key + " =") && IsUnquoted((key + " =") + " {")
            && '\n' !in (key + " =") + " {"
  {
  }

  lemma OpenExporterIs(key: string, x: string)
    requires key == "exporter" && x == Assignment(key, "{")
    ensures AssignsKey(key)(x) && LineDelta(x) == 1 && !IsHeader(x) && TrimSpace(x) == x && '\n' !in x
  {
    ExporterKeyIs(key);
    assert " " + "{" == " {";
    AssignmentTrimmed(key, "{");
    AssignmentAssigns(key, "{");
    AssignmentIsNoHeader(key, "{", "");
    OpenDelta(key, x);
  }

  lemma ClosingIs(c: string)
    requires c == "}"
    ensures LineDelta(c) == -1 && !IsHeader(c) && '\n' !in c
  {
    assert IsUnquoted(c);
    StrippedUnquoted(c, "");
    assert c + "" == c && c[1..] == "";
    assert Brackets(c) == Bracket(c[0]) + Brackets(c[1..]);
    NotHeader(c);
  }

  lemma ManagedHeaderIs(name: string, h: string)
    requires name == "otel" && h == "[" + name + "]"
    ensures IsTable(name)(h) && LineDelta(h) == 0 && '\n' !in h
  {
    OtelIsPlain(name);
    WrittenHeader(name);
  }

  /** The lines of the failing text, as the grammar and the exporter entry see them. */
  lemma OpenLinesSeen(c: Settings, h: string, x: string, s: string, close: string)
    requires c.otel == "otel" && c.stale == StaleBare() && c.exporter == "exporter"
    requires h == HeadOf(c) && x == OpenExporter() && s == StaleHeader() && close == "}"
    ensures IsTable(c.otel)(h) && LineDelta(h) == 0
    ensures AssignsKey(c.exporter)(x) && LineDelta(x) == 1 && !IsHeader(x) && TrimSpace(x) == x
    ensures IsTable(c.stale)(s) && LineDelta(s) == 0 && LineDelta(close) == -1 && !IsHeader(close)
    ensures '\n' !in h && '\n' !in x && '\n' !in s && '\n' !in close
  {
    ManagedHeaderIs(c.otel, h);
    OpenExporterIs(c.exporter, x);
    StaleHeaderIs(c, s);
    ClosingIs(close);
  }

  lemma OpenIsNotWanted(key: string, table: string, x: string)
    requires x == Assignment(key, "{") && TrimSpace(x) == x && |table| > 1
    ensures !IsLine(Assignment(key, table))(x)
  {
    assert |Assignment(key, table)| > |x|;
  }

  lemma HidesFromParts(c: Settings, ed: Editor<string>, h: string, x: string, s: string, close: string)
    requires ed.grammar == Patterns(c) && ed.exporter.assigns == AssignsKey(c.exporter) && !ed.wanted(x)
    requires IsTable(c.otel)(h) && LineDelta(h) == 0 && AssignsKey(c.exporter)(x) && LineDelta(x) == 1 && !IsHeader(x)
    requires IsTable(c.stale)(s) && LineDelta(s) == 0 && LineDelta(close) == -1 && !IsHeader(close)
    ensures HidesStale(ed, h, x, s, close)
  {
  }

  lemma FieldsOf(port: nat, token: string, c: Settings)
    requires c == SettingsFor(port, token)
    ensures c.otel == "otel" && c.stale == StaleBare() && c.exporter == "exporter" && |c.scalars| == 4
    ensures c.table == ExporterTable(Endpoint(port), token)
  {
  }

  lemma TableIsLong(endpoint: string, token: string)
    ensures |ExporterTable(endpoint, token)| > 1
  {
    assert |TEXT0| > 1;
  }

  lemma EditorParts(c: Settings, ed: Editor<string>)
    requires ed == EditorOf(c)
    ensures ed.grammar == Patterns(c) && ed.exporter.assigns == AssignsKey(c.exporter)
    ensures ed.wanted == IsLine(Assignment(c.exporter, c.table)) && |ed.scalars| == |c.scalars|
  {
    EditorOfPatterns(c, ed);
    EditorOfExporter(c, ed);
    EditorOfKeys(c, ed);
  }

  lemma FourAreLines(h: string, x: string, s: string, close: string)
    requires '\n' !in h && '\n' !in x && '\n' !in s && '\n' !in close
    ensures AreLines([h, x, s, close])
  {
  }

  lemma NotWantedBy(c: Settings, ed: Editor<string>, x: string)
    requires c.exporter == "exporter" && |c.table| > 1 && ed.wanted == IsLine(Assignment(c.exporter, c.table))
    requires x == Assignment(c.exporter, "{") && TrimSpace(x) == x
    ensures !ed.wanted(x)
  {
    OpenIsNotWanted(c.exporter, c.table, x);
  }

  lemma OpenExporterKey(c: Settings)
    requires c.exporter == "exporter"
    ensures OpenExporter() == Assignment(c.exporter, "{")
  {
  }

  /** The failing text: the managed header, an exporter line that opens a bracket, a stale header, a closing line. */
  ghost function OpenText(c: Settings): (string, string, string, string) -> bool {
    (h: string, x: string, s: string, close: string) =>
      h == HeadOf(c) && x == OpenExporter() && s == StaleHeader() && close == "}"
  }

  ghost predicate HasCodexFields(c: Settings) {
    c.otel == "otel" && c.stale == StaleBare() && c.exporter == "exporter" && |c.table| > 1
  }

  lemma OpenHides(c: Settings, ed: Editor<string>, h: string, x: string, s: string, close: string)
    requires HasCodexFields(c) && OpenText(c)(h, x, s, close)
    requires ed.grammar == Patterns(c) && ed.exporter.assigns == AssignsKey(c.exporter)
    requires ed.wanted == IsLine(Assignment(c.exporter, c.table))
    ensures HidesStale(ed, h, x, s, close)
  {
    OpenLinesSeen(c, h, x, s, close);
    OpenExporterKey(c);
    NotWantedBy(c, ed, x);
    HidesFromParts(c, ed, h, x, s, close);
  }

  lemma OpenAreLines(c: Settings, h: string, x: string, s: string, close: string)
    requires HasCodexFields(c) && OpenText(c)(h, x, s, close)
    ensures AreLines([h, x, s, close])
  {
    OpenLinesSeen(c, h, x, s, close);
    FourAreLines(h, x, s, close);
  }

  lemma CodexFields(port: nat, token: string, c: Settings)
    requires c == SettingsFor(port, token)
    ensures HasCodexFields(c) && |c.scalars| == 4
  {
    FieldsOf(port, token, c);
    TableIsLong(Endpoint(port), token);
  }

  lemma OpenCase(c: Settings, ed: Editor<string>, h: string, x: string, s: string, close: string)
    requires HasCodexFields(c) && |c.scalars| == 4 && ed == EditorOf(c) && OpenText(c)(h, x, s, close)
    ensures HidesStale(ed, h, x, s, close) && ed.scalars != []
  {
    EditorParts(c, ed);
    OpenHides(c, ed, h, x, s, close);
  }

  /** An exporter line that opens a bracket around a stale header: the first edit cuts the scalars it has just
      added, and the second one still reports changes. */
  lemma OpenExporterIsCut(port: nat, token: string, c: Settings, ed: Editor<string>,
                          h: string, x: string, s: string, close: string)
    requires '"' !in token && IsCodexEdit(port, token, c, ed) && OpenText(c)(h, x, s, close)
    ensures var once := Text([h, ed.exporter.line]); Edited(ed, Text([h, x, s, close])) == once && Changes(ed, once)
  {
    EditorIsReady(port, token, c, ed);
    CodexFields(port, token, c);
    OpenCase(c, ed, h, x, s, close);
    OpenAreLines(c, h, x, s, close);
    ExposedTextIsCut(ed, h, x, s, close);
  }
}
