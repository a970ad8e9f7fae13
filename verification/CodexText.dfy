/** The lines that editCodex of internal/setup/codex.go writes, letter by letter. */
module CodexText {
  import opened Strings
  import opened TomlText
  import opened CodexLines
  import opened CodexEditor
  import opened Codex

  // ---------- the port ----------

  predicate AreDigits(s: string) { s != "" && forall i :: 0 <= i < |s| ==> '0' <= s[i] <= '9' }

  /** The number that decimal digits denote. */
  function ValueOf(s: string): int {
    if s == "" then 0 else 10 * ValueOf(s[..|s| - 1]) + (s[|s| - 1] as int - '0' as int)
  }

  /** The decimal notation of a number: its digits, without a leading zero. */
  predicate IsDecimal(s: string, n: nat) { AreDigits(s) && ValueOf(s) == n && (|s| > 1 ==> s[0] != '0') }

  lemma {:induction false} DecimalIs(n: nat)
    ensures IsDecimal(Decimal(n), n)
  {
    var s := Decimal(n);
    if n >= 10 {
      DecimalIs(n / 10);
      assert s == Decimal(n / 10) + [s[|s| - 1]] && s[..|s| - 1] == Decimal(n / 10);
      assert |Decimal(n / 10)| == 1 ==> Decimal(n / 10)[0] != '0' by { FirstDigit(n / 10); }
    }
  }

  lemma {:induction false} FirstDigit(n: nat)
    requires n > 0
    ensures Decimal(n)[0] != '0'
  {
    if n >= 10 {
      FirstDigit(n / 10);
    }
  }

  lemma {:induction false} ValueOfDigits(s: string)
    requires forall i :: 0 <= i < |s| ==> '0' <= s[i] <= '9'
    ensures ValueOf(s) >= 0 && (s != "" && s[0] != '0' ==> ValueOf(s) >= 1)
  {
    if s != "" {
      ValueOfDigits(s[..|s| - 1]);
    }
  }

  lemma LastDigit(s: string, n: nat, front: string, last: int)
    requires IsDecimal(s, n) && front == s[..|s| - 1] && last == s[|s| - 1] as int - '0' as int
    ensures 0 <= last <= 9 && n == 10 * ValueOf(front) + last && s == front + [('0' as int + last) as char]
    ensures front != "" ==> ValueOf(front) >= 1 && IsDecimal(front, ValueOf(front))
  {
    ValueOfDigits(front);
    if front != "" {
      assert front[0] == s[0];
    }
  }

  /** There is one decimal notation of each number. */
  lemma {:induction false} DecimalUnique(s: string, n: nat)
    requires IsDecimal(s, n)
    ensures s == Decimal(n)
    decreases |s|
  {
    var front, last := s[..|s| - 1], s[|s| - 1] as int - '0' as int;
    LastDigit(s, n, front, last);
    if front != "" {
      DecimalUnique(front, ValueOf(front));
      assert n / 10 == ValueOf(front) && n % 10 == last;
    }
  }

  // ---------- the lines, written out ----------

  /** The exporter line for a port with these digits. */
  function ExporterText(digits: string, token: string): string {
    ("exporter = { otlp-http = { endpoint = \"" + ("http://127.0.0.1:" + digits + "/v1/logs")
     + ("\", protocol = \"json\"" + (", headers = { \"X-Burndown-Token\"" + " = \""))) + token + "\" } } }"
  }

  lemma EnvironmentLine()
    ensures Assignment("environment", "\"control-center\"") == "environment = \"control-center\""
  {
  }

  lemma MetricsLine()
    ensures Assignment("metrics_exporter", "\"none\"") == "metrics_exporter = \"none\""
  {
  }

  lemma TracesLine()
    ensures Assignment("trace_exporter", "\"none\"") == "trace_exporter = \"none\""
  {
  }

  lemma PromptsLine()
    ensures Assignment("log_user_prompt", "false") == "log_user_prompt = false"
  {
  }

  lemma FilledNone(texts: seq<string>, strings: seq<string>, tail: string)
    requires texts == strings == []
    ensures Filled(texts, strings, tail) == tail
  {
  }

  lemma FilledFrom(texts: seq<string>, strings: seq<string>, tail: string, k: nat, rest: string)
    requires |texts| == |strings| && k < |texts| && Filled(texts[k + 1..], strings[k + 1..], tail) == rest
    ensures Filled(texts[k..], strings[k..], tail) == texts[k] + (InQuotes(strings[k]) + rest)
  {
    assert texts[k..][1..] == texts[k + 1..] && strings[k..][1..] == strings[k + 1..];
  }

  lemma FilledFour(texts: seq<string>, strings: seq<string>, tail: string, r0: string, r1: string, r2: string,
                   r3: string)
    requires |texts| == |strings| == 4
    requires r3 == texts[3] + (InQuotes(strings[3]) + tail) && r2 == texts[2] + (InQuotes(strings[2]) + r3)
    requires r1 == texts[1] + (InQuotes(strings[1]) + r2) && r0 == texts[0] + (InQuotes(strings[0]) + r1)
    ensures Filled(texts, strings, tail) == r0
  {
    FilledNone(texts[4..], strings[4..], tail);
    FilledFrom(texts, strings, tail, 3, tail);
    FilledFrom(texts, strings, tail, 2, r3);
    FilledFrom(texts, strings, tail, 1, r2);
    FilledFrom(texts, strings, tail, 0, r1);
    assert texts[0..] == texts && strings[0..] == strings;
  }

  lemma TableIs(endpoint: string, token: string)
    ensures ExporterTable(endpoint, token) ==
            TEXT0 + (InQuotes(endpoint) + (TEXT1 + (InQuotes("json") + (TEXT2 + (InQuotes(TOKEN_HEADER)
              + (TEXT3 + (InQuotes(token) + TABLE_TAIL)))))))
  {
    var r3 := TEXT3 + (InQuotes(token) + TABLE_TAIL);
    var r2 := TEXT2 + (InQuotes(TOKEN_HEADER) + r3);
    var r1 := TEXT1 + (InQuotes("json") + r2);
    FilledFour([TEXT0, TEXT1, TEXT2, TEXT3], [endpoint, "json", TOKEN_HEADER, token], TABLE_TAIL,
               TEXT0 + (InQuotes(endpoint) + r1), r1, r2, r3);
  }

  lemma Lead()
    ensures Assignment("exporter", TEXT0 + "\"") == "exporter = { otlp-http = { endpoint = \""
  {
    assert "exporter" + " = " == "exporter = ";
    assert TEXT0 + "\"" == "{ otlp-http = { endpoint = \"";
    Joined();
  }

  lemma Joined()
    ensures "exporter = " + "{ otlp-http = { endpoint = \"" == "exporter = { otlp-http = { endpoint = \""
  {
  }

  lemma Protocol()
    ensures "\"" + TEXT1 + InQuotes("json") == "\", protocol = \"json\""
  {
  }

  lemma Header()
    ensures TEXT2 + InQuotes(TOKEN_HEADER) == ", headers = { \"X-Burndown-Token\""
  {
  }

  lemma Quote()
    ensures TEXT3 + "\"" == " = \""
  {
  }

  lemma End()
    ensures "\"" + TABLE_TAIL == "\" } } }"
  {
  }

  /** The pieces of the exporter line, grouped as they are written. */
  lemma Regrouped(key: string, t0: string, q: string, endpoint: string, t1: string, json: string, t2: string,
                  header: string, t3: string, token: string, tail: string)
    ensures Assignment(key,
                       t0 + ((q + endpoint + q) + (t1 + (json + (t2 + (header + (t3 + ((q + token + q) + tail)))))))) ==
            (Assignment(key, t0 + q) + endpoint + ((q + t1 + json) + ((t2 + header) + (t3 + q)))) + token + (q + tail)
  {
  }

  lemma ExporterLine(port: nat, token: string)
    ensures Assignment("exporter", ExporterTable(Endpoint(port), token)) == ExporterText(Decimal(port), token)
  {
    TableIs(Endpoint(port), token);
    Regrouped("exporter", TEXT0, "\"", Endpoint(port), TEXT1, InQuotes("json"), TEXT2, InQuotes(TOKEN_HEADER), TEXT3,
              token, TABLE_TAIL);
    Lead();
    Protocol();
    Header();
    Quote();
    End();
  }

  // ---------- what an edit writes ----------

  /** The managed entries, the exporter last. */
  function AllEntries<L>(ed: Editor<L>): seq<Entry<L>> { ed.scalars + [ed.exporter] }

  /** No line assigns another entry's key. */
  ghost predicate OwnLines<L>(entries: seq<Entry<L>>) {
    forall i, j :: 0 <= i < |entries| && 0 <= j < |entries| && i != j ==> !entries[i].assigns(entries[j].line)
  }

  lemma BroughtIsOwn<L(!new)>(ed: Editor<L>, d: nat, body: seq<L>, more: seq<L>, k: nat)
    requires OwnLines(AllEntries(ed)) && AreAdded(ed, d, body, more) && AddsAll(ed, d, body, more)
    requires k < |AllEntries(ed)| && Lacks(ed.grammar, AllEntries(ed)[k].assigns, d, body)
    ensures AllEntries(ed)[k].line in more
  {
    var entries := AllEntries(ed);
    assert Brings(more, entries[k]);
    var i :| 0 <= i < |more| && entries[k].assigns(more[i]);
    assert IsMissing(ed.grammar, d, entries, body, more[i]);
    var e :| e in entries && more[i] == e.line;
    var j :| 0 <= j < |entries| && entries[j] == e;
  }

  /** The entries have these tests and these lines. */
  ghost function AreEntries<L>(tests: seq<L -> bool>, lines: seq<L>): seq<Entry<L>> -> bool {
    (entries: seq<Entry<L>>) =>
      |tests| == |lines| == |entries| && forall i :: 0 <= i < |entries| ==> entries[i] == Entry(tests[i], lines[i])
  }

  lemma EntriesComplete<L>(ed: Editor<L>, tests: seq<L -> bool>, lines: seq<L>)
    requires |ed.scalars| == 4 && |tests| == |lines| == 5
    requires forall k :: 0 <= k < 4 ==> ed.scalars[k] == Entry(tests[k], lines[k])
    requires ed.exporter == Entry(tests[4], lines[4])
    ensures AreEntries(tests, lines)(AllEntries(ed))
  {
  }

  /** Every line whose key the body lacks is among the added ones, and nothing else is. */
  ghost predicate AddsLines<L(!new)>(g: Grammar<L>, tests: seq<L -> bool>, lines: seq<L>, d: nat,
                                     body: seq<L>, more: seq<L>)
  {
    && |tests| == |lines|
    && (forall i :: 0 <= i < |tests| && Lacks(g, tests[i], d, body) ==> lines[i] in more)
    && (forall l :: l in more ==> l in lines)
  }

  lemma LinesAreBrought<L(!new)>(ed: Editor<L>, tests: seq<L -> bool>, lines: seq<L>, d: nat, body: seq<L>,
                                 more: seq<L>)
    requires AreEntries(tests, lines)(AllEntries(ed)) && OwnLines(AllEntries(ed))
    requires AreAdded(ed, d, body, more) && AddsAll(ed, d, body, more)
    ensures AddsLines(ed.grammar, tests, lines, d, body, more)
  {
    var entries := AllEntries(ed);
    forall i | 0 <= i < |entries| && Lacks(ed.grammar, tests[i], d, body) ensures lines[i] in more {
      assert entries[i] == Entry(tests[i], lines[i]);
      BroughtIsOwn(ed, d, body, more, i);
    }
    forall l | l in more ensures l in lines {
      var k :| 0 <= k < |more| && more[k] == l;
      assert IsMissing(ed.grammar, d, entries, body, more[k]);
      var e :| e in entries && l == e.line;
      var i :| 0 <= i < |entries| && entries[i] == e;
      assert l == lines[i];
    }
  }

  ghost predicate KeysDiffer(keys: seq<string>) {
    forall i, j :: 0 <= i < |keys| && 0 <= j < |keys| && i != j ==> AreApart(keys[i], keys[j])
  }

  /** The tests are for lines that assign these keys. */
  ghost function AssignKeys(keys: seq<string>): seq<string -> bool> -> bool {
    (tests: seq<string -> bool>) => |tests| == |keys| && forall i :: 0 <= i < |keys| ==> tests[i] == AssignsKey(keys[i])
  }

  /** The tests are for lines that begin, but for spaces, with the key and an equals sign one space on. */
  ghost function AreTestsFor(keys: seq<string>): seq<string -> bool> -> bool {
    (tests: seq<string -> bool>) =>
      |tests| == |keys|
      && forall i, line :: 0 <= i < |tests| ==> (tests[i](line) <==> keys[i] + " =" <= TrimSpace(line))
  }

  lemma TestsMean(tests: seq<string -> bool>, keys: seq<string>)
    requires AssignKeys(keys)(tests)
    ensures AreTestsFor(keys)(tests)
  {
    forall i, line | 0 <= i < |tests| ensures tests[i](line) <==> keys[i] + " =" <= TrimSpace(line) {
      assert tests[i] == AssignsKey(keys[i]);
    }
  }

  lemma OtherKey(p: string -> bool, q: string -> bool, a: string, b: string, line: string)
    requires p == AssignsKey(a) && q == AssignsKey(b) && AreApart(b, a) && q(line)
    ensures !p(line)
  {
    KeysExclude(b, a, line);
  }

  lemma EntriesOwnLines(entries: seq<Entry<string>>, tests: seq<string -> bool>, lines: seq<string>,
                        keys: seq<string>)
    requires AreEntries(tests, lines)(entries) && KeysDiffer(keys) && AssignKeys(keys)(tests)
    requires forall i :: 0 <= i < |entries| ==> entries[i].assigns(entries[i].line)
    ensures OwnLines(entries)
  {
    forall i, j | 0 <= i < |entries| && 0 <= j < |entries| && i != j ensures !entries[i].assigns(entries[j].line) {
      assert entries[i] == Entry(tests[i], lines[i]) && entries[j] == Entry(tests[j], lines[j]);
      OtherKey(tests[i], tests[j], keys[i], keys[j], lines[j]);
    }
  }

  lemma EntriesAssign<L(!new)>(ed: Editor<L>, i: nat)
    requires IsSane(ed) && i < |AllEntries(ed)|
    ensures AllEntries(ed)[i].assigns(AllEntries(ed)[i].line)
  {
    assert IsEntry(ed, ed.exporter);
    assert i < |ed.scalars| ==> AllEntries(ed)[i] in ed.scalars;
  }

  /** An exporter line that was there is, at its place, the wanted one but for spaces around it. */
  ghost predicate KeepsExporterLine(ed: Editor<string>, d: nat, body: seq<string>, line: string) {
    var i := First(ed.grammar, ed.exporter.assigns, d, body);
    i < |body| ==> i < |WithExporter(ed, d, body)| && TrimSpace(WithExporter(ed, d, body)[i]) == line
  }

  lemma ExporterIsWanted(ed: Editor<string>, d: nat, body: seq<string>, line: string)
    requires IsSane(ed) && ed.wanted == IsLine(line)
    ensures KeepsExporterLine(ed, d, body, line)
  {
    assert ed.wanted(ed.exporter.line);
  }

  /** Any sane editor adds exactly the missing ones of its lines, and leaves its exporter line as wanted. */
  lemma EditWrites(text: string, ed: Editor<string>, tests: seq<string -> bool>, lines: seq<string>,
                   keys: seq<string>, line: string)
    returns (before: seq<string>, head: string, body: seq<string>, more: seq<string>, after: seq<string>)
    requires IsSane(ed) && HasOneLiners(ed) && IsTame(ed, SplitLines(text)) && ed.wanted == IsLine(line)
    requires AreEntries(tests, lines)(AllEntries(ed)) && KeysDiffer(keys)
    requires AssignKeys(keys)(tests)
    ensures Prepared(ed, SplitLines(text)) == Whole(before, head, body, after)
    ensures IsLayout(ed.grammar, ed.grammar.otel, before, head, body, after)
    ensures var managed := Whole(before, head, WithExporter(ed, Inside(ed.grammar, head), body) + more, after);
            var cut := WithoutFirstStale(ed.grammar, WithoutFirstStale(ed.grammar, managed));
            IsTrimOf(ed, SplitLines(Edited(ed, text)), cut)
    ensures AddsLines(ed.grammar, tests, lines, Inside(ed.grammar, head), body, more)
    ensures KeepsExporterLine(ed, Inside(ed.grammar, head), body, line)
  {
    forall i | 0 <= i < |AllEntries(ed)| ensures AllEntries(ed)[i].assigns(AllEntries(ed)[i].line) {
      EntriesAssign(ed, i);
    }
    EntriesOwnLines(AllEntries(ed), tests, lines, keys);
    before, head, body, more, after := EditedFrame(ed, text);
    LinesAreBrought(ed, tests, lines, Inside(ed.grammar, head), body, more);
    ExporterIsWanted(ed, Inside(ed.grammar, head), body, line);
  }

  // ---------- the entries are the written ones ----------

  /** The five keys that are managed and their lines, the exporter's given. */
  ghost function AreTexts(line: string): (seq<string>, seq<string>) -> bool {
    (keys: seq<string>, lines: seq<string>) =>
      && |keys| == |lines| == 5
      && keys[0] == "environment" && lines[0] == "environment = \"control-center\""
      && keys[1] == "metrics_exporter" && lines[1] == "metrics_exporter = \"none\""
      && keys[2] == "trace_exporter" && lines[2] == "trace_exporter = \"none\""
      && keys[3] == "log_user_prompt" && lines[3] == "log_user_prompt = false"
      && keys[4] == "exporter" && lines[4] == line
  }

  lemma EnvironmentText(line: string, keys: seq<string>, lines: seq<string>)
    requires AreTexts(line)(keys, lines)
    ensures |keys| == |lines| == 5 && keys[0] == "environment" && lines[0] == "environment = \"control-center\""
  {
  }

  lemma EnvironmentScalar(key: string, line: string)
    requires key == "environment" && line == "environment = \"control-center\""
    ensures IsWritten(ScalarAt(0), key, line)
  {
    EnvironmentLine();
  }

  lemma MetricsText(line: string, keys: seq<string>, lines: seq<string>)
    requires AreTexts(line)(keys, lines)
    ensures |keys| == |lines| == 5 && keys[1] == "metrics_exporter" && lines[1] == "metrics_exporter = \"none\""
  {
  }

  lemma MetricsScalar(key: string, line: string)
    requires key == "metrics_exporter" && line == "metrics_exporter = \"none\""
    ensures IsWritten(ScalarAt(1), key, line)
  {
    MetricsLine();
  }

  lemma TracesText(line: string, keys: seq<string>, lines: seq<string>)
    requires AreTexts(line)(keys, lines)
    ensures |keys| == |lines| == 5 && keys[2] == "trace_exporter" && lines[2] == "trace_exporter = \"none\""
  {
  }

  lemma TracesScalar(key: string, line: string)
    requires key == "trace_exporter" && line == "trace_exporter = \"none\""
    ensures IsWritten(ScalarAt(2), key, line)
  {
    TracesLine();
  }

  lemma PromptsText(line: string, keys: seq<string>, lines: seq<string>)
    requires AreTexts(line)(keys, lines)
    ensures |keys| == |lines| == 5 && keys[3] == "log_user_prompt" && lines[3] == "log_user_prompt = false"
  {
  }

  lemma PromptsScalar(key: string, line: string)
    requires key == "log_user_prompt" && line == "log_user_prompt = false"
    ensures IsWritten(ScalarAt(3), key, line)
  {
    PromptsLine();
  }

  lemma ExporterKey(line: string, keys: seq<string>, lines: seq<string>)
    requires AreTexts(line)(keys, lines)
    ensures |keys| == |lines| == 5 && keys[4] == "exporter" && lines[4] == line
  {
  }

  lemma FirstLetters(line: string, keys: seq<string>, lines: seq<string>)
    requires AreTexts(line)(keys, lines)
    ensures |keys| == 5 && (forall i :: 0 <= i < 5 ==> |keys[i]| > 1)
    ensures keys[0][..2] == "en" && keys[1][..2] == "me" && keys[2][..2] == "tr" && keys[3][..2] == "lo"
    ensures keys[4][..2] == "ex"
  {
  }

  lemma AllKeysApart(line: string, keys: seq<string>, lines: seq<string>)
    requires AreTexts(line)(keys, lines)
    ensures KeysDiffer(keys)
  {
    FirstLetters(line, keys, lines);
    forall i, j | 0 <= i < 5 && 0 <= j < 5 && i != j ensures AreApart(keys[i], keys[j]) {
      assert keys[i][..2] != keys[j][..2];
      assert keys[i][..2] == [keys[i][0], keys[i][1]] && keys[j][..2] == [keys[j][0], keys[j][1]];
    }
  }

  /** The scalar has this key and is written as this line. */
  ghost predicate IsWritten(s: Scalar, key: string, line: string) { s.key == key && Assignment(s.key, s.value) == line }

  lemma EnvironmentIsWritten(line: string, keys: seq<string>, lines: seq<string>)
    requires AreTexts(line)(keys, lines)
    ensures |keys| == |lines| == 5 && IsWritten(ScalarAt(0), keys[0], lines[0])
  {
    EnvironmentText(line, keys, lines);
    EnvironmentScalar(keys[0], lines[0]);
  }

  lemma MetricsIsWritten(line: string, keys: seq<string>, lines: seq<string>)
    requires AreTexts(line)(keys, lines)
    ensures |keys| == |lines| == 5 && IsWritten(ScalarAt(1), keys[1], lines[1])
  {
    MetricsText(line, keys, lines);
    MetricsScalar(keys[1], lines[1]);
  }

  lemma TracesIsWritten(line: string, keys: seq<string>, lines: seq<string>)
    requires AreTexts(line)(keys, lines)
    ensures |keys| == |lines| == 5 && IsWritten(ScalarAt(2), keys[2], lines[2])
  {
    TracesText(line, keys, lines);
    TracesScalar(keys[2], lines[2]);
  }

  lemma PromptsIsWritten(line: string, keys: seq<string>, lines: seq<string>)
    requires AreTexts(line)(keys, lines)
    ensures |keys| == |lines| == 5 && IsWritten(ScalarAt(3), keys[3], lines[3])
  {
    PromptsText(line, keys, lines);
    PromptsScalar(keys[3], lines[3]);
  }

  /** The scalars are written as the first four lines. */
  ghost function AreWritten(keys: seq<string>, lines: seq<string>): seq<Scalar> -> bool {
    (scalars: seq<Scalar>) =>
      && |scalars| == 4 && |keys| == |lines| == 5
      && forall k :: 0 <= k < 4 ==> IsWritten(scalars[k], keys[k], lines[k])
  }

  lemma ScalarsAt(scalars: seq<Scalar>)
    requires scalars == Scalars()
    ensures |scalars| == 4 && forall k :: 0 <= k < 4 ==> scalars[k] == ScalarAt(k)
  {
  }

  lemma FourAreWritten(scalars: seq<Scalar>, keys: seq<string>, lines: seq<string>)
    requires |scalars| == 4 && |keys| == |lines| == 5
    requires IsWritten(scalars[0], keys[0], lines[0]) && IsWritten(scalars[1], keys[1], lines[1])
    requires IsWritten(scalars[2], keys[2], lines[2]) && IsWritten(scalars[3], keys[3], lines[3])
    ensures AreWritten(keys, lines)(scalars)
  {
  }

  lemma ScalarsAreWritten(scalars: seq<Scalar>, line: string, keys: seq<string>, lines: seq<string>)
    requires AreTexts(line)(keys, lines) && scalars == Scalars()
    ensures AreWritten(keys, lines)(scalars)
  {
    ScalarsAt(scalars);
    EnvironmentIsWritten(line, keys, lines);
    MetricsIsWritten(line, keys, lines);
    TracesIsWritten(line, keys, lines);
    PromptsIsWritten(line, keys, lines);
    FourAreWritten(scalars, keys, lines);
  }

  /** The entries of the scalars, in order. */
  ghost function IsListed(scalars: seq<Scalar>): Editor<string> -> bool {
    (ed: Editor<string>) =>
      |scalars| == |ed.scalars| == 4 && forall k :: 0 <= k < 4 ==> ed.scalars[k] == EntryOf(scalars[k])
  }

  lemma EntryAt(ed: Editor<string>, scalars: seq<Scalar>, tests: seq<string -> bool>, keys: seq<string>,
                lines: seq<string>, k: nat)
    requires IsListed(scalars)(ed) && AreWritten(keys, lines)(scalars) && AssignKeys(keys)(tests) && k < 4
    ensures |ed.scalars| == 4 && |tests| == |lines| == 5 && ed.scalars[k] == Entry(tests[k], lines[k])
  {
    assert IsWritten(scalars[k], keys[k], lines[k]) && tests[k] == AssignsKey(keys[k]);
  }

  lemma EditorEntries(c: Settings, ed: Editor<string>)
    requires ed == EditorOf(c)
    ensures ed.scalars == Entries(c.scalars)
  {
  }

  lemma EntriesListed(ed: Editor<string>, scalars: seq<Scalar>)
    requires ed.scalars == Entries(scalars) && |scalars| == 4
    ensures IsListed(scalars)(ed)
  {
  }

  lemma EditorExporter(c: Settings, ed: Editor<string>)
    requires ed == EditorOf(c)
    ensures ed.exporter == Entry(AssignsKey(c.exporter), Assignment(c.exporter, c.table))
  {
  }

  lemma EditorWanted(c: Settings, ed: Editor<string>)
    requires ed == EditorOf(c)
    ensures ed.wanted == IsLine(Assignment(c.exporter, c.table))
  {
  }

  lemma CodexScalars(port: nat, token: string, c: Settings)
    requires c == SettingsFor(port, token)
    ensures c.scalars == Scalars() && |c.scalars| == 4 && c.exporter == "exporter"
    ensures c.table == ExporterTable(Endpoint(port), token)
  {
  }

  lemma CodexExporter(port: nat, token: string, c: Settings, digits: string, line: string)
    requires c == SettingsFor(port, token) && digits == Decimal(port) && line == ExporterText(digits, token)
    ensures Assignment(c.exporter, c.table) == line
  {
    CodexScalars(port, token, c);
    ExporterLine(port, token);
  }

  lemma CodexKey(port: nat, token: string, c: Settings, line: string, keys: seq<string>, lines: seq<string>)
    requires c == SettingsFor(port, token) && AreTexts(line)(keys, lines)
    ensures |keys| == |lines| == 5 && c.exporter == keys[4] && lines[4] == line
  {
    CodexScalars(port, token, c);
    ExporterKey(line, keys, lines);
  }

  lemma ScalarsAreTexts(ed: Editor<string>, scalars: seq<Scalar>, tests: seq<string -> bool>, keys: seq<string>,
                        lines: seq<string>)
    requires IsListed(scalars)(ed) && AreWritten(keys, lines)(scalars) && AssignKeys(keys)(tests)
    ensures |ed.scalars| == 4 && |tests| == |lines| == 5
    ensures forall k :: 0 <= k < 4 ==> ed.scalars[k] == Entry(tests[k], lines[k])
  {
    forall k | 0 <= k < 4 ensures |tests| == |lines| == 5 && ed.scalars[k] == Entry(tests[k], lines[k]) {
      EntryAt(ed, scalars, tests, keys, lines, k);
    }
  }

  lemma ExporterTest(tests: seq<string -> bool>, keys: seq<string>, lines: seq<string>, e: Entry<string>,
                     key: string, line: string)
    requires AssignKeys(keys)(tests) && |keys| == |lines| == 5 && key == keys[4] && line == lines[4]
    requires e == Entry(AssignsKey(key), line)
    ensures e == Entry(tests[4], lines[4])
  {
  }

  lemma CodexWritten(port: nat, token: string, c: Settings, line: string, keys: seq<string>, lines: seq<string>)
    requires c == SettingsFor(port, token) && AreTexts(line)(keys, lines)
    ensures AreWritten(keys, lines)(c.scalars)
  {
    CodexScalars(port, token, c);
    ScalarsAreWritten(c.scalars, line, keys, lines);
  }

  lemma CodexListed(port: nat, token: string, c: Settings, ed: Editor<string>)
    requires IsCodexEdit(port, token, c, ed)
    ensures c == SettingsFor(port, token) && IsListed(c.scalars)(ed)
    ensures ed.exporter == Entry(AssignsKey(c.exporter), Assignment(c.exporter, c.table))
    ensures ed.wanted == IsLine(Assignment(c.exporter, c.table))
  {
    CodexScalars(port, token, c);
    EditorEntries(c, ed);
    EntriesListed(ed, c.scalars);
    EditorExporter(c, ed);
    EditorWanted(c, ed);
  }

  lemma TextsAreEntries(ed: Editor<string>, scalars: seq<Scalar>, key: string, line: string,
                        tests: seq<string -> bool>, keys: seq<string>, lines: seq<string>)
    requires IsListed(scalars)(ed) && AreWritten(keys, lines)(scalars) && AssignKeys(keys)(tests)
    requires ed.exporter == Entry(AssignsKey(key), line) && key == keys[4] && line == lines[4]
    ensures AreEntries(tests, lines)(AllEntries(ed))
  {
    ExporterTest(tests, keys, lines, ed.exporter, key, line);
    ScalarsAreTexts(ed, scalars, tests, keys, lines);
    EntriesComplete(ed, tests, lines);
  }

  // ---------- the descriptions are the written ones ----------

  /** Each line is described as it is written, after "otel.". */
  ghost function AreShown(lines: seq<string>): seq<string> -> bool {
    (notes: seq<string>) => |notes| == |lines| && forall k :: 0 <= k < |lines| ==> notes[k] == "otel." + lines[k]
  }

  lemma Described(s: Scalar, key: string, line: string, otel: string)
    requires IsWritten(s, key, line)
    ensures Description(otel, s) == otel + "." + line
  {
  }

  lemma AfterDot(note: string, otel: string, lead: string, line: string)
    requires otel == "otel" && note == otel + "." + line && lead == "otel."
    ensures note == lead + line
  {
    assert otel + "." == lead;
  }

  lemma ScalarsAreShown(scalars: seq<Scalar>, keys: seq<string>, lines: seq<string>, otel: string, k: nat)
    requires AreWritten(keys, lines)(scalars) && k < 4
    ensures |scalars| == 4 && |lines| == 5 && Descriptions(otel, scalars)[k] == otel + "." + lines[k]
  {
    Described(scalars[k], keys[k], lines[k], otel);
  }

  lemma ExporterIsShown(port: nat, digits: string, line: string, otel: string)
    requires digits == Decimal(port) && line == ExporterText(digits, "<redacted>")
    ensures Description(otel, ShownExporter(port)) == otel + "." + line
  {
    ExporterLine(port, REDACTED);
  }

  lemma FiveShown(notes: seq<string>, front: seq<string>, last: string, otel: string, lines: seq<string>)
    requires notes == front + [last] && |front| == 4 && |lines| == 5 && otel == "otel"
    requires forall k :: 0 <= k < 4 ==> front[k] == otel + "." + lines[k]
    requires last == otel + "." + lines[4]
    ensures AreShown(lines)(notes)
  {
    forall k | 0 <= k < 5 ensures notes[k] == "otel." + lines[k] {
      AfterDot(notes[k], otel, "otel.", lines[k]);
    }
  }

  lemma ShownAre(port: nat, scalars: seq<Scalar>, otel: string)
    requires scalars == Scalars() && otel == "otel"
    ensures AllShown(port) == Descriptions(otel, scalars) + [Description(otel, ShownExporter(port))]
  {
  }

  /** Each of the five descriptions is the line that is written, after "otel." and with the token redacted. */
  lemma NotesAreLines(port: nat, digits: string, line: string, keys: seq<string>, lines: seq<string>,
                      scalars: seq<Scalar>, otel: string)
    requires IsDecimal(digits, port) && line == ExporterText(digits, "<redacted>") && AreTexts(line)(keys, lines)
    requires scalars == Scalars() && otel == "otel"
    ensures AreShown(lines)(AllShown(port))
  {
    DecimalUnique(digits, port);
    ScalarsAreWritten(scalars, line, keys, lines);
    ExporterKey(line, keys, lines);
    ExporterIsShown(port, digits, line, otel);
    ShownInOrder(Descriptions(otel, scalars), Description(otel, ShownExporter(port)), scalars, keys, lines, otel);
    ShownAre(port, scalars, otel);
  }

  lemma ShownInOrder(front: seq<string>, last: string, scalars: seq<Scalar>, keys: seq<string>, lines: seq<string>,
                     otel: string)
    requires AreWritten(keys, lines)(scalars) && front == Descriptions(otel, scalars) && otel == "otel"
    requires |lines| == 5 && last == otel + "." + lines[4]
    ensures AreShown(lines)(front + [last])
  {
    ScalarsAreShown(scalars, keys, lines, otel, 0);
    forall k | 0 <= k < 4 ensures front[k] == otel + "." + lines[k] {
      ScalarsAreShown(scalars, keys, lines, otel, k);
    }
    FiveShown(front + [last], front, last, otel, lines);
  }

  // ---------- the headers are the written ones ----------

  lemma EditorHeaders(c: Settings, ed: Editor<string>)
    requires ed == EditorOf(c)
    ensures ed.grammar.otel == IsTable(c.otel) && ed.grammar.stale == IsTable(c.stale) && ed.head == HeadOf(c)
  {
  }

  /** A segment that is its own word. */
  predicate IsBare(word: string) { IsSegment(word) && IsWord(word) }

  lemma OneWord(word: string)
    requires IsBare(word)
    ensures SplitDottedKey(word) == [word]
  {
    OnePart(word);
  }

  lemma ThreeWords(a: string, b: string, k: string)
    requires IsBare(a) && IsBare(b) && IsBare(k)
    ensures SplitDottedKey(Dotted(a, b, k)) == [a, b, k]
  {
    ThreeParts(a, b, k);
  }

  lemma OtelIsBare(a: string)
    requires a == "otel"
    ensures IsBare(a)
  {
  }

  lemma ExporterIsBare(b: string)
    requires b == "exporter"
    ensures IsBare(b)
  {
  }

  lemma ProtocolIsBare(k: string)
    requires k == "otlp-http"
    ensures IsBare(k)
  {
  }

  lemma OtelWords(table: string, words: seq<string>)
    requires words == [table] && IsBare(table)
    ensures SplitDottedKey(table) == words && AreWords(words)
  {
    OneWord(table);
  }

  lemma AllWords(words: seq<string>, a: string, b: string, k: string)
    requires words == [a, b, k] && IsWord(a) && IsWord(b) && IsWord(k)
    ensures AreWords(words)
  {
  }

  lemma StaleWords(table: string, a: string, b: string, k: string, words: seq<string>)
    requires words == [a, b, k] && IsBare(a) && IsBare(b) && IsBare(k) && table == Dotted(a, b, k)
    ensures SplitDottedKey(table) == words
  {
    ThreeWords(a, b, k);
  }

  lemma CodexNames(port: nat, token: string, c: Settings, a: string, b: string, k: string)
    requires c == SettingsFor(port, token) && a == "otel" && b == "exporter" && k == "otlp-http"
    ensures c.otel == a && c.stale == Dotted(a, b, k) && IsBare(a) && IsBare(b) && IsBare(k)
  {
    OtelIsBare(a);
    ExporterIsBare(b);
    ProtocolIsBare(k);
  }

  lemma TableHeader(test: string -> bool, table: string, words: seq<string>, line: string)
    requires test == IsTable(table) && SplitDottedKey(table) == words && AreWords(words)
    ensures test(line) <==> IsHeaderOf(words)(line)
  {
    HeadersOf(line, table, words);
  }

  /** Its tables are headed by these words. */
  ghost predicate AreHeaders(ed: Editor<string>, otel: seq<string>, stale: seq<string>) {
    && (forall line :: ed.grammar.otel(line) <==> IsHeaderOf(otel)(line))
    && (forall line :: ed.grammar.stale(line) <==> IsHeaderOf(stale)(line))
  }

  lemma TablesAreHeaded(ed: Editor<string>, otelTable: string, staleTable: string, otel: seq<string>,
                        stale: seq<string>)
    requires ed.grammar.otel == IsTable(otelTable) && ed.grammar.stale == IsTable(staleTable)
    requires SplitDottedKey(otelTable) == otel && AreWords(otel)
    requires SplitDottedKey(staleTable) == stale && AreWords(stale)
    ensures AreHeaders(ed, otel, stale)
  {
    forall line ensures ed.grammar.otel(line) <==> IsHeaderOf(otel)(line) {
      TableHeader(ed.grammar.otel, otelTable, otel, line);
    }
    forall line ensures ed.grammar.stale(line) <==> IsHeaderOf(stale)(line) {
      TableHeader(ed.grammar.stale, staleTable, stale, line);
    }
  }

  /** The managed table is [otel] and the stale one [otel.exporter.otlp-http], each word bare or in quotes, with spaces
      around it and around the brackets; a missing [otel] is appended as written here. */
  lemma CodexHeaders(port: nat, token: string, c: Settings, ed: Editor<string>, a: string, b: string, k: string,
                     otel: seq<string>, stale: seq<string>)
    requires IsCodexEdit(port, token, c, ed) && a == "otel" && b == "exporter" && k == "otlp-http"
    requires otel == [a] && stale == [a, b, k]
    ensures ed.head == "[" + a + "]" && AreHeaders(ed, otel, stale)
  {
    EditorHeaders(c, ed);
    CodexNames(port, token, c, a, b, k);
    OtelWords(c.otel, otel);
    StaleWords(c.stale, a, b, k, stale);
    AllWords(stale, a, b, k);
    TablesAreHeaded(ed, c.otel, c.stale, otel, stale);
  }

  // ---------- the edit ----------

  /** editCodex on a tame text, to the letter: each of the five settings that the [otel] table lacked is added as
      written out here, the exporter with the port's digits and the token, and nothing else is; an exporter line that
      was there becomes the written one. */
  lemma EditCodexWrites(text: string, port: nat, token: string, c: Settings, ed: Editor<string>, digits: string,
                        line: string, tests: seq<string -> bool>, keys: seq<string>, lines: seq<string>)
    returns (before: seq<string>, head: string, body: seq<string>, more: seq<string>, after: seq<string>)
    requires '"' !in token && IsCodexEdit(port, token, c, ed) && IsTame(ed, SplitLines(text))
    requires IsDecimal(digits, port) && line == ExporterText(digits, token)
    requires AreTexts(line)(keys, lines) && AssignKeys(keys)(tests)
    ensures Prepared(ed, SplitLines(text)) == Whole(before, head, body, after)
    ensures IsLayout(ed.grammar, ed.grammar.otel, before, head, body, after)
    ensures var managed := Whole(before, head, WithExporter(ed, Inside(ed.grammar, head), body) + more, after);
            var cut := WithoutFirstStale(ed.grammar, WithoutFirstStale(ed.grammar, managed));
            IsTrimOf(ed, SplitLines(Edited(ed, text)), cut)
    ensures AddsLines(ed.grammar, tests, lines, Inside(ed.grammar, head), body, more)
    ensures KeepsExporterLine(ed, Inside(ed.grammar, head), body, line)
    ensures AreTestsFor(keys)(tests)
  {
    TestsMean(tests, keys);
    EditorIsReady(port, token, c, ed);
    DecimalUnique(digits, port);
    CodexListed(port, token, c, ed);
    CodexExporter(port, token, c, digits, line);
    CodexWritten(port, token, c, line, keys, lines);
    CodexKey(port, token, c, line, keys, lines);
    TextsAreEntries(ed, c.scalars, c.exporter, line, tests, keys, lines);
    AllKeysApart(line, keys, lines);
    before, head, body, more, after := EditWrites(text, ed, tests, lines, keys, line);
  }
}
