/** The text layer of the Codex config editor (internal/setup/codex.go): the bracket scanner, the table
    header pattern, dotted key paths, and lines against text. */
module TomlText {
  import opened Seqs
  import opened Strings

  // ---------- the scanner ----------

  predicate IsQuote(c: char) { c == '"' || c == '\'' }

  /** What stripStringsAndComments keeps of a line it enters inside `quote`. */
  function Stripped(line: string, quote: Option<char>): string {
    if line == "" then ""
    else if quote.Some? then Stripped(line[1..], if line[0] == quote.value then None else quote)
    else if line[0] == '#' then ""
    else if IsQuote(line[0]) then Stripped(line[1..], Some(line[0]))
    else [line[0]] + Stripped(line[1..], None)
  }

  function Bracket(c: char): int {
    if c == '[' || c == '{' then 1 else if c == ']' || c == '}' then -1 else 0
  }

  function Brackets(s: string): int { if s == "" then 0 else Bracket(s[0]) + Brackets(s[1..]) }

  function LineDelta(line: string): int { Brackets(Stripped(line, None)) }

  method StripStringsAndComments(line: string) returns (kept: string)
    ensures kept == Stripped(line, None)
  {
    kept := "";
    var quote: Option<char> := None;
    var i := 0;
    while i < |line|
      invariant 0 <= i <= |line|
      invariant Stripped(line, None) == kept + Stripped(line[i..], quote)
    {
      var c := line[i];
      assert line[i..][1..] == line[i + 1..];
      i := i + 1;
      if quote.Some? {
        if c == quote.value {
          quote := None;
        }
        continue;
      }
      if c == '#' {
        return;
      }
      if IsQuote(c) {
        quote := Some(c);
      } else {
        kept := kept + [c];
      }
    }
    assert line[|line|..] == "";
  }

  method LineDeltaOf(line: string) returns (delta: int)
    ensures delta == LineDelta(line)
  {
    var kept := StripStringsAndComments(line);
    delta := 0;
    for i := 0 to |kept|
      invariant Brackets(kept) == delta + Brackets(kept[i..])
    {
      assert kept[i..][1..] == kept[i + 1..];
      delta := delta + Bracket(kept[i]);
    }
  }

  lemma {:induction false} BracketsConcat(a: string, b: string)
    ensures Brackets(a + b) == Brackets(a) + Brackets(b)
  {
    if a == "" {
      assert a + b == b;
    } else {
      assert (a + b)[1..] == a[1..] + b;
      BracketsConcat(a[1..], b);
    }
  }

  /** Square and curly brackets, open less closed. */
  lemma {:induction false} BracketsCount(s: string)
    ensures Brackets(s) + multiset(s)[']'] + multiset(s)['}'] == multiset(s)['['] + multiset(s)['{']
  {
    if s != "" {
      BracketsCount(s[1..]);
      assert s == [s[0]] + s[1..];
    }
  }

  /** What the scanner keeps: all before the first quote or comment sign; after a quote what follows the next quote
      of its kind, if there is one; nothing after a comment sign. */
  lemma ScannerKeeps(a: string, quote: char, s: string, rest: string)
    requires IsUnquoted(a) && (quote == '"' || quote == '\'') && quote !in s
    ensures Stripped(a, None) == a && Stripped(a + ("#" + rest), None) == a
    ensures Stripped(a + ([quote] + (s + [quote] + rest)), None) == a + Stripped(rest, None)
    ensures Stripped(a + ([quote] + s), None) == a
  {
    StrippedUnquoted(a, "");
    assert a + "" == a;
    StrippedUnquoted(a, "#" + rest);
    StrippedUnquoted(a, [quote] + (s + [quote] + rest));
    assert ([quote] + (s + [quote] + rest))[1..] == s + [quote] + rest;
    StrippedQuoted(s, rest, quote);
    StrippedUnquoted(a, [quote] + s);
    assert ([quote] + s)[1..] == s;
    NeverClosed(s, quote);
  }

  lemma {:induction false} NeverClosed(s: string, c: char)
    requires c !in s
    ensures Stripped(s, Some(c)) == ""
  {
    if s != "" {
      NeverClosed(s[1..], c);
    }
  }

  predicate NoBrackets(s: string) { forall i :: 0 <= i < |s| ==> Bracket(s[i]) == 0 }

  lemma {:induction false} NoBracketsCount(s: string)
    requires NoBrackets(s)
    ensures Brackets(s) == 0
  {
    if s != "" {
      NoBracketsCount(s[1..]);
    }
  }

  lemma {:induction false} StrippedHasNone(s: string, quote: Option<char>)
    requires NoBrackets(s)
    ensures NoBrackets(Stripped(s, quote))
    decreases |s|
  {
    if s != "" {
      StrippedHasNone(s[1..], if quote.Some? then (if s[0] == quote.value then None else quote)
                              else if IsQuote(s[0]) then Some(s[0]) else None);
    }
  }

  lemma FlatLine(s: string)
    requires NoBrackets(s)
    ensures LineDelta(s) == 0
  {
    StrippedHasNone(s, None);
    NoBracketsCount(Stripped(s, None));
  }

  /** No quote and no comment sign. */
  predicate IsUnquoted(s: string) { forall i :: 0 <= i < |s| ==> !IsQuote(s[i]) && s[i] != '#' }

  lemma {:induction false} StrippedUnquoted(a: string, b: string)
    requires IsUnquoted(a)
    ensures Stripped(a + b, None) == a + Stripped(b, None)
  {
    if a == "" {
      assert a + b == b;
    } else {
      assert (a + b)[1..] == a[1..] + b;
      StrippedUnquoted(a[1..], b);
      assert a == [a[0]] + a[1..];
    }
  }

  lemma {:induction false} StrippedQuoted(s: string, rest: string, c: char)
    requires c !in s
    ensures Stripped(s + [c] + rest, Some(c)) == Stripped(rest, None)
  {
    var all := s + [c] + rest;
    if s == "" {
      assert all == [c] + rest && all[1..] == rest;
    } else {
      assert all[1..] == s[1..] + [c] + rest;
      StrippedQuoted(s[1..], rest, c);
    }
  }

  /** An unquoted stretch, a double-quoted one, and the rest. */
  lemma StrippedSegment(a: string, s: string, rest: string)
    requires IsUnquoted(a) && '"' !in s
    ensures Stripped(a + "\"" + s + "\"" + rest, None) == a + Stripped(rest, None)
  {
    var tail := "\"" + s + "\"" + rest;
    assert a + "\"" + s + "\"" + rest == a + tail;
    StrippedUnquoted(a, tail);
    assert tail[1..] == s + ['"'] + rest;
    StrippedQuoted(s, rest, '"');
  }

  // ---------- headers ----------

  /** The regexp class \s. */
  predicate IsPatternSpace(c: char) { c == '\t' || c == '\n' || c == '\U{000C}' || c == '\r' || c == ' ' }

  function DropSpaces(s: string): string { if s != "" && IsPatternSpace(s[0]) then DropSpaces(s[1..]) else s }

  function DropSpacesAtEnd(s: string): (r: string)
    ensures r <= s
  {
    if s != "" && IsPatternSpace(s[|s| - 1]) then DropSpacesAtEnd(s[..|s| - 1]) else s
  }

  predicate IsBracketed(s: string) { |s| >= 3 && s[0] == '[' && s[|s| - 1] == ']' && ']' !in s[1..|s| - 1] }

  /** The table header pattern: spaces, one non-empty bracketed name without a closing bracket, spaces. */
  predicate IsHeader(line: string) { IsBracketed(DropSpacesAtEnd(DropSpaces(line))) }

  predicate IsSpaces(s: string) { forall i :: 0 <= i < |s| ==> IsPatternSpace(s[i]) }

  lemma {:induction false} DropSpacesSkips(a: string, s: string)
    requires IsSpaces(a) && s != "" && !IsPatternSpace(s[0])
    ensures DropSpaces(a + s) == s
  {
    if a == "" {
      assert a + s == s;
    } else {
      assert (a + s)[1..] == a[1..] + s;
      DropSpacesSkips(a[1..], s);
    }
  }

  lemma {:induction false} DropSpacesAtEndSkips(s: string, b: string)
    requires IsSpaces(b) && s != "" && !IsPatternSpace(s[|s| - 1])
    ensures DropSpacesAtEnd(s + b) == s
  {
    if b == "" {
      assert s + b == s;
    } else {
      assert (s + b)[..|s + b| - 1] == s + b[..|b| - 1];
      DropSpacesAtEndSkips(s, b[..|b| - 1]);
    }
  }

  lemma {:induction false} DropSpacesSplits(s: string) returns (a: string)
    ensures IsSpaces(a) && s == a + DropSpaces(s)
  {
    a := "";
    if s != "" && IsPatternSpace(s[0]) {
      var rest := DropSpacesSplits(s[1..]);
      a := [s[0]] + rest;
      assert s == [s[0]] + s[1..];
    }
  }

  lemma {:induction false} DropSpacesAtEndSplits(s: string) returns (b: string)
    ensures IsSpaces(b) && s == DropSpacesAtEnd(s) + b
  {
    b := "";
    if s != "" && IsPatternSpace(s[|s| - 1]) {
      var rest := DropSpacesAtEndSplits(s[..|s| - 1]);
      b := rest + [s[|s| - 1]];
      assert s == s[..|s| - 1] + [s[|s| - 1]];
    }
  }

  /** The pattern as a regular expression reads. */
  ghost predicate MatchesHeaderPattern(line: string) {
    exists a, name, b :: IsHeaderSplit(line, a, name, b)
  }

  ghost predicate IsHeaderSplit(line: string, a: string, name: string, b: string) {
    line == a + "[" + name + "]" + b && IsSpaces(a) && IsSpaces(b) && name != "" && ']' !in name
  }

  lemma HeaderReads(line: string)
    requires IsHeader(line)
    ensures MatchesHeaderPattern(line)
  {
    var a := DropSpacesSplits(line);
    var b := DropSpacesAtEndSplits(DropSpaces(line));
    var s := DropSpacesAtEnd(DropSpaces(line));
    HeaderParts(line, a, s, b);
  }

  lemma HeaderParts(line: string, a: string, s: string, b: string)
    requires IsSpaces(a) && IsSpaces(b) && IsBracketed(s) && line == a + (s + b)
    ensures IsHeaderSplit(line, a, s[1..|s| - 1], b)
  {
    var name := s[1..|s| - 1];
    assert s == "[" + name + "]";
    assert a + (s + b) == a + "[" + name + "]" + b;
  }

  lemma HeaderWrites(line: string, a: string, name: string, b: string)
    requires IsHeaderSplit(line, a, name, b)
    ensures IsHeader(line) && DropSpacesAtEnd(DropSpaces(line)) == "[" + name + "]"
  {
    var s := "[" + name + "]";
    assert line == a + (s + b);
    DropSpacesSkips(a, s + b);
    DropSpacesAtEndSkips(s, b);
    assert s[1..|s| - 1] == name;
  }

  lemma HeaderMeaning(line: string)
    ensures IsHeader(line) <==> MatchesHeaderPattern(line)
  {
    if IsHeader(line) {
      HeaderReads(line);
    }
    if a, name, b :| IsHeaderSplit(line, a, name, b) {
      HeaderWrites(line, a, name, b);
    }
  }

  // ---------- splitting ----------

  /** strings.Split around one character. */
  function Split(s: string, sep: char): (r: seq<string>)
    ensures r != []
  {
    if s == "" then [""]
    else if s[0] == sep then [""] + Split(s[1..], sep)
    else [[s[0]] + Split(s[1..], sep)[0]] + Split(s[1..], sep)[1..]
  }

  lemma {:induction false} SplitWhole(s: string, sep: char)
    requires sep !in s
    ensures Split(s, sep) == [s]
  {
    if s != "" {
      SplitWhole(s[1..], sep);
      assert [s[0]] + s[1..] == s;
    }
  }

  lemma {:induction false} SplitAt(a: string, b: string, sep: char)
    requires sep !in a
    ensures Split(a + [sep] + b, sep) == [a] + Split(b, sep)
  {
    var all := a + [sep] + b;
    if a == "" {
      assert all[1..] == b;
    } else {
      assert all[1..] == a[1..] + [sep] + b;
      SplitAt(a[1..], b, sep);
      assert [a[0]] + a[1..] == a;
    }
  }

  lemma {:induction false} SplitParts(s: string, sep: char)
    ensures forall i :: 0 <= i < |Split(s, sep)| ==> sep !in Split(s, sep)[i]
  {
    if s != "" {
      SplitParts(s[1..], sep);
    }
  }

  /** Lines with a line feed after each. */
  function Text(lines: seq<string>): string { if lines == [] then "" else lines[0] + "\n" + Text(lines[1..]) }

  function Join(lines: seq<string>): string {
    if lines == [] then "" else if |lines| == 1 then lines[0] else lines[0] + "\n" + Join(lines[1..])
  }

  function SplitLines(text: string): seq<string> {
    if text == "" then [] else
      var parts := Split(text, '\n');
      if parts[|parts| - 1] == "" then parts[..|parts| - 1] else parts
  }

  function EnsureTrailingNewline(text: string): string {
    if text == "" || HasSuffix(text, "\n") then text else text + "\n"
  }

  ghost predicate AreLines(lines: seq<string>) { forall l :: l in lines ==> '\n' !in l }

  lemma {:induction false} JoinIsText(lines: seq<string>)
    requires lines != []
    ensures Join(lines) + "\n" == Text(lines)
  {
    if |lines| > 1 {
      JoinIsText(lines[1..]);
    }
  }

  lemma {:induction false} TextConcat(a: seq<string>, b: seq<string>)
    ensures Text(a + b) == Text(a) + Text(b)
  {
    if a == [] {
      assert a + b == b;
    } else {
      assert (a + b)[1..] == a[1..] + b;
      TextConcat(a[1..], b);
    }
  }

  lemma {:induction false} SplitOfText(lines: seq<string>)
    requires AreLines(lines)
    ensures Split(Text(lines), '\n') == lines + [""]
  {
    if lines == [] {
      assert lines + [""] == [""];
    } else {
      SplitOfText(lines[1..]);
      SplitAt(lines[0], Text(lines[1..]), '\n');
      assert lines[0] + "\n" + Text(lines[1..]) == lines[0] + ['\n'] + Text(lines[1..]);
      assert [lines[0]] + (lines[1..] + [""]) == lines + [""];
    }
  }

  /** Splitting undoes joining. */
  lemma SplitLinesOfText(lines: seq<string>)
    requires AreLines(lines)
    ensures SplitLines(Text(lines)) == lines
  {
    SplitOfText(lines);
    if lines == [] {
    } else {
      assert Text(lines) != "";
    }
  }

  lemma {:induction false} TextOfSplit(s: string)
    ensures Text(Split(s, '\n')) == s + "\n"
  {
    if s != "" {
      var rest := Split(s[1..], '\n');
      TextOfSplit(s[1..]);
      assert s == [s[0]] + s[1..];
      if s[0] == '\n' {
        assert ([""] + rest)[1..] == rest;
      } else {
        var parts := [[s[0]] + rest[0]] + rest[1..];
        assert parts[1..] == rest[1..];
        assert Text(parts) == [s[0]] + (rest[0] + "\n" + Text(rest[1..]));
      }
    }
  }

  /** Joining undoes splitting, but for a missing last line feed. */
  lemma TextOfSplitLines(text: string)
    ensures Text(SplitLines(text)) == EnsureTrailingNewline(text) && AreLines(SplitLines(text))
  {
    if text != "" {
      var parts := Split(text, '\n');
      var n := |parts| - 1;
      SplitParts(text, '\n');
      TextOfSplit(text);
      assert parts == parts[..n] + [parts[n]];
      TextConcat(parts[..n], [parts[n]]);
      assert Text([parts[n]]) == parts[n] + "\n" + Text([]) && Text([]) == "";
      assert Text(parts[..n]) + parts[n] + ['\n'] == text + ['\n'];
      SameBeforeLast(Text(parts[..n]) + parts[n], text, '\n');
      if parts[n] == "" {
        EndsInNewline(parts[..n]);
        assert Text(parts[..n]) + "" == Text(parts[..n]);
      } else {
        assert '\n' !in parts[n] && text[|text| - 1] == parts[n][|parts[n]| - 1];
        assert Text(parts) == text + "\n";
      }
    }
  }

  lemma SameBeforeLast(a: string, b: string, c: char)
    requires a + [c] == b + [c]
    ensures a == b
  {
    assert a == (a + [c])[..|a|] && b == (b + [c])[..|b|];
  }

  lemma {:induction false} EndsInNewline(lines: seq<string>)
    ensures lines != [] ==> HasSuffix(Text(lines), "\n")
  {
    if |lines| > 0 {
      EndsInNewline(lines[1..]);
      if |lines| == 1 {
        assert Text(lines) == lines[0] + "\n";
      } else {
        assert Text(lines[1..])[|Text(lines[1..])| - 1] == '\n';
      }
    }
  }

  // ---------- key paths ----------

  function UnquoteSegment(s: string): string {
    if |s| >= 2 && IsQuote(s[0]) && s[|s| - 1] == s[0] then s[1..|s| - 1] else s
  }

  function Segments(raw: seq<string>): (r: seq<string>)
    ensures |r| == |raw| && forall i :: 0 <= i < |r| ==> r[i] == UnquoteSegment(TrimSpace(raw[i]))
  {
    seq(|raw|, i requires 0 <= i < |raw| => UnquoteSegment(TrimSpace(raw[i])))
  }

  function SplitDottedKey(s: string): seq<string> { Segments(Split(s, '.')) }

  function HeaderKeyPath(line: string): Option<seq<string>> {
    var s := TrimSpace(line);
    if HasPrefix(s, "[") && HasSuffix(s, "]") && IsHeader(s) then Some(SplitDottedKey(s[1..|s| - 1])) else None
  }

  predicate HeaderMatches(line: string, table: string) { HeaderKeyPath(line) == Some(SplitDottedKey(table)) }

  lemma TrimmedIs(s: string)
    requires s != "" && !IsSpace(s[0]) && !IsSpace(s[|s| - 1])
    ensures TrimSpace(s) == s
  {
  }

  function Dotted(a: string, b: string, c: string): string { a + "." + (b + "." + c) }

  function InQuotes(s: string): string { "\"" + s + "\"" }

  /** A segment that needs no trimming. */
  predicate IsSegment(s: string) { s != "" && '.' !in s && !IsSpace(s[0]) && !IsSpace(s[|s| - 1]) }

  lemma OnePart(s: string)
    requires IsSegment(s)
    ensures SplitDottedKey(s) == [UnquoteSegment(s)]
  {
    SplitWhole(s, '.');
    TrimmedIs(s);
  }

  lemma SegmentsCons(a: string, raw: seq<string>)
    ensures Segments([a] + raw) == [UnquoteSegment(TrimSpace(a))] + Segments(raw)
  {
  }

  lemma MoreParts(a: string, b: string)
    requires IsSegment(a)
    ensures SplitDottedKey(a + "." + b) == [UnquoteSegment(a)] + SplitDottedKey(b)
  {
    SplitAt(a, b, '.');
    SegmentsCons(a, Split(b, '.'));
    TrimmedIs(a);
  }

  lemma TwoParts(a: string, b: string)
    requires IsSegment(a) && IsSegment(b)
    ensures SplitDottedKey(a + "." + b) == [UnquoteSegment(a), UnquoteSegment(b)]
  {
    OnePart(b);
    MoreParts(a, b);
  }

  lemma ThreeParts(a: string, b: string, c: string)
    requires IsSegment(a) && IsSegment(b) && IsSegment(c)
    ensures SplitDottedKey(Dotted(a, b, c)) == [UnquoteSegment(a), UnquoteSegment(b), UnquoteSegment(c)]
  {
    TwoParts(b, c);
    MoreParts(a, b + "." + c);
    assert Dotted(a, b, c) == a + "." + (b + "." + c);
  }

  lemma QuotedSegment(s: string)
    requires IsSegment(s) && !IsQuote(s[0])
    ensures IsSegment(InQuotes(s)) && UnquoteSegment(InQuotes(s)) == s && UnquoteSegment(s) == s
  {
  }

  // ---------- which lines are a table's header ----------

  function Dots(parts: seq<string>): string
    requires parts != []
  {
    if |parts| == 1 then parts[0] else parts[0] + "." + Dots(parts[1..])
  }

  /** The ways to write one word of a dotted key: bare or in quotes of either kind, with spaces around it. */
  ghost predicate Spells(part: string, word: string) {
    TrimSpace(part) == word || TrimSpace(part) == "\"" + word + "\"" || TrimSpace(part) == "'" + word + "'"
  }

  ghost predicate AreSpelled(parts: seq<string>, words: seq<string>) {
    |parts| == |words| && forall i :: 0 <= i < |parts| ==> '.' !in parts[i] && Spells(parts[i], words[i])
  }

  /** A bracketed dotted key of these words, with spaces around it. */
  ghost function IsHeaderOf(words: seq<string>): string -> bool {
    (line: string) => exists parts :: IsHeaderText(line, parts) && AreSpelled(parts, words)
  }

  ghost predicate IsHeaderText(line: string, parts: seq<string>) {
    parts != [] && TrimSpace(line) == "[" + Dots(parts) + "]" && ']' !in Dots(parts)
  }

  predicate IsWord(word: string) { word != "" && !IsQuote(word[0]) }

  ghost predicate AreWords(words: seq<string>) { forall i :: 0 <= i < |words| ==> IsWord(words[i]) }

  lemma QuotesOff(q: char, word: string)
    requires IsQuote(q)
    ensures UnquoteSegment([q] + word + [q]) == word
  {
    assert ([q] + word + [q])[1..|word| + 1] == word;
  }

  lemma UnquoteKeeps(t: string, word: string)
    requires IsWord(word) && UnquoteSegment(t) == word
    ensures t == word || t == ['"'] + word + ['"'] || t == ['\''] + word + ['\'']
  {
    if t != word {
      assert t == [t[0]] + t[1..|t| - 1] + [t[0]];
    }
  }

  lemma UnquoteSpells(part: string, word: string)
    requires IsWord(word)
    ensures UnquoteSegment(TrimSpace(part)) == word <==> Spells(part, word)
  {
    var t := TrimSpace(part);
    if UnquoteSegment(t) == word {
      UnquoteKeeps(t, word);
    }
    QuotesOff('"', word);
    QuotesOff('\'', word);
  }

  lemma {:induction false} DotsOfSplit(s: string)
    ensures Dots(Split(s, '.')) == s
  {
    if s != "" {
      DotsOfSplit(s[1..]);
      var rest := Split(s[1..], '.');
      if s[0] == '.' {
        assert Split(s, '.')[1..] == rest;
      } else {
        assert Split(s, '.')[1..] == rest[1..];
      }
    }
  }

  lemma {:induction false} SplitOfDots(parts: seq<string>)
    requires parts != [] && forall i :: 0 <= i < |parts| ==> '.' !in parts[i]
    ensures Split(Dots(parts), '.') == parts
  {
    if |parts| == 1 {
      SplitWhole(parts[0], '.');
    } else {
      SplitAt(parts[0], Dots(parts[1..]), '.');
      SplitOfDots(parts[1..]);
      assert parts[0] + "." + Dots(parts[1..]) == parts[0] + ['.'] + Dots(parts[1..]);
    }
  }

  lemma SegmentsSpell(parts: seq<string>, words: seq<string>)
    requires |parts| == |words| && AreWords(words)
    ensures Segments(parts) == words <==> forall i :: 0 <= i < |parts| ==> Spells(parts[i], words[i])
  {
    forall i | 0 <= i < |parts| ensures Segments(parts)[i] == words[i] <==> Spells(parts[i], words[i]) {
      UnquoteSpells(parts[i], words[i]);
    }
  }

  lemma BracketsStay(s: string)
    requires |s| >= 2 && s[0] == '[' && s[|s| - 1] == ']'
    ensures IsHeader(s) <==> |s| >= 3 && ']' !in s[1..|s| - 1]
  {
    assert DropSpaces(s) == s && DropSpacesAtEnd(s) == s;
  }

  lemma {:induction false} DotsStart(parts: seq<string>)
    requires parts != [] && parts[0] != ""
    ensures Dots(parts) != ""
  {
  }

  lemma HeaderInner(line: string, words: seq<string>) returns (inner: string)
    requires HeaderKeyPath(line) == Some(words)
    ensures TrimSpace(line) == "[" + inner + "]" && ']' !in inner && SplitDottedKey(inner) == words
  {
    var s := TrimSpace(line);
    inner := s[1..|s| - 1];
    BracketsStay(s);
    assert s == "[" + inner + "]";
  }

  lemma HeaderIsSpelled(line: string, words: seq<string>)
    requires HeaderKeyPath(line) == Some(words) && AreWords(words)
    ensures IsHeaderOf(words)(line)
  {
    var inner := HeaderInner(line, words);
    var parts := Split(inner, '.');
    DotsOfSplit(inner);
    SplitParts(inner, '.');
    SegmentsSpell(parts, words);
    assert IsHeaderText(line, parts) && AreSpelled(parts, words);
  }

  lemma SpelledIsHeader(line: string, parts: seq<string>, words: seq<string>)
    requires IsHeaderText(line, parts) && AreSpelled(parts, words) && AreWords(words)
    ensures HeaderKeyPath(line) == Some(words)
  {
    var s := TrimSpace(line);
    assert Spells(parts[0], words[0]) && parts[0] != "";
    DotsStart(parts);
    assert s[1..|s| - 1] == Dots(parts);
    BracketsStay(s);
    SplitOfDots(parts);
    SegmentsSpell(parts, words);
  }

  /** A line is a header of a table exactly when it spells the table's words. */
  lemma HeadersOf(line: string, table: string, words: seq<string>)
    requires SplitDottedKey(table) == words && AreWords(words)
    ensures HeaderMatches(line, table) <==> IsHeaderOf(words)(line)
  {
    if HeaderMatches(line, table) {
      HeaderIsSpelled(line, words);
    }
    if parts :| IsHeaderText(line, parts) && AreSpelled(parts, words) {
      SpelledIsHeader(line, parts, words);
    }
  }

  lemma TextOfOne(line: string)
    ensures Text([line]) == line + ['\n']
  {
    assert Text([line]) == line + "\n" + Text([]) && Text([]) == "";
  }

  lemma TextEndsIn(lines: seq<string>)
    requires lines != []
    ensures Text(lines) == Text(lines[..|lines| - 1]) + lines[|lines| - 1] + ['\n']
  {
    var n := |lines| - 1;
    SplitLast(lines);
    TextConcat(lines[..n], [lines[n]]);
    TextOfOne(lines[n]);
  }

  lemma SplitLast<T>(s: seq<T>)
    requires s != []
    ensures s == s[..|s| - 1] + [s[|s| - 1]]
  {
  }

  lemma JoinEndsIn(lines: seq<string>)
    requires lines != []
    ensures Join(lines) == Text(lines[..|lines| - 1]) + lines[|lines| - 1]
  {
    var n := |lines| - 1;
    JoinIsText(lines);
    TextEndsIn(lines);
    SameBeforeLast(Text(lines[..n]) + lines[n], Join(lines), '\n');
  }

  function WithoutLastEmpty(lines: seq<string>): seq<string> {
    if lines != [] && lines[|lines| - 1] == "" then lines[..|lines| - 1] else lines
  }

  /** Joining without a last line feed and adding one if missing drops an empty last line. */
  lemma JoinDropsLastEmpty(lines: seq<string>)
    requires AreLines(lines)
    ensures EnsureTrailingNewline(Join(lines)) == Text(WithoutLastEmpty(lines))
  {
    if lines != [] {
      var n := |lines| - 1;
      JoinEndsIn(lines);
      if lines[n] == "" {
        EndsInNewline(lines[..n]);
        assert Text(lines[..n]) + "" == Text(lines[..n]);
        if n == 0 {
          assert lines[..n] == [];
        }
      } else {
        JoinIsText(lines);
        LastIs(Join(lines), Text(lines[..n]), lines[n]);
      }
    }
  }

  lemma LastIs(all: string, a: string, b: string)
    requires all == a + b && b != "" && '\n' !in b
    ensures all != "" && !HasSuffix(all, "\n")
  {
    assert all[|all| - 1] == b[|b| - 1];
  }

  lemma HeaderIsNotBlank(line: string)
    requires IsHeader(line)
    ensures TrimSpace(line) != ""
  {
    HeaderReads(line);
    var a, name, b :| IsHeaderSplit(line, a, name, b);
    assert line[|a|] == '[' && !IsSpace('[');
    if TrimSpace(line) == "" {
      BlankIsSpace(line, |a|);
    }
  }

  lemma {:induction false} BlankIsSpace(s: string, i: nat)
    requires TrimSpace(s) == "" && i < |s|
    ensures IsSpace(s[i])
    decreases |s|
  {
    if IsSpace(s[0]) {
      if i > 0 {
        assert TrimLeft(s) == TrimLeft(s[1..]);
        BlankIsSpace(s[1..], i - 1);
      }
    } else {
      TrimRightKeepsFirst(s);
    }
  }

  lemma {:induction false} TrimRightKeepsFirst(s: string)
    requires s != "" && !IsSpace(s[0])
    ensures TrimRight(s) != ""
    decreases |s|
  {
    if |s| > 1 {
      TrimRightKeepsFirst(s[..|s| - 1]);
    }
  }

  lemma NotHeader(line: string)
    requires line != "" && line[0] != '[' && !IsPatternSpace(line[0])
    ensures !IsHeader(line)
  {
    assert DropSpaces(line) == line;
    assert DropSpacesAtEnd(line) <= line;
  }

  lemma NoTable(line: string, table: string)
    requires line != "" && line[0] != '[' && TrimSpace(line) == line
    ensures !HeaderMatches(line, table)
  {
  }

  lemma EmptyLine()
    ensures LineDelta("") == 0 && !IsHeader("") && TrimSpace("") == "" && forall table :: !HeaderMatches("", table)
  {
  }

  /** A header written out for a plain name. */
  lemma WrittenHeader(name: string)
    requires name != "" && ']' !in name && NoBrackets(name) && IsUnquoted(name)
    ensures IsHeader("[" + name + "]") && LineDelta("[" + name + "]") == 0
    ensures HeaderKeyPath("[" + name + "]") == Some(SplitDottedKey(name))
  {
    var line := "[" + name + "]";
    assert "" + "[" + name + "]" + "" == line;
    HeaderWrites(line, "", name, "");
    TrimmedIs(line);
    assert line[1..|line| - 1] == name;
    BracketedDelta(name);
  }

  lemma BracketedDelta(name: string)
    requires NoBrackets(name) && IsUnquoted(name)
    ensures LineDelta("[" + name + "]") == 0
  {
    var line := "[" + name + "]";
    StrippedUnquoted(line, "");
    assert line + "" == line && line == "[" + (name + "]");
    BracketsConcat(name, "]");
    NoBracketsCount(name);
    BracketsConcat("[", name + "]");
  }

  // ---------- texts around strings ----------

  predicate EndsPlain(value: string) { value != "" && !IsSpace(value[|value| - 1]) }

  /** Text and double-quoted strings in turn, ending in text. */
  function Filled(texts: seq<string>, strings: seq<string>, tail: string): string
    requires |texts| == |strings|
  {
    if texts == [] then tail else texts[0] + (InQuotes(strings[0]) + Filled(texts[1..], strings[1..], tail))
  }

  function Concat(texts: seq<string>): string { if texts == [] then "" else texts[0] + Concat(texts[1..]) }

  function SumOfBrackets(texts: seq<string>): int {
    if texts == [] then 0 else Brackets(texts[0]) + SumOfBrackets(texts[1..])
  }

  lemma StrippedInQuotes(a: string, s: string, rest: string)
    requires IsUnquoted(a) && '"' !in s
    ensures Stripped(a + (InQuotes(s) + rest), None) == a + Stripped(rest, None)
  {
    assert a + (InQuotes(s) + rest) == a + "\"" + s + "\"" + rest;
    StrippedSegment(a, s, rest);
  }

  /** Without its strings a filled text is its texts; their brackets are all it has. */
  lemma {:induction false} FilledStripped(texts: seq<string>, strings: seq<string>, tail: string)
    requires |texts| == |strings| && IsUnquoted(tail)
    requires forall i :: 0 <= i < |texts| ==> IsUnquoted(texts[i]) && '"' !in strings[i]
    ensures Stripped(Filled(texts, strings, tail), None) == Concat(texts) + tail
    decreases |texts|
  {
    if texts == [] {
      StrippedUnquoted(tail, "");
      assert tail + "" == tail && Concat(texts) + tail == tail;
    } else {
      StrippedInQuotes(texts[0], strings[0], Filled(texts[1..], strings[1..], tail));
      FilledStripped(texts[1..], strings[1..], tail);
      assert texts[0] + (Concat(texts[1..]) + tail) == Concat(texts) + tail;
    }
  }

  lemma {:induction false} ConcatBrackets(texts: seq<string>)
    ensures Brackets(Concat(texts)) == SumOfBrackets(texts)
  {
    if texts != [] {
      ConcatBrackets(texts[1..]);
      BracketsConcat(texts[0], Concat(texts[1..]));
    }
  }

  lemma FilledDelta(lead: string, texts: seq<string>, strings: seq<string>, tail: string)
    requires |texts| == |strings| && IsUnquoted(tail) && IsUnquoted(lead) && NoBrackets(lead)
    requires forall i :: 0 <= i < |texts| ==> IsUnquoted(texts[i]) && '"' !in strings[i]
    ensures LineDelta(lead + Filled(texts, strings, tail)) == SumOfBrackets(texts) + Brackets(tail)
  {
    FilledStripped(texts, strings, tail);
    StrippedUnquoted(lead, Filled(texts, strings, tail));
    ConcatBrackets(texts);
    NoBracketsCount(lead);
    BracketsConcat(lead, Concat(texts) + tail);
    BracketsConcat(Concat(texts), tail);
  }

  lemma {:induction false} FilledEnds(texts: seq<string>, strings: seq<string>, tail: string)
    requires |texts| == |strings| && tail != ""
    ensures var r := Filled(texts, strings, tail); r != "" && r[|r| - 1] == tail[|tail| - 1]
    decreases |texts|
  {
    if texts != [] {
      FilledEnds(texts[1..], strings[1..], tail);
    }
  }

  lemma {:induction false} FilledLacks(texts: seq<string>, strings: seq<string>, tail: string, c: char)
    requires |texts| == |strings| && c !in tail && c != '"'
    requires forall i :: 0 <= i < |texts| ==> c !in texts[i] && c !in strings[i]
    ensures c !in Filled(texts, strings, tail)
    decreases |texts|
  {
    if texts != [] {
      FilledLacks(texts[1..], strings[1..], tail, c);
    }
  }

  lemma TwoOpen(a: string, b: string)
    requires NoBrackets(a) && NoBrackets(b)
    ensures Brackets("{" + a + "{" + b) == 2
  {
    BracketsConcat("{" + a + "{", b);
    BracketsConcat("{" + a, "{");
    BracketsConcat("{", a);
    NoBracketsCount(a);
    NoBracketsCount(b);
  }

  lemma OneOpen(a: string, b: string)
    requires NoBrackets(a) && NoBrackets(b)
    ensures Brackets(a + "{" + b) == 1
  {
    BracketsConcat(a + "{", b);
    BracketsConcat(a, "{");
    NoBracketsCount(a);
    NoBracketsCount(b);
  }

  lemma ThreeClose()
    ensures Brackets(" } } }") == -3
  {
    var a := " }";
    assert " } } }" == a + (a + a);
    BracketsConcat(a, a + a);
    BracketsConcat(a, a);
    assert a[1..] == "}" && Brackets("}") == -1;
  }

  lemma FourTexts(a: string, b: string, c: string, d: string)
    ensures SumOfBrackets([a, b, c, d]) == Brackets(a) + Brackets(b) + Brackets(c) + Brackets(d)
  {
    assert [c, d][1..] == [d] && [b, c, d][1..] == [c, d] && [a, b, c, d][1..] == [b, c, d];
    assert SumOfBrackets([d]) == Brackets(d);
    assert SumOfBrackets([c, d]) == Brackets(c) + SumOfBrackets([d]);
    assert SumOfBrackets([b, c, d]) == Brackets(b) + SumOfBrackets([c, d]);
  }

  /** A text that may stand between strings, with its net brackets. */
  predicate IsText(s: string, n: int) { IsUnquoted(s) && Brackets(s) == n }

  lemma PlainText(s: string)
    requires IsUnquoted(s) && NoBrackets(s)
    ensures IsText(s, 0)
  {
    NoBracketsCount(s);
  }

  /** Four such texts around four strings, balanced in all. */
  lemma FilledAssignment(lead: string, a: string, b: string, c: string, d: string, strings: seq<string>, tail: string)
    requires |strings| == 4 && (forall i :: 0 <= i < 4 ==> '"' !in strings[i]) && IsUnquoted(lead) && NoBrackets(lead)
    requires IsText(a, 2) && IsText(b, 0) && IsText(c, 1) && IsText(d, 0) && IsText(tail, -3) && EndsPlain(tail)
    ensures LineDelta(lead + Filled([a, b, c, d], strings, tail)) == 0 && EndsPlain(Filled([a, b, c, d], strings, tail))
  {
    FourTexts(a, b, c, d);
    FilledDelta(lead, [a, b, c, d], strings, tail);
    FilledEnds([a, b, c, d], strings, tail);
  }

  lemma FourClean(p: string, q: string, r: string, s: string)
    requires '"' !in p && '"' !in q && '"' !in r && '"' !in s
    ensures forall i :: 0 <= i < 4 ==> '"' !in [p, q, r, s][i]
  {
  }

  lemma FourLack(p: string, q: string, r: string, s: string, c: char)
    requires c !in p && c !in q && c !in r && c !in s
    ensures forall i :: 0 <= i < 4 ==> c !in [p, q, r, s][i]
  {
  }
}
