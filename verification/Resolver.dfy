/** The session-file resolver of internal/codexrepo/resolver.go: a cached working directory per Claude session,
    resumed from the cached size when the file grows, and when that agrees with reading the file from its start.
    A file is a string of bytes; json.Unmarshal is a parameter. */
module Resolver {
  import opened Seqs

  const MAX_SESSION_LINE_BYTES: nat := 16 * 1024 * 1024

  datatype ClaudeEvent = ClaudeEvent(sessionId: string, cwd: string)

  /** json.Unmarshal of one line; None is its error. */
  type Parser = string -> Option<ClaudeEvent>

  /** applicableClaudeCWD. */
  function ApplicableCwd(event: ClaudeEvent, id: string, current: string): string {
    if event.cwd == "" || (event.sessionId != "" && event.sessionId != id) then current else event.cwd
  }

  /** The directory a line names for the session, if any. */
  function NamedBy(parse: Parser, id: string): string -> Option<string> {
    line =>
      match parse(line)
      case None => None
      case Some(e) => if e.cwd == "" || (e.sessionId != "" && e.sessionId != id) then None else Some(e.cwd)
  }

  function OrElse(o: Option<string>, current: string): string { if o.Some? then o.value else current }

  // ---------- bufio.Scanner over lines ----------

  /** The position of the first line feed, or the length. */
  function LineEnd(s: string): (n: nat)
    ensures n <= |s|
  {
    if s == "" || s[0] == '\n' then 0 else 1 + LineEnd(s[1..])
  }

  function FirstLine(s: string): string { s[..LineEnd(s)] }

  function AfterLine(s: string): string { if LineEnd(s) == |s| then "" else s[LineEnd(s) + 1..] }

  /** A line without one carriage return at its end. */
  function Token(line: string): string {
    if line != "" && line[|line| - 1] == '\r' then line[..|line| - 1] else line
  }

  predicate IsShort(line: string) { |line| < MAX_SESSION_LINE_BYTES }

  /** The tokens a scanner delivers: a last line without a line feed counts, an over-long line ends the scan. */
  function Scanned(s: string): seq<string>
    decreases |s|
  {
    if s == "" || !IsShort(FirstLine(s)) then [] else [Token(FirstLine(s))] + Scanned(AfterLine(s))
  }

  /** No line too long for the scanner. */
  predicate Fits(s: string)
    decreases |s|
  {
    s == "" || (IsShort(FirstLine(s)) && Fits(AfterLine(s)))
  }

  predicate EndsLine(s: string) { s == "" || s[|s| - 1] == '\n' }

  /** The directory after these lines, read in order. */
  function Latest(named: string -> Option<string>, lines: seq<string>, current: string): string
    decreases |lines|
  {
    if lines == [] then current else Latest(named, lines[1..], OrElse(named(lines[0]), current))
  }

  function FullScan(named: string -> Option<string>, file: string): string { Latest(named, Scanned(file), "") }

  // ---------- what the latest directory is ----------

  ghost predicate NamesAny(named: string -> Option<string>, lines: seq<string>) {
    exists k :: 0 <= k < |lines| && named(lines[k]).Some?
  }

  ghost predicate IsLastNamed(named: string -> Option<string>, lines: seq<string>, cwd: string) {
    exists k ::
      0 <= k < |lines| && named(lines[k]) == Some(cwd) && forall j :: k < j < |lines| ==> named(lines[j]).None?
  }

  lemma NamesAnyOfTail(named: string -> Option<string>, lines: seq<string>)
    requires lines != []
    ensures NamesAny(named, lines) <==> named(lines[0]).Some? || NamesAny(named, lines[1..])
  {
    if k :| 0 <= k < |lines| && named(lines[k]).Some? && k > 0 {
      assert lines[1..][k - 1] == lines[k];
    }
    if k :| 0 <= k < |lines[1..]| && named(lines[1..][k]).Some? {
      assert lines[k + 1] == lines[1..][k];
    }
  }

  lemma LastNamedOfTail(named: string -> Option<string>, lines: seq<string>, cwd: string)
    requires lines != [] && IsLastNamed(named, lines[1..], cwd)
    ensures IsLastNamed(named, lines, cwd)
  {
    var k :| 0 <= k < |lines[1..]| && named(lines[1..][k]) == Some(cwd)
             && forall j :: k < j < |lines[1..]| ==> named(lines[1..][j]).None?;
    forall j | k + 1 < j < |lines| ensures named(lines[j]).None? {
      assert lines[j] == lines[1..][j - 1];
    }
    assert lines[k + 1] == lines[1..][k];
  }

  /** The directory is the one the last naming line gives; without such a line it is the one held before. */
  lemma {:induction false} LatestIsLast(named: string -> Option<string>, lines: seq<string>, current: string)
    ensures if NamesAny(named, lines) then IsLastNamed(named, lines, Latest(named, lines, current))
            else Latest(named, lines, current) == current
    decreases |lines|
  {
    if lines != [] {
      var next := OrElse(named(lines[0]), current);
      LatestIsLast(named, lines[1..], next);
      NamesAnyOfTail(named, lines);
      if NamesAny(named, lines[1..]) {
        LastNamedOfTail(named, lines, Latest(named, lines, current));
      } else if named(lines[0]).Some? {
        forall j | 0 < j < |lines| ensures named(lines[j]).None? {
          assert lines[j] == lines[1..][j - 1];
        }
        assert named(lines[0]) == Some(next);
      }
    }
  }

  /** Two readers of the same lines agree if and only if some line names a directory or they agreed before. */
  lemma {:induction false} LatestAgreeIff(named: string -> Option<string>, lines: seq<string>, a: string, b: string)
    ensures Latest(named, lines, a) == Latest(named, lines, b) <==> NamesAny(named, lines) || a == b
    decreases |lines|
  {
    if lines != [] {
      NamesAnyOfTail(named, lines);
      LatestAgreeIff(named, lines[1..], OrElse(named(lines[0]), a), OrElse(named(lines[0]), b));
    }
  }

  lemma {:induction false} LatestConcat(named: string -> Option<string>, a: seq<string>, b: seq<string>,
                                        current: string)
    ensures Latest(named, a + b, current) == Latest(named, b, Latest(named, a, current))
    decreases |a|
  {
    if a == [] {
      assert a + b == b;
    } else {
      assert (a + b)[0] == a[0] && (a + b)[1..] == a[1..] + b;
      LatestConcat(named, a[1..], b, OrElse(named(a[0]), current));
    }
  }

  // ---------- the records that count ----------

  /** The line is a record that speaks for the session: it has a directory, and no session id or this one. */
  predicate Counts(parse: Parser, id: string, line: string) {
    match parse(line)
    case None => false
    case Some(e) => e.cwd != "" && (e.sessionId == "" || e.sessionId == id)
  }

  ghost predicate AnyCounts(parse: Parser, id: string, lines: seq<string>) {
    exists k :: 0 <= k < |lines| && Counts(parse, id, lines[k])
  }

  ghost predicate IsOfLastRecord(parse: Parser, id: string, lines: seq<string>, cwd: string) {
    exists k ::
      && 0 <= k < |lines| && Counts(parse, id, lines[k]) && parse(lines[k]).value.cwd == cwd
      && forall j :: k < j < |lines| ==> !Counts(parse, id, lines[j])
  }

  /** The directory after reading `lines` on top of `held`: that of the last record that counts, if one does. */
  ghost predicate IsDirectory(parse: Parser, id: string, lines: seq<string>, held: string, cwd: string) {
    if AnyCounts(parse, id, lines) then IsOfLastRecord(parse, id, lines, cwd) else cwd == held
  }

  lemma CountsIsNamed(parse: Parser, id: string, line: string)
    ensures Counts(parse, id, line) <==> NamedBy(parse, id)(line).Some?
    ensures Counts(parse, id, line) ==> NamedBy(parse, id)(line) == Some(parse(line).value.cwd)
  {
  }

  lemma LatestIsDirectory(parse: Parser, id: string, lines: seq<string>, held: string)
    ensures IsDirectory(parse, id, lines, held, Latest(NamedBy(parse, id), lines, held))
  {
    var named := NamedBy(parse, id);
    forall line ensures Counts(parse, id, line) <==> named(line).Some? {
      CountsIsNamed(parse, id, line);
    }
    LatestIsLast(named, lines, held);
    if NamesAny(named, lines) {
      var cwd := Latest(named, lines, held);
      var k :| 0 <= k < |lines| && named(lines[k]) == Some(cwd)
               && forall j :: k < j < |lines| ==> named(lines[j]).None?;
      CountsIsNamed(parse, id, lines[k]);
    }
  }

  // ---------- scanning in two parts ----------

  lemma NoLineFeedAt(s: string, n: int, i: int)
    requires 0 <= i < n <= |s| && '\n' !in s[..n]
    ensures s[i] != '\n'
  {
    assert s[..n][i] == s[i];
  }

  /** LineEnd finds the first line feed. */
  lemma {:induction false} LineEndFinds(s: string)
    ensures '\n' !in s[..LineEnd(s)] && (LineEnd(s) < |s| ==> s[LineEnd(s)] == '\n')
  {
    if s != "" && s[0] != '\n' {
      LineEndFinds(s[1..]);
      assert s[..LineEnd(s)] == [s[0]] + s[1..][..LineEnd(s[1..])];
    }
  }

  lemma {:induction false} LineEndIs(s: string, n: nat)
    requires n <= |s| && '\n' !in s[..n] && (n < |s| ==> s[n] == '\n')
    ensures LineEnd(s) == n
  {
    var m := LineEnd(s);
    LineEndFinds(s);
    if m < n {
      NoLineFeedAt(s, n, m);
    } else if n < m {
      NoLineFeedAt(s, m, n);
    }
  }

  lemma WholeLine(s: string)
    requires '\n' !in s
    ensures FirstLine(s) == s && AfterLine(s) == ""
  {
    assert s[..|s|] == s;
    LineEndIs(s, |s|);
  }

  lemma EndedLineEnds(a: string)
    requires a != "" && EndsLine(a)
    ensures LineEnd(a) < |a| && EndsLine(AfterLine(a))
  {
    LineEndFinds(a);
    if LineEnd(a) == |a| {
      NoLineFeedAt(a, |a|, |a| - 1);
    }
  }

  lemma LinesOfConcat(a: string, b: string)
    requires a != "" && EndsLine(a)
    ensures FirstLine(a + b) == FirstLine(a) && AfterLine(a + b) == AfterLine(a) + b && EndsLine(AfterLine(a))
  {
    EndedLineEnds(a);
    LineEndFinds(a);
    var n := LineEnd(a);
    assert (a + b)[..n] == a[..n];
    LineEndIs(a + b, n);
    assert (a + b)[n + 1..] == a[n + 1..] + b;
  }

  lemma ScannedStep(a: string, b: string)
    requires a != "" && EndsLine(a)
    ensures Scanned(a + b) == if IsShort(FirstLine(a)) then [Token(FirstLine(a))] + Scanned(AfterLine(a) + b) else []
  {
    LinesOfConcat(a, b);
  }

  lemma PartsOfScan(head: string, a: seq<string>, b: seq<string>)
    ensures [head] + (a + b) == ([head] + a) + b
  {
  }

  /** At the end of a line a scan splits in two, unless it stopped earlier. */
  lemma {:induction false} ScannedConcat(a: string, b: string)
    requires EndsLine(a)
    ensures Scanned(a + b) == if Fits(a) then Scanned(a) + Scanned(b) else Scanned(a)
    decreases |a|
  {
    if a == "" {
      assert a + b == b;
    } else {
      EndedLineEnds(a);
      ScannedStep(a, b);
      ScannedConcat(AfterLine(a), b);
      PartsOfScan(Token(FirstLine(a)), Scanned(AfterLine(a)), Scanned(b));
    }
  }

  lemma {:induction false} FitsConcat(a: string, b: string)
    requires EndsLine(a)
    ensures Fits(a + b) <==> Fits(a) && Fits(b)
    decreases |a|
  {
    if a == "" {
      assert a + b == b;
    } else {
      LinesOfConcat(a, b);
      FitsConcat(AfterLine(a), b);
    }
  }

  /** Resuming at the end of a line with directory `c` gives what a full scan gives, if and only if some line
      read names a directory or `c` is the directory before the resumption point. */
  lemma ResumeIff(named: string -> Option<string>, before: string, rest: string, c: string)
    requires EndsLine(before) && Fits(before)
    ensures Latest(named, Scanned(rest), c) == FullScan(named, before + rest)
            <==> NamesAny(named, Scanned(rest)) || c == FullScan(named, before)
  {
    ScannedConcat(before, rest);
    LatestConcat(named, Scanned(before), Scanned(rest), "");
    LatestAgreeIff(named, Scanned(rest), c, FullScan(named, before));
  }

  /** A cached prefix can be resumed after however the file grows if and only if none of its lines is over-long,
      given that some line names another directory. */
  lemma OverlongIff(named: string -> Option<string>, before: string, line: string)
    requires EndsLine(before) && '\n' !in line && line != "" && IsShort(line)
    requires named(Token(line)).Some? && named(Token(line)).value != FullScan(named, before)
    ensures (forall rest ::
               Latest(named, Scanned(rest), FullScan(named, before)) == FullScan(named, before + rest)) <==>
                 Fits(before)
  {
    if Fits(before) {
      forall rest ensures Latest(named, Scanned(rest), FullScan(named, before)) == FullScan(named, before + rest) {
        ResumeIff(named, before, rest, FullScan(named, before));
      }
    } else {
      WholeLine(line);
      ScannedConcat(before, line);
      assert Scanned(line) == [Token(line)];
      assert Latest(named, [Token(line)], FullScan(named, before)) == named(Token(line)).value;
    }
  }

  lemma LineThenScanned(line: string, end: string, rest: string)
    requires '\n' !in line && IsShort(line) && line + end != "" && (end == "\n" || (end == "" && rest == ""))
    ensures Scanned(line + end + rest) == [Token(line)] + Scanned(rest)
  {
    if end == "" {
      WholeLine(line);
      assert line + end + rest == line;
      assert Scanned(line) == [Token(line)] + Scanned("");
    } else {
      var s := line + end + rest;
      assert s[..|line|] == line && s[|line|] == '\n' && s[|line| + 1..] == rest;
      LineEndIs(s, |line|);
      assert FirstLine(s) == line && AfterLine(s) == rest;
    }
  }

  /** Lines, each ended by a line feed. */
  function TextOf(lines: seq<string>): string {
    if lines == [] then "" else lines[0] + "\n" + TextOf(lines[1..])
  }

  /** A line that is not too long, 16 MiB being. */
  ghost predicate IsPlain(line: string) { '\n' !in line && |line| < 16_777_216 }

  /** The line but for one carriage return at its end. */
  ghost predicate IsToken(line: string, token: string) {
    line == token + "\r" || (line == token && (line == "" || line[|line| - 1] != '\r'))
  }

  ghost predicate AreTokens(lines: seq<string>, tokens: seq<string>) {
    |tokens| == |lines| && forall i :: 0 <= i < |lines| ==> IsToken(lines[i], tokens[i])
  }

  lemma TokenIs(line: string)
    ensures IsToken(line, Token(line))
  {
    if line != "" && line[|line| - 1] == '\r' {
      assert line == line[..|line| - 1] + "\r";
    }
  }

  lemma PlainLine(line: string, rest: string)
    requires IsPlain(line)
    ensures Scanned(line + "\n" + rest) == [Token(line)] + Scanned(rest) && IsToken(line, Token(line))
  {
    LineThenScanned(line, "\n", rest);
    TokenIs(line);
  }

  lemma LastLine(last: string)
    requires IsPlain(last)
    ensures AreTokens(if last == "" then [] else [last], Scanned(last))
  {
    if last != "" {
      LineThenScanned(last, "", "");
      assert last + "" + "" == last;
      assert Scanned(last) == [Token(last)];
      TokenIs(last);
    }
  }

  lemma OneMoreToken(lines: seq<string>, tokens: seq<string>, line: string, token: string)
    requires AreTokens(lines, tokens) && IsToken(line, token)
    ensures AreTokens([line] + lines, [token] + tokens)
  {
  }

  lemma TextOfHead(lines: seq<string>, rest: string)
    requires lines != []
    ensures TextOf(lines) + rest == lines[0] + "\n" + (TextOf(lines[1..]) + rest)
  {
  }

  lemma TokensOfHead(line: string, lines: seq<string>, rest: string)
    requires IsPlain(line) && AreTokens(lines, Scanned(rest))
    ensures AreTokens([line] + lines, Scanned(line + "\n" + rest))
  {
    PlainLine(line, rest);
    OneMoreToken(lines, Scanned(rest), line, Token(line));
  }

  /** A scanner delivers the lines of a text, the last one with or without its line feed. */
  lemma {:induction false} ScansLines(lines: seq<string>, last: string, end: seq<string>)
    requires (forall i :: 0 <= i < |lines| ==> IsPlain(lines[i])) && IsPlain(last)
    requires end == if last == "" then [] else [last]
    ensures AreTokens(lines + end, Scanned(TextOf(lines) + last))
    decreases |lines|
  {
    if lines == [] {
      assert TextOf(lines) + last == last && lines + end == end;
      LastLine(last);
    } else {
      ScansLines(lines[1..], last, end);
      TextOfHead(lines, last);
      ConsTokens(lines, end, TextOf(lines[1..]) + last);
    }
  }

  lemma ConsTokens(lines: seq<string>, end: seq<string>, rest: string)
    requires lines != [] && IsPlain(lines[0]) && AreTokens(lines[1..] + end, Scanned(rest))
    ensures AreTokens(lines + end, Scanned(lines[0] + "\n" + rest))
  {
    TokensOfHead(lines[0], lines[1..] + end, rest);
    assert [lines[0]] + (lines[1..] + end) == lines + end;
  }

  lemma LongLine(long: string, rest: string)
    requires '\n' !in long && |long| >= 16_777_216 && (rest == "" || rest[0] == '\n')
    ensures Scanned(long + rest) == []
  {
    assert (long + rest)[..|long|] == long;
    LineEndIs(long + rest, |long|);
  }

  /** A line that is too long ends the scan: neither it nor what follows it is read. */
  lemma {:induction false} ScanStops(lines: seq<string>, long: string, rest: string)
    requires forall i :: 0 <= i < |lines| ==> IsPlain(lines[i])
    requires '\n' !in long && |long| >= 16_777_216 && (rest == "" || rest[0] == '\n')
    ensures AreTokens(lines, Scanned(TextOf(lines) + (long + rest)))
    decreases |lines|
  {
    var s := long + rest;
    if lines == [] {
      assert TextOf(lines) + s == s;
      LongLine(long, rest);
    } else {
      ScanStops(lines[1..], long, rest);
      TextOfHead(lines, s);
      assert lines[1..] + [] == lines[1..] && lines + [] == lines;
      ConsTokens(lines, [], TextOf(lines[1..]) + s);
    }
  }

  lemma LatestOfLine(named: string -> Option<string>, line: string, lines: seq<string>, c: string)
    ensures Latest(named, [line] + lines, c) == Latest(named, lines, OrElse(named(line), c))
  {
    assert ([line] + lines)[1..] == lines;
  }

  lemma FullScanOfLine(named: string -> Option<string>, before: string, line: string, end: string, rest: string)
    requires EndsLine(before) && Fits(before)
    requires '\n' !in line && IsShort(line) && line + end != "" && (end == "\n" || (end == "" && rest == ""))
    ensures FullScan(named, before + (line + end + rest))
            == Latest(named, Scanned(rest), OrElse(named(Token(line)), FullScan(named, before)))
  {
    LineThenScanned(line, end, rest);
    ScannedConcat(before, line + end + rest);
    LatestConcat(named, Scanned(before), [Token(line)] + Scanned(rest), "");
    LatestOfLine(named, Token(line), Scanned(rest), FullScan(named, before));
  }

  /** Resuming inside the line `u + t`, after `u`, agrees with a full scan if and only if a later line names a
      directory, or what `t` alone says on top of the cached directory is what the whole line says on top of the
      one before it. The line may be the last one, without a line feed. */
  lemma MidLineIff(named: string -> Option<string>, before: string, u: string, t: string, end: string, rest: string,
                   c: string)
    requires EndsLine(before) && Fits(before) && '\n' !in u && '\n' !in t && IsShort(u + t)
    requires t + end != "" && (end == "\n" || (end == "" && rest == ""))
    ensures Latest(named, Scanned(t + end + rest), c) == FullScan(named, before + ((u + t) + end + rest))
            <==> NamesAny(named, Scanned(rest))
                 || OrElse(named(Token(t)), c) == OrElse(named(Token(u + t)), FullScan(named, before))
  {
    LineThenScanned(t, end, rest);
    LatestOfLine(named, Token(t), Scanned(rest), c);
    FullScanOfLine(named, before, u + t, end, rest);
    LatestAgreeIff(named, Scanned(rest), OrElse(named(Token(t)), c),
                   OrElse(named(Token(u + t)), FullScan(named, before)));
  }

  // ---------- a file that grows ----------

  /** What follows the last line feed. */
  function Unfinished(s: string): (r: string)
    ensures |r| <= |s| && s[|s| - |r|..] == r && '\n' !in r && EndsLine(s[..|s| - |r|])
  {
    if EndsLine(s) then "" else
    var r := Unfinished(s[..|s| - 1]);
    assert s[|s| - 1 - |r|..] == r + [s[|s| - 1]];
    assert s[..|s| - 1 - |r|] == s[..|s| - 1][..|s| - 1 - |r|];
    r + [s[|s| - 1]]
  }

  /** The line of `g` that begins where the unfinished line of `f` begins. */
  function Finished(f: string, g: string): string
    requires f <= g
  {
    FirstLine(g[|f| - |Unfinished(f)|..])
  }

  /** An unfinished line that already names a directory names one when finished. */
  predicate IsSettled(named: string -> Option<string>, f: string, g: string)
    requires f <= g
  {
    Unfinished(f) != "" && named(Token(Unfinished(f))).Some? ==> named(Token(Finished(f, g))).Some?
  }

  lemma NamesAnyConcat(named: string -> Option<string>, a: seq<string>, b: seq<string>)
    ensures NamesAny(named, a + b) <==> NamesAny(named, a) || NamesAny(named, b)
  {
    if k :| 0 <= k < |a| && named(a[k]).Some? {
      assert (a + b)[k] == a[k];
    }
    if k :| 0 <= k < |b| && named(b[k]).Some? {
      assert (a + b)[|a| + k] == b[k];
    }
  }

  lemma LastIs(s: string, n: int)
    requires 0 < n <= |s|
    ensures EndsLine(s[..n]) <==> s[n - 1] == '\n'
  {
    assert s[..n][|s[..n]| - 1] == s[n - 1];
  }

  lemma NotInTail(f: string, r: string, i: int)
    requires |r| <= |f| && f[|f| - |r|..] == r && '\n' !in r && |f| - |r| <= i < |f|
    ensures f[i] != '\n'
  {
    assert f[i] == r[i - (|f| - |r|)];
  }

  lemma TailFrom(f: string, r: string, n: nat)
    requires |r| <= |f| && f[|f| - |r|..] == r && '\n' !in r && EndsLine(f[..|f| - |r|])
    requires n <= |f| && EndsLine(f[..n])
    ensures |r| <= |f| - n && EndsLine(f[n..|f| - |r|])
  {
    var start := |f| - |r|;
    if start < n {
      LastIs(f, n);
      NotInTail(f, r, n - 1);
    } else if start > n {
      LastIs(f, start);
      assert f[n..start][start - n - 1] == f[start - 1];
    }
  }

  lemma UnfinishedFrom(f: string, n: nat)
    requires n <= |f| && EndsLine(f[..n])
    ensures |Unfinished(f)| <= |f| - n && EndsLine(f[n..|f| - |Unfinished(f)|])
  {
    TailFrom(f, Unfinished(f), n);
  }

  lemma OneToken(named: string -> Option<string>, r: string)
    requires '\n' !in r
    ensures NamesAny(named, Scanned(r)) ==> r != "" && named(Token(r)).Some?
  {
    WholeLine(r);
    if r != "" && IsShort(r) {
      assert Scanned(r) == [Token(r)];
    }
  }

  lemma FirstNames(named: string -> Option<string>, t: string)
    requires t != "" && Fits(t) && named(Token(FirstLine(t))).Some?
    ensures NamesAny(named, Scanned(t))
  {
    assert Scanned(t)[0] == Token(FirstLine(t));
  }

  /** An unfinished line names a directory only if its finished form does. */
  lemma SettledNames(named: string -> Option<string>, f: string, g: string, r: string, t: string)
    requires f <= g && IsSettled(named, f, g) && r == Unfinished(f) && t == g[|f| - |r|..] && Fits(t)
    ensures NamesAny(named, Scanned(r)) ==> NamesAny(named, Scanned(t))
  {
    OneToken(named, r);
    if NamesAny(named, Scanned(r)) {
      FirstNames(named, t);
    }
  }

  lemma SlicesAt(f: string, g: string, n: nat, m: nat)
    requires f <= g && n <= m <= |f|
    ensures f[n..] == f[n..m] + f[m..] && g[n..] == f[n..m] + g[m..]
  {
    SplitAt(f, n, m);
    SplitAt(g, n, m);
    SameSlice(f, g, n, m);
  }

  /** What follows the resumption point: whole lines, and the unfinished line before and after the growth. */
  lemma GrowthSlices(f: string, g: string, n: nat) returns (q: string, r: string, t: string)
    requires f <= g && n <= |f| && EndsLine(f[..n])
    ensures f[n..] == q + r && g[n..] == q + t && EndsLine(q) && r == Unfinished(f) && t == g[|f| - |r|..]
  {
    UnfinishedFrom(f, n);
    r := Unfinished(f);
    SlicesAt(f, g, n, |f| - |r|);
    q, t := f[n..|f| - |r|], g[|f| - |r|..];
  }

  /** Growth keeps a naming line among those after the resumption point. */
  lemma GrowthKeepsNames(named: string -> Option<string>, f: string, g: string, n: nat)
    requires f <= g && n <= |f| && EndsLine(f[..n]) && Fits(g[n..]) && IsSettled(named, f, g)
    ensures NamesAny(named, Scanned(f[n..])) ==> NamesAny(named, Scanned(g[n..]))
  {
    var q, r, t := GrowthSlices(f, g, n);
    GrowthOfParts(named, f, g, q, r, t);
  }

  lemma GrowthOfParts(named: string -> Option<string>, f: string, g: string, q: string, r: string, t: string)
    requires f <= g && IsSettled(named, f, g) && r == Unfinished(f) && t == g[|f| - |r|..]
    requires EndsLine(q) && Fits(q + t)
    ensures NamesAny(named, Scanned(q + r)) ==> NamesAny(named, Scanned(q + t))
  {
    TwoParts(named, q, r, t);
    SettledNames(named, f, g, r, t);
  }

  lemma SameSlice(f: string, g: string, n: nat, m: nat)
    requires f <= g && n <= m <= |f|
    ensures f[n..m] == g[n..m]
  {
  }

  lemma SplitAt(s: string, n: nat, m: nat)
    requires n <= m <= |s|
    ensures s[n..] == s[n..m] + s[m..]
  {
  }

  lemma TwoParts(named: string -> Option<string>, q: string, r: string, t: string)
    requires EndsLine(q) && Fits(q + t)
    ensures Fits(t)
    ensures NamesAny(named, Scanned(q + r)) <==> NamesAny(named, Scanned(q)) || NamesAny(named, Scanned(r))
    ensures NamesAny(named, Scanned(q + t)) <==> NamesAny(named, Scanned(q)) || NamesAny(named, Scanned(t))
  {
    FitsConcat(q, t);
    ScannedConcat(q, r);
    ScannedConcat(q, t);
    NamesAnyConcat(named, Scanned(q), Scanned(r));
    NamesAnyConcat(named, Scanned(q), Scanned(t));
  }

  /** Resuming a grown file from a line boundary, with the directory an earlier read found even beyond it. */
  lemma GrowthResumes(named: string -> Option<string>, f: string, g: string, n: nat)
    requires f <= g && n <= |f| && EndsLine(f[..n]) && Fits(g) && IsSettled(named, f, g)
    ensures Latest(named, Scanned(g[n..]), FullScan(named, f)) == FullScan(named, g)
  {
    SplitAt(f, 0, n);
    SplitAt(g, 0, n);
    SameSlice(f, g, 0, n);
    FitsConcat(f[..n], g[n..]);
    GrowthKeepsNames(named, f, g, n);
    GrownParts(named, f[..n], f[n..], g[n..]);
  }

  lemma GrownParts(named: string -> Option<string>, before: string, seen: string, rest: string)
    requires EndsLine(before) && Fits(before) && (NamesAny(named, Scanned(seen)) ==> NamesAny(named, Scanned(rest)))
    ensures Latest(named, Scanned(rest), FullScan(named, before + seen)) == FullScan(named, before + rest)
  {
    GrowthIff(named, before, seen, rest);
    ScannedConcat(before, seen);
    LatestConcat(named, Scanned(before), Scanned(seen), "");
    LatestIsLast(named, Scanned(seen), FullScan(named, before));
  }

  /** Resuming at a line boundary after an earlier read went beyond it, into `seen`: it agrees with a full scan if
      and only if a line after the boundary now names a directory or `seen` left the directory as it was. */
  lemma GrowthIff(named: string -> Option<string>, before: string, seen: string, rest: string)
    requires EndsLine(before) && Fits(before)
    ensures Latest(named, Scanned(rest), FullScan(named, before + seen)) == FullScan(named, before + rest)
            <==> NamesAny(named, Scanned(rest)) || FullScan(named, before + seen) == FullScan(named, before)
  {
    ResumeIff(named, before, rest, FullScan(named, before + seen));
  }

  // ---------- the cache ----------

  datatype Entry = Entry(path: string, size: nat, modTime: int, cwd: string)

  datatype Info = Info(size: nat, modTime: int)

  predicate CacheUnchanged(cached: Option<Entry>, path: string, info: Info) {
    cached.Some? && cached.value.path == path && cached.value.size == info.size && cached.value.modTime == info.modTime
  }

  function ResumePoint(cached: Option<Entry>, path: string, size: nat): (string, nat) {
    if cached.Some? && cached.value.path == path && cached.value.size <= size then (cached.value.cwd, cached.value.size)
    else ("", 0)
  }

  function After(file: string, offset: nat): string { if offset <= |file| then file[offset..] else "" }

  /** The entry for a session after a call that found `path`, got `info` from stat and then read `file`; None is
      a file that could not be opened. */
  function Resolved(named: string -> Option<string>, cached: Option<Entry>, path: string, info: Info,
                    file: Option<string>): Entry {
    if CacheUnchanged(cached, path, info) then cached.value
    else
      var (cwd, offset) := ResumePoint(cached, path, info.size);
      Entry(path, info.size, info.modTime,
            if file.None? then cwd else Latest(named, Scanned(After(file.value, offset)), cwd))
  }

  /** What the file says from `offset` on, on top of `held`; nothing when it could not be opened. */
  ghost predicate IsRead(parse: Parser, id: string, file: Option<string>, offset: nat, held: string, cwd: string) {
    match file
    case None => cwd == held
    case Some(f) => IsDirectory(parse, id, Scanned(if offset <= |f| then f[offset..] else ""), held, cwd)
  }

  /** The answer to a call: the cached entry when path, size and time are as cached; else what the file says from
      the cached size on, on top of the cached directory, when it did not shrink; else what it says from its start. */
  ghost function IsAnswer(parse: Parser, id: string, cached: Option<Entry>, path: string, info: Info,
                          file: Option<string>): Entry -> bool {
    (entry: Entry) =>
      if cached.Some? && cached.value.path == path && cached.value.size == info.size
         && cached.value.modTime == info.modTime
      then entry == cached.value
      else
        && entry == Entry(path, info.size, info.modTime, entry.cwd)
        && if cached.Some? && cached.value.path == path && cached.value.size <= info.size
           then IsRead(parse, id, file, cached.value.size, cached.value.cwd, entry.cwd)
           else IsRead(parse, id, file, 0, "", entry.cwd)
  }

  // ---------- any sequence of calls on one file ----------

  /** What one call meets: the stat result, and the file when it is read. */
  datatype Visit = Visit(info: Info, file: string)

  /** The cached entry after these calls. */
  function Replay(named: string -> Option<string>, path: string, visits: seq<Visit>): Option<Entry> {
    if visits == [] then None else
    var v := visits[|visits| - 1];
    Some(Resolved(named, Replay(named, path, visits[..|visits| - 1]), path, v.info, Some(v.file)))
  }

  /** The stat'd size is a line boundary of the file, which may have grown since, and no line is over-long. */
  predicate IsVisit(v: Visit) { v.info.size <= |v.file| && EndsLine(v.file[..v.info.size]) && Fits(v.file) }

  /** Between two calls the file grew, or it was cut or rewritten to less than the size seen before. */
  predicate Follows(named: string -> Option<string>, v: Visit, w: Visit) {
    || w.info.size < v.info.size
    || (v.file <= w.file && |v.file| <= w.info.size && IsSettled(named, v.file, w.file))
  }

  ghost predicate AreVisits(named: string -> Option<string>, visits: seq<Visit>) {
    && (forall i :: 0 <= i < |visits| ==> IsVisit(visits[i]))
    && (forall i :: 0 < i < |visits| ==> Follows(named, visits[i - 1], visits[i]))
  }

  /** The contents the last call answers for: up to the stat'd size when it did not read the file. */
  function Seen(named: string -> Option<string>, path: string, visits: seq<Visit>): string
    requires visits != [] && IsVisit(visits[|visits| - 1])
  {
    var v := visits[|visits| - 1];
    if CacheUnchanged(Replay(named, path, visits[..|visits| - 1]), path, v.info) then v.file[..v.info.size] else v.file
  }

  lemma EndedIsSettled(named: string -> Option<string>, f: string, g: string)
    requires f <= g && EndsLine(f)
    ensures IsSettled(named, f, g)
  {
  }

  lemma {:induction false} LastVisits(named: string -> Option<string>, visits: seq<Visit>)
    requires AreVisits(named, visits) && |visits| > 1
    ensures AreVisits(named, visits[..|visits| - 1]) && Follows(named, visits[|visits| - 2], visits[|visits| - 1])
  {
    var n := |visits|;
    assert Follows(named, visits[n - 1 - 1], visits[n - 1]);
  }

  /** One call after another: what was seen before is still there, or the file is read from its start. */
  lemma VisitResumes(named: string -> Option<string>, path: string, v: Visit, w: Visit, seen: string, e: Entry)
    requires IsVisit(v) && IsVisit(w) && Follows(named, v, w) && (seen == v.file || seen == v.file[..v.info.size])
    requires e == Entry(path, v.info.size, v.info.modTime, FullScan(named, seen))
    ensures CacheUnchanged(Some(e), path, w.info) ==> seen == w.file[..w.info.size]
    ensures !CacheUnchanged(Some(e), path, w.info) ==>
              Resolved(named, Some(e), path, w.info, Some(w.file)).cwd == FullScan(named, w.file)
  {
    if w.info.size < v.info.size {
      assert w.file[0..] == w.file;
    } else {
      assert seen <= w.file;
      if seen != v.file {
        EndedIsSettled(named, seen, w.file);
      }
      assert seen[..v.info.size] == v.file[..v.info.size];
      GrowthResumes(named, seen, w.file, v.info.size);
      if w.info.size == v.info.size {
        assert seen == w.file[..w.info.size];
      }
    }
  }

  /** Incremental equals full: over any sequence of growths and truncations, each call answers what reading the
      file from its start would, although an earlier call may have read past the size it cached. */
  lemma {:induction false} ResumedIsFull(named: string -> Option<string>, path: string, visits: seq<Visit>)
    requires AreVisits(named, visits) && visits != []
    ensures var v := visits[|visits| - 1];
            Replay(named, path, visits) ==
              Some(Entry(path, v.info.size, v.info.modTime, FullScan(named, Seen(named, path, visits))))
    decreases |visits|
  {
    var v := visits[|visits| - 1];
    var earlier := visits[..|visits| - 1];
    if earlier == [] {
      assert v.file[0..] == v.file;
    } else {
      LastVisits(named, visits);
      ResumedIsFull(named, path, earlier);
      VisitResumes(named, path, visits[|visits| - 2], v, Seen(named, path, earlier),
                   Replay(named, path, earlier).value);
    }
  }

  // ---------- where it fails ----------

  lemma Regroup(b: string, u: string, t: string)
    ensures b + ((u + t) + "\n" + "") == (b + u) + (t + "\n" + "")
  {
  }

  lemma FullScanOfPart(named: string -> Option<string>, b: string, u: string)
    requires EndsLine(b) && Fits(b) && u != "" && '\n' !in u && IsShort(u)
    ensures FullScan(named, b + u) == OrElse(named(Token(u)), FullScan(named, b))
  {
    FullScanOfLine(named, b, u, "", "");
    assert b + (u + "" + "") == b + u;
  }

  lemma EmptyReads(named: string -> Option<string>, c: string)
    ensures Latest(named, Scanned(""), c) == c
  {
  }

  lemma ReadRest(named: string -> Option<string>, path: string, e: Entry, later: Info, file: string, front: string,
                 rest: string)
    requires e.path == path && e.size == |front| && file == front + rest && e.size < later.size
    ensures Resolved(named, Some(e), path, later, Some(file)).cwd == Latest(named, Scanned(rest), e.cwd)
  {
    ResolvedFrom(named, path, e, later, file);
    assert file[|front|..] == rest;
  }

  /** A stat'd size inside a line loses what the line says: for every line u + t that names a directory although
      neither u nor t alone does, a call that saw only u and the next one, on the finished line, leave the
      directory as it was. */
  lemma MidLineLosesRecord(named: string -> Option<string>, path: string, b: string, u: string, t: string, info: Info,
                           later: Info)
    requires EndsLine(b) && Fits(b) && u != "" && '\n' !in u && '\n' !in t && IsShort(u + t)
    requires named(Token(u)).None? && named(Token(t)).None? && named(Token(u + t)).Some?
    requires info.size == |b + u| < later.size
    ensures var first := Entry(path, info.size, info.modTime, FullScan(named, b + u));
            var file := b + ((u + t) + "\n" + "");
            && Resolved(named, Some(first), path, later, Some(file)).cwd == FullScan(named, b)
            && FullScan(named, file) == named(Token(u + t)).value
  {
    var first := Entry(path, info.size, info.modTime, FullScan(named, b + u));
    Regroup(b, u, t);
    FullScanOfPart(named, b, u);
    FullScanOfLine(named, b, u + t, "\n", "");
    LineThenScanned(t, "\n", "");
    LatestOfLine(named, Token(t), Scanned(""), FullScan(named, b));
    EmptyReads(named, FullScan(named, b));
    EmptyReads(named, named(Token(u + t)).value);
    ReadRest(named, path, first, later, b + ((u + t) + "\n" + ""), b + u, t + "\n" + "");
  }

  /** For every unfinished line u that names a directory although the finished line u + t does not, a read beyond
      the stat'd size leaves that directory behind. */
  lemma UnsettledStays(named: string -> Option<string>, path: string, b: string, u: string, t: string, info: Info,
                       later: Info)
    requires EndsLine(b) && Fits(b) && u != "" && '\n' !in u && '\n' !in t && IsShort(u + t)
    requires named(Token(u)).Some? && named(Token(u + t)).None?
    requires info.size == |b| < later.size
    ensures var first := Entry(path, info.size, info.modTime, FullScan(named, b + u));
            var file := b + ((u + t) + "\n" + "");
            && Resolved(named, Some(first), path, later, Some(file)).cwd == named(Token(u)).value
            && FullScan(named, file) == FullScan(named, b)
  {
    var first := Entry(path, info.size, info.modTime, FullScan(named, b + u));
    FullScanOfPart(named, b, u);
    FullScanOfLine(named, b, u + t, "\n", "");
    LineThenScanned(u + t, "\n", "");
    LatestOfLine(named, Token(u + t), Scanned(""), named(Token(u)).value);
    EmptyReads(named, FullScan(named, b));
    EmptyReads(named, named(Token(u)).value);
    ReadRest(named, path, first, later, b + ((u + t) + "\n" + ""), b, (u + t) + "\n" + "");
  }

  lemma FailedOpenKeeps(named: string -> Option<string>, path: string, cached: Entry, info: Info)
    requires cached.path == path && cached.size < info.size
    ensures Resolved(named, Some(cached), path, info, None) == Entry(path, info.size, info.modTime, cached.cwd)
  {
  }

  lemma ResolvedFrom(named: string -> Option<string>, path: string, e: Entry, later: Info, file: string)
    requires e.path == path && e.size <= later.size && e.size <= |file| && later != Info(e.size, e.modTime)
    ensures Resolved(named, Some(e), path, later, Some(file)).cwd == Latest(named, Scanned(file[e.size..]), e.cwd)
  {
  }

  /** A file that could not be opened is cached as read to its stat'd size. The next call makes up for it if and
      only if a line after that size names a directory or the skipped lines leave the directory as it was. */
  lemma FailedOpenIff(named: string -> Option<string>, path: string, cached: Entry, info: Info, later: Info,
                      file: string)
    requires cached.path == path && cached.size < info.size <= later.size && info.size <= |file| && Fits(file)
             && later != info
    requires EndsLine(file[..info.size]) && cached.cwd == FullScan(named, file[..cached.size])
    ensures var failed := Resolved(named, Some(cached), path, info, None);
            Resolved(named, Some(failed), path, later, Some(file)).cwd == FullScan(named, file)
            <==> NamesAny(named, Scanned(file[info.size..])) || FullScan(named, file[..info.size]) == cached.cwd
  {
    FailedOpenKeeps(named, path, cached, info);
    ResolvedFrom(named, path, Entry(path, info.size, info.modTime, cached.cwd), later, file);
    SkippedIff(named, file, info.size, cached.cwd);
  }

  lemma SkippedIff(named: string -> Option<string>, file: string, n: nat, c: string)
    requires n <= |file| && EndsLine(file[..n]) && Fits(file)
    ensures Latest(named, Scanned(file[n..]), c) == FullScan(named, file)
            <==> NamesAny(named, Scanned(file[n..])) || FullScan(named, file[..n]) == c
  {
    SplitAt(file, 0, n);
    FitsConcat(file[..n], file[n..]);
    ResumeIff(named, file[..n], file[n..], c);
  }

  // ---------- the resolver ----------

  /** What one call meets on disk: the session files a directory walk finds, in order, and per path its stat
      result and contents, None for an error. */
  datatype Disk = Disk(walked: seq<(string, string)>, stat: string -> Option<Info>, contents: string -> Option<string>)

  /** The index with the walked files added; the first path of a session stays. */
  function Indexed(index: map<string, string>, walked: seq<(string, string)>): map<string, string>
    decreases |walked|
  {
    if walked == [] then index
    else Indexed(if walked[0].0 in index then index else index[walked[0].0 := walked[0].1], walked[1..])
  }

  ghost predicate IsFirstPath(walked: seq<(string, string)>, id: string, path: string) {
    exists k :: 0 <= k < |walked| && walked[k] == (id, path) && forall j :: 0 <= j < k ==> walked[j].0 != id
  }

  ghost predicate IsWalked(walked: seq<(string, string)>, id: string) {
    exists k :: 0 <= k < |walked| && walked[k].0 == id
  }

  /** A session already indexed keeps its path; another one gets the first path walked for it, if there is one. */
  ghost predicate IsIndexed(index: map<string, string>, walked: seq<(string, string)>, id: string,
                            r: map<string, string>) {
    if id in index then id in r && r[id] == index[id]
    else if IsWalked(walked, id) then id in r && IsFirstPath(walked, id, r[id])
    else id !in r
  }

  lemma WalkedTail(walked: seq<(string, string)>, id: string)
    requires walked != [] && walked[0].0 != id
    ensures IsWalked(walked, id) <==> IsWalked(walked[1..], id)
    ensures forall path :: IsFirstPath(walked[1..], id, path) ==> IsFirstPath(walked, id, path)
  {
    if k :| 0 <= k < |walked| && walked[k].0 == id {
      assert walked[1..][k - 1] == walked[k];
    }
    if k :| 0 <= k < |walked[1..]| && walked[1..][k].0 == id {
      assert walked[k + 1] == walked[1..][k];
    }
    forall path | IsFirstPath(walked[1..], id, path) ensures IsFirstPath(walked, id, path) {
      var k :| 0 <= k < |walked[1..]| && walked[1..][k] == (id, path)
               && forall j :: 0 <= j < k ==> walked[1..][j].0 != id;
      assert walked[k + 1] == walked[1..][k];
      forall j | 0 <= j < k + 1 ensures walked[j].0 != id {
        assert j > 0 ==> walked[j] == walked[1..][j - 1];
      }
    }
  }

  lemma {:induction false} IndexedFirst(index: map<string, string>, walked: seq<(string, string)>, id: string)
    ensures IsIndexed(index, walked, id, Indexed(index, walked))
    decreases |walked|
  {
    if walked != [] {
      var next := if walked[0].0 in index then index else index[walked[0].0 := walked[0].1];
      IndexedFirst(next, walked[1..], id);
      if walked[0].0 != id {
        WalkedTail(walked, id);
      } else if id !in index {
        assert walked[0] == (id, next[id]);
      }
    }
  }

  function PathIn(index: map<string, string>, id: string): string { if id in index then index[id] else "" }

  function EntryIn(cache: map<string, Entry>, id: string): Option<Entry> {
    if id in cache then Some(cache[id]) else None
  }

  const NO_ENTRY := Entry("", 0, 0, "")

  class Resolver {
    const parse: Parser
    var claudeIndex: map<string, string>
    var claudeCache: map<string, Entry>

    constructor (parse: Parser)
      ensures this.parse == parse && claudeIndex == map[] && claudeCache == map[]
    {
      this.parse := parse;
      claudeIndex, claudeCache := map[], map[];
    }

    method RefreshClaudeIndex(walked: seq<(string, string)>)
      modifies this`claudeIndex
      ensures claudeIndex == Indexed(old(claudeIndex), walked)
      ensures forall id :: IsIndexed(old(claudeIndex), walked, id, claudeIndex)
    {
      for i := 0 to |walked|
        invariant Indexed(claudeIndex, walked[i..]) == Indexed(old(claudeIndex), walked)
      {
        if walked[i].0 !in claudeIndex {
          claudeIndex := claudeIndex[walked[i].0 := walked[i].1];
        }
      }
      forall id ensures IsIndexed(old(claudeIndex), walked, id, claudeIndex) {
        IndexedFirst(old(claudeIndex), walked, id);
      }
    }

    method FindClaudeSession(id: string, walked: seq<(string, string)>) returns (path: string)
      modifies this`claudeIndex
      ensures path == PathIn(claudeIndex, id)
      ensures claudeIndex ==
                if PathIn(old(claudeIndex), id) != "" then old(claudeIndex) else Indexed(old(claudeIndex), walked)
    {
      path := PathIn(claudeIndex, id);
      if path == "" {
        RefreshClaudeIndex(walked);
        path := PathIn(claudeIndex, id);
      }
    }

    /** resolveClaudeEntry; `valid` is the outcome of validConversationID. */
    method ResolveClaudeEntry(id: string, valid: bool, disk: Disk) returns (entry: Entry)
      modifies this
      ensures !valid ==> entry == NO_ENTRY && claudeIndex == old(claudeIndex) && claudeCache == old(claudeCache)
      ensures valid ==>
                var index := if PathIn(old(claudeIndex), id) != "" then old(claudeIndex)
                             else Indexed(old(claudeIndex), disk.walked);
                var path := PathIn(index, id);
                if path == "" then
                  entry == NO_ENTRY && claudeIndex == index && claudeCache == old(claudeCache)
                else match disk.stat(path)
                  case None => entry == NO_ENTRY && claudeIndex == index - {id}
                               && claudeCache == old(claudeCache) - {id}
                  case Some(info) =>
                    && IsAnswer(parse, id, EntryIn(old(claudeCache), id), path, info, disk.contents(path))(entry)
                    && entry == Resolved(NamedBy(parse, id), EntryIn(old(claudeCache), id), path, info,
                                         disk.contents(path))
                    && claudeIndex == index && claudeCache == old(claudeCache)[id := entry]
    {
      if !valid {
        return NO_ENTRY;
      }
      var path := FindClaudeSession(id, disk.walked);
      if path == "" {
        return NO_ENTRY;
      }
      var stat := disk.stat(path);
      if stat.None? {
        claudeIndex := claudeIndex - {id};
        claudeCache := claudeCache - {id};
        return NO_ENTRY;
      }
      var info := stat.value;
      var cached := EntryIn(claudeCache, id);
      if CacheUnchanged(cached, path, info) {
        assert claudeCache[id := cached.value] == claudeCache;
        return cached.value;
      }
      var (current, offset) := ResumePoint(cached, path, info.size);
      var cwd := ReadLatestClaudeCwd(disk.contents(path), id, current, offset);
      entry := Entry(path, info.size, info.modTime, cwd);
      claudeCache := claudeCache[id := entry];
    }

    method ReadLatestClaudeCwd(contents: Option<string>, id: string, current: string, offset: nat) returns (cwd: string)
      ensures cwd == if contents.None? then current
                     else Latest(NamedBy(parse, id), Scanned(After(contents.value, offset)), current)
      ensures IsRead(parse, id, contents, offset, current, cwd)
    {
      cwd := current;
      if contents.None? {
        return;
      }
      var file := contents.value;
      var at := Min(offset, |file|);
      ghost var named := NamedBy(parse, id);
      assert After(file, offset) == file[at..];
      LatestIsDirectory(parse, id, Scanned(After(file, offset)), current);
      while at < |file|
        invariant 0 <= at <= |file|
        invariant Latest(named, Scanned(file[at..]), cwd) == Latest(named, Scanned(After(file, offset)), current)
      {
        var end := EndOfLine(file, at);
        if end - at >= MAX_SESSION_LINE_BYTES {
          return;
        }
        NextToken(named, file, at, end, cwd);
        var event := parse(Token(file[at..end]));
        if event.Some? {
          cwd := ApplicableCwd(event.value, id, cwd);
        }
        at := Min(end + 1, |file|);
      }
    }
  }

  method EndOfLine(file: string, at: nat) returns (end: nat)
    requires at <= |file|
    ensures end == at + LineEnd(file[at..])
  {
    end := at;
    while end < |file| && file[end] != '\n'
      invariant at <= end <= |file|
      invariant '\n' !in file[at..end]
    {
      end := end + 1;
    }
    assert file[at..][..end - at] == file[at..end];
    LineEndIs(file[at..], end - at);
  }

  lemma NextToken(named: string -> Option<string>, file: string, at: nat, end: nat, cwd: string)
    requires at < |file| && end == at + LineEnd(file[at..]) && end - at < MAX_SESSION_LINE_BYTES
    ensures at <= end <= |file|
    ensures Latest(named, Scanned(file[at..]), cwd)
            == Latest(named, Scanned(file[Min(end + 1, |file|)..]), OrElse(named(Token(file[at..end])), cwd))
  {
    var s := file[at..];
    var n := end - at;
    assert s[..n] == file[at..end];
    if n == |s| {
      assert s[..n] == s;
      assert Scanned(s)[1..] == [];
    } else {
      assert s[n + 1..] == file[end + 1..];
      assert Scanned(s)[1..] == Scanned(s[n + 1..]);
    }
  }
}
