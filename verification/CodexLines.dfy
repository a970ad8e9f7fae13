/** The line editor of internal/setup/codex.go, as far as it depends only on where each line stands in the
    bracket nesting and on what kind of line it is: headers, keys, stale tables. */
module CodexLines {

  /** What the scanner sees of a line: its net bracket count, and which patterns it matches. */
  datatype Grammar<!L> = Grammar(
    delta: L -> int,
    header: L -> bool,   // a table header
    otel: L -> bool,     // the header of the managed table
    stale: L -> bool)    // the header of a table to remove

  function Clamp(d: int): (r: nat) { if d < 0 then 0 else d }

  /** Bracket depth after `ls`, starting at depth `d`; it never goes below zero. */
  function Depth<L>(g: Grammar<L>, d: nat, ls: seq<L>): nat
    decreases |ls|
  {
    if ls == [] then d else Depth(g, Clamp(d + g.delta(ls[0])), ls[1..])
  }

  /** Index of the first line at depth zero satisfying `p`, or |ls|. */
  function First<L>(g: Grammar<L>, p: L -> bool, d: nat, ls: seq<L>): (r: nat)
    ensures r <= |ls|
    decreases |ls|
  {
    if ls == [] || (d == 0 && p(ls[0])) then 0 else 1 + First(g, p, Clamp(d + g.delta(ls[0])), ls[1..])
  }

  predicate Lacks<L>(g: Grammar<L>, p: L -> bool, d: nat, ls: seq<L>) { First(g, p, d, ls) == |ls| }

  function Count<L>(g: Grammar<L>, p: L -> bool, d: nat, ls: seq<L>): nat
    decreases |ls|
  {
    if ls == [] then 0
    else (if d == 0 && p(ls[0]) then 1 else 0) + Count(g, p, Clamp(d + g.delta(ls[0])), ls[1..])
  }

  // ---------- concatenation ----------

  lemma {:induction false} DepthConcat<L>(g: Grammar<L>, d: nat, a: seq<L>, b: seq<L>)
    ensures Depth(g, d, a + b) == Depth(g, Depth(g, d, a), b)
    decreases |a|
  {
    if a == [] {
      assert a + b == b;
    } else {
      assert (a + b)[1..] == a[1..] + b;
      DepthConcat(g, Clamp(d + g.delta(a[0])), a[1..], b);
    }
  }

  lemma {:induction false} FirstConcat<L>(g: Grammar<L>, p: L -> bool, d: nat, a: seq<L>, b: seq<L>)
    ensures First(g, p, d, a + b) ==
              if Lacks(g, p, d, a) then |a| + First(g, p, Depth(g, d, a), b) else First(g, p, d, a)
    decreases |a|
  {
    if a == [] {
      assert a + b == b;
    } else {
      assert (a + b)[1..] == a[1..] + b;
      FirstConcat(g, p, Clamp(d + g.delta(a[0])), a[1..], b);
    }
  }

  lemma {:induction false} CountConcat<L>(g: Grammar<L>, p: L -> bool, d: nat, a: seq<L>, b: seq<L>)
    ensures Count(g, p, d, a + b) == Count(g, p, d, a) + Count(g, p, Depth(g, d, a), b)
    decreases |a|
  {
    if a == [] {
      assert a + b == b;
    } else {
      assert (a + b)[1..] == a[1..] + b;
      CountConcat(g, p, Clamp(d + g.delta(a[0])), a[1..], b);
    }
  }

  /** The line found is at depth zero and matches; nothing before it does. */
  lemma {:induction false} FirstFinds<L>(g: Grammar<L>, p: L -> bool, d: nat, ls: seq<L>)
    requires !Lacks(g, p, d, ls)
    ensures var i := First(g, p, d, ls);
            p(ls[i]) && Depth(g, d, ls[..i]) == 0 && Lacks(g, p, d, ls[..i])
    decreases |ls|
  {
    var i := First(g, p, d, ls);
    if d == 0 && p(ls[0]) {
      assert ls[..0] == [];
    } else {
      FirstFinds(g, p, Clamp(d + g.delta(ls[0])), ls[1..]);
      assert ls[..i][1..] == ls[1..][..i - 1];
    }
  }

  /** First is the first line at depth zero that matches, or the number of lines when there is none. */
  lemma {:induction false} FirstMeans<L(!new)>(g: Grammar<L>, p: L -> bool, d: nat, ls: seq<L>, at: nat)
    requires at <= |ls|
    ensures at == First(g, p, d, ls) <==>
              && (at < |ls| ==> p(ls[at]) && Depth(g, d, ls[..at]) == 0)
              && forall i :: 0 <= i < at ==> !(p(ls[i]) && Depth(g, d, ls[..i]) == 0)
    decreases |ls|
  {
    if ls != [] {
      assert ls[..0] == [];
      if at > 0 {
        FirstMeans(g, p, Clamp(d + g.delta(ls[0])), ls[1..], at - 1);
        forall i | 1 <= i <= at ensures Depth(g, d, ls[..i]) == Depth(g, Clamp(d + g.delta(ls[0])), ls[1..][..i - 1]) {
          assert ls[..i][1..] == ls[1..][..i - 1];
        }
        assert forall i :: 1 <= i < at ==> ls[i] == ls[1..][i - 1];
      }
    }
  }

  lemma {:induction false} SameFirst<L(!new)>(g: Grammar<L>, p: L -> bool, q: L -> bool, d: nat, ls: seq<L>)
    requires forall l :: p(l) == q(l)
    ensures First(g, p, d, ls) == First(g, q, d, ls)
    decreases |ls|
  {
    if ls != [] {
      SameFirst(g, p, q, Clamp(d + g.delta(ls[0])), ls[1..]);
    }
  }

  lemma {:induction false} LacksMeansNone<L>(g: Grammar<L>, p: L -> bool, d: nat, ls: seq<L>)
    ensures Count(g, p, d, ls) == 0 <==> Lacks(g, p, d, ls)
    decreases |ls|
  {
    if ls != [] {
      LacksMeansNone(g, p, Clamp(d + g.delta(ls[0])), ls[1..]);
    }
  }

  /** Lines that cannot match because a wider pattern does not match anywhere. */
  lemma {:induction false} LacksNarrower<L>(g: Grammar<L>, p: L -> bool, q: L -> bool, d: nat, ls: seq<L>)
    requires Lacks(g, q, d, ls) && forall l :: l in ls && p(l) ==> q(l)
    ensures Lacks(g, p, d, ls)
    decreases |ls|
  {
    if ls != [] {
      LacksNarrower(g, p, q, Clamp(d + g.delta(ls[0])), ls[1..]);
    }
  }

  // ---------- tables ----------

  /** End of the table whose header is line `start`: the next header at depth zero, or |ls|. */
  function TableEnd<L>(g: Grammar<L>, ls: seq<L>, start: nat): (r: nat)
    requires start < |ls|
    ensures start < r <= |ls|
  {
    start + 1 + First(g, g.header, Depth(g, 0, ls[..start + 1]), ls[start + 1..])
  }

  /** before + [head] + body + after, where head is the first line matching `p` and body its table. */
  ghost predicate IsLayout<L>(g: Grammar<L>, p: L -> bool, before: seq<L>, head: L, body: seq<L>, after: seq<L>) {
    && Lacks(g, p, 0, before) && Depth(g, 0, before) == 0 && p(head)
    && Lacks(g, g.header, Inside(g, head), body)
    && Depth(g, Inside(g, head), body) == 0
    && (after != [] ==> g.header(after[0]))
    && Depth(g, 0, after) == 0
  }

  /** Depth of a table's first line. */
  function Inside<L>(g: Grammar<L>, head: L): nat { Clamp(g.delta(head)) }

  function Whole<L>(before: seq<L>, head: L, body: seq<L>, after: seq<L>): seq<L> { before + [head] + body + after }

  lemma DepthOfOne<L>(g: Grammar<L>, d: nat, l: L)
    ensures Depth(g, d, [l]) == Clamp(d + g.delta(l))
  {
    assert [l][1..] == [];
  }

  lemma DepthThrough<L>(g: Grammar<L>, before: seq<L>, head: L, body: seq<L>)
    requires Depth(g, 0, before) == 0
    ensures Depth(g, 0, before + [head]) == Inside(g, head)
    ensures Depth(g, 0, before + [head] + body) == Depth(g, Inside(g, head), body)
  {
    DepthConcat(g, 0, before, [head]);
    DepthOfOne(g, 0, head);
    DepthConcat(g, 0, before + [head], body);
  }

  /** A layout is what findTable and tableEnd see. */
  lemma LayoutFound<L>(g: Grammar<L>, p: L -> bool, before: seq<L>, head: L, body: seq<L>, after: seq<L>)
    requires IsLayout(g, p, before, head, body, after)
    ensures var ls := Whole(before, head, body, after);
            && First(g, p, 0, ls) == |before| && TableEnd(g, ls, |before|) == |before| + 1 + |body|
            && Depth(g, 0, ls) == 0
  {
    var ls := Whole(before, head, body, after);
    assert ls == before + ([head] + body + after);
    FirstConcat(g, p, 0, before, [head] + body + after);
    DepthThrough(g, before, head, body);
    assert ls[..|before| + 1] == before + [head] && ls[|before| + 1..] == body + after;
    FirstConcat(g, g.header, Inside(g, head), body, after);
    assert ls == before + [head] + body + after;
    DepthConcat(g, 0, before + [head] + body, after);
  }

  /** And what they see is a layout, in a text that ends at depth zero. */
  lemma LayoutExists<L>(g: Grammar<L>, p: L -> bool, ls: seq<L>)
    returns (before: seq<L>, head: L, body: seq<L>, after: seq<L>)
    requires Depth(g, 0, ls) == 0 && !Lacks(g, p, 0, ls)
    ensures ls == Whole(before, head, body, after) && IsLayout(g, p, before, head, body, after)
  {
    var start := First(g, p, 0, ls);
    var end := TableEnd(g, ls, start);
    FirstFinds(g, p, 0, ls);
    before, head, body, after := ls[..start], ls[start], ls[start + 1..end], ls[end..];
    assert ls == Whole(before, head, body, after);
    assert ls[..start + 1] == before + [head];
    DepthThrough(g, before, head, body);
    var tail := ls[start + 1..];
    DepthConcat(g, 0, before + [head] + body, after);
    if after == [] {
      assert body == tail;
    } else {
      FirstFinds(g, g.header, Inside(g, head), tail);
      assert tail[..|body|] == body && tail[|body|] == after[0];
    }
  }

  // ---------- the edits ----------

  /** A key of the managed table: which lines assign it, and the line to insert. */
  datatype Entry<!L> = Entry(assigns: L -> bool, line: L)

  datatype Editor<!L> = Editor(
    grammar: Grammar<L>,
    blank: L -> bool,
    empty: L,              // the empty line
    head: L,               // the header to append when there is none
    scalars: seq<Entry<L>>,
    exporter: Entry<L>,
    wanted: L -> bool)     // an exporter line that already says what it should

  function Inserted<T>(s: seq<T>, at: nat, x: T): seq<T>
    requires at <= |s|
  {
    s[..at] + [x] + s[at..]
  }

  function Replaced<T>(s: seq<T>, at: nat, x: T): seq<T>
    requires at < |s|
  {
    s[..at] + [x] + s[at + 1..]
  }

  /** Without s[from..to]. */
  function Cut<T>(s: seq<T>, from: nat, to: nat): seq<T>
    requires from <= to <= |s|
  {
    s[..from] + s[to..]
  }

  function AppendBase<L>(ed: Editor<L>, ls: seq<L>): seq<L> {
    if ls != [] && !ed.blank(ls[|ls| - 1]) then ls + [ed.empty] else ls
  }

  function AppendTable<L>(ed: Editor<L>, ls: seq<L>, line: L): seq<L> {
    AppendBase(ed, ls) + [ed.head, line]
  }

  function Assigned<L>(g: Grammar<L>, assigns: L -> bool, ls: seq<L>, start: nat): (r: nat)
    requires start < |ls|
  {
    var end := TableEnd(g, ls, start);
    start + 1 + First(g, assigns, Depth(g, 0, ls[..start + 1]), ls[start + 1..end])
  }

  /** ensureTableKey on lines: the new lines and whether one was added. */
  function EnsureKey<L>(ed: Editor<L>, entry: Entry<L>, ls: seq<L>): (seq<L>, bool) {
    var g := ed.grammar;
    var start := First(g, g.otel, 0, ls);
    if start == |ls| then (AppendTable(ed, ls, entry.line), true)
    else
      var end := TableEnd(g, ls, start);
      if Assigned(g, entry.assigns, ls, start) < end then (ls, false)
      else (Inserted(ls, end, entry.line), true)
  }

  /** replaceOrInsertTableKey on lines. */
  function PutExporter<L>(ed: Editor<L>, ls: seq<L>): (seq<L>, bool) {
    var g := ed.grammar;
    var start := First(g, g.otel, 0, ls);
    if start == |ls| then (AppendTable(ed, ls, ed.exporter.line), true)
    else
      var end := TableEnd(g, ls, start);
      var at := Assigned(g, ed.exporter.assigns, ls, start);
      if at >= end then (Inserted(ls, end, ed.exporter.line), true)
      else if ed.wanted(ls[at]) then (ls, false)
      else (Replaced(ls, at, ed.exporter.line), true)
  }

  function WithoutFirstStale<L>(g: Grammar<L>, ls: seq<L>): seq<L> {
    var start := First(g, g.stale, 0, ls);
    if start == |ls| then ls else Cut(ls, start, TableEnd(g, ls, start))
  }

  /** removeTable on lines: joining drops one empty line at the end. */
  function RemoveStale<L(==)>(ed: Editor<L>, ls: seq<L>): (seq<L>, bool) {
    if Lacks(ed.grammar, ed.grammar.stale, 0, ls) then (ls, false)
    else (DropLastEmpty(ed, WithoutFirstStale(ed.grammar, ls)), true)
  }

  function DropLastEmpty<L(==)>(ed: Editor<L>, ls: seq<L>): seq<L> {
    if ls != [] && ls[|ls| - 1] == ed.empty then ls[..|ls| - 1] else ls
  }

  function EnsureAll<L>(ed: Editor<L>, entries: seq<Entry<L>>, ls: seq<L>): (seq<L>, bool)
    decreases |entries|
  {
    if entries == [] then (ls, false)
    else
      var first := EnsureKey(ed, entries[0], ls);
      var rest := EnsureAll(ed, entries[1..], first.0);
      (rest.0, first.1 || rest.1)
  }

  /** editCodex on lines: the scalars, the exporter, two stale tables; and whether anything changed. */
  function Edit<L(==)>(ed: Editor<L>, ls: seq<L>): (seq<L>, bool) {
    var scalars := EnsureAll(ed, ed.scalars, ls);
    var exporter := PutExporter(ed, scalars.0);
    var once := RemoveStale(ed, exporter.0);
    var twice := RemoveStale(ed, once.0);
    (twice.0, scalars.1 || exporter.1 || once.1 || twice.1)
  }

  // ---------- what is reported ----------

  function NoteIf<N>(changed: bool, note: N): (r: seq<N>)
    ensures (|r| > 0) == changed
  {
    if changed then [note] else []
  }

  /** The notes of the insertions that change something, in their order. */
  function NotesFrom<L, N>(ed: Editor<L>, entries: seq<Entry<L>>, notes: seq<N>, ls: seq<L>): seq<N>
    decreases |entries|
  {
    if entries == [] || notes == [] then []
    else
      var r := EnsureKey(ed, entries[0], ls);
      NoteIf(r.1, notes[0]) + NotesFrom(ed, entries[1..], notes[1..], r.0)
  }

  /** The notes of a whole edit: the scalars' and then the exporter's, each when it changes something. */
  function Notes<L(==), N>(ed: Editor<L>, notes: seq<N>, note: N, ls: seq<L>): seq<N> {
    NotesFrom(ed, ed.scalars, notes, ls) + NoteIf(ExporterChanges(ed, EnsureAll(ed, ed.scalars, ls).0), note)
  }

  /** Whether the exporter or a stale table changes. */
  predicate ExporterChanges<L(==)>(ed: Editor<L>, ls: seq<L>) {
    var put := PutExporter(ed, ls);
    var once := RemoveStale(ed, put.0);
    put.1 || once.1 || RemoveStale(ed, once.0).1
  }

  lemma NextNote<L, N>(ed: Editor<L>, entries: seq<Entry<L>>, notes: seq<N>, i: nat, ls: seq<L>, before: seq<N>,
                       e: Entry<L>, note: N)
    requires i < |entries| == |notes| && entries[i] == e && notes[i] == note
    ensures var r := EnsureKey(ed, e, ls);
            before + NotesFrom(ed, entries[i..], notes[i..], ls)
            == (before + NoteIf(r.1, note)) + NotesFrom(ed, entries[i + 1..], notes[i + 1..], r.0)
  {
    assert entries[i..][0] == e && entries[i..][1..] == entries[i + 1..];
    assert notes[i..][0] == note && notes[i..][1..] == notes[i + 1..];
  }

  lemma AllNotes<L, N>(ed: Editor<L>, entries: seq<Entry<L>>, notes: seq<N>, ls: seq<L>)
    ensures [] + NotesFrom(ed, entries[0..], notes[0..], ls) == NotesFrom(ed, entries, notes, ls)
  {
    assert entries[0..] == entries && notes[0..] == notes;
  }

  lemma NoNotesLeft<L, N>(ed: Editor<L>, entries: seq<Entry<L>>, notes: seq<N>, ls: seq<L>, before: seq<N>)
    ensures before + NotesFrom(ed, entries[|entries|..], notes[|notes|..], ls) == before
  {
  }

  /** Every note is one of those given. */
  lemma {:induction false} NotesAreGiven<L, N>(ed: Editor<L>, entries: seq<Entry<L>>, notes: seq<N>, ls: seq<L>, n: N)
    requires n in NotesFrom(ed, entries, notes, ls)
    ensures n in notes
    decreases |entries|
  {
    if n in NotesFrom(ed, entries[1..], notes[1..], EnsureKey(ed, entries[0], ls).0) {
      NotesAreGiven(ed, entries[1..], notes[1..], EnsureKey(ed, entries[0], ls).0, n);
      assert notes == [notes[0]] + notes[1..];
    }
  }

  lemma NotesShow<L, N>(ed: Editor<L>, notes: seq<N>, note: N, ls: seq<L>, n: N)
    requires n in Notes(ed, notes, note, ls)
    ensures n in notes + [note]
  {
    if n in NotesFrom(ed, ed.scalars, notes, ls) {
      NotesAreGiven(ed, ed.scalars, notes, ls, n);
    }
  }

  // ---------- what the editor's own lines are like ----------

  ghost predicate IsInert<L>(g: Grammar<L>, l: L) { g.delta(l) == 0 && !g.header(l) && !g.otel(l) && !g.stale(l) }

  ghost predicate IsEntry<L(!new)>(ed: Editor<L>, e: Entry<L>) {
    IsInert(ed.grammar, e.line) && e.assigns(e.line) && !e.assigns(ed.empty)
  }

  ghost predicate IsSane<L(!new)>(ed: Editor<L>) {
    var g := ed.grammar;
    && (forall e :: e in ed.scalars ==> IsEntry(ed, e) && forall l :: ed.exporter.assigns(l) ==> !e.assigns(l))
    && IsEntry(ed, ed.exporter) && ed.wanted(ed.exporter.line)
    && IsInert(g, ed.empty)
    && g.otel(ed.head) && g.header(ed.head) && g.delta(ed.head) == 0
    && (forall l :: !(g.otel(l) && g.stale(l)))
  }

  ghost predicate ScalarFits<L(!new)>(ed: Editor<L>, i: nat)
    requires i < |ed.scalars|
  {
    IsEntry(ed, ed.scalars[i]) && forall l :: ed.exporter.assigns(l) ==> !ed.scalars[i].assigns(l)
  }

  ghost predicate ExporterFits<L(!new)>(ed: Editor<L>) { IsEntry(ed, ed.exporter) && ed.wanted(ed.exporter.line) }

  ghost predicate LinesFit<L(!new)>(ed: Editor<L>) {
    var g := ed.grammar;
    IsInert(g, ed.empty) && g.otel(ed.head) && g.header(ed.head) && g.delta(ed.head) == 0
  }

  lemma SaneFromParts<L(!new)>(ed: Editor<L>)
    requires (forall i :: 0 <= i < |ed.scalars| ==> ScalarFits(ed, i)) && ExporterFits(ed) && LinesFit(ed)
    requires forall l :: !(ed.grammar.otel(l) && ed.grammar.stale(l))
    ensures IsSane(ed)
  {
    forall e | e in ed.scalars ensures IsEntry(ed, e) && forall l :: ed.exporter.assigns(l) ==> !e.assigns(l) {
      var i :| 0 <= i < |ed.scalars| && e == ed.scalars[i];
      assert ScalarFits(ed, i);
    }
  }

  /** Headers to act on are headers as written, not just after trimming. */
  ghost predicate IsPlain<L(!new)>(g: Grammar<L>, ls: seq<L>) {
    forall l :: l in ls && (g.otel(l) || g.stale(l)) ==> g.header(l)
  }

  // ---------- each edit on a layout ----------

  /** A key of a table body that starts at depth `d`. */
  function Ensured<L>(g: Grammar<L>, d: nat, e: Entry<L>, body: seq<L>): seq<L> {
    if Lacks(g, e.assigns, d, body) then body + [e.line] else body
  }

  function Exported<L>(ed: Editor<L>, d: nat, body: seq<L>): seq<L> {
    var i := First(ed.grammar, ed.exporter.assigns, d, body);
    if i == |body| then body + [ed.exporter.line]
    else if ed.wanted(body[i]) then body
    else Replaced(body, i, ed.exporter.line)
  }

  lemma AssignedInLayout<L>(g: Grammar<L>, assigns: L -> bool, before: seq<L>, head: L, body: seq<L>, after: seq<L>)
    requires IsLayout(g, g.otel, before, head, body, after)
    ensures First(g, g.otel, 0, Whole(before, head, body, after)) == |before|
    ensures TableEnd(g, Whole(before, head, body, after), |before|) == |before| + 1 + |body|
    ensures Assigned(g, assigns, Whole(before, head, body, after), |before|) ==
            |before| + 1 + First(g, assigns, Inside(g, head), body)
  {
    var ls := Whole(before, head, body, after);
    LayoutFound(g, g.otel, before, head, body, after);
    DepthThrough(g, before, head, body);
    assert ls[..|before| + 1] == before + [head];
    assert ls[|before| + 1..|before| + 1 + |body|] == body;
  }

  lemma EnsureOnLayout<L>(ed: Editor<L>, e: Entry<L>, before: seq<L>, head: L, body: seq<L>, after: seq<L>)
    requires IsLayout(ed.grammar, ed.grammar.otel, before, head, body, after)
    ensures EnsureKey(ed, e, Whole(before, head, body, after)) ==
            (Whole(before, head, Ensured(ed.grammar, Inside(ed.grammar, head), e, body), after),
             Lacks(ed.grammar, e.assigns, Inside(ed.grammar, head), body))
  {
    var ls := Whole(before, head, body, after);
    AssignedInLayout(ed.grammar, e.assigns, before, head, body, after);
    var end := |before| + 1 + |body|;
    assert ls[..end] == before + [head] + body && ls[end..] == after;
    assert ls[..end] + [e.line] + ls[end..] == Whole(before, head, body + [e.line], after);
  }

  lemma ExportAbsent<L>(ed: Editor<L>, before: seq<L>, head: L, body: seq<L>, after: seq<L>)
    requires IsLayout(ed.grammar, ed.grammar.otel, before, head, body, after)
    requires Lacks(ed.grammar, ed.exporter.assigns, Inside(ed.grammar, head), body)
    ensures PutExporter(ed, Whole(before, head, body, after)) ==
              (Whole(before, head, body + [ed.exporter.line], after), true)
  {
    var ls, end := Whole(before, head, body, after), |before| + 1 + |body|;
    AssignedInLayout(ed.grammar, ed.exporter.assigns, before, head, body, after);
    assert ls[..end] == before + [head] + body && ls[end..] == after;
    assert ls[..end] + [ed.exporter.line] + ls[end..] == Whole(before, head, body + [ed.exporter.line], after);
  }

  lemma BodyLineReplaced<L>(before: seq<L>, head: L, body: seq<L>, after: seq<L>, i: nat, line: L)
    requires i < |body|
    ensures var ls, at := Whole(before, head, body, after), |before| + 1 + i;
            && |ls| > at && ls[at] == body[i]
            && Replaced(ls, at, line) == Whole(before, head, Replaced(body, i, line), after)
  {
    var ls, at := Whole(before, head, body, after), |before| + 1 + i;
    assert ls[..at] == before + [head] + body[..i];
    assert ls[at + 1..] == body[i + 1..] + after;
  }

  lemma PutSame<L>(ed: Editor<L>, ls: seq<L>, start: nat, at: nat)
    requires start == First(ed.grammar, ed.grammar.otel, 0, ls) && start < |ls|
    requires at == Assigned(ed.grammar, ed.exporter.assigns, ls, start) && at < TableEnd(ed.grammar, ls, start)
    ensures ed.wanted(ls[at]) ==> PutExporter(ed, ls) == (ls, false)
  {
  }

  lemma PutNew<L>(ed: Editor<L>, ls: seq<L>, start: nat, at: nat)
    requires start == First(ed.grammar, ed.grammar.otel, 0, ls) && start < |ls|
    requires at == Assigned(ed.grammar, ed.exporter.assigns, ls, start) && at < TableEnd(ed.grammar, ls, start)
    ensures !ed.wanted(ls[at]) ==> PutExporter(ed, ls) == (Replaced(ls, at, ed.exporter.line), true)
  {
  }

  lemma ExportKept<L>(ed: Editor<L>, before: seq<L>, head: L, body: seq<L>, after: seq<L>, i: nat)
    requires IsLayout(ed.grammar, ed.grammar.otel, before, head, body, after)
    requires i == First(ed.grammar, ed.exporter.assigns, Inside(ed.grammar, head), body) && i < |body|
             && ed.wanted(body[i])
    ensures PutExporter(ed, Whole(before, head, body, after)) == (Whole(before, head, body, after), false)
  {
    AssignedInLayout(ed.grammar, ed.exporter.assigns, before, head, body, after);
    BodyLineReplaced(before, head, body, after, i, ed.exporter.line);
    PutSame(ed, Whole(before, head, body, after), |before|, |before| + 1 + i);
  }

  lemma ExportReplaced<L>(ed: Editor<L>, before: seq<L>, head: L, body: seq<L>, after: seq<L>, i: nat)
    requires IsLayout(ed.grammar, ed.grammar.otel, before, head, body, after)
    requires i == First(ed.grammar, ed.exporter.assigns, Inside(ed.grammar, head), body) && i < |body|
             && !ed.wanted(body[i])
    ensures PutExporter(ed, Whole(before, head, body, after)) ==
            (Whole(before, head, Replaced(body, i, ed.exporter.line), after), true)
  {
    var ls, out, at := Whole(before, head, body, after),
                       Whole(before, head, Replaced(body, i, ed.exporter.line), after), |before| + 1 + i;
    AssignedInLayout(ed.grammar, ed.exporter.assigns, before, head, body, after);
    ReplacedIsWhole(before, head, body, after, i, ed.exporter.line, ls, out, at);
    PutNewAt(ed, ls, |before|, at, out);
  }

  lemma ReplacedIsWhole<L>(before: seq<L>, head: L, body: seq<L>, after: seq<L>, i: nat, line: L, ls: seq<L>,
                           out: seq<L>, at: nat)
    requires i < |body| && ls == Whole(before, head, body, after)
             && out == Whole(before, head, Replaced(body, i, line), after)
    requires at == |before| + 1 + i
    ensures at < |ls| && ls[at] == body[i] && out == Replaced(ls, at, line)
  {
    BodyLineReplaced(before, head, body, after, i, line);
  }

  lemma PutNewAt<L>(ed: Editor<L>, ls: seq<L>, start: nat, at: nat, out: seq<L>)
    requires start == First(ed.grammar, ed.grammar.otel, 0, ls) && start < |ls|
    requires at == Assigned(ed.grammar, ed.exporter.assigns, ls, start) && at < TableEnd(ed.grammar, ls, start)
    requires !ed.wanted(ls[at]) && out == Replaced(ls, at, ed.exporter.line)
    ensures PutExporter(ed, ls) == (out, true)
  {
    PutNew(ed, ls, start, at);
  }

  lemma ExportOnLayout<L>(ed: Editor<L>, before: seq<L>, head: L, body: seq<L>, after: seq<L>)
    requires IsLayout(ed.grammar, ed.grammar.otel, before, head, body, after)
    ensures PutExporter(ed, Whole(before, head, body, after)).0 ==
              Whole(before, head, Exported(ed, Inside(ed.grammar, head), body), after)
  {
    var i := First(ed.grammar, ed.exporter.assigns, Inside(ed.grammar, head), body);
    if i == |body| {
      ExportAbsent(ed, before, head, body, after);
    } else if ed.wanted(body[i]) {
      ExportKept(ed, before, head, body, after, i);
    } else {
      ExportReplaced(ed, before, head, body, after, i);
    }
  }

  /** Appending a flat line to a body keeps the layout. */
  lemma BodyGrows<L>(g: Grammar<L>, before: seq<L>, head: L, body: seq<L>, line: L, after: seq<L>)
    requires IsLayout(g, g.otel, before, head, body, after) && IsInert(g, line)
    ensures IsLayout(g, g.otel, before, head, body + [line], after)
  {
    FirstConcat(g, g.header, Inside(g, head), body, [line]);
    DepthConcat(g, Inside(g, head), body, [line]);
    DepthOfOne(g, 0, line);
  }

  /** Replacing a depth-zero line that does not open a bracket by a flat one keeps the layout and every
      other key. */
  lemma BodyReplaced<L>(g: Grammar<L>, d: nat, body: seq<L>, i: nat, line: L, p: L -> bool)
    requires i < |body| && Depth(g, d, body[..i]) == 0 && g.delta(body[i]) <= 0 && g.delta(line) == 0
    requires p(body[i]) == p(line)
    ensures var body' := Replaced(body, i, line);
            && First(g, p, d, body') == First(g, p, d, body) && Depth(g, d, body') == Depth(g, d, body)
  {
    var a, b := body[..i], body[i + 1..];
    assert body == a + ([body[i]] + b) && body[..i] + [line] + b == a + ([line] + b);
    FirstConcat(g, p, d, a, [body[i]] + b);
    FirstConcat(g, p, d, a, [line] + b);
    DepthConcat(g, d, a, [body[i]] + b);
    DepthConcat(g, d, a, [line] + b);
    assert ([body[i]] + b)[1..] == b && ([line] + b)[1..] == b;
  }

  // ---------- a settled body ----------

  function EnsuredAll<L>(g: Grammar<L>, d: nat, entries: seq<Entry<L>>, body: seq<L>): seq<L>
    decreases |entries|
  {
    if entries == [] then body else EnsuredAll(g, d, entries[1..], Ensured(g, d, entries[0], body))
  }

  ghost predicate HasAll<L(!new)>(g: Grammar<L>, d: nat, entries: seq<Entry<L>>, body: seq<L>) {
    forall e :: e in entries ==> !Lacks(g, e.assigns, d, body)
  }

  ghost predicate HasWanted<L>(ed: Editor<L>, d: nat, body: seq<L>) {
    var i := First(ed.grammar, ed.exporter.assigns, d, body);
    i < |body| && ed.wanted(body[i])
  }

  /** A line already there is found where it was, whatever follows. */
  lemma FoundInPrefix<L>(g: Grammar<L>, p: L -> bool, d: nat, a: seq<L>, b: seq<L>)
    requires !Lacks(g, p, d, a)
    ensures First(g, p, d, a + b) == First(g, p, d, a) && !Lacks(g, p, d, a + b)
  {
    FirstConcat(g, p, d, a, b);
  }

  lemma EnsuredHas<L(!new)>(ed: Editor<L>, e: Entry<L>, before: seq<L>, head: L, body: seq<L>, after: seq<L>)
    requires IsLayout(ed.grammar, ed.grammar.otel, before, head, body, after) && IsEntry(ed, e)
    ensures var b := Ensured(ed.grammar, Inside(ed.grammar, head), e, body);
            && IsLayout(ed.grammar, ed.grammar.otel, before, head, b, after) && body <= b
            && !Lacks(ed.grammar, e.assigns, Inside(ed.grammar, head), b)
            && (forall l :: l in b ==> l in body || l == e.line)
  {
    var g, d := ed.grammar, Inside(ed.grammar, head);
    if Lacks(g, e.assigns, d, body) {
      BodyGrows(g, before, head, body, e.line, after);
      FirstConcat(g, e.assigns, d, body, [e.line]);
    }
  }

  lemma {:induction false} EnsureAllOnLayout<L(!new)>(ed: Editor<L>, entries: seq<Entry<L>>, before: seq<L>, head: L,
                                                      body: seq<L>, after: seq<L>)
    requires IsLayout(ed.grammar, ed.grammar.otel, before, head, body, after)
             && forall e :: e in entries ==> IsEntry(ed, e)
    ensures var b := EnsuredAll(ed.grammar, Inside(ed.grammar, head), entries, body);
            && EnsureAll(ed, entries, Whole(before, head, body, after)).0 == Whole(before, head, b, after)
            && IsLayout(ed.grammar, ed.grammar.otel, before, head, b, after) && body <= b
            && HasAll(ed.grammar, Inside(ed.grammar, head), entries, b)
    ensures HasAll(ed.grammar, Inside(ed.grammar, head), entries, body) ==>
              EnsureAll(ed, entries, Whole(before, head, body, after)) == (Whole(before, head, body, after), false)
    decreases |entries|
  {
    if entries != [] {
      var g, d, e := ed.grammar, Inside(ed.grammar, head), entries[0];
      var next := Ensured(g, d, e, body);
      EnsureOnLayout(ed, e, before, head, body, after);
      EnsuredHas(ed, e, before, head, body, after);
      EnsureAllOnLayout(ed, entries[1..], before, head, next, after);
      var b := EnsuredAll(g, d, entries, body);
      assert b == next + b[|next|..];
      FoundInPrefix(g, e.assigns, d, next, b[|next|..]);
      assert entries == [e] + entries[1..];
    }
  }

  /** What is at depth zero does not match what the lines lack. */
  lemma LackedHere<L>(g: Grammar<L>, p: L -> bool, d: nat, ls: seq<L>, i: nat)
    requires Lacks(g, p, d, ls) && i < |ls| && Depth(g, d, ls[..i]) == 0
    ensures !p(ls[i])
  {
    assert ls == ls[..i] + ls[i..];
    FirstConcat(g, p, d, ls[..i], ls[i..]);
  }

  /** The exporter line that would be replaced, if any, opens no bracket it does not close. */
  ghost predicate IsNeutral<L>(ed: Editor<L>, d: nat, body: seq<L>) {
    var i := First(ed.grammar, ed.exporter.assigns, d, body);
    i < |body| && !ed.wanted(body[i]) ==> ed.grammar.delta(body[i]) <= 0
  }

  /** A line inserted after the exporter line does not change which one that is. */
  lemma NeutralStays<L>(ed: Editor<L>, d: nat, body: seq<L>, more: seq<L>)
    requires IsNeutral(ed, d, body) && Depth(ed.grammar, d, body) == 0
    requires forall i :: 0 <= i < |more| ==> ed.grammar.delta(more[i]) == 0
    ensures IsNeutral(ed, d, body + more)
  {
    FirstConcat(ed.grammar, ed.exporter.assigns, d, body, more);
  }

  lemma ExportedLayout<L(!new)>(ed: Editor<L>, before: seq<L>, head: L, body: seq<L>, after: seq<L>)
    requires IsSane(ed) && IsLayout(ed.grammar, ed.grammar.otel, before, head, body, after)
    requires IsNeutral(ed, Inside(ed.grammar, head), body)
    ensures var b := Exported(ed, Inside(ed.grammar, head), body);
            IsLayout(ed.grammar, ed.grammar.otel, before, head, b, after) && HasWanted(ed, Inside(ed.grammar, head), b)
  {
    var g, d, x := ed.grammar, Inside(ed.grammar, head), ed.exporter;
    var i := First(g, x.assigns, d, body);
    if i == |body| {
      BodyGrows(g, before, head, body, x.line, after);
      FirstConcat(g, x.assigns, d, body, [x.line]);
    } else if !ed.wanted(body[i]) {
      FirstFinds(g, x.assigns, d, body);
      LackedHere(g, g.header, d, body, i);
      BodyReplaced(g, d, body, i, x.line, g.header);
      BodyReplaced(g, d, body, i, x.line, x.assigns);
    }
  }

  lemma ExportedKeeps<L(!new)>(ed: Editor<L>, d: nat, body: seq<L>, e: Entry<L>)
    requires IsSane(ed) && IsNeutral(ed, d, body) && e in ed.scalars && !Lacks(ed.grammar, e.assigns, d, body)
    ensures !Lacks(ed.grammar, e.assigns, d, Exported(ed, d, body))
  {
    var g, x := ed.grammar, ed.exporter;
    var i := First(g, x.assigns, d, body);
    if i == |body| {
      FoundInPrefix(g, e.assigns, d, body, [x.line]);
    } else if !ed.wanted(body[i]) {
      FirstFinds(g, x.assigns, d, body);
      BodyReplaced(g, d, body, i, x.line, e.assigns);
    }
  }

  /** The body of the managed table after an edit. */
  function Managed<L>(ed: Editor<L>, d: nat, body: seq<L>): seq<L> {
    Exported(ed, d, EnsuredAll(ed.grammar, d, ed.scalars, body))
  }

  ghost predicate IsSettled<L(!new)>(ed: Editor<L>, d: nat, body: seq<L>) {
    HasAll(ed.grammar, d, ed.scalars, body) && HasWanted(ed, d, body)
  }

  lemma LacksFront<L>(g: Grammar<L>, p: L -> bool, d: nat, a: seq<L>, b: seq<L>)
    requires Lacks(g, p, d, a + b)
    ensures Lacks(g, p, d, a)
  {
    FirstConcat(g, p, d, a, b);
  }

  /** The line of a listed key that the body did not assign. */
  ghost predicate IsMissing<L(!new)>(g: Grammar<L>, d: nat, entries: seq<Entry<L>>, body: seq<L>, l: L) {
    exists e :: e in entries && l == e.line && Lacks(g, e.assigns, d, body)
  }

  lemma MissingBefore<L(!new)>(g: Grammar<L>, d: nat, entries: seq<Entry<L>>, body: seq<L>, added: seq<L>, l: L)
    requires entries != [] && IsMissing(g, d, entries[1..], body + added, l)
    ensures IsMissing(g, d, entries, body, l)
  {
    var e :| e in entries[1..] && l == e.line && Lacks(g, e.assigns, d, body + added);
    assert e in entries;
    LacksFront(g, e.assigns, d, body, added);
  }

  lemma EnsuredAllAppends<L(!new)>(ed: Editor<L>, d: nat, entries: seq<Entry<L>>, body: seq<L>) returns (more: seq<L>)
    requires forall e :: e in entries ==> IsEntry(ed, e)
    ensures EnsuredAll(ed.grammar, d, entries, body) == body + more
    ensures forall i :: 0 <= i < |more| ==> IsMissing(ed.grammar, d, entries, body, more[i])
    decreases |entries|
  {
    more := [];
    if entries == [] {
      assert body + [] == body;
    } else {
      var g, e := ed.grammar, entries[0];
      var added := if Lacks(g, e.assigns, d, body) then [e.line] else [];
      assert Ensured(g, d, e, body) == body + added;
      var rest := EnsuredAllAppends(ed, d, entries[1..], body + added);
      more := added + rest;
      assert body + more == body + added + rest;
      forall i | 0 <= i < |more| ensures IsMissing(g, d, entries, body, more[i]) {
        if i < |added| {
          assert e in entries;
        } else {
          MissingBefore(g, d, entries, body, added, rest[i - |added|]);
        }
      }
    }
  }

  /** Scalars and exporter on a layout: the body becomes the managed one, which is settled. */
  lemma ManageOnLayout<L(!new)>(ed: Editor<L>, before: seq<L>, head: L, body: seq<L>, after: seq<L>)
    requires IsSane(ed) && IsLayout(ed.grammar, ed.grammar.otel, before, head, body, after)
    requires IsNeutral(ed, Inside(ed.grammar, head), body)
    ensures var d := Inside(ed.grammar, head);
            var b := Managed(ed, d, body);
            && PutExporter(ed, EnsureAll(ed, ed.scalars, Whole(before, head, body, after)).0).0 ==
                 Whole(before, head, b, after)
            && IsLayout(ed.grammar, ed.grammar.otel, before, head, b, after) && IsSettled(ed, d, b)
  {
    var g, d := ed.grammar, Inside(ed.grammar, head);
    EnsureAllOnLayout(ed, ed.scalars, before, head, body, after);
    var more := EnsuredAllAppends(ed, d, ed.scalars, body);
    NeutralStays(ed, d, body, more);
    var mid := body + more;
    ExportedLayout(ed, before, head, mid, after);
    forall e | e in ed.scalars ensures !Lacks(g, e.assigns, d, Exported(ed, d, mid)) {
      ExportedKeeps(ed, d, mid, e);
    }
    ExportOnLayout(ed, before, head, mid, after);
  }

  /** A settled body is left alone. */
  lemma SettledOnLayout<L(!new)>(ed: Editor<L>, before: seq<L>, head: L, body: seq<L>, after: seq<L>)
    requires IsSane(ed) && IsLayout(ed.grammar, ed.grammar.otel, before, head, body, after)
    requires IsSettled(ed, Inside(ed.grammar, head), body)
    ensures EnsureAll(ed, ed.scalars, Whole(before, head, body, after)) == (Whole(before, head, body, after), false)
    ensures PutExporter(ed, Whole(before, head, body, after)) == (Whole(before, head, body, after), false)
  {
    EnsureAllOnLayout(ed, ed.scalars, before, head, body, after);
    ExportKept(ed, before, head, body, after, First(ed.grammar, ed.exporter.assigns, Inside(ed.grammar, head), body));
  }

  // ---------- stale tables ----------

  /** Cutting a table out of a flat text: what is left is flat, lacks what the text lacked, and has one
      table of that kind less. */
  lemma CutDepth<L>(g: Grammar<L>, before: seq<L>, t: L, body: seq<L>, after: seq<L>)
    requires IsLayout(g, g.stale, before, t, body, after)
    ensures Depth(g, 0, before + after) == 0
  {
    DepthConcat(g, 0, before, after);
  }

  lemma CutCount<L(!new)>(g: Grammar<L>, before: seq<L>, t: L, body: seq<L>, after: seq<L>)
    requires IsLayout(g, g.stale, before, t, body, after) && forall l :: l in body && g.stale(l) ==> g.header(l)
    ensures Count(g, g.stale, 0, before + after) == Count(g, g.stale, 0, Whole(before, t, body, after)) - 1
  {
    CountConcat(g, g.stale, 0, before, after);
    WholeIs(before, t, body, after);
    CountConcat(g, g.stale, 0, before, [t] + body + after);
    TableCount(g, t, body, after);
  }

  lemma TableCount<L(!new)>(g: Grammar<L>, t: L, body: seq<L>, after: seq<L>)
    requires g.stale(t) && Lacks(g, g.header, Inside(g, t), body) && Depth(g, Inside(g, t), body) == 0
    requires forall l :: l in body && g.stale(l) ==> g.header(l)
    ensures Count(g, g.stale, 0, [t] + body + after) == 1 + Count(g, g.stale, 0, after)
  {
    assert ([t] + body + after)[1..] == body + after;
    CountConcat(g, g.stale, Inside(g, t), body, after);
    LacksNarrower(g, g.stale, g.header, Inside(g, t), body);
    LacksMeansNone(g, g.stale, Inside(g, t), body);
  }

  lemma CutLacks<L>(g: Grammar<L>, p: L -> bool, before: seq<L>, t: L, body: seq<L>, after: seq<L>)
    requires IsLayout(g, g.stale, before, t, body, after) && Lacks(g, p, 0, Whole(before, t, body, after))
    ensures Lacks(g, p, 0, before + after)
  {
    WholeIs(before, t, body, after);
    FirstConcat(g, p, 0, before, after);
    FirstConcat(g, p, 0, before, [t] + body + after);
    assert ([t] + body + after)[1..] == body + after;
    FirstConcat(g, p, Inside(g, t), body, after);
  }

  lemma WholeIs<T>(before: seq<T>, head: T, body: seq<T>, after: seq<T>)
    ensures Whole(before, head, body, after) == before + ([head] + body + after)
    ensures Whole(before, head, body, after) == (before + [head] + body) + after
  {
  }

  /** Removing the first stale table of a flat text cuts it out. */
  lemma RemovalCuts<L(!new)>(g: Grammar<L>, ls: seq<L>) returns (before: seq<L>, t: L, body: seq<L>, after: seq<L>)
    requires Depth(g, 0, ls) == 0 && !Lacks(g, g.stale, 0, ls)
    ensures ls == Whole(before, t, body, after) && IsLayout(g, g.stale, before, t, body, after)
    ensures WithoutFirstStale(g, ls) == before + after
  {
    before, t, body, after := LayoutExists(g, g.stale, ls);
    LayoutFound(g, g.stale, before, t, body, after);
    assert ls[..|before|] == before && ls[|before| + 1 + |body|..] == after;
  }

  lemma StaleRemoved<L(!new)>(g: Grammar<L>, ls: seq<L>, p: L -> bool)
    requires Depth(g, 0, ls) == 0 && !Lacks(g, g.stale, 0, ls) && IsPlain(g, ls)
    ensures var r := WithoutFirstStale(g, ls);
            && Depth(g, 0, r) == 0 && Count(g, g.stale, 0, r) == Count(g, g.stale, 0, ls) - 1
            && (Lacks(g, p, 0, ls) ==> Lacks(g, p, 0, r))
            && (r != [] && g.header(ls[0]) ==> g.header(r[0]))
            && (forall l :: l in r ==> l in ls)
  {
    var before, t, body, after := RemovalCuts(g, ls);
    forall l | l in body && g.stale(l) ensures g.header(l) {
      assert l in ls;
    }
    CutDepth(g, before, t, body, after);
    CutCount(g, before, t, body, after);
    if Lacks(g, p, 0, ls) {
      CutLacks(g, p, before, t, body, after);
    }
  }

  lemma CutFront<T>(a: seq<T>, b: seq<T>, i: nat)
    requires i <= |a|
    ensures (a + b)[..i] == a[..i] && (a + b)[i..] == a[i..] + b
  {
  }

  lemma CutBehind<T>(a: seq<T>, b: seq<T>, i: nat)
    requires i <= |b|
    ensures (a + b)[..|a| + i] == a + b[..i] && (a + b)[|a| + i..] == b[i..]
  {
  }

  lemma SliceFront<T>(a: seq<T>, b: seq<T>, i: nat, j: nat)
    requires i <= j <= |a|
    ensures Cut(a + b, i, j) == Cut(a, i, j) + b
  {
  }

  lemma SliceBehind<T>(a: seq<T>, b: seq<T>, i: nat, j: nat)
    requires i <= j <= |b|
    ensures Cut(a + b, |a| + i, |a| + j) == a + Cut(b, i, j)
  {
    CutBehind(a, b, i);
    CutBehind(a, b, j);
  }

  lemma TableEndInFront<L>(g: Grammar<L>, a: seq<L>, b: seq<L>, s: nat)
    requires s < |a| && Depth(g, 0, a) == 0 && (b != [] ==> g.header(b[0]))
    ensures TableEnd(g, a + b, s) == TableEnd(g, a, s)
  {
    CutFront(a, b, s + 1);
    var d := Depth(g, 0, a[..s + 1]);
    assert a == a[..s + 1] + a[s + 1..];
    DepthConcat(g, 0, a[..s + 1], a[s + 1..]);
    FirstConcat(g, g.header, d, a[s + 1..], b);
  }

  lemma TableEndBehind<L>(g: Grammar<L>, a: seq<L>, b: seq<L>, s: nat)
    requires s < |b| && Depth(g, 0, a) == 0
    ensures TableEnd(g, a + b, |a| + s) == |a| + TableEnd(g, b, s)
  {
    CutBehind(a, b, s + 1);
    DepthConcat(g, 0, a, b[..s + 1]);
  }

  /** A stale table that lies in the first part is removed from it. */
  lemma StaleInFront<L(!new)>(g: Grammar<L>, a: seq<L>, b: seq<L>)
    requires Depth(g, 0, a) == 0 && !Lacks(g, g.stale, 0, a) && (b != [] ==> g.header(b[0]))
    ensures WithoutFirstStale(g, a + b) == WithoutFirstStale(g, a) + b
  {
    FirstConcat(g, g.stale, 0, a, b);
    var s := First(g, g.stale, 0, a);
    TableEndInFront(g, a, b, s);
    SliceFront(a, b, s, TableEnd(g, a, s));
  }

  /** One that lies behind is removed there. */
  lemma StaleBehind<L(!new)>(g: Grammar<L>, a: seq<L>, b: seq<L>)
    requires Depth(g, 0, a) == 0 && Lacks(g, g.stale, 0, a) && !Lacks(g, g.stale, 0, b)
    ensures WithoutFirstStale(g, a + b) == a + WithoutFirstStale(g, b)
  {
    var s := First(g, g.stale, 0, b);
    FoundBehind(g, a, b);
    TableEndBehind(g, a, b, s);
    RemovalAt(g, b, s, TableEnd(g, b, s));
    RemovedBehind(g, a, b, a + b, s, TableEnd(g, b, s));
  }

  lemma RemovedBehind<L>(g: Grammar<L>, a: seq<L>, b: seq<L>, ls: seq<L>, s: nat, end: nat)
    requires ls == a + b && s < end <= |b|
    requires First(g, g.stale, 0, ls) == |a| + s && TableEnd(g, ls, |a| + s) == |a| + end
    ensures WithoutFirstStale(g, ls) == a + Cut(b, s, end)
  {
    SliceBehind(a, b, s, end);
    RemovalAt(g, ls, |a| + s, |a| + end);
  }

  lemma FoundBehind<L>(g: Grammar<L>, a: seq<L>, b: seq<L>)
    requires Depth(g, 0, a) == 0 && Lacks(g, g.stale, 0, a)
    ensures First(g, g.stale, 0, a + b) == |a| + First(g, g.stale, 0, b)
  {
    FirstConcat(g, g.stale, 0, a, b);
  }

  lemma RemovalAt<L>(g: Grammar<L>, ls: seq<L>, s: nat, end: nat)
    requires s < |ls| && s == First(g, g.stale, 0, ls) && end == TableEnd(g, ls, s)
    ensures WithoutFirstStale(g, ls) == Cut(ls, s, end)
  {
  }

  lemma StaleBefore<L(!new)>(ed: Editor<L>, before: seq<L>, head: L, body: seq<L>, after: seq<L>)
    requires IsSane(ed) && IsLayout(ed.grammar, ed.grammar.otel, before, head, body, after) && ed.grammar.header(head)
    requires IsPlain(ed.grammar, before) && !Lacks(ed.grammar, ed.grammar.stale, 0, before)
    ensures var before' := WithoutFirstStale(ed.grammar, before);
            && WithoutFirstStale(ed.grammar, Whole(before, head, body, after)) == Whole(before', head, body, after)
            && IsLayout(ed.grammar, ed.grammar.otel, before', head, body, after)
  {
    var rest := [head] + body + after;
    StaleRemoved(ed.grammar, before, ed.grammar.otel);
    StaleInFront(ed.grammar, before, rest);
    WholeIs(before, head, body, after);
    WholeIs(WithoutFirstStale(ed.grammar, before), head, body, after);
  }

  lemma StaleAfter<L(!new)>(ed: Editor<L>, before: seq<L>, head: L, body: seq<L>, after: seq<L>)
    requires IsSane(ed) && IsLayout(ed.grammar, ed.grammar.otel, before, head, body, after)
    requires IsPlain(ed.grammar, after) && Lacks(ed.grammar, ed.grammar.stale, 0, before + [head] + body)
    requires Depth(ed.grammar, 0, before + [head] + body) == 0 && !Lacks(ed.grammar, ed.grammar.stale, 0, after)
    ensures var after' := WithoutFirstStale(ed.grammar, after);
            && WithoutFirstStale(ed.grammar, Whole(before, head, body, after)) == Whole(before, head, body, after')
            && IsLayout(ed.grammar, ed.grammar.otel, before, head, body, after')
  {
    StaleRemoved(ed.grammar, after, ed.grammar.otel);
    StaleBehind(ed.grammar, before + [head] + body, after);
  }

  /** Removing a stale table leaves the managed table as it is. */
  lemma StaleOnLayout<L(!new)>(ed: Editor<L>, before: seq<L>, head: L, body: seq<L>, after: seq<L>)
    returns (before': seq<L>, after': seq<L>)
    requires IsSane(ed) && IsLayout(ed.grammar, ed.grammar.otel, before, head, body, after)
    requires IsPlain(ed.grammar, Whole(before, head, body, after))
             && !Lacks(ed.grammar, ed.grammar.stale, 0, Whole(before, head, body, after))
    ensures WithoutFirstStale(ed.grammar, Whole(before, head, body, after)) == Whole(before', head, body, after')
    ensures IsLayout(ed.grammar, ed.grammar.otel, before', head, body, after')
  {
    PartsArePlain(ed.grammar, before, head, body, after);
    before', after' := before, after;
    if !Lacks(ed.grammar, ed.grammar.stale, 0, before) {
      StaleBefore(ed, before, head, body, after);
      before' := WithoutFirstStale(ed.grammar, before);
    } else {
      FrontLacksStale(ed, before, head, body, after);
      FirstConcat(ed.grammar, ed.grammar.stale, 0, before + [head] + body, after);
      StaleAfter(ed, before, head, body, after);
      after' := WithoutFirstStale(ed.grammar, after);
    }
  }

  lemma PartsArePlain<L(!new)>(g: Grammar<L>, before: seq<L>, head: L, body: seq<L>, after: seq<L>)
    requires IsPlain(g, Whole(before, head, body, after))
    ensures IsPlain(g, before) && IsPlain(g, after) && (g.otel(head) ==> g.header(head))
  {
    var ls := Whole(before, head, body, after);
    assert head in ls;
    assert forall l :: l in before ==> l in ls;
    assert forall l :: l in after ==> l in ls;
  }

  lemma FrontLacksStale<L(!new)>(ed: Editor<L>, before: seq<L>, head: L, body: seq<L>, after: seq<L>)
    requires IsSane(ed) && IsLayout(ed.grammar, ed.grammar.otel, before, head, body, after)
    requires IsPlain(ed.grammar, Whole(before, head, body, after)) && Lacks(ed.grammar, ed.grammar.stale, 0, before)
    ensures Depth(ed.grammar, 0, before + [head] + body) == 0
            && Lacks(ed.grammar, ed.grammar.stale, 0, before + [head] + body)
  {
    var g := ed.grammar;
    DepthThrough(g, before, head, body);
    assert before + [head] + body == before + ([head] + body) && ([head] + body)[1..] == body;
    FirstConcat(g, g.stale, 0, before, [head] + body);
    forall l | l in body && g.stale(l) ensures g.header(l) {
      assert l in Whole(before, head, body, after);
    }
    LacksNarrower(g, g.stale, g.header, Inside(g, head), body);
  }

  // ---------- one removal after another ----------

  /** Everything an edit leaves to do about `n` stale tables. */
  ghost predicate IsReady<L(!new)>(ed: Editor<L>, before: seq<L>, head: L, body: seq<L>, after: seq<L>, n: nat) {
    && IsLayout(ed.grammar, ed.grammar.otel, before, head, body, after)
    && IsSettled(ed, Inside(ed.grammar, head), body)
    && IsPlain(ed.grammar, Whole(before, head, body, after))
    && Count(ed.grammar, ed.grammar.stale, 0, Whole(before, head, body, after)) == n
  }

  lemma FoundBeforeLast<L>(g: Grammar<L>, p: L -> bool, d: nat, ls: seq<L>, last: L)
    requires !Lacks(g, p, d, ls + [last]) && !p(last)
    ensures First(g, p, d, ls) == First(g, p, d, ls + [last]) && !Lacks(g, p, d, ls)
  {
    FirstConcat(g, p, d, ls, [last]);
  }

  lemma EmptyDropsFlat<L(!new)>(ed: Editor<L>, d: nat, ls: seq<L>)
    requires IsSane(ed)
    ensures Depth(ed.grammar, d, ls + [ed.empty]) == Depth(ed.grammar, d, ls)
    ensures Count(ed.grammar, ed.grammar.stale, d, ls + [ed.empty]) == Count(ed.grammar, ed.grammar.stale, d, ls)
    ensures Lacks(ed.grammar, ed.grammar.header, d, ls + [ed.empty]) ==> Lacks(ed.grammar, ed.grammar.header, d, ls)
  {
    DepthConcat(ed.grammar, d, ls, [ed.empty]);
    DepthOfOne(ed.grammar, Depth(ed.grammar, d, ls), ed.empty);
    CountConcat(ed.grammar, ed.grammar.stale, d, ls, [ed.empty]);
    FirstConcat(ed.grammar, ed.grammar.header, d, ls, [ed.empty]);
  }

  lemma SettledBeforeEmpty<L(!new)>(ed: Editor<L>, d: nat, body: seq<L>)
    requires IsSane(ed) && IsSettled(ed, d, body + [ed.empty])
    ensures IsSettled(ed, d, body)
  {
    FoundBeforeLast(ed.grammar, ed.exporter.assigns, d, body, ed.empty);
    forall e | e in ed.scalars ensures !Lacks(ed.grammar, e.assigns, d, body) {
      assert IsEntry(ed, e);
      FoundBeforeLast(ed.grammar, e.assigns, d, body, ed.empty);
    }
  }

  lemma DropOnLayout<L(!new)>(ed: Editor<L>, before: seq<L>, head: L, body: seq<L>, after: seq<L>, n: nat)
    returns (body': seq<L>, after': seq<L>)
    requires IsSane(ed) && IsReady(ed, before, head, body, after, n)
    ensures DropLastEmpty(ed, Whole(before, head, body, after)) == Whole(before, head, body', after')
    ensures IsReady(ed, before, head, body', after', n)
  {
    var d, ls := Inside(ed.grammar, head), Whole(before, head, body, after);
    body', after' := body, after;
    if ls[|ls| - 1] == ed.empty {
      if after != [] {
        after' := after[..|after| - 1];
        assert after == after' + [ed.empty];
        EmptyDropsFlat(ed, 0, after');
      } else {
        assert body != [];
        body' := body[..|body| - 1];
        assert body == body' + [ed.empty];
        EmptyDropsFlat(ed, d, body');
        SettledBeforeEmpty(ed, d, body');
      }
      assert ls == Whole(before, head, body', after') + [ed.empty];
      EmptyDropsFlat(ed, 0, Whole(before, head, body', after'));
    }
  }

  lemma RemoveStep<L(!new)>(ed: Editor<L>, before: seq<L>, head: L, body: seq<L>, after: seq<L>, n: nat)
    returns (before': seq<L>, body': seq<L>, after': seq<L>)
    requires IsSane(ed) && IsReady(ed, before, head, body, after, n)
    ensures n == 0 ==> RemoveStale(ed, Whole(before, head, body, after)) == (Whole(before, head, body, after), false)
    ensures n == 0 ==> before' == before && body' == body && after' == after
    ensures n > 0 ==> RemoveStale(ed, Whole(before, head, body, after)) == (Whole(before', head, body', after'), true)
    ensures IsReady(ed, before', head, body', after', if n == 0 then 0 else n - 1)
  {
    var g, ls := ed.grammar, Whole(before, head, body, after);
    LacksMeansNone(g, g.stale, 0, ls);
    if n == 0 {
      before', body', after' := before, body, after;
    } else {
      LayoutFound(g, g.otel, before, head, body, after);
      StaleRemoved(g, ls, g.otel);
      var aft;
      before', aft := StaleOnLayout(ed, before, head, body, after);
      body', after' := DropOnLayout(ed, before', head, body, aft, n - 1);
    }
  }

  // ---------- the whole edit ----------

  /** The text with the managed table's header in place. */
  function Prepared<L>(ed: Editor<L>, ls: seq<L>): seq<L> {
    if Lacks(ed.grammar, ed.grammar.otel, 0, ls)
    then AppendBase(ed, ls) + [ed.head]
    else ls
  }

  /** The exporter line to be replaced, if any, opens no bracket it does not close. */
  ghost predicate ReplacesNeutral<L>(ed: Editor<L>, ls: seq<L>) {
    var start := First(ed.grammar, ed.grammar.otel, 0, ls);
    start < |ls| ==>
      var at := Assigned(ed.grammar, ed.exporter.assigns, ls, start);
      at < TableEnd(ed.grammar, ls, start) && !ed.wanted(ls[at]) ==> ed.grammar.delta(ls[at]) <= 0
  }

  /** What the editor needs of its input: flat at the end, headers as written, a neutral exporter line. */
  ghost predicate IsTame<L(!new)>(ed: Editor<L>, ls: seq<L>) {
    Depth(ed.grammar, 0, ls) == 0 && IsPlain(ed.grammar, ls) && ReplacesNeutral(ed, ls)
  }

  lemma AppendedLayout<L(!new)>(ed: Editor<L>, ls: seq<L>)
    requires IsSane(ed) && Depth(ed.grammar, 0, ls) == 0 && Lacks(ed.grammar, ed.grammar.otel, 0, ls)
    ensures Prepared(ed, ls) == Whole(AppendBase(ed, ls), ed.head, [], [])
    ensures IsLayout(ed.grammar, ed.grammar.otel, AppendBase(ed, ls), ed.head, [], [])
  {
    EmptyDropsFlat(ed, 0, ls);
    FirstConcat(ed.grammar, ed.grammar.otel, 0, ls, [ed.empty]);
  }

  /** Without the managed table, an edit acts as on the text with an empty one appended. */
  lemma EnsureAppends<L(!new)>(ed: Editor<L>, e: Entry<L>, ls: seq<L>)
    requires IsSane(ed) && Depth(ed.grammar, 0, ls) == 0 && Lacks(ed.grammar, ed.grammar.otel, 0, ls)
    ensures EnsureKey(ed, e, ls) == EnsureKey(ed, e, Prepared(ed, ls))
  {
    var before := AppendBase(ed, ls);
    AppendedLayout(ed, ls);
    EnsureOnLayout(ed, e, before, ed.head, [], []);
    assert Whole(before, ed.head, [] + [e.line], []) == before + [ed.head, e.line];
  }

  lemma ExportAppends<L(!new)>(ed: Editor<L>, ls: seq<L>)
    requires IsSane(ed) && Depth(ed.grammar, 0, ls) == 0 && Lacks(ed.grammar, ed.grammar.otel, 0, ls)
    ensures PutExporter(ed, ls) == PutExporter(ed, Prepared(ed, ls))
  {
    var before := AppendBase(ed, ls);
    AppendedLayout(ed, ls);
    ExportAbsent(ed, before, ed.head, [], []);
    assert Whole(before, ed.head, [] + [ed.exporter.line], []) == before + [ed.head, ed.exporter.line];
  }

  lemma ManageAppends<L(!new)>(ed: Editor<L>, ls: seq<L>)
    requires IsSane(ed) && Depth(ed.grammar, 0, ls) == 0 && Lacks(ed.grammar, ed.grammar.otel, 0, ls)
    ensures PutExporter(ed, EnsureAll(ed, ed.scalars, ls).0).0 ==
              PutExporter(ed, EnsureAll(ed, ed.scalars, Prepared(ed, ls)).0).0
  {
    if ed.scalars == [] {
      ExportAppends(ed, ls);
    } else {
      EnsureAppends(ed, ed.scalars[0], ls);
    }
  }

  lemma PreparedLayout<L(!new)>(ed: Editor<L>, ls: seq<L>)
    returns (before: seq<L>, head: L, body: seq<L>, after: seq<L>)
    requires IsSane(ed) && IsTame(ed, ls)
    ensures Prepared(ed, ls) == Whole(before, head, body, after)
    ensures IsLayout(ed.grammar, ed.grammar.otel, before, head, body, after)
    ensures IsNeutral(ed, Inside(ed.grammar, head), body) && IsPlain(ed.grammar, Prepared(ed, ls))
    ensures Count(ed.grammar, ed.grammar.stale, 0, Prepared(ed, ls)) == Count(ed.grammar, ed.grammar.stale, 0, ls)
    ensures PutExporter(ed, EnsureAll(ed, ed.scalars, ls).0).0 ==
              PutExporter(ed, EnsureAll(ed, ed.scalars, Prepared(ed, ls)).0).0
  {
    var g := ed.grammar;
    if Lacks(g, g.otel, 0, ls) {
      AppendedLayout(ed, ls);
      ManageAppends(ed, ls);
      before := AppendBase(ed, ls);
      head, body, after := ed.head, [], [];
      EmptyDropsFlat(ed, 0, ls);
      CountConcat(g, g.stale, 0, before, [ed.head]);
      assert Prepared(ed, ls) == before + [ed.head];
    } else {
      before, head, body, after := LayoutExists(g, g.otel, ls);
      AssignedInLayout(g, ed.exporter.assigns, before, head, body, after);
      var i := First(g, ed.exporter.assigns, Inside(g, head), body);
      if i < |body| {
        BodyLineReplaced(before, head, body, after, i, head);
      }
    }
  }

  lemma ManagedLines<L(!new)>(ed: Editor<L>, d: nat, body: seq<L>)
    requires IsSane(ed)
    ensures forall l :: l in Managed(ed, d, body) ==> l in body || IsInert(ed.grammar, l)
  {
    var more := EnsuredAllAppends(ed, d, ed.scalars, body);
    forall l | l in Managed(ed, d, body) ensures l in body || IsInert(ed.grammar, l) {
      if l != ed.exporter.line && l !in body {
        assert l in body + more;
        var i :| 0 <= i < |more| && more[i] == l;
        var e :| e in ed.scalars && more[i] == e.line;
        assert IsEntry(ed, e);
      }
    }
  }

  /** Swapping one header-free body for another changes no count of stale tables. */
  lemma CountOnLayout<L(!new)>(ed: Editor<L>, before: seq<L>, head: L, body: seq<L>, after: seq<L>)
    requires IsSane(ed) && IsLayout(ed.grammar, ed.grammar.otel, before, head, body, after)
    requires forall l :: l in body && ed.grammar.stale(l) ==> ed.grammar.header(l)
    ensures Count(ed.grammar, ed.grammar.stale, 0, Whole(before, head, body, after)) ==
            Count(ed.grammar, ed.grammar.stale, 0, before) + Count(ed.grammar, ed.grammar.stale, 0, after)
  {
    var g := ed.grammar;
    assert Whole(before, head, body, after) == before + ([head] + (body + after));
    CountConcat(g, g.stale, 0, before, [head] + (body + after));
    assert ([head] + (body + after))[1..] == body + after;
    CountConcat(g, g.stale, Inside(g, head), body, after);
    LacksNarrower(g, g.stale, g.header, Inside(g, head), body);
    LacksMeansNone(g, g.stale, Inside(g, head), body);
  }

  /** The scalars and the exporter leave a layout that is settled, with as many stale tables as before. */
  lemma ManagedReady<L(!new)>(ed: Editor<L>, ls: seq<L>) returns (before: seq<L>, head: L, body: seq<L>, after: seq<L>)
    requires IsSane(ed) && IsTame(ed, ls)
    ensures Prepared(ed, ls) == Whole(before, head, body, after)
    ensures var m := Managed(ed, Inside(ed.grammar, head), body);
            && PutExporter(ed, EnsureAll(ed, ed.scalars, ls).0).0 == Whole(before, head, m, after)
            && IsReady(ed, before, head, m, after, Count(ed.grammar, ed.grammar.stale, 0, ls))
  {
    before, head, body, after := PreparedLayout(ed, ls);
    var m := Managed(ed, Inside(ed.grammar, head), body);
    ManageOnLayout(ed, before, head, body, after);
    ManagedLines(ed, Inside(ed.grammar, head), body);
    forall l | l in body ensures l in Prepared(ed, ls) {
    }
    CountOnLayout(ed, before, head, body, after);
    CountOnLayout(ed, before, head, m, after);
    assert forall l :: l in Whole(before, head, m, after) ==> l in Prepared(ed, ls) || l in m;
  }

  lemma RemoveTwice<L(!new)>(ed: Editor<L>, b0: seq<L>, head: L, m0: seq<L>, a0: seq<L>, n: nat)
    returns (before: seq<L>, body: seq<L>, after: seq<L>)
    requires IsSane(ed) && IsReady(ed, b0, head, m0, a0, n)
    ensures RemoveStale(ed, RemoveStale(ed, Whole(b0, head, m0, a0)).0).0 == Whole(before, head, body, after)
    ensures IsReady(ed, before, head, body, after, if n <= 2 then 0 else n - 2)
  {
    var b1, m1, a1 := RemoveStep(ed, b0, head, m0, a0, n);
    before, body, after := RemoveStep(ed, b1, head, m1, a1, if n == 0 then 0 else n - 1);
  }

  lemma EditIs<L>(ed: Editor<L>, ls: seq<L>)
    ensures Edit(ed, ls).0 == RemoveStale(ed, RemoveStale(ed, PutExporter(ed, EnsureAll(ed, ed.scalars, ls).0).0).0).0
  {
  }

  /** What an edit leaves: the managed table settled, and two stale tables fewer. */
  lemma EditSettles<L(!new)>(ed: Editor<L>, ls: seq<L>) returns (before: seq<L>, head: L, body: seq<L>, after: seq<L>)
    requires IsSane(ed) && IsTame(ed, ls)
    ensures Edit(ed, ls).0 == Whole(before, head, body, after)
    ensures var n := Count(ed.grammar, ed.grammar.stale, 0, ls);
            IsReady(ed, before, head, body, after, if n <= 2 then 0 else n - 2)
  {
    var b0, h, m0, a0 := ManagedReady(ed, ls);
    EditIs(ed, ls);
    head := h;
    before, body, after := RemoveTwice(ed, b0, h, Managed(ed, Inside(ed.grammar, h), m0), a0,
                                       Count(ed.grammar, ed.grammar.stale, 0, ls));
  }

  lemma EditOfReady<L(!new)>(ed: Editor<L>, before: seq<L>, head: L, body: seq<L>, after: seq<L>, n: nat)
    requires IsSane(ed) && IsReady(ed, before, head, body, after, n)
    ensures Edit(ed, Whole(before, head, body, after)).1 <==> n > 0
    ensures n == 0 ==> Edit(ed, Whole(before, head, body, after)) == (Whole(before, head, body, after), false)
  {
    SettledOnLayout(ed, before, head, body, after);
    var b1, m1, a1 := RemoveStep(ed, before, head, body, after, n);
  }

  /** Idempotence, exactly: a second edit changes nothing, and says so, if and only if the text had at most
      two stale tables. */
  lemma EditTwice<L(!new)>(ed: Editor<L>, ls: seq<L>)
    requires IsSane(ed) && IsTame(ed, ls)
    ensures var once := Edit(ed, ls).0;
            Edit(ed, once) == (once, false) <==> Count(ed.grammar, ed.grammar.stale, 0, ls) <= 2
  {
    var before, head, body, after := EditSettles(ed, ls);
    var n := Count(ed.grammar, ed.grammar.stale, 0, ls);
    EditOfReady(ed, before, head, body, after, if n <= 2 then 0 else n - 2);
  }

  // ---------- what an edit keeps ----------

  /** `a` is `b` up to empty lines at the end. */
  ghost predicate IsTrimOf<L>(ed: Editor<L>, a: seq<L>, b: seq<L>) {
    a <= b && forall i :: |a| <= i < |b| ==> b[i] == ed.empty
  }

  lemma EmptiesMatchNothing<L(!new)>(ed: Editor<L>, p: L -> bool, d: nat, tail: seq<L>)
    requires IsSane(ed) && !p(ed.empty) && forall i :: 0 <= i < |tail| ==> tail[i] == ed.empty
    ensures Lacks(ed.grammar, p, d, tail)
    decreases |tail|
  {
    if tail != [] {
      EmptiesMatchNothing(ed, p, Clamp(d + ed.grammar.delta(tail[0])), tail[1..]);
    }
  }

  /** Empty lines at the end do not change which table is removed. */
  lemma RemovalKeepsTrim<L(!new)>(ed: Editor<L>, a: seq<L>, b: seq<L>)
    requires IsSane(ed) && IsTrimOf(ed, a, b)
    ensures IsTrimOf(ed, RemoveStale(ed, a).0, WithoutFirstStale(ed.grammar, b))
  {
    var g, tail := ed.grammar, b[|a|..];
    assert b == a + tail;
    EmptiesMatchNothing(ed, g.stale, Depth(g, 0, a), tail);
    FirstConcat(g, g.stale, 0, a, tail);
    if !Lacks(g, g.stale, 0, a) {
      var s := First(g, g.stale, 0, a);
      CutFront(a, tail, s + 1);
      var d := Depth(g, 0, a[..s + 1]);
      EmptiesMatchNothing(ed, g.header, Depth(g, d, a[s + 1..]), tail);
      FirstConcat(g, g.header, d, a[s + 1..], tail);
      TrimAfterRemoval(ed, a, tail, s, TableEnd(g, a, s), TableEnd(g, b, s));
    }
  }

  lemma TrimAfterRemoval<L(!new)>(ed: Editor<L>, a: seq<L>, tail: seq<L>, s: nat, end: nat, end': nat)
    requires s < end <= |a| && (forall i :: 0 <= i < |tail| ==> tail[i] == ed.empty)
    requires end' == end || (end == |a| && end' == |a| + |tail|)
    ensures IsTrimOf(ed, DropLastEmpty(ed, Cut(a, s, end)), Cut(a + tail, s, end'))
  {
    assert (a + tail)[..s] == a[..s];
    if end' == end {
      assert (a + tail)[end..] == a[end..] + tail;
    } else {
      assert (a + tail)[end'..] == [] && a[end..] == [];
    }
  }

  /** The body of the managed table with its exporter line, if any and if not as wanted, replaced. */
  function WithExporter<L>(ed: Editor<L>, d: nat, body: seq<L>): seq<L> {
    var i := First(ed.grammar, ed.exporter.assigns, d, body);
    if i < |body| && !ed.wanted(body[i]) then Replaced(body, i, ed.exporter.line) else body
  }

  /** Lines added to a body: each assigns a managed key that the body did not. */
  ghost predicate AreAdded<L(!new)>(ed: Editor<L>, d: nat, body: seq<L>, more: seq<L>) {
    forall i :: 0 <= i < |more| ==> IsMissing(ed.grammar, d, ed.scalars + [ed.exporter], body, more[i])
  }

  lemma {:induction false} LacksAll<L>(g: Grammar<L>, p: L -> bool, d: nat, ls: seq<L>)
    requires forall i :: 0 <= i < |ls| ==> !p(ls[i])
    ensures Lacks(g, p, d, ls)
    decreases |ls|
  {
    if ls != [] {
      LacksAll(g, p, Clamp(d + g.delta(ls[0])), ls[1..]);
    }
  }

  lemma ScalarsAreAdded<L(!new)>(ed: Editor<L>, d: nat, body: seq<L>, more: seq<L>)
    requires IsSane(ed) && forall i :: 0 <= i < |more| ==> IsMissing(ed.grammar, d, ed.scalars, body, more[i])
    ensures AreAdded(ed, d, body, more) && Lacks(ed.grammar, ed.exporter.assigns, Depth(ed.grammar, d, body), more)
  {
    forall i | 0 <= i < |more|
      ensures IsMissing(ed.grammar, d, ed.scalars + [ed.exporter], body, more[i]) && !ed.exporter.assigns(more[i]) {
      assert IsMissing(ed.grammar, d, ed.scalars, body, more[i]);
      var e :| e in ed.scalars && more[i] == e.line && Lacks(ed.grammar, e.assigns, d, body);
      assert e in ed.scalars + [ed.exporter] && IsEntry(ed, e);
    }
    LacksAll(ed.grammar, ed.exporter.assigns, Depth(ed.grammar, d, body), more);
  }

  /** Some of the lines assigns the key. */
  ghost predicate Brings<L(!new)>(more: seq<L>, e: Entry<L>) { exists i :: 0 <= i < |more| && e.assigns(more[i]) }

  /** Every managed key that the body lacks is brought by an added line. */
  ghost predicate AddsAll<L(!new)>(ed: Editor<L>, d: nat, body: seq<L>, more: seq<L>) {
    forall e :: e in ed.scalars + [ed.exporter] && Lacks(ed.grammar, e.assigns, d, body) ==> Brings(more, e)
  }

  lemma FoundIsBrought<L(!new)>(g: Grammar<L>, e: Entry<L>, d: nat, body: seq<L>, added: seq<L>, more: seq<L>)
    requires Lacks(g, e.assigns, d, body) && !Lacks(g, e.assigns, d, body + added) && added <= more
    ensures Brings(more, e)
  {
    FirstConcat(g, e.assigns, d, body, added);
    FirstFinds(g, e.assigns, Depth(g, d, body), added);
    assert e.assigns(more[First(g, e.assigns, Depth(g, d, body), added)]);
  }

  lemma AllAreBrought<L(!new)>(ed: Editor<L>, d: nat, body: seq<L>, scalars: seq<L>, more: seq<L>)
    requires IsSane(ed) && HasAll(ed.grammar, d, ed.scalars, body + scalars)
    requires more == scalars + if Lacks(ed.grammar, ed.exporter.assigns, d, body) then [ed.exporter.line] else []
    ensures AddsAll(ed, d, body, more)
  {
    forall e | e in ed.scalars + [ed.exporter] && Lacks(ed.grammar, e.assigns, d, body) ensures Brings(more, e) {
      if e in ed.scalars {
        FoundIsBrought(ed.grammar, e, d, body, scalars, more);
      } else {
        assert more[|scalars|] == ed.exporter.line;
      }
    }
  }

  /** Every line of the managed body stays, in order, but the one exporter line to be replaced; what is added
      comes after them. */
  lemma ManagedKeeps<L(!new)>(ed: Editor<L>, d: nat, body: seq<L>) returns (more: seq<L>, scalars: seq<L>)
    requires IsSane(ed)
    ensures Managed(ed, d, body) == WithExporter(ed, d, body) + more && AreAdded(ed, d, body, more)
    ensures EnsuredAll(ed.grammar, d, ed.scalars, body) == body + scalars
    ensures more == scalars + if Lacks(ed.grammar, ed.exporter.assigns, d, body) then [ed.exporter.line] else []
  {
    var x := ed.exporter;
    scalars := EnsuredAllAppends(ed, d, ed.scalars, body);
    ScalarsAreAdded(ed, d, body, scalars);
    FirstConcat(ed.grammar, x.assigns, d, body, scalars);
    if Lacks(ed.grammar, x.assigns, d, body) {
      more := scalars + [x.line];
      assert body + scalars + [x.line] == body + more;
      assert x in ed.scalars + [x];
    } else {
      more := scalars;
      assert more == scalars + [];
      KeptExporter(ed, d, body, more);
    }
  }

  lemma KeptExporter<L(!new)>(ed: Editor<L>, d: nat, body: seq<L>, more: seq<L>)
    requires var i := First(ed.grammar, ed.exporter.assigns, d, body);
             i < |body| && First(ed.grammar, ed.exporter.assigns, d, body + more) == i
    ensures Exported(ed, d, body + more) == WithExporter(ed, d, body) + more
  {
    var i := First(ed.grammar, ed.exporter.assigns, d, body);
    assert Replaced(body + more, i, ed.exporter.line) == Replaced(body, i, ed.exporter.line) + more;
  }

  /** The frame: up to empty lines at the end, an edit is the text with the one exporter line replaced, the missing
      keys added at the end of the managed table and the first two stale tables cut out; every other line stays, in
      order. */
  lemma EditFrame<L(!new)>(ed: Editor<L>, ls: seq<L>)
    returns (before: seq<L>, head: L, body: seq<L>, more: seq<L>, after: seq<L>)
    requires IsSane(ed) && IsTame(ed, ls)
    ensures Prepared(ed, ls) == Whole(before, head, body, after)
    ensures IsLayout(ed.grammar, ed.grammar.otel, before, head, body, after)
    ensures AreAdded(ed, Inside(ed.grammar, head), body, more) && AddsAll(ed, Inside(ed.grammar, head), body, more)
    ensures var g := ed.grammar;
            var managed := Whole(before, head, WithExporter(ed, Inside(g, head), body) + more, after);
            IsTrimOf(ed, Edit(ed, ls).0, WithoutFirstStale(g, WithoutFirstStale(g, managed)))
  {
    before, head, body, after := PreparedLayout(ed, ls);
    ManageOnLayout(ed, before, head, body, after);
    var scalars;
    more, scalars := ManagedKeeps(ed, Inside(ed.grammar, head), body);
    EnsureAllOnLayout(ed, ed.scalars, before, head, body, after);
    AllAreBrought(ed, Inside(ed.grammar, head), body, scalars, more);
    var managed := Whole(before, head, Managed(ed, Inside(ed.grammar, head), body), after);
    EditIs(ed, ls);
    RemovalKeepsTrim(ed, managed, managed);
    RemovalKeepsTrim(ed, RemoveStale(ed, managed).0, WithoutFirstStale(ed.grammar, managed));
  }

  lemma KeyInLayout<L>(g: Grammar<L>, p: L -> bool, before: seq<L>, head: L, body: seq<L>, after: seq<L>)
    requires IsLayout(g, g.otel, before, head, body, after) && !Lacks(g, p, Inside(g, head), body)
    ensures var i, out := First(g, p, Inside(g, head), body), Whole(before, head, body, after);
            && out[|before| + 1 + i] == body[i] && p(body[i]) && Depth(g, 0, out[..|before| + 1 + i]) == 0
  {
    var i, out := First(g, p, Inside(g, head), body), Whole(before, head, body, after);
    FirstFinds(g, p, Inside(g, head), body);
    BodyLineReplaced(before, head, body, after, i, head);
    DepthThrough(g, before, head, body[..i]);
    assert out[..|before| + 1 + i] == before + [head] + body[..i];
  }

  /** The key is assigned at depth zero inside the first managed table, the exporter as wanted. */
  ghost predicate IsAssigned<L>(ed: Editor<L>, out: seq<L>, e: Entry<L>) {
    var g := ed.grammar;
    var start := First(g, g.otel, 0, out);
    && start < |out| && Depth(g, 0, out) == 0
    && var at := Assigned(g, e.assigns, out, start);
    && start < at < TableEnd(g, out, start) && Depth(g, 0, out[..at]) == 0 && e.assigns(out[at])
    && (e == ed.exporter ==> ed.wanted(out[at]))
  }

  /** After an edit every managed key is assigned at depth zero inside the managed table. */
  lemma EditedKeysFound<L(!new)>(ed: Editor<L>, ls: seq<L>, e: Entry<L>)
    requires IsSane(ed) && IsTame(ed, ls) && (e in ed.scalars || e == ed.exporter)
    ensures IsAssigned(ed, Edit(ed, ls).0, e)
  {
    var before, head, body, after := EditSettles(ed, ls);
    LayoutFound(ed.grammar, ed.grammar.otel, before, head, body, after);
    AssignedInLayout(ed.grammar, e.assigns, before, head, body, after);
    KeyInLayout(ed.grammar, e.assigns, before, head, body, after);
  }

  // ---------- texts that never settle ----------

  lemma {:induction false} DeepLacks<L(!new)>(g: Grammar<L>, p: L -> bool, d: nat, ls: seq<L>)
    requires d > 0 && forall l :: l in ls ==> g.delta(l) == 0
    ensures Lacks(g, p, d, ls) && Depth(g, d, ls) == d
    decreases |ls|
  {
    if ls != [] {
      DeepLacks(g, p, d, ls[1..]);
    }
  }

  /** A text that ends inside a bracket. */
  ghost predicate IsOpenEnded<L>(g: Grammar<L>, ls: seq<L>) {
    Depth(g, 0, ls) > 0 && Lacks(g, g.otel, 0, ls) && Lacks(g, g.stale, 0, ls)
  }

  lemma AppendStaysOpen<L(!new)>(ed: Editor<L>, ls: seq<L>, line: L)
    requires IsSane(ed) && IsOpenEnded(ed.grammar, ls) && ed.grammar.delta(line) == 0
    ensures IsOpenEnded(ed.grammar, AppendTable(ed, ls, line)) && |AppendTable(ed, ls, line)| > |ls|
  {
    var g := ed.grammar;
    var more := (if ls != [] && !ed.blank(ls[|ls| - 1]) then [ed.empty] else []) + [ed.head, line];
    assert AppendTable(ed, ls, line) == ls + more;
    DepthConcat(g, 0, ls, more);
    FirstConcat(g, g.otel, 0, ls, more);
    FirstConcat(g, g.stale, 0, ls, more);
    DeepLacks(g, g.otel, Depth(g, 0, ls), more);
    DeepLacks(g, g.stale, Depth(g, 0, ls), more);
  }

  lemma {:induction false} EnsureAllStaysOpen<L(!new)>(ed: Editor<L>, entries: seq<Entry<L>>, ls: seq<L>)
    requires IsSane(ed) && IsOpenEnded(ed.grammar, ls) && forall e :: e in entries ==> IsEntry(ed, e)
    ensures IsOpenEnded(ed.grammar, EnsureAll(ed, entries, ls).0) && |EnsureAll(ed, entries, ls).0| >= |ls|
    decreases |entries|
  {
    if entries != [] {
      assert IsEntry(ed, entries[0]);
      AppendStaysOpen(ed, ls, entries[0].line);
      EnsureAllStaysOpen(ed, entries[1..], EnsureKey(ed, entries[0], ls).0);
    }
  }

  /** Without the flat end, an edit of a text without the managed table adds tables every time. */
  lemma OpenEndedNeverSettles<L(!new)>(ed: Editor<L>, ls: seq<L>)
    requires IsSane(ed) && IsOpenEnded(ed.grammar, ls)
    ensures Edit(ed, ls).1 && IsOpenEnded(ed.grammar, Edit(ed, ls).0) && |Edit(ed, ls).0| > |ls|
  {
    EnsureAllStaysOpen(ed, ed.scalars, ls);
    AppendStaysOpen(ed, EnsureAll(ed, ed.scalars, ls).0, ed.exporter.line);
  }

  lemma FlatHead<L>(g: Grammar<L>, p: L -> bool, l: L, rest: seq<L>)
    requires g.delta(l) == 0
    ensures Depth(g, 0, [l] + rest) == Depth(g, 0, rest)
    ensures First(g, p, 0, [l] + rest) == if p(l) then 0 else 1 + First(g, p, 0, rest)
    ensures Count(g, p, 0, [l] + rest) == (if p(l) then 1 else 0) + Count(g, p, 0, rest)
  {
    assert ([l] + rest)[1..] == rest;
  }

  /** A stale table whose body runs to the end takes everything with it. */
  lemma StaleTakesAll<L>(g: Grammar<L>, s: L, n: L, b: seq<L>)
    requires g.stale(s) && g.delta(s) == 0 && !g.header(n) && g.delta(n) == 0
    requires Lacks(g, g.header, 0, b) && Depth(g, 0, b) == 0
    ensures First(g, g.stale, 0, [s] + ([n] + b)) == 0 && WithoutFirstStale(g, [s] + ([n] + b)) == []
  {
    var body := [n] + b;
    FlatHead(g, g.header, n, b);
    assert Lacks(g, g.stale, 0, []) && Depth(g, 0, []) == 0;
    LayoutFound(g, g.stale, [], s, body, []);
    assert Whole([], s, body, []) == [s] + body;
    assert [s] + body == ([s] + body)[..|body| + 1];
  }

  /** Without headers as written, the managed table can go: behind a stale table, its header `n` is found by
      findTable but does not end the stale table, so the cut takes both, and the next edit adds the table anew. */
  lemma UnplainTableIsCut<L(!new)>(ed: Editor<L>, s: L, n: L)
    requires IsSane(ed) && ed.grammar.stale(s) && ed.grammar.delta(s) == 0
    requires ed.grammar.otel(n) && !ed.grammar.header(n) && ed.grammar.delta(n) == 0
    ensures Edit(ed, [s, n]) == ([], true) && Edit(ed, []).1
  {
    var b := UnplainManaged(ed, s, n);
    StaleTakesAll(ed.grammar, s, n, b);
    CutWhole(ed, [s, n], [s] + ([n] + b));
    EmptyChanges(ed);
  }

  lemma UnplainManaged<L(!new)>(ed: Editor<L>, s: L, n: L) returns (b: seq<L>)
    requires IsSane(ed) && ed.grammar.stale(s) && ed.grammar.delta(s) == 0 && ed.grammar.otel(n)
             && ed.grammar.delta(n) == 0
    ensures PutExporter(ed, EnsureAll(ed, ed.scalars, [s, n]).0).0 == [s] + ([n] + b)
    ensures Lacks(ed.grammar, ed.grammar.header, 0, b) && Depth(ed.grammar, 0, b) == 0
  {
    FlatHead(ed.grammar, ed.grammar.otel, s, []);
    assert [s] + [] == [s] && Whole([s], n, [], []) == [s, n];
    ManageOnLayout(ed, [s], n, [], []);
    b := Managed(ed, 0, []);
    WholeIs([s], n, b, []);
    assert [n] + b + [] == [n] + b;
  }

  lemma CutWhole<L>(ed: Editor<L>, ls: seq<L>, managed: seq<L>)
    requires managed == PutExporter(ed, EnsureAll(ed, ed.scalars, ls).0).0 && managed != []
    requires First(ed.grammar, ed.grammar.stale, 0, managed) == 0 && WithoutFirstStale(ed.grammar, managed) == []
    ensures Edit(ed, ls) == ([], true)
  {
  }

  /** An exporter line `x` that opens a bracket, closed by `c`, with a stale header `s` in between. */
  ghost predicate HidesStale<L(!new)>(ed: Editor<L>, h: L, x: L, s: L, c: L) {
    var g := ed.grammar;
    && g.otel(h) && g.delta(h) == 0
    && ed.exporter.assigns(x) && !ed.wanted(x) && g.delta(x) == 1 && !g.header(x)
    && g.stale(s) && g.delta(s) == 0
    && g.delta(c) == -1 && !g.header(c)
  }

  lemma HiddenBody<L(!new)>(ed: Editor<L>, h: L, x: L, s: L, c: L)
    requires IsSane(ed) && HidesStale(ed, h, x, s, c)
    ensures IsLayout(ed.grammar, ed.grammar.otel, [], h, [x, s, c], [])
            && First(ed.grammar, ed.exporter.assigns, 0, [x, s, c]) == 0
  {
    var g := ed.grammar;
    assert [x, s, c][1..] == [s, c] && [s, c][1..] == [c] && [c][1..] == [];
    assert Depth(g, 0, [x, s, c]) == Depth(g, 1, [s, c]) == Depth(g, 1, [c]) == 0;
    assert First(g, g.header, 0, [x, s, c]) == 1 + First(g, g.header, 1, [s, c]) == 2 + First(g, g.header, 1, [c]) == 3;
  }

  lemma ReplacedFirst<L>(h: L, x: L, s: L, c: L, line: L, more: seq<L>)
    ensures Whole([], h, Replaced([x, s, c], 0, line) + more, []) == [h, line] + ([s] + ([c] + more))
  {
  }

  /** After the exporter line is replaced the stale header is in the open. */
  lemma ExposedStale<L(!new)>(ed: Editor<L>, h: L, x: L, s: L, c: L) returns (more: seq<L>)
    requires IsSane(ed) && HidesStale(ed, h, x, s, c)
    ensures PutExporter(ed, EnsureAll(ed, ed.scalars, [h, x, s, c]).0).0 == [h, ed.exporter.line] + ([s] + ([c] + more))
    ensures forall i :: 0 <= i < |more| ==> IsInert(ed.grammar, more[i])
  {
    HiddenBody(ed, h, x, s, c);
    assert Whole([], h, [x, s, c], []) == [h, x, s, c];
    ManageExposed(ed, h, [x, s, c]);
    var scalars;
    more, scalars := ManagedKeeps(ed, 0, [x, s, c]);
    ReplacedFirst(h, x, s, c, ed.exporter.line, more);
    forall i | 0 <= i < |more| ensures IsInert(ed.grammar, more[i]) {
      assert IsMissing(ed.grammar, 0, ed.scalars + [ed.exporter], [x, s, c], more[i]);
    }
  }

  lemma ManageExposed<L(!new)>(ed: Editor<L>, h: L, body: seq<L>)
    requires IsSane(ed) && IsLayout(ed.grammar, ed.grammar.otel, [], h, body, []) && ed.grammar.delta(h) == 0
    ensures PutExporter(ed, EnsureAll(ed, ed.scalars, Whole([], h, body, [])).0).0 ==
              Whole([], h, Managed(ed, 0, body), [])
  {
    var g := ed.grammar;
    EnsureAllOnLayout(ed, ed.scalars, [], h, body, []);
    ExportOnLayout(ed, [], h, EnsuredAll(g, 0, ed.scalars, body), []);
  }

  /** An inert line, then a line without a header, then inert lines: nothing ends the table. */
  lemma {:induction false} InertLacks<L(!new)>(g: Grammar<L>, p: L -> bool, ls: seq<L>)
    requires forall i :: 0 <= i < |ls| ==> !p(ls[i]) && g.delta(ls[i]) == 0
    ensures Lacks(g, p, 0, ls) && Depth(g, 0, ls) == 0
    decreases |ls|
  {
    if ls != [] {
      InertLacks(g, p, ls[1..]);
    }
  }

  lemma ClosingLacks<L>(g: Grammar<L>, c: L, more: seq<L>)
    requires g.delta(c) == -1 && !g.header(c) && Lacks(g, g.header, 0, more) && Depth(g, 0, more) == 0
    ensures Lacks(g, g.header, 0, [c] + more) && Depth(g, 0, [c] + more) == 0
  {
    assert ([c] + more)[1..] == more;
  }

  /** Without the neutral exporter line, replacing it exposes the stale header, whose cut takes what was added to
      the table, and the next edit adds it again. */
  lemma ExposedTableIsCut<L(!new)>(ed: Editor<L>, h: L, x: L, s: L, c: L)
    requires IsSane(ed) && HidesStale(ed, h, x, s, c) && ed.scalars != []
    ensures Edit(ed, [h, x, s, c]).0 == [h, ed.exporter.line] && Edit(ed, [h, ed.exporter.line]).1
  {
    var g, kept := ed.grammar, [h, ed.exporter.line];
    var more := ExposedStale(ed, h, x, s, c);
    InertLacks(g, g.header, more);
    ClosingLacks(g, c, more);
    InertLacks(g, g.stale, kept);
    var body := [c] + more;
    LayoutFound(g, g.stale, kept, s, body, []);
    assert Whole(kept, s, body, []) == kept + ([s] + body);
    assert Cut(kept + ([s] + body), |kept|, |kept| + 1 + |body|) == kept;
    KeptIsLeft(ed, [h, x, s, c], kept + ([s] + body), kept);
    MissesScalar(ed, h);
  }

  lemma KeptIsLeft<L>(ed: Editor<L>, ls: seq<L>, managed: seq<L>, kept: seq<L>)
    requires managed == PutExporter(ed, EnsureAll(ed, ed.scalars, ls).0).0 && kept != [] && kept[|kept| - 1] != ed.empty
    requires !Lacks(ed.grammar, ed.grammar.stale, 0, managed) && WithoutFirstStale(ed.grammar, managed) == kept
    requires Lacks(ed.grammar, ed.grammar.stale, 0, kept)
    ensures Edit(ed, ls).0 == kept
  {
  }

  lemma MissesScalar<L(!new)>(ed: Editor<L>, h: L)
    requires IsSane(ed) && ed.scalars != [] && ed.grammar.otel(h) && ed.grammar.delta(h) == 0
    ensures EnsureAll(ed, ed.scalars, [h, ed.exporter.line]).1
  {
    var g, x, e := ed.grammar, ed.exporter.line, ed.scalars[0];
    InertLacks(g, g.header, [x]);
    LacksAll(g, e.assigns, 0, [x]);
    EnsureOnLayout(ed, e, [], h, [x], []);
    assert Whole([], h, [x], []) == [h, x];
  }

  lemma EmptyChanges<L>(ed: Editor<L>)
    ensures Edit(ed, []).1
  {
    assert EnsureAll(ed, ed.scalars, []).1 || PutExporter(ed, EnsureAll(ed, ed.scalars, []).0).1;
  }

  /** Three stale tables and nothing else: tame, and one table too many. */
  lemma ThreeStaleTables<L(!new)>(ed: Editor<L>, s: L)
    requires IsSane(ed) && ed.grammar.stale(s) && ed.grammar.header(s) && ed.grammar.delta(s) == 0
    ensures IsTame(ed, [s, s, s]) && Count(ed.grammar, ed.grammar.stale, 0, [s, s, s]) == 3
  {
    var g := ed.grammar;
    StaleRepeats(g, s, []);
    StaleRepeats(g, s, [s]);
    StaleRepeats(g, s, [s, s]);
    assert [s] + [] == [s] && [s] + [s] == [s, s] && [s] + [s, s] == [s, s, s];
  }

  lemma StaleRepeats<L>(g: Grammar<L>, s: L, rest: seq<L>)
    requires g.stale(s) && !g.otel(s) && g.delta(s) == 0
    ensures Depth(g, 0, [s] + rest) == Depth(g, 0, rest)
    ensures Lacks(g, g.otel, 0, [s] + rest) <==> Lacks(g, g.otel, 0, rest)
    ensures Count(g, g.stale, 0, [s] + rest) == 1 + Count(g, g.stale, 0, rest)
  {
    FlatHead(g, g.otel, s, rest);
    FlatHead(g, g.stale, s, rest);
  }

  // ---------- scanning with stored depths ----------

  /** Index of the first match in ls[at..to]. */
  function Rest<L>(g: Grammar<L>, p: L -> bool, ls: seq<L>, at: nat, to: nat): nat
    requires at <= to <= |ls|
  {
    at + First(g, p, Depth(g, 0, ls[..at]), ls[at..to])
  }

  lemma DepthNext<L>(g: Grammar<L>, ls: seq<L>, i: nat)
    requires i < |ls|
    ensures Depth(g, 0, ls[..i + 1]) == Clamp(Depth(g, 0, ls[..i]) + g.delta(ls[i]))
  {
    assert ls[..i + 1] == ls[..i] + [ls[i]];
    DepthConcat(g, 0, ls[..i], [ls[i]]);
    DepthOfOne(g, Depth(g, 0, ls[..i]), ls[i]);
  }

  lemma RestStep<L>(g: Grammar<L>, p: L -> bool, ls: seq<L>, at: nat, to: nat)
    requires at < to <= |ls|
    ensures Rest(g, p, ls, at, to) ==
            if Depth(g, 0, ls[..at]) == 0 && p(ls[at]) then at else Rest(g, p, ls, at + 1, to)
  {
    DepthNext(g, ls, at);
    assert ls[at..to][1..] == ls[at + 1..to];
  }

  lemma RestOfNone<L>(g: Grammar<L>, p: L -> bool, ls: seq<L>, to: nat)
    requires to <= |ls|
    ensures Rest(g, p, ls, to, to) == to
  {
  }

  // ---------- the cases of the two insertions ----------

  lemma EnsureAbsentCase<L>(ed: Editor<L>, e: Entry<L>, ls: seq<L>)
    requires Lacks(ed.grammar, ed.grammar.otel, 0, ls)
    ensures EnsureKey(ed, e, ls) == (AppendTable(ed, ls, e.line), true)
  {
  }

  lemma EnsureCases<L>(ed: Editor<L>, e: Entry<L>, ls: seq<L>, start: nat, end: nat)
    requires start == First(ed.grammar, ed.grammar.otel, 0, ls) && start < |ls|
             && end == TableEnd(ed.grammar, ls, start)
    ensures EnsureKey(ed, e, ls) ==
            if Rest(ed.grammar, e.assigns, ls, start + 1, end) < end then (ls, false)
               else (Inserted(ls, end, e.line), true)
  {
  }

  lemma ExportAbsentCase<L>(ed: Editor<L>, ls: seq<L>)
    requires Lacks(ed.grammar, ed.grammar.otel, 0, ls)
    ensures PutExporter(ed, ls) == (AppendTable(ed, ls, ed.exporter.line), true)
  {
  }

  function Put<L>(ls: seq<L>, end: nat, at: nat, line: L, same: bool): (seq<L>, bool)
    requires end <= |ls|
  {
    if at >= end then (Inserted(ls, end, line), true)
    else if same then (ls, false)
    else (Replaced(ls, at, line), true)
  }

  lemma ExportCases<L>(ed: Editor<L>, ls: seq<L>, start: nat, end: nat, at: nat)
    requires start == First(ed.grammar, ed.grammar.otel, 0, ls) && start < |ls|
             && end == TableEnd(ed.grammar, ls, start)
    requires at == Rest(ed.grammar, ed.exporter.assigns, ls, start + 1, end)
    ensures PutExporter(ed, ls) == Put(ls, end, at, ed.exporter.line, at < end && ed.wanted(ls[at]))
  {
    if at < end {
      if ed.wanted(ls[at]) {
        PutSame(ed, ls, start, at);
      } else {
        PutNew(ed, ls, start, at);
      }
    }
  }

  // ---------- where the lines come from ----------

  ghost predicate IsOwn<L(!new)>(ed: Editor<L>, l: L) {
    l == ed.empty || l == ed.head || l == ed.exporter.line || exists e :: e in ed.scalars && l == e.line
  }

  lemma EnsureLines<L>(ed: Editor<L>, e: Entry<L>, ls: seq<L>)
    ensures forall l :: l in EnsureKey(ed, e, ls).0 ==> l in ls || l == ed.empty || l == ed.head || l == e.line
  {
  }

  lemma ExportLines<L>(ed: Editor<L>, ls: seq<L>)
    ensures forall l :: l in PutExporter(ed, ls).0 ==> l in ls || l == ed.empty || l == ed.head || l == ed.exporter.line
  {
  }

  lemma {:induction false} EnsureAllLines<L(!new)>(ed: Editor<L>, entries: seq<Entry<L>>, ls: seq<L>)
    requires forall e :: e in entries ==> e in ed.scalars
    ensures forall l :: l in EnsureAll(ed, entries, ls).0 ==> l in ls || IsOwn(ed, l)
    decreases |entries|
  {
    if entries != [] {
      EnsureLines(ed, entries[0], ls);
      EnsureAllLines(ed, entries[1..], EnsureKey(ed, entries[0], ls).0);
      assert entries[0] in ed.scalars;
    }
  }

  lemma RemoveLines<L>(ed: Editor<L>, ls: seq<L>)
    ensures forall l :: l in RemoveStale(ed, ls).0 ==> l in ls
  {
  }

  /** Every line of the result was there or is the editor's own. */
  lemma EditLines<L(!new)>(ed: Editor<L>, ls: seq<L>)
    ensures forall l :: l in Edit(ed, ls).0 ==> l in ls || IsOwn(ed, l)
  {
    EnsureAllLines(ed, ed.scalars, ls);
    var managed := PutExporter(ed, EnsureAll(ed, ed.scalars, ls).0).0;
    ExportLines(ed, EnsureAll(ed, ed.scalars, ls).0);
    RemoveLines(ed, managed);
    RemoveLines(ed, RemoveStale(ed, managed).0);
    EditIs(ed, ls);
  }
}
