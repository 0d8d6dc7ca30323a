/** The markdown commands of the editor toolbar. Each command reads the
    document and the main selection, computes one change (a replaced
    range and the text put in its place) together with an optional new
    cursor, and dispatches it to the editor view, which applies the
    change to its document buffer. */
module EditorCommands {
  import opened Common

  /* ---------------------------------------------------------------------
     Changes, selections, dispatch
     --------------------------------------------------------------------- */

  /** Replace `doc[from..to]` by `insert`. */
  datatype Change = Change(from: nat, to: nat, insert: string)

  /** The main selection, `from <= to`; empty when they are equal. */
  datatype Range = Range(from: nat, to: nat)

  /** A change and, when the command sets one, the new selection. */
  datatype Transaction = Transaction(change: Change, selection: Option<Range>)

  datatype EditorState = EditorState(doc: string, sel: Range)

  predicate ValidRange(r: Range, n: nat) {
    r.from <= r.to <= n
  }

  predicate Valid(st: EditorState) {
    ValidRange(st.sel, |st.doc|)
  }

  predicate Fits(c: Change, doc: string) {
    c.from <= c.to <= |doc|
  }

  function Cursor(p: nat): Range { Range(p, p) }

  /** The document after the change. */
  function Apply(doc: string, c: Change): (r: string)
    requires Fits(c, doc)
    ensures |r| == |doc| - (c.to - c.from) + |c.insert|
  {
    doc[..c.from] + c.insert + doc[c.to..]
  }

  /** The change's text stands between the kept text before it and the
      kept text after it. */
  lemma ApplyParts(doc: string, c: Change)
    requires Fits(c, doc)
    ensures Apply(doc, c)[..c.from] == doc[..c.from]
    ensures Apply(doc, c)[c.from..c.from + |c.insert|] == c.insert
    ensures Apply(doc, c)[c.from + |c.insert|..] == doc[c.to..]
  {
    var r := Apply(doc, c);
    assert r[..c.from] == doc[..c.from];
    assert r[c.from..c.from + |c.insert|] == c.insert;
    assert r[c.from + |c.insert|..] == doc[c.to..];
  }

  /** Where a position moves when the change is applied: positions before
      the change stay, positions after it shift by the length difference;
      a position inside a replaced range goes to the start of the new text
      or, when `forward`, to its end; at a pure insertion point it stays
      before the inserted text unless `forward`. */
  function MapPos(p: nat, c: Change, forward: bool): (r: nat)
    requires c.from <= c.to
  {
    if p < c.from then p
    else if c.from == c.to then (if p == c.from && !forward then p else p + |c.insert|)
    else if p == c.from then c.from
    else if p < c.to then (if forward then c.from + |c.insert| else c.from)
    else p - (c.to - c.from) + |c.insert|
  }

  /** A selection carried through a change it does not name: a cursor
      keeps to the text before it; a range's start keeps to the text
      after it and its end to the text before it. Ends that cross are
      taken in order. */
  function MapSel(sel: Range, c: Change): (r: Range)
    requires c.from <= c.to
  {
    if sel.from == sel.to then Cursor(MapPos(sel.from, c, false))
    else
      var a := MapPos(sel.from, c, true);
      var b := MapPos(sel.to, c, false);
      if a <= b then Range(a, b) else Range(b, a)
  }

  lemma MapPosBound(p: nat, c: Change, forward: bool, n: nat)
    requires c.from <= c.to <= n && p <= n
    ensures MapPos(p, c, forward) <= n - (c.to - c.from) + |c.insert|
  {
  }

  /** `dispatch`: apply the change, then take the named selection or
      carry the old one through the change. */
  function Step(st: EditorState, tr: Transaction): EditorState
    requires Fits(tr.change, st.doc)
  {
    EditorState(Apply(st.doc, tr.change),
                if tr.selection.Some? then tr.selection.value else MapSel(st.sel, tr.change))
  }

  /** A transaction that a valid state accepts and that leaves it valid. */
  predicate Accepts(st: EditorState, tr: Transaction) {
    Fits(tr.change, st.doc)
    && (tr.selection.Some? ==>
          ValidRange(tr.selection.value, |st.doc| - (tr.change.to - tr.change.from) + |tr.change.insert|))
  }

  lemma StepValid(st: EditorState, tr: Transaction)
    requires Valid(st) && Accepts(st, tr)
    ensures Valid(Step(st, tr))
  {
    var c := tr.change;
    MapPosBound(st.sel.from, c, true, |st.doc|);
    MapPosBound(st.sel.from, c, false, |st.doc|);
    MapPosBound(st.sel.to, c, false, |st.doc|);
  }

  /** The change edits only `doc[from..to]`: the text before it and the
      text after it are kept. */
  lemma StepLocal(st: EditorState, tr: Transaction)
    requires Fits(tr.change, st.doc)
    ensures Step(st, tr).doc[..tr.change.from] == st.doc[..tr.change.from]
    ensures Step(st, tr).doc[tr.change.from + |tr.change.insert|..] == st.doc[tr.change.to..]
  {
    ApplyParts(st.doc, tr.change);
  }

  /** The editor view: the document buffer and the main selection. */
  class View {
    var doc: string
    var sel: Range

    constructor(doc: string)
      ensures this.doc == doc && sel == Cursor(0)
    {
      this.doc := doc;
      sel := Cursor(0);
    }

    function State(): EditorState
      reads this
    {
      EditorState(doc, sel)
    }

    /** `view.dispatch(transaction)`. */
    method Dispatch(tr: Transaction)
      requires Valid(State()) && Accepts(State(), tr)
      modifies this
      ensures State() == Step(old(State()), tr)
      ensures Valid(State())
    {
      StepValid(State(), tr);
      var c := tr.change;
      var before := sel;
      doc := doc[..c.from] + c.insert + doc[c.to..];
      if tr.selection.Some? {
        sel := tr.selection.value;
      } else {
        sel := MapSel(before, c);
      }
    }
  }

  /* ---------------------------------------------------------------------
     Lines
     --------------------------------------------------------------------- */

  /** No line break in `doc[a..b]`. */
  predicate NoBreak(doc: string, a: nat, b: nat)
    requires a <= b <= |doc|
    decreases b - a
  {
    a == b || (doc[b - 1] != '\n' && NoBreak(doc, a, b - 1))
  }

  lemma {:induction false} NoBreakAll(doc: string, a: nat, b: nat)
    requires a <= b <= |doc|
    ensures NoBreak(doc, a, b) <==> forall k :: a <= k < b ==> doc[k] != '\n'
    decreases b - a
  {
    if a < b {
      NoBreakAll(doc, a, b - 1);
    }
  }

  /** The start of the line holding `p`. */
  function LineStart(doc: string, p: nat): (r: nat)
    requires p <= |doc|
    ensures r <= p && (r == 0 || doc[r - 1] == '\n')
    decreases p
  {
    if p == 0 || doc[p - 1] == '\n' then p else LineStart(doc, p - 1)
  }

  /** The end of the line holding `p` (its line break or the end of the
      document). */
  function LineEnd(doc: string, p: nat): (r: nat)
    requires p <= |doc|
    ensures p <= r <= |doc| && (r == |doc| || doc[r] == '\n')
    decreases |doc| - p
  {
    if p == |doc| || doc[p] == '\n' then p else LineEnd(doc, p + 1)
  }

  lemma {:induction false} LineStartNoBreak(doc: string, p: nat)
    requires p <= |doc|
    ensures NoBreak(doc, LineStart(doc, p), p)
    decreases p
  {
    if !(p == 0 || doc[p - 1] == '\n') {
      LineStartNoBreak(doc, p - 1);
    }
  }

  lemma {:induction false} LineEndNoBreak(doc: string, p: nat)
    requires p <= |doc|
    ensures NoBreak(doc, p, LineEnd(doc, p))
    decreases |doc| - p
  {
    if !(p == |doc| || doc[p] == '\n') {
      var r := LineEnd(doc, p + 1);
      LineEndNoBreak(doc, p + 1);
      NoBreakAll(doc, p + 1, r);
      NoBreakAll(doc, p, r);
    }
  }

  lemma {:induction false} LineStartIs(doc: string, p: nat, s: nat)
    requires s <= p <= |doc| && (s == 0 || doc[s - 1] == '\n') && NoBreak(doc, s, p)
    ensures LineStart(doc, p) == s
    decreases p
  {
    if p > s {
      LineStartIs(doc, p - 1, s);
    }
  }

  lemma {:induction false} LineEndIs(doc: string, p: nat, e: nat)
    requires p <= e <= |doc| && (e == |doc| || doc[e] == '\n') && NoBreak(doc, p, e)
    ensures LineEnd(doc, p) == e
    decreases |doc| - p
  {
    if p < e {
      NoBreakAll(doc, p, e);
      NoBreakAll(doc, p + 1, e);
      LineEndIs(doc, p + 1, e);
    }
  }

  /** `state.doc.lineAt(from)`: the line's bounds. */
  datatype Line = Line(from: nat, to: nat)

  /** `l` is a whole line of `doc`. */
  predicate IsLine(doc: string, l: Line) {
    l.from <= l.to <= |doc| && (l.from == 0 || doc[l.from - 1] == '\n')
    && (l.to == |doc| || doc[l.to] == '\n') && NoBreak(doc, l.from, l.to)
  }

  function LineAt(doc: string, p: nat): (l: Line)
    requires p <= |doc|
    ensures l.from <= p <= l.to <= |doc|
  {
    Line(LineStart(doc, p), LineEnd(doc, p))
  }

  /** The line at `p` is a whole line. */
  lemma LineAtIsLine(doc: string, p: nat)
    requires p <= |doc|
    ensures IsLine(doc, LineAt(doc, p))
  {
    LineStartNoBreak(doc, p);
    LineEndNoBreak(doc, p);
    NoBreakAll(doc, LineStart(doc, p), p);
    NoBreakAll(doc, p, LineEnd(doc, p));
    NoBreakAll(doc, LineStart(doc, p), LineEnd(doc, p));
  }

  /** Replacing the start of a line by a text without line breaks keeps
      the line's start and moves its end by the length difference. */
  lemma {:induction false} LineAfterPrefixEdit(doc: string, s: nat, e: nat, k: nat, ins: string, p: nat)
    requires s + k <= e <= |doc| && (s == 0 || doc[s - 1] == '\n') && (e == |doc| || doc[e] == '\n')
    requires NoBreak(doc, s, e) && '\n' !in ins
    requires s <= p <= e - k + |ins|
    ensures p <= |Apply(doc, Change(s, s + k, ins))|
    ensures LineAt(Apply(doc, Change(s, s + k, ins)), p) == Line(s, e - k + |ins|)
  {
    var d := Apply(doc, Change(s, s + k, ins));
    var e' := e - k + |ins|;
    NoBreakAll(doc, s, e);
    assert s == 0 || d[s - 1] == doc[s - 1];
    forall j | s <= j < e' ensures d[j] != '\n' {
      if j < s + |ins| {
        assert d[j] == ins[j - s];
        assert ins[j - s] in ins;
      } else {
        assert d[j] == doc[j - |ins| + k];
      }
    }
    assert e' == |d| || d[e'] == doc[e];
    NoBreakAll(d, s, p);
    NoBreakAll(d, p, e');
    LineStartIs(d, p, s);
    LineEndIs(d, p, e');
  }

  /* ---------------------------------------------------------------------
     Line prefixes
     --------------------------------------------------------------------- */

  /** The number of leading characters satisfying `ok`. */
  function LeadingRun(t: string, ok: char -> bool): (r: nat)
    ensures r <= |t|
    decreases |t|
  {
    if t == [] || !ok(t[0]) then 0 else 1 + LeadingRun(t[1..], ok)
  }

  function IsHash(): char -> bool { c => c == '#' }
  function IsWhite(): char -> bool { c => IsSpace(c) }

  /** `/^(#+)\s/`: the length of the `#` run when a white-space character
      follows it. */
  function HeadingMatch(t: string): (r: Option<nat>)
    ensures r.Some? ==> 1 <= r.value < |t|
  {
    var k := LeadingRun(t, IsHash());
    if 1 <= k < |t| && IsSpace(t[k]) then Some(k) else None
  }

  /** `/^(\s*)-\s\[([ x])\]\s/`: the length of the leading white space. */
  function ChecklistMatch(t: string): (r: Option<nat>)
    ensures r.Some? ==> r.value + 6 <= |t|
  {
    var w := LeadingRun(t, IsWhite());
    if w + 6 <= |t| && t[w] == '-' && IsSpace(t[w + 1]) && t[w + 2] == '['
       && (t[w + 3] == ' ' || t[w + 3] == 'x') && t[w + 4] == ']' && IsSpace(t[w + 5])
    then Some(w) else None
  }

  /** `/^(\s*)>\s/`: the length of the leading white space. */
  function QuoteMatch(t: string): (r: Option<nat>)
    ensures r.Some? ==> r.value + 2 <= |t|
  {
    var w := LeadingRun(t, IsWhite());
    if w + 2 <= |t| && t[w] == '>' && IsSpace(t[w + 1]) then Some(w) else None
  }

  /** `'#'.repeat(level) + ' '`. */
  function HeadingSyntax(level: nat): (r: string)
    ensures |r| == level + 1 && '\n' !in r
  {
    var hashes := Repeat('#', level);
    assert forall c :: c in hashes ==> c == '#';
    hashes + " "
  }

  /** A line that starts with the heading syntax of a positive level
      matches with that level. */
  lemma HeadingOfSyntax(level: nat, rest: string)
    requires level >= 1
    ensures HeadingMatch(HeadingSyntax(level) + rest) == Some(level)
  {
    var t := HeadingSyntax(level) + rest;
    assert t == Repeat('#', level) + " " + rest;
    assert t[level] == ' ';
    LeadingRunExact(t, IsHash(), level);
  }

  lemma {:induction false} LeadingRunExact(t: string, ok: char -> bool, n: nat)
    requires n <= |t| && (forall k :: 0 <= k < n ==> ok(t[k])) && (n == |t| || !ok(t[n]))
    ensures LeadingRun(t, ok) == n
    decreases n
  {
    if n > 0 {
      LeadingRunExact(t[1..], ok, n - 1);
    }
  }

  /* ---------------------------------------------------------------------
     The commands, as transactions
     --------------------------------------------------------------------- */

  /** The text of the line holding the start of the selection. */
  function LineText(st: EditorState): string
    requires Valid(st)
  {
    var line := LineAt(st.doc, st.sel.from);
    st.doc[line.from..line.to]
  }

  /** `toggleInlineFormat`. */
  function InlineTr(st: EditorState, syntax: string): (tr: Transaction)
    requires Valid(st)
    ensures Accepts(st, tr)
  {
    var f, t := st.sel.from, st.sel.to;
    if f == t then Transaction(Change(f, f, syntax + syntax), Some(Cursor(f + |syntax|)))
    else Transaction(Change(f, t, syntax + st.doc[f..t] + syntax), None)
  }

  /** `toggleHeading`. */
  function HeadingTr(st: EditorState, level: nat): (tr: Transaction)
    requires Valid(st)
    ensures Accepts(st, tr)
  {
    var line := LineAt(st.doc, st.sel.from);
    var syntax := HeadingSyntax(level);
    match HeadingMatch(LineText(st))
    case Some(k) =>
      if k == level then Transaction(Change(line.from, line.from + k + 1, ""), None)
      else Transaction(Change(line.from, line.from + k + 1, syntax), None)
    case None => Transaction(Change(line.from, line.from, syntax), Some(Cursor(line.from + |syntax|)))
  }

  const CodeBlock: string := "```\n코드 입력\n```"

  /** `insertCodeBlock`. */
  function CodeBlockTr(st: EditorState): (tr: Transaction)
    requires Valid(st)
    ensures Accepts(st, tr)
  {
    Transaction(Change(st.sel.from, st.sel.from, CodeBlock), Some(Cursor(st.sel.from + 4)))
  }

  /** The link text: the selection, or `link` when it is empty. */
  function LinkText(st: EditorState): string
    requires Valid(st)
  {
    if st.sel.from == st.sel.to then "link" else st.doc[st.sel.from..st.sel.to]
  }

  /** `insertLink` as written: `url` is what `prompt` returned (`None`
      for a cancelled prompt); the text ends after the URL, without the
      closing parenthesis. */
  function LinkTrAsWritten(st: EditorState, url: Option<string>): (tr: Option<Transaction>)
    requires Valid(st)
    ensures tr.Some? ==> Accepts(st, tr.value)
  {
    if url.None? || url.value == "" then None
    else Some(Transaction(Change(st.sel.from, st.sel.to, "[" + LinkText(st) + "](" + url.value), None))
  }

  /** `insertLink` with the closing parenthesis the markdown link needs. */
  function LinkTr(st: EditorState, url: Option<string>): (tr: Option<Transaction>)
    requires Valid(st)
    ensures tr.Some? ==> Accepts(st, tr.value)
  {
    if url.None? || url.value == "" then None
    else Some(Transaction(Change(st.sel.from, st.sel.to, "[" + LinkText(st) + "](" + url.value + ")"), None))
  }

  /** `insertImageMarkdown`. */
  function ImageTr(st: EditorState, url: string): (tr: Transaction)
    requires Valid(st)
    ensures Accepts(st, tr)
  {
    Transaction(Change(st.sel.from, st.sel.from, "![image](" + url + ")"), None)
  }

  /** `insertChecklist`. */
  function ChecklistTr(st: EditorState): (tr: Transaction)
    requires Valid(st)
    ensures Accepts(st, tr)
  {
    var line := LineAt(st.doc, st.sel.from);
    match ChecklistMatch(LineText(st))
    case Some(w) => Transaction(Change(line.from + w, line.from + w + 6, ""), None)
    case None => Transaction(Change(line.from, line.from, "- [ ] "), Some(Cursor(line.from + 6)))
  }

  /** `toggleQuote`. */
  function QuoteTr(st: EditorState): (tr: Transaction)
    requires Valid(st)
    ensures Accepts(st, tr)
  {
    var line := LineAt(st.doc, st.sel.from);
    match QuoteMatch(LineText(st))
    case Some(w) => Transaction(Change(line.from + w, line.from + w + 2, ""), None)
    case None => Transaction(Change(line.from, line.from, "> "), Some(Cursor(line.from + 2)))
  }

  /* ---------------------------------------------------------------------
     The states the commands leave
     --------------------------------------------------------------------- */

  function AfterInline(st: EditorState, syntax: string): (r: EditorState)
    requires Valid(st)
    ensures Valid(r)
  {
    StepValid(st, InlineTr(st, syntax));
    Step(st, InlineTr(st, syntax))
  }

  function AfterHeading(st: EditorState, level: nat): (r: EditorState)
    requires Valid(st)
    ensures Valid(r)
  {
    StepValid(st, HeadingTr(st, level));
    Step(st, HeadingTr(st, level))
  }

  function AfterCodeBlock(st: EditorState): (r: EditorState)
    requires Valid(st)
    ensures Valid(r)
  {
    StepValid(st, CodeBlockTr(st));
    Step(st, CodeBlockTr(st))
  }

  function AfterLinkAsWritten(st: EditorState, url: Option<string>): (r: EditorState)
    requires Valid(st)
    ensures Valid(r)
  {
    match LinkTrAsWritten(st, url)
    case None => st
    case Some(tr) => StepValid(st, tr); Step(st, tr)
  }

  function AfterLink(st: EditorState, url: Option<string>): (r: EditorState)
    requires Valid(st)
    ensures Valid(r)
  {
    match LinkTr(st, url)
    case None => st
    case Some(tr) => StepValid(st, tr); Step(st, tr)
  }

  function AfterImage(st: EditorState, url: string): (r: EditorState)
    requires Valid(st)
    ensures Valid(r)
  {
    StepValid(st, ImageTr(st, url));
    Step(st, ImageTr(st, url))
  }

  function AfterChecklist(st: EditorState): (r: EditorState)
    requires Valid(st)
    ensures Valid(r)
  {
    StepValid(st, ChecklistTr(st));
    Step(st, ChecklistTr(st))
  }

  function AfterQuote(st: EditorState): (r: EditorState)
    requires Valid(st)
    ensures Valid(r)
  {
    StepValid(st, QuoteTr(st));
    Step(st, QuoteTr(st))
  }

  /* ---------------------------------------------------------------------
     What the commands do
     --------------------------------------------------------------------- */

  /** `after` keeps `before`'s text outside `before[a..b]`. */
  predicate EditsOnly(before: string, after: string, a: nat, b: nat)
    requires a <= b <= |before|
  {
    |after| >= a + (|before| - b)
    && after[..a] == before[..a] && after[|after| - (|before| - b)..] == before[b..]
  }

  lemma ChangeWithin(doc: string, c: Change, a: nat, b: nat)
    requires a <= c.from <= c.to <= b <= |doc|
    ensures EditsOnly(doc, Apply(doc, c), a, b)
  {
    var r := Apply(doc, c);
    ApplyParts(doc, c);
    assert r[..a] == r[..c.from][..a];
    assert doc[..a] == doc[..c.from][..a];
    assert r[|r| - (|doc| - b)..] == r[c.from + |c.insert|..][b - c.to..];
    assert doc[b..] == doc[c.to..][b - c.to..];
  }

  /** The heading, checklist and quote commands change text only within
      the line holding the selection's start. */
  lemma LineCommandsStayLocal(st: EditorState, level: nat)
    requires Valid(st)
    ensures var line := LineAt(st.doc, st.sel.from);
            EditsOnly(st.doc, AfterHeading(st, level).doc, line.from, line.to)
            && EditsOnly(st.doc, AfterChecklist(st).doc, line.from, line.to)
            && EditsOnly(st.doc, AfterQuote(st).doc, line.from, line.to)
  {
    var line := LineAt(st.doc, st.sel.from);
    ChangeWithin(st.doc, HeadingTr(st, level).change, line.from, line.to);
    ChangeWithin(st.doc, ChecklistTr(st).change, line.from, line.to);
    ChangeWithin(st.doc, QuoteTr(st).change, line.from, line.to);
  }

  /** The inline and link commands change text only within the
      selection; the code block and image commands insert at its start. */
  lemma SelectionCommandsStayLocal(st: EditorState, syntax: string, url: Option<string>, image: string)
    requires Valid(st)
    ensures EditsOnly(st.doc, AfterInline(st, syntax).doc, st.sel.from, st.sel.to)
    ensures EditsOnly(st.doc, AfterLink(st, url).doc, st.sel.from, st.sel.to)
    ensures EditsOnly(st.doc, AfterCodeBlock(st).doc, st.sel.from, st.sel.from)
    ensures EditsOnly(st.doc, AfterImage(st, image).doc, st.sel.from, st.sel.from)
  {
    ChangeWithin(st.doc, InlineTr(st, syntax).change, st.sel.from, st.sel.to);
    if LinkTr(st, url).Some? {
      ChangeWithin(st.doc, LinkTr(st, url).value.change, st.sel.from, st.sel.to);
    } else {
      ChangeWithin(st.doc, Change(st.sel.from, st.sel.from, ""), st.sel.from, st.sel.to);
      assert Apply(st.doc, Change(st.sel.from, st.sel.from, "")) == st.doc;
    }
    ChangeWithin(st.doc, CodeBlockTr(st).change, st.sel.from, st.sel.from);
    ChangeWithin(st.doc, ImageTr(st, image).change, st.sel.from, st.sel.from);
  }

  /** With an empty selection the pair of markers is inserted and the
      cursor put between them; otherwise the selection is wrapped and
      still spans the wrapped text. Either way the document grows by
      twice the marker. */
  lemma InlineFacts(st: EditorState, syntax: string)
    requires Valid(st)
    ensures var r := AfterInline(st, syntax);
            var f, t := st.sel.from, st.sel.to;
            r.doc == st.doc[..f] + syntax + st.doc[f..t] + syntax + st.doc[t..]
            && |r.doc| == |st.doc| + 2 * |syntax|
            && (f == t ==> r.sel == Cursor(f + |syntax|))
            && (f < t ==> r.sel == Range(f, t + 2 * |syntax|))
  {
    var f, t := st.sel.from, st.sel.to;
    if f == t {
      assert st.doc[f..t] == [];
    }
  }

  /** Replacing the first `k` characters of a line. */
  lemma EditLineStart(doc: string, l: Line, k: nat, ins: string)
    requires l.from + k <= l.to <= |doc|
    ensures Apply(doc, Change(l.from, l.from + k, ins))
            == doc[..l.from] + ins + doc[l.from..l.to][k..] + doc[l.to..]
  {
    assert doc[l.from + k..] == doc[l.from..l.to][k..] + doc[l.to..];
  }

  /** The same level removes the `#` run and the white-space character
      after it. */
  lemma HeadingSameLevel(st: EditorState, level: nat, a: nat)
    requires Valid(st) && HeadingMatch(LineText(st)) == Some(level) && LineAt(st.doc, st.sel.from).from == a
    ensures a + level + 1 <= |st.doc| && AfterHeading(st, level).doc == Apply(st.doc, Change(a, a + level + 1, ""))
  {
  }

  /** The same level removes the heading prefix. */
  lemma HeadingRemoves(st: EditorState, level: nat)
    requires Valid(st) && HeadingMatch(LineText(st)) == Some(level)
    ensures var line := LineAt(st.doc, st.sel.from);
            AfterHeading(st, level).doc == st.doc[..line.from] + LineText(st)[level + 1..] + st.doc[line.to..]
  {
    var line := LineAt(st.doc, st.sel.from);
    assert HeadingTr(st, level).change == Change(line.from, line.from + level + 1, "");
    EditLineStart(st.doc, line, level + 1, "");
  }

  /** A different level replaces the heading prefix. */
  lemma HeadingReplaces(st: EditorState, level: nat)
    requires Valid(st) && HeadingMatch(LineText(st)).Some? && HeadingMatch(LineText(st)) != Some(level)
    ensures var line := LineAt(st.doc, st.sel.from);
            var k := HeadingMatch(LineText(st)).value;
            AfterHeading(st, level).doc
            == st.doc[..line.from] + HeadingSyntax(level) + LineText(st)[k + 1..] + st.doc[line.to..]
  {
    var line := LineAt(st.doc, st.sel.from);
    var k := HeadingMatch(LineText(st)).value;
    assert HeadingTr(st, level).change == Change(line.from, line.from + k + 1, HeadingSyntax(level));
    EditLineStart(st.doc, line, k + 1, HeadingSyntax(level));
  }

  /** A line without a heading gets one, with the cursor after it. */
  lemma HeadingAdds(st: EditorState, level: nat)
    requires Valid(st) && HeadingMatch(LineText(st)).None?
    ensures var line := LineAt(st.doc, st.sel.from);
            AfterHeading(st, level)
            == EditorState(Apply(st.doc, Change(line.from, line.from, HeadingSyntax(level))),
                           Cursor(line.from + level + 1))
  {
  }

  /** Inserting a one-line prefix at the start of a line leaves the
      position after it on that line, which grew by the prefix. */
  lemma PrefixLine(doc: string, l: Line, p: string)
    requires IsLine(doc, l) && '\n' !in p
    ensures LineAt(Apply(doc, Change(l.from, l.from, p)), l.from + |p|) == Line(l.from, l.to + |p|)
  {
    LineAfterPrefixEdit(doc, l.from, l.to, 0, p, l.from + |p|);
  }

  /** The line's text gains the prefix. */
  lemma PrefixText(doc: string, l: Line, p: string)
    requires l.from <= l.to <= |doc|
    ensures Apply(doc, Change(l.from, l.from, p))[l.from..l.to + |p|] == p + doc[l.from..l.to]
  {
  }

  /** Removing the inserted prefix gives the document back. */
  lemma PrefixUndone(doc: string, a: nat, p: string)
    requires a <= |doc|
    ensures Apply(Apply(doc, Change(a, a, p)), Change(a, a + |p|, "")) == doc
  {
    var d := Apply(doc, Change(a, a, p));
    assert d[..a] == doc[..a];
    assert d[a + |p|..] == doc[a..];
  }

  /** With a one-line prefix inserted at the start of the current line
      and the cursor after it, the cursor is on the same line, which grew
      by the prefix. */
  lemma PrefixedLine(st: EditorState, p: string)
    requires Valid(st) && '\n' !in p
    ensures var l := LineAt(st.doc, st.sel.from);
            var once := EditorState(Apply(st.doc, Change(l.from, l.from, p)), Cursor(l.from + |p|));
            Valid(once) && LineAt(once.doc, once.sel.from) == Line(l.from, l.to + |p|)
  {
    var l := LineAt(st.doc, st.sel.from);
    LineAtIsLine(st.doc, st.sel.from);
    PrefixLine(st.doc, l, p);
  }

  /** ... and the text of that line is the prefix followed by the old
      text. */
  lemma PrefixedText(st: EditorState, p: string, once: EditorState)
    requires Valid(st) && '\n' !in p
    requires var l := LineAt(st.doc, st.sel.from);
             once == EditorState(Apply(st.doc, Change(l.from, l.from, p)), Cursor(l.from + |p|))
    ensures var l := LineAt(st.doc, st.sel.from);
            Valid(once) && LineAt(once.doc, once.sel.from) == Line(l.from, l.to + |p|)
            && LineText(once) == p + LineText(st)
  {
    var l := LineAt(st.doc, st.sel.from);
    PrefixedLine(st, p);
    PrefixText(st.doc, l, p);
  }

  /** Toggling the same heading level twice on a line without a heading
      restores the document. */
  lemma HeadingTwice(st: EditorState, level: nat)
    requires Valid(st) && level >= 1
    requires HeadingMatch(LineText(st)).None?
    ensures AfterHeading(AfterHeading(st, level), level).doc == st.doc
  {
    var l := LineAt(st.doc, st.sel.from);
    var syntax := HeadingSyntax(level);
    var once := AfterHeading(st, level);
    HeadingAdds(st, level);
    PrefixedText(st, syntax, once);
    HeadingOfSyntax(level, LineText(st));
    HeadingSameLevel(once, level, l.from);
    PrefixUndone(st.doc, l.from, syntax);
  }

  /** The code block goes in at the start of the selection, replacing
      nothing, and the cursor lands on the placeholder line after the
      opening fence. */
  lemma CodeBlockFacts(st: EditorState)
    requires Valid(st)
    ensures var r := AfterCodeBlock(st);
            r.doc == st.doc[..st.sel.from] + CodeBlock + st.doc[st.sel.from..]
            && r.sel == Cursor(st.sel.from + 4)
            && r.doc[st.sel.from + 3] == '\n'
            && r.doc[st.sel.from + 4..st.sel.from + 9] == "코드 입력"
  {
    var c := Change(st.sel.from, st.sel.from, CodeBlock);
    var r := AfterCodeBlock(st);
    assert r.doc == Apply(st.doc, c) && r.sel == Cursor(st.sel.from + 4);
    ApplyParts(st.doc, c);
    assert r.doc[st.sel.from..st.sel.from + |CodeBlock|] == CodeBlock;
    assert CodeBlock[3] == '\n' && CodeBlock[4..9] == "코드 입력";
    assert r.doc[st.sel.from + 3] == CodeBlock[3];
    assert r.doc[st.sel.from + 4..st.sel.from + 9] == CodeBlock[4..9];
  }

  /** A cancelled or empty prompt changes nothing; otherwise the
      selection (or `link`) becomes the link text of a link to the URL. */
  lemma LinkFacts(st: EditorState, url: Option<string>)
    requires Valid(st)
    ensures url.None? || url.value == "" ==> AfterLink(st, url) == st
    ensures url.Some? && url.value != "" ==>
              var ins := "[" + LinkText(st) + "](" + url.value + ")";
              AfterLink(st, url).doc == st.doc[..st.sel.from] + ins + st.doc[st.sel.to..]
              && IsLink(ins, LinkText(st), url.value)
  {
    if url.Some? && url.value != "" {
      LinkIsLink(LinkText(st), url.value);
    }
  }

  /** A markdown inline link: `[`, the text, `](`, the URL, `)`. */
  predicate IsLink(s: string, text: string, url: string) {
    |s| == |text| + |url| + 4
    && s[0] == '[' && s[1..|text| + 1] == text && s[|text| + 1..|text| + 3] == "]("
    && s[|text| + 3..|s| - 1] == url && s[|s| - 1] == ')'
  }

  lemma LinkIsLink(text: string, url: string)
    ensures IsLink("[" + text + "](" + url + ")", text, url)
  {
    var s := "[" + text + "](" + url + ")";
    assert s[1..|text| + 1] == text;
    assert s[|text| + 3..|s| - 1] == url;
  }

  /** What the as-written command inserts is one character short of a
      link and, for a URL that does not end in `)`, no link at all. */
  lemma LinkAsWrittenUnclosed(st: EditorState, url: string)
    requires Valid(st) && url != [] && url[|url| - 1] != ')'
    ensures var ins := "[" + LinkText(st) + "](" + url;
            AfterLinkAsWritten(st, Some(url)).doc == st.doc[..st.sel.from] + ins + st.doc[st.sel.to..]
            && forall t, u :: !IsLink(ins, t, u)
  {
    var ins := "[" + LinkText(st) + "](" + url;
    forall t, u ensures !IsLink(ins, t, u) {
      assert ins[|ins| - 1] == url[|url| - 1];
    }
  }

  /** The image markdown goes in at the start of the selection. */
  lemma ImageFacts(st: EditorState, url: string)
    requires Valid(st)
    ensures AfterImage(st, url).doc == st.doc[..st.sel.from] + "![image](" + url + ")" + st.doc[st.sel.from..]
  {
  }

  /** A plain line prefixed with an unchecked box matches the checklist
      pattern with no leading white space. */
  lemma ChecklistOfBox(text: string)
    ensures ChecklistMatch("- [ ] " + text) == Some(0)
  {
    LeadingRunExact("- [ ] " + text, IsWhite(), 0);
  }

  /** On a line without a box the command inserts one at the line's
      start and puts the cursor after it. */
  lemma ChecklistAdds(st: EditorState)
    requires Valid(st) && ChecklistMatch(LineText(st)).None?
    ensures var line := LineAt(st.doc, st.sel.from);
            AfterChecklist(st) == EditorState(Apply(st.doc, Change(line.from, line.from, "- [ ] ")), Cursor(line.from + 6))
  {
  }

  /** A box after the leading white space is removed, and the white space
      is kept. */
  lemma ChecklistRemoves(st: EditorState)
    requires Valid(st) && ChecklistMatch(LineText(st)).Some?
    ensures var line := LineAt(st.doc, st.sel.from);
            var w := ChecklistMatch(LineText(st)).value;
            AfterChecklist(st).doc == st.doc[..line.from + w] + st.doc[line.from + w + 6..]
  {
  }

  /** On a line whose text starts with the marker, the command removes
      it. */
  lemma ChecklistSecond(st: EditorState, a: nat)
    requires Valid(st) && ChecklistMatch(LineText(st)) == Some(0) && LineAt(st.doc, st.sel.from).from == a
    ensures a + 6 <= |st.doc| && AfterChecklist(st).doc == Apply(st.doc, Change(a, a + 6, ""))
  {
  }

  /** A line without a checklist box gets `- [ ] ` at its start with the
      cursor after it, and a second toggle removes it again. */
  lemma ChecklistTwice(st: EditorState)
    requires Valid(st) && ChecklistMatch(LineText(st)).None?
    ensures AfterChecklist(AfterChecklist(st)).doc == st.doc
  {
    var l := LineAt(st.doc, st.sel.from);
    var once := AfterChecklist(st);
    ChecklistAdds(st);
    PrefixedText(st, "- [ ] ", once);
    ChecklistOfBox(LineText(st));
    ChecklistSecond(once, l.from);
    PrefixUndone(st.doc, l.from, "- [ ] ");
  }

  /** A line prefixed with `> ` matches the quote pattern with no
      leading white space. */
  lemma QuoteOfMarker(text: string)
    ensures QuoteMatch("> " + text) == Some(0)
  {
    LeadingRunExact("> " + text, IsWhite(), 0);
  }

  /** On a line without a quote marker the command inserts `> ` at the
      line's start and puts the cursor after it. */
  lemma QuoteAdds(st: EditorState)
    requires Valid(st) && QuoteMatch(LineText(st)).None?
    ensures var line := LineAt(st.doc, st.sel.from);
            AfterQuote(st) == EditorState(Apply(st.doc, Change(line.from, line.from, "> ")), Cursor(line.from + 2))
  {
  }

  /** A quote marker after the leading white space is removed, and the
      white space is kept. */
  lemma QuoteRemoves(st: EditorState)
    requires Valid(st) && QuoteMatch(LineText(st)).Some?
    ensures var line := LineAt(st.doc, st.sel.from);
            var w := QuoteMatch(LineText(st)).value;
            AfterQuote(st).doc == st.doc[..line.from + w] + st.doc[line.from + w + 2..]
  {
  }

  /** On a line whose text starts with the marker, the command removes
      it. */
  lemma QuoteSecond(st: EditorState, a: nat)
    requires Valid(st) && QuoteMatch(LineText(st)) == Some(0) && LineAt(st.doc, st.sel.from).from == a
    ensures a + 2 <= |st.doc| && AfterQuote(st).doc == Apply(st.doc, Change(a, a + 2, ""))
  {
  }

  /** Toggling the quote twice on a line without one restores the
      document. */
  lemma QuoteTwice(st: EditorState)
    requires Valid(st) && QuoteMatch(LineText(st)).None?
    ensures AfterQuote(AfterQuote(st)).doc == st.doc
  {
    var l := LineAt(st.doc, st.sel.from);
    var once := AfterQuote(st);
    QuoteAdds(st);
    PrefixedText(st, "> ", once);
    QuoteOfMarker(LineText(st));
    QuoteSecond(once, l.from);
    PrefixUndone(st.doc, l.from, "> ");
  }

  /* ---------------------------------------------------------------------
     The commands on the view
     --------------------------------------------------------------------- */

  method ToggleInlineFormat(view: View, syntax: string)
    requires Valid(view.State())
    modifies view
    ensures view.State() == AfterInline(old(view.State()), syntax)
  {
    var f, t := view.sel.from, view.sel.to;
    var tr := if f == t then Transaction(Change(f, f, syntax + syntax), Some(Cursor(f + |syntax|)))
              else Transaction(Change(f, t, syntax + view.doc[f..t] + syntax), None);
    view.Dispatch(tr);
  }

  method ToggleHeading(view: View, level: nat)
    requires Valid(view.State())
    modifies view
    ensures view.State() == AfterHeading(old(view.State()), level)
  {
    var tr := HeadingTr(view.State(), level);
    view.Dispatch(tr);
  }

  method InsertCodeBlock(view: View)
    requires Valid(view.State())
    modifies view
    ensures view.State() == AfterCodeBlock(old(view.State()))
  {
    var from := view.sel.from;
    view.Dispatch(Transaction(Change(from, from, CodeBlock), Some(Cursor(from + 4))));
  }

  /** `insertLink` as the source writes it; `url` is the prompt's answer. */
  method InsertLink(view: View, url: Option<string>)
    requires Valid(view.State())
    modifies view
    ensures view.State() == AfterLinkAsWritten(old(view.State()), url)
  {
    if url.None? || url.value == "" {
      return;
    }
    var tr := LinkTrAsWritten(view.State(), url);
    view.Dispatch(tr.value);
  }

  method InsertImageMarkdown(view: View, url: string)
    requires Valid(view.State())
    modifies view
    ensures view.State() == AfterImage(old(view.State()), url)
  {
    var from := view.sel.from;
    view.Dispatch(Transaction(Change(from, from, "![image](" + url + ")"), None));
  }

  method InsertChecklist(view: View)
    requires Valid(view.State())
    modifies view
    ensures view.State() == AfterChecklist(old(view.State()))
  {
    var tr := ChecklistTr(view.State());
    view.Dispatch(tr);
  }

  method ToggleQuote(view: View)
    requires Valid(view.State())
    modifies view
    ensures view.State() == AfterQuote(old(view.State()))
  {
    var tr := QuoteTr(view.State());
    view.Dispatch(tr);
  }

  /** The commands the toolbar buttons hand to `executeCommand`. */
  datatype Command =
    | InlineFormat(syntax: string)
    | Heading(level: nat)
    | CodeBlockCommand
    | LinkCommand(url: Option<string>)
    | ImageCommand(imageUrl: string)
    | ChecklistCommand
    | QuoteCommand

  /** The state a command leaves. */
  function AfterCommand(st: EditorState, cmd: Command): (r: EditorState)
    requires Valid(st)
    ensures Valid(r)
  {
    match cmd
    case InlineFormat(syntax) => AfterInline(st, syntax)
    case Heading(level) => AfterHeading(st, level)
    case CodeBlockCommand => AfterCodeBlock(st)
    case LinkCommand(url) => AfterLinkAsWritten(st, url)
    case ImageCommand(url) => AfterImage(st, url)
    case ChecklistCommand => AfterChecklist(st)
    case QuoteCommand => AfterQuote(st)
  }

  /** `executeCommand`: the command runs on the editor's view when there
      is one, and nothing happens when the editor has not mounted. */
  method ExecuteCommand(view: View?, cmd: Command)
    requires view != null ==> Valid(view.State())
    modifies view
    ensures view != null ==> view.State() == AfterCommand(old(view.State()), cmd)
  {
    if view == null {
      return;
    }
    match cmd
    case InlineFormat(syntax) => ToggleInlineFormat(view, syntax);
    case Heading(level) => ToggleHeading(view, level);
    case CodeBlockCommand => InsertCodeBlock(view);
    case LinkCommand(url) => InsertLink(view, url);
    case ImageCommand(url) => InsertImageMarkdown(view, url);
    case ChecklistCommand => InsertChecklist(view);
    case QuoteCommand => ToggleQuote(view);
  }
}
