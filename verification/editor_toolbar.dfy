/** The dashboard's first toolbar. Its inline-format and code-block
    commands are the ones of the command module; its heading toggle
    rewrites the whole current line, its link command closes the link, and
    its buttons map onto these commands (the quote button included, which
    toggles a first-level heading). */
module EditorToolbar {
  import opened Common
  import opened EditorCommands

  /* ---------------------------------------------------------------------
     The heading toggle that rewrites the line
     --------------------------------------------------------------------- */

  /** The line's new text: the same level drops the `#` run and the
      white-space character after it, another level replaces them by its
      own prefix, and a line without a heading gets the prefix. */
  function HeadingLine(text: string, level: nat): (r: string)
    ensures '\n' !in text ==> '\n' !in r
  {
    match HeadingMatch(text)
    case Some(k) =>
      assert forall c :: c in text[k + 1..] ==> c in text;
      if k == level then text[k + 1..] else HeadingSyntax(level) + text[k + 1..]
    case None => HeadingSyntax(level) + text
  }

  /** Toggling a level twice on a line that does not already carry that
      level gives the line back without its heading prefix: the line
      itself when it had none. */
  lemma HeadingLineTwice(text: string, level: nat)
    requires level >= 1 && HeadingMatch(text) != Some(level)
    ensures HeadingMatch(text).None? ==> HeadingLine(HeadingLine(text, level), level) == text
    ensures HeadingMatch(text).Some? ==>
              HeadingLine(HeadingLine(text, level), level) == text[HeadingMatch(text).value + 1..]
  {
    var syntax := HeadingSyntax(level);
    match HeadingMatch(text)
    case Some(k) =>
      var once := syntax + text[k + 1..];
      assert HeadingLine(text, level) == once;
      HeadingOfSyntax(level, text[k + 1..]);
      assert once[level + 1..] == text[k + 1..];
    case None =>
      var once := syntax + text;
      assert HeadingLine(text, level) == once;
      HeadingOfSyntax(level, text);
      assert once[level + 1..] == text;
  }

  /** The toolbar's `toggleHeading` as a transaction: the whole line is
      replaced, and no selection is named. */
  function RewriteHeadingTr(st: EditorState, level: nat): (tr: Transaction)
    requires Valid(st)
    ensures Accepts(st, tr)
  {
    var line := LineAt(st.doc, st.sel.from);
    Transaction(Change(line.from, line.to, HeadingLine(LineText(st), level)), None)
  }

  function AfterRewriteHeading(st: EditorState, level: nat): (r: EditorState)
    requires Valid(st)
    ensures Valid(r)
  {
    StepValid(st, RewriteHeadingTr(st, level));
    Step(st, RewriteHeadingTr(st, level))
  }

  /** A selection whose start lies in the replaced range starts, once
      carried through the change, inside the new text. */
  lemma MapSelInReplaced(sel: Range, c: Change)
    requires c.from <= sel.from <= c.to && sel.from <= sel.to
    ensures c.from <= MapSel(sel, c).from <= c.from + |c.insert|
  {
  }

  /** Replacing the current line by a text without line breaks keeps
      the selection's start on the line, which now holds that text. */
  lemma ReplacedLine(st: EditorState, n: string)
    requires Valid(st) && '\n' !in n
    ensures var l := LineAt(st.doc, st.sel.from);
            var c := Change(l.from, l.to, n);
            var r := EditorState(Apply(st.doc, c), MapSel(st.sel, c));
            Valid(r) && LineAt(r.doc, r.sel.from) == Line(l.from, l.from + |n|)
  {
    var l := LineAt(st.doc, st.sel.from);
    var c := Change(l.from, l.to, n);
    var p := MapSel(st.sel, c).from;
    assert Valid(EditorState(Apply(st.doc, c), MapSel(st.sel, c))) by {
      StepValid(st, Transaction(c, None));
    }
    assert l.from <= p <= l.from + |n| by {
      MapSelInReplaced(st.sel, c);
    }
    assert IsLine(st.doc, l) by {
      LineAtIsLine(st.doc, st.sel.from);
    }
    var k := l.to - l.from;
    assert Change(l.from, l.from + k, n) == c && l.to - k + |n| == l.from + |n|;
    LineAfterPrefixEdit(st.doc, l.from, l.to, k, n, p);
  }

  /** The line the rewrite leaves. */
  lemma RewriteHeadingState(st: EditorState, level: nat)
    requires Valid(st)
    ensures var l := LineAt(st.doc, st.sel.from);
            var c := Change(l.from, l.to, HeadingLine(LineText(st), level));
            AfterRewriteHeading(st, level) == EditorState(Apply(st.doc, c), MapSel(st.sel, c))
            && '\n' !in c.insert
  {
    var l := LineAt(st.doc, st.sel.from);
    LineAtIsLine(st.doc, st.sel.from);
    NoBreakAll(st.doc, l.from, l.to);
    assert '\n' !in LineText(st);
  }

  /** The document becomes the old one with the line's text replaced,
      and the selection's start stays on that line, whose text is now the
      new one. */
  lemma RewriteHeadingLine(st: EditorState, level: nat)
    requires Valid(st)
    ensures var l := LineAt(st.doc, st.sel.from);
            var n := HeadingLine(LineText(st), level);
            var r := AfterRewriteHeading(st, level);
            r.doc == st.doc[..l.from] + n + st.doc[l.to..]
            && LineAt(r.doc, r.sel.from) == Line(l.from, l.from + |n|)
            && LineText(r) == n
  {
    var l := LineAt(st.doc, st.sel.from);
    var n := HeadingLine(LineText(st), level);
    var c := Change(l.from, l.to, n);
    var r := AfterRewriteHeading(st, level);
    assert r == EditorState(Apply(st.doc, c), MapSel(st.sel, c)) && '\n' !in n by {
      RewriteHeadingState(st, level);
    }
    assert Valid(r) && LineAt(r.doc, r.sel.from) == Line(l.from, l.from + |n|) by {
      ReplacedLine(st, n);
    }
    ApplyParts(st.doc, c);
  }

  /** The document the rewrite leaves. */
  lemma RewriteHeadingDoc(st: EditorState, level: nat)
    requires Valid(st)
    ensures var l := LineAt(st.doc, st.sel.from);
            AfterRewriteHeading(st, level).doc == st.doc[..l.from] + HeadingLine(LineText(st), level) + st.doc[l.to..]
  {
    RewriteHeadingLine(st, level);
  }

  /** A line's text between the text before and the text after it. */
  lemma LineSplice(doc: string, l: Line)
    requires l.from <= l.to <= |doc|
    ensures doc[..l.from] + doc[l.from..l.to] + doc[l.to..] == doc
    ensures doc[l.from..] == doc[l.from..l.to] + doc[l.to..]
  {
  }

  lemma SameDocumentRemoving(st: EditorState, level: nat)
    requires Valid(st) && HeadingMatch(LineText(st)) == Some(level)
    ensures AfterRewriteHeading(st, level).doc == AfterHeading(st, level).doc
  {
    var l := LineAt(st.doc, st.sel.from);
    var text := LineText(st);
    assert AfterRewriteHeading(st, level).doc == st.doc[..l.from] + HeadingLine(text, level) + st.doc[l.to..] by {
      RewriteHeadingDoc(st, level);
    }
    assert AfterHeading(st, level).doc == st.doc[..l.from] + text[level + 1..] + st.doc[l.to..] by {
      HeadingRemoves(st, level);
    }
    assert HeadingLine(text, level) == text[level + 1..];
  }

  lemma SameDocumentReplacing(st: EditorState, level: nat, k: nat)
    requires Valid(st) && HeadingMatch(LineText(st)) == Some(k) && k != level
    ensures AfterRewriteHeading(st, level).doc == AfterHeading(st, level).doc
  {
    var l := LineAt(st.doc, st.sel.from);
    var text := LineText(st);
    var syntax, rest := HeadingSyntax(level), text[k + 1..];
    assert AfterRewriteHeading(st, level).doc == st.doc[..l.from] + HeadingLine(text, level) + st.doc[l.to..] by {
      RewriteHeadingDoc(st, level);
    }
    assert AfterHeading(st, level).doc == st.doc[..l.from] + syntax + rest + st.doc[l.to..] by {
      HeadingReplaces(st, level);
    }
    assert HeadingLine(text, level) == syntax + rest;
    ConcatAssoc(st.doc[..l.from], syntax, rest, st.doc[l.to..]);
  }

  lemma SameDocumentAdding(st: EditorState, level: nat)
    requires Valid(st) && HeadingMatch(LineText(st)).None?
    ensures AfterRewriteHeading(st, level).doc == AfterHeading(st, level).doc
  {
    var l := LineAt(st.doc, st.sel.from);
    var text := LineText(st);
    var syntax := HeadingSyntax(level);
    assert AfterRewriteHeading(st, level).doc == st.doc[..l.from] + HeadingLine(text, level) + st.doc[l.to..] by {
      RewriteHeadingDoc(st, level);
    }
    assert AfterHeading(st, level).doc == st.doc[..l.from] + syntax + st.doc[l.from..] by {
      HeadingAdds(st, level);
    }
    assert HeadingLine(text, level) == syntax + text;
    PrefixSplice(st.doc, l, syntax);
  }

  lemma ConcatAssoc(a: string, b: string, c: string, d: string)
    ensures a + (b + c) + d == a + b + c + d
  {
  }

  /** Putting `p` before a line's text is inserting it at the line's
      start. */
  lemma PrefixSplice(doc: string, l: Line, p: string)
    requires l.from <= l.to <= |doc|
    ensures doc[..l.from] + (p + doc[l.from..l.to]) + doc[l.to..] == doc[..l.from] + p + doc[l.from..]
  {
    LineSplice(doc, l);
  }

  /** The whole-line rewrite leaves the same document as the command
      module's prefix edit; only the selection can differ. */
  lemma SameDocumentAsCommands(st: EditorState, level: nat)
    requires Valid(st)
    ensures AfterRewriteHeading(st, level).doc == AfterHeading(st, level).doc
  {
    match HeadingMatch(LineText(st))
    case Some(k) =>
      if k == level {
        SameDocumentRemoving(st, level);
      } else {
        SameDocumentReplacing(st, level, k);
      }
    case None =>
      SameDocumentAdding(st, level);
  }

  /** Two toggles of the same level rewrite the line with the line
      function applied twice. */
  lemma RewriteHeadingTwiceDoc(st: EditorState, level: nat)
    requires Valid(st)
    ensures var l := LineAt(st.doc, st.sel.from);
            AfterRewriteHeading(AfterRewriteHeading(st, level), level).doc
            == st.doc[..l.from] + HeadingLine(HeadingLine(LineText(st), level), level) + st.doc[l.to..]
  {
    var l := LineAt(st.doc, st.sel.from);
    var n := HeadingLine(LineText(st), level);
    var once := AfterRewriteHeading(st, level);
    RewriteHeadingLine(st, level);
    RewriteHeadingDoc(once, level);
    assert once.doc[..l.from] == st.doc[..l.from];
    assert once.doc[l.from + |n|..] == st.doc[l.to..];
  }

  /** On a line without a heading, toggling a level twice restores the
      document. */
  lemma RewriteHeadingTwice(st: EditorState, level: nat)
    requires Valid(st) && level >= 1 && HeadingMatch(LineText(st)).None?
    ensures AfterRewriteHeading(AfterRewriteHeading(st, level), level).doc == st.doc
  {
    var l := LineAt(st.doc, st.sel.from);
    var text := LineText(st);
    assert HeadingLine(HeadingLine(text, level), level) == text by {
      HeadingLineTwice(text, level);
    }
    RewriteHeadingTwiceDoc(st, level);
    LineSplice(st.doc, l);
  }

  /** On a line with another level, toggling a level twice leaves the
      line without its heading prefix. */
  lemma RewriteHeadingTwiceOther(st: EditorState, level: nat, k: nat)
    requires Valid(st) && level >= 1 && HeadingMatch(LineText(st)) == Some(k) && k != level
    ensures var l := LineAt(st.doc, st.sel.from);
            AfterRewriteHeading(AfterRewriteHeading(st, level), level).doc
            == st.doc[..l.from] + LineText(st)[k + 1..] + st.doc[l.to..]
  {
    var text := LineText(st);
    assert HeadingLine(HeadingLine(text, level), level) == text[k + 1..] by {
      HeadingLineTwice(text, level);
    }
    RewriteHeadingTwiceDoc(st, level);
  }

  /** The rewrite changes text only within the current line. */
  lemma RewriteHeadingStaysLocal(st: EditorState, level: nat)
    requires Valid(st)
    ensures var l := LineAt(st.doc, st.sel.from);
            EditsOnly(st.doc, AfterRewriteHeading(st, level).doc, l.from, l.to)
  {
    var l := LineAt(st.doc, st.sel.from);
    ChangeWithin(st.doc, RewriteHeadingTr(st, level).change, l.from, l.to);
  }

  /** `toggleHeading` on the view. */
  method RewriteHeading(view: View, level: nat)
    requires Valid(view.State())
    modifies view
    ensures view.State() == AfterRewriteHeading(old(view.State()), level)
  {
    var line := LineAt(view.doc, view.sel.from);
    var originalText := view.doc[line.from..line.to];
    var newText := HeadingLine(originalText, level);
    view.Dispatch(Transaction(Change(line.from, line.to, newText), None));
  }

  /** `insertLink`: the toolbar's link is closed; it is the command
      module's link with the parenthesis the markdown needs. */
  method InsertClosedLink(view: View, url: Option<string>)
    requires Valid(view.State())
    modifies view
    ensures view.State() == AfterLink(old(view.State()), url)
  {
    if url.None? || url.value == "" {
      return;
    }
    var from, to := view.sel.from, view.sel.to;
    var selectionText := if from == to then "link" else view.doc[from..to];
    view.Dispatch(Transaction(Change(from, to, "[" + selectionText + "](" + url.value + ")"), None));
  }

  /* ---------------------------------------------------------------------
     The buttons
     --------------------------------------------------------------------- */

  datatype Item = H1 | H2 | H3 | H4 | Bold | Italic | Strikethrough | QuoteItem | CodeItem | LinkItem

  /** The buttons, in the order they are drawn. */
  const Items: seq<Item> := [H1, H2, H3, H4, Bold, Italic, Strikethrough, QuoteItem, CodeItem, LinkItem]

  datatype Action = RewriteHeadingAction(level: nat) | Wrap(syntax: string) | CodeBlockAction | LinkAction

  /** What each button runs. */
  function ActionOf(item: Item): Action {
    match item
    case H1 => RewriteHeadingAction(1)
    case H2 => RewriteHeadingAction(2)
    case H3 => RewriteHeadingAction(3)
    case H4 => RewriteHeadingAction(4)
    case Bold => Wrap("**")
    case Italic => Wrap("_")
    case Strikethrough => Wrap("~~")
    case QuoteItem => RewriteHeadingAction(1)
    case CodeItem => CodeBlockAction
    case LinkItem => LinkAction
  }

  /** The state a button leaves; `url` is the answer to the link prompt. */
  function AfterItem(st: EditorState, item: Item, url: Option<string>): (r: EditorState)
    requires Valid(st)
    ensures Valid(r)
  {
    match ActionOf(item)
    case RewriteHeadingAction(level) => AfterRewriteHeading(st, level)
    case Wrap(syntax) => AfterInline(st, syntax)
    case CodeBlockAction => AfterCodeBlock(st)
    case LinkAction => AfterLink(st, url)
  }

  /** The quote button is the first heading button: on a line without a
      heading it puts `# ` at the line's start, not a quote marker. */
  lemma QuoteItemIsHeadingOne(st: EditorState, url: Option<string>)
    requires Valid(st)
    ensures AfterItem(st, QuoteItem, url) == AfterItem(st, H1, url)
    ensures var l := LineAt(st.doc, st.sel.from);
            HeadingMatch(LineText(st)).None? ==>
              AfterItem(st, QuoteItem, url).doc == st.doc[..l.from] + "# " + st.doc[l.from..]
  {
    var l := LineAt(st.doc, st.sel.from);
    var text := LineText(st);
    if HeadingMatch(text).None? {
      assert AfterItem(st, QuoteItem, url) == AfterRewriteHeading(st, 1);
      assert AfterRewriteHeading(st, 1).doc == st.doc[..l.from] + HeadingLine(text, 1) + st.doc[l.to..] by {
        RewriteHeadingDoc(st, 1);
      }
      assert HeadingLine(text, 1) == "# " + text by {
        assert Repeat('#', 1) == "#";
      }
      PrefixSplice(st.doc, l, "# ");
    }
  }

  /** `executeCommand` for a button: nothing happens while the editor
      has no view; otherwise the button's command runs on it. */
  method Press(view: View?, item: Item, url: Option<string>)
    requires view != null ==> Valid(view.State())
    modifies view
    ensures view != null ==> view.State() == AfterItem(old(view.State()), item, url)
  {
    if view == null {
      return;
    }
    match ActionOf(item)
    case RewriteHeadingAction(level) => RewriteHeading(view, level);
    case Wrap(syntax) => ToggleInlineFormat(view, syntax);
    case CodeBlockAction => InsertCodeBlock(view);
    case LinkAction => InsertClosedLink(view, url);
  }
}
