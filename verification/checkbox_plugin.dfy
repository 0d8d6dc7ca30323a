/** The editor's checkbox widgets: every `- [ ]` or `- [x]` in the document
    is drawn as a checkbox, and a click on one overwrites the character
    between its brackets. */
module CheckboxPlugin {

  /** A match of `- \[([ x])\]` at `pos`. */
  predicate BoxAt(text: string, pos: int) {
    0 <= pos && pos + 5 <= |text|
    && text[pos] == '-' && text[pos + 1] == ' ' && text[pos + 2] == '['
    && (text[pos + 3] == ' ' || text[pos + 3] == 'x') && text[pos + 4] == ']'
  }

  /** A widget: where its match starts and whether it is checked. */
  datatype Box = Box(pos: nat, checked: bool)

  /** The widgets the decorator makes, scanning from `i`: matches are
      found left to right and do not overlap. */
  function Boxes(text: string, i: nat): (r: seq<Box>)
    ensures forall b :: b in r ==> i <= b.pos && BoxAt(text, b.pos) && (b.checked <==> text[b.pos + 3] == 'x')
    decreases |text| - i
  {
    if i + 5 > |text| then []
    else if BoxAt(text, i) then [Box(i, text[i + 3] == 'x')] + Boxes(text, i + 5)
    else Boxes(text, i + 1)
  }

  /** The three cases the matcher's tests pin down. */
  lemma MatcherExamples()
    ensures Boxes("- [ ] Task", 0) == [Box(0, false)]
    ensures Boxes("- [x] Done", 0) == [Box(0, true)]
    ensures Boxes("- [] Invalid", 0) == []
  {
    assert !BoxAt("- [ ] Task", 5) && !BoxAt("- [x] Done", 5);
    assert Boxes("- [ ] Task", 5) == [];
    assert Boxes("- [x] Done", 5) == [];
  }

  /** The character a click writes: a space into a checked box, an `x`
      into an unchecked one. */
  function Flipped(checked: bool): char {
    if checked then ' ' else 'x'
  }

  /** The document after a click on the box at `pos`. */
  function Click(text: string, pos: nat): (r: string)
    requires BoxAt(text, pos)
    ensures |r| == |text| && BoxAt(r, pos)
    ensures (r[pos + 3] == 'x') <==> !(text[pos + 3] == 'x')
    ensures forall k :: 0 <= k < |text| && k != pos + 3 ==> r[k] == text[k]
  {
    text[pos + 3 := Flipped(text[pos + 3] == 'x')]
  }

  /** Two clicks on the same box restore the document. */
  lemma ClickTwice(text: string, pos: nat)
    requires BoxAt(text, pos)
    ensures Click(Click(text, pos), pos) == text
  {
  }

  /** A click creates and destroys no match: the overwritten character is
      a space or an `x` before and after, and only the bracket slot of the
      clicked match accepts either. */
  lemma ClickKeepsMatches(text: string, pos: nat, i: nat)
    requires BoxAt(text, pos)
    ensures BoxAt(Click(text, pos), i) <==> BoxAt(text, i)
  {
  }

  /** `after` holds the widgets of `before` at the same places, with
      only the one at `pos` flipped. */
  predicate FlippedAt(after: seq<Box>, before: seq<Box>, pos: nat) {
    |after| == |before|
    && forall k :: 0 <= k < |before| ==>
         after[k].pos == before[k].pos
         && (after[k].checked <==> (if before[k].pos == pos then !before[k].checked else before[k].checked))
  }

  lemma FlippedAtCons(a: Box, after: seq<Box>, b: Box, before: seq<Box>, pos: nat)
    requires a.pos == b.pos && (a.checked <==> (if b.pos == pos then !b.checked else b.checked))
    requires FlippedAt(after, before, pos)
    ensures FlippedAt([a] + after, [b] + before, pos)
  {
    forall k | 0 < k < |before| + 1
      ensures ([a] + after)[k] == after[k - 1] && ([b] + before)[k] == before[k - 1]
    {
    }
  }

  /** After a click the decorator finds the same widgets, with only the
      clicked one's state flipped. */
  lemma {:induction false} ClickedBoxes(text: string, pos: nat, i: nat)
    requires BoxAt(text, pos)
    ensures FlippedAt(Boxes(Click(text, pos), i), Boxes(text, i), pos)
    decreases |text| - i
  {
    var t := Click(text, pos);
    if i + 5 <= |text| {
      ClickKeepsMatches(text, pos, i);
      if BoxAt(text, i) {
        ClickedBoxes(text, pos, i + 5);
        assert Boxes(t, i) == [Box(i, t[i + 3] == 'x')] + Boxes(t, i + 5);
        assert Boxes(text, i) == [Box(i, text[i + 3] == 'x')] + Boxes(text, i + 5);
        FlippedAtCons(Box(i, t[i + 3] == 'x'), Boxes(t, i + 5), Box(i, text[i + 3] == 'x'), Boxes(text, i + 5), pos);
      } else {
        ClickedBoxes(text, pos, i + 1);
      }
    }
  }

  /** The editor document the widgets live in. */
  class Document {
    var text: string

    constructor(text: string)
      ensures this.text == text
    {
      this.text := text;
    }

    /** The click handler of a widget the decorator drew: the character
        three after the match start is replaced according to the state
        the widget was drawn with. */
    method ClickBox(box: Box)
      requires box in Boxes(text, 0)
      modifies this
      ensures text == Click(old(text), box.pos)
    {
      var changePos := box.pos + 3;
      var newChar := if box.checked then ' ' else 'x';
      text := text[..changePos] + [newChar] + text[changePos + 1..];
    }
  }
}
