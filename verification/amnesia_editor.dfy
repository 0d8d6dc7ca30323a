/** The note editor of the Amnesia client
    (Amnesia/src/components/features/Editor/Editor.tsx): title, content and
    a tag list edited locally, a dirty flag that enables saving, and the
    save and delete requests handed to the parent's callbacks (kept here as
    the list of requests sent). The note record has the fields of
    `UseNotes.Note`; the clock reading stamped on save is a parameter. */
module AmnesiaEditor {
  import opened Common
  import opened UseNotes

  /** The list the `handleAddTag` handler leaves: the trimmed input is
      appended when it is not empty and not already present. */
  function AddedTag(tags: seq<string>, newTag: string): (r: seq<string>)
    ensures Trim(newTag) != [] && Trim(newTag) !in tags ==> r == tags + [Trim(newTag)]
    ensures Trim(newTag) == [] || Trim(newTag) in tags ==> r == tags
    ensures forall t :: t in r <==> t in tags || (t == Trim(newTag) && t != [])
  {
    var t := Trim(newTag);
    if t != [] && t !in tags then tags + [t] else tags
  }

  /** Adding a tag never introduces a duplicate. */
  lemma AddedTagNoDups(tags: seq<string>, newTag: string)
    requires NoDups(tags)
    ensures NoDups(AddedTag(tags, newTag))
  {
    var r := AddedTag(tags, newTag);
    if r != tags {
      forall i, j | 0 <= i < j < |r| ensures r[i] != r[j] {
        if j == |tags| {
          assert r[i] == tags[i];
        }
      }
    }
  }

  function OtherTag(t: string): string -> bool {
    (x: string) => x != t
  }

  /** `tags.filter(tag => tag !== tagToRemove)`. */
  function RemovedTag(tags: seq<string>, tagToRemove: string): (r: seq<string>)
    ensures tagToRemove !in r
    ensures forall t :: t in r <==> t in tags && t != tagToRemove
    ensures IsSubseq(r, tags)
  {
    FilterSubseq(tags, OtherTag(tagToRemove));
    Filter(tags, OtherTag(tagToRemove))
  }

  /** Removing a tag that was just added undoes the addition. */
  lemma RemoveUndoesAdd(tags: seq<string>, newTag: string)
    requires Trim(newTag) !in tags
    ensures RemovedTag(AddedTag(tags, newTag), Trim(newTag)) == tags
  {
    FilterKeepsAll(tags, OtherTag(Trim(newTag)));
    if Trim(newTag) != [] {
      FilterConcat(tags, [Trim(newTag)], OtherTag(Trim(newTag)));
    }
  }

  /** What the editor has asked its parent to do. */
  datatype Request = SaveNote(note: Note) | DeleteNote(id: string)

  class NoteEditor {
    var note: Note
    var title: string
    var content: string
    var tags: seq<string>
    var newTag: string
    var isDirty: bool
    var sent: seq<Request>

    constructor(note: Note)
      ensures this.note == note && title == note.title && content == note.content && tags == note.tags
      ensures newTag == [] && !isDirty && sent == []
    {
      this.note := note;
      title := note.title;
      content := note.content;
      tags := note.tags;
      newTag := [];
      isDirty := false;
      sent := [];
    }

    /** The effect that runs when a different note is passed in. */
    method ShowNote(note: Note)
      modifies this
      ensures this.note == note && title == note.title && content == note.content && tags == note.tags
      ensures !isDirty && newTag == old(newTag) && sent == old(sent)
    {
      this.note := note;
      title := note.title;
      content := note.content;
      tags := note.tags;
      isDirty := false;
    }

    /** `handleSave`: the note with the edited title, content and tags and
        a fresh `updatedAt` is sent, and the editor is clean again. */
    method HandleSave(now: int)
      modifies this
      ensures sent == old(sent) + [SaveNote(note.(title := title, content := content, tags := tags, updatedAt := now))]
      ensures !isDirty
      ensures note == old(note) && title == old(title) && content == old(content)
      ensures tags == old(tags) && newTag == old(newTag)
    {
      sent := sent + [SaveNote(note.(title := title, content := content, tags := tags, updatedAt := now))];
      isDirty := false;
    }

    /** The save button is disabled while nothing was edited. */
    method ClickSave(now: int)
      modifies this
      ensures !old(isDirty) ==> sent == old(sent)
      ensures old(isDirty) ==>
                sent == old(sent) + [SaveNote(note.(title := title, content := content, tags := tags, updatedAt := now))]
      ensures !isDirty
      ensures note == old(note) && title == old(title) && content == old(content)
      ensures tags == old(tags) && newTag == old(newTag)
    {
      if isDirty {
        HandleSave(now);
      }
    }

    /** The delete button. */
    method ClickDelete()
      modifies this
      ensures sent == old(sent) + [DeleteNote(note.id)]
      ensures note == old(note) && title == old(title) && content == old(content)
      ensures tags == old(tags) && newTag == old(newTag) && isDirty == old(isDirty)
    {
      sent := sent + [DeleteNote(note.id)];
    }

    method EditTitle(text: string)
      modifies this
      ensures title == text && isDirty
      ensures note == old(note) && content == old(content) && tags == old(tags)
      ensures newTag == old(newTag) && sent == old(sent)
    {
      title := text;
      isDirty := true;
    }

    method EditContent(text: string)
      modifies this
      ensures content == text && isDirty
      ensures note == old(note) && title == old(title) && tags == old(tags)
      ensures newTag == old(newTag) && sent == old(sent)
    {
      content := text;
      isDirty := true;
    }

    method EditNewTag(text: string)
      modifies this
      ensures newTag == text
      ensures note == old(note) && title == old(title) && content == old(content)
      ensures tags == old(tags) && isDirty == old(isDirty) && sent == old(sent)
    {
      newTag := text;
    }

    /** `handleAddTag`: an accepted tag is appended, clears the input and
        marks the editor dirty; a blank or repeated tag changes nothing. */
    method HandleAddTag()
      modifies this
      ensures tags == AddedTag(old(tags), old(newTag))
      ensures Trim(old(newTag)) != [] && Trim(old(newTag)) !in old(tags) ==> newTag == [] && isDirty
      ensures Trim(old(newTag)) == [] || Trim(old(newTag)) in old(tags) ==>
                newTag == old(newTag) && isDirty == old(isDirty)
      ensures note == old(note) && title == old(title) && content == old(content) && sent == old(sent)
    {
      var t := Trim(newTag);
      if t != [] && t !in tags {
        assert AddedTag(tags, newTag) == tags + [t];
        tags := tags + [t];
        newTag := [];
        isDirty := true;
      } else {
        assert AddedTag(tags, newTag) == tags;
      }
    }

    /** Enter in the tag input adds the tag; other keys change nothing. */
    method HandleTagKeyDown(key: string)
      modifies this
      ensures key == "Enter" ==> tags == AddedTag(old(tags), old(newTag))
      ensures key != "Enter" ==> tags == old(tags) && newTag == old(newTag) && isDirty == old(isDirty)
      ensures note == old(note) && title == old(title) && content == old(content) && sent == old(sent)
    {
      if key == "Enter" {
        HandleAddTag();
      }
    }

    /** `handleRemoveTag`: every copy of the tag goes and the editor is
        dirty. */
    method HandleRemoveTag(tagToRemove: string)
      modifies this
      ensures tags == RemovedTag(old(tags), tagToRemove) && isDirty
      ensures note == old(note) && title == old(title) && content == old(content)
      ensures newTag == old(newTag) && sent == old(sent)
    {
      tags := RemovedTag(tags, tagToRemove);
      isDirty := true;
    }
  }
}
