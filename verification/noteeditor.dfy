/** The new-note editor (draggable-notes/components/NoteEditor.tsx): three
    state fields changed by their setters, and a submit handler that saves
    the draft and closes the editor only when the content is not blank. */
module NoteEditor {
  import opened Types
  import opened Text

  /** The callbacks the editor makes, in the order it makes them. */
  datatype Call = Save(draft: NoteDraft) | Close

  /** The guard of the submit handler and of the submit button: the content
      trims to the empty string. */
  predicate IsBlank(content: string)
  {
    Trim(content) == ""
  }

  class Editor {
    var title: string
    var content: string
    var color: NoteColor

    /** A fresh editor: empty title and content, yellow. */
    constructor ()
      ensures title == "" && content == "" && color == Yellow
    {
      title := "";
      content := "";
      color := Yellow;
    }

    method SetTitle(t: string)
      modifies this`title
      ensures title == t
    {
      title := t;
    }

    method SetContent(c: string)
      modifies this`content
      ensures content == c
    {
      content := c;
    }

    method SetColor(c: NoteColor)
      modifies this`color
      ensures color == c
    {
      color := c;
    }

    /** Submitting: blank content makes no call at all; otherwise the draft
        of the current title, content and colour is saved exactly once and
        the editor is then closed. The title is not checked. */
    method Submit() returns (calls: seq<Call>)
      ensures IsBlank(content) ==> calls == []
      ensures !IsBlank(content) ==> calls == [Save(NoteDraft(title, content, color)), Close]
    {
      if Trim(content) == "" {
        return [];
      }
      calls := [Save(NoteDraft(title, content, color))];
      calls := calls + [Close];
    }

    /** The submit button is disabled exactly when Submit would make no call. */
    function SubmitDisabled(): (disabled: bool)
      reads this
      ensures disabled <==> forall i :: 0 <= i < |content| ==> IsWhitespace(content[i])
    {
      TrimEmptyIff(content);
      Trim(content) == ""
    }
  }
}
