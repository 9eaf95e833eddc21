/** A client of the board and of one card: two notes are created, the first
    is dragged, the second is brought to front, the first is deleted and the
    board is filtered by colour. Only the contracts of the components are
    used. */
module Scenario {
  import opened Types
  import opened NotesApp
  import opened NoteCard

  method CreateDragDeleteFilter()
  {
    var app := new App();
    // A window 456 wide and both draws at 0.5 place A at (100, 250).
    app.AddNote(NoteDraft("A", "first", Yellow), "a", 10, 10, 456.0, 0.5, 0.5);
    app.AddNote(NoteDraft("B", "second", Blue), "b", 20, 20, 456.0, 0.9, 0.1);
    assert app.notes[0].position == Position(100.0, 250.0);
    assert |app.notes| == 2 && app.notes[0].id == "a" && app.notes[1].id == "b";

    // Drag A by (+40, -30).
    var body := new Body("");
    var card := new DragController(app.notes[0], body);
    var call := card.MouseDown(false, Position(500.0, 500.0));
    assert call == Some(BringToFrontCall("a"));
    app.BringToFront("a");
    card.ReceiveProps(app.notes[0]);
    var update := card.MouseMove(Position(540.0, 470.0));
    assert update.Some? && update.value.UpdateCall?;
    assert update.value.note.position == Position(140.0, 220.0);
    app.UpdateNote(update.value.note);
    assert app.notes[0].position == Position(140.0, 220.0);
    card.MouseUp();
    assert !card.isDragging && body.userSelect == "auto" && card.registered == 0;

    // Bring B to front: B is now above A.
    app.BringToFront("b");
    assert app.notes[1].zIndex > app.notes[0].zIndex;

    DeleteThenFilter(app);
  }

  /** Deleting A leaves only B, and no yellow note is left. */
  method DeleteThenFilter(app: App)
    requires |app.notes| == 2 && app.notes[0].id == "a" && app.notes[1].id == "b"
    requires app.notes[1].color == Blue
    modifies app
  {
    ghost var a, b := app.notes[0], app.notes[1];
    assert app.notes == [a, b];
    DeleteFirstOfTwo(a, b);
    app.DeleteNote("a");
    assert app.notes == [b];

    // No yellow note is left.
    app.SetFilterColor(Only(Yellow));
    NoneOfColor(app.notes, app.searchQuery, Yellow);
    assert app.Visible() == [];
  }

  /** Deleting the first of two notes with distinct ids leaves the second. */
  lemma DeleteFirstOfTwo(a: Note, b: Note)
    requires a.id != b.id
    ensures WithoutNote([a, b], a.id) == [b]
  {
  }

  /** A colour no note has filters the board down to nothing. */
  lemma NoneOfColor(notes: seq<Note>, query: string, c: NoteColor)
    requires forall i :: 0 <= i < |notes| ==> notes[i].color != c
    ensures FilteredNotes(notes, query, Only(c)) == []
  {
  }
}
