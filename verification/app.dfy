/** The top-level state of the notes board (draggable-notes/App.tsx): the
    note list, the stacking value of the top note, and the handlers that
    rebuild the list. Each handler is a pure function on the list; the `App`
    class holds the component's state fields and replaces them the way the
    React setters do. */
module NotesApp {
  import opened Types
  import opened Seqs
  import opened Text

  /** The stacking value a note contributes to the maximum: `zIndex || 1`,
      so a zero counts as one. */
  function EffectiveZ(n: Note): int
  {
    if n.zIndex == 0 then 1 else n.zIndex
  }

  /** The largest EffectiveZ of a non-empty list. */
  function MaxOf(notes: seq<Note>): (m: int)
    requires notes != []
    ensures forall i :: 0 <= i < |notes| ==> EffectiveZ(notes[i]) <= m
    ensures exists i :: 0 <= i < |notes| && m == EffectiveZ(notes[i])
  {
    if |notes| == 1 then EffectiveZ(notes[0])
    else
      var rest := MaxOf(notes[1..]);
      if EffectiveZ(notes[0]) >= rest then EffectiveZ(notes[0]) else rest
  }

  /** The current top stacking value: 1 for an empty board, otherwise the
      largest EffectiveZ, which bounds every note's zIndex. */
  function MaxZIndex(notes: seq<Note>): (m: int)
    ensures notes == [] ==> m == 1
    ensures forall i :: 0 <= i < |notes| ==> notes[i].zIndex <= EffectiveZ(notes[i]) <= m
    ensures notes != [] ==> exists i :: 0 <= i < |notes| && m == EffectiveZ(notes[i])
  {
    if notes == [] then 1 else MaxOf(notes)
  }

  /** The list after adding a note built from `draft`. The id, the two clock
      readings and the position are what the source draws from Math.random,
      Date.now and the window size; they come in as parameters. */
  function WithNoteAdded(notes: seq<Note>, draft: NoteDraft, id: string,
                         createdAt: int, updatedAt: int, position: Position): (r: seq<Note>)
    ensures |r| == |notes| + 1 && r[..|notes|] == notes
    ensures r[|notes|].id == id && r[|notes|].position == position
    ensures r[|notes|].createdAt == createdAt && r[|notes|].updatedAt == updatedAt
    ensures r[|notes|].title == draft.title && r[|notes|].content == draft.content
    ensures r[|notes|].color == draft.color
    ensures r[|notes|].zIndex == MaxZIndex(notes) + 1
    ensures forall i :: 0 <= i < |notes| ==> r[i].zIndex < r[|notes|].zIndex
  {
    var added := Note(id, draft.title, draft.content, draft.color,
                      createdAt, updatedAt, position, MaxZIndex(notes) + 1);
    notes + [added]
  }

  /** Where a new note is placed: half the window width less 128 and 250,
      each jittered by a random draw in [0, 1) scaled to [-50, 50). */
  function NewNotePosition(innerWidth: real, rx: real, ry: real): (p: Position)
    requires 0.0 <= rx < 1.0 && 0.0 <= ry < 1.0
    ensures innerWidth / 2.0 - 178.0 <= p.x < innerWidth / 2.0 - 78.0
    ensures 200.0 <= p.y < 300.0
  {
    Position(innerWidth / 2.0 - 128.0 + (rx * 100.0 - 50.0), 250.0 + (ry * 100.0 - 50.0))
  }

  /** The list with every note whose id matches `updated` replaced by it. */
  function WithNoteReplaced(notes: seq<Note>, updated: Note): (r: seq<Note>)
    ensures |r| == |notes|
    ensures forall i :: 0 <= i < |notes| ==> r[i] == (if notes[i].id == updated.id then updated else notes[i])
  {
    Map((n: Note) => if n.id == updated.id then updated else n, notes)
  }

  /** The list with every note whose id is `id` lifted to `z`. */
  function WithZIndexFor(notes: seq<Note>, id: string, z: int): (r: seq<Note>)
    ensures |r| == |notes|
    ensures forall i :: 0 <= i < |notes| ==> r[i] == (if notes[i].id == id then notes[i].(zIndex := z) else notes[i])
  {
    Map((n: Note) => if n.id == id then n.(zIndex := z) else n, notes)
  }

  /** Bring-to-front: every note with id `id` gets one more than the current
      maximum, which puts it strictly above every other note. */
  function BroughtToFront(notes: seq<Note>, id: string): (r: seq<Note>)
    ensures |r| == |notes|
    ensures forall i :: 0 <= i < |notes| && notes[i].id != id ==> r[i] == notes[i]
    ensures forall i :: 0 <= i < |notes| && notes[i].id == id ==>
              r[i] == notes[i].(zIndex := MaxZIndex(notes) + 1)
    ensures forall i, j :: 0 <= i < |r| && 0 <= j < |r| && r[i].id == id && r[j].id != id ==>
              r[i].zIndex > r[j].zIndex
  {
    WithZIndexFor(notes, id, MaxZIndex(notes) + 1)
  }

  /** The list without the notes whose id is `id`: an order-preserving
      sublist holding every other note and no note with that id. */
  function WithoutNote(notes: seq<Note>, id: string): (r: seq<Note>)
    ensures IsSubsequence(r, notes)
    ensures forall i :: 0 <= i < |r| ==> r[i].id != id
    ensures forall i :: 0 <= i < |notes| && notes[i].id != id ==> notes[i] in r
    ensures |r| == |notes| - CountIf((n: Note) => n.id == id, notes)
  {
    var keep := (n: Note) => n.id != id;
    CountComplement(keep, (n: Note) => n.id == id, notes);
    Filter(keep, notes)
  }

  /** Counting a predicate and its negation splits the list. */
  lemma {:induction false} CountComplement(p: Note -> bool, q: Note -> bool, s: seq<Note>)
    requires forall n :: p(n) == !q(n)
    ensures CountIf(p, s) + CountIf(q, s) == |s|
  {
    if s != [] {
      CountComplement(p, q, s[1..]);
    }
  }

  /** The colour filter of the tab bar: all colours, or one. */
  datatype ColorFilter = All | Only(color: NoteColor)

  /** The search box matches when the lower-cased query occurs in the
      lower-cased title or the lower-cased content. */
  predicate MatchesSearch(n: Note, query: string)
  {
    Includes(Lower(n.title), Lower(query)) || Includes(Lower(n.content), Lower(query))
  }

  predicate MatchesColor(n: Note, filter: ColorFilter)
  {
    filter == All || filter.color == n.color
  }

  /** The notes on display: an order-preserving sublist of `notes` holding
      exactly the notes that match both the search and the colour filter. */
  function FilteredNotes(notes: seq<Note>, query: string, filter: ColorFilter): (r: seq<Note>)
    ensures IsSubsequence(r, notes)
    ensures forall i :: 0 <= i < |r| ==> MatchesSearch(r[i], query) && MatchesColor(r[i], filter)
    ensures forall i :: 0 <= i < |notes| && MatchesSearch(notes[i], query) && MatchesColor(notes[i], filter) ==>
              notes[i] in r
    ensures |r| == CountIf((n: Note) => MatchesSearch(n, query) && MatchesColor(n, filter), notes)
  {
    Filter((n: Note) => MatchesSearch(n, query) && MatchesColor(n, filter), notes)
  }

  // ---------------------------------------------------------------------------
  // Properties of the list operations

  /** Replacing a note with an id that is on no note changes nothing. */
  lemma ReplaceUnknownIsNoop(notes: seq<Note>, updated: Note)
    requires forall i :: 0 <= i < |notes| ==> notes[i].id != updated.id
    ensures WithNoteReplaced(notes, updated) == notes
  {
  }

  /** Replacing keeps the ids in place, and doing it twice is doing it once. */
  lemma ReplaceKeepsIdsAndIsIdempotent(notes: seq<Note>, updated: Note)
    ensures forall i :: 0 <= i < |notes| ==> WithNoteReplaced(notes, updated)[i].id == notes[i].id
    ensures WithNoteReplaced(WithNoteReplaced(notes, updated), updated) == WithNoteReplaced(notes, updated)
  {
  }

  /** Bring-to-front on an id that is on no note changes nothing. */
  lemma FrontUnknownIsNoop(notes: seq<Note>, id: string)
    requires forall i :: 0 <= i < |notes| ==> notes[i].id != id
    ensures BroughtToFront(notes, id) == notes
  {
  }

  /** Bring-to-front keeps the ids in place (so the order of the list) and
      changes nothing of a note but its zIndex. */
  lemma FrontChangesOnlyZIndex(notes: seq<Note>, id: string)
    ensures forall i :: 0 <= i < |notes| ==>
              BroughtToFront(notes, id)[i] == notes[i].(zIndex := BroughtToFront(notes, id)[i].zIndex)
  {
  }

  /** Two bring-to-front calls in a row: the note lifted last is above the
      note lifted first. */
  lemma LastFrontWins(notes: seq<Note>, a: string, b: string)
    requires a != b
    ensures var r := BroughtToFront(BroughtToFront(notes, a), b);
            forall i, j :: 0 <= i < |r| && 0 <= j < |r| && r[i].id == b && r[j].id == a ==>
              r[i].zIndex > r[j].zIndex
  {
  }

  /** Deleting an id that is on no note changes nothing. */
  lemma DeleteUnknownIsNoop(notes: seq<Note>, id: string)
    requires forall i :: 0 <= i < |notes| ==> notes[i].id != id
    ensures WithoutNote(notes, id) == notes
  {
    FilterKeepsAll((n: Note) => n.id != id, notes);
  }

  /** An empty query with the `All` tab shows every note. */
  lemma EmptySearchShowsAll(notes: seq<Note>)
    ensures FilteredNotes(notes, "", All) == notes
  {
    forall i | 0 <= i < |notes| ensures MatchesSearch(notes[i], "") {
      assert Lower("") == "";
      IncludesEmpty(Lower(notes[i].title));
    }
    FilterKeepsAll((n: Note) => MatchesSearch(n, "") && MatchesColor(n, All), notes);
  }

  /** A freshly added note is the maximum of the new list, and strictly so:
      the next MaxZIndex is its own (zero-as-one) stacking value. */
  lemma AddedNoteIsOnTop(notes: seq<Note>, draft: NoteDraft, id: string,
                         createdAt: int, updatedAt: int, position: Position)
    ensures var r := WithNoteAdded(notes, draft, id, createdAt, updatedAt, position);
            MaxZIndex(r) == EffectiveZ(r[|r| - 1]) &&
            forall i :: 0 <= i < |notes| ==> EffectiveZ(r[i]) < MaxZIndex(r)
  {
  }

  // ---------------------------------------------------------------------------
  // The component's state

  class App {
    var notes: seq<Note>
    var isEditorOpen: bool
    var searchQuery: string
    var filterColor: ColorFilter

    /** The initial state: no notes, editor closed, empty search, all colours. */
    constructor ()
      ensures notes == [] && !isEditorOpen && searchQuery == "" && filterColor == All
    {
      notes := [];
      isEditorOpen := false;
      searchQuery := "";
      filterColor := All;
    }

    /** Replaces the list with what the storage collaborator loaded. */
    method LoadSaved(saved: seq<Note>)
      modifies this`notes
      ensures notes == saved
    {
      notes := saved;
    }

    /** The current top stacking value. */
    function TopZIndex(): (m: int)
      reads this
      ensures forall i :: 0 <= i < |notes| ==> notes[i].zIndex <= m
    {
      MaxZIndex(notes)
    }

    /** Adds a note from the editor's draft. The id, the two clock readings,
        the window width and the two random draws in [0, 1) come in as
        parameters; the position is the placement formula applied to them. */
    method AddNote(draft: NoteDraft, id: string, createdAt: int, updatedAt: int,
                   innerWidth: real, rx: real, ry: real)
      requires 0.0 <= rx < 1.0 && 0.0 <= ry < 1.0
      modifies this`notes
      ensures notes == WithNoteAdded(old(notes), draft, id, createdAt, updatedAt,
                                     NewNotePosition(innerWidth, rx, ry))
    {
      var position := NewNotePosition(innerWidth, rx, ry);
      notes := WithNoteAdded(notes, draft, id, createdAt, updatedAt, position);
    }

    method UpdateNote(updated: Note)
      modifies this`notes
      ensures notes == WithNoteReplaced(old(notes), updated)
    {
      notes := WithNoteReplaced(notes, updated);
    }

    method BringToFront(id: string)
      modifies this`notes
      ensures notes == BroughtToFront(old(notes), id)
    {
      notes := BroughtToFront(notes, id);
    }

    method DeleteNote(id: string)
      modifies this`notes
      ensures notes == WithoutNote(old(notes), id)
    {
      notes := WithoutNote(notes, id);
    }

    method SetSearchQuery(query: string)
      modifies this`searchQuery
      ensures searchQuery == query
    {
      searchQuery := query;
    }

    method SetFilterColor(filter: ColorFilter)
      modifies this`filterColor
      ensures filterColor == filter
    {
      filterColor := filter;
    }

    method SetEditorOpen(open: bool)
      modifies this`isEditorOpen
      ensures isEditorOpen == open
    {
      isEditorOpen := open;
    }

    /** The notes on display. A function of the state: reading it cannot
        change the list. */
    function Visible(): (r: seq<Note>)
      reads this
      ensures IsSubsequence(r, notes)
      ensures forall i :: 0 <= i < |r| ==> MatchesSearch(r[i], searchQuery) && MatchesColor(r[i], filterColor)
    {
      FilteredNotes(notes, searchQuery, filterColor)
    }
  }

  /** The colours offered by the filter tabs, in tab order. */
  const FilterTabColors: seq<NoteColor> := [Yellow, Blue, Green, Pink, Purple, Orange, Gray]

  /** The filter tabs name each of the seven colours exactly once. */
  lemma FilterTabsListEveryColor()
    ensures |FilterTabColors| == 7 && ListsEveryColorOnce(FilterTabColors)
  {
    NoteColorsComplete();
  }
}
