/** The mouse drag controller of one note card
    (draggable-notes/components/NoteCard.tsx).

    The transitions are first given as pure functions on a `DragState`
    snapshot (`Press`, `Move`, `Release`, `Effect`, `Cleanup`), with the
    properties of gesture sequences proved over them; the `DragController`
    class then holds the card's mutable fields and refs, and each of its
    methods is proved to perform the matching transition.

    The listener effect re-runs after every render in which `isDragging` or
    the `note` prop changed; here it runs at the end of each handler that
    changes `isDragging` and on every new `note` prop. */
module NoteCard {
  import opened Types

  /** document.body.style.userSelect values the card writes. */
  const SelectNone := "none"
  const SelectAuto := "auto"

  /** The calls the card makes to its parent. */
  datatype Call = BringToFrontCall(id: string) | UpdateCall(note: Note)

  /** What the card's drag logic can see and change.
      - isDragging: the React state flag;
      - dragStart: pointer position at press (the dragStartPos ref);
      - cardStart: note position at press (the cardStartPos ref);
      - userSelect: document.body.style.userSelect;
      - registered: how many mousemove/mouseup listener pairs this card has
        on the window;
      - attachedByLastRun: whether the last effect run attached a pair. */
  datatype DragState = DragState(
    isDragging: bool,
    dragStart: Position,
    cardStart: Position,
    userSelect: string,
    registered: nat,
    attachedByLastRun: bool)

  /** A mounted card: both refs start at the origin, no listener attached. */
  function Initial(userSelect: string): DragState
  {
    DragState(false, Position(0.0, 0.0), Position(0.0, 0.0), userSelect, 0, false)
  }

  /** The listener count matches the last effect run: one pair if it
      attached one, none otherwise. */
  predicate Consistent(s: DragState)
  {
    s.registered == (if s.attachedByLastRun then 1 else 0)
  }

  /** Listeners are attached exactly while dragging, and at most one pair. */
  predicate Valid(s: DragState)
  {
    Consistent(s) && s.attachedByLastRun == s.isDragging
  }

  /** Baseline plus pointer delta, on each axis, unbounded. */
  function DragPosition(baseline: Position, origin: Position, pointer: Position): Position
  {
    Position(baseline.x + (pointer.x - origin.x), baseline.y + (pointer.y - origin.y))
  }

  /** The effect's cleanup: remove the pair the previous run attached. From
      any consistent state, including the one a mouse-up leaves (a pair
      attached, no longer dragging), no pair of this card is left. */
  function Cleanup(s: DragState): (r: DragState)
    ensures Consistent(s) ==> r.registered == 0 && !r.attachedByLastRun && Consistent(r)
    ensures r.isDragging == s.isDragging && r.userSelect == s.userSelect
    ensures r.dragStart == s.dragStart && r.cardStart == s.cardStart
  {
    var left := if s.attachedByLastRun && s.registered > 0 then s.registered - 1 else s.registered;
    s.(registered := left, attachedByLastRun := false)
  }

  /** One run of the effect: clean up the previous run, then attach a pair
      if and only if dragging. Afterwards listeners are attached exactly
      while dragging, one pair at most. */
  function Effect(s: DragState): (r: DragState)
    ensures Consistent(s) || s.registered == 0 ==> Valid(r)
    ensures r.isDragging == s.isDragging && r.dragStart == s.dragStart
    ensures r.cardStart == s.cardStart && r.userSelect == s.userSelect
  {
    var c := Cleanup(s);
    c.(registered := c.registered + (if s.isDragging then 1 else 0), attachedByLastRun := s.isDragging)
  }

  /** Mouse-down on the card. Inside a button nothing happens and nothing is
      called. Otherwise the card asks once to be brought to front, starts
      dragging, records the pointer as origin and its own position as
      baseline, suppresses text selection, and its effect attaches one
      listener pair. */
  function Press(s: DragState, note: Note, inButton: bool, pointer: Position): (r: (DragState, Option<Call>))
    ensures inButton ==> r == (s, None)
    ensures !inButton ==>
              r.1 == Some(BringToFrontCall(note.id)) &&
              r.0.isDragging && r.0.dragStart == pointer && r.0.cardStart == note.position &&
              r.0.userSelect == SelectNone
    ensures !inButton && Consistent(s) ==> Valid(r.0) && r.0.registered == 1
  {
    if inButton then (s, None)
    else
      var pressed := s.(isDragging := true, dragStart := pointer, cardStart := note.position,
                        userSelect := SelectNone);
      (Effect(pressed), Some(BringToFrontCall(note.id)))
  }

  /** A window mousemove. It reaches the card only through an attached
      listener, and the handler emits an update only while dragging. While
      dragging, the update is the note with every field kept except the
      position, which is the baseline plus the pointer's offset from the
      origin on each axis. */
  function Move(s: DragState, note: Note, pointer: Position): (r: Option<Call>)
    ensures !s.isDragging ==> r == None
    ensures Valid(s) && s.isDragging ==>
              r.Some? && r.value.UpdateCall? &&
              r.value.note == note.(position := r.value.note.position) &&
              r.value.note.position.x == s.cardStart.x + (pointer.x - s.dragStart.x) &&
              r.value.note.position.y == s.cardStart.y + (pointer.y - s.dragStart.y)
  {
    if s.attachedByLastRun && s.isDragging then
      Some(UpdateCall(note.(position := DragPosition(s.cardStart, s.dragStart, pointer))))
    else None
  }

  /** A window mouseup. While dragging it ends the drag and restores text
      selection, and the effect detaches the listeners; while idle it
      changes nothing. The refs are never touched. */
  function Release(s: DragState): (r: DragState)
    ensures !s.isDragging ==> r == s
    ensures Valid(s) && s.isDragging ==>
              !r.isDragging && r.userSelect == SelectAuto && r.registered == 0 && Valid(r)
    ensures r.dragStart == s.dragStart && r.cardStart == s.cardStart
  {
    if s.attachedByLastRun && s.isDragging then
      Effect(s.(isDragging := false, userSelect := SelectAuto))
    else s
  }

  /** During a drag, moving the pointer back to the press point emits the
      note at its baseline, every other field unchanged. */
  lemma BackToOriginRestoresBaseline(s: DragState, note: Note)
    requires Valid(s) && s.isDragging
    ensures Move(s, note, s.dragStart) == Some(UpdateCall(note.(position := s.cardStart)))
  {
  }

  // ---------------------------------------------------------------------------
  // Gesture sequences

  /** An input to the card: a press (inside a button or not), a window
      mousemove, a window mouseup, or a new `note` prop from the parent. */
  datatype Event = Down(inButton: bool, at: Position) | MoveTo(at: Position) | Up | Props(note: Note)

  /** A mounted card: its current `note` prop and its drag state. */
  datatype Card = Card(note: Note, drag: DragState)

  /** One event. Only a press outside a button calls the parent (with a
      bring-to-front for the card's own note) and only a move may emit an
      update; the listener invariant is kept; only new props change the
      card's note. */
  function Step(c: Card, e: Event): (r: (Card, Option<Call>))
    ensures Valid(c.drag) ==> Valid(r.0.drag)
    ensures r.1.Some? ==> (e.Down? && r.1.value == BringToFrontCall(c.note.id)) ||
                          (e.MoveTo? && r.1.value.UpdateCall?)
    ensures r.0.note == (if e.Props? then e.note else c.note)
  {
    match e
    case Down(inButton, p) =>
      var (d, call) := Press(c.drag, c.note, inButton, p);
      (c.(drag := d), call)
    case MoveTo(p) => (c, Move(c.drag, c.note, p))
    case Up => (c.(drag := Release(c.drag)), None)
    case Props(n) => (Card(n, Effect(c.drag)), None)
  }

  /** The card after `events`, and the call (if any) each event made: one
      output per event, and a call only for a press or a move. */
  function Run(c: Card, events: seq<Event>): (r: (Card, seq<Option<Call>>))
    ensures |r.1| == |events|
    ensures forall k :: 0 <= k < |events| && r.1[k].Some? ==> events[k].Down? || events[k].MoveTo?
    decreases |events|
  {
    if events == [] then (c, [])
    else
      var (c1, out) := Step(c, events[0]);
      var (c2, outs) := Run(c1, events[1..]);
      (c2, [out] + outs)
  }

  /** Every step keeps the listener invariant: whatever the events, a card
      never has more than one listener pair attached, and has one exactly
      while it is dragging. */
  lemma {:induction false} ListenersNeverAccumulate(c: Card, events: seq<Event>)
    requires Valid(c.drag)
    ensures var d := Run(c, events).0.drag;
            Valid(d) && d.registered <= 1 && (d.registered == 1 <==> d.isDragging)
    decreases |events|
  {
    if events != [] {
      var (c1, _) := Step(c, events[0]);
      assert Valid(c1.drag);
      ListenersNeverAccumulate(c1, events[1..]);
    }
  }

  /** Events that cannot start or end a drag: moves and new props. */
  predicate OnlyMovesAndProps(events: seq<Event>)
  {
    forall k :: 0 <= k < |events| ==> events[k].MoveTo? || events[k].Props?
  }

  /** Path independence. During a drag, a run of moves (with the parent
      feeding the updated note back as props in between) leaves the drag
      refs alone, and each move emits a position that depends only on its
      own pointer sample: the baseline plus that sample's offset from the
      press point. */
  lemma {:induction false} PositionDependsOnlyOnLatestSample(c: Card, events: seq<Event>)
    requires Valid(c.drag) && c.drag.isDragging
    requires OnlyMovesAndProps(events)
    ensures var (c2, outs) := Run(c, events);
            c2.drag == c.drag &&
            forall k :: 0 <= k < |events| && events[k].MoveTo? ==>
              outs[k].Some? && outs[k].value.UpdateCall? &&
              outs[k].value.note.position == DragPosition(c.drag.cardStart, c.drag.dragStart, events[k].at)
    decreases |events|
  {
    if events != [] {
      var (c1, out) := Step(c, events[0]);
      assert c1.drag == c.drag;
      assert OnlyMovesAndProps(events[1..]) by {
        forall k | 0 <= k < |events| - 1 ensures events[1..][k].MoveTo? || events[1..][k].Props? {
          assert events[1..][k] == events[k + 1];
        }
      }
      PositionDependsOnlyOnLatestSample(c1, events[1..]);
      var outs := Run(c, events).1;
      assert outs == [out] + Run(c1, events[1..]).1;
      forall k | 1 <= k < |events| && events[k].MoveTo?
        ensures outs[k].Some? && outs[k].value.UpdateCall? &&
                outs[k].value.note.position == DragPosition(c.drag.cardStart, c.drag.dragStart, events[k].at)
      {
        assert events[k] == events[1..][k - 1];
        assert outs[k] == Run(c1, events[1..]).1[k - 1];
      }
    }
  }

  /** Release always unlocks: however a drag started and whatever moves and
      props followed, the release that ends it restores text selection and
      detaches the listeners. */
  lemma {:induction false} ReleaseAfterGestureUnlocks(c: Card, at: Position, middle: seq<Event>)
    requires Valid(c.drag)
    requires OnlyMovesAndProps(middle)
    ensures var d := Run(c, [Down(false, at)] + middle + [Up]).0.drag;
            !d.isDragging && d.userSelect == SelectAuto && d.registered == 0
  {
    var (c1, _) := Step(c, Down(false, at));
    assert Valid(c1.drag) && c1.drag.isDragging;
    PositionDependsOnlyOnLatestSample(c1, middle);
    RunAppend(c1, middle, [Up]);
    assert [Down(false, at)] + middle + [Up] == [Down(false, at)] + (middle + [Up]);
  }

  /** Running two event sequences one after the other. */
  lemma {:induction false} RunAppend(c: Card, a: seq<Event>, b: seq<Event>)
    ensures Run(c, a + b).0 == Run(Run(c, a).0, b).0
    decreases |a|
  {
    if a != [] {
      var (c1, _) := Step(c, a[0]);
      assert (a + b)[1..] == a[1..] + b;
      RunAppend(c1, a[1..], b);
    } else {
      assert a + b == b;
    }
  }

  /** Unmounting runs the last cleanup: no listener of this card stays on
      the window. Text selection is left as it was. */
  lemma UnmountDetaches(s: DragState)
    requires Consistent(s)
    ensures Cleanup(s).registered == 0 && Cleanup(s).userSelect == s.userSelect
  {
  }

  // ---------------------------------------------------------------------------
  // The component

  /** The page body whose text selection the card suppresses during a drag. */
  class Body {
    var userSelect: string

    constructor (userSelect: string)
      ensures this.userSelect == userSelect
    {
      this.userSelect := userSelect;
    }
  }

  class DragController {
    var note: Note
    var isDragging: bool
    var dragStart: Position
    var cardStart: Position
    var registered: nat
    var attachedByLastRun: bool
    const body: Body

    function State(): DragState
      reads this, body
    {
      DragState(isDragging, dragStart, cardStart, body.userSelect, registered, attachedByLastRun)
    }

    constructor (note: Note, body: Body)
      ensures this.note == note && this.body == body
      ensures State() == Initial(body.userSelect) && Valid(State())
    {
      this.note := note;
      this.body := body;
      isDragging := false;
      dragStart := Position(0.0, 0.0);
      cardStart := Position(0.0, 0.0);
      registered := 0;
      attachedByLastRun := false;
    }

    /** The listener effect: remove the pair the previous run attached, then
        attach a pair if dragging. */
    method RunEffect()
      modifies this`registered, this`attachedByLastRun
      ensures State() == Effect(old(State()))
    {
      if attachedByLastRun && registered > 0 {
        registered := registered - 1;
      }
      attachedByLastRun := false;
      if isDragging {
        registered := registered + 1;
        attachedByLastRun := true;
      }
    }

    method MouseDown(inButton: bool, at: Position) returns (call: Option<Call>)
      modifies this, body
      ensures note == old(note)
      ensures (State(), call) == Press(old(State()), note, inButton, at)
    {
      if inButton {
        call := None;
        return;
      }
      call := Some(BringToFrontCall(note.id));
      isDragging := true;
      dragStart := at;
      cardStart := note.position;
      body.userSelect := SelectNone;
      RunEffect();
    }

    method MouseMove(at: Position) returns (call: Option<Call>)
      ensures call == Move(State(), note, at)
    {
      if !attachedByLastRun || !isDragging {
        call := None;
        return;
      }
      var deltaX := at.x - dragStart.x;
      var deltaY := at.y - dragStart.y;
      call := Some(UpdateCall(note.(position := Position(cardStart.x + deltaX, cardStart.y + deltaY))));
    }

    method MouseUp()
      modifies this, body
      ensures note == old(note)
      ensures State() == Release(old(State()))
    {
      if attachedByLastRun && isDragging {
        isDragging := false;
        body.userSelect := SelectAuto;
        RunEffect();
      }
    }

    /** The parent re-renders the card with a new `note`; the effect re-runs. */
    method ReceiveProps(n: Note)
      modifies this
      ensures note == n
      ensures State() == Effect(old(State()))
    {
      note := n;
      RunEffect();
    }

    /** The card leaves the page; the effect's last cleanup runs. */
    method Unmount()
      modifies this`registered, this`attachedByLastRun
      ensures State() == Cleanup(old(State()))
    {
      if attachedByLastRun && registered > 0 {
        registered := registered - 1;
      }
      attachedByLastRun := false;
    }
  }
}
