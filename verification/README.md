# Draggable notes: the note board and its drag controller

A model of the core of a sticky-notes web app. Users create coloured notes
and drag them around a canvas. They can also search the notes by text and
filter them by colour. The model covers four parts:

- **The board** (`NotesApp`, from `App.tsx`). It owns the note list and
  the search and colour filter. Its handlers rebuild the list:
  - add a note one above the current top stacking value (`maxZIndex`);
  - replace a note by id;
  - bring a note to front;
  - delete a note by id.

  Each handler is a pure function on `seq<Note>`. The `App` class holds the
  component's state fields, and its methods replace them through those
  functions, as the React setters do.
- **The drag controller** (`NoteCard`, from `components/NoteCard.tsx`). This
  is the mouse state machine of one card. Its states are idle and dragging.
  It holds two refs: the pointer position at press and the card position at
  press. It also holds the page's `userSelect` style and the window
  listeners that its effect attaches and removes. The transitions are pure
  functions on a `DragState` snapshot. Gesture-sequence properties are
  proved over `Run`, which replays a list of events. The `DragController`
  class has one method per handler, and each is proved to perform its
  transition.
- **The editor** (`NoteEditor`, from `components/NoteEditor.tsx`). It has
  title, content and colour fields. Its submit guard saves only content that
  is not blank after `trim()`.
- **The data model** (`Types`, from `types.ts`). It has the seven-value
  `NoteColor`, the `Note` record and the two colour-keyed style tables.

Two helper modules hold the built-ins the core relies on:

- `Seqs`: `Array.prototype.map`/`filter`, with "order-preserving sublist" as
  `IsSubsequence`;
- `Text`: ASCII `toLowerCase`, `includes`, and `trim` with the white-space
  set of `String.prototype.trim`.

`Scenario` is a client of the components. It adds two notes, drags one by
(+40, -30) from (100, 250) to (140, 220), brings the other to front, deletes
the first and filters by yellow, which leaves nothing.

Modelling choices:

- **Coordinates** are `real`, timestamps and `zIndex` are `int`.
- **Effectful inputs are parameters.** A new note's id, its two `Date.now()`
  readings, the window width and the two `Math.random()` draws come in as
  parameters. `AddNote` places the note with `NewNotePosition`, the
  position formula applied to the width and the draws.
- **The listener effect runs after each change.** It re-runs after every
  handler that changes `isDragging` and on every new `note` prop. Render
  and effect are treated as one step after each event.
- **Listener counts are tracked.** `registered` counts the move/up listener
  pairs that the card has on the window, so the model can state that they
  never pile up.
- **No minimum-Y clamp.** The move handler adds the pointer delta to both
  coordinates with no bound (`NoteCard.tsx:39-42`). The model does the
  same.
- **Mouse only.** The card has no touch or long-press handling, so the
  model has none either.
- **Unmount does not restore `userSelect`.** When a card is unmounted in
  the middle of a drag, its cleanup removes the listeners but leaves
  `userSelect` at `'none'`. The model does the same (`UnmountDetaches`).

## Model

| member | source | states |
|---|---|---|
| `Types.NoteColorsComplete` | draggable-notes/types.ts:2 | `NoteColor` has exactly seven values, and `NoteColors` lists each of them once |
| `Types.Lookup` | draggable-notes/types.ts:18-36 | a colour has an entry iff it is among the table's keys, and the entry found is in the table |
| `Types.ColorMapTotal` | draggable-notes/types.ts:18-26 | `COLOR_MAP` has a card style for every colour |
| `Types.ColorDotsTotal` | draggable-notes/types.ts:28-36 | `COLOR_DOTS` has a dot for every colour, and its keys (the editor palette) are the seven colours in order, each once |
| `NotesApp.FilterTabsListEveryColor` | draggable-notes/App.tsx:114 | the filter-tab list names each of the seven colours exactly once |
| `NotesApp.MaxOf` | draggable-notes/App.tsx:17 | for a non-empty list, `Math.max` over `zIndex`, with 0 read as 1, is at least every note's value and equals one of them |
| `NotesApp.MaxZIndex` | draggable-notes/App.tsx:15-18 | 1 for an empty board; otherwise it is at least every `zIndex` (a 0 counting as 1) and equals one note's value |
| `NotesApp.WithNoteAdded` | draggable-notes/App.tsx:31-45 | the old list with one note appended; that note carries the draft's title, content and colour, the given id, timestamps and position, and `maxZIndex + 1`, which is above every existing `zIndex` |
| `NotesApp.NewNotePosition` | draggable-notes/App.tsx:33-34 | the placement formula, with both `Math.random()` draws in [0, 1), puts a new note within 50 px of (`innerWidth`/2 - 128, 250) on each axis; `App.AddNote` places every new note with it |
| `NotesApp.AddedNoteIsOnTop` | draggable-notes/App.tsx:42 | after adding, the new note's value is the board's new maximum, strictly above every older note |
| `NotesApp.WithNoteReplaced` | draggable-notes/App.tsx:47-49 | update replaces exactly the notes whose id matches the updated note, and keeps the length and every other note |
| `NotesApp.ReplaceUnknownIsNoop` | draggable-notes/App.tsx:48 | updating a note whose id is on no note leaves the list unchanged |
| `NotesApp.ReplaceKeepsIdsAndIsIdempotent` | draggable-notes/App.tsx:48 | update keeps every position's id, and applying the same update twice is applying it once |
| `NotesApp.WithZIndexFor` | draggable-notes/App.tsx:52-54 | the notes with the given id get the new `zIndex`; every other note and the length are unchanged |
| `NotesApp.BroughtToFront` | draggable-notes/App.tsx:51-55 | keeps the length; notes with other ids are unchanged; matching notes get `maxZIndex + 1`; afterwards every matching note is strictly above every other note |
| `NotesApp.FrontUnknownIsNoop` | draggable-notes/App.tsx:52-54 | bring-to-front on an unknown id leaves the list unchanged |
| `NotesApp.FrontChangesOnlyZIndex` | draggable-notes/App.tsx:53 | bring-to-front changes no field of any note except `zIndex`, so ids and order are kept |
| `NotesApp.LastFrontWins` | draggable-notes/App.tsx:51-55 | after two bring-to-front calls on different ids, the note lifted last is above the note lifted first |
| `NotesApp.WithoutNote` | draggable-notes/App.tsx:57-59 | delete gives the order-preserving sublist of the notes with a different id: no note with the id remains, every other note does, and exactly the matching ones are gone |
| `NotesApp.DeleteUnknownIsNoop` | draggable-notes/App.tsx:58 | deleting an unknown id leaves the list unchanged |
| `NotesApp.FilteredNotes` | draggable-notes/App.tsx:61-68 | the shown notes are an order-preserving sublist; a note is kept iff its lower-cased title or content contains the lower-cased query and the colour tab is `'all'` or its colour |
| `NotesApp.EmptySearchShowsAll` | draggable-notes/App.tsx:61-68 | an empty query with the `'all'` tab shows every note |
| `NotesApp.App.constructor` | draggable-notes/App.tsx:9-12 | the initial state is no notes, editor closed, empty query and `'all'` |
| `NotesApp.App.LoadSaved` | draggable-notes/App.tsx:21-24 | on mount the list becomes what storage loaded |
| `NotesApp.App.TopZIndex` | draggable-notes/App.tsx:15-18 | the current top value bounds every note's `zIndex` |
| `NotesApp.App.AddNote` | draggable-notes/App.tsx:31-45 | the list becomes `WithNoteAdded` of the old list, with the note placed by `NewNotePosition`; nothing else changes |
| `NotesApp.App.UpdateNote` | draggable-notes/App.tsx:47-49 | the list becomes `WithNoteReplaced` of the old list; nothing else changes |
| `NotesApp.App.BringToFront` | draggable-notes/App.tsx:51-55 | the list becomes `BroughtToFront` of the old list; nothing else changes |
| `NotesApp.App.DeleteNote` | draggable-notes/App.tsx:57-59 | the list becomes `WithoutNote` of the old list; nothing else changes |
| `NotesApp.App.SetSearchQuery` | draggable-notes/App.tsx:90 | the search box sets the query and nothing else |
| `NotesApp.App.SetFilterColor` | draggable-notes/App.tsx:117 | a colour tab sets the filter and nothing else |
| `NotesApp.App.SetEditorOpen` | draggable-notes/App.tsx:95 | the New Note button opens the editor and its close callback closes it; nothing else changes |
| `NotesApp.App.Visible` | draggable-notes/App.tsx:61-68 | the displayed notes are a read-only projection: an order-preserving sublist of the state's notes, each matching the query and colour |
| `Text.IncludesIff` | draggable-notes/App.tsx:63-64 | `includes` holds iff some suffix of the text starts with the query |
| `Text.TrimStart` | draggable-notes/components/NoteEditor.tsx:19 | only leading white space is dropped, and the rest does not start with white space |
| `Text.TrimEnd` | draggable-notes/components/NoteEditor.tsx:19 | only trailing white space is dropped, and the rest does not end with white space |
| `Text.TrimEmptyIff` | draggable-notes/components/NoteEditor.tsx:19 | `trim()` gives `''` iff every character is white space |
| `NoteEditor.Editor.constructor` | draggable-notes/components/NoteEditor.tsx:13-15 | the editor starts with title `''`, content `''` and colour yellow |
| `NoteEditor.Editor.SetTitle` | draggable-notes/components/NoteEditor.tsx:47 | the title input sets the title only |
| `NoteEditor.Editor.SetContent` | draggable-notes/components/NoteEditor.tsx:54 | the content textarea sets the content only |
| `NoteEditor.Editor.SetColor` | draggable-notes/components/NoteEditor.tsx:63 | a palette dot sets the colour only |
| `NoteEditor.Editor.Submit` | draggable-notes/components/NoteEditor.tsx:17-22 | blank content calls neither `onSave` nor `onClose`; otherwise `onSave` is called once with `{title, content, color}` (title unchecked, no id, timestamps, position or `zIndex`), and then `onClose` |
| `NoteEditor.Editor.SubmitDisabled` | draggable-notes/components/NoteEditor.tsx:71 | the submit button is disabled exactly when the content is all white space, which is when `Submit` makes no call |
| `NoteCard.Cleanup` | draggable-notes/components/NoteCard.tsx:58-61 | from any state whose count matches the last run (including the one a mouse-up leaves: a pair attached, no longer dragging), cleanup leaves no pair of this card; it touches neither the drag flag, the refs nor `userSelect` |
| `NoteCard.Effect` | draggable-notes/components/NoteCard.tsx:53-61 | from any state whose count matches the last run, after an effect run listeners are attached iff dragging, one pair at most; the refs and `userSelect` are unchanged |
| `NoteCard.Press` | draggable-notes/components/NoteCard.tsx:18-28 | a mouse-down inside a button changes nothing and calls nothing; any other calls bring-to-front once with the note's id, starts dragging, records origin = pointer and baseline = note position, sets `userSelect` to `'none'` and attaches one listener pair |
| `NoteCard.Move` | draggable-notes/components/NoteCard.tsx:31-44 | a move while not dragging emits nothing; while dragging it emits the note at baseline + (pointer - origin) on each axis, no clamp, with every other field unchanged |
| `NoteCard.Release` | draggable-notes/components/NoteCard.tsx:46-51 | a mouse-up while dragging stops the drag, sets `userSelect` to `'auto'` and detaches the listeners; while idle it changes nothing; the refs are never touched |
| `NoteCard.Step` | draggable-notes/components/NoteCard.tsx:18-62 | one event keeps the listener invariant; only a press (bring-to-front for the card's own note) or a move (an update) calls the parent; only new props change the card's note |
| `NoteCard.Run` | draggable-notes/components/NoteCard.tsx:18-62 | replaying events gives one output per event, and only presses and moves make calls |
| `NoteCard.BackToOriginRestoresBaseline` | draggable-notes/components/NoteCard.tsx:34-41 | during a drag, a move back to the press point emits the note at its baseline position, every other field unchanged |
| `NoteCard.ListenersNeverAccumulate` | draggable-notes/components/NoteCard.tsx:53-61 | over any event sequence, a card has at most one listener pair, and has one exactly while dragging |
| `NoteCard.PositionDependsOnlyOnLatestSample` | draggable-notes/components/NoteCard.tsx:34-41 | during a drag, with any moves and new props in between, each emitted position depends only on its own pointer sample and the refs stay unchanged |
| `NoteCard.ReleaseAfterGestureUnlocks` | draggable-notes/components/NoteCard.tsx:46-51 | every press, moves, release gesture ends with `userSelect` `'auto'`, not dragging, and no listener attached |
| `NoteCard.UnmountDetaches` | draggable-notes/components/NoteCard.tsx:58-61 | unmounting leaves no listener of the card on the window and leaves `userSelect` as it was |
| `NoteCard.DragController.constructor` | draggable-notes/components/NoteCard.tsx:14-16 | a card starts idle, with both refs at (0, 0) and no listener |
| `NoteCard.DragController.RunEffect` | draggable-notes/components/NoteCard.tsx:53-61 | the effect body performs `Effect` on the card's fields |
| `NoteCard.DragController.MouseDown` | draggable-notes/components/NoteCard.tsx:18-28 | performs `Press` on the card's fields and the page body, returning the bring-to-front call |
| `NoteCard.DragController.MouseMove` | draggable-notes/components/NoteCard.tsx:31-44 | changes nothing and returns the update `Move` gives |
| `NoteCard.DragController.MouseUp` | draggable-notes/components/NoteCard.tsx:46-51 | performs `Release` on the card's fields and the page body |
| `NoteCard.DragController.ReceiveProps` | draggable-notes/components/NoteCard.tsx:62 | a new `note` prop re-runs the effect |
| `NoteCard.DragController.Unmount` | draggable-notes/components/NoteCard.tsx:58-61 | unmounting performs `Cleanup` |

## Left out

- Persistence (`services/storageService.ts`): saving on every change and loading on mount go through `localStorage` and JSON. Loading is the opaque parameter of `App.LoadSaved`; saving is not modelled.
- Text rewriting (`services/geminiService.ts`): a remote API client, so it is not part of this model.
- Randomness, clock and window size: `Math.random`, `Date.now` and `window.innerWidth` become parameters. Id uniqueness is therefore not guaranteed by the model, and the source does not guarantee it either.
- NotesApp.BroughtToFront: computes the maximum over the list being updated. The source reads the `maxZIndex` memoised at the last render. The two differ only when several list updates are batched before a re-render.
- React scheduling: re-render and effect timing are not modelled. The effect is taken to run right after each state change.
- Markup, hover state, CSS classes, transitions and the card's date formatting are not modelled.
- Text.Lower: folds ASCII letters only, where `toLowerCase` folds all of Unicode.
- Floating-point coordinates are modelled as exact reals, so rounding is not modelled.
- `zIndex` and the timestamps are exact unbounded integers, although the source stores them as JS numbers. The model therefore does not capture that `maxZIndex + 1` stops exceeding the maximum once it reaches 2^53, or once it is `Infinity` (for example read back from storage). `NaN` and fractional stacking values are not represented either; `NaN || 1` would read as 1. The "strictly above" results of `WithNoteAdded`, `BroughtToFront`, `AddedNoteIsOnTop` and `LastFrontWins` hold for these integers only.
- Sharing of `document.body` between cards: each `DragController` is shown with its own `Body`. Nothing is proved about several cards writing `userSelect` in turn.
