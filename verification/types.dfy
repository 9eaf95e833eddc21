/** The note record, its colour tag and the two colour-keyed style tables
    (draggable-notes/types.ts). */
module Types {

  datatype Option<T> = None | Some(value: T)

  /** The seven colour tags a note can carry. */
  datatype NoteColor = Yellow | Blue | Green | Pink | Purple | Orange | Gray

  /** A point of the canvas; pointer coordinates live in the same space. */
  datatype Position = Position(x: real, y: real)

  /** A note. Timestamps are milliseconds since the epoch. */
  datatype Note = Note(
    id: string,
    title: string,
    content: string,
    color: NoteColor,
    createdAt: int,
    updatedAt: int,
    position: Position,
    zIndex: int)

  /** What the editor hands over: a note without id, timestamps, position and stacking value. */
  datatype NoteDraft = NoteDraft(title: string, content: string, color: NoteColor)

  /** Every colour, in the order the type declares them. */
  const NoteColors: seq<NoteColor> := [Yellow, Blue, Green, Pink, Purple, Orange, Gray]

  /** A record keyed by colour, as its entries appear in the object literal. */
  type ColorTable = seq<(NoteColor, string)>

  const ColorMap: ColorTable := [
    (Yellow, "bg-yellow-100 border-yellow-200 text-yellow-900"),
    (Blue, "bg-blue-100 border-blue-200 text-blue-900"),
    (Green, "bg-emerald-100 border-emerald-200 text-emerald-900"),
    (Pink, "bg-rose-100 border-rose-200 text-rose-900"),
    (Purple, "bg-purple-100 border-purple-200 text-purple-900"),
    (Orange, "bg-orange-100 border-orange-200 text-orange-900"),
    (Gray, "bg-slate-100 border-slate-200 text-slate-900")
  ]

  const ColorDots: ColorTable := [
    (Yellow, "bg-yellow-400"),
    (Blue, "bg-blue-400"),
    (Green, "bg-emerald-400"),
    (Pink, "bg-rose-400"),
    (Purple, "bg-purple-400"),
    (Orange, "bg-orange-400"),
    (Gray, "bg-slate-400")
  ]

  /** The keys of a table in insertion order (what Object.keys yields). */
  function Keys(t: ColorTable): (ks: seq<NoteColor>)
    ensures |ks| == |t|
    ensures forall i :: 0 <= i < |t| ==> ks[i] == t[i].0
  {
    if t == [] then [] else [t[0].0] + Keys(t[1..])
  }

  /** The entry a table holds for colour `c`, if any (first match wins). */
  function Lookup(t: ColorTable, c: NoteColor): (r: Option<string>)
    ensures r.Some? <==> c in Keys(t)
    ensures r.Some? ==> (c, r.value) in t
  {
    if t == [] then None
    else if t[0].0 == c then Some(t[0].1)
    else Lookup(t[1..], c)
  }

  /** A sequence that names every colour exactly once. */
  predicate ListsEveryColorOnce(cs: seq<NoteColor>)
  {
    (forall c: NoteColor :: c in cs) &&
    (forall i, j :: 0 <= i < j < |cs| ==> cs[i] != cs[j])
  }

  /** NoteColor has exactly seven values, and NoteColors lists each once. */
  lemma NoteColorsComplete()
    ensures |NoteColors| == 7
    ensures ListsEveryColorOnce(NoteColors)
  {
    forall c: NoteColor ensures c in NoteColors {
      match c
      case Yellow => assert NoteColors[0] == c;
      case Blue => assert NoteColors[1] == c;
      case Green => assert NoteColors[2] == c;
      case Pink => assert NoteColors[3] == c;
      case Purple => assert NoteColors[4] == c;
      case Orange => assert NoteColors[5] == c;
      case Gray => assert NoteColors[6] == c;
    }
  }

  /** Every colour has a card style. */
  lemma ColorMapTotal(c: NoteColor)
    ensures Lookup(ColorMap, c).Some?
  {
  }

  /** Every colour has a palette dot, and the palette built from the keys of
      ColorDots offers each colour exactly once. */
  lemma ColorDotsTotal(c: NoteColor)
    ensures Lookup(ColorDots, c).Some?
    ensures Keys(ColorDots) == NoteColors
    ensures ListsEveryColorOnce(Keys(ColorDots))
  {
    assert Keys(ColorDots) == NoteColors;
    NoteColorsComplete();
  }
}
