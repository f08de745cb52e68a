/**
 * Note assets (Assets/_Game/Scripts/MelodySystem/Note/NoteDefinition.cs).
 *
 * A note is a shared asset: the input queue holds references to the same
 * objects that melodies hold, and the matcher compares them by reference.
 * Its colour is what the spell rules read; its cost is what loot generation
 * sums. The name, icon and debug colour are presentation only.
 */
module Notes {

  /** The four note colours. */
  datatype NoteColor = Green | Blue | Red | Yellow

  /** A note asset; its identity is the object itself. */
  class NoteDefinition {
    const color: NoteColor
    const complexityCost: int

    constructor (color: NoteColor, complexityCost: int)
      ensures this.color == color && this.complexityCost == complexityCost
    {
      this.color := color;
      this.complexityCost := complexityCost;
    }
  }

  /** The colours of a note sequence, position by position. */
  function ColorsOf(notes: seq<NoteDefinition>): seq<NoteColor>
  {
    seq(|notes|, i requires 0 <= i < |notes| => notes[i].color)
  }

  /** How many times colour `c` occurs in `colors`. */
  function CountColor(colors: seq<NoteColor>, c: NoteColor): nat
  {
    if colors == [] then 0
    else (if colors[0] == c then 1 else 0) + CountColor(colors[1..], c)
  }
}
