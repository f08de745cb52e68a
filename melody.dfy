/**
 * Melodies (Assets/_Game/Scripts/MelodySystem/Melody.cs): an ordered note
 * sequence with a tier and a level, its total cost and the colour-wise
 * sequence comparison.
 */
module Melodies {
  import opened Wrappers
  import opened Notes

  /** A learned spell. The generated display name is not modelled. */
  datatype Melody = Melody(tier: int, level: int, sequence: seq<NoteDefinition>)

  /** A fresh melody of the given tier: no notes yet, level 1. */
  function NewMelody(tier: int): (m: Melody)
    ensures m.tier == tier && m.level == 1 && |m.sequence| == 0 && TotalCost(m.sequence) == 0
  {
    Melody(tier, 1, [])
  }

  /** The sum of the notes' costs, accumulated left to right as the foreach does. */
  function TotalCost(notes: seq<NoteDefinition>): (r: int)
    ensures (forall i | 0 <= i < |notes| :: notes[i].complexityCost >= 0) ==> r >= 0
    ensures |notes| == 1 ==> r == notes[0].complexityCost
  {
    if notes == [] then 0
    else TotalCost(notes[..|notes| - 1]) + notes[|notes| - 1].complexityCost
  }

  /** Appending one note adds exactly its cost. */
  lemma TotalCostPush(notes: seq<NoteDefinition>, n: NoteDefinition)
    ensures TotalCost(notes + [n]) == TotalCost(notes) + n.complexityCost
  {
    assert (notes + [n])[..|notes|] == notes;
  }

  /** The total cost is additive over concatenation, so the order of summation does not matter. */
  lemma {:induction false} TotalCostConcat(a: seq<NoteDefinition>, b: seq<NoteDefinition>)
    ensures TotalCost(a + b) == TotalCost(a) + TotalCost(b)
    decreases |b|
  {
    if b == [] {
      assert a + b == a;
    } else {
      var init := b[..|b| - 1];
      var last := b[|b| - 1];
      assert b == init + [last];
      assert a + b == (a + init) + [last];
      TotalCostPush(a + init, last);
      TotalCostConcat(a, init);
      TotalCostPush(init, last);
    }
  }

  /** When every cost lies in [lo, hi], the total lies in [lo * n, hi * n] for n notes. */
  lemma {:induction false} TotalCostBounds(notes: seq<NoteDefinition>, lo: int, hi: int)
    requires forall i | 0 <= i < |notes| :: lo <= notes[i].complexityCost <= hi
    ensures lo * |notes| <= TotalCost(notes) <= hi * |notes|
  {
    if notes != [] {
      var k := |notes| - 1;
      var init := notes[..k];
      assert forall i | 0 <= i < k :: init[i] == notes[i];
      TotalCostBounds(init, lo, hi);
      assert TotalCost(notes) == TotalCost(init) + notes[k].complexityCost;
      MulSucc(lo, k);
      MulSucc(hi, k);
    }
  }

  /** One more factor of `k + 1` adds one more `a`. */
  lemma MulSucc(a: int, k: int)
    ensures a * (k + 1) == a * k + a
  {
  }

  /**
   * The colour-wise comparison: `other` must exist, have the same length and
   * the same colour at every position. Notes are not compared by reference.
   */
  function IsSameSequence(m: Melody, other: Option<Melody>): (r: bool)
    ensures other.None? ==> !r
    ensures other.Some? && |m.sequence| != |other.value.sequence| ==> !r
    ensures r <==> other.Some? && ColorsOf(m.sequence) == ColorsOf(other.value.sequence)
  {
    ColorsOfEqual(m.sequence, if other.Some? then other.value.sequence else []);
    other.Some? && |m.sequence| == |other.value.sequence|
    && SameColorsFrom(m.sequence, other.value.sequence, 0)
  }

  /** Two colour sequences are equal exactly when the notes agree in colour position by position. */
  lemma ColorsOfEqual(a: seq<NoteDefinition>, b: seq<NoteDefinition>)
    ensures ColorsOf(a) == ColorsOf(b) <==> |a| == |b| && forall k | 0 <= k < |a| :: a[k].color == b[k].color
  {
    if |a| == |b| && forall k | 0 <= k < |a| :: a[k].color == b[k].color {
      assert forall k | 0 <= k < |a| :: ColorsOf(a)[k] == ColorsOf(b)[k];
    }
    if ColorsOf(a) == ColorsOf(b) {
      assert |a| == |ColorsOf(a)| == |ColorsOf(b)| == |b|;
      forall k | 0 <= k < |a| ensures a[k].color == b[k].color {
        assert ColorsOf(a)[k] == ColorsOf(b)[k];
      }
    }
  }

  /** The early-exit comparison loop from position `i` on. */
  function SameColorsFrom(a: seq<NoteDefinition>, b: seq<NoteDefinition>, i: nat): (r: bool)
    requires |a| == |b| && i <= |a|
    ensures r <==> forall k | i <= k < |a| :: a[k].color == b[k].color
    decreases |a| - i
  {
    if i == |a| then true
    else if a[i].color != b[i].color then false
    else SameColorsFrom(a, b, i + 1)
  }

  /** The comparison is reflexive and symmetric (it ignores tier and level). */
  lemma IsSameSequenceEquivalence(m: Melody, n: Melody)
    ensures IsSameSequence(m, Some(m))
    ensures IsSameSequence(m, Some(n)) == IsSameSequence(n, Some(m))
  {
  }

  /**
   * The comparison is order-sensitive: two different colours in swapped
   * order do not compare equal, whereas distinct note objects of the same
   * colours do.
   */
  lemma IsSameSequenceOrderAndColour(a: NoteDefinition, b: NoteDefinition, a2: NoteDefinition, b2: NoteDefinition)
    requires a.color != b.color && a2.color == a.color && b2.color == b.color
    ensures !IsSameSequence(Melody(1, 1, [a, b]), Some(Melody(1, 1, [b, a])))
    ensures IsSameSequence(Melody(1, 1, [a, b]), Some(Melody(2, 3, [a2, b2])))
  {
    assert ColorsOf([a, b])[0] != ColorsOf([b, a])[0];
    assert ColorsOf([a, b]) == ColorsOf([a2, b2]);
  }
}
