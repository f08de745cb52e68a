/**
 * The note queue and the spell inventory
 * (Assets/_Game/Scripts/MelodySystem/SpellCasterSystem.cs).
 *
 * The queue is a FIFO of at most four note references. After every push the
 * inventory is scanned in order and the first spell whose sequence equals
 * the end of the queue, note object by note object, becomes the ready spell.
 */
module SpellCaster {
  import opened Wrappers
  import opened Notes
  import opened Melodies
  import Generator

  /** Capacity of the note FIFO. */
  const MaxQueueSize := 4

  /** The queue after `note` is appended and, when that makes five, the oldest note is dropped. */
  function Pushed(queue: seq<NoteDefinition>, note: NoteDefinition): (r: seq<NoteDefinition>)
    ensures |queue| <= MaxQueueSize ==> |r| <= MaxQueueSize
    ensures |r| > 0 && r[|r| - 1] == note
    ensures |queue| < MaxQueueSize ==> r == queue + [note]
    ensures |queue| == MaxQueueSize ==> r == queue[1..] + [note]
  {
    var added := queue + [note];
    if |added| > MaxQueueSize then added[1..] else added
  }

  /**
   * Whether `spellSeq` equals the last |spellSeq| notes of the queue, the
   * notes compared as objects.
   */
  function IsSubsequenceMatch(spellSeq: seq<NoteDefinition>, currentQueue: seq<NoteDefinition>): (r: bool)
    ensures r <==> |spellSeq| <= |currentQueue| && currentQueue[|currentQueue| - |spellSeq|..] == spellSeq
  {
    if |spellSeq| > |currentQueue| then false
    else
      var offset := |currentQueue| - |spellSeq|;
      var r := MatchesFrom(spellSeq, currentQueue, offset, 0);
      assert r ==> forall k | 0 <= k < |spellSeq| :: currentQueue[offset..][k] == spellSeq[k];
      r
  }

  /** The early-exit comparison loop from spell position `i` on. */
  function MatchesFrom(spellSeq: seq<NoteDefinition>, currentQueue: seq<NoteDefinition>, offset: nat, i: nat): (r: bool)
    requires offset + |spellSeq| == |currentQueue| && i <= |spellSeq|
    ensures r <==> forall k | i <= k < |spellSeq| :: currentQueue[offset + k] == spellSeq[k]
    decreases |spellSeq| - i
  {
    if i == |spellSeq| then true
    else if currentQueue[offset + i] != spellSeq[i] then false
    else MatchesFrom(spellSeq, currentQueue, offset, i + 1)
  }

  /** The index of the first spell of the inventory that matches the queue, if any. */
  function FirstMatch(spells: seq<Melody>, queue: seq<NoteDefinition>): (r: Option<nat>)
    ensures r.Some? ==> r.value < |spells| && IsSubsequenceMatch(spells[r.value].sequence, queue)
    ensures r.Some? ==> forall j | 0 <= j < r.value :: !IsSubsequenceMatch(spells[j].sequence, queue)
    ensures r.None? ==> forall j | 0 <= j < |spells| :: !IsSubsequenceMatch(spells[j].sequence, queue)
  {
    if spells == [] then None
    else if IsSubsequenceMatch(spells[0].sequence, queue) then Some(0)
    else
      match FirstMatch(spells[1..], queue)
      case Some(i) => assert spells[1..][i] == spells[i + 1]; Some(i + 1)
      case None => None
  }

  /** The spell that becomes ready for `queue`. */
  function ReadySpell(spells: seq<Melody>, queue: seq<NoteDefinition>): (r: Option<Melody>)
    ensures r.Some? ==> r.value in spells && IsSubsequenceMatch(r.value.sequence, queue)
    ensures r.None? ==> forall i | 0 <= i < |spells| :: !IsSubsequenceMatch(spells[i].sequence, queue)
  {
    match FirstMatch(spells, queue)
    case Some(i) => Some(spells[i])
    case None => None
  }

  /** A matching spell is never longer than the queue, so never longer than four notes. */
  lemma MatchFitsQueue(spellSeq: seq<NoteDefinition>, queue: seq<NoteDefinition>)
    requires |queue| <= MaxQueueSize && IsSubsequenceMatch(spellSeq, queue)
    ensures |spellSeq| <= MaxQueueSize
  {
  }

  /**
   * Matching by reference implies the colours match too: the matched spell
   * is colour-wise the same sequence as the end of the queue.
   */
  lemma MatchImpliesSameColours(m: Melody, queue: seq<NoteDefinition>)
    requires IsSubsequenceMatch(m.sequence, queue)
    ensures IsSameSequence(m, Some(Melody(m.tier, m.level, queue[|queue| - |m.sequence|..])))
  {
  }

  /**
   * The reverse fails: a distinct note object of the same colour does not
   * match, although the two sequences are the same colour-wise.
   */
  lemma SameColourDifferentNoteDoesNotMatch(a: NoteDefinition, b: NoteDefinition)
    requires a != b && a.color == b.color
    ensures !IsSubsequenceMatch([a], [b])
    ensures IsSameSequence(Melody(1, 1, [a]), Some(Melody(1, 1, [b])))
  {
    assert [b][0..] == [b];
    assert ColorsOf([a]) == ColorsOf([b]);
  }

  /**
   * The first matching spell wins even when a later one is longer: with the
   * inventory [[b], [r, b]] and the queue [g, r, b], spell 0 is chosen.
   */
  lemma FirstMatchNotLongest(g: NoteDefinition, r: NoteDefinition, b: NoteDefinition)
    ensures var spells := [Melody(1, 1, [b]), Melody(1, 1, [r, b])];
      var queue := [g, r, b];
      IsSubsequenceMatch(spells[1].sequence, queue) && FirstMatch(spells, queue) == Some(0)
  {
    assert [g, r, b][2..] == [b];
    assert [g, r, b][1..] == [r, b];
  }

  /** The matcher's state: the key map, the inventory, the FIFO and the ready spell. */
  class SpellCasterSystem {
    var noteKeyMap: seq<NoteDefinition?>
    var knownSpells: seq<Melody>
    var noteQueue: seq<NoteDefinition>
    var readyToCastSpell: Option<Melody>

    /** The queue is bounded and a ready spell is an inventory spell that matches the queue. */
    ghost predicate Valid()
      reads this
    {
      && |noteQueue| <= MaxQueueSize
      && (readyToCastSpell.Some? ==>
            readyToCastSpell.value in knownSpells
            && IsSubsequenceMatch(readyToCastSpell.value.sequence, noteQueue))
    }

    /** The inspector-configured key map and starting inventory; the queue starts empty. */
    constructor (noteKeyMap: seq<NoteDefinition?>, knownSpells: seq<Melody>)
      ensures Valid()
      ensures this.noteKeyMap == noteKeyMap && this.knownSpells == knownSpells
      ensures noteQueue == [] && readyToCastSpell == None
    {
      this.noteKeyMap := noteKeyMap;
      this.knownSpells := knownSpells;
      noteQueue := [];
      readyToCastSpell := None;
    }

    /**
     * Plays key `mapIndex`: an unmapped or empty key changes nothing;
     * otherwise the note is pushed and the ready spell is recomputed.
     */
    method AddNoteToQueue(mapIndex: nat)
      requires Valid()
      modifies this
      ensures Valid()
      ensures noteKeyMap == old(noteKeyMap) && knownSpells == old(knownSpells)
      ensures mapIndex >= |noteKeyMap| || noteKeyMap[mapIndex] == null ==>
                noteQueue == old(noteQueue) && readyToCastSpell == old(readyToCastSpell)
      ensures mapIndex < |noteKeyMap| && noteKeyMap[mapIndex] != null ==>
                noteQueue == Pushed(old(noteQueue), noteKeyMap[mapIndex])
                && readyToCastSpell == ReadySpell(knownSpells, noteQueue)
    {
      if mapIndex >= |noteKeyMap| || noteKeyMap[mapIndex] == null {
        return;
      }
      noteQueue := noteQueue + [noteKeyMap[mapIndex]];
      if |noteQueue| > MaxQueueSize {
        noteQueue := noteQueue[1..];
      }
      CheckForMatches();
    }

    /** Scans the inventory in order and keeps the first spell that matches the queue. */
    method CheckForMatches()
      requires |noteQueue| <= MaxQueueSize
      modifies this`readyToCastSpell
      ensures Valid()
      ensures readyToCastSpell == ReadySpell(knownSpells, noteQueue)
    {
      readyToCastSpell := None;
      var i := 0;
      while i < |knownSpells|
        invariant 0 <= i <= |knownSpells|
        invariant readyToCastSpell == None
        invariant forall j | 0 <= j < i :: !IsSubsequenceMatch(knownSpells[j].sequence, noteQueue)
      {
        var spell := knownSpells[i];
        if IsSubsequenceMatch(spell.sequence, noteQueue) {
          readyToCastSpell := Some(spell);
          assert FirstMatch(knownSpells, noteQueue) == Some(i) by {
            var f := FirstMatch(knownSpells, noteQueue);
            assert f.Some? && f.value >= i;
          }
          return;
        }
        i := i + 1;
      }
    }

    /**
     * Casts the ready spell, if any: the whole queue is emptied and nothing
     * is ready afterwards. With no ready spell nothing changes.
     */
    method TryCastSpell() returns (cast: Option<Melody>)
      requires Valid()
      modifies this
      ensures Valid()
      ensures cast == old(readyToCastSpell)
      ensures noteKeyMap == old(noteKeyMap) && knownSpells == old(knownSpells)
      ensures cast.Some? ==> noteQueue == [] && readyToCastSpell == None
      ensures cast.None? ==> noteQueue == old(noteQueue) && readyToCastSpell == None
    {
      cast := readyToCastSpell;
      if readyToCastSpell.Some? {
        noteQueue := [];
        readyToCastSpell := None;
      }
    }

    /**
     * Loots a melody of `tier` from the generator and appends it to the
     * inventory, duplicates included; no melody leaves the inventory as it
     * was. The ready spell is not recomputed.
     */
    method LootNewSpell(generator: Generator.ProceduralGenerator, tier: int, draws: seq<nat>)
      returns (looted: Option<Melody>)
      requires Valid()
      requires Generator.FindRule(generator.tierRules, tier).maxCost != 0 ==>
                 Generator.DrawsAvailable(generator.allNotes, draws)
      modifies this
      ensures Valid()
      ensures noteKeyMap == old(noteKeyMap) && noteQueue == old(noteQueue)
      ensures readyToCastSpell == old(readyToCastSpell)
      ensures looted.None? <==> Generator.FindRule(generator.tierRules, tier).maxCost == 0
      ensures looted.Some? ==> knownSpells == old(knownSpells) + [looted.value] && looted.value.tier == tier
      ensures looted.None? ==> knownSpells == old(knownSpells)
    {
      looted := Generator.GenerateLoot(generator, tier, draws);
      if looted.Some? {
        knownSpells := knownSpells + [looted.value];
      }
    }
  }
}
