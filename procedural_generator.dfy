/**
 * Loot generation (Assets/_Game/Scripts/MelodySystem/ProceduralGenerator.cs).
 *
 * Every `Random.Range(0, allNotes.Count)` draw is read from an oracle
 * sequence `draws` of note indices, consumed in order: draws[0] and draws[1]
 * are the two mandatory notes, draws[2 + k] is the candidate of the k-th
 * extension iteration.
 */
module Generator {
  import opened Wrappers
  import opened Notes
  import opened Melodies

  /** Cost range of one tier. */
  datatype TierRule = TierRule(name: string, tierLevel: int, minCost: int, maxCost: int)

  /** The generator's configuration: the note catalogue and the tier rules. */
  datatype ProceduralGenerator = ProceduralGenerator(allNotes: seq<NoteDefinition>, tierRules: seq<TierRule>)

  /** What `List.Find` returns when no element matches: the all-zero struct. */
  const DefaultRule := TierRule("", 0, 0, 0)

  /** Iteration bound of the extension loop. */
  const SafetyLimit := 50

  /** No melody grows past this many notes. */
  const MaxLootNotes := 4

  /** The most draws one generation can consume. */
  const MaxDraws := 2 + SafetyLimit

  /** The first rule for `tier`, or the default rule if there is none. */
  function FindRule(rules: seq<TierRule>, tier: int): (r: TierRule)
    ensures r == DefaultRule <== (forall i | 0 <= i < |rules| :: rules[i].tierLevel != tier)
    ensures (exists i | 0 <= i < |rules| :: rules[i].tierLevel == tier) ==>
              exists i | 0 <= i < |rules| :: r == rules[i] && r.tierLevel == tier
                && forall j | 0 <= j < i :: rules[j].tierLevel != tier
  {
    if rules == [] then DefaultRule
    else if rules[0].tierLevel == tier then rules[0]
    else
      var r := FindRule(rules[1..], tier);
      assert forall i | 1 <= i < |rules| :: rules[i] == rules[1..][i - 1];
      r
  }

  /** The oracle can serve every draw a generation may ask for. */
  predicate DrawsAvailable(allNotes: seq<NoteDefinition>, draws: seq<nat>)
  {
    |draws| >= MaxDraws && forall i | 0 <= i < |draws| :: draws[i] < |allNotes|
  }

  /**
   * The extension loop as a function: `notes` is the sequence so far and
   * `safety` the iteration counter; candidate number `safety` is
   * `allNotes[draws[2 + safety]]`.
   */
  function Grow(allNotes: seq<NoteDefinition>, draws: seq<nat>, rule: TierRule,
                notes: seq<NoteDefinition>, safety: nat): (r: seq<NoteDefinition>)
    requires DrawsAvailable(allNotes, draws) && safety <= SafetyLimit
    ensures |notes| <= |r| <= |notes| + (SafetyLimit - safety)
    decreases SafetyLimit - safety
  {
    var cost := TotalCost(notes);
    if cost < rule.maxCost && |notes| < MaxLootNotes && safety < SafetyLimit then
      var candidate := allNotes[draws[2 + safety]];
      if cost + candidate.complexityCost <= rule.maxCost then
        Grow(allNotes, draws, rule, notes + [candidate], safety + 1)
      else if cost >= rule.minCost then
        notes
      else
        Grow(allNotes, draws, rule, notes, safety + 1)
    else
      notes
  }

  /** Growing keeps the notes already there, adds only catalogue notes, and stops at four notes. */
  lemma {:induction false} GrowShape(allNotes: seq<NoteDefinition>, draws: seq<nat>, rule: TierRule,
                                     notes: seq<NoteDefinition>, safety: nat)
    requires DrawsAvailable(allNotes, draws) && safety <= SafetyLimit
    requires |notes| <= MaxLootNotes
    ensures var r := Grow(allNotes, draws, rule, notes, safety);
      |notes| <= |r| <= MaxLootNotes && r[..|notes|] == notes
      && forall i | |notes| <= i < |r| :: r[i] in allNotes
    decreases SafetyLimit - safety
  {
    var cost := TotalCost(notes);
    if cost < rule.maxCost && |notes| < MaxLootNotes && safety < SafetyLimit {
      var candidate := allNotes[draws[2 + safety]];
      if cost + candidate.complexityCost <= rule.maxCost {
        GrowShape(allNotes, draws, rule, notes + [candidate], safety + 1);
        var r := Grow(allNotes, draws, rule, notes + [candidate], safety + 1);
        assert r[..|notes|] == r[..|notes| + 1][..|notes|];
      } else if cost < rule.minCost {
        GrowShape(allNotes, draws, rule, notes, safety + 1);
      }
    }
  }

  /** An extension is added only when it fits, so a sequence within `maxCost` stays within it. */
  lemma {:induction false} GrowCostBound(allNotes: seq<NoteDefinition>, draws: seq<nat>, rule: TierRule,
                                         notes: seq<NoteDefinition>, safety: nat)
    requires DrawsAvailable(allNotes, draws) && safety <= SafetyLimit
    requires TotalCost(notes) <= rule.maxCost
    ensures TotalCost(Grow(allNotes, draws, rule, notes, safety)) <= rule.maxCost
    decreases SafetyLimit - safety
  {
    var cost := TotalCost(notes);
    if cost < rule.maxCost && |notes| < MaxLootNotes && safety < SafetyLimit {
      var candidate := allNotes[draws[2 + safety]];
      if cost + candidate.complexityCost <= rule.maxCost {
        TotalCostPush(notes, candidate);
        GrowCostBound(allNotes, draws, rule, notes + [candidate], safety + 1);
      } else if cost < rule.minCost {
        GrowCostBound(allNotes, draws, rule, notes, safety + 1);
      }
    }
  }

  /**
   * A generated sequence starts with its two drawn notes, holds 2 to 4
   * catalogue notes, and stays within `maxCost` when the first two do.
   */
  lemma LootShape(allNotes: seq<NoteDefinition>, draws: seq<nat>, rule: TierRule, first: seq<NoteDefinition>)
    requires DrawsAvailable(allNotes, draws)
    requires |first| == 2 && first[0] in allNotes && first[1] in allNotes
    ensures var r := Grow(allNotes, draws, rule, first, 0);
      && 2 <= |r| <= MaxLootNotes && r[..2] == first
      && (forall i | 0 <= i < |r| :: r[i] in allNotes)
      && (TotalCost(first) <= rule.maxCost ==> TotalCost(r) <= rule.maxCost)
  {
    GrowShape(allNotes, draws, rule, first, 0);
    var r := Grow(allNotes, draws, rule, first, 0);
    forall i | 0 <= i < 2 ensures r[i] in allNotes {
      assert r[i] == r[..2][i] == first[i];
    }
    if TotalCost(first) <= rule.maxCost {
      GrowCostBound(allNotes, draws, rule, first, 0);
    }
  }

  /** One iteration of the extension loop, for a state in which the loop runs. */
  lemma GrowStep(allNotes: seq<NoteDefinition>, draws: seq<nat>, rule: TierRule,
                 notes: seq<NoteDefinition>, safety: nat)
    requires DrawsAvailable(allNotes, draws) && safety < SafetyLimit
    requires TotalCost(notes) < rule.maxCost && |notes| < MaxLootNotes
    ensures var candidate := allNotes[draws[2 + safety]];
      var cost := TotalCost(notes);
      Grow(allNotes, draws, rule, notes, safety) ==
        if cost + candidate.complexityCost <= rule.maxCost then Grow(allNotes, draws, rule, notes + [candidate], safety + 1)
        else if cost >= rule.minCost then notes
        else Grow(allNotes, draws, rule, notes, safety + 1)
  {
  }

  /**
   * Reaching `minCost` is not guaranteed: with only cost-1 notes and a
   * rule demanding exactly 10, generation returns four notes costing 4.
   */
  lemma MinCostNotGuaranteed(n: NoteDefinition, draws: seq<nat>)
    requires n.complexityCost == 1
    requires DrawsAvailable([n], draws)
    ensures var r := Grow([n], draws, TierRule("T", 1, 10, 10), [n, n], 0);
      r == [n, n, n, n] && TotalCost(r) == 4
  {
    var rule := TierRule("T", 1, 10, 10);
    assert TotalCost([n, n]) == 2 by { TotalCostPush([n], n); TotalCostPush([], n); }
    TotalCostPush([n, n], n);
    assert [n, n] + [n] == [n, n, n];
    TotalCostPush([n, n, n], n);
    assert [n, n, n] + [n] == [n, n, n, n];
  }

  /**
   * The two mandatory notes are drawn without a cost check, so the final
   * cost can exceed `maxCost` when they alone exceed it.
   */
  lemma MandatoryNotesMayExceedMax(n: NoteDefinition, draws: seq<nat>)
    requires n.complexityCost == 4
    requires DrawsAvailable([n], draws)
    ensures TotalCost(Grow([n], draws, TierRule("T", 1, 2, 3), [n, n], 0)) == 8 > 3
  {
    assert TotalCost([n, n]) == 8 by { TotalCostPush([n], n); TotalCostPush([], n); }
  }

  /** Draws one catalogue note, appends it and keeps the running cost equal to the total. */
  method AddRandomNote(allNotes: seq<NoteDefinition>, draw: nat, notes: seq<NoteDefinition>, cost: int)
    returns (notes': seq<NoteDefinition>, cost': int)
    requires draw < |allNotes|
    requires cost == TotalCost(notes)
    ensures notes' == notes + [allNotes[draw]]
    ensures cost' == TotalCost(notes')
  {
    var note := allNotes[draw];
    notes' := notes + [note];
    cost' := cost + note.complexityCost;
    TotalCostPush(notes, note);
  }

  /**
   * Builds a melody of `targetTier`: no melody when the tier's rule (or the
   * default rule) has `maxCost == 0`; otherwise two unconditional notes and
   * extension notes while they fit, at most 50 iterations, at most 4 notes.
   */
  method GenerateLoot(generator: ProceduralGenerator, targetTier: int, draws: seq<nat>)
    returns (melody: Option<Melody>)
    requires FindRule(generator.tierRules, targetTier).maxCost != 0 ==> DrawsAvailable(generator.allNotes, draws)
    ensures var rule := FindRule(generator.tierRules, targetTier);
      melody.None? <==> rule.maxCost == 0
    ensures melody.Some? ==>
      var rule := FindRule(generator.tierRules, targetTier);
      var first := [generator.allNotes[draws[0]], generator.allNotes[draws[1]]];
      && melody.value.tier == targetTier
      && melody.value.level == 1
      && 2 <= |melody.value.sequence| <= MaxLootNotes
      && melody.value.sequence[..2] == first
      && melody.value.sequence == Grow(generator.allNotes, draws, rule, first, 0)
      && (forall i | 0 <= i < |melody.value.sequence| :: melody.value.sequence[i] in generator.allNotes)
      && (TotalCost(first) <= rule.maxCost ==> TotalCost(melody.value.sequence) <= rule.maxCost)
  {
    var m := NewMelody(targetTier);
    var rule := FindRule(generator.tierRules, targetTier);
    if rule.maxCost == 0 {
      return None;
    }
    var allNotes := generator.allNotes;
    var notes := m.sequence;
    var currentCost := 0;
    notes, currentCost := AddRandomNote(allNotes, draws[0], notes, currentCost);
    notes, currentCost := AddRandomNote(allNotes, draws[1], notes, currentCost);
    ghost var first := notes;
    assert first == [allNotes[draws[0]], allNotes[draws[1]]];

    var safety := 0;
    while currentCost < rule.maxCost && |notes| < MaxLootNotes && safety < SafetyLimit
      invariant 0 <= safety <= SafetyLimit
      invariant currentCost == TotalCost(notes)
      invariant |notes| <= MaxLootNotes
      invariant Grow(allNotes, draws, rule, notes, safety) == Grow(allNotes, draws, rule, first, 0)
      decreases SafetyLimit - safety
    {
      GrowStep(allNotes, draws, rule, notes, safety);
      var candidate := allNotes[draws[2 + safety]];
      if currentCost + candidate.complexityCost <= rule.maxCost {
        TotalCostPush(notes, candidate);
        notes := notes + [candidate];
        currentCost := currentCost + candidate.complexityCost;
      } else if currentCost >= rule.minCost {
        break;
      }
      safety := safety + 1;
    }
    assert notes == Grow(allNotes, draws, rule, first, 0);
    LootShape(allNotes, draws, rule, first);
    melody := Some(m.(sequence := notes));
  }
}
