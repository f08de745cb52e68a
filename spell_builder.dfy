/**
 * Spell construction (Assets/_Game/Scripts/MelodySystem/SpellBuilder.cs).
 *
 * `BuildSpell` maps a melody to a fresh payload: note 1 picks the delivery
 * form and its base stats, the level scales the power linearly, note 0 picks
 * the effect, and every note from index 2 on is an extension applied in
 * order. The extension loop is a left fold over the extension colours that
 * carries the running Yellow count.
 */
module Builder {
  import opened Notes
  import opened Melodies

  datatype SpellEffect = Damage | Heal | Slow | Shield
  datatype SpellForm = Projectile | AreaAoE | LinearBeam | SelfBuff

  /** The four unit vectors the builder ever puts in `fireDirections`. */
  datatype Direction = Forward | Back | Right | Left

  /** The constructed name: the broken-melody label, or effect, form and level. */
  datatype SpellName = Broken | Named(effect: SpellEffect, delivery: SpellForm, level: int)

  datatype ProjectileSettings = ProjectileSettings(baseDamage: real, speed: real, size: real)
  datatype AreaSettings = AreaSettings(valuePerTick: real, radius: real, duration: real, tickInterval: real)
  datatype BeamSettings = BeamSettings(startDps: real, maxLength: real, duration: real, rampUpSpeed: real)
  datatype BuffSettings = BuffSettings(statValue: real, duration: real, lootChance: real)

  /** The designer's archetype settings and the per-level power step. */
  datatype BuilderConfig = BuilderConfig(
    projectile: ProjectileSettings,
    area: AreaSettings,
    beam: BeamSettings,
    buff: BuffSettings,
    powerPerLevel: real)

  /** The field initialisers of the settings classes. */
  const DefaultConfig := BuilderConfig(
    ProjectileSettings(15.0, 20.0, 0.5),
    AreaSettings(5.0, 4.0, 5.0, 1.0),
    BeamSettings(8.0, 10.0, 3.5, 1.5),
    BuffSettings(20.0, 10.0, 0.2),
    0.25)

  /**
   * The payload. `damageDecay` and `knockback` are read by the beam and the
   * area but never declared or written by the builder; they are carried here
   * as extra fields that the builder leaves at 0.
   */
  datatype SpellPayload = SpellPayload(
    name: SpellName,
    effect: SpellEffect,
    delivery: SpellForm,
    powerValue: real,
    sizeOrRange: real,
    duration: real,
    moveSpeed: real,
    burstCount: int,
    penetration: int,
    tickRate: real,
    lootLuckChance: real,
    fireDirections: seq<Direction>,
    damageDecay: real,
    knockback: real)

  /** `new SpellPayload()` followed by the three defaults the builder sets first. */
  const DefaultPayload := SpellPayload(Broken, Damage, Projectile, 0.0, 0.0, 0.0, 0.0, 1, 0, 0.0, 0.0, [Forward], 0.0, 0.0)

  /** `x` to the power `n`. */
  function Pow(x: real, n: nat): real
  {
    if n == 0 then 1.0 else x * Pow(x, n - 1)
  }

  /** The delivery form chosen by the second note's colour. */
  function FormOf(c: NoteColor): SpellForm
  {
    match c
    case Green => Projectile
    case Blue => AreaAoE
    case Red => LinearBeam
    case Yellow => SelfBuff
  }

  /** The effect chosen by the first note's colour. */
  function EffectOf(c: NoteColor): SpellEffect
  {
    match c
    case Green => Heal
    case Blue => Slow
    case Red => Damage
    case Yellow => Shield
  }

  /** The base stats of the form chosen by `formColor`, written over the defaults. */
  function BaseStats(config: BuilderConfig, formColor: NoteColor): (p: SpellPayload)
    ensures p.delivery == FormOf(formColor)
    ensures p.effect == Damage && p.burstCount == 1 && p.penetration == 0
    ensures p.fireDirections == [Forward] && p.damageDecay == 0.0 && p.knockback == 0.0
  {
    var d := DefaultPayload;
    match formColor
    case Green =>
      d.(delivery := Projectile, powerValue := config.projectile.baseDamage,
         sizeOrRange := config.projectile.size, duration := 3.0,
         moveSpeed := config.projectile.speed)
    case Blue =>
      d.(delivery := AreaAoE, powerValue := config.area.valuePerTick,
         sizeOrRange := config.area.radius, duration := config.area.duration,
         tickRate := config.area.tickInterval)
    case Red =>
      d.(delivery := LinearBeam, powerValue := config.beam.startDps,
         sizeOrRange := config.beam.maxLength, duration := config.beam.duration,
         tickRate := config.beam.rampUpSpeed)
    case Yellow =>
      d.(delivery := SelfBuff, powerValue := config.buff.statValue,
         duration := config.buff.duration, lootLuckChance := config.buff.lootChance)
  }

  /** The multiplier `1 + (level - 1) * powerPerLevel`. */
  function LevelMultiplier(config: BuilderConfig, level: int): real
  {
    1.0 + (level - 1) as real * config.powerPerLevel
  }

  /** A Red, Blue or Green extension. A Yellow note is not handled here and changes nothing. */
  function ApplyExtension(c: NoteColor, p: SpellPayload): (q: SpellPayload)
    ensures q.delivery == p.delivery && q.effect == p.effect
    ensures c == Yellow ==> q == p
  {
    match c
    case Red =>
      p.(penetration := if p.delivery == Projectile then p.penetration + 1 else p.penetration,
         powerValue := p.powerValue * 1.5)
    case Blue =>
      p.(sizeOrRange := p.sizeOrRange * 1.4, duration := p.duration + 2.0)
    case Green =>
      if p.delivery == Projectile then p.(burstCount := p.burstCount + 1)
      else if p.delivery == AreaAoE then p.(tickRate := p.tickRate * 0.7)
      else p.(moveSpeed := p.moveSpeed * 1.2)
    case Yellow => p
  }

  /** The `count`-th Yellow extension. */
  function ApplyYellowLogic(count: int, p: SpellPayload): (q: SpellPayload)
    ensures q.delivery == p.delivery && q.effect == p.effect && q.powerValue == p.powerValue
    ensures p.delivery != SelfBuff ==> q.lootLuckChance == p.lootLuckChance
  {
    if p.delivery == SelfBuff then p.(lootLuckChance := p.lootLuckChance + 0.2)
    else if count == 1 then p.(fireDirections := p.fireDirections + [Back])
    else if count >= 2 && Right !in p.fireDirections then
      p.(fireDirections := p.fireDirections + [Right, Left])
    else p
  }

  /** The extension loop over `colors`, `yellowCount` Yellow notes having been seen before. */
  function Extend(p: SpellPayload, colors: seq<NoteColor>, yellowCount: int): (q: SpellPayload)
    ensures q.delivery == p.delivery && q.effect == p.effect
    decreases |colors|
  {
    if colors == [] then p
    else if colors[0] == Yellow then
      Extend(ApplyYellowLogic(yellowCount + 1, p), colors[1..], yellowCount + 1)
    else
      Extend(ApplyExtension(colors[0], p), colors[1..], yellowCount)
  }

  /** The colours of the extension notes (index 2 on). */
  function ExtensionColors(m: Melody): seq<NoteColor>
    requires |m.sequence| >= 2
  {
    ColorsOf(m.sequence[2..])
  }

  /** The payload before the extensions: base stats of note 1, power scaled by level, effect of note 0. */
  function Scaled(config: BuilderConfig, melody: Melody): (p: SpellPayload)
    requires |melody.sequence| >= 2
    ensures p.delivery == FormOf(melody.sequence[1].color) && p.effect == EffectOf(melody.sequence[0].color)
  {
    var base := BaseStats(config, melody.sequence[1].color);
    base.(powerValue := base.powerValue * LevelMultiplier(config, melody.level),
          effect := EffectOf(melody.sequence[0].color))
  }

  /** The payload of `melody`. */
  function BuildSpell(config: BuilderConfig, melody: Melody): (r: SpellPayload)
    ensures |melody.sequence| < 2 ==> r == DefaultPayload
    ensures |melody.sequence| >= 2 ==>
      r.delivery == FormOf(melody.sequence[1].color) && r.effect == EffectOf(melody.sequence[0].color)
  {
    if |melody.sequence| < 2 then DefaultPayload
    else
      var p := Extend(Scaled(config, melody), ExtensionColors(melody), 0);
      p.(name := Named(p.effect, p.delivery, melody.level))
  }

  /** The direction list after `n` Yellow extensions of a non-buff spell. */
  function DirectionsAfter(n: nat): seq<Direction>
  {
    if n == 0 then [Forward] else if n == 1 then [Forward, Back] else [Forward, Back, Right, Left]
  }

  /** The direction list of a non-buff spell is fixed by how many Yellow notes were seen. */
  ghost predicate DirectionsConsistent(p: SpellPayload, yellowCount: nat)
  {
    p.delivery != SelfBuff ==> p.fireDirections == DirectionsAfter(yellowCount)
  }

  /** Extensions never change the form, the effect, the name or the two fields the builder does not write. */
  lemma {:induction false} ExtendKeepsKind(p: SpellPayload, colors: seq<NoteColor>, yellowCount: int)
    ensures var q := Extend(p, colors, yellowCount);
      q.delivery == p.delivery && q.effect == p.effect && q.name == p.name
      && q.damageDecay == p.damageDecay && q.knockback == p.knockback
    decreases |colors|
  {
    if colors != [] {
      if colors[0] == Yellow {
        ExtendKeepsKind(ApplyYellowLogic(yellowCount + 1, p), colors[1..], yellowCount + 1);
      } else {
        ExtendKeepsKind(ApplyExtension(colors[0], p), colors[1..], yellowCount);
      }
    }
  }

  /** Each Red extension multiplies power by 1.5 and, on a projectile, adds one pierce. */
  lemma {:induction false} ExtendRed(p: SpellPayload, colors: seq<NoteColor>, yellowCount: int)
    ensures var q := Extend(p, colors, yellowCount);
      var r := CountColor(colors, Red);
      q.powerValue == p.powerValue * Pow(1.5, r)
      && q.penetration == (if p.delivery == Projectile then p.penetration + r else p.penetration)
    decreases |colors|
  {
    if colors != [] {
      var rest := colors[1..];
      var q := if colors[0] == Yellow then ApplyYellowLogic(yellowCount + 1, p) else ApplyExtension(colors[0], p);
      ExtendRed(q, rest, if colors[0] == Yellow then yellowCount + 1 else yellowCount);
      if colors[0] == Red {
        calc {
          q.powerValue * Pow(1.5, CountColor(rest, Red));
          p.powerValue * (1.5 * Pow(1.5, CountColor(rest, Red)));
        }
      }
    }
  }

  /** Each Blue extension multiplies size by 1.4 and adds 2 to the duration, whatever the form. */
  lemma {:induction false} ExtendBlue(p: SpellPayload, colors: seq<NoteColor>, yellowCount: int)
    ensures var q := Extend(p, colors, yellowCount);
      var b := CountColor(colors, Blue);
      q.sizeOrRange == p.sizeOrRange * Pow(1.4, b) && q.duration == p.duration + 2.0 * b as real
    decreases |colors|
  {
    if colors != [] {
      var rest := colors[1..];
      var q := if colors[0] == Yellow then ApplyYellowLogic(yellowCount + 1, p) else ApplyExtension(colors[0], p);
      ExtendBlue(q, rest, if colors[0] == Yellow then yellowCount + 1 else yellowCount);
      if colors[0] == Blue {
        calc {
          q.sizeOrRange * Pow(1.4, CountColor(rest, Blue));
          p.sizeOrRange * (1.4 * Pow(1.4, CountColor(rest, Blue)));
        }
      }
    }
  }

  /**
   * Each Green extension adds one burst shot to a projectile, multiplies an
   * area's tick rate by 0.7, and otherwise multiplies the move speed by 1.2.
   */
  lemma {:induction false} ExtendGreen(p: SpellPayload, colors: seq<NoteColor>, yellowCount: int)
    ensures var q := Extend(p, colors, yellowCount);
      var g := CountColor(colors, Green);
      && q.burstCount == (if p.delivery == Projectile then p.burstCount + g else p.burstCount)
      && q.tickRate == (if p.delivery == AreaAoE then p.tickRate * Pow(0.7, g) else p.tickRate)
      && q.moveSpeed == (if p.delivery == LinearBeam || p.delivery == SelfBuff
                         then p.moveSpeed * Pow(1.2, g) else p.moveSpeed)
    decreases |colors|
  {
    if colors != [] {
      var rest := colors[1..];
      var y := if colors[0] == Yellow then yellowCount + 1 else yellowCount;
      var q := if colors[0] == Yellow then ApplyYellowLogic(y, p) else ApplyExtension(colors[0], p);
      GreenStep(colors[0], p, yellowCount);
      ExtendGreen(q, rest, y);
      assert Extend(p, colors, yellowCount) == Extend(q, rest, y);
      var g := CountColor(rest, Green);
      assert CountColor(colors, Green) == g + (if colors[0] == Green then 1 else 0);
      if colors[0] == Green && p.delivery == AreaAoE {
        calc {
          q.tickRate * Pow(0.7, g);
          p.tickRate * (0.7 * Pow(0.7, g));
        }
      } else if colors[0] == Green && p.delivery != Projectile {
        calc {
          q.moveSpeed * Pow(1.2, g);
          p.moveSpeed * (1.2 * Pow(1.2, g));
        }
      }
    }
  }

  /** One extension step changes the three Green-scaled fields only for a Green note, by form. */
  lemma GreenStep(c: NoteColor, p: SpellPayload, yellowCount: int)
    ensures var q := if c == Yellow then ApplyYellowLogic(yellowCount + 1, p) else ApplyExtension(c, p);
      var green := c == Green;
      && q.delivery == p.delivery
      && q.burstCount == (if green && p.delivery == Projectile then p.burstCount + 1 else p.burstCount)
      && q.tickRate == (if green && p.delivery == AreaAoE then p.tickRate * 0.7 else p.tickRate)
      && q.moveSpeed == (if green && (p.delivery == LinearBeam || p.delivery == SelfBuff)
                         then p.moveSpeed * 1.2 else p.moveSpeed)
  {
  }

  /**
   * Each Yellow extension adds 0.2 loot luck to a buff; on any other form
   * the direction list follows the running Yellow count.
   */
  lemma {:induction false} ExtendYellow(p: SpellPayload, colors: seq<NoteColor>, yellowCount: nat)
    requires DirectionsConsistent(p, yellowCount)
    ensures var q := Extend(p, colors, yellowCount);
      var y := CountColor(colors, Yellow);
      && q.lootLuckChance == (if p.delivery == SelfBuff then p.lootLuckChance + 0.2 * y as real else p.lootLuckChance)
      && q.fireDirections == (if p.delivery == SelfBuff then p.fireDirections else DirectionsAfter(yellowCount + y))
    decreases |colors|
  {
    if colors != [] {
      var rest := colors[1..];
      if colors[0] == Yellow {
        var q := ApplyYellowLogic(yellowCount + 1, p);
        assert DirectionsConsistent(q, yellowCount + 1);
        ExtendYellow(q, rest, yellowCount + 1);
      } else {
        ExtendYellow(ApplyExtension(colors[0], p), rest, yellowCount);
      }
    }
  }

  /** A melody with fewer than two notes is broken: default payload, single forward direction, no power. */
  lemma BuildSpellBroken(config: BuilderConfig, melody: Melody)
    requires |melody.sequence| < 2
    ensures var p := BuildSpell(config, melody);
      p.name == Broken && p.fireDirections == [Forward] && p.burstCount == 1
      && p.penetration == 0 && p.powerValue == 0.0
  {
  }

  /** Note 1 fixes the delivery and its base stats; note 0 fixes the effect; the name records both and the level. */
  lemma BuildSpellFormAndEffect(config: BuilderConfig, melody: Melody)
    requires |melody.sequence| >= 2
    ensures var p := BuildSpell(config, melody);
      var form := melody.sequence[1].color;
      && p.delivery == FormOf(form)
      && p.effect == EffectOf(melody.sequence[0].color)
      && p.name == Named(p.effect, p.delivery, melody.level)
      && p.damageDecay == 0.0 && p.knockback == 0.0
  {
    ExtendKeepsKind(Scaled(config, melody), ExtensionColors(melody), 0);
  }

  /** The base power of the form chosen by `formColor`. */
  function BasePower(config: BuilderConfig, formColor: NoteColor): real
  {
    match formColor
    case Green => config.projectile.baseDamage
    case Blue => config.area.valuePerTick
    case Red => config.beam.startDps
    case Yellow => config.buff.statValue
  }

  /**
   * Power is base × level multiplier × 1.5 per Red extension. Pierce counts
   * the Red extensions on a projectile and is 0 otherwise.
   */
  lemma BuildSpellRed(config: BuilderConfig, melody: Melody)
    requires |melody.sequence| >= 2
    ensures var p := BuildSpell(config, melody);
      var r := CountColor(ExtensionColors(melody), Red);
      && p.powerValue == BasePower(config, melody.sequence[1].color) * LevelMultiplier(config, melody.level) * Pow(1.5, r)
      && p.penetration == (if p.delivery == Projectile then r else 0)
  {
    ExtendKeepsKind(Scaled(config, melody), ExtensionColors(melody), 0);
    ExtendRed(Scaled(config, melody), ExtensionColors(melody), 0);
  }

  /** Each Blue extension multiplies the base size by 1.4 and adds 2 seconds to the base duration. */
  lemma BuildSpellBlue(config: BuilderConfig, melody: Melody)
    requires |melody.sequence| >= 2
    ensures var p := BuildSpell(config, melody);
      var base := BaseStats(config, melody.sequence[1].color);
      var b := CountColor(ExtensionColors(melody), Blue);
      p.sizeOrRange == base.sizeOrRange * Pow(1.4, b) && p.duration == base.duration + 2.0 * b as real
  {
    ExtendBlue(Scaled(config, melody), ExtensionColors(melody), 0);
  }

  /**
   * Burst is 1 plus the Green extensions on a projectile and 1 otherwise; on
   * an area each Green multiplies the stored tick rate (the designer's tick
   * interval) by 0.7; a beam keeps the beam ramp-up speed as its tick rate,
   * a projectile and a buff keep 0.
   */
  lemma BuildSpellGreen(config: BuilderConfig, melody: Melody)
    requires |melody.sequence| >= 2
    ensures var p := BuildSpell(config, melody);
      var g := CountColor(ExtensionColors(melody), Green);
      && p.burstCount == 1 + (if p.delivery == Projectile then g else 0)
      && (p.delivery == AreaAoE ==> p.tickRate == config.area.tickInterval * Pow(0.7, g))
      && (p.delivery == LinearBeam ==> p.tickRate == config.beam.rampUpSpeed && p.moveSpeed == 0.0)
      && (p.delivery == Projectile ==> p.tickRate == 0.0 && p.moveSpeed == config.projectile.speed)
      && (p.delivery == SelfBuff ==> p.tickRate == 0.0 && p.moveSpeed == 0.0)
  {
    ExtendKeepsKind(Scaled(config, melody), ExtensionColors(melody), 0);
    ExtendGreen(Scaled(config, melody), ExtensionColors(melody), 0);
  }

  /**
   * Yellow extensions: a buff gains 0.2 loot luck each and keeps [forward];
   * any other form goes forward, then back, then right and left once, with
   * no direction listed twice.
   */
  lemma BuildSpellYellow(config: BuilderConfig, melody: Melody)
    requires |melody.sequence| >= 2
    ensures var p := BuildSpell(config, melody);
      var y := CountColor(ExtensionColors(melody), Yellow);
      && (p.delivery == SelfBuff ==>
            p.lootLuckChance == config.buff.lootChance + 0.2 * y as real && p.fireDirections == [Forward])
      && (p.delivery != SelfBuff ==> p.fireDirections == DirectionsAfter(y) && p.lootLuckChance == 0.0)
      && p.fireDirections[0] == Forward
      && forall i, j | 0 <= i < j < |p.fireDirections| :: p.fireDirections[i] != p.fireDirections[j]
  {
    ExtendKeepsKind(Scaled(config, melody), ExtensionColors(melody), 0);
    ExtendYellow(Scaled(config, melody), ExtensionColors(melody), 0);
  }

  /**
   * Only the first two colours, the level and how many extensions of each
   * colour there are matter: reordering the extensions gives the same payload.
   */
  lemma BuildSpellOrderIndependent(config: BuilderConfig, m1: Melody, m2: Melody)
    requires |m1.sequence| >= 2 && |m2.sequence| >= 2
    requires m1.level == m2.level
    requires m1.sequence[0].color == m2.sequence[0].color && m1.sequence[1].color == m2.sequence[1].color
    requires forall c: NoteColor :: CountColor(ExtensionColors(m1), c) == CountColor(ExtensionColors(m2), c)
    ensures BuildSpell(config, m1) == BuildSpell(config, m2)
  {
    var s := Scaled(config, m1);
    assert s == Scaled(config, m2);
    var e1, e2 := ExtensionColors(m1), ExtensionColors(m2);
    assert CountColor(e1, Red) == CountColor(e2, Red);
    assert CountColor(e1, Blue) == CountColor(e2, Blue);
    assert CountColor(e1, Green) == CountColor(e2, Green);
    assert CountColor(e1, Yellow) == CountColor(e2, Yellow);
    ExtendOrderIndependent(s, e1, e2);
  }

  /** Two extension lists with the same number of notes of each colour extend a payload alike. */
  lemma ExtendOrderIndependent(s: SpellPayload, e1: seq<NoteColor>, e2: seq<NoteColor>)
    requires DirectionsConsistent(s, 0)
    requires CountColor(e1, Red) == CountColor(e2, Red) && CountColor(e1, Blue) == CountColor(e2, Blue)
    requires CountColor(e1, Green) == CountColor(e2, Green) && CountColor(e1, Yellow) == CountColor(e2, Yellow)
    ensures Extend(s, e1, 0) == Extend(s, e2, 0)
  {
    SameRedBlueFields(s, e1, e2);
    SameGreenYellowFields(s, e1, e2);
    ExtendKeepsKind(s, e1, 0);
    ExtendKeepsKind(s, e2, 0);
  }

  /** Equal Red and Blue counts give equal power, pierce, size and duration. */
  lemma SameRedBlueFields(s: SpellPayload, e1: seq<NoteColor>, e2: seq<NoteColor>)
    requires CountColor(e1, Red) == CountColor(e2, Red) && CountColor(e1, Blue) == CountColor(e2, Blue)
    ensures var q1, q2 := Extend(s, e1, 0), Extend(s, e2, 0);
      q1.powerValue == q2.powerValue && q1.penetration == q2.penetration
      && q1.sizeOrRange == q2.sizeOrRange && q1.duration == q2.duration
  {
    SameRedFields(s, e1, e2);
    SameBlueFields(s, e1, e2);
  }

  /** Equal Red counts give equal power and pierce. */
  lemma SameRedFields(s: SpellPayload, e1: seq<NoteColor>, e2: seq<NoteColor>)
    requires CountColor(e1, Red) == CountColor(e2, Red)
    ensures var q1, q2 := Extend(s, e1, 0), Extend(s, e2, 0);
      q1.powerValue == q2.powerValue && q1.penetration == q2.penetration
  {
    ExtendRed(s, e1, 0); ExtendRed(s, e2, 0);
  }

  /** Equal Blue counts give equal size and duration. */
  lemma SameBlueFields(s: SpellPayload, e1: seq<NoteColor>, e2: seq<NoteColor>)
    requires CountColor(e1, Blue) == CountColor(e2, Blue)
    ensures var q1, q2 := Extend(s, e1, 0), Extend(s, e2, 0);
      q1.sizeOrRange == q2.sizeOrRange && q1.duration == q2.duration
  {
    ExtendBlue(s, e1, 0); ExtendBlue(s, e2, 0);
  }

  /** Equal Green and Yellow counts give equal burst, tick rate, speed, luck and directions. */
  lemma SameGreenYellowFields(s: SpellPayload, e1: seq<NoteColor>, e2: seq<NoteColor>)
    requires DirectionsConsistent(s, 0)
    requires CountColor(e1, Green) == CountColor(e2, Green) && CountColor(e1, Yellow) == CountColor(e2, Yellow)
    ensures var q1, q2 := Extend(s, e1, 0), Extend(s, e2, 0);
      q1.burstCount == q2.burstCount && q1.tickRate == q2.tickRate && q1.moveSpeed == q2.moveSpeed
      && q1.lootLuckChance == q2.lootLuckChance && q1.fireDirections == q2.fireDirections
  {
    SameGreenFields(s, e1, e2);
    SameYellowFields(s, e1, e2);
  }

  /** Equal Green counts give equal burst, tick rate and speed. */
  lemma SameGreenFields(s: SpellPayload, e1: seq<NoteColor>, e2: seq<NoteColor>)
    requires CountColor(e1, Green) == CountColor(e2, Green)
    ensures var q1, q2 := Extend(s, e1, 0), Extend(s, e2, 0);
      q1.burstCount == q2.burstCount && q1.tickRate == q2.tickRate && q1.moveSpeed == q2.moveSpeed
  {
    var q1, q2 := Extend(s, e1, 0), Extend(s, e2, 0);
    assert q1.burstCount == q2.burstCount by { ExtendGreen(s, e1, 0); ExtendGreen(s, e2, 0); }
    assert q1.tickRate == q2.tickRate by { ExtendGreen(s, e1, 0); ExtendGreen(s, e2, 0); }
    assert q1.moveSpeed == q2.moveSpeed by { ExtendGreen(s, e1, 0); ExtendGreen(s, e2, 0); }
  }

  /** Equal Yellow counts give equal luck and directions. */
  lemma SameYellowFields(s: SpellPayload, e1: seq<NoteColor>, e2: seq<NoteColor>)
    requires DirectionsConsistent(s, 0)
    requires CountColor(e1, Yellow) == CountColor(e2, Yellow)
    ensures var q1, q2 := Extend(s, e1, 0), Extend(s, e2, 0);
      q1.lootLuckChance == q2.lootLuckChance && q1.fireDirections == q2.fireDirections
  {
    ExtendYellow(s, e1, 0); ExtendYellow(s, e2, 0);
  }

}
