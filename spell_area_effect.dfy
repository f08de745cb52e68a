/**
 * The area spell (Assets/_Game/Scripts/Player/Area/SpellAreaEffect.cs): a
 * disc that grows from scale 0.1 to twice its radius over half a second and,
 * every tick, applies the spell once to each enemy and prince inside it.
 *
 * `hits` is what `Physics.OverlapSphere` returns for the current radius
 * `Radius()`. The `IDamageable` calls are returned as `Hit`s; the knockback
 * impulse and the pulse animation are not modelled.
 */
module Area {
  import opened Combat
  import opened Builder
  import Notes
  import Melodies

  /** The seconds the expansion takes. */
  const ExpansionTime: real := 0.5

  /** The disc's scale after `age` seconds: from 0.1 to `2 * maxRadius`. */
  function ExpansionScale(maxRadius: real, age: real): real
  {
    Lerp(0.1, maxRadius * 2.0, Clamp01(age / ExpansionTime))
  }

  /**
   * The disc starts at scale 0.1, reaches a radius of exactly `maxRadius` once
   * the expansion time is over, and in between grows with age.
   */
  lemma ExpansionReachesRadius(maxRadius: real, age: real)
    ensures age <= 0.0 ==> ExpansionScale(maxRadius, age) == 0.1
    ensures age >= ExpansionTime ==> ExpansionScale(maxRadius, age) * 0.5 == maxRadius
  {
  }

  /** The scale never decreases with age while the radius is at least 0.05. */
  lemma ExpansionGrows(maxRadius: real, a1: real, a2: real)
    requires maxRadius * 2.0 >= 0.1 && a1 <= a2
    ensures 0.1 <= ExpansionScale(maxRadius, a1) <= ExpansionScale(maxRadius, a2) <= maxRadius * 2.0
  {
    LerpMonotone(0.1, maxRadius * 2.0, a1 / ExpansionTime, a2 / ExpansionTime);
  }

  /** The area's call for an effect: a slow area ignores the power and slows by 30 % for 1.5 s. */
  function AreaCall(effect: SpellEffect, power: real): EffectCall
  {
    match effect
    case Damage => TakeDamage(power)
    case Heal => EffectCall.Heal(power)
    case Shield => AddShield(power)
    case Slow => ApplySlow(30.0, 1.5)
  }

  /** The calls of one tick over `hits`: one per enemy or prince that has a damageable. */
  function AreaCalls(p: SpellPayload, hits: seq<Collider>): (r: seq<Hit>)
    ensures |r| <= |hits|
    ensures forall k | 0 <= k < |r| :: r[k].call == AreaCall(p.effect, p.powerValue)
  {
    if hits == [] then []
    else
      var last := hits[|hits| - 1];
      var prev := AreaCalls(p, hits[..|hits| - 1]);
      if IsSpellTarget(last) && last.damageable then prev + [Hit(last.id, AreaCall(p.effect, p.powerValue))]
      else prev
  }

  /** How many colliders in `hits` are enemies or princes with a damageable. */
  function DamageableTargets(hits: seq<Collider>): nat
  {
    if hits == [] then 0
    else
      var last := hits[|hits| - 1];
      DamageableTargets(hits[..|hits| - 1]) + (if IsSpellTarget(last) && last.damageable then 1 else 0)
  }

  /**
   * A tick makes exactly one call per damageable enemy or prince in the disc,
   * in query order, each on such a collider, and every call carries the
   * payload's power unchanged (Damage, Heal, Shield) or is the fixed slow.
   */
  lemma {:induction false} AreaCallsTargets(p: SpellPayload, hits: seq<Collider>)
    ensures var calls := AreaCalls(p, hits);
      && |calls| == DamageableTargets(hits)
      && (forall k | 0 <= k < |calls| :: exists i | 0 <= i < |hits| ::
            IsSpellTarget(hits[i]) && hits[i].damageable && hits[i].id == calls[k].target)
      && (forall k | 0 <= k < |calls| :: calls[k].call == AreaCall(p.effect, p.powerValue))
  {
    if hits != [] {
      var init := hits[..|hits| - 1];
      AreaCallsTargets(p, init);
      var calls, prev := AreaCalls(p, hits), AreaCalls(p, init);
      forall k | 0 <= k < |calls|
        ensures exists i | 0 <= i < |hits| :: IsSpellTarget(hits[i]) && hits[i].damageable && hits[i].id == calls[k].target
      {
        if k < |prev| {
          var i :| 0 <= i < |init| && IsSpellTarget(init[i]) && init[i].damageable && init[i].id == prev[k].target;
          assert hits[i] == init[i];
        } else {
          assert calls[k].target == hits[|hits| - 1].id;
        }
      }
    }
  }

  /** Colliders that are not enemies or princes never change the calls of a tick. */
  lemma {:induction false} AreaCallsIgnoreOthers(p: SpellPayload, hits: seq<Collider>, other: Collider)
    requires !IsSpellTarget(other)
    ensures AreaCalls(p, hits + [other]) == AreaCalls(p, hits)
    ensures AreaCalls(p, [other] + hits) == AreaCalls(p, hits)
  {
    assert (hits + [other])[..|hits|] == hits;
    if hits != [] {
      var init := hits[..|hits| - 1];
      AreaCallsIgnoreOthers(p, init, other);
      assert ([other] + hits)[..|hits|] == [other] + init;
    }
  }

  /**
   * The area's tick rate is the designer's tick interval, read back as a rate:
   * every Green extension multiplies it by 0.7 and so makes the area tick more
   * slowly, not faster.
   */
  lemma GreenSlowsAreaTicks(config: BuilderConfig, m1: Melodies.Melody, m2: Melodies.Melody)
    requires |m1.sequence| >= 2 && |m2.sequence| >= 2
    requires m1.sequence[1].color == Notes.Blue && m2.sequence[1].color == Notes.Blue
    requires config.area.tickInterval > 0.0
    requires Notes.CountColor(ExtensionColors(m1), Notes.Green) < Notes.CountColor(ExtensionColors(m2), Notes.Green)
    ensures TickInterval(BuildSpell(config, m1).tickRate) < TickInterval(BuildSpell(config, m2).tickRate)
  {
    var g1 := Notes.CountColor(ExtensionColors(m1), Notes.Green);
    var g2 := Notes.CountColor(ExtensionColors(m2), Notes.Green);
    AreaTickRate(config, m1);
    AreaTickRate(config, m2);
    PowDecreasing(0.7, g1, g2);
    PowPositive(0.7, g2);
    ScaledIntervalOrder(config.area.tickInterval, Pow(0.7, g2), Pow(0.7, g1));
  }

  /** An area's tick rate is the settings' tick interval times 0.7 per Green extension. */
  lemma AreaTickRate(config: BuilderConfig, m: Melodies.Melody)
    requires |m.sequence| >= 2 && m.sequence[1].color == Notes.Blue
    ensures BuildSpell(config, m).tickRate
              == config.area.tickInterval * Pow(0.7, Notes.CountColor(ExtensionColors(m), Notes.Green))
  {
    BuildSpellFormAndEffect(config, m);
    BuildSpellGreen(config, m);
  }

  /** Scaling by a positive factor keeps a strict order of positive values. */
  lemma ScaledOrder(c: real, a: real, b: real)
    requires c > 0.0 && 0.0 < a < b
    ensures 0.0 < c * a < c * b
  {
    assert c * (b - a) > 0.0;
  }

  /** Scaling two rates by a positive factor keeps their intervals in reverse order. */
  lemma ScaledIntervalOrder(c: real, a: real, b: real)
    requires c > 0.0 && 0.0 < a < b
    ensures TickInterval(c * b) < TickInterval(c * a)
  {
    ScaledOrder(c, a, b);
    TickIntervalAntitone(c * a, c * b);
  }

  /** Powers of a positive base are positive. */
  lemma {:induction false} PowPositive(x: real, n: nat)
    requires x > 0.0
    ensures Pow(x, n) > 0.0
  {
    if n > 0 {
      PowPositive(x, n - 1);
      assert Pow(x, n) == x * Pow(x, n - 1);
    }
  }

  /** Powers of a base in (0, 1) strictly decrease. */
  lemma {:induction false} PowDecreasing(x: real, i: nat, j: nat)
    requires 0.0 < x < 1.0 && i < j
    ensures Pow(x, j) < Pow(x, i)
    decreases j
  {
    PowPositive(x, j - 1);
    assert Pow(x, j) == x * Pow(x, j - 1);
    assert x * Pow(x, j - 1) < Pow(x, j - 1) by {
      assert (1.0 - x) * Pow(x, j - 1) > 0.0;
    }
    if i < j - 1 {
      PowDecreasing(x, i, j - 1);
    }
  }

  /** A self buff never sets a tick rate, so it would tick only every 99 s. */
  lemma SelfBuffTicksEvery99Seconds(config: BuilderConfig, melody: Melodies.Melody)
    requires |melody.sequence| >= 2 && melody.sequence[1].color == Notes.Yellow
    ensures TickInterval(BuildSpell(config, melody).tickRate) == 99.0
  {
    BuildSpellFormAndEffect(config, melody);
    BuildSpellGreen(config, melody);
  }

  /** An area spell in the scene. */
  class SpellAreaEffect {
    var payload: SpellPayload
    var age: real
    var tickTimer: real
    var isInitialized: bool
    var maxRadius: real
    var scale: real

    /** The radius of the disc, half its scale. */
    function Radius(): real
      reads this
    {
      scale * 0.5
    }

    /** A freshly instantiated area, not yet initialised. */
    constructor ()
      ensures !isInitialized && age == 0.0 && tickTimer == 0.0
    {
      payload := DefaultPayload;
      age := 0.0;
      tickTimer := 0.0;
      isInitialized := false;
      maxRadius := 0.0;
      scale := 1.0;
    }

    /** Takes the payload: the target radius is its size, the disc starts at scale 0.1. */
    method Initialize(data: SpellPayload)
      modifies this
      ensures payload == data && maxRadius == data.sizeOrRange && scale == 0.1 && isInitialized
      ensures age == old(age) && tickTimer == old(tickTimer)
    {
      payload := data;
      maxRadius := data.sizeOrRange;
      scale := 0.1;
      isInitialized := true;
    }

    /**
     * One frame: age, expansion, then the tick. `hits` is the sphere query's
     * result for the radius after the expansion step.
     */
    method Update(dt: real, hits: seq<Collider>) returns (calls: seq<Hit>)
      modifies this
      ensures payload == old(payload) && maxRadius == old(maxRadius) && isInitialized == old(isInitialized)
      ensures !old(isInitialized) ==> calls == [] && age == old(age) && tickTimer == old(tickTimer)
                                      && scale == old(scale)
      ensures old(isInitialized) ==>
        && age == old(age) + dt
        && scale == ExpansionScale(maxRadius, age)
        && if old(tickTimer) + dt >= TickInterval(payload.tickRate) then
             tickTimer == 0.0 && calls == AreaCalls(payload, hits)
           else
             tickTimer == old(tickTimer) + dt && calls == []
    {
      calls := [];
      if !isInitialized {
        return;
      }
      age := age + dt;
      var progress := Clamp01(age / 0.5);
      scale := Lerp(0.1, maxRadius * 2.0, progress);

      tickTimer := tickTimer + dt;
      var interval := if payload.tickRate > 0.0 then 1.0 / payload.tickRate else 99.0;
      if tickTimer >= interval {
        calls := DoAreaTick(hits);
        tickTimer := 0.0;
      }
    }

    /** One tick over the colliders in the disc. */
    method DoAreaTick(hits: seq<Collider>) returns (calls: seq<Hit>)
      ensures calls == AreaCalls(payload, hits)
    {
      calls := [];
      var i := 0;
      while i < |hits|
        invariant 0 <= i <= |hits|
        invariant calls == AreaCalls(payload, hits[..i])
      {
        var hit := hits[i];
        assert hits[..i + 1][..i] == hits[..i];
        i := i + 1;
        var isTarget := hit.tag == Nemico || hit.tag == Principe;
        if !isTarget {
          continue;
        }
        if hit.damageable {
          calls := calls + [Hit(hit.id, AreaCall(payload.effect, payload.powerValue))];
        }
      }
      assert hits[..|hits|] == hits;
    }
  }
}
