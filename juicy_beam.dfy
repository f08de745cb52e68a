/**
 * The channelled beam (Assets/_Game/Scripts/Player/Beam/JuicyBeam.cs).
 *
 * Every frame the beam is clipped at the nearest wall on its ray, and every
 * tick it hits the enemies and princes in its box: each target's count of
 * consecutive ticks grows the damage quadratically, targets further down the
 * line (in distance order) get a decaying share, and a target missed in a
 * tick loses its count.
 *
 * The physics queries are inputs: `rayHits` is what `Physics.RaycastAll`
 * returns, `boxHits` what `Physics.OverlapBox` returns, already in the
 * ascending distance order the sort puts them in. The `IDamageable` calls
 * are returned as `Hit`s. Visuals and the owner's channelling flag are not
 * modelled.
 */
module Beam {
  import opened Combat
  import opened Builder
  import Notes
  import Melodies

  /** A ray hit that stops the beam: a solid collider that is not an enemy, the player or a prince. */
  predicate IsWall(c: Collider)
  {
    !c.isTrigger && c.tag != Nemico && c.tag != Player && c.tag != Principe
  }

  /** The nearest wall distance below `bound` among `hits`, or `bound` when there is none. */
  function NearestWall(hits: seq<Collider>, bound: real): (d: real)
    ensures d <= bound
    ensures forall i | 0 <= i < |hits| && IsWall(hits[i]) :: d <= hits[i].distance || bound <= hits[i].distance
    ensures d == bound || exists i | 0 <= i < |hits| :: IsWall(hits[i]) && d == hits[i].distance
  {
    if hits == [] then bound
    else
      var init := hits[..|hits| - 1];
      var last := hits[|hits| - 1];
      var m := NearestWall(init, bound);
      assert forall i | 0 <= i < |init| :: init[i] == hits[i];
      if IsWall(last) && last.distance < m then last.distance else m
  }

  /** The beam's length: its range, or the nearest wall's distance plus the visual penetration. */
  function BeamLength(range: real, visualPenetration: real, rayHits: seq<Collider>): real
  {
    var d := NearestWall(rayHits, range);
    if d < range then d + visualPenetration else range
  }

  /** The length is the full range when no wall is nearer, and is cut at the nearest wall otherwise. */
  lemma BeamLengthClipping(range: real, visualPenetration: real, rayHits: seq<Collider>)
    ensures (forall i | 0 <= i < |rayHits| && IsWall(rayHits[i]) :: rayHits[i].distance >= range) ==>
              BeamLength(range, visualPenetration, rayHits) == range
    ensures forall i | 0 <= i < |rayHits| && IsWall(rayHits[i]) && rayHits[i].distance < range ::
              BeamLength(range, visualPenetration, rayHits) <= rayHits[i].distance + visualPenetration
    ensures BeamLength(range, visualPenetration, rayHits) == range ||
              exists i | 0 <= i < |rayHits| :: IsWall(rayHits[i]) && rayHits[i].distance < range
                && BeamLength(range, visualPenetration, rayHits) == rayHits[i].distance + visualPenetration
  {
  }

  /** How many enemy or prince hits `hits` holds: the running `hitCount`. */
  function TargetsIn(hits: seq<Collider>): nat
  {
    if hits == [] then 0
    else TargetsIn(hits[..|hits| - 1]) + (if IsSpellTarget(hits[|hits| - 1]) then 1 else 0)
  }

  /** How many of the target hits in `hits` are of object `id`. */
  function Occurrences(hits: seq<Collider>, id: nat): nat
  {
    if hits == [] then 0
    else
      var last := hits[|hits| - 1];
      Occurrences(hits[..|hits| - 1], id) + (if IsSpellTarget(last) && last.id == id then 1 else 0)
  }

  /** The objects hit as targets in a tick: `currentHitIds`. */
  function TargetIds(hits: seq<Collider>): set<nat>
  {
    set i | 0 <= i < |hits| && IsSpellTarget(hits[i]) :: hits[i].id
  }

  /** The consecutive-hit counts after the tick's loop, before the reset: one more per target hit. */
  function TickCounts(counts: map<nat, nat>, hits: seq<Collider>): map<nat, nat>
  {
    if hits == [] then counts
    else
      var m := TickCounts(counts, hits[..|hits| - 1]);
      var last := hits[|hits| - 1];
      if IsSpellTarget(last) then m[last.id := (if last.id in m then m[last.id] else 0) + 1] else m
  }

  /** The counts of the objects in `keep` only. */
  function Restrict(counts: map<nat, nat>, keep: set<nat>): map<nat, nat>
  {
    map id | id in counts && id in keep :: counts[id]
  }

  /** Dropping one id that is not kept from a restriction narrows its kept set by that id. */
  lemma RestrictDropOne(counts: map<nat, nat>, keep: set<nat>, extra: set<nat>, id: nat)
    requires id in extra && id !in keep
    ensures Restrict(counts, keep + extra) - {id} == Restrict(counts, keep + (extra - {id}))
  {
    assert keep + extra == (keep + (extra - {id})) + {id};
  }

  /** The damage growth for a target hit for `count` consecutive ticks. */
  function RampMultiplier(count: nat, interval: real, rampUpSpeed: real): real
  {
    var timeOnTarget := count as real * interval;
    1.0 + timeOnTarget * timeOnTarget * rampUpSpeed
  }

  /** The share of the `rank`-th target in distance order (the first has rank 1). */
  function DistanceDecay(rank: nat, damageDecay: real): real
  {
    Clamp01(1.0 - (rank as real - 1.0) * damageDecay)
  }

  /** The beam's call for an effect: a slow beam ignores the power and always slows by 10 % for 0.2 s. */
  function BeamCall(effect: SpellEffect, power: real): EffectCall
  {
    match effect
    case Damage => TakeDamage(power)
    case Heal => EffectCall.Heal(power)
    case Shield => AddShield(power)
    case Slow => ApplySlow(10.0, 0.2)
  }

  /**
   * The power of a hit on object `id` after the hits `pre` of the same tick:
   * the payload's power, times the share of its rank in distance order,
   * times the ramp for its count of consecutive ticks including this one.
   */
  function HitPower(p: SpellPayload, rampUpSpeed: real, interval: real, counts: map<nat, nat>,
                    pre: seq<Collider>, id: nat): real
  {
    var m := TickCounts(counts, pre);
    var count := (if id in m then m[id] else 0) + 1;
    p.powerValue * DistanceDecay(TargetsIn(pre) + 1, p.damageDecay) * RampMultiplier(count, interval, rampUpSpeed)
  }

  /** The calls one tick makes over `hits`, starting from the counts `counts`. */
  function TickHits(p: SpellPayload, rampUpSpeed: real, interval: real, counts: map<nat, nat>,
                    hits: seq<Collider>): (r: seq<Hit>)
    ensures |r| <= TargetsIn(hits)
  {
    if hits == [] then []
    else
      var init := hits[..|hits| - 1];
      var last := hits[|hits| - 1];
      var prev := TickHits(p, rampUpSpeed, interval, counts, init);
      if IsSpellTarget(last) && last.damageable then
        prev + [Hit(last.id, BeamCall(p.effect, HitPower(p, rampUpSpeed, interval, counts, init, last.id)))]
      else prev
  }

  /**
   * The counts after the loop: an object hit as a target in the tick has its
   * old count (0 if it had none) plus one per hit; every other object keeps its count.
   */
  lemma {:induction false} TickCountsValues(counts: map<nat, nat>, hits: seq<Collider>)
    ensures forall id :: id in TickCounts(counts, hits) <==> id in counts || id in TargetIds(hits)
    ensures forall id | id in TickCounts(counts, hits) ::
              TickCounts(counts, hits)[id] == (if id in counts then counts[id] else 0) + Occurrences(hits, id)
  {
    if hits != [] {
      var init := hits[..|hits| - 1];
      var last := hits[|hits| - 1];
      TickCountsValues(counts, init);
      assert forall i | 0 <= i < |init| :: init[i] == hits[i];
      assert TargetIds(hits) == TargetIds(init) + (if IsSpellTarget(last) then {last.id} else {});
      forall id | id in TickCounts(counts, hits)
        ensures TickCounts(counts, hits)[id] == (if id in counts then counts[id] else 0) + Occurrences(hits, id)
      {
        if !(IsSpellTarget(last) && id == last.id) {
          assert id in TickCounts(counts, init);
        } else if id !in TickCounts(counts, init) {
          OccurrencesOfMissed(init, id);
        }
      }
    }
  }

  /** No object is hit as a target without being counted. */
  lemma {:induction false} OccurrencesOfMissed(hits: seq<Collider>, id: nat)
    requires id !in TargetIds(hits)
    ensures Occurrences(hits, id) == 0
  {
    if hits != [] {
      var init := hits[..|hits| - 1];
      assert forall i | 0 <= i < |init| :: init[i] == hits[i];
      OccurrencesOfMissed(init, id);
    }
  }

  /** Every object hit as a target occurs at least once. */
  lemma {:induction false} OccurrencesOfHit(hits: seq<Collider>, id: nat)
    requires id in TargetIds(hits)
    ensures Occurrences(hits, id) >= 1
  {
    var init := hits[..|hits| - 1];
    var last := hits[|hits| - 1];
    assert forall i | 0 <= i < |init| :: init[i] == hits[i];
    if !(IsSpellTarget(last) && last.id == id) {
      assert id in TargetIds(init);
      OccurrencesOfHit(init, id);
    }
  }

  /**
   * After a tick the tracked objects are exactly the targets hit in it, and
   * each has its previous count (0 if new) plus one per hit.
   */
  lemma TrackingAfterTick(counts: map<nat, nat>, hits: seq<Collider>)
    ensures var r := Restrict(TickCounts(counts, hits), TargetIds(hits));
      && r.Keys == TargetIds(hits)
      && forall id | id in r :: r[id] == (if id in counts then counts[id] else 0) + Occurrences(hits, id) && r[id] >= 1
  {
    TickCountsValues(counts, hits);
    forall id | id in TargetIds(hits) ensures Occurrences(hits, id) >= 1 {
      OccurrencesOfHit(hits, id);
    }
  }

  /** The ramp multiplier is at least 1 and grows with the count. */
  lemma RampMultiplierGrows(c1: nat, c2: nat, interval: real, rampUpSpeed: real)
    requires interval >= 0.0 && rampUpSpeed >= 0.0 && c1 <= c2
    ensures 1.0 <= RampMultiplier(c1, interval, rampUpSpeed) <= RampMultiplier(c2, interval, rampUpSpeed)
  {
    var t1, t2 := c1 as real * interval, c2 as real * interval;
    assert 0.0 <= t1 <= t2 by {
      assert t2 - t1 == (c2 - c1) as real * interval;
    }
    assert t1 * t1 <= t2 * t2 by {
      assert t1 * t1 <= t1 * t2;
      assert t1 * t2 <= t2 * t2;
    }
    assert t1 * t1 * rampUpSpeed <= t2 * t2 * rampUpSpeed by {
      assert (t2 * t2 - t1 * t1) * rampUpSpeed >= 0.0;
    }
    assert t1 * t1 * rampUpSpeed >= 0.0;
  }

  /** The nearest target gets the full power, and later ones never more than earlier ones. */
  lemma DistanceDecayOrder(k1: nat, k2: nat, damageDecay: real)
    requires 1 <= k1 <= k2 && damageDecay >= 0.0
    ensures DistanceDecay(1, damageDecay) == 1.0
    ensures 0.0 <= DistanceDecay(k2, damageDecay) <= DistanceDecay(k1, damageDecay) <= 1.0
  {
    assert (1 as real - 1.0) * damageDecay == 0.0;
    var a, b := k1 as real - 1.0, k2 as real - 1.0;
    assert a * damageDecay <= b * damageDecay by {
      NonNegativeProduct(b - a, damageDecay);
      assert b * damageDecay - a * damageDecay == (b - a) * damageDecay;
    }
    Clamp01Monotone(1.0 - b * damageDecay, 1.0 - a * damageDecay);
  }


  /**
   * Every call of a tick goes to an enemy or prince hit in it that has a
   * damageable, and a slow beam only ever calls `ApplySlow(10, 0.2)`.
   */
  lemma {:induction false} TickHitsTargets(p: SpellPayload, rampUpSpeed: real, interval: real,
                                           counts: map<nat, nat>, hits: seq<Collider>)
    ensures var calls := TickHits(p, rampUpSpeed, interval, counts, hits);
      && |calls| <= |hits|
      && (forall k | 0 <= k < |calls| :: exists i | 0 <= i < |hits| ::
            IsSpellTarget(hits[i]) && hits[i].damageable && hits[i].id == calls[k].target)
      && (p.effect == Slow ==> forall k | 0 <= k < |calls| :: calls[k].call == ApplySlow(10.0, 0.2))
  {
    if hits != [] {
      var init := hits[..|hits| - 1];
      TickHitsTargets(p, rampUpSpeed, interval, counts, init);
      var calls, prev := TickHits(p, rampUpSpeed, interval, counts, hits), TickHits(p, rampUpSpeed, interval, counts, init);
      forall k | 0 <= k < |calls|
        ensures exists i | 0 <= i < |hits| :: IsSpellTarget(hits[i]) && hits[i].damageable && hits[i].id == calls[k].target
      {
        if k < |prev| {
          assert calls[k] == prev[k];
          assert exists i | 0 <= i < |init| :: IsSpellTarget(init[i]) && init[i].damageable && init[i].id == prev[k].target;
          var i :| 0 <= i < |init| && IsSpellTarget(init[i]) && init[i].damageable && init[i].id == prev[k].target;
          assert hits[i] == init[i];
        } else {
          assert calls[k].target == hits[|hits| - 1].id;
        }
      }
    }
  }

  /** How one more hit extends the tick's counts, target ids and target count. */
  lemma TickPrefixStep(counts: map<nat, nat>, hits: seq<Collider>, i: nat, m: map<nat, nat>, ids: set<nat>, n: nat)
    requires i < |hits|
    requires m == TickCounts(counts, hits[..i]) && ids == TargetIds(hits[..i]) && n == TargetsIn(hits[..i])
    ensures var hit := hits[i];
      && TickCounts(counts, hits[..i + 1])
           == (if IsSpellTarget(hit) then m[hit.id := (if hit.id in m then m[hit.id] else 0) + 1] else m)
      && TargetIds(hits[..i + 1]) == ids + (if IsSpellTarget(hit) then {hit.id} else {})
      && TargetsIn(hits[..i + 1]) == n + (if IsSpellTarget(hit) then 1 else 0)
  {
    var ext := hits[..i + 1];
    assert ext[..|ext| - 1] == hits[..i] && ext[|ext| - 1] == hits[i];
    TargetIdsStep(ext);
  }

  /** A hit that is not on a damageable enemy or prince adds no call. */
  lemma TickHitsSkip(p: SpellPayload, rampUpSpeed: real, interval: real, counts: map<nat, nat>,
                     hits: seq<Collider>, i: nat)
    requires i < |hits| && !(IsSpellTarget(hits[i]) && hits[i].damageable)
    ensures TickHits(p, rampUpSpeed, interval, counts, hits[..i + 1]) == TickHits(p, rampUpSpeed, interval, counts, hits[..i])
  {
    var ext := hits[..i + 1];
    assert ext[..|ext| - 1] == hits[..i] && ext[|ext| - 1] == hits[i];
  }

  /**
   * A hit on a damageable enemy or prince adds one call, whose power is the
   * payload's power times the hit's distance share and ramp multiplier.
   */
  lemma TickHitsAppend(p: SpellPayload, rampUpSpeed: real, interval: real, counts: map<nat, nat>,
                       hits: seq<Collider>, i: nat, distDecay: real, timeMult: real)
    requires i < |hits| && IsSpellTarget(hits[i]) && hits[i].damageable
    requires distDecay == DistanceDecay(TargetsIn(hits[..i]) + 1, p.damageDecay)
    requires var m, id := TickCounts(counts, hits[..i]), hits[i].id;
      timeMult == RampMultiplier((if id in m then m[id] else 0) + 1, interval, rampUpSpeed)
    ensures TickHits(p, rampUpSpeed, interval, counts, hits[..i + 1]) ==
      TickHits(p, rampUpSpeed, interval, counts, hits[..i])
      + [Hit(hits[i].id, BeamCall(p.effect, p.powerValue * distDecay * timeMult))]
  {
    var ext := hits[..i + 1];
    assert ext[..|ext| - 1] == hits[..i] && ext[|ext| - 1] == hits[i];
    assert HitPower(p, rampUpSpeed, interval, counts, hits[..i], hits[i].id) == p.powerValue * distDecay * timeMult;
  }

  lemma TargetIdsStep(hits: seq<Collider>)
    requires hits != []
    ensures var last := hits[|hits| - 1];
      TargetIds(hits) == TargetIds(hits[..|hits| - 1]) + (if IsSpellTarget(last) then {last.id} else {})
  {
    var init := hits[..|hits| - 1];
    var last := hits[|hits| - 1];
    var rhs := TargetIds(init) + (if IsSpellTarget(last) then {last.id} else {});
    forall x | x in TargetIds(hits) ensures x in rhs {
      var j :| 0 <= j < |hits| && IsSpellTarget(hits[j]) && hits[j].id == x;
      if j < |init| {
        assert init[j] == hits[j];
      }
    }
    forall x | x in TargetIds(init) ensures x in TargetIds(hits) {
      var j :| 0 <= j < |init| && IsSpellTarget(init[j]) && init[j].id == x;
      assert hits[j] == init[j];
    }
  }

  /** A beam built from a Red form note ticks at the beam ramp-up speed of the settings, not at an interval. */
  lemma BeamTicksFromRampUpSpeed(config: BuilderConfig, melody: Melodies.Melody)
    requires |melody.sequence| >= 2 && melody.sequence[1].color == Notes.Red
    requires config.beam.rampUpSpeed > 0.0
    ensures TickInterval(BuildSpell(config, melody).tickRate) * config.beam.rampUpSpeed == 1.0
  {
    BuildSpellFormAndEffect(config, melody);
    BuildSpellGreen(config, melody);
  }

  /** A beam in the scene. */
  class JuicyBeam {
    const visualPenetration: real
    const rampUpSpeed: real

    var payload: SpellPayload
    var lifetime: real
    var age: real
    var tickTimer: real
    var isInitialized: bool
    var currentLength: real
    var targetConsecutiveHits: map<nat, nat>

    /** A freshly instantiated beam with the inspector values 0.5 and 0.5, not yet initialised. */
    constructor ()
      ensures visualPenetration == 0.5 && rampUpSpeed == 0.5
      ensures !isInitialized && tickTimer == 0.0 && targetConsecutiveHits == map[]
    {
      visualPenetration := 0.5;
      rampUpSpeed := 0.5;
      payload := DefaultPayload;
      lifetime := 0.0;
      age := 0.0;
      tickTimer := 0.0;
      isInitialized := false;
      currentLength := 0.0;
      targetConsecutiveHits := map[];
    }

    /** Takes the payload: lifetime and length from it, age 0, no tracked targets. The tick timer is kept. */
    method Initialize(data: SpellPayload)
      modifies this
      ensures payload == data && lifetime == data.duration && currentLength == data.sizeOrRange
      ensures age == 0.0 && isInitialized && targetConsecutiveHits == map[]
      ensures tickTimer == old(tickTimer)
    {
      payload := data;
      lifetime := data.duration;
      currentLength := data.sizeOrRange;
      age := 0.0;
      isInitialized := true;
      targetConsecutiveHits := map[];
    }

    /** One frame: clip the beam, then run the tick logic. Nothing happens before initialisation. */
    method Update(dt: real, rayHits: seq<Collider>, boxHits: seq<Collider>) returns (calls: seq<Hit>)
      modifies this
      ensures payload == old(payload) && lifetime == old(lifetime) && isInitialized == old(isInitialized)
      ensures !old(isInitialized) ==> calls == [] && age == old(age) && tickTimer == old(tickTimer)
                                      && currentLength == old(currentLength)
                                      && targetConsecutiveHits == old(targetConsecutiveHits)
      ensures old(isInitialized) ==>
        && age == old(age) + dt
        && currentLength == BeamLength(payload.sizeOrRange, visualPenetration, rayHits)
        && var interval := TickInterval(payload.tickRate);
           if old(tickTimer) + dt >= interval then
             && tickTimer == 0.0
             && calls == TickHits(payload, rampUpSpeed, interval, old(targetConsecutiveHits), boxHits)
             && targetConsecutiveHits == Restrict(TickCounts(old(targetConsecutiveHits), boxHits), TargetIds(boxHits))
           else
             tickTimer == old(tickTimer) + dt && calls == [] && targetConsecutiveHits == old(targetConsecutiveHits)
    {
      calls := [];
      if !isInitialized {
        return;
      }
      age := age + dt;
      CalculateCollision(rayHits);
      calls := HandleTickLogic(dt, boxHits);
    }

    /** Cuts the beam at the nearest wall on its ray. */
    method CalculateCollision(rayHits: seq<Collider>)
      modifies this`currentLength
      ensures currentLength == BeamLength(payload.sizeOrRange, visualPenetration, rayHits)
    {
      currentLength := payload.sizeOrRange;
      var nearestWall := payload.sizeOrRange;
      var foundWall := false;
      var i := 0;
      while i < |rayHits|
        invariant 0 <= i <= |rayHits|
        invariant nearestWall == NearestWall(rayHits[..i], payload.sizeOrRange)
        invariant foundWall <==> nearestWall < payload.sizeOrRange
      {
        var hit := rayHits[i];
        assert rayHits[..i + 1][..i] == rayHits[..i];
        if IsWall(hit) && hit.distance < nearestWall {
          nearestWall := hit.distance;
          foundWall := true;
        }
        i := i + 1;
      }
      assert rayHits[..|rayHits|] == rayHits;
      if foundWall {
        currentLength := nearestWall + visualPenetration;
      }
    }

    /** Advances the tick timer; a tick fires at or past the interval and resets the timer to 0. */
    method HandleTickLogic(dt: real, boxHits: seq<Collider>) returns (calls: seq<Hit>)
      modifies this`tickTimer, this`targetConsecutiveHits
      ensures var interval := TickInterval(payload.tickRate);
        if old(tickTimer) + dt >= interval then
          && tickTimer == 0.0
          && calls == TickHits(payload, rampUpSpeed, interval, old(targetConsecutiveHits), boxHits)
          && targetConsecutiveHits == Restrict(TickCounts(old(targetConsecutiveHits), boxHits), TargetIds(boxHits))
        else
          tickTimer == old(tickTimer) + dt && calls == [] && targetConsecutiveHits == old(targetConsecutiveHits)
    {
      tickTimer := tickTimer + dt;
      var interval := if payload.tickRate > 0.0 then 1.0 / payload.tickRate else 99.0;
      calls := [];
      if tickTimer >= interval {
        calls := ApplyEffectArea(interval, boxHits);
        tickTimer := 0.0;
      }
    }

    /** One tick over the targets in the box, nearest first, then the reset of the missed targets. */
    method ApplyEffectArea(tickInterval: real, hits: seq<Collider>) returns (calls: seq<Hit>)
      modifies this`targetConsecutiveHits
      ensures calls == TickHits(payload, rampUpSpeed, tickInterval, old(targetConsecutiveHits), hits)
      ensures targetConsecutiveHits == Restrict(TickCounts(old(targetConsecutiveHits), hits), TargetIds(hits))
    {
      ghost var start := targetConsecutiveHits;
      var spell := payload;
      var currentHitIds: set<nat> := {};
      var hitCount := 0;
      calls := [];
      var i := 0;
      while i < |hits|
        invariant 0 <= i <= |hits|
        invariant targetConsecutiveHits == TickCounts(start, hits[..i])
        invariant currentHitIds == TargetIds(hits[..i])
        invariant hitCount == TargetsIn(hits[..i])
        invariant calls == TickHits(spell, rampUpSpeed, tickInterval, start, hits[..i])
      {
        var hit := hits[i];
        TickPrefixStep(start, hits, i, targetConsecutiveHits, currentHitIds, hitCount);
        if IsSpellTarget(hit) {
          currentHitIds := currentHitIds + {hit.id};
          var count := (if hit.id in targetConsecutiveHits then targetConsecutiveHits[hit.id] else 0) + 1;
          targetConsecutiveHits := targetConsecutiveHits[hit.id := count];
          var timeMult := RampMultiplier(count, tickInterval, rampUpSpeed);
          hitCount := hitCount + 1;
          var distDecay := DistanceDecay(hitCount, spell.damageDecay);
          var finalPower := spell.powerValue * distDecay * timeMult;
          if hit.damageable {
            TickHitsAppend(spell, rampUpSpeed, tickInterval, start, hits, i, distDecay, timeMult);
            calls := calls + [Hit(hit.id, BeamCall(spell.effect, finalPower))];
          } else {
            TickHitsSkip(spell, rampUpSpeed, tickInterval, start, hits, i);
          }
        } else {
          TickHitsSkip(spell, rampUpSpeed, tickInterval, start, hits, i);
        }
        i := i + 1;
      }
      assert hits[..|hits|] == hits;
      ForgetMissedTargets(currentHitIds);
    }

    /** Drops the count of every tracked object that was not hit in this tick. */
    method ForgetMissedTargets(currentHitIds: set<nat>)
      modifies this`targetConsecutiveHits
      ensures targetConsecutiveHits == Restrict(old(targetConsecutiveHits), currentHitIds)
    {
      ghost var counted := targetConsecutiveHits;
      var idsToRemove := set id | id in targetConsecutiveHits && id !in currentHitIds;
      while idsToRemove != {}
        invariant idsToRemove <= counted.Keys
        invariant forall id | id in idsToRemove :: id !in currentHitIds
        invariant targetConsecutiveHits == Restrict(counted, currentHitIds + idsToRemove)
        decreases |idsToRemove|
      {
        var id :| id in idsToRemove;
        RestrictDropOne(counted, currentHitIds, idsToRemove, id);
        targetConsecutiveHits := targetConsecutiveHits - {id};
        idsToRemove := idsToRemove - {id};
      }
    }
  }
}
