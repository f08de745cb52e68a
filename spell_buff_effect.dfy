/**
 * The self buff (Assets/_Game/Scripts/Player/Buff/SpellBuffEffect.cs): an aura
 * attached to the caster that, every tick, heals the caster's `PlayerStats`
 * by the spell's power or calls its (empty) `AddShield`.
 *
 * The component lookup on the target (`GetComponent`, then
 * `GetComponentInParent`) is given as its result, a `PlayerStats` or null.
 * The aura's rotation and colour are not modelled.
 */
module Buff {
  import opened Combat
  import opened Builder
  import opened Stats

  /** The caster's stats after one buff tick: only a Heal buff changes them. */
  function BuffTick(t: StatsTuning, e: Endurance, p: SpellPayload): Endurance
  {
    if p.effect.Heal? then HealStep(t, e, p.powerValue) else e
  }

  /**
   * A Heal buff heals by the power, capped at the maximum; a Shield, Damage or
   * Slow buff leaves the caster's stats as they are.
   */
  lemma BuffTickEffect(t: StatsTuning, e: Endurance, p: SpellPayload)
    ensures !p.effect.Heal? ==> BuffTick(t, e, p) == e
    ensures p.effect.Heal? ==>
      var w := BuffTick(t, e, p);
      && w.health <= t.maxHealth
      && (e.health + p.powerValue <= t.maxHealth ==> w.health == e.health + p.powerValue)
      && w.stamina == e.stamina && w.isExhausted == e.isExhausted
  {
    if p.effect.Heal? {
      HealCapped(t, e, p.powerValue);
    }
  }

  /** A buff attached to the caster. */
  class SpellBuffEffect {
    var payload: SpellPayload
    var targetStats: PlayerStats?
    var tickTimer: real
    var isInitialized: bool

    /** A freshly instantiated buff, not yet initialised. */
    constructor ()
      ensures !isInitialized && tickTimer == 0.0 && targetStats == null
    {
      payload := DefaultPayload;
      targetStats := null;
      tickTimer := 0.0;
      isInitialized := false;
    }

    /** Takes the payload and the stats found on the target, if any. */
    method Initialize(stats: PlayerStats?, data: SpellPayload)
      modifies this
      ensures payload == data && targetStats == stats && isInitialized && tickTimer == old(tickTimer)
    {
      payload := data;
      targetStats := stats;
      isInitialized := true;
    }

    /**
     * One frame: the timer advances, and at or past the interval the buff
     * ticks and the timer restarts at 0.
     */
    method Update(dt: real)
      modifies this, targetStats
      ensures payload == old(payload) && targetStats == old(targetStats) && isInitialized == old(isInitialized)
      ensures var ticks := old(isInitialized) && old(tickTimer) + dt >= TickInterval(payload.tickRate);
        && (!old(isInitialized) ==> tickTimer == old(tickTimer))
        && (old(isInitialized) ==> tickTimer == if ticks then 0.0 else old(tickTimer) + dt)
        && (targetStats != null ==>
              targetStats.View() == if ticks then BuffTick(targetStats.Settings(), old(targetStats.View()), payload)
                                    else old(targetStats.View()))
    {
      if !isInitialized {
        return;
      }
      tickTimer := tickTimer + dt;
      var interval := if payload.tickRate > 0.0 then 1.0 / payload.tickRate else 99.0;
      if tickTimer >= interval {
        ApplyBuffTick();
        tickTimer := 0.0;
      }
    }

    /** Heals the caster for a Heal buff, calls the empty `AddShield` for a Shield buff. */
    method ApplyBuffTick()
      modifies targetStats
      ensures targetStats != null ==>
        targetStats.View() == BuffTick(targetStats.Settings(), old(targetStats.View()), payload)
    {
      if targetStats != null {
        match payload.effect {
          case Heal => targetStats.Heal(payload.powerValue);
          case Shield => targetStats.AddShield(payload.powerValue);
          case Damage =>
          case Slow =>
        }
      }
    }
  }
}
