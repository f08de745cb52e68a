/**
 * The training dummy (Assets/_Game/Scripts/Dummyes/DummyController.cs): an
 * `IDamageable` with health, a shield, slow that accumulates into a freeze,
 * timed recovery, a DPS meter and a respawn.
 *
 * Each state change is a pure step on the value view `Vitals`; the class's
 * methods apply that step to their fields. Popups, colours, the UI and the
 * position reset are presentation or physics and are not modelled.
 */
module Dummy {
  import opened Wrappers
  import opened Combat

  datatype DummyType = Enemy | Prince

  /** The inspector settings of one dummy. */
  datatype Tuning = Tuning(kind: DummyType, maxHealth: real, slowDecayRate: real,
                           freezeDuration: real, combatResetTime: real)

  /** The fields the combat rules read and write. `active` is the game object's active flag. */
  datatype Vitals = Vitals(
    health: real,
    shield: real,
    slowPercent: real,
    isFrozen: bool,
    freezeTimer: real,
    totalDamageDealt: real,
    totalHealingDone: real,
    combatStartTime: real,
    lastHitTime: real,
    inCombat: bool,
    active: bool)

  /** The damage and healing rates shown when a fight ends. */
  datatype DpsReport = DpsReport(dps: real, hps: real)

  /** The health a dummy starts and respawns with: a prince starts at a fifth. */
  function StartHealth(t: Tuning): real
  {
    if t.kind == Prince then t.maxHealth * 0.2 else t.maxHealth
  }

  /** Records a hit at `now`; entering combat also restarts the clock and zeroes the totals. */
  function CombatHit(v: Vitals, now: real): Vitals
  {
    if v.inCombat then v.(lastHitTime := now)
    else v.(lastHitTime := now, inCombat := true, combatStartTime := now,
            totalDamageDealt := 0.0, totalHealingDone := 0.0)
  }

  /** The damage before the shield: ×1.5 while frozen. */
  function EffectiveDamage(v: Vitals, amount: real): real
  {
    if v.isFrozen then amount * 1.5 else amount
  }

  /** What the shield takes: the raw amount, up to the whole shield. */
  function ShieldAbsorb(v: Vitals, amount: real): real
  {
    if v.shield > 0.0 then Min(v.shield, amount) else 0.0
  }

  /** `TakeDamage`: a prince ignores it; health at or below 0 deactivates the dummy. */
  function DamageStep(t: Tuning, v: Vitals, amount: real, now: real): Vitals
  {
    if t.kind == Prince then v
    else
      var c := CombatHit(v, now);
      var absorb := ShieldAbsorb(c, amount);
      var rest := EffectiveDamage(c, amount) - absorb;
      var d := if rest > 0.0 then c.(health := c.health - rest, totalDamageDealt := c.totalDamageDealt + rest)
               else c;
      var d := d.(shield := c.shield - absorb);
      if d.health <= 0.0 then d.(active := false) else d
  }

  /** `ApplySlow`: ignored by a prince and while frozen; reaching 100 % freezes. */
  function SlowStep(t: Tuning, v: Vitals, percentage: real): Vitals
  {
    if t.kind == Prince || v.isFrozen then v
    else
      var s := v.slowPercent + percentage;
      if s >= 100.0 then v.(slowPercent := 100.0, isFrozen := true, freezeTimer := t.freezeDuration)
      else v.(slowPercent := s)
  }

  /** One frame of recovery: the freeze timer runs down, or else the slow decays. */
  function RecoveryStep(t: Tuning, v: Vitals, dt: real): Vitals
  {
    if v.isFrozen then
      var timer := v.freezeTimer - dt;
      if timer <= 0.0 then v.(freezeTimer := timer, isFrozen := false, slowPercent := 0.0)
      else v.(freezeTimer := timer)
    else if v.slowPercent > 0.0 then
      var s := v.slowPercent - t.slowDecayRate * dt;
      v.(slowPercent := if s < 0.0 then 0.0 else s)
    else v
  }

  /** `Heal`: ignored by an enemy; adds at most the missing health. */
  function HealStep(t: Tuning, v: Vitals, amount: real, now: real): Vitals
  {
    if t.kind == Enemy then v
    else
      var c := CombatHit(v, now);
      var h := Min(amount, t.maxHealth - c.health);
      c.(health := c.health + h, totalHealingDone := c.totalHealingDone + h)
  }

  /** `AddShield`: ignored by an enemy; adds the amount. */
  function ShieldStep(t: Tuning, v: Vitals, amount: real, now: real): Vitals
  {
    if t.kind == Enemy then v
    else
      var c := CombatHit(v, now);
      c.(shield := c.shield + amount)
  }

  /** A fight is over once more than `combatResetTime` has passed since the last hit. */
  predicate CombatEnds(t: Tuning, v: Vitals, now: real)
  {
    v.inCombat && now > v.lastHitTime + t.combatResetTime
  }

  /** The fight's length, with anything under 0.1 s counted as one second. */
  function CombatDuration(v: Vitals): (d: real)
    ensures d >= 0.1
    ensures v.lastHitTime - v.combatStartTime < 0.1 ==> d == 1.0
    ensures v.lastHitTime - v.combatStartTime >= 0.1 ==> d == v.lastHitTime - v.combatStartTime
  {
    var d := v.lastHitTime - v.combatStartTime;
    if d < 0.1 then 1.0 else d
  }

  /** The report of a fight that ends, when either rate is positive. */
  function Report(v: Vitals): Option<DpsReport>
  {
    var dps := v.totalDamageDealt / CombatDuration(v);
    var hps := v.totalHealingDone / CombatDuration(v);
    if dps > 0.0 || hps > 0.0 then Some(DpsReport(dps, hps)) else None
  }

  /** `Respawn`: start health, no shield, no slow, not frozen, active again. */
  function RespawnStep(t: Tuning, v: Vitals): Vitals
  {
    v.(health := StartHealth(t), shield := 0.0, slowPercent := 0.0, isFrozen := false, active := true)
  }

  /** A prince takes no damage and no slow; nothing changes. */
  lemma PrinceIgnoresDamageAndSlow(t: Tuning, v: Vitals, amount: real, percentage: real, now: real)
    requires t.kind == Prince
    ensures DamageStep(t, v, amount, now) == v && SlowStep(t, v, percentage) == v
  {
  }

  /** An enemy takes no healing and no shield; nothing changes. */
  lemma EnemyIgnoresHealAndShield(t: Tuning, v: Vitals, amount: real, now: real)
    requires t.kind == Enemy
    ensures HealStep(t, v, amount, now) == v && ShieldStep(t, v, amount, now) == v
  {
  }

  /**
   * Damage to an enemy: the shield takes min(shield, raw amount) and stays
   * non-negative; what the shield and the health lose together is exactly
   * the effective damage (×1.5 if frozen); the health loss is added to the
   * fight's total; the dummy goes inactive exactly when health is at or below 0.
   */
  lemma DamageAccounting(t: Tuning, v: Vitals, amount: real, now: real)
    requires t.kind == Enemy && amount >= 0.0 && v.shield >= 0.0
    ensures var w := DamageStep(t, v, amount, now);
      && w.shield >= 0.0
      && v.shield - w.shield == (if v.shield > 0.0 then Min(v.shield, amount) else 0.0)
      && (v.shield - w.shield) + (v.health - w.health) == (if v.isFrozen then amount * 1.5 else amount)
      && w.totalDamageDealt == CombatHit(v, now).totalDamageDealt + (v.health - w.health)
      && (w.health <= 0.0 ==> !w.active)
      && (w.health > 0.0 ==> w.active == v.active)
  {
  }

  /** Shield 30, health 100, 50 raw damage: shield 0, health 80. */
  lemma DamageExample(t: Tuning, v: Vitals, now: real)
    requires t.kind == Enemy && v.shield == 30.0 && v.health == 100.0 && !v.isFrozen
    ensures var w := DamageStep(t, v, 50.0, now); w.shield == 0.0 && w.health == 80.0 && w.active == v.active
  {
  }

  /**
   * The shield absorbs the raw amount, not the frozen one: a frozen dummy
   * with shield 30 hit for 20 keeps 10 shield and still loses 10 health.
   */
  lemma FrozenDamagePassesShield(t: Tuning, v: Vitals, now: real)
    requires t.kind == Enemy && v.shield == 30.0 && v.health == 100.0 && v.isFrozen
    ensures var w := DamageStep(t, v, 20.0, now); w.shield == 10.0 && w.health == 90.0
  {
  }

  /** Health is not clamped: 10 health hit for 50 with no shield ends at -40 and inactive. */
  lemma DeathDoesNotClampHealth(t: Tuning, v: Vitals, now: real)
    requires t.kind == Enemy && v.shield == 0.0 && v.health == 10.0 && !v.isFrozen
    ensures var w := DamageStep(t, v, 50.0, now); w.health == -40.0 && !w.active
  {
  }

  /**
   * Slow on an enemy that is not frozen adds up; at 100 % or more it is
   * clamped to 100 and the dummy freezes for `freezeDuration`. While frozen
   * nothing changes. A slow within [0, 100] stays within it.
   */
  lemma SlowAccumulation(t: Tuning, v: Vitals, percentage: real)
    requires t.kind == Enemy
    ensures var w := SlowStep(t, v, percentage);
      && (v.isFrozen ==> w == v)
      && (!v.isFrozen && v.slowPercent + percentage >= 100.0 ==>
            w.slowPercent == 100.0 && w.isFrozen && w.freezeTimer == t.freezeDuration)
      && (!v.isFrozen && v.slowPercent + percentage < 100.0 ==>
            w.slowPercent == v.slowPercent + percentage && !w.isFrozen && w.freezeTimer == v.freezeTimer)
      && (0.0 <= v.slowPercent <= 100.0 && percentage >= 0.0 ==> 0.0 <= w.slowPercent <= 100.0)
      && w.health == v.health && w.shield == v.shield
  {
  }

  /**
   * Recovery: a frozen dummy's timer drops by `dt` and it thaws, with slow
   * reset to 0, once the timer reaches 0; otherwise a positive slow drops by
   * `slowDecayRate * dt`, floored at 0, and never rises.
   */
  lemma RecoveryBehaviour(t: Tuning, v: Vitals, dt: real)
    ensures var w := RecoveryStep(t, v, dt);
      && (v.isFrozen ==> w.freezeTimer == v.freezeTimer - dt
                         && (w.isFrozen <==> v.freezeTimer - dt > 0.0)
                         && (!w.isFrozen ==> w.slowPercent == 0.0))
      && (!v.isFrozen && v.slowPercent > 0.0 ==>
            !w.isFrozen && w.slowPercent >= 0.0
            && (w.slowPercent == v.slowPercent - t.slowDecayRate * dt || w.slowPercent == 0.0))
      && (!v.isFrozen && t.slowDecayRate >= 0.0 && dt >= 0.0 ==> w.slowPercent <= v.slowPercent)
      && w.health == v.health && w.shield == v.shield
  {
  }

  /** Healing a prince raises health to min(health + amount, maxHealth), and the total by the same gain. */
  lemma HealCapped(t: Tuning, v: Vitals, amount: real, now: real)
    requires t.kind == Prince
    ensures var w := HealStep(t, v, amount, now);
      && w.health == Min(v.health + amount, t.maxHealth)
      && w.health <= t.maxHealth
      && w.totalHealingDone == CombatHit(v, now).totalHealingDone + (w.health - v.health)
  {
  }

  /**
   * The fight's totals and start time reset only when a hit starts a fight;
   * inside a fight a hit only moves the last-hit time.
   */
  lemma CombatTotalsResetOnEntry(v: Vitals, now: real)
    ensures var w := CombatHit(v, now);
      && w.lastHitTime == now && w.inCombat
      && (v.inCombat ==> w == v.(lastHitTime := now))
      && (!v.inCombat ==> w.combatStartTime == now && w.totalDamageDealt == 0.0 && w.totalHealingDone == 0.0)
  {
  }

  /** Respawn restores the start health (a fifth for a prince) and clears shield, slow and freeze. */
  lemma RespawnResets(t: Tuning, v: Vitals)
    ensures var w := RespawnStep(t, v);
      && w.health == (if t.kind == Prince then 0.2 * t.maxHealth else t.maxHealth)
      && w.shield == 0.0 && w.slowPercent == 0.0 && !w.isFrozen && w.active
  {
  }

  /** A dummy in the scene. */
  class DummyController {
    const kind: DummyType
    const maxHealth: real
    const slowDecayRate: real
    const freezeDuration: real
    const combatResetTime: real

    var currentHealth: real
    var currentShield: real
    var currentSlowPercent: real
    var isFrozen: bool
    var freezeTimer: real
    var totalDamageDealt: real
    var totalHealingDone: real
    var combatStartTime: real
    var lastHitTime: real
    var inCombat: bool
    var active: bool

    function Settings(): Tuning
    {
      Tuning(kind, maxHealth, slowDecayRate, freezeDuration, combatResetTime)
    }

    function View(): Vitals
      reads this
    {
      Vitals(currentHealth, currentShield, currentSlowPercent, isFrozen, freezeTimer,
             totalDamageDealt, totalHealingDone, combatStartTime, lastHitTime, inCombat, active)
    }

    method SetView(v: Vitals)
      modifies this
      ensures View() == v
    {
      currentHealth, currentShield, currentSlowPercent := v.health, v.shield, v.slowPercent;
      isFrozen, freezeTimer := v.isFrozen, v.freezeTimer;
      totalDamageDealt, totalHealingDone := v.totalDamageDealt, v.totalHealingDone;
      combatStartTime, lastHitTime, inCombat, active := v.combatStartTime, v.lastHitTime, v.inCombat, v.active;
    }

    /** The inspector settings followed by `Start`: health per type, everything else zero. */
    constructor (kind: DummyType, maxHealth: real, slowDecayRate: real, freezeDuration: real, combatResetTime: real)
      ensures Settings() == Tuning(kind, maxHealth, slowDecayRate, freezeDuration, combatResetTime)
      ensures View() == Vitals(StartHealth(Settings()), 0.0, 0.0, false, 0.0, 0.0, 0.0, 0.0, 0.0, false, true)
    {
      this.kind := kind;
      this.maxHealth := maxHealth;
      this.slowDecayRate := slowDecayRate;
      this.freezeDuration := freezeDuration;
      this.combatResetTime := combatResetTime;
      currentHealth := if kind == Prince then maxHealth * 0.2 else maxHealth;
      currentShield, currentSlowPercent, isFrozen, freezeTimer := 0.0, 0.0, false, 0.0;
      totalDamageDealt, totalHealingDone, combatStartTime, lastHitTime := 0.0, 0.0, 0.0, 0.0;
      inCombat, active := false, true;
    }

    /** `CheckCombatStart` at time `now`. */
    method CheckCombatStart(now: real)
      modifies this
      ensures View() == CombatHit(old(View()), now)
    {
      lastHitTime := now;
      if !inCombat {
        inCombat := true;
        combatStartTime := now;
        totalDamageDealt := 0.0;
        totalHealingDone := 0.0;
      }
    }

    method TakeDamage(amount: real, now: real)
      modifies this
      ensures View() == DamageStep(Settings(), old(View()), amount, now)
    {
      if kind == Prince {
        return;
      }
      CheckCombatStart(now);
      var effectiveDamage := amount;
      if isFrozen {
        effectiveDamage := effectiveDamage * 1.5;
      }
      if currentShield > 0.0 {
        var shieldAbsorb := Min(currentShield, amount);
        currentShield := currentShield - shieldAbsorb;
        effectiveDamage := effectiveDamage - shieldAbsorb;
      }
      if effectiveDamage > 0.0 {
        currentHealth := currentHealth - effectiveDamage;
        totalDamageDealt := totalDamageDealt + effectiveDamage;
      }
      if currentHealth <= 0.0 {
        Die();
      }
    }

    /** `ApplySlow`; the duration argument is not used. */
    method ApplySlow(percentage: real, duration: real)
      modifies this
      ensures View() == SlowStep(Settings(), old(View()), percentage)
    {
      if kind == Prince || isFrozen {
        return;
      }
      currentSlowPercent := currentSlowPercent + percentage;
      if currentSlowPercent >= 100.0 {
        currentSlowPercent := 100.0;
        StartFreeze();
      }
    }

    method StartFreeze()
      modifies this
      ensures View() == old(View()).(isFrozen := true, freezeTimer := freezeDuration)
    {
      isFrozen := true;
      freezeTimer := freezeDuration;
    }

    method BreakFreeze()
      modifies this
      ensures View() == old(View()).(isFrozen := false, slowPercent := 0.0)
    {
      isFrozen := false;
      currentSlowPercent := 0.0;
    }

    method HandleStatusRecovery(dt: real)
      modifies this
      ensures View() == RecoveryStep(Settings(), old(View()), dt)
    {
      if isFrozen {
        freezeTimer := freezeTimer - dt;
        if freezeTimer <= 0.0 {
          BreakFreeze();
        }
      } else if currentSlowPercent > 0.0 {
        currentSlowPercent := currentSlowPercent - slowDecayRate * dt;
        if currentSlowPercent < 0.0 {
          currentSlowPercent := 0.0;
        }
      }
    }

    /** Ends a fight that has gone quiet and returns its report, if any rate is positive. */
    method HandleDPSLogic(now: real) returns (report: Option<DpsReport>)
      modifies this
      ensures CombatEnds(Settings(), old(View()), now) ==>
                View() == old(View()).(inCombat := false) && report == Report(old(View()))
      ensures !CombatEnds(Settings(), old(View()), now) ==> View() == old(View()) && report == None
    {
      report := None;
      if inCombat && now > lastHitTime + combatResetTime {
        inCombat := false;
        var duration := lastHitTime - combatStartTime;
        if duration < 0.1 {
          duration := 1.0;
        }
        var dps := totalDamageDealt / duration;
        var hps := totalHealingDone / duration;
        if dps > 0.0 || hps > 0.0 {
          report := Some(DpsReport(dps, hps));
        }
      }
    }

    /** One frame: the DPS check at `now`, then recovery over `dt`. */
    method Update(now: real, dt: real) returns (report: Option<DpsReport>)
      modifies this
      ensures var mid := if CombatEnds(Settings(), old(View()), now) then old(View()).(inCombat := false) else old(View());
        View() == RecoveryStep(Settings(), mid, dt)
      ensures report == if CombatEnds(Settings(), old(View()), now) then Report(old(View())) else None
    {
      report := HandleDPSLogic(now);
      HandleStatusRecovery(dt);
    }

    method Heal(amount: real, now: real)
      modifies this
      ensures View() == HealStep(Settings(), old(View()), amount, now)
    {
      if kind == Enemy {
        return;
      }
      CheckCombatStart(now);
      var h := Min(amount, maxHealth - currentHealth);
      currentHealth := currentHealth + h;
      totalHealingDone := totalHealingDone + h;
    }

    method AddShield(amount: real, now: real)
      modifies this
      ensures View() == ShieldStep(Settings(), old(View()), amount, now)
    {
      if kind == Enemy {
        return;
      }
      CheckCombatStart(now);
      currentShield := currentShield + amount;
    }

    /** Deactivates the dummy; the respawn two seconds later is `Respawn`. */
    method Die()
      modifies this
      ensures View() == old(View()).(active := false)
    {
      active := false;
    }

    method Respawn()
      modifies this
      ensures View() == RespawnStep(Settings(), old(View()))
    {
      active := true;
      currentHealth := if kind == Prince then maxHealth * 0.2 else maxHealth;
      currentShield := 0.0;
      currentSlowPercent := 0.0;
      isFrozen := false;
    }

    /** Applies one `IDamageable` call made at time `now`. */
    method Receive(call: EffectCall, now: real)
      modifies this
      ensures call.TakeDamage? ==> View() == DamageStep(Settings(), old(View()), call.amount, now)
      ensures call.Heal? ==> View() == HealStep(Settings(), old(View()), call.amount, now)
      ensures call.AddShield? ==> View() == ShieldStep(Settings(), old(View()), call.amount, now)
      ensures call.ApplySlow? ==> View() == SlowStep(Settings(), old(View()), call.percentage)
    {
      match call
      case TakeDamage(a) => TakeDamage(a, now);
      case Heal(a) => Heal(a, now);
      case AddShield(a) => AddShield(a, now);
      case ApplySlow(p, d) => ApplySlow(p, d);
    }
  }
}
