/**
 * The player's health and stamina (Assets/_Game/Scripts/Player/PlayerStats.cs):
 * stamina regenerates unless the player is exhausted, spending it to 0 or
 * below exhausts the player for `exhaustionDuration`, damage taken while
 * shielded is paid in stamina, and healing is capped.
 *
 * Each state change is a pure step on the value view `Endurance`; the
 * class's methods apply that step to their fields. `Die` only logs, and the
 * `OnStatsChanged` event only refreshes the UI; neither is modelled.
 */
module Stats {

  /** The inspector settings. */
  datatype StatsTuning = StatsTuning(maxHealth: real, maxStamina: real, staminaRegenRate: real,
                                     exhaustionDuration: real)

  /** The fields the rules read and write. */
  datatype Endurance = Endurance(health: real, stamina: real, isExhausted: bool, isShielded: bool,
                                 regenTimer: real)

  /** One frame of `HandleStaminaRegen`. */
  function RegenStep(t: StatsTuning, e: Endurance, dt: real): Endurance
  {
    if e.isExhausted then
      var timer := e.regenTimer - dt;
      e.(regenTimer := timer, isExhausted := timer > 0.0)
    else if e.stamina < t.maxStamina then
      var s := e.stamina + t.staminaRegenRate * dt;
      e.(stamina := if s > t.maxStamina then t.maxStamina else s)
    else e
  }

  /** Whether an action costing `amount` may start. */
  predicate CanAfford(e: Endurance, amount: real)
  {
    !e.isExhausted && e.stamina >= amount
  }

  /** `ConsumeStamina`: nothing while exhausted; reaching 0 or below clamps to 0 and exhausts. */
  function ConsumeStep(t: StatsTuning, e: Endurance, amount: real): Endurance
  {
    if e.isExhausted then e
    else
      var s := e.stamina - amount;
      if s <= 0.0 then e.(stamina := 0.0, isExhausted := true, regenTimer := t.exhaustionDuration)
      else e.(stamina := s)
  }

  /** `TakeDamage`: shielded, half the amount is taken from stamina; otherwise from health, floored at 0. */
  function DamageStep(t: StatsTuning, e: Endurance, amount: real): Endurance
  {
    if e.isShielded then ConsumeStep(t, e, amount * 0.5)
    else
      var h := e.health - amount;
      e.(health := if h <= 0.0 then 0.0 else h)
  }

  /** `Heal`: adds the amount, capped at `maxHealth`. */
  function HealStep(t: StatsTuning, e: Endurance, amount: real): Endurance
  {
    var h := e.health + amount;
    e.(health := if h > t.maxHealth then t.maxHealth else h)
  }

  /** `n` frames of regeneration of `dt` seconds each. */
  function RegenFrames(t: StatsTuning, e: Endurance, dt: real, n: nat): Endurance
    decreases n
  {
    if n == 0 then e else RegenFrames(t, RegenStep(t, e, dt), dt, n - 1)
  }

  /** While exhausted a regeneration frame only runs the timer down; exhaustion ends once it reaches 0. */
  lemma ExhaustedRegenOnlyCountsDown(t: StatsTuning, e: Endurance, dt: real)
    requires e.isExhausted
    ensures var w := RegenStep(t, e, dt);
      && w.stamina == e.stamina && w.health == e.health
      && w.regenTimer == e.regenTimer - dt
      && (w.isExhausted <==> e.regenTimer - dt > 0.0)
  {
  }

  /**
   * When not exhausted, regeneration adds `staminaRegenRate * dt`, capped at
   * `maxStamina`, and never exhausts; a full bar is left as it is.
   */
  lemma RegenCapped(t: StatsTuning, e: Endurance, dt: real)
    requires !e.isExhausted
    ensures var w := RegenStep(t, e, dt);
      && !w.isExhausted && w.health == e.health
      && (e.stamina < t.maxStamina ==>
            w.stamina == (if e.stamina + t.staminaRegenRate * dt > t.maxStamina then t.maxStamina
                          else e.stamina + t.staminaRegenRate * dt)
            && w.stamina <= t.maxStamina)
      && (e.stamina >= t.maxStamina ==> w == e)
  {
  }

  /** A player who is not exhausted stays so through any number of regeneration frames. */
  lemma {:induction false} RestedStaysRested(t: StatsTuning, e: Endurance, dt: real, n: nat)
    requires !e.isExhausted
    ensures !RegenFrames(t, e, dt, n).isExhausted
    decreases n
  {
    if n > 0 {
      RestedStaysRested(t, RegenStep(t, e, dt), dt, n - 1);
    }
  }

  /**
   * Exhaustion always ends: with frames of positive length, enough frames to
   * cover the remaining timer leave the player rested.
   */
  lemma {:induction false} ExhaustionEnds(t: StatsTuning, e: Endurance, dt: real, n: nat)
    requires e.isExhausted && dt > 0.0 && n >= 1 && n as real * dt >= e.regenTimer
    ensures !RegenFrames(t, e, dt, n).isExhausted
    decreases n
  {
    var w := RegenStep(t, e, dt);
    if w.isExhausted {
      assert (n - 1) as real * dt == n as real * dt - dt;
      ExhaustionEnds(t, w, dt, n - 1);
    } else {
      RestedStaysRested(t, w, dt, n - 1);
    }
  }

  /** Spending while exhausted changes nothing. */
  lemma ConsumeWhileExhausted(t: StatsTuning, e: Endurance, amount: real)
    requires e.isExhausted
    ensures ConsumeStep(t, e, amount) == e
  {
  }

  /**
   * Spending that leaves 0 or less clamps stamina to 0, exhausts the player
   * with a full timer and blocks every action; otherwise it subtracts the
   * amount. A stamina within [0, max] stays within it for a non-negative cost.
   */
  lemma ConsumeBehaviour(t: StatsTuning, e: Endurance, amount: real)
    requires !e.isExhausted
    ensures var w := ConsumeStep(t, e, amount);
      && (e.stamina - amount <= 0.0 ==>
            w.stamina == 0.0 && w.isExhausted && w.regenTimer == t.exhaustionDuration
            && forall cost: real :: !CanAfford(w, cost))
      && (e.stamina - amount > 0.0 ==> w == e.(stamina := e.stamina - amount))
      && (0.0 <= e.stamina <= t.maxStamina && amount >= 0.0 ==> 0.0 <= w.stamina <= t.maxStamina)
      && w.health == e.health
  {
  }

  /** An affordable cost never exhausts unless it spends the bar to exactly 0. */
  lemma AffordableCostLeavesStamina(t: StatsTuning, e: Endurance, amount: real)
    requires CanAfford(e, amount) && e.stamina > amount
    ensures var w := ConsumeStep(t, e, amount); !w.isExhausted && w.stamina == e.stamina - amount
  {
  }

  /**
   * Shielded, damage never touches health and costs half the amount in
   * stamina, nothing if already exhausted. Unshielded, health drops by the
   * amount, floored at 0.
   */
  lemma DamageRouting(t: StatsTuning, e: Endurance, amount: real)
    ensures var w := DamageStep(t, e, amount);
      && (e.isShielded ==> w.health == e.health && w == ConsumeStep(t, e, amount * 0.5))
      && (e.isShielded && e.isExhausted ==> w == e)
      && (!e.isShielded ==>
            w.health == (if e.health - amount <= 0.0 then 0.0 else e.health - amount)
            && w.health >= 0.0 && w.stamina == e.stamina)
  {
  }

  /** Healing leaves health at most `maxHealth` and adds the whole amount when it fits. */
  lemma HealCapped(t: StatsTuning, e: Endurance, amount: real)
    ensures var w := HealStep(t, e, amount);
      && w.health <= t.maxHealth
      && (e.health + amount <= t.maxHealth ==> w.health == e.health + amount)
      && w.stamina == e.stamina
  {
  }

  /** The player's stats component. */
  class PlayerStats {
    const maxHealth: real
    const maxStamina: real
    const staminaRegenRate: real
    const exhaustionDuration: real

    var currentHealth: real
    var currentStamina: real
    var isExhausted: bool
    var isShielded: bool
    var regenTimer: real

    function Settings(): StatsTuning
    {
      StatsTuning(maxHealth, maxStamina, staminaRegenRate, exhaustionDuration)
    }

    function View(): Endurance
      reads this
    {
      Endurance(currentHealth, currentStamina, isExhausted, isShielded, regenTimer)
    }

    /** The inspector settings followed by `Start`: full health and stamina. */
    constructor (maxHealth: real, maxStamina: real, staminaRegenRate: real, exhaustionDuration: real)
      ensures Settings() == StatsTuning(maxHealth, maxStamina, staminaRegenRate, exhaustionDuration)
      ensures View() == Endurance(maxHealth, maxStamina, false, false, 0.0)
    {
      this.maxHealth := maxHealth;
      this.maxStamina := maxStamina;
      this.staminaRegenRate := staminaRegenRate;
      this.exhaustionDuration := exhaustionDuration;
      currentHealth := maxHealth;
      currentStamina := maxStamina;
      isExhausted := false;
      isShielded := false;
      regenTimer := 0.0;
    }

    /** One frame of `Update`. */
    method HandleStaminaRegen(dt: real)
      modifies this
      ensures View() == RegenStep(Settings(), old(View()), dt)
    {
      if isExhausted {
        regenTimer := regenTimer - dt;
        if regenTimer <= 0.0 {
          isExhausted := false;
        }
        return;
      }
      if currentStamina < maxStamina {
        currentStamina := currentStamina + staminaRegenRate * dt;
        if currentStamina > maxStamina {
          currentStamina := maxStamina;
        }
      }
    }

    /** Whether an action costing `amount` may start. */
    method HasStamina(amount: real) returns (r: bool)
      ensures r <==> CanAfford(View(), amount)
      ensures r ==> !isExhausted && currentStamina >= amount
    {
      r := !isExhausted && currentStamina >= amount;
    }

    method ConsumeStamina(amount: real)
      modifies this
      ensures View() == ConsumeStep(Settings(), old(View()), amount)
    {
      if isExhausted {
        return;
      }
      currentStamina := currentStamina - amount;
      if currentStamina <= 0.0 {
        currentStamina := 0.0;
        StartExhaustion();
      }
    }

    /** Spending `amountPerSecond` over a frame of `dt` seconds. */
    method ConsumeStaminaOverTime(amountPerSecond: real, dt: real)
      modifies this
      ensures View() == ConsumeStep(Settings(), old(View()), amountPerSecond * dt)
    {
      if isExhausted {
        return;
      }
      currentStamina := currentStamina - amountPerSecond * dt;
      if currentStamina <= 0.0 {
        currentStamina := 0.0;
        StartExhaustion();
      }
    }

    method StartExhaustion()
      modifies this
      ensures View() == old(View()).(isExhausted := true, regenTimer := exhaustionDuration)
    {
      isExhausted := true;
      regenTimer := exhaustionDuration;
    }

    /** The public `isShielded` field being written. */
    method SetShielded(shielded: bool)
      modifies this
      ensures View() == old(View()).(isShielded := shielded)
    {
      isShielded := shielded;
    }

    method TakeDamage(amount: real)
      modifies this
      ensures View() == DamageStep(Settings(), old(View()), amount)
    {
      if isShielded {
        var staminaDmg := amount * 0.5;
        ConsumeStamina(staminaDmg);
        return;
      }
      currentHealth := currentHealth - amount;
      if currentHealth <= 0.0 {
        currentHealth := 0.0;
      }
    }

    method Heal(amount: real)
      modifies this
      ensures View() == HealStep(Settings(), old(View()), amount)
    {
      currentHealth := currentHealth + amount;
      if currentHealth > maxHealth {
        currentHealth := maxHealth;
      }
    }

    /** Does nothing on the player. */
    method AddShield(amount: real)
      ensures View() == old(View())
    {
    }

    /** Does nothing on the player. */
    method ApplySlow(percentage: real, duration: real)
      ensures View() == old(View())
    {
    }
  }
}
