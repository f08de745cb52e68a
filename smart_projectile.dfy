/**
 * The homing projectile (Assets/_Game/Scripts/MelodySystem/SmartProjectile.cs):
 * it homes on the first object carrying the tag its effect aims at, hits on
 * contact or once within `hitThreshold` of its target, and passes through as
 * many targets as its penetration allows.
 *
 * The scene search for a target and the steering are not modelled: `Update`
 * is given the distance to the target found, if any. A hit's `ApplyEffect`
 * only logs, so a hit makes no `IDamageable` call; the model's `HitTarget`
 * changes nothing but the penetration counter and the destroyed flag.
 */
module Projectile {
  import opened Wrappers
  import opened Combat
  import opened Builder

  /** The tag a projectile aims at: princes for Heal and Shield, enemies otherwise. */
  function TargetTagFor(effect: SpellEffect): (t: Tag)
    ensures t == Principe <==> effect.Heal? || effect.Shield?
    ensures t == Nemico <==> effect.Damage? || effect.Slow?
  {
    if effect.Heal? || effect.Shield? then Principe else Nemico
  }

  /** The part of a projectile the hits change. */
  datatype Pierce = Pierce(currentPenetration: int, destroyed: bool)

  /** One hit: pass through while penetration is left, otherwise be destroyed. */
  function HitStep(s: Pierce): Pierce
  {
    if s.currentPenetration > 0 then s.(currentPenetration := s.currentPenetration - 1)
    else s.(destroyed := true)
  }

  /** `k` hits in a row. */
  function Hits(s: Pierce, k: nat): Pierce
    decreases k
  {
    if k == 0 then s else Hits(HitStep(s), k - 1)
  }

  /**
   * A projectile with penetration `n >= 0` survives its first `n` hits, one
   * counter step each, and is destroyed by hit `n + 1`; the counter never goes
   * below 0.
   */
  lemma {:induction false} PenetrationCountdown(n: int, k: nat)
    requires n >= 0
    ensures k <= n ==> Hits(Pierce(n, false), k) == Pierce(n - k, false)
    ensures k > n ==> Hits(Pierce(n, false), k) == Pierce(0, true)
    decreases k
  {
    if k > 0 {
      if n > 0 {
        PenetrationCountdown(n - 1, k - 1);
      } else {
        StaysDestroyed(k - 1);
      }
    }
  }

  /** Once the counter is spent, further hits keep it at 0 and the projectile destroyed. */
  lemma {:induction false} StaysDestroyed(k: nat)
    ensures Hits(Pierce(0, true), k) == Pierce(0, true)
    decreases k
  {
    if k > 0 {
      StaysDestroyed(k - 1);
    }
  }

  /** A projectile in the scene. */
  class SmartProjectile {
    const hitThreshold: real

    var payload: SpellPayload
    var isInitialized: bool
    var currentPenetration: int
    var targetTag: Tag
    var destroyed: bool

    function View(): Pierce
      reads this
    {
      Pierce(currentPenetration, destroyed)
    }

    /** A freshly instantiated projectile with the inspector threshold 1.5, not yet initialised. */
    constructor ()
      ensures hitThreshold == 1.5 && !isInitialized && !destroyed
    {
      hitThreshold := 1.5;
      payload := DefaultPayload;
      isInitialized := false;
      currentPenetration := 0;
      targetTag := Other;
      destroyed := false;
    }

    /** Takes the payload: the counter starts at its penetration and the tag follows its effect. */
    method Initialize(data: SpellPayload)
      modifies this
      ensures payload == data && currentPenetration == data.penetration && isInitialized
      ensures targetTag == TargetTagFor(data.effect) && destroyed == old(destroyed)
    {
      payload := data;
      currentPenetration := data.penetration;
      isInitialized := true;
      if payload.effect == SpellEffect.Heal || payload.effect == SpellEffect.Shield {
        targetTag := Principe;
      } else {
        targetTag := Nemico;
      }
    }

    /**
     * One frame: with a target at distance `hitThreshold` or less, the target
     * is hit. Nothing happens before initialisation or without a target.
     */
    method Update(targetDistance: Option<real>)
      modifies this`currentPenetration, this`destroyed
      ensures if isInitialized && targetDistance.Some? && targetDistance.value <= hitThreshold
              then View() == HitStep(old(View())) else View() == old(View())
    {
      if !isInitialized {
        return;
      }
      if targetDistance.Some? {
        var dist := targetDistance.value;
        if dist <= hitThreshold {
          HitTarget();
          return;
        }
      }
    }

    /** A contact hits only an initialised projectile's target tag. */
    method OnTriggerEnter(other: Collider)
      modifies this`currentPenetration, this`destroyed
      ensures if isInitialized && other.tag == targetTag then View() == HitStep(old(View()))
              else View() == old(View())
    {
      if !isInitialized {
        return;
      }
      if other.tag == targetTag {
        HitTarget();
      }
    }

    /** Spends one penetration, or destroys the projectile when none is left. */
    method HitTarget()
      modifies this`currentPenetration, this`destroyed
      ensures View() == HitStep(old(View()))
    {
      if currentPenetration > 0 {
        currentPenetration := currentPenetration - 1;
      } else {
        destroyed := true;
      }
    }
  }
}
