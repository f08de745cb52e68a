/**
 * The guard bubble (Assets/_Game/Scripts/Player/ParryShield.cs): a hostile
 * contact within the parry window after the bubble appears is a perfect
 * parry that counters for `counterDamage`; after the window it is a plain
 * block, which destroys enemy projectiles.
 *
 * The owner's `OnParrySuccess` and `OnShieldHit` are not shown in the code
 * modelled here, so the response only says whether each is called. Knockback
 * forces, VFX and the bubble's colour are not modelled.
 */
module Parry {
  import opened Combat

  /** What a contact is taken as. */
  datatype Outcome = Ignored | Parried | Blocked

  /** Everything a contact does. */
  datatype Response = Response(outcome: Outcome, calls: seq<Hit>, destroysOther: bool,
                               notifiesParry: bool, notifiesBlock: bool)

  /** How a contact with a collider tagged `tag` is taken `age` seconds after the bubble appeared. */
  function Classify(tag: Tag, age: real, window: real): (o: Outcome)
    ensures o == Ignored <==> tag != Nemico && tag != EnemyAttack
    ensures o == Parried <==> (tag == Nemico || tag == EnemyAttack) && age <= window
    ensures o == Blocked <==> (tag == Nemico || tag == EnemyAttack) && age > window
  {
    if tag == Player || (tag != Nemico && tag != EnemyAttack) then Ignored
    else if age <= window then Parried
    else Blocked
  }

  /** The whole response to a contact with `other`. */
  function Respond(other: Collider, age: real, window: real, counterDamage: real, hasOwner: bool): Response
  {
    match Classify(other.tag, age, window)
    case Ignored => Response(Ignored, [], false, false, false)
    case Parried =>
      Response(Parried, if other.damageable then [Hit(other.id, TakeDamage(counterDamage))] else [],
               false, hasOwner, false)
    case Blocked => Response(Blocked, [], other.tag == EnemyAttack, false, hasOwner)
  }

  /**
   * A parry deals exactly `counterDamage` to the damageable it met, and
   * nothing else; a block deals no damage and destroys the contact exactly
   * when it is an enemy attack; an ignored contact does nothing at all.
   */
  lemma ResponseEffects(other: Collider, age: real, window: real, counterDamage: real, hasOwner: bool)
    ensures var r := Respond(other, age, window, counterDamage, hasOwner);
      && (r.outcome == Parried ==>
            r.calls == (if other.damageable then [Hit(other.id, TakeDamage(counterDamage))] else [])
            && !r.destroysOther && r.notifiesParry == hasOwner && !r.notifiesBlock)
      && (r.outcome == Blocked ==>
            r.calls == [] && (r.destroysOther <==> other.tag == EnemyAttack)
            && r.notifiesBlock == hasOwner && !r.notifiesParry)
      && (r.outcome == Ignored ==> r == Response(Ignored, [], false, false, false))
      && r.outcome == Classify(other.tag, age, window)
  {
  }

  /** The window's end is still a parry, and a later contact is a block: the boundary is inclusive. */
  lemma WindowBoundaryInclusive(tag: Tag, window: real)
    requires tag == Nemico || tag == EnemyAttack
    ensures Classify(tag, window, window) == Parried
    ensures forall age | age > window :: Classify(tag, age, window) == Blocked
  {
  }

  /** A bubble in the scene. */
  class ParryShield {
    const counterDamage: real

    var hasOwner: bool
    var creationTime: real
    var parryWindowDuration: real

    /** A freshly instantiated bubble with the inspector counter damage 80. */
    constructor ()
      ensures counterDamage == 80.0 && !hasOwner
    {
      counterDamage := 80.0;
      hasOwner := false;
      creationTime := 0.0;
      parryWindowDuration := 0.0;
    }

    /** Called by the player on creation: the window starts `now`. */
    method Setup(hasOwner: bool, parryWindow: real, now: real)
      modifies this
      ensures this.hasOwner == hasOwner && parryWindowDuration == parryWindow && creationTime == now
    {
      this.hasOwner := hasOwner;
      parryWindowDuration := parryWindow;
      creationTime := now;
    }

    /** A contact with `other` at time `now`. */
    method OnTriggerEnter(other: Collider, now: real) returns (r: Response)
      ensures r == Respond(other, now - creationTime, parryWindowDuration, counterDamage, hasOwner)
    {
      if other.tag == Player || (other.tag != Nemico && other.tag != EnemyAttack) {
        return Response(Ignored, [], false, false, false);
      }
      var age := now - creationTime;
      if age <= parryWindowDuration {
        var calls := PerformCounter(other);
        r := Response(Parried, calls, false, hasOwner, false);
      } else {
        var destroy := PerformBlock(other);
        r := Response(Blocked, [], destroy, false, hasOwner);
      }
    }

    /** The counter: `counterDamage` to the enemy's damageable, if it has one. */
    method PerformCounter(enemy: Collider) returns (calls: seq<Hit>)
      ensures enemy.damageable ==> calls == [Hit(enemy.id, TakeDamage(counterDamage))]
      ensures !enemy.damageable ==> calls == []
    {
      calls := [];
      if enemy.damageable {
        calls := [Hit(enemy.id, TakeDamage(counterDamage))];
      }
    }

    /** The block: whether the blocked object is destroyed, which it is exactly when it is an enemy attack. */
    method PerformBlock(enemy: Collider) returns (destroy: bool)
      ensures destroy <==> enemy.tag == EnemyAttack
    {
      destroy := enemy.tag == EnemyAttack;
    }
  }
}
