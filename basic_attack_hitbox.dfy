/**
 * The melee swing's hitbox (Assets/_Game/Scripts/Player/BaseAttackHitbox.cs):
 * every solid, non-player object it touches takes `damageAmount` once per
 * swing, kept so by the list of objects already hit.
 *
 * An object's `damageable` flag says whether an `IDamageable` was found on it
 * or on a parent; the damage is reported against the touched object. The
 * knockback impulse is not modelled.
 */
module Hitbox {
  import opened Combat

  /** Whether a contact is ignored outright: the player and trigger colliders. */
  predicate IgnoredContact(other: Collider)
  {
    other.tag == Player || other.isTrigger
  }

  /** The list after one contact with `other`, and the calls that contact makes. */
  function Contact(hit: seq<nat>, damage: real, other: Collider): (seq<nat>, seq<Hit>)
  {
    if IgnoredContact(other) || other.id in hit || !other.damageable then (hit, [])
    else (hit + [other.id], [Hit(other.id, TakeDamage(damage))])
  }

  /** The objects hit and the calls made over a swing's contacts, starting from the list `hit`. */
  function Swing(hit: seq<nat>, damage: real, contacts: seq<Collider>): (seq<nat>, seq<Hit>)
  {
    if contacts == [] then (hit, [])
    else
      var (h, calls) := Swing(hit, damage, contacts[..|contacts| - 1]);
      var (h', more) := Contact(h, damage, contacts[|contacts| - 1]);
      (h', calls + more)
  }

  /**
   * Over a whole swing from an empty list, no object is damaged twice, every
   * call is `TakeDamage(damage)`, the list holds exactly the objects damaged,
   * in order, and every one of them was a solid, non-player, damageable contact.
   */
  lemma {:induction false} HitOncePerSwing(damage: real, contacts: seq<Collider>)
    ensures var (h, calls) := Swing([], damage, contacts);
      && |h| == |calls|
      && (forall k | 0 <= k < |calls| :: calls[k] == Hit(h[k], TakeDamage(damage)))
      && (forall j, k | 0 <= j < k < |h| :: h[j] != h[k])
      && (forall k | 0 <= k < |h| :: exists i | 0 <= i < |contacts| ::
            contacts[i].id == h[k] && !IgnoredContact(contacts[i]) && contacts[i].damageable)
  {
    if contacts != [] {
      var init := contacts[..|contacts| - 1];
      HitOncePerSwing(damage, init);
      var (h0, c0) := Swing([], damage, init);
      var (h, calls) := Swing([], damage, contacts);
      forall k | 0 <= k < |h|
        ensures exists i | 0 <= i < |contacts| ::
          contacts[i].id == h[k] && !IgnoredContact(contacts[i]) && contacts[i].damageable
      {
        if k < |h0| {
          var i :| 0 <= i < |init| && init[i].id == h0[k] && !IgnoredContact(init[i]) && init[i].damageable;
          assert contacts[i] == init[i];
        } else {
          assert h[k] == contacts[|contacts| - 1].id;
        }
      }
    }
  }

  /** Touching an object a second time in the same swing changes nothing. */
  lemma SecondContactIgnored(hit: seq<nat>, damage: real, contacts: seq<Collider>, other: Collider)
    requires other.id in Swing(hit, damage, contacts).0
    ensures Swing(hit, damage, contacts + [other]) == Swing(hit, damage, contacts)
  {
    assert (contacts + [other])[..|contacts|] == contacts;
    var calls := Swing(hit, damage, contacts).1;
    assert calls + [] == calls;
  }

  /** A swing's hitbox. */
  class BasicAttackHitbox {
    var damageAmount: real
    var knockbackAmount: real
    var hitTargets: seq<nat>

    /** A freshly instantiated hitbox with an empty list. */
    constructor ()
      ensures hitTargets == []
    {
      damageAmount := 0.0;
      knockbackAmount := 0.0;
      hitTargets := [];
    }

    /** Arms the hitbox for a swing: stores damage and knockback and empties the list. */
    method Setup(damage: real, knockback: real)
      modifies this
      ensures damageAmount == damage && knockbackAmount == knockback && hitTargets == []
    {
      damageAmount := damage;
      knockbackAmount := knockback;
      hitTargets := [];
    }

    /** One contact: a fresh, solid, non-player object with a damageable takes the damage and is listed. */
    method OnTriggerEnter(other: Collider) returns (calls: seq<Hit>)
      modifies this`hitTargets
      ensures (hitTargets, calls) == Contact(old(hitTargets), damageAmount, other)
    {
      calls := [];
      if other.tag == Player || other.isTrigger {
        return;
      }
      if other.id in hitTargets {
        return;
      }
      if other.damageable {
        calls := [Hit(other.id, TakeDamage(damageAmount))];
        hitTargets := hitTargets + [other.id];
      }
    }

    /** A run of contacts through `OnTriggerEnter`, as the physics engine delivers them during a swing. */
    method Contacts(contacts: seq<Collider>) returns (calls: seq<Hit>)
      modifies this`hitTargets
      ensures (hitTargets, calls) == Swing(old(hitTargets), damageAmount, contacts)
    {
      calls := [];
      var i := 0;
      while i < |contacts|
        invariant 0 <= i <= |contacts|
        invariant (hitTargets, calls) == Swing(old(hitTargets), damageAmount, contacts[..i])
      {
        assert contacts[..i + 1][..i] == contacts[..i];
        var more := OnTriggerEnter(contacts[i]);
        calls := calls + more;
        i := i + 1;
      }
      assert contacts[..|contacts|] == contacts;
    }
  }
}
