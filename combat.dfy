/**
 * Vocabulary shared by the effect resolvers: collider tags, the colliders a
 * physics query returns, the `IDamageable` calls a resolver makes
 * (Assets/_Game/Scripts/Dummyes/IDamagable.cs), the tick interval every
 * resolver derives from `tickRate`, and Unity's `Clamp01` and `Lerp`.
 */
module Combat {

  /** The tags the combat code compares against; every other tag is `Other`. */
  datatype Tag = Player | Nemico | Principe | EnemyAttack | Other

  /**
   * One result of an overlap or raycast query: the hit object's identity, its
   * tag, whether the collider is a trigger, whether an `IDamageable` was found
   * for it, and its distance from the query origin.
   */
  datatype Collider = Collider(id: nat, tag: Tag, isTrigger: bool, damageable: bool, distance: real)

  /** One call on the `IDamageable` interface. */
  datatype EffectCall =
    | TakeDamage(amount: real)
    | Heal(amount: real)
    | AddShield(amount: real)
    | ApplySlow(percentage: real, duration: real)

  /** A call made on the damageable of object `target`. */
  datatype Hit = Hit(target: nat, call: EffectCall)

  /** Enemies and princes are the targets of spells. */
  predicate IsSpellTarget(c: Collider)
  {
    c.tag == Nemico || c.tag == Principe
  }

  /** The seconds between ticks: `1 / tickRate` for a positive rate, else 99. */
  function TickInterval(tickRate: real): (r: real)
    ensures r > 0.0
    ensures tickRate > 0.0 ==> r * tickRate == 1.0
    ensures tickRate <= 0.0 ==> r == 99.0
  {
    if tickRate > 0.0 then 1.0 / tickRate else 99.0
  }

  /** A larger positive rate gives a shorter interval. */
  lemma TickIntervalAntitone(a: real, b: real)
    requires 0.0 < a < b
    ensures TickInterval(b) < TickInterval(a)
  {
    var ia, ib := TickInterval(a), TickInterval(b);
    assert ia * (b - a) > 0.0;
    assert ia * b == ia * (b - a) + ia * a;
  }

  /** The smaller of two values. */
  function Min(a: real, b: real): (r: real)
    ensures r <= a && r <= b && (r == a || r == b)
  {
    if a < b then a else b
  }

  /** `x` clamped into [0, 1]. */
  function Clamp01(x: real): (r: real)
    ensures 0.0 <= r <= 1.0
    ensures 0.0 <= x <= 1.0 ==> r == x
    ensures x < 0.0 ==> r == 0.0
    ensures x > 1.0 ==> r == 1.0
  {
    if x < 0.0 then 0.0 else if x > 1.0 then 1.0 else x
  }

  /** Clamping never reverses an order. */
  lemma Clamp01Monotone(x: real, y: real)
    requires x <= y
    ensures Clamp01(x) <= Clamp01(y)
  {
  }

  /** Interpolation from `a` to `b` with the parameter clamped into [0, 1]. */
  function Lerp(a: real, b: real, t: real): (r: real)
    ensures t <= 0.0 ==> r == a
    ensures t >= 1.0 ==> r == b
  {
    a + (b - a) * Clamp01(t)
  }

  /** A product of two non-negative values is non-negative. */
  lemma NonNegativeProduct(x: real, y: real)
    requires x >= 0.0 && y >= 0.0
    ensures x * y >= 0.0
  {
  }

  /** With `a <= b` the interpolation stays within [a, b] and never decreases in `t`. */
  lemma LerpMonotone(a: real, b: real, t1: real, t2: real)
    requires a <= b && t1 <= t2
    ensures a <= Lerp(a, b, t1) <= Lerp(a, b, t2) <= b
  {
    var c1, c2 := Clamp01(t1), Clamp01(t2);
    NonNegativeProduct(b - a, c2 - c1);
    NonNegativeProduct(b - a, 1.0 - c2);
    NonNegativeProduct(b - a, c1);
  }
}
