/**
 * What one `takeDamage()` call does to an actor's health and destroyed flag,
 * per concrete class, and what n calls in a row do. These functions are the
 * specification the `Actor.TakeDamage` method and both collision passes are
 * proved against.
 */
module Damage {
  import opened Kinds

  /** The part of an actor that damage can change. */
  datatype Vitals = Vitals(health: int, destroyed: bool)

  /** FighterPlane.takeDamage: decrement with no lower guard, destroy once health <= 0. */
  function PlaneHit(v: Vitals): (r: Vitals)
    ensures r.health == v.health - 1
    ensures r.destroyed <==> v.destroyed || r.health <= 0
  {
    var h := v.health - 1;
    Vitals(h, v.destroyed || h <= 0)
  }

  /**
   * One `takeDamage()` on an actor of the given kind. `shielded` is the
   * actor's shield flag (UserPlane's or Boss's), which damage never changes.
   *  - projectiles: destroyed in one hit (Projectile.takeDamage);
   *  - EnemyPlane: FighterPlane.takeDamage;
   *  - UserPlane and Boss: no effect while shielded, else FighterPlane.takeDamage
   *    (Boss's extra destroy() when health <= 0 repeats what that already did);
   *  - MutationBoss1: no effect once health <= 0, else Boss.takeDamage.
   */
  function AfterDamage(k: Kind, shielded: bool, v: Vitals): (r: Vitals)
    ensures v.destroyed ==> r.destroyed
    ensures v.health - 1 <= r.health <= v.health
    ensures k.IsProjectile() ==> r == Vitals(v.health, true)
    ensures k.IsPlane() && r != v ==> r.health == v.health - 1 && (r.health <= 0 ==> r.destroyed)
  {
    match k
    case UserProjectileKind | EnemyProjectileKind | BossProjectileKind => Vitals(v.health, true)
    case EnemyPlaneKind => PlaneHit(v)
    case UserPlaneKind | BossKind => if shielded then v else PlaneHit(v)
    case MutationBossKind => if v.health <= 0 || shielded then v else PlaneHit(v)
  }

  /** n `takeDamage()` calls in a row. */
  function AfterDamages(k: Kind, shielded: bool, v: Vitals, n: nat): Vitals
  {
    if n == 0 then v else AfterDamage(k, shielded, AfterDamages(k, shielded, v, n - 1))
  }

  /** Shield invariant: while the shield is up, any number of hits changes nothing. */
  lemma {:induction false} ShieldBlocksEveryHit(k: Kind, v: Vitals, n: nat)
    requires k.UserPlaneKind? || k.IsBoss()
    ensures AfterDamages(k, true, v, n) == v
  {
    if n > 0 {
      ShieldBlocksEveryHit(k, v, n - 1);
    }
  }

  /**
   * An unshielded EnemyPlane, UserPlane or Boss loses exactly one health per
   * hit, with no floor, and is destroyed from the first hit that takes health
   * to 0 or below; destroyed stays set after that.
   */
  lemma {:induction false} UnguardedPlaneHits(k: Kind, v: Vitals, n: nat)
    requires k.EnemyPlaneKind? || k.UserPlaneKind? || k.BossKind?
    ensures AfterDamages(k, false, v, n).health == v.health - n
    ensures AfterDamages(k, false, v, n).destroyed <==> v.destroyed || (n > 0 && v.health - n <= 0)
  {
    if n > 0 {
      UnguardedPlaneHits(k, v, n - 1);
    }
  }

  /**
   * An unshielded MutationBoss1 with non-negative health loses one health per
   * hit until it reaches 0 and never goes below; it is destroyed exactly when
   * the hits used up its (positive) health.
   */
  lemma {:induction false} MutationBossHits(v: Vitals, n: nat)
    requires v.health >= 0
    ensures AfterDamages(MutationBossKind, false, v, n).health == if n <= v.health then v.health - n else 0
    ensures AfterDamages(MutationBossKind, false, v, n).destroyed <==> v.destroyed || (v.health > 0 && n >= v.health)
  {
    if n > 0 {
      MutationBossHits(v, n - 1);
    }
  }

  /** A projectile is destroyed by its first hit and later hits change nothing. */
  lemma {:induction false} ProjectileHits(k: Kind, v: Vitals, n: nat)
    requires k.IsProjectile()
    ensures AfterDamages(k, false, v, n) == if n == 0 then v else Vitals(v.health, true)
  {
    if n > 1 {
      ProjectileHits(k, v, n - 1);
    }
  }

  /** Damage never revives: destroyed is sticky under any number of hits. */
  lemma {:induction false} DestroyedIsSticky(k: Kind, shielded: bool, v: Vitals, n: nat)
    requires v.destroyed
    ensures AfterDamages(k, shielded, v, n).destroyed
  {
    if n > 0 {
      DestroyedIsSticky(k, shielded, v, n - 1);
    }
  }

  /** n hits followed by m hits are n + m hits. */
  lemma {:induction false} HitsCompose(k: Kind, shielded: bool, v: Vitals, n: nat, m: nat)
    ensures AfterDamages(k, shielded, AfterDamages(k, shielded, v, n), m) == AfterDamages(k, shielded, v, n + m)
  {
    if m > 0 {
      HitsCompose(k, shielded, v, n, m - 1);
    }
  }

  /** Scenario: a fresh phase-one boss (19 health, shield down) survives 18 hits and falls on the 19th. */
  lemma BossFallsOnNineteenthHit(n: nat)
    ensures AfterDamages(BossKind, false, Vitals(BossHealth, false), n).destroyed <==> n >= 19
  {
    UnguardedPlaneHits(BossKind, Vitals(BossHealth, false), n);
  }
}
