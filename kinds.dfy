/**
 * The concrete actor classes of the game and the constants each declares.
 * Dafny has no class inheritance here, so the Java hierarchy
 * (ActiveActor > ActiveActorDestructible > FighterPlane | Projectile > ...)
 * becomes one tag per concrete class; `Actors.Actor` dispatches on it the way
 * Java's overriding does.
 */
module Kinds {

  datatype Kind =
    | UserPlaneKind        // Entities/UserPlane.java
    | EnemyPlaneKind       // Entities/EnemyPlane.java
    | BossKind             // Entities/Boss.java
    | MutationBossKind     // Entities/MutationBoss1.java (a Boss subclass)
    | UserProjectileKind   // Entities/UserProjectile.java
    | EnemyProjectileKind  // Entities/EnemyProjectile.java
    | BossProjectileKind   // Entities/BossProjectile.java
  {
    /** A subclass of FighterPlane. */
    predicate IsPlane() { UserPlaneKind? || EnemyPlaneKind? || BossKind? || MutationBossKind? }
    /** A subclass of Projectile. */
    predicate IsProjectile() { !IsPlane() }
    /** A subclass of Boss (a MutationBoss1 is one). */
    predicate IsBoss() { BossKind? || MutationBossKind? }
    /** A kind the level keeps in its enemy list. */
    predicate IsEnemy() { EnemyPlaneKind? || IsBoss() }
    /** A kind the level keeps in its enemy-projectile list. */
    predicate IsEnemyShot() { EnemyProjectileKind? || BossProjectileKind? }
  }

  // ---- UserPlane ----
  const UserInitialX: real := 5.0
  const UserInitialY: real := 300.0
  const UserUpperBound: real := -40.0
  const UserLowerBound: real := 600.0
  const UserVerticalVelocity: int := 8
  const UserProjectileXOffset: real := 110.0
  const UserProjectileYOffset: real := 20.0
  const UserImageHeight: real := 150.0
  /** The vertical hitbox offset the UserPlane constructor sets. */
  const UserHitboxOffsetY: real := 20.0

  // ---- EnemyPlane ----
  const EnemyHorizontalVelocity: int := -6
  const EnemyProjectileXOffset: real := -100.0
  const EnemyProjectileYOffset: real := 50.0
  const EnemyInitialHealth: int := 1
  const EnemyFireRate: real := 0.01
  const EnemyHitboxOffsetX: real := 40.0
  const EnemyHitboxOffsetY: real := 60.0
  const EnemyImageHeight: real := 150.0

  // ---- Boss ----
  const BossInitialX: real := 1000.0
  const BossInitialY: real := 400.0
  const BossProjectileYOffset: real := 75.0
  const BossFireRate: real := 0.04
  const BossShieldProbability: real := 0.002
  const BossImageHeight: real := 300.0
  const BossVerticalVelocity: int := 8
  const BossHealth: int := 19
  const MoveFrequencyPerCycle: nat := 5
  const MaxFramesWithSameMove: int := 10
  const BossUpperBound: real := -100.0
  const BossLowerBound: real := 475.0
  const MaxFramesWithShield: int := 500
  const BossHitboxOffsetX: real := 50.0
  const BossHitboxOffsetY: real := 100.0
  const BossShotVelocityX: real := -15.0

  // ---- MutationBoss1 ----
  const MutationHealth: int := 10
  const MutationMaxFramesWithSameMove: int := 20
  /** MutationBoss1's own vertical velocity; it has the same value as Boss's. */
  const MutationVerticalVelocity: int := 8
  const MutationFireRate: real := 0.1
  const MutationSpread: real := 50.0
  const AngledShotVelocityX: real := -12.0
  const AngledShotVelocityY: real := 5.0

  // ---- UserProjectile ----
  const UserProjectileVelocity: int := 15
  const UserProjectileHitboxOffset: real := 50.0
  const UserProjectileImageHeight: real := 125.0

  // ---- EnemyProjectile ----
  const EnemyProjectileVelocity: int := -10

  /** Length of a boss move pattern: five copies each of down, up and stay. */
  const PatternLength: nat := 3 * MoveFrequencyPerCycle
}
