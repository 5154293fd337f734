/**
 * The state of one actor apart from its health and destroyed flag, and what
 * one `updateActor()` does to it, per concrete class. `Actors.Actor` is proved
 * against `Step`; the lemmas below are what the per-class rules promise.
 */
module ActorRules {
  import opened Geometry
  import opened Kinds
  import opened Motion

  /**
   * Every field of an actor that damage leaves alone. `hitbox` is the
   * rectangle collisions use: FighterPlane's own (shadowing) rectangle for
   * planes, ActiveActor's for projectiles. `fighterOffset*` are FighterPlane's
   * offsets; `ownOffset*` are the offsets EnemyPlane, Boss (and so
   * MutationBoss1) and UserProjectile declare for themselves.
   */
  datatype Body = Body(
    layoutX: real, layoutY: real, translateX: real, translateY: real,
    hitbox: Box,
    fighterOffsetX: real, fighterOffsetY: real, ownOffsetX: real, ownOffsetY: real,
    movePattern: seq<int>, moveIndex: int, moveRun: int,
    shielded: bool, shieldFrames: int,
    velocityMultiplier: int, kills: int,
    velocityX: real, velocityY: real)

  /** The horizontal offset `updateHitbox` adds, as overridden by each class. */
  function OffsetX(k: Kind, b: Body): real
  {
    match k
    case UserPlaneKind => b.fighterOffsetX
    case EnemyPlaneKind | BossKind | MutationBossKind | UserProjectileKind => b.ownOffsetX
    case EnemyProjectileKind | BossProjectileKind => 0.0
  }

  /** The vertical offset `updateHitbox` adds, as overridden by each class. */
  function OffsetY(k: Kind, b: Body): real
  {
    match k
    case UserPlaneKind => b.fighterOffsetY
    case EnemyPlaneKind | BossKind | MutationBossKind | UserProjectileKind => b.ownOffsetY
    case EnemyProjectileKind | BossProjectileKind => 0.0
  }

  /** `updateHitbox()`: the hitbox moved to the position plus the class's offsets. */
  function Sync(k: Kind, b: Body): (r: Body)
    ensures Synced(k, r)
    ensures r.(hitbox := b.hitbox) == b
    ensures r.hitbox.width == b.hitbox.width && r.hitbox.height == b.hitbox.height
  {
    b.(hitbox := b.hitbox.MovedTo(b.layoutX + b.translateX + OffsetX(k, b), b.layoutY + b.translateY + OffsetY(k, b)))
  }

  /** The hitbox sits at the position plus the class's offsets. */
  predicate Synced(k: Kind, b: Body)
  {
    b.hitbox.x == b.layoutX + b.translateX + OffsetX(k, b)
    && b.hitbox.y == b.layoutY + b.translateY + OffsetY(k, b)
  }

  /** The invariants each class keeps between calls. */
  predicate BodyOk(k: Kind, b: Body)
  {
    match k
    case UserPlaneKind =>
      && b.velocityMultiplier in {-1, 0, 1}
      && b.kills >= 0
      && InBand(b.layoutY + b.translateY, UserUpperBound, UserLowerBound)
    case BossKind =>
      && IsMovePattern(b.movePattern)
      && BossCursorOk(Cursor(b.moveIndex, b.moveRun))
      && 0 <= b.shieldFrames < MaxFramesWithShield
      && (!b.shielded ==> b.shieldFrames == 0)
      && InBand(b.layoutY + b.translateY, BossUpperBound, BossLowerBound)
    case MutationBossKind =>
      && IsMovePattern(b.movePattern)
      && MutationCursorOk(Cursor(b.moveIndex, b.moveRun))
      && !b.shielded && b.shieldFrames == 0
      && InBand(b.layoutY + b.translateY, BossUpperBound, BossLowerBound)
    case _ => true
  }

  /** Boss.updatePosition: take the next move (reshuffling on the 10th frame of a run) and clamp it. */
  function BossMove(b: Body, shuffled: seq<int>): Body
    requires BodyOk(BossKind, b)
  {
    var move := b.movePattern[b.moveIndex];
    var c := BossAdvance(Cursor(b.moveIndex, b.moveRun));
    var pattern := if b.moveRun + 1 == MaxFramesWithSameMove then shuffled else b.movePattern;
    var ty := ClampedStep(b.layoutY, b.translateY, move as real, BossUpperBound, BossLowerBound);
    Sync(BossKind, b.(translateY := ty, movePattern := pattern, moveIndex := c.index, moveRun := c.run))
  }

  /** BossMove is the Sync of the body one clamped step and one cursor advance on. */
  lemma BossMoveFrom(b: Body, shuffled: seq<int>, after: Body)
    requires BodyOk(BossKind, b)
    requires after == b.(translateY := ClampedStep(b.layoutY, b.translateY, b.movePattern[b.moveIndex] as real, BossUpperBound, BossLowerBound),
      movePattern := if b.moveRun + 1 == MaxFramesWithSameMove then shuffled else b.movePattern,
      moveIndex := BossAdvance(Cursor(b.moveIndex, b.moveRun)).index,
      moveRun := BossAdvance(Cursor(b.moveIndex, b.moveRun)).run,
      hitbox := after.hitbox)
    requires after.hitbox.width == b.hitbox.width && after.hitbox.height == b.hitbox.height
    ensures BossMove(b, shuffled) == Sync(BossKind, after)
  {
  }

  /**
   * Boss.updateShield: a raised shield counts a frame; a lowered one is raised
   * when the draw is below 0.002; a shield that has counted 500 frames drops.
   */
  function ShieldStep(b: Body, draw: real): Body
  {
    var b1 :=
      if b.shielded then b.(shieldFrames := b.shieldFrames + 1)
      else if draw < BossShieldProbability then b.(shielded := true)
      else b;
    if b1.shieldFrames == MaxFramesWithShield then b1.(shielded := false, shieldFrames := 0) else b1
  }

  /** MutationBoss1.updatePosition: clamp the current move, then advance the cursor every 20th frame. */
  function MutationMove(b: Body): Body
    requires BodyOk(MutationBossKind, b)
  {
    var move := b.movePattern[b.moveIndex];
    var c := MutationAdvance(Cursor(b.moveIndex, b.moveRun));
    var ty := ClampedStep(b.layoutY, b.translateY, move as real, BossUpperBound, BossLowerBound);
    Sync(MutationBossKind, b.(translateY := ty, moveIndex := c.index, moveRun := c.run))
  }

  /** UserPlane.updatePosition: when moving, a clamped step of 8 * velocityMultiplier. */
  function UserMove(b: Body): Body
  {
    if b.velocityMultiplier != 0 then
      var ty := ClampedStep(b.layoutY, b.translateY, (UserVerticalVelocity * b.velocityMultiplier) as real,
                            UserUpperBound, UserLowerBound);
      Sync(UserPlaneKind, b.(translateY := ty))
    else
      Sync(UserPlaneKind, b)
  }

  /**
   * One `updateActor()` of an actor of kind k. `shuffled` is what
   * `Collections.shuffle` makes of the pattern if Boss reshuffles, and `draw`
   * is the value `Math.random()` returns if Boss's shield logic draws one;
   * the other classes use neither.
   */
  function Step(k: Kind, b: Body, shuffled: seq<int>, draw: real): Body
    requires BodyOk(k, b)
  {
    match k
    case UserPlaneKind => UserMove(b)
    case EnemyPlaneKind => Sync(k, b.(translateX := b.translateX + EnemyHorizontalVelocity as real))
    case BossKind => ShieldStep(BossMove(b, shuffled), draw)
    case MutationBossKind => MutationMove(b)
    case UserProjectileKind => Sync(k, b.(translateX := b.translateX + UserProjectileVelocity as real))
    case EnemyProjectileKind => Sync(k, b.(translateX := b.translateX + EnemyProjectileVelocity as real))
    case BossProjectileKind => Sync(k, b.(translateX := b.translateX + b.velocityX, translateY := b.translateY + b.velocityY))
  }

  /**
   * Every class keeps its invariants across an update, provided a Boss
   * reshuffle returns a permutation: pattern contents, cursor bounds, shield
   * counter below 500 and zero while the shield is down, and the vertical band.
   */
  lemma StepKeepsInvariants(k: Kind, b: Body, shuffled: seq<int>, draw: real)
    requires BodyOk(k, b)
    requires multiset(shuffled) == multiset(b.movePattern)
    ensures BodyOk(k, Step(k, b, shuffled, draw))
  {
    if k.BossKind? {
      PermutedMovePattern(b.movePattern, shuffled);
    }
  }

  /**
   * b1 is what one update makes of b0, for some reshuffle that permutes the
   * pattern and some draw.
   */
  ghost predicate Stepped(k: Kind, b0: Body, b1: Body)
  {
    BodyOk(k, b0) &&
    exists shuffled: seq<int>, draw: real :: multiset(shuffled) == multiset(b0.movePattern) && b1 == Step(k, b0, shuffled, draw)
  }

  /**
   * An update never changes the layout position, the hitbox size, the offsets,
   * the kill counter or the velocities, and leaves the hitbox in step with the
   * new position.
   */
  lemma StepFrame(k: Kind, b: Body, shuffled: seq<int>, draw: real)
    requires BodyOk(k, b)
    ensures var r := Step(k, b, shuffled, draw);
      && Synced(k, r)
      && r.layoutX == b.layoutX && r.layoutY == b.layoutY
      && r.hitbox.width == b.hitbox.width && r.hitbox.height == b.hitbox.height
      && OffsetX(k, r) == OffsetX(k, b) && OffsetY(k, r) == OffsetY(k, b)
      && r.kills == b.kills && r.velocityMultiplier == b.velocityMultiplier
      && r.velocityX == b.velocityX && r.velocityY == b.velocityY
  {
  }

  /** Whatever the reshuffle and the draw, an update keeps the frame of `StepFrame`. */
  lemma SteppedFrame(k: Kind, b0: Body, b1: Body)
    requires Stepped(k, b0, b1)
    ensures Synced(k, b1) && b1.layoutX == b0.layoutX && b1.layoutY == b0.layoutY
    ensures b1.kills == b0.kills && b1.velocityX == b0.velocityX && b1.velocityY == b0.velocityY
    ensures BodyOk(k, b1)
  {
    var shuffled: seq<int>, draw: real :| multiset(shuffled) == multiset(b0.movePattern) && b1 == Step(k, b0, shuffled, draw);
    StepFrame(k, b0, shuffled, draw);
    StepKeepsInvariants(k, b0, shuffled, draw);
  }

  /** The classes whose update is a fixed drift that uses no draw. */
  predicate Drifts(k: Kind)
  {
    k.EnemyPlaneKind? || k.IsProjectile()
  }

  /** The horizontal and vertical drift per update of a drifting class. */
  function DriftX(k: Kind, b: Body): real
    requires Drifts(k)
  {
    match k
    case EnemyPlaneKind => EnemyHorizontalVelocity as real
    case UserProjectileKind => UserProjectileVelocity as real
    case EnemyProjectileKind => EnemyProjectileVelocity as real
    case BossProjectileKind => b.velocityX
  }

  function DriftY(k: Kind, b: Body): real
    requires Drifts(k)
  {
    if k.BossProjectileKind? then b.velocityY else 0.0
  }

  /** n updates of a drifting actor. */
  function Ticks(k: Kind, b: Body, n: nat): Body
    requires Drifts(k)
  {
    if n == 0 then b else Step(k, Ticks(k, b, n - 1), [], 0.0)
  }

  /**
   * After n updates a drifting actor has moved by exactly n times its
   * velocity (-6 for EnemyPlane, +15 for UserProjectile, -10 for
   * EnemyProjectile, (velocityX, velocityY) for BossProjectile); its layout
   * never changes, and after at least one update its hitbox follows it.
   */
  lemma {:induction false} TicksDrift(k: Kind, b: Body, n: nat)
    requires Drifts(k)
    ensures var r := Ticks(k, b, n);
      && r.translateX == b.translateX + (n as real) * DriftX(k, b)
      && r.translateY == b.translateY + (n as real) * DriftY(k, b)
      && r.layoutX == b.layoutX && r.layoutY == b.layoutY
      && r.velocityX == b.velocityX && r.velocityY == b.velocityY
      && (n > 0 ==> Synced(k, r))
  {
    if n > 0 {
      TicksDrift(k, b, n - 1);
    }
  }
}
