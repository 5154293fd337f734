/**
 * Every actor of the game: ActiveActor, ActiveActorDestructible, FighterPlane
 * and Projectile with their seven concrete subclasses, as one class whose
 * `kind` says which concrete class an object is. Each method does what the
 * Java method of that name does for that class, following its overriding.
 */
module Actors {
  import opened Geometry
  import opened Kinds
  import opened Damage
  import opened Motion
  import opened Random
  import opened ActorRules

  /** `initializeMovePattern` before the shuffle: +v, -v, 0 repeated five times. */
  method FillMovePattern(v: int) returns (p: seq<int>)
    ensures |p| == PatternLength && multiset(p) == PatternMultiset(v)
    ensures forall i :: 0 <= i < |p| ==> p[i] == [v, -v, 0][i % 3]
  {
    p := [];
    var i := 0;
    while i < MoveFrequencyPerCycle
      invariant 0 <= i <= MoveFrequencyPerCycle
      invariant |p| == 3 * i
      invariant multiset(p) == Cycles(v, i)
      invariant forall j :: 0 <= j < |p| ==> p[j] == [v, -v, 0][j % 3]
    {
      var cycle := [v, -v, 0];
      assert multiset(p + cycle) == multiset(p) + multiset{v, -v, 0};
      forall j | 0 <= j < |p + cycle|
        ensures (p + cycle)[j] == cycle[j % 3]
      {
        if j >= |p| {
          assert j - |p| == j % 3;
        }
      }
      p := p + cycle;
      i := i + 1;
    }
  }

  class Actor {
    const kind: Kind

    var layoutX: real
    var layoutY: real
    var translateX: real
    var translateY: real
    var hitbox: Box
    var fighterOffsetX: real
    var fighterOffsetY: real
    var ownOffsetX: real
    var ownOffsetY: real
    var movePattern: seq<int>
    var moveIndex: int
    var moveRun: int
    var shielded: bool
    var shieldFrames: int
    var velocityMultiplier: int
    var kills: int
    var velocityX: real
    var velocityY: real

    var health: int
    var destroyed: bool

    /** Everything but health and the destroyed flag. */
    function Fields(): Body
      reads this
    {
      Body(layoutX, layoutY, translateX, translateY, hitbox,
           fighterOffsetX, fighterOffsetY, ownOffsetX, ownOffsetY,
           movePattern, moveIndex, moveRun, shielded, shieldFrames,
           velocityMultiplier, kills, velocityX, velocityY)
    }

    /** Health and the destroyed flag. */
    function Condition(): Vitals
      reads this
    {
      Vitals(health, destroyed)
    }

    predicate Valid()
      reads this
    {
      BodyOk(kind, Fields())
    }

    /** Horizontal position on screen: layoutX + translateX. */
    function X(): real
      reads this
    {
      layoutX + translateX
    }

    /** Vertical position on screen: layoutY + translateY. */
    function Y(): real
      reads this
    {
      layoutY + translateY
    }

    /** FighterPlane.getProjectileXPosition. */
    function ProjectileX(offset: real): real
      reads this
    {
      X() + offset
    }

    /** FighterPlane.getProjectileYPosition. */
    function ProjectileY(offset: real): real
      reads this
    {
      Y() + offset
    }

    /** FighterPlane.healthAtZero. */
    predicate HealthAtZero()
      reads this
    {
      health <= 0
    }

    /** UserPlane.isShieldActive. */
    predicate IsShieldActive()
      reads this
    {
      shielded
    }

    // ---------------------------------------------------------------- constructors

    /** `new UserPlane(initialHealth)`. */
    constructor UserPlane(initialHealth: int)
      ensures kind == UserPlaneKind && Valid()
      ensures Condition() == Vitals(initialHealth, false)
      ensures layoutX == UserInitialX && layoutY == UserInitialY && translateX == 0.0 && translateY == 0.0
      ensures hitbox == Box(0.0, 0.0, UserImageHeight * 0.8, UserImageHeight * 0.5)
      ensures fighterOffsetX == 0.0 && fighterOffsetY == UserHitboxOffsetY
      ensures velocityMultiplier == 0 && kills == 0 && !shielded
    {
      kind := UserPlaneKind;
      layoutX, layoutY, translateX, translateY := UserInitialX, UserInitialY, 0.0, 0.0;
      hitbox := Box(0.0, 0.0, UserImageHeight * 0.8, UserImageHeight * 0.8);
      fighterOffsetX, fighterOffsetY, ownOffsetX, ownOffsetY := 0.0, 0.0, 0.0, 0.0;
      movePattern, moveIndex, moveRun, shielded, shieldFrames := [], 0, 0, false, 0;
      velocityMultiplier, kills, velocityX, velocityY := 0, 0, 0.0, 0.0;
      health, destroyed := initialHealth, false;
      new;
      SetHitboxSize(UserImageHeight * 0.8, UserImageHeight * 0.5);
      SetHitboxOffset(0.0, UserHitboxOffsetY);
    }

    /** `new EnemyPlane(x, y, root)`. */
    constructor EnemyPlane(x: real, y: real)
      ensures kind == EnemyPlaneKind && Valid()
      ensures Condition() == Vitals(EnemyInitialHealth, false)
      ensures layoutX == x && layoutY == y && translateX == 0.0 && translateY == 0.0
      ensures hitbox == Box(0.0, 0.0, EnemyImageHeight * 0.9, EnemyImageHeight * 0.3)
      ensures ownOffsetX == EnemyHitboxOffsetX && ownOffsetY == EnemyHitboxOffsetY
    {
      kind := EnemyPlaneKind;
      layoutX, layoutY, translateX, translateY := x, y, 0.0, 0.0;
      hitbox := Box(0.0, 0.0, EnemyImageHeight * 0.8, EnemyImageHeight * 0.8);
      fighterOffsetX, fighterOffsetY, ownOffsetX, ownOffsetY := 0.0, 0.0, EnemyHitboxOffsetX, EnemyHitboxOffsetY;
      movePattern, moveIndex, moveRun, shielded, shieldFrames := [], 0, 0, false, 0;
      velocityMultiplier, kills, velocityX, velocityY := 0, 0, 0.0, 0.0;
      health, destroyed := EnemyInitialHealth, false;
      new;
      SetHitboxSize(EnemyImageHeight * 0.9, EnemyImageHeight * 0.3);
    }

    /** `new Boss()`: 19 health, shield down, cursor at the start of a shuffled pattern. */
    constructor Boss(rng: Rng)
      modifies rng
      ensures kind == BossKind && Valid()
      ensures Condition() == Vitals(BossHealth, false)
      ensures layoutX == BossInitialX && layoutY == BossInitialY && translateX == 0.0 && translateY == 0.0
      ensures hitbox == Box(0.0, 0.0, BossImageHeight * 0.8, BossImageHeight * 0.3)
      ensures ownOffsetX == BossHitboxOffsetX && ownOffsetY == BossHitboxOffsetY
      ensures moveIndex == 0 && moveRun == 0 && !shielded && shieldFrames == 0
      ensures rng.shuffles == old(rng.shuffles) + 1 && rng.used == old(rng.used)
    {
      var initial := FillMovePattern(BossVerticalVelocity);
      var shuffled := rng.Shuffle(initial);
      kind := BossKind;
      layoutX, layoutY, translateX, translateY := BossInitialX, BossInitialY, 0.0, 0.0;
      hitbox := Box(0.0, 0.0, BossImageHeight * 0.8, BossImageHeight * 0.8);
      fighterOffsetX, fighterOffsetY, ownOffsetX, ownOffsetY := 0.0, 0.0, 0.0, 0.0;
      movePattern, moveIndex, moveRun, shielded, shieldFrames := shuffled, 0, 0, false, 0;
      velocityMultiplier, kills, velocityX, velocityY := 0, 0, 0.0, 0.0;
      health, destroyed := BossHealth, false;
      new;
      SetHitboxSize(BossImageHeight * 0.8, BossImageHeight * 0.3);
      ownOffsetX, ownOffsetY := BossHitboxOffsetX, BossHitboxOffsetY;
    }

    /**
     * `new MutationBoss1()`: Boss's set-up, which fills and shuffles Boss's
     * own (private, never read again) pattern, then health 10 (setHealth)
     * and a pattern of its own, shuffled in turn, with its cursor at 0.
     */
    constructor MutationBoss(rng: Rng)
      modifies rng
      ensures kind == MutationBossKind && Valid()
      ensures Condition() == Vitals(MutationHealth, false)
      ensures layoutX == BossInitialX && layoutY == BossInitialY && translateX == 0.0 && translateY == 0.0
      ensures hitbox == Box(0.0, 0.0, BossImageHeight * 0.8, BossImageHeight * 0.3)
      ensures ownOffsetX == BossHitboxOffsetX && ownOffsetY == BossHitboxOffsetY
      ensures moveIndex == 0 && moveRun == 0 && !shielded && shieldFrames == 0
      ensures rng.shuffles == old(rng.shuffles) + 2 && rng.used == old(rng.used)
    {
      var bossPattern := FillMovePattern(BossVerticalVelocity);
      var _ := rng.Shuffle(bossPattern);
      var initial := FillMovePattern(MutationVerticalVelocity);
      var shuffled := rng.Shuffle(initial);
      kind := MutationBossKind;
      layoutX, layoutY, translateX, translateY := BossInitialX, BossInitialY, 0.0, 0.0;
      hitbox := Box(0.0, 0.0, BossImageHeight * 0.8, BossImageHeight * 0.8);
      fighterOffsetX, fighterOffsetY, ownOffsetX, ownOffsetY := 0.0, 0.0, 0.0, 0.0;
      movePattern, moveIndex, moveRun, shielded, shieldFrames := shuffled, 0, 0, false, 0;
      velocityMultiplier, kills, velocityX, velocityY := 0, 0, 0.0, 0.0;
      health, destroyed := BossHealth, false;
      new;
      SetHitboxSize(BossImageHeight * 0.8, BossImageHeight * 0.3);
      ownOffsetX, ownOffsetY := BossHitboxOffsetX, BossHitboxOffsetY;
      SetHealth(MutationHealth);
    }

    /** `new UserProjectile(x, y, root)`: a 37.5 x 25 hitbox at (x + 50, y + 50). */
    constructor UserProjectile(x: real, y: real)
      ensures kind == UserProjectileKind && Valid() && !destroyed
      ensures layoutX == x && layoutY == y && translateX == 0.0 && translateY == 0.0
      ensures hitbox == Box(x + UserProjectileHitboxOffset, y + UserProjectileHitboxOffset,
                            UserProjectileImageHeight * 0.3, UserProjectileImageHeight * 0.2)
      ensures Synced(kind, Fields())
    {
      kind := UserProjectileKind;
      layoutX, layoutY, translateX, translateY := x, y, 0.0, 0.0;
      // ActiveActor's constructor syncs the rectangle before the offsets are initialised.
      hitbox := Box(x, y, 0.0, 0.0);
      fighterOffsetX, fighterOffsetY := 0.0, 0.0;
      ownOffsetX, ownOffsetY := UserProjectileHitboxOffset, UserProjectileHitboxOffset;
      movePattern, moveIndex, moveRun, shielded, shieldFrames := [], 0, 0, false, 0;
      velocityMultiplier, kills, velocityX, velocityY := 0, 0, 0.0, 0.0;
      health, destroyed := 0, false;
      new;
      SetHitboxSize(UserProjectileImageHeight * 0.3, UserProjectileImageHeight * 0.2);
    }

    /** `new EnemyProjectile(x, y)`: an unsized hitbox at (x, y). */
    constructor EnemyProjectile(x: real, y: real)
      ensures kind == EnemyProjectileKind && Valid() && !destroyed
      ensures layoutX == x && layoutY == y && translateX == 0.0 && translateY == 0.0
      ensures hitbox == Box(x, y, 0.0, 0.0) && Synced(kind, Fields())
    {
      kind := EnemyProjectileKind;
      layoutX, layoutY, translateX, translateY := x, y, 0.0, 0.0;
      hitbox := Box(x, y, 0.0, 0.0);
      fighterOffsetX, fighterOffsetY, ownOffsetX, ownOffsetY := 0.0, 0.0, 0.0, 0.0;
      movePattern, moveIndex, moveRun, shielded, shieldFrames := [], 0, 0, false, 0;
      velocityMultiplier, kills, velocityX, velocityY := 0, 0, 0.0, 0.0;
      health, destroyed := 0, false;
    }

    /** `new BossProjectile(x, y, vx, vy)`. */
    constructor BossProjectile(x: real, y: real, vx: real, vy: real)
      ensures kind == BossProjectileKind && Valid() && !destroyed
      ensures layoutX == x && layoutY == y && translateX == 0.0 && translateY == 0.0
      ensures velocityX == vx && velocityY == vy
      ensures hitbox == Box(x, y, 0.0, 0.0) && Synced(kind, Fields())
    {
      kind := BossProjectileKind;
      layoutX, layoutY, translateX, translateY := x, y, 0.0, 0.0;
      hitbox := Box(x, y, 0.0, 0.0);
      fighterOffsetX, fighterOffsetY, ownOffsetX, ownOffsetY := 0.0, 0.0, 0.0, 0.0;
      movePattern, moveIndex, moveRun, shielded, shieldFrames := [], 0, 0, false, 0;
      velocityMultiplier, kills, velocityX, velocityY := 0, 0, vx, vy;
      health, destroyed := 0, false;
    }

    // ---------------------------------------------------------------- ActiveActor

    /** `updateHitbox()`, as overridden by each class: the hitbox moves to the position plus offsets. */
    method UpdateHitbox()
      modifies this
      ensures Fields() == Sync(kind, old(Fields())) && Condition() == old(Condition())
    {
      hitbox := hitbox.MovedTo(X() + OffsetX(kind, Fields()), Y() + OffsetY(kind, Fields()));
    }

    /** `updateActorHitbox()`: the public entry to `updateHitbox()`, with the same effect. */
    method UpdateActorHitbox()
      modifies this
      ensures Fields() == Sync(kind, old(Fields())) && Condition() == old(Condition())
    {
      UpdateHitbox();
    }

    /**
     * `setHitboxSize(w, h)`: a plane's (FighterPlane's) version only resizes;
     * a projectile's (ActiveActor's) version resizes and then re-syncs the position.
     */
    method SetHitboxSize(w: real, h: real)
      modifies this
      ensures hitbox.width == w && hitbox.height == h
      ensures kind.IsPlane() ==> Fields() == old(Fields()).(hitbox := old(hitbox).Resized(w, h))
      ensures kind.IsProjectile() ==> Fields() == Sync(kind, old(Fields()).(hitbox := old(hitbox).Resized(w, h)))
      ensures Condition() == old(Condition())
    {
      hitbox := hitbox.Resized(w, h);
      if kind.IsProjectile() {
        UpdateHitbox();
      }
    }

    /** `setHitboxOffset(ox, oy)`: Boss's override sets its own offsets, FighterPlane's version its own. */
    method SetHitboxOffset(ox: real, oy: real)
      requires kind.IsPlane()
      modifies this
      ensures kind.IsBoss() ==> Fields() == old(Fields()).(ownOffsetX := ox, ownOffsetY := oy)
      ensures !kind.IsBoss() ==> Fields() == old(Fields()).(fighterOffsetX := ox, fighterOffsetY := oy)
      ensures Condition() == old(Condition())
    {
      if kind.IsBoss() {
        ownOffsetX, ownOffsetY := ox, oy;
      } else {
        fighterOffsetX, fighterOffsetY := ox, oy;
      }
    }

    /** `moveHorizontally(d)`: d is added to translateX, then the hitbox is re-synced. */
    method MoveHorizontally(d: real)
      modifies this
      ensures translateX == old(translateX) + d && translateY == old(translateY)
      ensures Fields() == Sync(kind, old(Fields()).(translateX := old(translateX) + d))
      ensures Condition() == old(Condition())
    {
      translateX := translateX + d;
      UpdateHitbox();
    }

    /** `moveVertically(d)`: d is added to translateY, then the hitbox is re-synced. */
    method MoveVertically(d: real)
      modifies this
      ensures translateY == old(translateY) + d && translateX == old(translateX)
      ensures Fields() == Sync(kind, old(Fields()).(translateY := old(translateY) + d))
      ensures Condition() == old(Condition())
    {
      translateY := translateY + d;
      UpdateHitbox();
    }

    // ---------------------------------------------------------------- destruction and damage

    /** `destroy()`: the flag is set, whatever it was; nothing else changes. */
    method Destroy()
      modifies this
      ensures Condition() == Vitals(old(health), true) && Fields() == old(Fields())
    {
      destroyed := true;
    }

    /** FighterPlane.takeDamage: health goes down by one, and the plane is destroyed at 0 or below. */
    method FighterTakeDamage()
      requires kind.IsPlane()
      modifies this
      ensures Condition() == PlaneHit(old(Condition())) && Fields() == old(Fields())
    {
      health := health - 1;
      if HealthAtZero() {
        Destroy();
      }
    }

    /** `takeDamage()` as each class overrides it; see `Damage.AfterDamage`. */
    method TakeDamage()
      modifies this
      ensures Condition() == AfterDamage(kind, shielded, old(Condition())) && Fields() == old(Fields())
    {
      if kind.IsProjectile() {
        Destroy();
      } else if kind == EnemyPlaneKind {
        FighterTakeDamage();
      } else if kind == UserPlaneKind {
        if !IsShieldActive() {
          FighterTakeDamage();
        }
      } else if kind == BossKind {
        BossTakeDamage();
      } else if health > 0 {
        BossTakeDamage();
        if health <= 0 {
          Destroy();
        }
      }
    }

    /** Boss.takeDamage: ignored while shielded; otherwise FighterPlane's, then destroy at 0 or below. */
    method BossTakeDamage()
      requires kind.IsBoss()
      modifies this
      ensures Condition() == (if shielded then old(Condition()) else PlaneHit(old(Condition()))) && Fields() == old(Fields())
    {
      if !shielded {
        FighterTakeDamage();
        if health <= 0 {
          Destroy();
        }
      }
    }

    /** `setHealth(h)`: only what the test asserts, that health becomes h. */
    method SetHealth(h: int)
      requires kind.IsPlane()
      modifies this
      ensures Condition() == Vitals(h, old(destroyed)) && Fields() == old(Fields())
    {
      health := h;
    }

    /** `incrementHealth()`: only what the test asserts, that health goes up by one. */
    method IncrementHealth()
      requires kind.IsPlane()
      modifies this
      ensures Condition() == Vitals(old(health) + 1, old(destroyed)) && Fields() == old(Fields())
    {
      health := health + 1;
    }

    /** BossProjectile.setVelocity: both components are replaced, and updates from now on move by them. */
    method SetVelocity(vx: real, vy: real)
      requires kind == BossProjectileKind
      modifies this
      ensures Fields() == old(Fields()).(velocityX := vx, velocityY := vy) && Condition() == old(Condition())
    {
      velocityX, velocityY := vx, vy;
    }

    // ---------------------------------------------------------------- UserPlane

    /** UserPlane.moveUp. */
    method MoveUp()
      requires kind == UserPlaneKind && Valid()
      modifies this
      ensures Valid() && Fields() == old(Fields()).(velocityMultiplier := -1) && Condition() == old(Condition())
    {
      velocityMultiplier := -1;
    }

    /** UserPlane.moveDown. */
    method MoveDown()
      requires kind == UserPlaneKind && Valid()
      modifies this
      ensures Valid() && Fields() == old(Fields()).(velocityMultiplier := 1) && Condition() == old(Condition())
    {
      velocityMultiplier := 1;
    }

    /** UserPlane.stop. */
    method Stop()
      requires kind == UserPlaneKind && Valid()
      modifies this
      ensures Valid() && Fields() == old(Fields()).(velocityMultiplier := 0) && Condition() == old(Condition())
    {
      velocityMultiplier := 0;
    }

    /** UserPlane.incrementKillCount. */
    method IncrementKillCount()
      requires kind == UserPlaneKind && Valid()
      modifies this
      ensures Valid() && Fields() == old(Fields()).(kills := old(kills) + 1) && Condition() == old(Condition())
    {
      kills := kills + 1;
    }

    /** UserPlane.activateShield: afterwards `isShieldActive()` holds. */
    method ActivateShield()
      requires kind == UserPlaneKind && Valid()
      modifies this
      ensures Valid() && IsShieldActive()
      ensures Fields() == old(Fields()).(shielded := true) && Condition() == old(Condition())
    {
      shielded := true;
    }

    /** UserPlane.deactivateShield: afterwards `isShieldActive()` does not hold. */
    method DeactivateShield()
      requires kind == UserPlaneKind && Valid()
      modifies this
      ensures Valid() && !IsShieldActive()
      ensures Fields() == old(Fields()).(shielded := false) && Condition() == old(Condition())
    {
      shielded := false;
    }

    // ---------------------------------------------------------------- Boss internals

    /**
     * Boss.getNextMove: the move under the cursor, read before the cursor
     * moves; on the 10th frame of a run the pattern is reshuffled.
     */
    method GetNextMove(rng: Rng) returns (move: int)
      requires kind == BossKind && Valid()
      modifies this, rng
      ensures move == old(movePattern[moveIndex])
      ensures Cursor(moveIndex, moveRun) == BossAdvance(old(Cursor(moveIndex, moveRun)))
      ensures old(moveRun) + 1 == MaxFramesWithSameMove ==>
        movePattern == rng.shuffler(old(rng.shuffles), old(movePattern)) && rng.shuffles == old(rng.shuffles) + 1
      ensures old(moveRun) + 1 != MaxFramesWithSameMove ==>
        movePattern == old(movePattern) && rng.shuffles == old(rng.shuffles)
      ensures rng.used == old(rng.used) && Condition() == old(Condition())
      ensures Fields() == old(Fields()).(movePattern := movePattern, moveIndex := moveIndex, moveRun := moveRun)
    {
      move := movePattern[moveIndex];
      var pattern, index, run := movePattern, moveIndex, moveRun + 1;
      if run == MaxFramesWithSameMove {
        pattern := rng.Shuffle(pattern);
        run, index := 0, index + 1;
      }
      if index == |pattern| {
        index := 0;
      }
      assert Cursor(index, run) == BossAdvance(Cursor(moveIndex, moveRun));
      movePattern, moveIndex, moveRun := pattern, index, run;
    }

    /** Boss.updateShield; see `ActorRules.ShieldStep`. A draw is made only while the shield is down. */
    method UpdateShield(rng: Rng)
      requires kind == BossKind
      modifies this, rng
      ensures Fields() == ShieldStep(old(Fields()), old(rng.Peek())) && Condition() == old(Condition())
      ensures rng.used == old(rng.used) + (if old(shielded) then 0 else 1) && rng.shuffles == old(rng.shuffles)
    {
      if shielded {
        shieldFrames := shieldFrames + 1;
      } else {
        var draw := rng.Next();
        if draw < BossShieldProbability {
          shielded := true;
        }
      }
      if shieldFrames == MaxFramesWithShield {
        shielded, shieldFrames := false, 0;
      }
    }

    // ---------------------------------------------------------------- updates

    /** UserPlane.updatePosition: when moving, a step of 8 * velocityMultiplier, rolled back outside [-40, 600]. */
    method UserPlaneUpdatePosition()
      requires kind == UserPlaneKind
      modifies this
      ensures Fields() == UserMove(old(Fields())) && Condition() == old(Condition())
    {
      if velocityMultiplier != 0 {
        var ty := translateY;
        MoveVertically((UserVerticalVelocity * velocityMultiplier) as real);
        if Y() < UserUpperBound || Y() > UserLowerBound {
          translateY := ty;
        }
      }
      UpdateHitbox();
    }

    /** Boss.updatePosition: the next move, rolled back outside [-100, 475]. */
    method BossUpdatePosition(rng: Rng)
      requires kind == BossKind && Valid()
      modifies this, rng
      ensures Fields() == BossMove(old(Fields()), old(rng.shuffler(rng.shuffles, movePattern)))
      ensures rng.used == old(rng.used)
      ensures rng.shuffles == old(rng.shuffles) + (if old(moveRun) + 1 == MaxFramesWithSameMove then 1 else 0)
      ensures Condition() == old(Condition())
    {
      ghost var b0 := Fields();
      ghost var shuffled := rng.shuffler(rng.shuffles, movePattern);
      ghost var c := BossAdvance(Cursor(moveIndex, moveRun));
      var ty := translateY;
      var move := GetNextMove(rng);
      ghost var pattern := if b0.moveRun + 1 == MaxFramesWithSameMove then shuffled else b0.movePattern;
      assert movePattern == pattern && moveIndex == c.index && moveRun == c.run;
      MoveVertically(move as real);
      if Y() < BossUpperBound || Y() > BossLowerBound {
        translateY := ty;
      }
      assert translateY == ClampedStep(layoutY, ty, move as real, BossUpperBound, BossLowerBound);
      ghost var pre := Fields();
      assert pre == b0.(translateY := translateY, movePattern := pattern, moveIndex := c.index, moveRun := c.run, hitbox := hitbox);
      BossMoveFrom(b0, shuffled, pre);
      UpdateHitbox();
    }

    /** MutationBoss1.updatePosition: the current move, rolled back outside [-100, 475]; the cursor advances every 20th frame. */
    method MutationUpdatePosition()
      requires kind == MutationBossKind && Valid()
      modifies this
      ensures Fields() == MutationMove(old(Fields())) && Condition() == old(Condition())
    {
      ghost var b0 := Fields();
      ghost var c := MutationAdvance(Cursor(moveIndex, moveRun));
      var ty := translateY;
      var move := movePattern[moveIndex];
      MoveVertically(move as real);
      if Y() < BossUpperBound || Y() > BossLowerBound {
        translateY := ty;
      }
      assert translateY == ClampedStep(layoutY, ty, move as real, BossUpperBound, BossLowerBound);
      moveRun := moveRun + 1;
      if moveRun >= MutationMaxFramesWithSameMove {
        moveRun := 0;
        moveIndex := (moveIndex + 1) % |movePattern|;
      }
      assert moveIndex == c.index && moveRun == c.run;
      assert Fields() == b0.(translateY := translateY, moveIndex := c.index, moveRun := c.run, hitbox := hitbox);
      UpdateHitbox();
    }

    /** `updatePosition()` as each class overrides it. */
    method UpdatePosition(rng: Rng)
      requires Valid()
      modifies this, rng
      ensures kind == BossKind ==>
        Fields() == BossMove(old(Fields()), old(rng.shuffler(rng.shuffles, movePattern)))
      ensures kind != BossKind ==> Fields() == Step(kind, old(Fields()), [], 0.0)
      ensures rng.used == old(rng.used)
      ensures rng.shuffles == old(rng.shuffles) + (if kind == BossKind && old(moveRun) + 1 == MaxFramesWithSameMove then 1 else 0)
      ensures Condition() == old(Condition())
    {
      if kind == UserPlaneKind {
        UserPlaneUpdatePosition();
      } else if kind == EnemyPlaneKind {
        MoveHorizontally(EnemyHorizontalVelocity as real);
        UpdateHitbox();
      } else if kind == BossKind {
        BossUpdatePosition(rng);
      } else if kind == MutationBossKind {
        MutationUpdatePosition();
      } else if kind == UserProjectileKind {
        MoveHorizontally(UserProjectileVelocity as real);
        UpdateHitbox();
      } else if kind == EnemyProjectileKind {
        MoveHorizontally(EnemyProjectileVelocity as real);
      } else {
        MoveHorizontally(velocityX);
        MoveVertically(velocityY);
      }
    }

    /**
     * `updateActor()`: for every class its `updatePosition()`, and for Boss
     * (not MutationBoss1) `updateShield()` after it. The result is `Step` of the
     * old fields, given the shuffle and the draw this update consumes, and the
     * class invariants still hold.
     */
    method UpdateActor(rng: Rng)
      requires Valid()
      modifies this, rng
      ensures Valid() && Condition() == old(Condition())
      ensures Fields() == Step(kind, old(Fields()), old(rng.shuffler(rng.shuffles, movePattern)), old(rng.Peek()))
      ensures Stepped(kind, old(Fields()), Fields())
      ensures kind != BossKind ==> rng.used == old(rng.used) && rng.shuffles == old(rng.shuffles)
    {
      ghost var b0 := Fields();
      ghost var shuffled := rng.shuffler(rng.shuffles, movePattern);
      ghost var draw := rng.Peek();
      UpdatePosition(rng);
      if kind == BossKind {
        UpdateShield(rng);
      }
      StepKeepsInvariants(kind, b0, shuffled, draw);
    }

    // ---------------------------------------------------------------- firing

    /**
     * `fireProjectile()` of UserPlane, EnemyPlane and Boss (MutationBoss1
     * inherits Boss's). UserPlane always fires, at (layoutX + 110,
     * layoutY + translateY + 20), ignoring translateX. EnemyPlane fires when
     * the draw is below 0.01, at its position + (-100, 50). A boss fires
     * when the draw is below 0.04, a shot at (x, y + 75) with velocity (-15, 0).
     */
    method FireProjectile(rng: Rng) returns (p: Actor?)
      requires kind.IsPlane()
      modifies rng
      ensures p != null ==> fresh(p) && !p.destroyed && p.Valid() && Synced(p.kind, p.Fields())
      ensures kind == UserPlaneKind ==>
        && rng.used == old(rng.used)
        && p != null && p.kind == UserProjectileKind
        && p.layoutX == layoutX + UserProjectileXOffset && p.layoutY == Y() + UserProjectileYOffset
      ensures kind == EnemyPlaneKind ==>
        && rng.used == old(rng.used) + 1
        && (p != null <==> old(rng.Peek()) < EnemyFireRate)
        && (p != null ==> p.kind == EnemyProjectileKind
                          && p.layoutX == X() + EnemyProjectileXOffset && p.layoutY == Y() + EnemyProjectileYOffset)
      ensures kind.IsBoss() ==>
        && rng.used == old(rng.used) + 1
        && (p != null <==> old(rng.Peek()) < BossFireRate)
        && (p != null ==> p.kind == BossProjectileKind
                          && p.layoutX == X() && p.layoutY == Y() + BossProjectileYOffset
                          && p.velocityX == BossShotVelocityX && p.velocityY == 0.0)
      ensures rng.shuffles == old(rng.shuffles)
    {
      if kind == UserPlaneKind {
        p := new Actor.UserProjectile(layoutX + UserProjectileXOffset, ProjectileY(UserProjectileYOffset));
      } else if kind == EnemyPlaneKind {
        var draw := rng.Next();
        if draw < EnemyFireRate {
          p := new Actor.EnemyProjectile(ProjectileX(EnemyProjectileXOffset), ProjectileY(EnemyProjectileYOffset));
        } else {
          p := null;
        }
      } else {
        var draw := rng.Next();
        if draw < BossFireRate {
          p := new Actor.BossProjectile(X(), Y() + BossProjectileYOffset, BossShotVelocityX, 0.0);
        } else {
          p := null;
        }
      }
    }

    /**
     * MutationBoss1.fireProjectile(root, enemyProjectiles): when the draw is
     * below 0.1, three boss shots are appended in this order: straight from
     * (x, y + 75) at (-15, 0), then from 50 higher at (-12, -5), then from 50
     * lower at (-12, 5); otherwise the list is unchanged.
     */
    method FireVolley(rng: Rng, shots: seq<Actor>) returns (result: seq<Actor>)
      requires kind == MutationBossKind
      modifies rng
      ensures rng.used == old(rng.used) + 1 && rng.shuffles == old(rng.shuffles)
      ensures old(rng.Peek()) >= MutationFireRate ==> result == shots
      ensures old(rng.Peek()) < MutationFireRate ==>
        && |result| == |shots| + 3 && result[..|shots|] == shots
        && (forall i :: |shots| <= i < |result| ==>
              fresh(result[i]) && result[i].kind == BossProjectileKind && !result[i].destroyed
              && result[i].Valid() && Synced(result[i].kind, result[i].Fields())
              && result[i].layoutX == X())
        && result[|shots|].layoutY == Y() + BossProjectileYOffset
        && result[|shots|].velocityX == BossShotVelocityX && result[|shots|].velocityY == 0.0
        && result[|shots| + 1].layoutY == Y() + BossProjectileYOffset - MutationSpread
        && result[|shots| + 1].velocityX == AngledShotVelocityX && result[|shots| + 1].velocityY == -AngledShotVelocityY
        && result[|shots| + 2].layoutY == Y() + BossProjectileYOffset + MutationSpread
        && result[|shots| + 2].velocityX == AngledShotVelocityX && result[|shots| + 2].velocityY == AngledShotVelocityY
        && result[|shots|] != result[|shots| + 1] && result[|shots|] != result[|shots| + 2]
        && result[|shots| + 1] != result[|shots| + 2]
    {
      var draw := rng.Next();
      result := shots;
      if draw < MutationFireRate {
        var x := X();
        var y := Y() + BossProjectileYOffset;
        var straight := new Actor.BossProjectile(x, y, BossShotVelocityX, 0.0);
        var up := new Actor.BossProjectile(x, y - MutationSpread, AngledShotVelocityX, -AngledShotVelocityY);
        var down := new Actor.BossProjectile(x, y + MutationSpread, AngledShotVelocityX, AngledShotVelocityY);
        result := result + [straight] + [up] + [down];
      }
    }
  }
}
