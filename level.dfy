/**
 * A level: LevelParent with the parts of LevelOne, LevelTwo and LevelThree
 * that differ, selected by `stage`. The tick `UpdateScene` runs the steps
 * in the order the game loop runs them; each step is a method proved
 * against the functions of `LevelRules` and `ActorLists`.
 */
module Levels {
  import opened Geometry
  import opened Kinds
  import opened Damage
  import opened Lists
  import opened Random
  import opened ActorRules
  import opened Actors
  import opened Hearts
  import opened LevelViews
  import opened Collisions
  import opened ActorLists
  import opened LevelRules

  /** The height `Math.random() * maxY` puts a spawned object at, for the draw r. */
  function SpawnY(r: real, maxY: real): real
  {
    r * maxY
  }

  /** y is the spawn height for some draw in [0, 1). */
  ghost predicate SpawnHeight(y: real, maxY: real)
  {
    exists r: real :: 0.0 <= r < 1.0 && y == SpawnY(r, maxY)
  }

  function Max(a: int, b: int): int
  {
    if a < b then b else a
  }

  /** The icons shown after collecting `gained` hearts: topped up to the new health when any was collected. */
  function Topped(shown: int, health: int, gained: nat): int
  {
    if gained == 0 then shown else Max(shown, health + gained)
  }

  /** What `destroy()` on a penetrating actor does to its health and flag. */
  function Struck(v: Vitals, penetrated: bool): Vitals
  {
    if penetrated then Vitals(v.health, true) else v
  }

  const EnemyKinds: set<Kind> := {EnemyPlaneKind, BossKind, MutationBossKind}
  const ShotKinds: set<Kind> := {EnemyProjectileKind, BossProjectileKind}

  /** s holds each actor once, each of one of the given classes. */
  predicate AllOf(s: seq<Actor>, kinds: set<Kind>)
  {
    NoDuplicates(s) && forall k :: 0 <= k < |s| ==> s[k].kind in kinds
  }

  /** Every actor of s keeps its class invariant. */
  ghost predicate AllValid(s: seq<Actor>)
    reads s
  {
    forall k :: 0 <= k < |s| ==> s[k].Valid()
  }

  /** Removing destroyed actors keeps a list's shape and invariants. */
  lemma SurvivorsKeep(s: seq<Actor>, kinds: set<Kind>)
    requires AllOf(s, kinds)
    ensures AllOf(Survivors(s), kinds)
    ensures AllValid(s) ==> AllValid(Survivors(s))
    ensures forall k :: 0 <= k < |Survivors(s)| ==> Survivors(s)[k] in s
  {
    SurvivorsKeepNoDuplicates(s);
    SurvivorsFromList(s);
  }

  /** Dropping off-screen actors keeps a list's shape. */
  lemma OnScreenKeeps(s: seq<Actor>, kinds: set<Kind>, kept: seq<Actor>)
    requires AllOf(s, kinds) && kept == OnScreen(s)
    ensures AllOf(kept, kinds)
    ensures forall a :: a in kept ==> a in s
  {
    OnScreenKeepsNoDuplicates(s);
    OnScreenFromList(s);
  }

  /** The add-if-absent guard keeps a list's shape and invariants. */
  lemma AddKeeps(s: seq<Actor>, x: Actor, kinds: set<Kind>)
    requires AllOf(s, kinds) && x.kind in kinds
    ensures AllOf(AddIfAbsent(s, x), kinds)
    ensures AllValid(s) && x.Valid() ==> AllValid(AddIfAbsent(s, x))
  {
    AddIfAbsentKeepsNoDuplicates(s, x);
  }

  /** Two lists of disjoint classes share no actor, so their concatenation has no duplicates. */
  lemma {:induction false} Concatenated(s: seq<Actor>, t: seq<Actor>, ks: set<Kind>, kt: set<Kind>)
    requires AllOf(s, ks) && AllOf(t, kt) && ks !! kt
    ensures AllOf(s + t, ks + kt)
  {
    forall i, j | 0 <= i < j < |s + t|
      ensures (s + t)[i] != (s + t)[j]
    {
      if j < |s| {
        assert (s + t)[i] == s[i] && (s + t)[j] == s[j];
      } else if i >= |s| {
        assert (s + t)[i] == t[i - |s|] && (s + t)[j] == t[j - |s|];
      } else {
        assert (s + t)[i].kind in ks && (s + t)[j].kind in kt;
      }
    }
  }

  /** An actor of a class a list does not hold is not in it. */
  lemma Outside(x: Actor, t: seq<Actor>, kt: set<Kind>)
    requires AllOf(t, kt) && x.kind !in kt
    ensures x !in t
  {
  }

  /** A freshly spawned enemy plane: full health, at the right edge x, at a spawn height below maxY. */
  ghost predicate Newcomer(a: Actor, x: real, maxY: real)
    reads a
  {
    && a.kind == EnemyPlaneKind && a.Condition() == Vitals(EnemyInitialHealth, false)
    && a.layoutX == x && SpawnHeight(a.layoutY, maxY)
  }

  /** The flag of an entry depends on the entry only. */
  predicate ByEntry<T(==)>(s: seq<T>, flags: seq<bool>)
    requires |flags| == |s|
  {
    forall a, b :: 0 <= a < |s| && 0 <= b < |s| && s[a] == s[b] ==> flags[a] == flags[b]
  }

  /** For each heart of hs, in list order, whether its bounds meet the box. */
  function Touches(hs: seq<Heart>, box: Box): (r: seq<bool>)
    reads hs
    ensures |r| == |hs| && forall i :: 0 <= i < |hs| ==> r[i] == Intersects(box, hs[i].Bounds())
    ensures ByEntry(hs, r)
  {
    if hs == [] then [] else [Intersects(box, hs[0].Bounds())] + Touches(hs[1..], box)
  }

  /**
   * The hearts a collection pass keeps are those whose bounds miss the box,
   * each of them, in list order; none is collected exactly when no heart
   * meets the box.
   */
  lemma Collection(hs: seq<Heart>, box: Box)
    ensures forall h :: h in Unflagged(hs, Touches(hs, box), |hs|) ==> h in hs && !Intersects(box, h.Bounds())
    ensures forall i :: 0 <= i < |hs| && !Intersects(box, hs[i].Bounds()) ==> hs[i] in Unflagged(hs, Touches(hs, box), |hs|)
    ensures Trues(Touches(hs, box), |hs|) == 0 <==> forall i :: 0 <= i < |hs| ==> !Intersects(box, hs[i].Bounds())
  {
    var hit := Touches(hs, box);
    UnflaggedHas(hs, hit, |hs|);
    TruesNone(hit, |hs|);
  }

  /** With flags that depend on the heart only, a heart is among the flagged ones exactly when its own flag is set. */
  lemma Collected(hs: seq<Heart>, hit: seq<bool>, j: nat)
    requires |hit| == |hs| && j < |hs| && ByEntry(hs, hit)
    ensures hs[j] in Flagged(hs, hit, |hs|) <==> hit[j]
  {
    FlaggedHas(hs, hit, |hs|, hs[j]);
  }

  /** The list discipline of a level, on the lists themselves. */
  predicate Cast(friendly: seq<Actor>, enemies: seq<Actor>, shots: seq<Actor>, enemyShots: seq<Actor>,
                 user: Actor, boss: Actor?, mutation: Actor?)
  {
    && user.kind == UserPlaneKind
    && AllOf(friendly, {UserPlaneKind}) && (forall k :: 0 <= k < |friendly| ==> friendly[k] == user)
    && AllOf(enemies, EnemyKinds)
    && (forall k :: 0 <= k < |enemies| ==> Recruit(enemies[k], boss, mutation))
    && AllOf(shots, {UserProjectileKind})
    && AllOf(enemyShots, ShotKinds)
    && (boss != null ==> boss.kind == BossKind && mutation != null && mutation.kind == MutationBossKind)
  }

  /** An actor a level may hold as an enemy: a plain enemy plane, or one of its own bosses. */
  predicate Recruit(x: Actor, boss: Actor?, mutation: Actor?)
  {
    x.kind == EnemyPlaneKind || (boss != null && (x == boss || x == mutation))
  }

  /** Adding a recruit to the enemy list keeps the list discipline. */
  lemma Enlisted(friendly: seq<Actor>, enemies: seq<Actor>, shots: seq<Actor>, enemyShots: seq<Actor>,
                 user: Actor, boss: Actor?, mutation: Actor?, x: Actor)
    requires Cast(friendly, enemies, shots, enemyShots, user, boss, mutation) && Recruit(x, boss, mutation)
    ensures Cast(friendly, AddIfAbsent(enemies, x), shots, enemyShots, user, boss, mutation)
  {
    AddKeeps(enemies, x, EnemyKinds);
  }

  /** Dropping the destroyed actors of every list keeps the list discipline. */
  lemma Culled(friendly: seq<Actor>, enemies: seq<Actor>, shots: seq<Actor>, enemyShots: seq<Actor>,
               user: Actor, boss: Actor?, mutation: Actor?,
               friendly': seq<Actor>, enemies': seq<Actor>, shots': seq<Actor>, enemyShots': seq<Actor>)
    requires Cast(friendly, enemies, shots, enemyShots, user, boss, mutation)
    requires friendly' == Survivors(friendly) && enemies' == Survivors(enemies)
    requires shots' == Survivors(shots) && enemyShots' == Survivors(enemyShots)
    ensures Cast(friendly', enemies', shots', enemyShots', user, boss, mutation)
    ensures forall k :: 0 <= k < |enemies'| ==> enemies'[k] in enemies
    ensures forall k :: 0 <= k < |shots'| ==> shots'[k] in shots
    ensures forall k :: 0 <= k < |enemyShots'| ==> enemyShots'[k] in enemyShots
  {
    SurvivorsKeep(friendly, {UserPlaneKind});
    SurvivorsKeep(enemies, EnemyKinds);
    SurvivorsKeep(shots, {UserProjectileKind});
    SurvivorsKeep(enemyShots, ShotKinds);
  }

  /** Dropping the destroyed enemies keeps the list discipline. */
  lemma Thinned(friendly: seq<Actor>, enemies: seq<Actor>, shots: seq<Actor>, enemyShots: seq<Actor>,
                user: Actor, boss: Actor?, mutation: Actor?, enemies': seq<Actor>)
    requires Cast(friendly, enemies, shots, enemyShots, user, boss, mutation) && enemies' == Survivors(enemies)
    ensures Cast(friendly, enemies', shots, enemyShots, user, boss, mutation)
  {
    SurvivorsKeep(enemies, EnemyKinds);
  }

  /** A live enemy shot. */
  ghost predicate Shot(a: Actor)
    reads a
  {
    a.kind in ShotKinds && !a.destroyed
  }

  /**
   * The per-enemy body of `generateEnemyFire`: a mutation boss appends its
   * volley or nothing, any other enemy its one shot or nothing.
   */
  method EnemyFires(enemy: Actor, rng: Rng, shots: seq<Actor>) returns (next: seq<Actor>)
    requires enemy.kind.IsEnemy() && NoDuplicates(shots)
    modifies rng
    ensures |shots| <= |next| && next[..|shots|] == shots && NoDuplicates(next)
    ensures |next| == |shots| || |next| == |shots| + VolleySize(enemy.kind)
    ensures forall k :: |shots| <= k < |next| ==> fresh(next[k]) && Shot(next[k])
  {
    if enemy.kind == MutationBossKind {
      next := enemy.FireVolley(rng, shots);
    } else {
      var projectile := enemy.FireProjectile(rng);
      if projectile != null {
        next := shots + [projectile];
      } else {
        next := shots;
      }
    }
  }

  /** Appending enemy shots to the enemy-projectile list keeps the list discipline. */
  lemma Rearmed(friendly: seq<Actor>, enemies: seq<Actor>, shots: seq<Actor>, enemyShots: seq<Actor>, more: seq<Actor>,
                user: Actor, boss: Actor?, mutation: Actor?)
    requires Cast(friendly, enemies, shots, enemyShots, user, boss, mutation)
    requires |enemyShots| <= |more| && more[..|enemyShots|] == enemyShots && NoDuplicates(more)
    requires forall k :: |enemyShots| <= k < |more| ==> more[k].kind in ShotKinds
    ensures Cast(friendly, enemies, shots, more, user, boss, mutation)
  {
    assert forall k :: 0 <= k < |enemyShots| ==> more[k] == enemyShots[k];
  }

  /** `hearts.removeAll(collected)`, where collected holds the flagged hearts and the flags depend on the heart only. */
  method RemoveCollected(hs: seq<Heart>, collected: seq<Heart>, ghost hit: seq<bool>) returns (kept: seq<Heart>)
    requires |hit| == |hs| && ByEntry(hs, hit) && collected == Flagged(hs, hit, |hs|)
    ensures kept == Unflagged(hs, hit, |hs|)
  {
    kept := [];
    var j := 0;
    while j < |hs|
      invariant 0 <= j <= |hs|
      invariant kept == Unflagged(hs, hit, j)
    {
      Collected(hs, hit, j);
      if hs[j] !in collected {
        kept := kept + [hs[j]];
      }
      j := j + 1;
    }
  }

  class Level {
    const stage: Stage
    const screenHeight: real
    const screenWidth: real
    const enemyMaxY: real
    /** The width of a collectible heart's image once scaled to its height. */
    const heartWidth: real
    const user: Actor
    /** LevelThree's two bosses; null on the other levels. */
    const boss: Actor?
    const mutation: Actor?
    const view: LevelView

    var friendlyUnits: seq<Actor>
    var enemyUnits: seq<Actor>
    var userProjectiles: seq<Actor>
    var enemyProjectiles: seq<Actor>
    var hearts: seq<Heart>
    var currentNumberOfEnemies: int
    var isLevelSwitching: bool
    var pendingLevel: Option<string>
    var announced: seq<string>
    var isPaused: bool
    var timeline: Status
    var isSceneInitialized: bool

    function State(): LevelState
      reads this, view
    {
      LevelState(friendlyUnits, enemyUnits, userProjectiles, enemyProjectiles, hearts,
                 currentNumberOfEnemies, isLevelSwitching, pendingLevel, announced,
                 isPaused, timeline, isSceneInitialized, view.root)
    }

    /** The four actor lists in the order the tick updates them. */
    function Everyone(): seq<Actor>
      reads this
    {
      friendlyUnits + enemyUnits + userProjectiles + enemyProjectiles
    }

    /**
     * The user is the only friendly unit; each list holds actors of its own
     * classes once each (so no actor is in two lists), and the only enemies
     * other than plain enemy planes are the bosses; the bosses exist exactly
     * on LevelThree; the latch agrees with the scheduled switch.
     */
    predicate Shape()
      reads this
    {
      && Cast(friendlyUnits, enemyUnits, userProjectiles, enemyProjectiles, user, boss, mutation)
      && (stage == LevelThree <==> boss != null)
      && (isLevelSwitching <==> pendingLevel.Some?)
      && enemyMaxY == screenHeight - ScreenHeightAdjustment
    }

    /**
     * The shape above, the class invariants of the user and the bosses (the
     * only classes that have one), and a well-formed view.
     */
    ghost predicate Valid()
      reads this, view, view.display, user, boss, mutation
    {
      && Shape()
      && user.Valid()
      && (boss != null ==> boss.Valid() && mutation != null && mutation.Valid())
      && view.Valid()
    }

    /** Validity survives any step that leaves the level and its view alone and no body of the user or a boss changed. */
    twostate lemma ValidKept()
      requires old(Valid()) && unchanged(this, view, view.display)
      requires user.Fields() == old(user.Fields())
      requires boss != null ==> boss.Fields() == old(boss.Fields()) && mutation != null && mutation.Fields() == old(mutation.Fields())
      ensures Valid()
    {
    }

    /** The same, for a step that keeps the user and the bosses within their class invariants. */
    twostate lemma ValidStepped()
      requires old(Valid()) && unchanged(this, view, view.display)
      requires user.Valid() && (boss != null ==> boss.Valid() && mutation != null && mutation.Valid())
      ensures Valid()
    {
    }

    /** The same, for a step that changes the level's own fields but leaves it in shape. */
    twostate lemma ValidReshaped()
      requires old(Valid()) && Shape() && view.Valid()
      requires user.Fields() == old(user.Fields())
      requires boss != null ==> boss.Fields() == old(boss.Fields()) && mutation != null && mutation.Fields() == old(mutation.Fields())
      ensures Valid()
    {
    }

    /** In a well-formed level every actor of every list keeps its class invariant. */
    lemma ListsValid()
      requires Valid()
      ensures AllValid(friendlyUnits) && AllValid(enemyUnits) && AllValid(userProjectiles) && AllValid(enemyProjectiles)
    {
      forall k | 0 <= k < |enemyUnits|
        ensures enemyUnits[k].Valid()
      {
        if enemyUnits[k].kind == EnemyPlaneKind {
          assert BodyOk(EnemyPlaneKind, enemyUnits[k].Fields());
        }
      }
      forall k | 0 <= k < |userProjectiles|
        ensures userProjectiles[k].Valid()
      {
        assert BodyOk(UserProjectileKind, userProjectiles[k].Fields());
      }
      forall k | 0 <= k < |enemyProjectiles|
        ensures enemyProjectiles[k].Valid()
      {
        assert BodyOk(enemyProjectiles[k].kind, enemyProjectiles[k].Fields());
      }
    }

    /** A well-formed level satisfies the latch invariant `LevelRules` states its lemmas under. */
    lemma ValidLatch()
      requires Valid()
      ensures LatchConsistent(State())
    {
    }

    /** No actor sits in two lists, and the user is in none but the friendly one. */
    lemma Apart()
      requires Shape()
      ensures NoDuplicates(Everyone())
      ensures user !in enemyUnits && user !in userProjectiles && user !in enemyProjectiles
    {
      Concatenated(friendlyUnits, enemyUnits, {UserPlaneKind}, EnemyKinds);
      Concatenated(friendlyUnits + enemyUnits, userProjectiles, {UserPlaneKind} + EnemyKinds, {UserProjectileKind});
      Concatenated(friendlyUnits + enemyUnits + userProjectiles, enemyProjectiles,
                   {UserPlaneKind} + EnemyKinds + {UserProjectileKind}, ShotKinds);
    }

    /**
     * A new level: the user with 5 health as the only friendly unit, a view
     * showing 5 hearts, empty lists, a stopped timeline; LevelThree also
     * builds its two bosses.
     */
    constructor (stage: Stage, screenHeight: real, screenWidth: real, heartWidth: real, rng: Rng)
      modifies rng
      ensures Valid() && fresh(user) && fresh(view) && fresh(view.display)
      ensures this.stage == stage && this.screenHeight == screenHeight && this.screenWidth == screenWidth
      ensures enemyMaxY == screenHeight - ScreenHeightAdjustment && this.heartWidth == heartWidth
      ensures State() == LevelState([user], [], [], [], [], 0, false, None, [], false, Stopped, false, [])
      ensures user.Condition() == Vitals(PlayerInitialHealth, false) && user.kills == 0
      ensures view.display.Count() == PlayerInitialHealth
      ensures stage == LevelThree ==> fresh(boss) && fresh(mutation)
      ensures stage == LevelThree ==> boss.Condition() == Vitals(BossHealth, false) && mutation.Condition() == Vitals(MutationHealth, false)
    {
      this.stage := stage;
      this.screenHeight := screenHeight;
      this.screenWidth := screenWidth;
      this.heartWidth := heartWidth;
      enemyMaxY := screenHeight - ScreenHeightAdjustment;
      var u := new Actor.UserPlane(PlayerInitialHealth);
      user := u;
      view := new LevelView(PlayerInitialHealth);
      if stage == LevelThree {
        var b := new Actor.Boss(rng);
        var m := new Actor.MutationBoss(rng);
        boss, mutation := b, m;
      } else {
        boss, mutation := null, null;
      }
      friendlyUnits, enemyUnits, userProjectiles, enemyProjectiles, hearts := [u], [], [], [], [];
      currentNumberOfEnemies := 0;
      isLevelSwitching, pendingLevel, announced := false, None, [];
      isPaused, timeline, isSceneInitialized := false, Stopped, false;
    }

    // ---------------------------------------------------------------- flags and the latch

    /** Shows the heart display the first time only. */
    method InitializeScene()
      requires Valid()
      modifies this, view
      ensures Valid() && isSceneInitialized
      ensures old(isSceneInitialized) ==> State() == old(State())
      ensures !old(isSceneInitialized) ==>
        State() == old(State()).(isSceneInitialized := true, root := AddIfAbsent(old(view.root), HeartContainer))
    {
      if !isSceneInitialized {
        view.ShowHeartDisplay();
        isSceneInitialized := true;
      }
    }

    method StartGame()
      requires Valid()
      modifies this
      ensures Valid() && State() == old(State()).(timeline := Running)
    {
      if timeline != Running {
        timeline := Running;
      }
    }

    method TogglePause()
      requires Valid()
      modifies this
      ensures Valid() && State() == PauseToggled(old(State()))
    {
      isPaused := !isPaused;
      if isPaused {
        if timeline == Running {
          timeline := Paused;
        }
      } else {
        timeline := Running;
      }
    }

    /** Empties the root's children and the five lists; the actors themselves are untouched. */
    method CleanUpLevel()
      requires view.Valid()
      modifies this, view
      ensures view.Valid() && State() == CleanedUp(old(State()))
    {
      view.root := [];
      friendlyUnits, enemyUnits, userProjectiles, enemyProjectiles, hearts := [], [], [], [], [];
    }

    method GoToNextLevel(levelName: string)
      requires Valid()
      modifies this, view
      ensures Valid() && State() == Switched(old(State()), levelName)
    {
      if isLevelSwitching {
        return;
      }
      isLevelSwitching := true;
      timeline := StopIfRunning(timeline);
      CleanUpLevel();
      pendingLevel := Some(levelName);
      ValidReshaped();
    }

    /** The deferred switch callback: announce the level, then release the latch. */
    method CompleteLevelSwitch()
      requires Valid()
      modifies this
      ensures Valid() && State() == SwitchCompleted(old(State()))
    {
      if pendingLevel.Some? {
        announced := announced + [pendingLevel.value];
      }
      isLevelSwitching, pendingLevel := false, None;
    }

    method WinGame()
      requires Valid()
      modifies this, view
      ensures Valid() && State() == Won(old(State()))
    {
      timeline := Stopped;
      view.ShowWinImage();
    }

    method LoseGame()
      requires Valid()
      modifies this, view
      ensures Valid() && State() == Lost(old(State()))
    {
      timeline := Stopped;
      view.ShowGameOverImage();
    }

    /**
     * `checkIfGameOver` of the level's stage. Whatever it does, the enemy
     * list is kept or emptied, and a switch already scheduled stays as it is.
     */
    method CheckIfGameOver()
      requires Valid()
      modifies this, view
      ensures Valid()
      ensures State() == GameOverChecked(stage, old(State()), user.destroyed, user.kills, mutation != null && mutation.destroyed)
      ensures enemyUnits == old(enemyUnits) || enemyUnits == []
      ensures old(isLevelSwitching) ==> isLevelSwitching && pendingLevel == old(pendingLevel) && announced == old(announced)
    {
      if user.destroyed {
        LoseGame();
      } else if stage != LevelThree {
        if HasReachedKillTarget(stage, user.kills) {
          GoToNextLevel(NextLevel(stage));
        }
      } else if mutation.destroyed {
        WinGame();
      }
    }

    // ---------------------------------------------------------------- spawning

    /** Adds the enemy unless it is already in the list. */
    method AddEnemyUnit(enemy: Actor)
      requires Valid() && Recruit(enemy, boss, mutation)
      modifies this
      ensures Valid() && State() == old(State()).(enemyUnits := AddIfAbsent(old(enemyUnits), enemy))
    {
      Enlisted(friendlyUnits, enemyUnits, userProjectiles, enemyProjectiles, user, boss, mutation, enemy);
      if enemy in enemyUnits {
        return;
      }
      enemyUnits := enemyUnits + [enemy];
    }

    /**
     * `spawnEnemyUnits` of LevelOne and LevelTwo: one chance per missing
     * enemy below TOTAL_ENEMIES; each new enemy plane enters at the right
     * edge at a random height below enemyMaxY.
     */
    method SpawnWaves(rng: Rng)
      requires Valid() && stage != LevelThree
      modifies this, rng
      ensures Valid() && State() == old(State()).(enemyUnits := enemyUnits)
      ensures |old(enemyUnits)| <= |enemyUnits| <= Max(|old(enemyUnits)|, EnemyCap(stage))
      ensures enemyUnits[..|old(enemyUnits)|] == old(enemyUnits)
      ensures forall k :: |old(enemyUnits)| <= k < |enemyUnits| ==> fresh(enemyUnits[k]) && Newcomer(enemyUnits[k], screenWidth, enemyMaxY)
    {
      var units := enemyUnits;
      var current := |units|;
      var i := 0;
      while i < EnemyCap(stage) - current
        modifies rng
        invariant 0 <= i <= Max(EnemyCap(stage) - current, 0)
        invariant current <= |units| <= current + i && units[..current] == enemyUnits
        invariant Cast(friendlyUnits, units, userProjectiles, enemyProjectiles, user, boss, mutation)
        invariant forall k :: current <= k < |units| ==> fresh(units[k]) && Newcomer(units[k], screenWidth, enemyMaxY)
      {
        var draw := rng.Next();
        if draw < SpawnProbability(stage) {
          var r := rng.Next();
          var enemy := new Actor.EnemyPlane(screenWidth, SpawnY(r, enemyMaxY));
          assert Newcomer(enemy, screenWidth, enemyMaxY);
          Enlisted(friendlyUnits, units, userProjectiles, enemyProjectiles, user, boss, mutation, enemy);
          assert enemy !in units;
          units := units + [enemy];
        }
        i := i + 1;
      }
      enemyUnits := units;
    }

    /**
     * `spawnEnemyUnits` of LevelThree: only into an empty list, the first
     * boss while it stands, then the mutation boss while it stands.
     */
    method SpawnBosses()
      requires Valid() && stage == LevelThree
      modifies this
      ensures Valid()
      ensures State() == old(State()).(enemyUnits :=
        if |old(enemyUnits)| != 0 then old(enemyUnits)
        else if !boss.destroyed then [boss]
        else if !mutation.destroyed then [mutation]
        else [])
    {
      if |enemyUnits| == 0 {
        if !boss.destroyed {
          AddEnemyUnit(boss);
        } else if !mutation.destroyed {
          AddEnemyUnit(mutation);
        }
      }
    }

    method SpawnEnemyUnits(rng: Rng)
      requires Valid()
      modifies this, rng
      ensures Valid() && State() == old(State()).(enemyUnits := enemyUnits)
      ensures |enemyUnits| <= Max(|old(enemyUnits)|, EnemyCap(stage))
      ensures forall k :: 0 <= k < |enemyUnits| ==> var a := enemyUnits[k]; a in old(enemyUnits) || a == boss || a == mutation || fresh(a)
    {
      if stage == LevelThree {
        SpawnBosses();
      } else {
        SpawnWaves(rng);
      }
    }

    /** With probability 0.01 a heart appears at the right edge at a random height below enemyMaxY. */
    method SpawnHearts(rng: Rng)
      requires Valid()
      modifies this, rng
      ensures Valid() && State() == old(State()).(hearts := hearts)
      ensures old(rng.Peek()) >= HeartSpawnProbability ==> hearts == old(hearts)
      ensures old(rng.Peek()) < HeartSpawnProbability ==>
        && |hearts| == |old(hearts)| + 1 && hearts[..|old(hearts)|] == old(hearts)
        && fresh(hearts[|old(hearts)|]) && !hearts[|old(hearts)|].IsDestroyed()
        && hearts[|old(hearts)|].x == screenWidth && SpawnHeight(hearts[|old(hearts)|].y, enemyMaxY)
    {
      var draw := rng.Next();
      if draw < HeartSpawnProbability {
        var r := rng.Next();
        var heart := new Heart(screenWidth, SpawnY(r, screenHeight - ScreenHeightAdjustment), heartWidth);
        assert SpawnHeight(heart.y, enemyMaxY);
        hearts := hearts + [heart];
      }
    }

    /** The user fires: a new user projectile is appended. */
    method FireUserProjectile(rng: Rng)
      requires Valid()
      modifies this, rng
      ensures Valid() && State() == old(State()).(userProjectiles := userProjectiles)
      ensures |userProjectiles| == |old(userProjectiles)| + 1 && userProjectiles[..|old(userProjectiles)|] == old(userProjectiles)
      ensures var p := userProjectiles[|old(userProjectiles)|];
        fresh(p) && p.kind == UserProjectileKind && !p.destroyed
        && p.layoutX == user.layoutX + UserProjectileXOffset && p.layoutY == user.Y() + UserProjectileYOffset
    {
      var projectile := user.FireProjectile(rng);
      if projectile != null {
        assert projectile !in userProjectiles;
        userProjectiles := userProjectiles + [projectile];
      }
    }

    // ---------------------------------------------------------------- the per-tick steps

    /** `removeDestroyedActors` on each of the four lists. */
    method RemoveAllDestroyedActors()
      requires Valid()
      modifies this
      ensures Valid()
      ensures friendlyUnits == old(Survivors(friendlyUnits)) && enemyUnits == old(Survivors(enemyUnits))
      ensures userProjectiles == old(Survivors(userProjectiles)) && enemyProjectiles == old(Survivors(enemyProjectiles))
      ensures State() == old(State()).(friendlyUnits := friendlyUnits, enemyUnits := enemyUnits,
                                       userProjectiles := userProjectiles, enemyProjectiles := enemyProjectiles)
      ensures forall k :: 0 <= k < |enemyUnits| ==> enemyUnits[k] in old(enemyUnits)
      ensures forall k :: 0 <= k < |userProjectiles| ==> userProjectiles[k] in old(userProjectiles)
      ensures forall k :: 0 <= k < |enemyProjectiles| ==> enemyProjectiles[k] in old(enemyProjectiles)
    {
      var friendly, enemies, userShots, enemyShots :=
        Survivors(friendlyUnits), Survivors(enemyUnits), Survivors(userProjectiles), Survivors(enemyProjectiles);
      Culled(friendlyUnits, enemyUnits, userProjectiles, enemyProjectiles, user, boss, mutation,
             friendly, enemies, userShots, enemyShots);
      Recast(friendly, enemies, userShots, enemyShots);
    }

    /** Replaces the four lists by lists that keep the list discipline. */
    method Recast(friendly: seq<Actor>, enemies: seq<Actor>, userShots: seq<Actor>, enemyShots: seq<Actor>)
      requires Valid() && Cast(friendly, enemies, userShots, enemyShots, user, boss, mutation)
      modifies this
      ensures Valid()
      ensures friendlyUnits == friendly && enemyUnits == enemies && userProjectiles == userShots && enemyProjectiles == enemyShots
      ensures State() == old(State()).(friendlyUnits := friendly, enemyUnits := enemies,
                                       userProjectiles := userShots, enemyProjectiles := enemyShots)
    {
      ghost var s0 := State();
      friendlyUnits, enemyUnits, userProjectiles, enemyProjectiles := friendly, enemies, userShots, enemyShots;
      assert friendlyUnits == friendly && enemyUnits == enemies && userProjectiles == userShots && enemyProjectiles == enemyShots;
      assert State() == s0.(friendlyUnits := friendly, enemyUnits := enemies, userProjectiles := userShots, enemyProjectiles := enemyShots);
      ValidReshaped();
    }

    /**
     * Every actor of the four lists takes exactly one update, in list order
     * and health untouched; afterwards the enemy projectiles laid out left
     * of the screen are dropped from the list (after the walk, not during it).
     */
    method UpdateActors(rng: Rng)
      requires Valid()
      modifies this, rng, Everyone()
      ensures Valid()
      ensures State() == old(State().(enemyProjectiles := OnScreen(enemyProjectiles)))
      ensures forall k :: 0 <= k < |enemyProjectiles| ==> enemyProjectiles[k] in old(enemyProjectiles)
      ensures forall k :: 0 <= k < |old(Everyone())| ==>
        var a := old(Everyone())[k]; Stepped(a.kind, old(a.Fields()), a.Fields()) && a.Condition() == old(a.Condition())
      ensures user.kills == old(user.kills)
    {
      StepAll(rng);
      var kept := OnScreen(enemyProjectiles);
      OnScreenSteady(enemyProjectiles);
      OnScreenKeeps(enemyProjectiles, ShotKinds, kept);
      enemyProjectiles := kept;
    }

    /** The four `forEach(updateActor)` walks, as one walk over the lists in order. */
    method StepAll(rng: Rng)
      requires Valid()
      modifies rng, Everyone()
      ensures Valid()
      ensures forall k :: 0 <= k < |Everyone()| ==>
        var a := Everyone()[k]; Stepped(a.kind, old(a.Fields()), a.Fields()) && a.Condition() == old(a.Condition())
      ensures forall k :: 0 <= k < |enemyProjectiles| ==> enemyProjectiles[k].layoutX == old(enemyProjectiles[k].layoutX)
      ensures user.kills == old(user.kills) && State() == old(State())
    {
      Apart();
      ListsValid();
      var everyone := friendlyUnits + enemyUnits + userProjectiles + enemyProjectiles;
      ghost var f, e, u, p := |friendlyUnits|, |enemyUnits|, |userProjectiles|, |enemyProjectiles|;
      assert forall k :: 0 <= k < f ==> everyone[k] == user;
      assert forall k :: 0 <= k < e ==> everyone[f + k] == enemyUnits[k];
      assert forall k :: 0 <= k < u ==> everyone[f + e + k] == userProjectiles[k];
      assert forall k :: 0 <= k < p ==> everyone[f + e + u + k] == enemyProjectiles[k];
      UpdateEach(everyone, rng);
      if user in everyone {
        var k :| 0 <= k < |everyone| && everyone[k] == user;
        SteppedFrame(user.kind, old(user.Fields()), user.Fields());
      }
      ValidStepped();
    }

    /**
     * Each heart the user's hitbox touches gives one health and tops the
     * heart display up to the new health; the touched hearts leave the list.
     */
    method HandleHeartCollisions()
      requires Valid()
      modifies this, user, view.display
      ensures Valid()
      ensures State() == old(State().(hearts := Unflagged(hearts, Touches(hearts, user.hitbox), |hearts|)))
      ensures user.Fields() == old(user.Fields())
      ensures user.Condition() == old(Vitals(user.health + Trues(Touches(hearts, user.hitbox), |hearts|), user.destroyed))
      ensures view.display.Count() == old(Topped(view.display.Count(), user.health, Trues(Touches(hearts, user.hitbox), |hearts|)))
    {
      ghost var hit := Touches(hearts, user.hitbox);
      var collected := CollectHearts(hearts, hit);
      var kept := RemoveCollected(hearts, collected, hit);
      hearts := kept;
      ValidBeside();
    }

    /** The first loop of `handleHeartCollisions`: health, display and the collected list. */
    method CollectHearts(hs: seq<Heart>, ghost hit: seq<bool>) returns (collected: seq<Heart>)
      requires user.kind == UserPlaneKind && view.Valid()
      requires |hit| == |hs| && forall i :: 0 <= i < |hs| ==> hit[i] == Intersects(user.hitbox, hs[i].Bounds())
      modifies user, view.display
      ensures view.Valid() && collected == Flagged(hs, hit, |hs|)
      ensures user.Fields() == old(user.Fields())
      ensures user.Condition() == Vitals(old(user.health) + Trues(hit, |hs|), old(user.destroyed))
      ensures view.display.Count() == Topped(old(view.display.Count()), old(user.health), Trues(hit, |hs|))
    {
      collected := [];
      var i := 0;
      while i < |hs|
        invariant 0 <= i <= |hs| && view.Valid()
        invariant user.Fields() == old(user.Fields())
        invariant user.Condition() == Vitals(old(user.health) + Trues(hit, i), old(user.destroyed))
        invariant collected == Flagged(hs, hit, i)
        invariant view.display.Count() == Topped(old(view.display.Count()), old(user.health), Trues(hit, i))
      {
        if Intersects(user.hitbox, hs[i].Bounds()) {
          user.IncrementHealth();
          view.AddHearts(user.health);
          collected := collected + [hs[i]];
        }
        i := i + 1;
      }
    }

    /** Validity survives a step that changes the hearts or the heart display only. */
    twostate lemma ValidBeside()
      requires old(Valid()) && view.Valid()
      requires friendlyUnits == old(friendlyUnits) && enemyUnits == old(enemyUnits)
      requires userProjectiles == old(userProjectiles) && enemyProjectiles == old(enemyProjectiles)
      requires isLevelSwitching == old(isLevelSwitching) && pendingLevel == old(pendingLevel)
      requires user.Fields() == old(user.Fields())
      requires boss != null ==> boss.Fields() == old(boss.Fields()) && mutation != null && mutation.Fields() == old(mutation.Fields())
      ensures Valid()
    {
    }

    /**
     * Every enemy gets its chance to fire: a mutation boss a volley of three
     * or nothing, any other enemy one shot or nothing. New shots are only
     * appended.
     */
    method GenerateEnemyFire(rng: Rng)
      requires Valid()
      modifies this, rng
      ensures Valid() && State() == old(State()).(enemyProjectiles := enemyProjectiles)
      ensures |old(enemyProjectiles)| <= |enemyProjectiles| && enemyProjectiles[..|old(enemyProjectiles)|] == old(enemyProjectiles)
      ensures PossibleShots(KindsOf(enemyUnits), |enemyProjectiles| - |old(enemyProjectiles)|)
      ensures forall k :: |old(enemyProjectiles)| <= k < |enemyProjectiles| ==> fresh(enemyProjectiles[k]) && Shot(enemyProjectiles[k])
    {
      var shots := FireVolleys(rng);
      enemyProjectiles := shots;
      ValidReshaped();
    }

    /** The `forEach` of `generateEnemyFire`: the enemy shot list with each enemy's shots appended in turn. */
    method FireVolleys(rng: Rng) returns (shots: seq<Actor>)
      requires Cast(friendlyUnits, enemyUnits, userProjectiles, enemyProjectiles, user, boss, mutation)
      modifies rng
      ensures Cast(friendlyUnits, enemyUnits, userProjectiles, shots, user, boss, mutation)
      ensures |enemyProjectiles| <= |shots| && shots[..|enemyProjectiles|] == enemyProjectiles
      ensures PossibleShots(KindsOf(enemyUnits), |shots| - |enemyProjectiles|)
      ensures forall k :: |enemyProjectiles| <= k < |shots| ==> fresh(shots[k]) && Shot(shots[k])
    {
      shots := enemyProjectiles;
      var before := |shots|;
      var i := 0;
      while i < |enemyUnits|
        invariant 0 <= i <= |enemyUnits|
        invariant before <= |shots| && shots[..before] == enemyProjectiles
        invariant Cast(friendlyUnits, enemyUnits, userProjectiles, shots, user, boss, mutation)
        invariant PossibleShots(KindsOf(enemyUnits[..i]), |shots| - before)
        invariant forall k :: before <= k < |shots| ==> fresh(shots[k]) && Shot(shots[k])
      {
        assert KindsOf(enemyUnits[..i + 1])[..i] == KindsOf(enemyUnits[..i]);
        var next := EnemyFires(enemyUnits[i], rng, shots);
        Rearmed(friendlyUnits, enemyUnits, userProjectiles, shots, next, user, boss, mutation);
        shots := next;
        i := i + 1;
      }
      assert enemyUnits[..i] == enemyUnits;
    }

    method UpdateNumberOfEnemies()
      requires Valid()
      modifies this
      ensures Valid() && State() == old(State()).(currentNumberOfEnemies := |enemyUnits|)
    {
      currentNumberOfEnemies := |enemyUnits|;
    }

    /**
     * Each enemy whose translate has passed the screen width is destroyed
     * and costs the user one hit; each projectile whose translate has passed
     * 1000 is destroyed.
     */
    method HandleEnemyPenetration()
      requires Valid()
      modifies user, enemyUnits, enemyProjectiles, userProjectiles
      ensures Valid()
      ensures forall a: Actor :: old(allocated(a)) ==> a.Fields() == old(a.Fields())
      ensures user.Condition() == old(AfterDamages(UserPlaneKind, user.shielded, user.Condition(), Trues(Penetrations(enemyUnits, screenWidth), |enemyUnits|)))
    {
      var enemies, enemyShots, userShots := enemyUnits, enemyProjectiles, userProjectiles;
      ghost var hit := Penetrations(enemies, screenWidth);
      Outside(user, enemies, EnemyKinds);
      Outside(user, enemyShots, ShotKinds);
      Outside(user, userShots, {UserProjectileKind});
      PenetrateEnemies(enemies, hit);
      DestroyStrays(enemyShots);
      DestroyStrays(userShots);
      ValidKept();
    }

    /** The enemy half of the penetration check. */
    method PenetrateEnemies(enemies: seq<Actor>, ghost hit: seq<bool>)
      requires user.kind == UserPlaneKind && NoDuplicates(enemies) && user !in enemies
      requires |hit| == |enemies| && forall k :: 0 <= k < |enemies| ==> hit[k] == HasPenetrated(enemies[k], screenWidth)
      modifies user, enemies
      ensures forall a: Actor :: old(allocated(a)) ==> a.Fields() == old(a.Fields())
      ensures user.Condition() == AfterDamages(UserPlaneKind, old(user.shielded), old(user.Condition()), Trues(hit, |enemies|))
      ensures forall k :: 0 <= k < |enemies| ==> enemies[k].Condition() == Struck(old(enemies[k].Condition()), hit[k])
    {
      var i := 0;
      while i < |enemies|
        invariant 0 <= i <= |enemies|
        invariant forall a: Actor :: old(allocated(a)) ==> a.Fields() == old(a.Fields())
        invariant user.Fields() == old(user.Fields())
        invariant user.Condition() == AfterDamages(UserPlaneKind, old(user.shielded), old(user.Condition()), Trues(hit, i))
        invariant forall k :: 0 <= k < i ==> enemies[k].Condition() == Struck(old(enemies[k].Condition()), hit[k])
        invariant forall k :: i <= k < |enemies| ==> enemies[k].Condition() == old(enemies[k].Condition())
      {
        var enemy := enemies[i];
        assert enemy.Fields() == old(enemy.Fields());
        if HasPenetrated(enemy, screenWidth) {
          Breach(enemy);
        }
        i := i + 1;
      }
    }

    /** An enemy past the defences: the user takes a hit and the enemy is destroyed. */
    method Breach(enemy: Actor)
      requires user.kind == UserPlaneKind && enemy != user
      modifies user, enemy
      ensures forall a: Actor :: old(allocated(a)) ==> a.Fields() == old(a.Fields())
      ensures user.Fields() == old(user.Fields())
      ensures user.Condition() == AfterDamage(UserPlaneKind, old(user.shielded), old(user.Condition()))
      ensures enemy.Condition() == Struck(old(enemy.Condition()), true)
    {
      user.TakeDamage();
      enemy.Destroy();
    }

    /** The projectile half of the penetration check, on one list. */
    method DestroyStrays(projectiles: seq<Actor>)
      requires NoDuplicates(projectiles)
      modifies projectiles
      ensures forall a: Actor :: old(allocated(a)) ==> a.Fields() == old(a.Fields())
      ensures forall a: Actor :: old(allocated(a)) && a !in projectiles ==> a.Condition() == old(a.Condition())
      ensures forall k :: 0 <= k < |projectiles| ==> (projectiles[k].Fields() == old(projectiles[k].Fields())
        && projectiles[k].Condition() == Struck(old(projectiles[k].Condition()), HasPenetrated(projectiles[k], ProjectileRange)))
    {
      var i := 0;
      while i < |projectiles|
        invariant 0 <= i <= |projectiles|
        invariant forall k :: 0 <= k < i ==> (projectiles[k].Fields() == old(projectiles[k].Fields())
          && projectiles[k].Condition() == Struck(old(projectiles[k].Condition()), HasPenetrated(projectiles[k], ProjectileRange)))
        invariant forall k :: i <= k < |projectiles| ==> unchanged(projectiles[k])
      {
        if HasPenetrated(projectiles[i], ProjectileRange) {
          projectiles[i].Destroy();
        }
        i := i + 1;
      }
    }

    /**
     * LevelParent's `handleCollisions(actors1, actors2)`: the outer loop runs
     * over actors2, the inner over actors1; every actor of either list is
     * hit once per intersecting pair it stands in.
     */
    method HandleCollisions(actors1: seq<Actor>, actors2: seq<Actor>)
      modifies actors1, actors2
      ensures forall a: Actor :: old(allocated(a)) ==> a.Fields() == old(a.Fields())
      ensures forall o :: o in actors1 || o in actors2 ==>
        o.Fields() == old(o.Fields()) &&
        o.Condition() == AfterDamages(o.kind, o.shielded, old(o.Condition()),
                                      Hits(o, actors2, old(Boxes(actors2)), actors1, old(Boxes(actors1)), |actors2|, |actors1|))
    {
      Collisions.HandleCollisions(actors2, actors1);
    }

    /** `handleUserProjectileCollisions`: user projectiles against enemies. */
    method HandleUserProjectileCollisions()
      requires Valid()
      modifies userProjectiles, enemyUnits
      ensures Valid()
      ensures forall a: Actor :: old(allocated(a)) ==> a.Fields() == old(a.Fields())
      ensures forall o :: o in userProjectiles || o in enemyUnits ==>
        o.Fields() == old(o.Fields()) &&
        o.Condition() == AfterDamages(o.kind, o.shielded, old(o.Condition()),
                                      Hits(o, enemyUnits, old(Boxes(enemyUnits)), userProjectiles, old(Boxes(userProjectiles)), |enemyUnits|, |userProjectiles|))
    {
      HandleCollisions(userProjectiles, enemyUnits);
    }

    /** `handleEnemyProjectileCollisions`: enemy projectiles against the user. */
    method HandleEnemyProjectileCollisions()
      requires Valid()
      modifies enemyProjectiles, friendlyUnits
      ensures Valid()
      ensures forall a: Actor :: old(allocated(a)) ==> a.Fields() == old(a.Fields())
      ensures forall o :: o in enemyProjectiles || o in friendlyUnits ==>
        o.Fields() == old(o.Fields()) &&
        o.Condition() == AfterDamages(o.kind, o.shielded, old(o.Condition()),
                                      Hits(o, friendlyUnits, old(Boxes(friendlyUnits)), enemyProjectiles, old(Boxes(enemyProjectiles)), |friendlyUnits|, |enemyProjectiles|))
    {
      HandleCollisions(enemyProjectiles, friendlyUnits);
    }

    /** `handlePlaneCollisions`: the user against enemy planes. */
    method HandlePlaneCollisions()
      requires Valid()
      modifies friendlyUnits, enemyUnits
      ensures Valid()
      ensures forall a: Actor :: old(allocated(a)) ==> a.Fields() == old(a.Fields())
      ensures forall o :: o in friendlyUnits || o in enemyUnits ==>
        o.Fields() == old(o.Fields()) &&
        o.Condition() == AfterDamages(o.kind, o.shielded, old(o.Condition()),
                                      Hits(o, enemyUnits, old(Boxes(enemyUnits)), friendlyUnits, old(Boxes(friendlyUnits)), |enemyUnits|, |friendlyUnits|))
    {
      HandleCollisions(friendlyUnits, enemyUnits);
    }

    /**
     * Every destroyed enemy counts one kill and leaves the list; the enemy
     * counter is the size of what remains.
     */
    method UpdateKillCount()
      requires Valid()
      modifies this, user
      ensures Valid()
      ensures State() == old(State().(enemyUnits := Survivors(enemyUnits), currentNumberOfEnemies := |Survivors(enemyUnits)|))
      ensures user.Fields() == old(user.Fields().(kills := user.kills + |Casualties(enemyUnits)|))
      ensures user.Condition() == old(user.Condition())
      ensures forall k :: 0 <= k < |enemyUnits| ==> !enemyUnits[k].destroyed
    {
      var destroyedEnemies, rest := Casualties(enemyUnits), Survivors(enemyUnits);
      Thinned(friendlyUnits, enemyUnits, userProjectiles, enemyProjectiles, user, boss, mutation, rest);
      Outside(user, rest, EnemyKinds);
      enemyUnits, currentNumberOfEnemies := rest, |rest|;
      CountKills(|destroyedEnemies|);
    }

    /** The loop of `updateKillCount`: one kill counted per destroyed enemy. */
    method CountKills(n: nat)
      requires user.kind == UserPlaneKind && user.Valid()
      modifies user
      ensures user.Valid() && user.Condition() == old(user.Condition())
      ensures user.Fields() == old(user.Fields()).(kills := old(user.kills) + n)
    {
      var i := 0;
      while i < n
        invariant 0 <= i <= n && user.Valid()
        invariant user.Fields() == old(user.Fields()).(kills := old(user.kills) + i) && user.Condition() == old(user.Condition())
      {
        user.IncrementKillCount();
        i := i + 1;
      }
    }

    /** Brings the heart display down to the user's health. */
    method UpdateLevelView()
      requires Valid()
      modifies view.display
      ensures Valid()
      ensures view.display.Count() == if user.health < 0 then 0
                                      else if user.health < old(view.display.Count()) then user.health
                                      else old(view.display.Count())
    {
      view.RemoveHearts(user.health);
    }

    // ---------------------------------------------------------------- the tick

    /**
     * One tick of the game loop, in its order. Across a tick the level
     * stays well formed, a level within its enemy cap stays within it, the
     * kill counter never drops, no destroyed enemy is left in the list, and
     * a level-switch latch once set stays set until the callback runs.
     */
    method UpdateScene(rng: Rng)
      requires Valid()
      modifies this, rng, view, view.display, user, boss, mutation, enemyUnits, userProjectiles, enemyProjectiles
      ensures Valid()
      ensures |old(enemyUnits)| <= EnemyCap(stage) ==> |enemyUnits| <= EnemyCap(stage)
      ensures user.kills >= old(user.kills)
      ensures forall k :: 0 <= k < |enemyUnits| ==> !enemyUnits[k].destroyed
      ensures old(isLevelSwitching) ==> isLevelSwitching && pendingLevel == old(pendingLevel) && announced == old(announced)
    {
      Replenish(rng);
      Advance(rng);
      Arm(rng);
      Clash();
      Settle();
    }

    /** The tick's first part: destroyed actors leave the lists, then enemies and hearts may spawn. */
    method Replenish(rng: Rng)
      requires Valid()
      modifies this, rng
      ensures Valid()
      ensures |old(enemyUnits)| <= EnemyCap(stage) ==> |enemyUnits| <= EnemyCap(stage)
      ensures old(isLevelSwitching) ==> isLevelSwitching && pendingLevel == old(pendingLevel) && announced == old(announced)
      ensures forall k :: 0 <= k < |enemyUnits| ==> var a := enemyUnits[k]; a in old(enemyUnits) || a == boss || a == mutation || fresh(a)
      ensures forall k :: 0 <= k < |userProjectiles| ==> userProjectiles[k] in old(userProjectiles)
      ensures forall k :: 0 <= k < |enemyProjectiles| ==> enemyProjectiles[k] in old(enemyProjectiles)
    {
      RemoveAllDestroyedActors();
      SpawnEnemyUnits(rng);
      SpawnHearts(rng);
    }

    /** The tick's second part: every actor moves, then the hearts the user touches are collected. */
    method Advance(rng: Rng)
      requires Valid()
      modifies this, rng, Everyone(), user, view.display
      ensures Valid()
      ensures friendlyUnits == old(friendlyUnits) && enemyUnits == old(enemyUnits) && userProjectiles == old(userProjectiles)
      ensures user.kills == old(user.kills)
      ensures isLevelSwitching == old(isLevelSwitching) && pendingLevel == old(pendingLevel) && announced == old(announced)
      ensures forall k :: 0 <= k < |enemyProjectiles| ==> enemyProjectiles[k] in old(enemyProjectiles)
    {
      UpdateActors(rng);
      HandleHeartCollisions();
    }

    /** The tick's third part: the enemies fire and the enemy counter is refreshed. */
    method Arm(rng: Rng)
      requires Valid()
      modifies this, rng
      ensures Valid()
      ensures friendlyUnits == old(friendlyUnits) && enemyUnits == old(enemyUnits) && userProjectiles == old(userProjectiles)
      ensures isLevelSwitching == old(isLevelSwitching) && pendingLevel == old(pendingLevel) && announced == old(announced)
      ensures forall k :: 0 <= k < |enemyProjectiles| ==> enemyProjectiles[k] in old(enemyProjectiles) || fresh(enemyProjectiles[k])
    {
      GenerateEnemyFire(rng);
      UpdateNumberOfEnemies();
    }

    /** The tick's fourth part: penetration and the three collision sweeps; only actors' bodies change. */
    method Clash()
      requires Valid()
      modifies user, friendlyUnits, enemyUnits, userProjectiles, enemyProjectiles
      ensures Valid() && user.kills == old(user.kills)
    {
      HandleEnemyPenetration();
      HandleUserProjectileCollisions();
      HandleEnemyProjectileCollisions();
      HandlePlaneCollisions();
    }

    /** The tick's last part: kills are counted, the hearts shown follow the health, and the game-over check runs. */
    method Settle()
      requires Valid()
      modifies this, user, view, view.display
      ensures Valid()
      ensures |old(enemyUnits)| <= EnemyCap(stage) ==> |enemyUnits| <= EnemyCap(stage)
      ensures user.kills >= old(user.kills)
      ensures forall k :: 0 <= k < |enemyUnits| ==> !enemyUnits[k].destroyed
      ensures old(isLevelSwitching) ==> isLevelSwitching && pendingLevel == old(pendingLevel) && announced == old(announced)
    {
      UpdateKillCount();
      UpdateLevelView();
      CheckIfGameOver();
    }
  }
}
