# CW2024 game simulation in Dafny

This project models the per-tick simulation of the CW2024 side-scrolling
shooter: its actors, the two boss state machines, and the level that
drives them. The actors are the user plane, enemy planes, the Boss and
MutationBoss1, and three kinds of projectile. The model strips away
JavaFX and keeps what the game computes:

- positions as layout plus translate offsets;
- hitboxes that follow those positions through per-class offsets;
- health and the destroyed flag;
- the move patterns, cursors and shield of the bosses;
- the actor lists of a level, and the order in which one tick of `updateScene` works on them;
- spawn caps, kill accounting, and the level-switch latch;
- the heart display's add-once and reconciliation rules;
- the stand-alone `CollisionManager` and `HitboxManager`.

Layout of the modules:

| file | module | what it holds |
|---|---|---|
| `kinds.dfy` | `Kinds` | the seven concrete actor classes as a `Kind` tag; the game's constants |
| `geometry.dfy` | `Geometry` | axis-aligned boxes and their overlap test |
| `random.dfy` | `Random` | `Rng`: `Math.random()` as a stream of draws in [0, 1); `Collections.shuffle` as an arbitrary permutation |
| `lists.dfy` | `Lists` | the add-if-absent guard and `List.remove` |
| `motion.dfy` | `Motion` | move patterns, the two boss cursors, the clamped vertical step |
| `damage.dfy` | `Damage` | `takeDamage` of every class as a function on health and destroyed |
| `actor_rules.dfy` | `ActorRules` | one `updateActor()` of every class as a function on an actor's fields, and its invariants |
| `actor.dfy` | `Actors` | class `Actor`: the Java hierarchy as one class whose methods update fields in place |
| `actor_lists.dfy` | `ActorLists` | filters over actor lists, and the `forEach(updateActor)` walk |
| `collisions.dfy` | `Collisions` | the pairwise damage passes, with the hit count of each actor |
| `heart.dfy`, `heart_display.dfy` | `Hearts`, `HeartDisplays` | heart pick-ups and the heart display |
| `level_view.dfy` | `LevelViews` | overlay nodes on the root and heart reconciliation |
| `hitbox_manager.dfy` | `HitboxManagers` | the hitbox registry |
| `level_rules.dfy` | `LevelRules` | the level's control state (latch, pause, win and loss) as functions |
| `level.dfy` | `Levels` | class `Level`: LevelParent with the LevelOne, LevelTwo and LevelThree overrides, and the tick |

How the Java class hierarchy maps onto the model:

- **One class, tagged by kind.** `Actor` has a `kind` field that says which concrete class an object is. Every overridden method dispatches on it.
  - The fields are split in two. `Fields()` holds everything but health and the destroyed flag. `Condition()` holds those two.
  - Every method states both parts of the new state.
- **Two hitbox offsets.** `FighterPlane` shadows `ActiveActor`'s hitbox and offsets with its own. Planes therefore use `FighterPlane`'s rectangle.
  - The model keeps two offset pairs: FighterPlane's, and the subclass's own (Boss, EnemyPlane, UserProjectile).
  - `ActorRules.OffsetX` and `ActorRules.OffsetY` say which pair each class reads.
- **Randomness as inputs.** A draw from `Math.random()` is the next value of an arbitrary stream in [0, 1). A shuffle is an arbitrary multiset-preserving function. The actor-level methods and `Levels.Level.SpawnHearts` state their result in terms of the draw they consumed. The list-level loops state the set of possible outcomes instead: a cap on spawned planes (`SpawnWaves`), the possible volleys (`GenerateEnemyFire`, `FireVolleys`, `EnemyFires`), or some step of each actor (`UpdateEach`, `StepAll`, `UpdateActors`, `UpdateScene`).
- **Numbers.** Positions and sizes are `real`, which is exact rather than floating point. Health, kills, cursors and counters are `int`.

## Model

| member | source | states |
|---|---|---|
| Geometry.IntersectsMeansCommonPoint | src/main/java/Manager/HitboxManager.java:35-38 | two hitboxes intersect exactly when some point lies in both (both directions) |
| Geometry.IntersectsSymmetric | src/main/java/Manager/CollisionManager.java:12-24 | overlap does not depend on which actor asks |
| Random.Rng.Peek | src/main/java/Entities/Boss.java:360-362 | every `Math.random()` draw lies in [0, 1) |
| Random.Rng.Next | src/main/java/Entities/EnemyPlane.java:105-112 | a draw consumes exactly one value of the stream, the one `Peek` showed, and no shuffle |
| Random.Rng.Shuffle | src/main/java/Entities/Boss.java:343 | `Collections.shuffle` returns a permutation of its list (same multiset, same length) and consumes one shuffle |
| Lists.AddIfAbsent | src/main/java/Levels/LevelParent.java:476-483 | the guarded add keeps the old list as a prefix, grows it by at most one, and leaves x in it |
| Lists.AddIfAbsentElements | src/main/java/Manager/HitboxManager.java:14-19 | after a guarded add the list holds exactly the old elements and x |
| Lists.AddIfAbsentIdempotent | src/main/java/Manager/HitboxManager.java:15-16 | adding the same element twice equals adding it once |
| Lists.AddIfAbsentKeepsNoDuplicates | src/main/java/Levels/LevelParent.java:476-483 | a list without duplicates stays without duplicates under the guarded add |
| Lists.RemoveFirst | src/main/java/Manager/HitboxManager.java:22-25 | `remove(x)` takes exactly one x out of the multiset when x is present, and changes nothing otherwise |
| Lists.FirstIndex | src/main/java/Manager/HitboxManager.java:22-25 | the position `remove(x)` looks for: it holds x and no earlier position does |
| Lists.RemoveFirstKeepsOrder | src/main/java/Manager/HitboxManager.java:22-25 | `remove(x)` drops the first occurrence of x and leaves everything before and after it in order |
| Lists.RemoveFirstOfNoDuplicates | src/main/java/Manager/HitboxManager.java:22-25 | in a duplicate-free list, x is absent after removal and no duplicate appears |
| Lists.RemoveFirstUndoesAdd | src/main/java/Manager/HitboxManager.java:14-25 | registering an absent actor and then unregistering it gives back the registry |
| Motion.CyclesHoldOnlyMoves | src/main/java/Entities/Boss.java:300-307 | only +v, -v and 0 occur in the filled pattern |
| Motion.MovePatternEntries | src/main/java/Entities/Boss.java:339-351 | every move read from a pattern is 8, -8 or 0 |
| Motion.PermutedMovePattern | src/main/java/Entities/Boss.java:343 | reshuffling keeps five copies each of 8, -8 and 0 |
| Motion.BossAdvance | src/main/java/Entities/Boss.java:339-351 | the cursor stays in 0..14 and the run counter in 0..9; the counter goes up mod 10; the index advances by one, wrapping at 15, exactly when the counter reaches 10 |
| Motion.BossAdvanceN | src/main/java/Entities/Boss.java:339-351 | any number of calls keeps the cursor bounds |
| Motion.BossCursorSchedule | src/main/java/Entities/Boss.java:339-351 | from a new Boss, frame n reads entry (n / 10) mod 15: each entry serves exactly 10 frames in a row, cyclically |
| Motion.WrapIncrement | src/main/java/Entities/Boss.java:345-349 | incrementing an index and resetting it at 15 is the same as incrementing mod 15 |
| Motion.MutationAdvance | src/main/java/Entities/MutationBoss1.java:126-131 | the frame counter stays in 0..19 and the index in 0..14; the index advances by one mod 15 exactly on every 20th call |
| Motion.MutationAdvanceN | src/main/java/Entities/MutationBoss1.java:126-131 | any number of updates keeps the MutationBoss1 cursor bounds |
| Motion.MutationCursorSchedule | src/main/java/Entities/MutationBoss1.java:115-134 | from a new MutationBoss1, after n frames the index is (n / 20) mod 15 and the counter n mod 20 |
| Motion.ClampedStep | src/main/java/Entities/Boss.java:225-232 | the step is taken or rolled back; a step that stays in the band is taken and one that leaves it is rolled back, whatever the start; an actor inside the band stays inside; the same clamp serves the bosses' band [-100, 475] and UserPlane's [-40, 600] |
| Damage.PlaneHit | src/main/java/Core/FighterPlane.java:31-38 | a plane hit lowers health by exactly 1 with no lower guard; it is destroyed iff it was destroyed already or health is now at most 0 |
| Damage.AfterDamage | src/main/java/Core/Projectile.java:25-27 | one hit on any class: a projectile is destroyed and keeps its health; a plane loses at most one health; destroyed is never cleared |
| Damage.ShieldBlocksEveryHit | src/main/java/Entities/UserPlane.java:129-137 | while the shield is up, any number of hits on the user plane or a boss changes nothing (UserPlane's and Boss's shielded `takeDamage`) |
| Damage.UnguardedPlaneHits | src/main/java/Core/FighterPlane.java:31-38 | n unshielded hits lower health by exactly n, possibly below 0; the plane is destroyed iff it was already, or a hit took health to 0 or below |
| Damage.MutationBossHits | src/main/java/Entities/MutationBoss1.java:179-198 | from non-negative health, MutationBoss1 loses one health per hit down to 0 and never below; it is destroyed iff the hits used up a positive health |
| Damage.ProjectileHits | src/main/java/Core/Projectile.java:25-27 | a projectile is destroyed by its first hit; later hits change nothing (idempotent) |
| Damage.DestroyedIsSticky | src/main/java/Core/ActiveActorDestructible.java:53-64 | damage never clears the destroyed flag |
| Damage.HitsCompose | src/main/java/Manager/CollisionManager.java:27-38 | n hits followed by m hits are n + m hits, for every class |
| Damage.BossFallsOnNineteenthHit | src/main/java/Entities/Boss.java:73 | a new unshielded Boss survives 18 hits and is destroyed from the 19th on |
| ActorRules.Sync | src/main/java/Core/ActiveActor.java:55-58 | `updateHitbox` moves the hitbox to the position plus the class's offsets; the size and every other field stay the same |
| ActorRules.StepKeepsInvariants | src/main/java/Entities/Boss.java:318-330 | an update keeps each class's invariants: shield counter in 0..499 and 0 while unshielded; the pattern still a permutation; cursors in bounds; bosses and the user inside their bands; multiplier in {-1, 0, 1} |
| ActorRules.StepFrame | src/main/java/Entities/EnemyPlane.java:86-97 | no update changes the layout, the hitbox size, the offsets, the kill counter or the velocities; the hitbox follows the new position |
| ActorRules.SteppedFrame | src/main/java/Levels/LevelParent.java:344-359 | whatever shuffle and draw an update consumed, the frame of `StepFrame` and the class invariants hold |
| ActorRules.TicksDrift | src/main/java/Entities/EnemyProjectile.java:44-54 | after n updates a drifting actor has moved by exactly n velocities: EnemyPlane -6, UserProjectile +15, EnemyProjectile -10, BossProjectile (vx, vy); the layout and the velocity never change, so a boss projectile moves by its stored velocity until `setVelocity` replaces it |
| Actors.FillMovePattern | src/main/java/Entities/Boss.java:300-307 | the pattern is +v, -v, 0 repeated: 15 entries, five of each |
| Actors.Actor.UserPlane | src/main/java/Entities/UserPlane.java:27-45 | a new user plane has the given health and is not destroyed; no kills, no motion, no shield; hitbox size 0.8 x 0.5 of the image height, y offset set |
| Actors.Actor.EnemyPlane | src/main/java/Entities/EnemyPlane.java:71-79 | a new enemy plane has 1 health and is not destroyed; its layout is the given position; hitbox 135 x 45; own offsets (40, 60) |
| Actors.Actor.Boss | src/main/java/Entities/Boss.java:183-211 | a new Boss has 19 health; shield down; cursor, run counter and shield frames at 0; a shuffled pattern; own offsets (50, 100) |
| Actors.Actor.MutationBoss | src/main/java/Entities/MutationBoss1.java:83-94 | a new MutationBoss1 has 10 health, a shuffled pattern of its own, and its cursor at 0; it draws two shuffles, the one made for Boss's own (never read) pattern during Boss's set-up (Boss.java:174-211) and then its own |
| Actors.Actor.UserProjectile | src/main/java/Entities/UserProjectile.java:48-56 | a new user projectile is not destroyed; its layout is the given position; its 37.5 x 25 hitbox sits at position + (50, 50) |
| Actors.Actor.EnemyProjectile | src/main/java/Entities/EnemyProjectile.java:36-38 | a new enemy projectile is not destroyed; its layout is the given position |
| Actors.Actor.BossProjectile | src/main/java/Entities/BossProjectile.java:46-50 | a new boss projectile is not destroyed and stores the given velocity |
| Actors.Actor.UpdateHitbox | src/main/java/Core/FighterPlane.java:60-68 | each class's `updateHitbox` moves the hitbox to position + offsets and changes nothing else |
| Actors.Actor.UpdateActorHitbox | src/main/java/Core/ActiveActor.java:63-65 | `updateActorHitbox` has exactly the effect of `updateHitbox` |
| Actors.Actor.SetHitboxSize | src/main/java/Core/ActiveActor.java:73-79 | width and height are set exactly; a projectile's position is then re-synced; a plane's (FighterPlane's override) is only resized |
| Actors.Actor.SetHitboxOffset | src/main/java/Core/FighterPlane.java:50-54 | only the offsets change; Boss's override writes its own pair, not FighterPlane's |
| Actors.Actor.MoveHorizontally | src/main/java/Core/ActiveActor.java:95-98 | translateX grows by exactly d; translateY is unchanged; then the hitbox is re-synced |
| Actors.Actor.MoveVertically | src/main/java/Core/ActiveActor.java:105-108 | translateY grows by exactly d; translateX is unchanged; then the hitbox is re-synced |
| Actors.Actor.Destroy | src/main/java/Core/ActiveActorDestructible.java:53-64 | afterwards the actor is destroyed, whatever it was before (so twice equals once); nothing else changes |
| Actors.Actor.FighterTakeDamage | src/main/java/Core/FighterPlane.java:31-38 | health and destroyed follow `PlaneHit`; position and hitbox stay |
| Actors.Actor.TakeDamage | src/main/java/Entities/UserPlane.java:129-137 | each class's `takeDamage` follows `AfterDamage` and changes no other field |
| Actors.Actor.BossTakeDamage | src/main/java/Entities/Boss.java:273-282 | Boss ignores hits while shielded; otherwise health goes down by 1 and destroyed is set at 0 or below |
| Actors.Actor.SetHealth | src/test/java/Core/TestFighterPlane.java:62-63 | health becomes h; nothing else changes |
| Actors.Actor.IncrementHealth | src/test/java/Entities/TestUserPlane.java:65-66 | health goes up by exactly 1; nothing else changes |
| Actors.Actor.SetVelocity | src/main/java/Entities/BossProjectile.java:77-80 | both velocity components are replaced, and only they change |
| Actors.Actor.MoveUp | src/main/java/Entities/UserPlane.java:92-94 | the multiplier becomes -1, and the plane's invariants hold |
| Actors.Actor.MoveDown | src/main/java/Entities/UserPlane.java:96-98 | the multiplier becomes 1 |
| Actors.Actor.Stop | src/main/java/Entities/UserPlane.java:100-102 | the multiplier becomes 0 |
| Actors.Actor.IncrementKillCount | src/main/java/Entities/UserPlane.java:108-110 | kills go up by exactly 1 |
| Actors.Actor.ActivateShield | src/main/java/Entities/UserPlane.java:113-116 | afterwards `isShieldActive()` holds; only the flag changes |
| Actors.Actor.DeactivateShield | src/main/java/Entities/UserPlane.java:119-122 | afterwards `isShieldActive()` does not hold; only the flag changes |
| Actors.Actor.GetNextMove | src/main/java/Entities/Boss.java:339-351 | returns the entry under the cursor, read before the cursor moves; the cursor advances as `BossAdvance` says; the pattern is reshuffled exactly on the 10th frame of a run |
| Actors.Actor.UpdateShield | src/main/java/Entities/Boss.java:318-330 | the shield follows `ShieldStep`; a draw is consumed only while the shield is down |
| Actors.Actor.UserPlaneUpdatePosition | src/main/java/Entities/UserPlane.java:53-69 | nothing moves when the multiplier is 0; otherwise a step of 8 times the multiplier, rolled back outside [-40, 600] |
| Actors.Actor.BossUpdatePosition | src/main/java/Entities/Boss.java:225-240 | the boss moves by the next move, rolled back outside [-100, 475]; one shuffle on the 10th frame; no draw |
| Actors.Actor.MutationUpdatePosition | src/main/java/Entities/MutationBoss1.java:115-134 | MutationBoss1 moves by the current entry, rolled back outside [-100, 475]; the cursor advances as `MutationAdvance` says; no reshuffle |
| Actors.Actor.UpdatePosition | src/main/java/Entities/EnemyPlane.java:86-89 | each class's `updatePosition` is the movement part of `Step`; only Boss reshuffles |
| Actors.Actor.UpdateActor | src/main/java/Entities/Boss.java:251-255 | `updateActor` is `Step` of the old fields for every class; health is untouched and the class invariants hold; only a Boss consumes draws or shuffles, so MutationBoss1's update never runs the shield logic |
| Actors.Actor.FireProjectile | src/main/java/Entities/UserPlane.java:77-86 | the user plane always fires, at (layoutX + 110, layoutY + translateY + 20), ignoring translateX. An enemy plane fires iff the draw is below 0.01, at its position + (-100, 50). A boss fires iff the draw is below 0.04: one shot at (x, y + 75) with velocity (-15, 0) |
| Actors.Actor.FireVolley | src/main/java/Entities/MutationBoss1.java:152-173 | iff the draw is below 0.1, three new distinct shots are appended, in order, at (x, y+75, -15, 0), (x, y+25, -12, -5) and (x, y+125, -12, 5); otherwise the list is unchanged |
| ActorLists.Survivors | src/main/java/Levels/LevelParent.java:369-375 | `removeDestroyedActors` keeps every non-destroyed actor and no destroyed one |
| ActorLists.SurvivorsFromList | src/main/java/Levels/LevelParent.java:369-375 | every survivor comes from the list |
| ActorLists.Casualties | src/main/java/Levels/LevelParent.java:435-448 | the destroyed enemies are exactly the ones that are not survivors |
| ActorLists.CasualtiesFromList | src/main/java/Levels/LevelParent.java:435-448 | every destroyed enemy counted comes from the list |
| ActorLists.CasualtiesCountDestroyed | src/main/java/Levels/LevelParent.java:435-448 | each destroyed actor is counted exactly as often as it occurs in the list and no live one is counted, so the count is the number of destroyed entries |
| ActorLists.CasualtiesKeepNoDuplicates | src/main/java/Levels/LevelParent.java:435-448 | collecting the destroyed enemies of a duplicate-free list repeats none of them |
| ActorLists.SurvivorsKeepNoDuplicates | src/main/java/Levels/LevelParent.java:369-375 | filtering keeps a list free of duplicates |
| ActorLists.OnScreen | src/main/java/Levels/LevelParent.java:353-356 | the enemy projectiles kept are exactly those laid out at x >= 0 |
| ActorLists.OnScreenFromList | src/main/java/Levels/LevelParent.java:353-356 | every kept projectile comes from the list |
| ActorLists.OnScreenKeepsNoDuplicates | src/main/java/Levels/LevelParent.java:353-356 | the filter keeps the list free of duplicates |
| ActorLists.Penetrations | src/main/java/Levels/LevelParent.java:406-429 | flags each actor whose translate has passed the limit |
| ActorLists.TruesNone | src/main/java/Levels/LevelParent.java:305-316 | none of the flags is set iff the count of set flags is 0 |
| ActorLists.FlaggedHas | src/main/java/Levels/LevelParent.java:305-316 | the flagged list holds exactly the entries at flagged positions |
| ActorLists.UnflaggedHas | src/main/java/Levels/LevelParent.java:315 | `removeAll` keeps exactly the entries at unflagged positions |
| ActorLists.KindsOf | src/main/java/Levels/LevelParent.java:318-340 | the classes of a list's actors, in order |
| ActorLists.PossibleShotsBounded | src/main/java/Levels/LevelParent.java:318-340 | one firing round adds at most one shot per Boss or plane and three per MutationBoss1 |
| ActorLists.UpdateEach | src/main/java/Levels/LevelParent.java:344-347 | `forEach(updateActor)` gives every actor of the list exactly one update; health and layout stay; the invariants hold |
| Collisions.Boxes | src/main/java/Manager/CollisionManager.java:12-24 | the hitboxes of a list, in order |
| Collisions.HitsTransposed | src/main/java/Manager/CollisionManager.java:13-14 | nesting the loops either way deals every actor the same hits, so the CollisionManager and LevelParent versions agree |
| Collisions.LastColumn | src/main/java/Manager/CollisionManager.java:12-24 | peeling off the last inner actor adds exactly that actor's row of hits |
| Collisions.HitsOfOuterActor | src/main/java/Manager/CollisionManager.java:12-24 | with disjoint, duplicate-free lists, an outer actor is hit once per inner actor whose box meets its own |
| Collisions.HitsOfInnerActor | src/main/java/Manager/CollisionManager.java:12-24 | the same for an inner actor |
| Collisions.HitsOfBystander | src/main/java/Manager/CollisionManager.java:12-24 | an actor in neither list is never hit |
| Collisions.ResolveCollision | src/main/java/Manager/CollisionManager.java:27-38 | one hit on each side; the `destroy()` calls change nothing beyond it; positions and hitboxes stay |
| Collisions.CollideRow | src/main/java/Manager/CollisionManager.java:14-22 | the inner loop hits each tracked actor once per intersecting pair of the row |
| Collisions.HandleCollisions | src/main/java/Manager/CollisionManager.java:12-24 | every actor of either list takes exactly its `Hits` count; no destroyed check; hitboxes, other fields and the lists are untouched |
| Hearts.Heart.constructor | src/main/java/Entities/Heart.java:30-37 | a new heart stores the given x and y and is not destroyed |
| Hearts.Heart.Destroy | src/main/java/Entities/Heart.java:42-53 | afterwards `isDestroyed()` holds; the position stays |
| Hearts.Heart.UpdateActor | src/main/java/Entities/Heart.java:58-61 | a heart's update changes nothing |
| HeartDisplays.HeartDisplay.constructor | src/main/java/Ui/HeartDisplay.java:56-61 | built with n, the display holds max(n, 0) hearts |
| HeartDisplays.HeartDisplay.InitializeHearts | src/main/java/Ui/HeartDisplay.java:77-81 | n icons are appended after the existing ones |
| HeartDisplays.HeartDisplay.RemoveHeart | src/main/java/Ui/HeartDisplay.java:86-90 | the first icon is removed when there is one, the rest keep their order; an empty display stays empty |
| HeartDisplays.HeartDisplay.AddHeart | src/main/java/Ui/HeartDisplay.java:95-100 | exactly one new icon is appended at the end |
| HitboxManagers.HitboxManager.constructor | src/main/java/Manager/HitboxManager.java:10 | a new registry is empty |
| HitboxManagers.HitboxManager.RegisterActor | src/main/java/Manager/HitboxManager.java:14-19 | the actor is added only when absent, so the registry stays free of duplicates |
| HitboxManagers.HitboxManager.UnregisterActor | src/main/java/Manager/HitboxManager.java:22-25 | the actor's entry is removed and the actor is then absent |
| HitboxManagers.HitboxManager.UpdateHitboxes | src/main/java/Manager/HitboxManager.java:28-32 | the registry is unchanged; every registered actor's hitbox is re-synced and nothing else changes |
| HitboxManagers.HitboxManager.CheckCollision | src/main/java/Manager/HitboxManager.java:35-38 | true iff the two hitboxes share a point |
| LevelViews.LevelView.constructor | src/main/java/Levels/LevelView.java:70-75 | a new view's heart display shows max(heartsToDisplay, 0) hearts |
| LevelViews.LevelView.ShowHeartDisplay | src/main/java/Levels/LevelView.java:81-85 | the heart container is added to the root at most once |
| LevelViews.LevelView.ShowWinImage | src/main/java/Levels/LevelView.java:91-96 | the win image is added at most once |
| LevelViews.LevelView.ShowGameOverImage | src/main/java/Levels/LevelView.java:102-106 | the game-over image is added at most once |
| LevelViews.LevelView.RemoveHearts | src/main/java/Levels/LevelView.java:113-119 | min(current, max(n, 0)) hearts remain, and they are the last ones |
| LevelViews.LevelView.AddHearts | src/main/java/Levels/LevelView.java:126-132 | max(current, n) hearts remain, the old ones first |
| LevelRules.CleanedUp | src/main/java/Levels/LevelParent.java:188-202 | cleanup empties the root and all five lists |
| LevelRules.Switched | src/main/java/Levels/LevelParent.java:158-186 | a switch sets the latch; while the latch is set it is a no-op; otherwise it schedules the named level, stops the timeline and empties the lists |
| LevelRules.SwitchCompleted | src/main/java/Levels/LevelParent.java:176-185 | the deferred callback announces the scheduled level and releases the latch |
| LevelRules.SwitchIsLatched | src/main/java/Levels/LevelParent.java:158-163 | a second `goToNextLevel` during a switch changes nothing |
| LevelRules.SwitchAnnouncesOnce | src/main/java/Levels/LevelParent.java:158-186 | a switch and its callback announce exactly the requested level, once, and keep the latch consistent |
| LevelRules.PauseToggled | src/main/java/Levels/LevelParent.java:136-148 | the pause flag flips; pausing pauses a running timeline, resuming plays it; nothing else changes |
| LevelRules.PauseToggledTwice | src/main/java/Levels/LevelParent.java:136-148 | two toggles restore the flag, and the whole state when the timeline agreed with the flag |
| LevelRules.Won | src/main/java/Levels/LevelParent.java:454-457 | winning stops the timeline and shows the win image |
| LevelRules.Lost | src/main/java/Levels/LevelParent.java:459-462 | losing stops the timeline and shows the game-over image |
| LevelRules.LossBeatsAdvance | src/main/java/Levels/LevelOne.java:101-106 | a destroyed user loses, even with the kill target met, and no switch is scheduled |
| LevelRules.AdvanceOnKillTarget | src/main/java/Levels/LevelOne.java:149-151 | a surviving user on LevelOne or LevelTwo advances iff kills reach 10 (LevelOne) or 15 (LevelTwo); below the target nothing changes |
| LevelRules.FirstBossAloneNeverWins | src/main/java/Levels/LevelThree.java:65-71 | while the mutation boss stands, the check never shows the win image |
| LevelRules.LatchReleasedOnlyByCallback | src/main/java/Levels/LevelParent.java:158-202 | while a switch is under way, every rule keeps the latch set and only the callback releases it |
| LevelRules.SweepAsWritten | src/main/java/Levels/LevelParent.java:348-358 | the loop as written aborts iff some projectile is left of 0; it then removes only the first such projectile and updates none after it |
| LevelRules.NegativePositions | src/main/java/Levels/LevelParent.java:353 | the positions of the projectiles laid out left of 0 |
| LevelRules.SweepAsWrittenSkipsUpdates | src/main/java/Levels/LevelParent.java:348-358 | on [-1, 5] the loop as written updates one projectile and aborts; the corrected sweep updates both |
| LevelRules.SweepFixedUpdatesAll | src/main/java/Levels/LevelParent.java:344-359 | the corrected sweep updates every projectile, removes exactly those left of 0, and agrees with the loop when none is |
| Levels.Touches | src/main/java/Levels/LevelParent.java:308 | flags exactly the hearts whose bounds meet the user's hitbox |
| Levels.Collection | src/main/java/Levels/LevelParent.java:305-316 | the hearts kept are exactly those the user's hitbox misses; none is collected iff none is touched |
| Levels.Collected | src/main/java/Levels/LevelParent.java:305-316 | a heart is collected iff its own flag is set |
| Levels.Culled | src/main/java/Levels/LevelParent.java:362-375 | removing destroyed actors keeps every list within its classes and free of duplicates |
| Levels.EnemyFires | src/main/java/Levels/LevelParent.java:318-340 | one enemy appends nothing, or its shots (one, or three for MutationBoss1), all new |
| Levels.RemoveCollected | src/main/java/Levels/LevelParent.java:315 | `hearts.removeAll(collected)` keeps exactly the untouched hearts |
| Levels.Level.constructor | src/main/java/Levels/LevelParent.java:58-79 | a new level holds only the user, with 5 health and no kills; a view of 5 hearts; empty lists; no switch, no pause; LevelThree also builds its two bosses |
| Levels.Level.InitializeScene | src/main/java/Levels/LevelParent.java:90-101 | the heart display is shown on the first call only |
| Levels.Level.StartGame | src/main/java/Levels/LevelParent.java:151-156 | the timeline is running; nothing else changes |
| Levels.Level.TogglePause | src/main/java/Levels/LevelParent.java:136-148 | the level state follows `PauseToggled` |
| Levels.Level.CleanUpLevel | src/main/java/Levels/LevelParent.java:188-202 | the level state follows `CleanedUp` |
| Levels.Level.GoToNextLevel | src/main/java/Levels/LevelParent.java:158-186 | the level state follows `Switched`, and the level stays well formed |
| Levels.Level.CompleteLevelSwitch | src/main/java/Levels/LevelParent.java:176-185 | the level state follows `SwitchCompleted` |
| Levels.Level.WinGame | src/main/java/Levels/LevelParent.java:454-457 | the level state follows `Won` |
| Levels.Level.LoseGame | src/main/java/Levels/LevelParent.java:459-462 | the level state follows `Lost` |
| Levels.Level.CheckIfGameOver | src/main/java/Levels/LevelOne.java:101-108 | the stage's rule: loss for a destroyed user, else advance (LevelOne, LevelTwo) or win (LevelThree); a switch already scheduled stays |
| Levels.Level.AddEnemyUnit | src/main/java/Levels/LevelParent.java:476-503 | the enemy is added only when absent |
| Levels.Level.SpawnWaves | src/main/java/Levels/LevelOne.java:123-132 | with n enemies at most 5 - n are added (8 - n on LevelTwo); the old ones stay first; each new one is a fresh plane at (screenWidth, r * enemyMaxY) with r in [0, 1) |
| Levels.Level.SpawnBosses | src/main/java/Levels/LevelThree.java:79-87 | nothing is added while any enemy is present; otherwise the boss if it stands, else the mutation boss if it stands |
| Levels.Level.SpawnEnemyUnits | src/main/java/Levels/LevelParent.java:85 | the stage's override runs; the enemy list only keeps old enemies, the two bosses or fresh planes, and stays within the cap |
| Levels.Level.SpawnHearts | src/main/java/Levels/LevelParent.java:268-277 | a heart appears iff the draw is below 0.01, at the right edge, below enemyMaxY |
| Levels.Level.FireUserProjectile | src/main/java/Levels/LevelParent.java:257-266 | one new user projectile is appended at the user's gun position |
| Levels.Level.RemoveAllDestroyedActors | src/main/java/Levels/LevelParent.java:362-375 | each of the four lists keeps exactly its non-destroyed actors, in order |
| Levels.Level.UpdateActors | src/main/java/Levels/LevelParent.java:344-359 | every actor takes exactly one update; then the enemy projectiles left of 0 are dropped (the corrected version) |
| Levels.Level.StepAll | src/main/java/Levels/LevelParent.java:345-348 | the four walks update every actor once, with health and lists untouched |
| Levels.Level.HandleHeartCollisions | src/main/java/Levels/LevelParent.java:305-316 | each touched heart gives one health and tops the display up to the new health; touched hearts leave the list |
| Levels.Level.CollectHearts | src/main/java/Levels/LevelParent.java:307-314 | health grows by the number of touched hearts |
| Levels.Level.GenerateEnemyFire | src/main/java/Levels/LevelParent.java:318-340 | enemy projectiles are only appended, all new, and at most one per Boss or plane and three per MutationBoss1 |
| Levels.Level.FireVolleys | src/main/java/Levels/LevelParent.java:320-339 | each enemy's shots are appended in turn |
| Levels.Level.UpdateNumberOfEnemies | src/main/java/Levels/LevelParent.java:518-520 | the counter becomes the enemy list's size |
| Levels.Level.HandleEnemyPenetration | src/main/java/Levels/LevelParent.java:406-429 | the user takes one hit per enemy past the screen width; no actor's body changes |
| Levels.Level.PenetrateEnemies | src/main/java/Levels/LevelParent.java:407-412 | each enemy past the screen width is destroyed and costs the user one hit |
| Levels.Level.Breach | src/main/java/Levels/LevelParent.java:409-410 | one penetrating enemy: the user takes a hit and the enemy is destroyed |
| Levels.Level.DestroyStrays | src/main/java/Levels/LevelParent.java:415-425 | each projectile whose translate has passed 1000 is destroyed; nothing else changes |
| Levels.Level.HandleCollisions | src/main/java/Levels/LevelParent.java:389-404 | every pair of intersecting actors takes one hit each, with no destroyed check; the lists stay |
| Levels.Level.HandleUserProjectileCollisions | src/main/java/Levels/LevelParent.java:381-383 | user projectiles against enemies, per `HandleCollisions` |
| Levels.Level.HandleEnemyProjectileCollisions | src/main/java/Levels/LevelParent.java:385-387 | enemy projectiles against the user, per `HandleCollisions` |
| Levels.Level.HandlePlaneCollisions | src/main/java/Levels/LevelParent.java:377-379 | the user against enemy planes, per `HandleCollisions` |
| Levels.Level.UpdateKillCount | src/main/java/Levels/LevelParent.java:435-448 | kills grow by exactly the number of destroyed enemies, those enemies leave the list, and the counter is the new size |
| Levels.Level.CountKills | src/main/java/Levels/LevelParent.java:440-442 | kills grow by exactly n |
| Levels.Level.UpdateLevelView | src/main/java/Levels/LevelParent.java:431-433 | the display shows min(current, max(health, 0)) hearts |
| Levels.Level.UpdateScene | src/main/java/Levels/LevelParent.java:205-220 | across a tick: the level stays well formed; the enemy cap holds; kills never drop; no destroyed enemy is left; a latch once set stays set with its scheduled level |
| Levels.Level.Replenish | src/main/java/Levels/LevelParent.java:206-208 | the lists only lose destroyed actors and gain new enemies; the cap holds |
| Levels.Level.Advance | src/main/java/Levels/LevelParent.java:209-210 | moving and collecting hearts keep the lists and the kill count |
| Levels.Level.Arm | src/main/java/Levels/LevelParent.java:211-212 | firing only adds enemy projectiles |
| Levels.Level.Clash | src/main/java/Levels/LevelParent.java:213-216 | penetration and collisions keep the level well formed and the kill count |
| Levels.Level.Settle | src/main/java/Levels/LevelParent.java:217-219 | kill accounting removes every destroyed enemy; the cap and the latch hold |

## Left out

- Rendering and input are not modelled: the JavaFX scene graph, images, key handlers, the pause menu, hitbox visualisation and debug output. The root's children are modelled only where a guard reads them: the heart container, the win image and the game-over image.
- The `Timeline` that calls `updateScene` is not modelled. A tick is an explicit call of `Levels.Level.UpdateScene`, and the 2 ms deferred switch is `Levels.Level.CompleteLevelSwitch`.
- Hearts drift and disappear through `TranslateTransition` animations and timers, which are not modelled. A heart's position is fixed at its spawn point.
- Audio (`MusicPlayer`), menus, the windows, `Controller` and `Main` are not modelled. Levels are loaded by reflection there. `LevelViewLevelTwo`, the boss health bar and the kill-progress text are presentation only. The older `com.example.demo` plane files are superseded and not modelled.
- `moveLeft`, `moveRight`, `stopVertical`, `stopHorizontal` and `visualizeHitbox` are called but never defined, so they are not modelled. `setHealth` and `incrementHealth` are also never defined; they carry only what their tests assert.
- `setDestroyed` is modelled only as it is called, with true, inside `destroy()`. No caller passes false.
- Randomness is an oracle. `Math.random()` is an arbitrary stream of values in [0, 1), and `Collections.shuffle` an arbitrary permutation.
- Doubles are modelled as exact reals. Rounding is not modelled.
- JavaFX's `intersects` on bounds in parent is modelled as overlap of closed axis-aligned rectangles. Stroke widening and transforms other than translation are left out.
- Objects have no ownership footprints. Two lists may not share an actor, and `Levels.Level.Valid` states this. Aliasing between levels is not modelled.
- Levels.Level.UpdateScene: the tick is split into `Replenish`, `Advance`, `Arm`, `Clash` and `Settle` so that each part's proof stays small. The tick's contract states the invariants across a tick; the exact per-actor effects are stated by the parts and the methods they call.
- Levels.Level.HandleEnemyPenetration: its contract states the user's damage and that no body changes. What happens to each enemy and projectile is stated by `PenetrateEnemies` and `DestroyStrays`, which it calls on the enemy list and the two projectile lists.
- Levels.Level.UpdateKillCount: the model filters the list before counting. The source counts first, then removes. Both give the same kill count and the same list.
- Levels.Level.UpdateActors: it uses the corrected sweep (see Findings), not the in-loop removal that ends the tick with an exception.

## Findings

| source | as written | input that shows it | evidently intended | confidence | as-written member | corrected member |
|---|---|---|---|---|---|---|
| src/main/java/Levels/LevelParent.java:348-358 | the `enemyProjectiles.forEach` removes a projectile from the list it is iterating. `ArrayList.forEach` then stops and throws `ConcurrentModificationException`, so later projectiles are not updated and the rest of the tick does not run. The test also reads `getLayoutX()`, which movement never changes, so only a projectile spawned left of 0 is ever removed. | two enemy projectiles laid out at x = -1 and x = 5 | update every projectile, then drop those that have left the screen | not executed | LevelRules.SweepAsWritten, LevelRules.SweepAsWrittenSkipsUpdates | LevelRules.SweepFixedUpdatesAll, Levels.Level.UpdateActors |
