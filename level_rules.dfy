/**
 * The level's bookkeeping as values: the lists, counters and flags a level
 * holds, and what the latch, pause, clean-up and game-over rules make of
 * them. The `Level` class is proved against these functions.
 */
module LevelRules {
  import opened Lists
  import opened Actors
  import opened Hearts
  import opened LevelViews

  datatype Option<T> = None | Some(value: T)

  datatype Stage = LevelOne | LevelTwo | LevelThree

  /** The status of the level's game-loop timeline. */
  datatype Status = Running | Paused | Stopped

  const PlayerInitialHealth: int := 5
  const ScreenHeightAdjustment: real := 150.0
  const HeartSpawnProbability: real := 0.01
  /** A projectile this far from where it was laid out has left the field. */
  const ProjectileRange: real := 1000.0

  /** TOTAL_ENEMIES of the two wave levels; the boss level never holds more than one enemy. */
  function EnemyCap(stage: Stage): nat
  {
    match stage
    case LevelOne => 5
    case LevelTwo => 8
    case LevelThree => 1
  }

  function KillsToAdvance(stage: Stage): int
    requires stage != LevelThree
  {
    if stage == LevelOne then 10 else 15
  }

  function SpawnProbability(stage: Stage): real
    requires stage != LevelThree
  {
    if stage == LevelOne then 0.20 else 0.30
  }

  function NextLevel(stage: Stage): string
    requires stage != LevelThree
  {
    if stage == LevelOne then "Levels.LevelTwo" else "Levels.LevelThree"
  }

  /** userHasReachedKillTarget of the two wave levels. */
  predicate HasReachedKillTarget(stage: Stage, kills: int)
    requires stage != LevelThree
  {
    kills >= KillsToAdvance(stage)
  }

  /**
   * Everything about a level that changes: the actor lists, the heart list,
   * the enemy counter, the level-switch latch with the switch it has
   * scheduled and the switches announced so far, the pause flag, the
   * timeline status, the scene flag, and the overlay nodes on the root.
   */
  datatype LevelState = LevelState(
    friendlyUnits: seq<Actor>,
    enemyUnits: seq<Actor>,
    userProjectiles: seq<Actor>,
    enemyProjectiles: seq<Actor>,
    hearts: seq<Heart>,
    currentNumberOfEnemies: int,
    isLevelSwitching: bool,
    pendingLevel: Option<string>,
    announced: seq<string>,
    isPaused: bool,
    timeline: Status,
    isSceneInitialized: bool,
    root: seq<SceneNode>)

  /** The latch is set exactly while a switch is scheduled. */
  predicate LatchConsistent(s: LevelState)
  {
    s.isLevelSwitching <==> s.pendingLevel.Some?
  }

  /** `cleanUpLevel`: the root's children and all five lists are emptied. */
  function CleanedUp(s: LevelState): (r: LevelState)
    ensures r.friendlyUnits == r.enemyUnits == r.userProjectiles == r.enemyProjectiles == []
    ensures r.hearts == [] && r.root == []
  {
    s.(friendlyUnits := [], enemyUnits := [], userProjectiles := [], enemyProjectiles := [], hearts := [], root := [])
  }

  /** `timeline.stop()` stops a running timeline; the guard leaves any other status alone. */
  function StopIfRunning(t: Status): Status
  {
    if t == Running then Stopped else t
  }

  /**
   * `goToNextLevel(name)`: ignored while a switch is under way; otherwise
   * it sets the latch, stops a running timeline, cleans up and schedules
   * the announcement of name.
   */
  function Switched(s: LevelState, name: string): (r: LevelState)
    ensures r.isLevelSwitching
    ensures s.isLevelSwitching ==> r == s
    ensures !s.isLevelSwitching ==> r.pendingLevel == Some(name) && r.timeline != Running && r.enemyUnits == [] && r.root == []
    ensures r.announced == s.announced && r.isPaused == s.isPaused
  {
    if s.isLevelSwitching then s
    else CleanedUp(s.(isLevelSwitching := true, pendingLevel := Some(name), timeline := StopIfRunning(s.timeline)))
  }

  /** The deferred callback: announce the scheduled level, then release the latch. */
  function SwitchCompleted(s: LevelState): (r: LevelState)
    ensures !r.isLevelSwitching && r.pendingLevel == None
    ensures s.pendingLevel.None? ==> r.announced == s.announced
    ensures s.pendingLevel.Some? ==> r.announced == s.announced + [s.pendingLevel.value]
  {
    match s.pendingLevel
    case None => s.(isLevelSwitching := false)
    case Some(name) => s.(announced := s.announced + [name], isLevelSwitching := false, pendingLevel := None)
  }

  /** While a switch is under way, further calls change nothing. */
  lemma SwitchIsLatched(s: LevelState, first: string, second: string)
    ensures Switched(Switched(s, first), second) == Switched(s, first)
  {
  }

  /** A switch followed by its callback announces exactly the requested level once. */
  lemma SwitchAnnouncesOnce(s: LevelState, name: string)
    requires LatchConsistent(s) && !s.isLevelSwitching
    ensures SwitchCompleted(Switched(s, name)).announced == s.announced + [name]
    ensures LatchConsistent(Switched(s, name)) && LatchConsistent(SwitchCompleted(Switched(s, name)))
  {
  }

  /** `togglePause`: flip the flag; pausing pauses a running timeline, resuming plays it. */
  function PauseToggled(s: LevelState): (r: LevelState)
    ensures r.isPaused == !s.isPaused
    ensures r.isPaused ==> r.timeline == (if s.timeline == Running then Paused else s.timeline)
    ensures !r.isPaused ==> r.timeline == Running
    ensures r.(isPaused := s.isPaused, timeline := s.timeline) == s
  {
    if !s.isPaused then s.(isPaused := true, timeline := if s.timeline == Running then Paused else s.timeline)
    else s.(isPaused := false, timeline := Running)
  }

  /**
   * Two toggles restore the pause flag, and the whole state when the
   * timeline agreed with the flag (running when not paused, paused when paused).
   */
  lemma PauseToggledTwice(s: LevelState)
    ensures PauseToggled(PauseToggled(s)).isPaused == s.isPaused
    ensures s.timeline == (if s.isPaused then Paused else Running) ==> PauseToggled(PauseToggled(s)) == s
  {
  }

  /** `winGame`: stop the timeline and show the win image once. */
  function Won(s: LevelState): (r: LevelState)
    ensures r.timeline == Stopped && WinImage in r.root
  {
    s.(timeline := Stopped, root := AddIfAbsent(s.root, WinImage))
  }

  /** `loseGame`: stop the timeline and show the game-over image once. */
  function Lost(s: LevelState): (r: LevelState)
    ensures r.timeline == Stopped && GameOverImage in r.root
  {
    s.(timeline := Stopped, root := AddIfAbsent(s.root, GameOverImage))
  }

  /**
   * `checkIfGameOver` of each level. The wave levels lose when the user is
   * destroyed and otherwise advance once the kill target is met; the boss
   * level loses when the user is destroyed and otherwise wins once the
   * mutation boss is destroyed.
   */
  function GameOverChecked(stage: Stage, s: LevelState, userDestroyed: bool, kills: int, mutationDestroyed: bool): LevelState
  {
    if userDestroyed then Lost(s)
    else if stage != LevelThree then
      (if HasReachedKillTarget(stage, kills) then Switched(s, NextLevel(stage)) else s)
    else if mutationDestroyed then Won(s)
    else s
  }

  /** A destroyed user means a loss, even when the kill target is met: no switch is scheduled. */
  lemma LossBeatsAdvance(stage: Stage, s: LevelState, kills: int, mutationDestroyed: bool)
    ensures GameOverChecked(stage, s, true, kills, mutationDestroyed) == Lost(s)
    ensures GameOverChecked(stage, s, true, kills, mutationDestroyed).pendingLevel == s.pendingLevel
  {
  }

  /** A surviving user on a wave level advances to the next level exactly when the kill target is met. */
  lemma AdvanceOnKillTarget(stage: Stage, s: LevelState, kills: int, mutationDestroyed: bool)
    requires stage != LevelThree && LatchConsistent(s) && !s.isLevelSwitching
    ensures var r := GameOverChecked(stage, s, false, kills, mutationDestroyed);
      (r.pendingLevel == Some(NextLevel(stage)) <==> kills >= KillsToAdvance(stage)) &&
      (kills < KillsToAdvance(stage) ==> r == s)
  {
  }

  /**
   * On the boss level, with the mutation boss still standing, the check
   * never shows the win image: destroying the first boss alone wins nothing.
   */
  lemma FirstBossAloneNeverWins(s: LevelState, userDestroyed: bool, kills: int)
    requires WinImage !in s.root
    ensures WinImage !in GameOverChecked(LevelThree, s, userDestroyed, kills, false).root
  {
  }

  /** Every rule keeps the latch consistent, and only the callback releases it. */
  lemma LatchReleasedOnlyByCallback(stage: Stage, s: LevelState, name: string, userDestroyed: bool, kills: int, mutationDestroyed: bool)
    requires LatchConsistent(s) && s.isLevelSwitching
    ensures Switched(s, name).isLevelSwitching && PauseToggled(s).isLevelSwitching
    ensures Won(s).isLevelSwitching && Lost(s).isLevelSwitching && CleanedUp(s).isLevelSwitching
    ensures GameOverChecked(stage, s, userDestroyed, kills, mutationDestroyed).isLevelSwitching
    ensures !SwitchCompleted(s).isLevelSwitching
  {
  }

  // ------------------------------------------------------------------ the enemy-projectile sweep

  /**
   * What the enemy-projectile loop of `updateActors` does to a list of
   * projectiles whose layout x positions are xs. `updated` counts the
   * projectiles whose update ran, `removed` lists the positions removed,
   * and `aborted` says whether the traversal ended in a
   * ConcurrentModificationException, which also ends the tick.
   */
  datatype Sweep = Sweep(updated: nat, removed: seq<nat>, aborted: bool)

  /**
   * As written: `ArrayList.forEach` stops at the first structural change
   * and then throws, so the first projectile laid out left of 0 is removed
   * after its update, the projectiles after it are not updated, and the
   * exception ends the tick.
   */
  function SweepAsWritten(xs: seq<real>): (r: Sweep)
    ensures r.aborted <==> exists i :: 0 <= i < |xs| && xs[i] < 0.0
    ensures r.aborted ==> |r.removed| == 1 && r.removed[0] < |xs| && r.updated == r.removed[0] + 1 && xs[r.removed[0]] < 0.0
                          && forall i :: 0 <= i < r.removed[0] ==> xs[i] >= 0.0
    ensures !r.aborted ==> r == Sweep(|xs|, [], false)
  {
    if xs == [] then Sweep(0, [], false)
    else if xs[0] < 0.0 then Sweep(1, [0], true)
    else
      var rest := SweepAsWritten(xs[1..]);
      assert forall i :: 0 < i < |xs| ==> xs[i] == xs[1..][i - 1];
      if rest.aborted then Sweep(rest.updated + 1, [rest.removed[0] + 1], true)
      else Sweep(|xs|, [], false)
  }

  /** Positions i of xs with xs[i] < 0, in increasing order. */
  function NegativePositions(xs: seq<real>): (r: seq<nat>)
    ensures forall k :: 0 <= k < |r| ==> r[k] < |xs| && xs[r[k]] < 0.0
    ensures forall i :: 0 <= i < |xs| && xs[i] < 0.0 ==> i in r
  {
    if xs == [] then []
    else
      var init := NegativePositions(xs[..|xs| - 1]);
      assert forall i :: 0 <= i < |xs| - 1 ==> xs[..|xs| - 1][i] == xs[i];
      if xs[|xs| - 1] < 0.0 then init + [|xs| - 1] else init
  }

  /** Corrected: update every projectile, then filter out those laid out left of 0. */
  function SweepFixed(xs: seq<real>): Sweep
  {
    Sweep(|xs|, NegativePositions(xs), false)
  }

  /** The loop as written skips the second projectile and aborts the tick on [-1, 5]. */
  lemma SweepAsWrittenSkipsUpdates()
    ensures SweepAsWritten([-1.0, 5.0]) == Sweep(1, [0], true)
    ensures SweepFixed([-1.0, 5.0]).updated == 2 && !SweepFixed([-1.0, 5.0]).aborted
  {
  }

  /**
   * The corrected sweep updates every projectile, never aborts, and removes
   * exactly the projectiles laid out left of 0; it agrees with the loop as
   * written whenever no projectile is.
   */
  lemma SweepFixedUpdatesAll(xs: seq<real>)
    ensures SweepFixed(xs).updated == |xs| && !SweepFixed(xs).aborted
    ensures forall i :: 0 <= i < |xs| ==> (i in SweepFixed(xs).removed <==> xs[i] < 0.0)
    ensures (forall i :: 0 <= i < |xs| ==> xs[i] >= 0.0) ==> SweepFixed(xs) == SweepAsWritten(xs)
  {
    if forall i :: 0 <= i < |xs| ==> xs[i] >= 0.0 {
      assert NegativePositions(xs) == [];
    }
  }
}
