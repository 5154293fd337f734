/**
 * The level's overlay: the heart display and the win and game-over images.
 * `root` holds those children of the level's scene root the view's guards
 * look at; the view adds each at most once.
 */
module LevelViews {
  import opened Lists
  import opened HeartDisplays

  datatype SceneNode = HeartContainer | WinImage | GameOverImage

  class LevelView {
    var root: seq<SceneNode>
    const display: HeartDisplay

    ghost predicate Valid()
      reads this, display
    {
      display.Valid() && NoDuplicates(root)
    }

    constructor (heartsToDisplay: int)
      ensures Valid() && fresh(display) && root == []
      ensures display.Count() == if heartsToDisplay > 0 then heartsToDisplay else 0
    {
      root := [];
      display := new HeartDisplay(heartsToDisplay);
    }

    method ShowHeartDisplay()
      requires Valid()
      modifies this
      ensures Valid() && root == AddIfAbsent(old(root), HeartContainer)
    {
      AddIfAbsentKeepsNoDuplicates(root, HeartContainer);
      if HeartContainer !in root {
        root := root + [HeartContainer];
      }
    }

    method ShowWinImage()
      requires Valid()
      modifies this
      ensures Valid() && root == AddIfAbsent(old(root), WinImage)
    {
      AddIfAbsentKeepsNoDuplicates(root, WinImage);
      if WinImage !in root {
        root := root + [WinImage];
      }
    }

    method ShowGameOverImage()
      requires Valid()
      modifies this
      ensures Valid() && root == AddIfAbsent(old(root), GameOverImage)
    {
      AddIfAbsentKeepsNoDuplicates(root, GameOverImage);
      if GameOverImage !in root {
        root := root + [GameOverImage];
      }
    }

    /**
     * Brings the display down to heartsRemaining icons: min(current,
     * max(heartsRemaining, 0)) remain, the survivors being the last ones.
     */
    method RemoveHearts(heartsRemaining: int)
      requires Valid()
      modifies display
      ensures Valid()
      ensures display.Count() == if heartsRemaining < 0 then 0
                                 else if heartsRemaining < old(display.Count()) then heartsRemaining
                                 else old(display.Count())
      ensures display.container == old(display.container)[old(display.Count()) - display.Count()..]
    {
      var current := |display.container|;
      var heartsToRemove := current - heartsRemaining;
      var i := 0;
      while i < heartsToRemove
        invariant Valid() && 0 <= i <= if heartsToRemove > 0 then heartsToRemove else 0
        invariant display.container == old(display.container)[if i < current then i else current..]
      {
        display.RemoveHeart();
        i := i + 1;
      }
    }

    /**
     * Tops the display up to heartsRemaining icons: max(current,
     * heartsRemaining) remain, new icons appended after the old ones.
     */
    method AddHearts(heartsRemaining: int)
      requires Valid()
      modifies display
      ensures Valid()
      ensures display.Count() == if heartsRemaining > old(display.Count()) then heartsRemaining else old(display.Count())
      ensures display.container[..old(display.Count())] == old(display.container)
    {
      var current := |display.container|;
      var heartsToAdd := heartsRemaining - current;
      var i := 0;
      while i < heartsToAdd
        invariant Valid() && 0 <= i <= if heartsToAdd > 0 then heartsToAdd else 0
        invariant |display.container| == current + i && display.container[..current] == old(display.container)
      {
        display.AddHeart();
        i := i + 1;
      }
    }
  }
}
