/**
 * A collectible heart: an image at a stored position with a destroyed flag.
 * Its on-screen size is the heart image scaled to a height of 50 with the
 * aspect ratio kept; the image's width after scaling is a constructor input.
 * The translate offset belongs to the image node; the level's animations
 * write it, the heart itself never does.
 */
module Hearts {
  import opened Geometry

  const HeartHeight: real := 50.0

  class Heart {
    var x: real
    var y: real
    /** The image node's translate offset: it stays 0 here, since the level's animations are not modelled. */
    var translateX: real
    var translateY: real
    const width: real
    var destroyed: bool

    constructor (xPosition: real, yPosition: real, scaledWidth: real)
      ensures x == xPosition && y == yPosition && width == scaledWidth
      ensures translateX == 0.0 && translateY == 0.0 && !IsDestroyed()
    {
      x, y, width := xPosition, yPosition, scaledWidth;
      translateX, translateY := 0.0, 0.0;
      destroyed := false;
    }

    /** The bounds the level tests against the user's hitbox. */
    function Bounds(): Box
      reads this
    {
      Box(x + translateX, y + translateY, width, HeartHeight)
    }

    predicate IsDestroyed()
      reads this
    {
      destroyed
    }

    method Destroy()
      modifies this
      ensures IsDestroyed() && x == old(x) && y == old(y) && Bounds() == old(Bounds())
    {
      destroyed := true;
    }

    /** A heart has no per-tick behaviour of its own. */
    method UpdateActor()
      ensures Bounds() == old(Bounds()) && destroyed == old(destroyed)
    {
    }
  }
}
