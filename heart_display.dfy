/**
 * The row of heart icons in the corner of the screen. The container is a
 * list of icons; an icon is identified by the order in which it was
 * created, so `created` is the identity the next icon receives.
 */
module HeartDisplays {
  import opened Lists

  class HeartDisplay {
    var container: seq<nat>
    var created: nat

    /** Every icon in the container is a distinct, already created one. */
    ghost predicate Valid()
      reads this
    {
      NoDuplicates(container) && forall k :: 0 <= k < |container| ==> container[k] < created
    }

    function Count(): nat
      reads this
    {
      |container|
    }

    /** Built with n hearts, the display shows exactly n of them (none for n <= 0). */
    constructor (heartsToDisplay: int)
      ensures Valid() && Count() == if heartsToDisplay > 0 then heartsToDisplay else 0
    {
      container, created := [], 0;
      new;
      InitializeHearts(heartsToDisplay);
    }

    method InitializeHearts(heartsToDisplay: int)
      requires Valid()
      modifies this
      ensures Valid() && Count() == old(Count()) + if heartsToDisplay > 0 then heartsToDisplay else 0
      ensures container[..|old(container)|] == old(container)
    {
      var i := 0;
      while i < heartsToDisplay
        invariant Valid() && 0 <= i <= if heartsToDisplay > 0 then heartsToDisplay else 0
        invariant |container| == |old(container)| + i && container[..|old(container)|] == old(container)
      {
        AddHeart();
        i := i + 1;
      }
    }

    /** Drops the first icon when there is one; the rest keep their order. */
    method RemoveHeart()
      requires Valid()
      modifies this
      ensures Valid() && created == old(created)
      ensures container == if old(container) == [] then [] else old(container)[1..]
    {
      if container != [] {
        container := container[1..];
      }
    }

    /** Appends one new icon at the end. */
    method AddHeart()
      requires Valid()
      modifies this
      ensures Valid() && created == old(created) + 1
      ensures container == old(container) + [old(created)] && old(created) !in old(container)
    {
      container := container + [created];
      created := created + 1;
    }
  }
}
