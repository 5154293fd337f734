/**
 * A registry of actors whose hitboxes are kept in step with their
 * positions on demand.
 */
module HitboxManagers {
  import opened Geometry
  import opened Lists
  import opened ActorRules
  import opened Actors

  class HitboxManager {
    var actors: seq<Actor>

    /** Registration keeps the registry free of duplicates. */
    ghost predicate Valid()
      reads this
    {
      NoDuplicates(actors)
    }

    constructor ()
      ensures Valid() && actors == []
    {
      actors := [];
    }

    /** Adds the actor unless it is already registered. */
    method RegisterActor(actor: Actor)
      requires Valid()
      modifies this
      ensures Valid() && actors == AddIfAbsent(old(actors), actor)
    {
      AddIfAbsentKeepsNoDuplicates(actors, actor);
      if actor !in actors {
        actors := actors + [actor];
      }
    }

    /** Removes the first registration of the actor, if any. */
    method UnregisterActor(actor: Actor)
      requires Valid()
      modifies this
      ensures Valid() && actors == RemoveFirst(old(actors), actor) && actor !in actors
    {
      RemoveFirstOfNoDuplicates(actors, actor);
      actors := RemoveFirst(actors, actor);
    }

    /**
     * Re-syncs every registered actor's hitbox with its position. The
     * registry itself is not changed.
     */
    method UpdateHitboxes()
      requires Valid()
      modifies actors
      ensures actors == old(actors)
      ensures forall a :: a in actors ==> a.Fields() == Sync(a.kind, old(a.Fields())) && a.Condition() == old(a.Condition())
    {
      var i := 0;
      while i < |actors|
        invariant 0 <= i <= |actors|
        invariant forall k :: 0 <= k < i ==> actors[k].Fields() == Sync(actors[k].kind, old(actors[k].Fields()))
        invariant forall k :: i <= k < |actors| ==> actors[k].Fields() == old(actors[k].Fields())
        invariant forall a :: a in actors ==> a.Condition() == old(a.Condition())
      {
        actors[i].UpdateActorHitbox();
        i := i + 1;
      }
    }

    /** Whether the two actors' hitboxes overlap, i.e. share a point. */
    function CheckCollision(actor1: Actor, actor2: Actor): (r: bool)
      reads actor1, actor2
      ensures r <==> exists px, py :: Contains(actor1.hitbox, px, py) && Contains(actor2.hitbox, px, py)
    {
      IntersectsMeansCommonPoint(actor1.hitbox, actor2.hitbox);
      Intersects(actor1.hitbox, actor2.hitbox)
    }
  }
}
