/**
 * Pairwise collision passes. A pass walks two actor lists in a double loop
 * and, for every pair whose hitboxes intersect, calls `takeDamage` on both
 * actors. Nothing is removed from the lists and no hitbox moves, so the
 * effect on one actor is "n hits", where n counts the intersecting pairs it
 * stands in (twice for a pair with itself). `Hits` is that count;
 * `HitsTransposed` shows that the order of nesting does not matter.
 */
module Collisions {
  import opened Geometry
  import opened Damage
  import opened Lists
  import opened Actors

  /** 1 when c holds, else 0. */
  function Ind(c: bool): nat
  {
    if c then 1 else 0
  }

  /** The hitboxes of a list of actors, in list order. */
  function Boxes(s: seq<Actor>): (r: seq<Box>)
    reads s
    ensures |r| == |s| && forall i :: 0 <= i < |s| ==> r[i] == s[i].hitbox
  {
    if s == [] then [] else Boxes(s[..|s| - 1]) + [s[|s| - 1].hitbox]
  }

  lemma BoxesFollowHitboxes(s: seq<Actor>, boxes: seq<Box>)
    requires |boxes| == |s| && forall k :: 0 <= k < |s| ==> s[k].hitbox == boxes[k]
    ensures Boxes(s) == boxes
  {
  }

  /** Damage events the pair (a, b) deals to o: one per side o stands on, if the boxes meet. */
  function PairHits(o: Actor, a: Actor, ba: Box, b: Actor, bb: Box): nat
  {
    if Intersects(ba, bb) then Ind(a == o) + Ind(b == o) else 0
  }

  /** Events o receives while the outer actor a (box ba) meets inner[..n]. */
  function RowHits(o: Actor, a: Actor, ba: Box, inner: seq<Actor>, innerBoxes: seq<Box>, n: nat): nat
    requires n <= |inner| == |innerBoxes|
  {
    if n == 0 then 0
    else RowHits(o, a, ba, inner, innerBoxes, n - 1) + PairHits(o, a, ba, inner[n - 1], innerBoxes[n - 1])
  }

  /** Events o receives from the double loop over outer[..m] and inner[..n]. */
  function Hits(o: Actor, outer: seq<Actor>, outerBoxes: seq<Box>, inner: seq<Actor>, innerBoxes: seq<Box>, m: nat, n: nat): nat
    requires m <= |outer| == |outerBoxes| && n <= |inner| == |innerBoxes|
  {
    if m == 0 then 0
    else Hits(o, outer, outerBoxes, inner, innerBoxes, m - 1, n) + RowHits(o, outer[m - 1], outerBoxes[m - 1], inner, innerBoxes, n)
  }

  /** Number of boxes among boxes[..n] that meet b. */
  function Partners(b: Box, boxes: seq<Box>, n: nat): nat
    requires n <= |boxes|
  {
    if n == 0 then 0 else Partners(b, boxes, n - 1) + Ind(Intersects(b, boxes[n - 1]))
  }

  lemma {:induction false} HitsWithoutInner(o: Actor, outer: seq<Actor>, outerBoxes: seq<Box>, inner: seq<Actor>, innerBoxes: seq<Box>, m: nat)
    requires m <= |outer| == |outerBoxes| && |inner| == |innerBoxes|
    ensures Hits(o, outer, outerBoxes, inner, innerBoxes, m, 0) == 0
  {
    if m > 0 {
      HitsWithoutInner(o, outer, outerBoxes, inner, innerBoxes, m - 1);
    }
  }

  /** Peeling the last inner column off the double loop. */
  lemma {:induction false} LastColumn(o: Actor, outer: seq<Actor>, outerBoxes: seq<Box>, inner: seq<Actor>, innerBoxes: seq<Box>, m: nat, n: nat)
    requires m <= |outer| == |outerBoxes| && 0 < n <= |inner| == |innerBoxes|
    ensures Hits(o, outer, outerBoxes, inner, innerBoxes, m, n)
         == Hits(o, outer, outerBoxes, inner, innerBoxes, m, n - 1) + RowHits(o, inner[n - 1], innerBoxes[n - 1], outer, outerBoxes, m)
  {
    if m > 0 {
      LastColumn(o, outer, outerBoxes, inner, innerBoxes, m - 1, n);
      IntersectsSymmetric(outerBoxes[m - 1], innerBoxes[n - 1]);
    }
  }

  /**
   * The two nestings deal the same damage: running the outer loop over A
   * and the inner over B counts, for every actor, exactly the hits of the
   * outer loop over B and the inner over A.
   */
  lemma {:induction false} HitsTransposed(o: Actor, a: seq<Actor>, aBoxes: seq<Box>, b: seq<Actor>, bBoxes: seq<Box>, m: nat, n: nat)
    requires m <= |a| == |aBoxes| && n <= |b| == |bBoxes|
    ensures Hits(o, a, aBoxes, b, bBoxes, m, n) == Hits(o, b, bBoxes, a, aBoxes, n, m)
  {
    if m == 0 {
      HitsWithoutInner(o, b, bBoxes, a, aBoxes, n);
    } else {
      HitsTransposed(o, a, aBoxes, b, bBoxes, m - 1, n);
      LastColumn(o, b, bBoxes, a, aBoxes, n, m);
    }
  }

  lemma {:induction false} RowOfOwnActor(o: Actor, ba: Box, inner: seq<Actor>, innerBoxes: seq<Box>, n: nat)
    requires n <= |inner| == |innerBoxes| && o !in inner
    ensures RowHits(o, o, ba, inner, innerBoxes, n) == Partners(ba, innerBoxes, n)
  {
    if n > 0 {
      RowOfOwnActor(o, ba, inner, innerBoxes, n - 1);
    }
  }

  lemma {:induction false} RowOfOtherActor(o: Actor, a: Actor, ba: Box, inner: seq<Actor>, innerBoxes: seq<Box>, n: nat)
    requires n <= |inner| == |innerBoxes| && o != a && o !in inner
    ensures RowHits(o, a, ba, inner, innerBoxes, n) == 0
  {
    if n > 0 {
      RowOfOtherActor(o, a, ba, inner, innerBoxes, n - 1);
    }
  }

  lemma {:induction false} RowsOfOtherActors(o: Actor, outer: seq<Actor>, outerBoxes: seq<Box>, inner: seq<Actor>, innerBoxes: seq<Box>, m: nat, n: nat)
    requires m <= |outer| == |outerBoxes| && n <= |inner| == |innerBoxes|
    requires o !in outer[..m] && o !in inner
    ensures Hits(o, outer, outerBoxes, inner, innerBoxes, m, n) == 0
  {
    if m > 0 {
      assert outer[m - 1] in outer[..m];
      assert outer[..m - 1] == outer[..m][..m - 1];
      RowsOfOtherActors(o, outer, outerBoxes, inner, innerBoxes, m - 1, n);
      RowOfOtherActor(o, outer[m - 1], outerBoxes[m - 1], inner, innerBoxes, n);
    }
  }

  /**
   * With duplicate-free, disjoint lists, the actor at position i of the
   * outer list is hit once per inner actor whose box meets its own.
   */
  lemma {:induction false} HitsOfOuterActor(outer: seq<Actor>, outerBoxes: seq<Box>, inner: seq<Actor>, innerBoxes: seq<Box>, i: nat)
    requires |outer| == |outerBoxes| && |inner| == |innerBoxes| && i < |outer|
    requires NoDuplicates(outer) && outer[i] !in inner
    ensures Hits(outer[i], outer, outerBoxes, inner, innerBoxes, |outer|, |inner|) == Partners(outerBoxes[i], innerBoxes, |inner|)
  {
    var o := outer[i];
    var m := |outer|;
    // rows before i and after i contribute nothing; row i contributes the partners
    RowOfOwnActor(o, outerBoxes[i], inner, innerBoxes, |inner|);
    assert o !in outer[..i];
    RowsOfOtherActors(o, outer, outerBoxes, inner, innerBoxes, i, |inner|);
    var k := i + 1;
    while k < m
      invariant i + 1 <= k <= m
      invariant Hits(o, outer, outerBoxes, inner, innerBoxes, k, |inner|) == Partners(outerBoxes[i], innerBoxes, |inner|)
    {
      RowOfOtherActor(o, outer[k], outerBoxes[k], inner, innerBoxes, |inner|);
      k := k + 1;
    }
  }

  /** The same count, seen from the inner list. */
  lemma HitsOfInnerActor(outer: seq<Actor>, outerBoxes: seq<Box>, inner: seq<Actor>, innerBoxes: seq<Box>, j: nat)
    requires |outer| == |outerBoxes| && |inner| == |innerBoxes| && j < |inner|
    requires NoDuplicates(inner) && inner[j] !in outer
    ensures Hits(inner[j], outer, outerBoxes, inner, innerBoxes, |outer|, |inner|) == Partners(innerBoxes[j], outerBoxes, |outer|)
  {
    HitsTransposed(inner[j], outer, outerBoxes, inner, innerBoxes, |outer|, |inner|);
    HitsOfOuterActor(inner, innerBoxes, outer, outerBoxes, j);
  }

  /** An actor in neither list is never hit. */
  lemma HitsOfBystander(o: Actor, outer: seq<Actor>, outerBoxes: seq<Box>, inner: seq<Actor>, innerBoxes: seq<Box>)
    requires |outer| == |outerBoxes| && |inner| == |innerBoxes|
    requires o !in outer && o !in inner
    ensures Hits(o, outer, outerBoxes, inner, innerBoxes, |outer|, |inner|) == 0
  {
    assert outer[..|outer|] == outer;
    RowsOfOtherActors(o, outer, outerBoxes, inner, innerBoxes, |outer|, |inner|);
  }

  /**
   * One hit on each side, then `destroy()` on whichever side is destroyed;
   * the `destroy()` calls repeat what `takeDamage` already recorded.
   */
  method ResolveCollision(a: Actor, b: Actor)
    modifies a, b
    ensures a.hitbox == old(a.hitbox) && b.hitbox == old(b.hitbox)
    ensures forall o :: o == a || o == b ==>
      o.Fields() == old(o.Fields()) &&
      o.Condition() == AfterDamages(o.kind, o.shielded, old(o.Condition()), Ind(o == a) + Ind(o == b))
  {
    ghost var va, vb := a.Condition(), b.Condition();
    a.TakeDamage();
    b.TakeDamage();
    if a.destroyed {
      a.Destroy();
    }
    if b.destroyed {
      b.Destroy();
    }
    assert AfterDamages(a.kind, a.shielded, va, 1) == AfterDamage(a.kind, a.shielded, va);
    assert AfterDamages(b.kind, b.shielded, vb, 1) == AfterDamage(b.kind, b.shielded, vb);
  }

  /**
   * The inner loop of a pass: `actor` against every element of `others`.
   * `scope` is any list of actors the caller tracks; each of them ends up
   * hit once per intersecting pair of this row it stands in.
   */
  method CollideRow(actor: Actor, others: seq<Actor>, ghost box: Box, ghost boxes: seq<Box>, ghost scope: seq<Actor>)
    requires actor.hitbox == box && |boxes| == |others|
    requires forall k :: 0 <= k < |others| ==> others[k].hitbox == boxes[k]
    modifies actor, others
    ensures actor.hitbox == box && forall k :: 0 <= k < |others| ==> others[k].hitbox == boxes[k]
    ensures forall o :: o in scope ==>
      o.Fields() == old(o.Fields()) &&
      o.Condition() == AfterDamages(o.kind, o.shielded, old(o.Condition()), RowHits(o, actor, box, others, boxes, |others|))
  {
    var j := 0;
    while j < |others|
      invariant 0 <= j <= |others|
      invariant actor.hitbox == box && forall k :: 0 <= k < |others| ==> others[k].hitbox == boxes[k]
      invariant forall o :: o in scope ==>
        o.Fields() == old(o.Fields()) &&
        o.Condition() == AfterDamages(o.kind, o.shielded, old(o.Condition()), RowHits(o, actor, box, others, boxes, j))
    {
      var other := others[j];
      if Intersects(actor.hitbox, other.hitbox) {
        ResolveCollision(actor, other);
        forall o | o in scope
          ensures o.Condition() == AfterDamages(o.kind, o.shielded, old(o.Condition()), RowHits(o, actor, box, others, boxes, j + 1))
        {
          HitsCompose(o.kind, o.shielded, old(o.Condition()), RowHits(o, actor, box, others, boxes, j), Ind(o == actor) + Ind(o == other));
        }
      }
      j := j + 1;
    }
  }

  /**
   * `CollisionManager.handleCollisions`: the outer loop runs over actors1,
   * the inner over actors2. Every actor of either list ends up hit once per
   * intersecting pair it stands in; hitboxes and the lists are untouched.
   */
  method HandleCollisions(actors1: seq<Actor>, actors2: seq<Actor>)
    modifies actors1, actors2
    ensures forall o :: o in actors1 || o in actors2 ==>
      o.Fields() == old(o.Fields()) &&
      o.Condition() == AfterDamages(o.kind, o.shielded, old(o.Condition()),
                                    Hits(o, actors1, old(Boxes(actors1)), actors2, old(Boxes(actors2)), |actors1|, |actors2|))
  {
    ghost var boxes1 := Boxes(actors1);
    ghost var boxes2 := Boxes(actors2);
    ghost var scope := actors1 + actors2;
    var i := 0;
    while i < |actors1|
      invariant 0 <= i <= |actors1|
      invariant forall k :: 0 <= k < |actors1| ==> actors1[k].hitbox == boxes1[k]
      invariant forall k :: 0 <= k < |actors2| ==> actors2[k].hitbox == boxes2[k]
      invariant forall o :: o in scope ==>
        o.Fields() == old(o.Fields()) &&
        o.Condition() == AfterDamages(o.kind, o.shielded, old(o.Condition()), Hits(o, actors1, boxes1, actors2, boxes2, i, |actors2|))
    {
      CollideRow(actors1[i], actors2, boxes1[i], boxes2, scope);
      forall o | o in scope
        ensures o.Condition() == AfterDamages(o.kind, o.shielded, old(o.Condition()), Hits(o, actors1, boxes1, actors2, boxes2, i + 1, |actors2|))
      {
        HitsCompose(o.kind, o.shielded, old(o.Condition()), Hits(o, actors1, boxes1, actors2, boxes2, i, |actors2|),
                    RowHits(o, actors1[i], boxes1[i], actors2, boxes2, |actors2|));
      }
      i := i + 1;
    }
  }
}
