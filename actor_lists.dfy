/**
 * What the level computes over its actor lists: the filters it applies,
 * the counts it keeps, and the loops that walk a list.
 */
module ActorLists {
  import opened Kinds
  import opened Lists
  import opened Random
  import opened ActorRules
  import opened Actors

  /** The actors of s that are not destroyed, in list order. */
  function Survivors(s: seq<Actor>): (r: seq<Actor>)
    reads s
    ensures |r| <= |s|
    ensures forall k :: 0 <= k < |r| ==> !r[k].destroyed
    ensures forall i :: 0 <= i < |s| && !s[i].destroyed ==> s[i] in r
  {
    if s == [] then []
    else
      var init := Survivors(s[..|s| - 1]);
      assert forall i :: 0 <= i < |s| - 1 ==> s[..|s| - 1][i] == s[i];
      if s[|s| - 1].destroyed then init else init + [s[|s| - 1]]
  }

  /** Every survivor comes from the list. */
  lemma {:induction false} SurvivorsFromList(s: seq<Actor>)
    ensures forall k :: 0 <= k < |Survivors(s)| ==> Survivors(s)[k] in s
  {
    if s != [] {
      SurvivorsFromList(s[..|s| - 1]);
    }
  }

  /** The destroyed actors of s, in list order; with the survivors they account for all of s. */
  function Casualties(s: seq<Actor>): (r: seq<Actor>)
    reads s
    ensures |r| + |Survivors(s)| == |s|
    ensures forall k :: 0 <= k < |r| ==> r[k].destroyed
    ensures forall i :: 0 <= i < |s| && s[i].destroyed ==> s[i] in r
  {
    if s == [] then []
    else
      var init := Casualties(s[..|s| - 1]);
      assert forall i :: 0 <= i < |s| - 1 ==> s[..|s| - 1][i] == s[i];
      if s[|s| - 1].destroyed then init + [s[|s| - 1]] else init
  }

  /** Every casualty comes from the list. */
  lemma {:induction false} CasualtiesFromList(s: seq<Actor>)
    ensures forall k :: 0 <= k < |Casualties(s)| ==> Casualties(s)[k] in s
  {
    if s != [] {
      CasualtiesFromList(s[..|s| - 1]);
    }
  }

  /**
   * A destroyed actor occurs among the casualties exactly as often as in
   * the list, and nothing else does: |Casualties(s)| counts the destroyed
   * entries of s.
   */
  lemma {:induction false} CasualtiesCountDestroyed(s: seq<Actor>)
    ensures forall a: Actor :: a.destroyed ==> multiset(Casualties(s))[a] == multiset(s)[a]
    ensures forall a: Actor :: !a.destroyed ==> multiset(Casualties(s))[a] == 0
  {
    if s != [] {
      var init := s[..|s| - 1];
      assert s == init + [s[|s| - 1]];
      CasualtiesCountDestroyed(init);
    }
  }

  /** Collecting the casualties keeps a list free of duplicates. */
  lemma {:induction false} CasualtiesKeepNoDuplicates(s: seq<Actor>)
    requires NoDuplicates(s)
    ensures NoDuplicates(Casualties(s))
  {
    if s != [] {
      var init := s[..|s| - 1];
      assert NoDuplicates(init);
      CasualtiesKeepNoDuplicates(init);
      CasualtiesFromList(init);
      assert s[|s| - 1] !in init;
    }
  }

  /** Filtering keeps a list free of duplicates. */
  lemma {:induction false} SurvivorsKeepNoDuplicates(s: seq<Actor>)
    requires NoDuplicates(s)
    ensures NoDuplicates(Survivors(s))
  {
    if s != [] {
      var init := s[..|s| - 1];
      assert NoDuplicates(init);
      SurvivorsKeepNoDuplicates(init);
      SurvivorsFromList(init);
      assert s[|s| - 1] !in init;
    }
  }

  /** The actors of s laid out at x >= 0, in list order. */
  function OnScreen(s: seq<Actor>): (r: seq<Actor>)
    reads s
    ensures |r| <= |s|
    ensures forall k :: 0 <= k < |r| ==> r[k].layoutX >= 0.0
    ensures forall i :: 0 <= i < |s| && s[i].layoutX >= 0.0 ==> s[i] in r
  {
    if s == [] then []
    else
      var init := OnScreen(s[..|s| - 1]);
      assert forall i :: 0 <= i < |s| - 1 ==> s[..|s| - 1][i] == s[i];
      if s[|s| - 1].layoutX >= 0.0 then init + [s[|s| - 1]] else init
  }

  /** Every actor kept on screen comes from the list. */
  lemma {:induction false} OnScreenFromList(s: seq<Actor>)
    ensures forall k :: 0 <= k < |OnScreen(s)| ==> OnScreen(s)[k] in s
  {
    if s != [] {
      OnScreenFromList(s[..|s| - 1]);
    }
  }

  lemma {:induction false} OnScreenKeepsNoDuplicates(s: seq<Actor>)
    requires NoDuplicates(s)
    ensures NoDuplicates(OnScreen(s))
  {
    if s != [] {
      var init := s[..|s| - 1];
      assert NoDuplicates(init);
      OnScreenKeepsNoDuplicates(init);
      OnScreenFromList(init);
      assert s[|s| - 1] !in init;
    }
  }

  function Abs(x: real): real
  {
    if x < 0.0 then -x else x
  }

  /** Whether the actor's horizontal translate has gone past limit in either direction. */
  predicate HasPenetrated(a: Actor, limit: real)
    reads a
  {
    Abs(a.translateX) > limit
  }

  /** For each actor of s, in list order, whether it has gone past limit. */
  function Penetrations(s: seq<Actor>, limit: real): (r: seq<bool>)
    reads s
    ensures |r| == |s| && forall i :: 0 <= i < |s| ==> r[i] == HasPenetrated(s[i], limit)
  {
    if s == [] then [] else [HasPenetrated(s[0], limit)] + Penetrations(s[1..], limit)
  }

  /** How many of the first n flags of bs are set. */
  function Trues(bs: seq<bool>, n: nat): (r: nat)
    requires n <= |bs|
    ensures r <= n
  {
    if n == 0 then 0 else Trues(bs, n - 1) + if bs[n - 1] then 1 else 0
  }

  /** The count is zero exactly when none of the first n flags is set. */
  lemma {:induction false} TruesNone(bs: seq<bool>, n: nat)
    requires n <= |bs|
    ensures Trues(bs, n) == 0 <==> forall i :: 0 <= i < n ==> !bs[i]
  {
    if n > 0 {
      TruesNone(bs, n - 1);
    }
  }

  /** The entries among the first n of s whose flag is set, in list order. */
  function Flagged<T>(s: seq<T>, flags: seq<bool>, n: nat): (r: seq<T>)
    requires n <= |s| && n <= |flags|
    ensures |r| == Trues(flags, n)
  {
    if n == 0 then [] else Flagged(s, flags, n - 1) + if flags[n - 1] then [s[n - 1]] else []
  }

  /** The entries among the first n of s whose flag is clear, in list order. */
  function Unflagged<T>(s: seq<T>, flags: seq<bool>, n: nat): (r: seq<T>)
    requires n <= |s| && n <= |flags|
    ensures |r| + Trues(flags, n) == n
  {
    if n == 0 then [] else Unflagged(s, flags, n - 1) + if flags[n - 1] then [] else [s[n - 1]]
  }

  /** An entry is among the flagged ones exactly when some flagged position holds it. */
  lemma {:induction false} FlaggedHas<T>(s: seq<T>, flags: seq<bool>, n: nat, x: T)
    requires n <= |s| && n <= |flags|
    ensures x in Flagged(s, flags, n) <==> exists i :: 0 <= i < n && flags[i] && s[i] == x
  {
    if n > 0 {
      FlaggedHas(s, flags, n - 1, x);
    }
  }

  /** Every kept entry sits at a position whose flag is clear, and every such entry is kept. */
  lemma {:induction false} UnflaggedHas<T>(s: seq<T>, flags: seq<bool>, n: nat)
    requires n <= |s| && n <= |flags|
    ensures forall k :: 0 <= k < |Unflagged(s, flags, n)| ==>
      exists i :: 0 <= i < n && !flags[i] && s[i] == Unflagged(s, flags, n)[k]
    ensures forall i :: 0 <= i < n && !flags[i] ==> s[i] in Unflagged(s, flags, n)
  {
    if n > 0 {
      UnflaggedHas(s, flags, n - 1);
      var init, r := Unflagged(s, flags, n - 1), Unflagged(s, flags, n);
      forall k | 0 <= k < |r|
        ensures exists i :: 0 <= i < n && !flags[i] && s[i] == r[k]
      {
        if k < |init| {
          var i :| 0 <= i < n - 1 && !flags[i] && s[i] == init[k];
          assert r[k] == init[k];
        } else {
          assert !flags[n - 1] && r[k] == s[n - 1];
        }
      }
      assert forall i :: 0 <= i < n && !flags[i] ==> s[i] in r by {
        assert forall i :: 0 <= i < n - 1 && !flags[i] ==> s[i] in init;
      }
    } else {
      assert Unflagged(s, flags, n) == [];
    }
  }

  /** The classes of the actors of s (a class never changes, so this reads nothing). */
  function KindsOf(s: seq<Actor>): (r: seq<Kind>)
    ensures |r| == |s| && forall i :: 0 <= i < |s| ==> r[i] == s[i].kind
  {
    seq(|s|, i requires 0 <= i < |s| => s[i].kind)
  }

  /** Shots one enemy of class k fires in a volley when it fires at all. */
  function VolleySize(k: Kind): nat
  {
    if k == MutationBossKind then 3 else 1
  }

  /**
   * n is a possible number of new enemy projectiles from enemies of the
   * given classes: each contributes nothing or its full volley.
   */
  predicate PossibleShots(kinds: seq<Kind>, n: int)
  {
    if kinds == [] then n == 0
    else
      var init := kinds[..|kinds| - 1];
      PossibleShots(init, n) || PossibleShots(init, n - VolleySize(kinds[|kinds| - 1]))
  }

  /** The most shots a list of enemies can fire in one call. */
  function ShotCap(kinds: seq<Kind>): nat
  {
    if kinds == [] then 0 else ShotCap(kinds[..|kinds| - 1]) + VolleySize(kinds[|kinds| - 1])
  }

  /** Any possible number of shots lies between none and the cap. */
  lemma {:induction false} PossibleShotsBounded(kinds: seq<Kind>, n: int)
    requires PossibleShots(kinds, n)
    ensures 0 <= n <= ShotCap(kinds)
  {
    if kinds != [] {
      var init := kinds[..|kinds| - 1];
      if PossibleShots(init, n) {
        PossibleShotsBounded(init, n);
      } else {
        PossibleShotsBounded(init, n - VolleySize(kinds[|kinds| - 1]));
      }
    }
  }

  /** Which actors are on screen depends on their layout positions only. */
  twostate lemma {:induction false} OnScreenSteady(s: seq<Actor>)
    requires forall k :: 0 <= k < |s| ==> s[k].layoutX == old(s[k].layoutX)
    ensures OnScreen(s) == old(OnScreen(s))
  {
    if s != [] {
      OnScreenSteady(s[..|s| - 1]);
    }
  }

  /** One actor's update, seen from the list: it stays valid, in place, and its health is untouched. */
  method UpdateOne(a: Actor, rng: Rng)
    requires a.Valid()
    modifies a, rng
    ensures a.Valid() && Stepped(a.kind, old(a.Fields()), a.Fields()) && a.Condition() == old(a.Condition())
    ensures a.layoutX == old(a.layoutX)
  {
    a.UpdateActor(rng);
    SteppedFrame(a.kind, old(a.Fields()), a.Fields());
  }

  /** `list.forEach(updateActor)`: every actor of a duplicate-free list takes exactly one update. */
  method UpdateEach(s: seq<Actor>, rng: Rng)
    requires NoDuplicates(s) && forall k :: 0 <= k < |s| ==> s[k].Valid()
    modifies s, rng
    ensures forall k :: 0 <= k < |s| ==>
      s[k].Valid() && Stepped(s[k].kind, old(s[k].Fields()), s[k].Fields()) && s[k].Condition() == old(s[k].Condition())
    ensures forall k :: 0 <= k < |s| ==> s[k].layoutX == old(s[k].layoutX)
    ensures forall a: Actor :: old(allocated(a)) && old(a.Valid()) ==> a.Valid()
  {
    var i := 0;
    while i < |s|
      invariant 0 <= i <= |s|
      invariant forall k :: 0 <= k < i ==>
        s[k].Valid() && Stepped(s[k].kind, old(s[k].Fields()), s[k].Fields()) && s[k].Condition() == old(s[k].Condition())
      invariant forall k :: 0 <= k < i ==> s[k].layoutX == old(s[k].layoutX)
      invariant forall a: Actor :: old(allocated(a)) && old(a.Valid()) ==> a.Valid()
      invariant forall k :: i <= k < |s| ==> s[k].Fields() == old(s[k].Fields()) && s[k].Condition() == old(s[k].Condition())
    {
      UpdateOne(s[i], rng);
      i := i + 1;
    }
  }
}
