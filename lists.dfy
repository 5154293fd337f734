/**
 * The `java.util.List` operations the game's guards rely on, on Dafny
 * sequences: the add-if-absent pattern (`if (!list.contains(x)) list.add(x)`)
 * and `list.remove(x)`, which drops the first occurrence only.
 */
module Lists {

  predicate NoDuplicates<T(==)>(s: seq<T>)
  {
    forall i, j :: 0 <= i < j < |s| ==> s[i] != s[j]
  }

  /** `if (!s.contains(x)) s.add(x)`. */
  function AddIfAbsent<T(==)>(s: seq<T>, x: T): (r: seq<T>)
    ensures x in r
    ensures |s| <= |r| <= |s| + 1 && r[..|s|] == s
  {
    if x in s then s else s + [x]
  }

  /** The guarded add holds exactly the old elements and x. */
  lemma AddIfAbsentElements<T>(s: seq<T>, x: T)
    ensures forall y :: y in AddIfAbsent(s, x) <==> y in s || y == x
  {
  }

  /** Adding the same element twice has the effect of adding it once. */
  lemma AddIfAbsentIdempotent<T>(s: seq<T>, x: T)
    ensures AddIfAbsent(AddIfAbsent(s, x), x) == AddIfAbsent(s, x)
  {
  }

  /** The guard keeps a list free of duplicates. */
  lemma AddIfAbsentKeepsNoDuplicates<T>(s: seq<T>, x: T)
    requires NoDuplicates(s)
    ensures NoDuplicates(AddIfAbsent(s, x))
  {
  }

  /** `s.remove(x)`: the first occurrence of x is dropped; the rest keep their order. */
  function RemoveFirst<T(==)>(s: seq<T>, x: T): (r: seq<T>)
    ensures multiset(r) == multiset(s) - multiset{x}
    ensures x !in s ==> r == s
    ensures x in s ==> |r| == |s| - 1
  {
    if s == [] then []
    else
      assert s == [s[0]] + s[1..];
      if s[0] == x then s[1..]
      else [s[0]] + RemoveFirst(s[1..], x)
  }

  /** `s.indexOf(x)`: the position of the first occurrence of x. */
  function FirstIndex<T(==)>(s: seq<T>, x: T): (i: nat)
    requires x in s
    ensures i < |s| && s[i] == x && x !in s[..i]
  {
    if s[0] == x then 0
    else
      assert x in s[1..] by {
        var k :| 0 <= k < |s| && s[k] == x;
        assert s[1..][k - 1] == x;
      }
      var j := FirstIndex(s[1..], x);
      assert s[..j + 1] == [s[0]] + s[1..][..j];
      j + 1
  }

  /** `remove(x)` drops the first occurrence of x, and the rest keep their order. */
  lemma {:induction false} RemoveFirstKeepsOrder<T>(s: seq<T>, x: T)
    requires x in s
    ensures RemoveFirst(s, x) == s[..FirstIndex(s, x)] + s[FirstIndex(s, x) + 1..]
  {
    if s[0] == x {
      assert s[..0] + s[0 + 1..] == s[1..];
    } else {
      var j := FirstIndex(s[1..], x);
      assert FirstIndex(s, x) == j + 1;
      assert RemoveFirst(s, x) == [s[0]] + RemoveFirst(s[1..], x);
      RemoveFirstKeepsOrder(s[1..], x);
      DropAfterHead(s, j);
    }
  }

  /** Dropping position j of a list's tail is dropping position j + 1 of the list. */
  lemma DropAfterHead<T>(s: seq<T>, j: nat)
    requires j + 1 < |s|
    ensures [s[0]] + (s[1..][..j] + s[1..][j + 1..]) == s[..j + 1] + s[j + 1 + 1..]
  {
    assert s[..j + 1] == [s[0]] + s[1..][..j];
    assert s[j + 1 + 1..] == s[1..][j + 1..];
  }

  /** In a list without duplicates, removing x leaves no x and no duplicates. */
  lemma {:induction false} RemoveFirstOfNoDuplicates<T>(s: seq<T>, x: T)
    requires NoDuplicates(s)
    ensures x !in RemoveFirst(s, x)
    ensures NoDuplicates(RemoveFirst(s, x))
  {
    if s != [] {
      assert s == [s[0]] + s[1..];
      assert NoDuplicates(s[1..]);
      assert s[0] !in s[1..];
      if s[0] != x {
        RemoveFirstOfNoDuplicates(s[1..], x);
        var t := RemoveFirst(s[1..], x);
        assert multiset(t) <= multiset(s[1..]);
        assert s[0] !in multiset(t);
      }
    }
  }

  /** Adding an absent element and then removing it gives back the list. */
  lemma {:induction false} RemoveFirstUndoesAdd<T>(s: seq<T>, x: T)
    requires x !in s
    ensures RemoveFirst(AddIfAbsent(s, x), x) == s
  {
    if s != [] {
      assert (s + [x])[1..] == s[1..] + [x];
      RemoveFirstUndoesAdd(s[1..], x);
    }
  }
}
