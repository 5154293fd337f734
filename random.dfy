/**
 * The two sources of chance the game uses: `Math.random()` and
 * `Collections.shuffle`. Neither is modelled; a run of the game is given an
 * arbitrary stream of draws in [0, 1) and an arbitrary shuffler that only
 * promises to return a permutation of its argument.
 */
module Random {

  /** A value `Math.random()` can return. */
  type Unit = r: real | 0.0 <= r < 1.0

  /** `Collections.shuffle` seen from outside: the k-th shuffle of s is some permutation of s. */
  type Shuffler = f: (nat, seq<int>) -> seq<int>
    | forall k: nat, s: seq<int> :: multiset(f(k, s)) == multiset(s)
    witness (k: nat, s: seq<int>) => s

  class Rng {
    /** The values successive `Math.random()` calls return. */
    const stream: nat -> Unit
    /** The results of successive `Collections.shuffle` calls. */
    const shuffler: Shuffler
    /** How many draws have been consumed so far. */
    var used: nat
    /** How many shuffles have been performed so far. */
    var shuffles: nat

    constructor (stream: nat -> Unit, shuffler: Shuffler)
      ensures this.stream == stream && this.shuffler == shuffler
      ensures used == 0 && shuffles == 0
    {
      this.stream := stream;
      this.shuffler := shuffler;
      used := 0;
      shuffles := 0;
    }

    /** The value the next `Math.random()` call returns, without consuming it. */
    function Peek(): (r: real)
      reads this
      ensures 0.0 <= r < 1.0
    {
      stream(used)
    }

    /** `Math.random()`: consume and return the next draw. */
    method Next() returns (r: real)
      modifies this
      ensures r == old(Peek()) && 0.0 <= r < 1.0
      ensures used == old(used) + 1 && shuffles == old(shuffles)
    {
      r := stream(used);
      used := used + 1;
    }

    /** `Collections.shuffle(s)`: some permutation of s. */
    method Shuffle(s: seq<int>) returns (t: seq<int>)
      modifies this
      ensures t == shuffler(old(shuffles), s)
      ensures multiset(t) == multiset(s) && |t| == |s|
      ensures shuffles == old(shuffles) + 1 && used == old(used)
    {
      t := shuffler(shuffles, s);
      assert multiset(t) == multiset(s);
      assert |multiset(t)| == |multiset(s)|;
      shuffles := shuffles + 1;
    }
  }
}
