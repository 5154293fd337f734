/**
 * The pure rules behind the bosses' vertical motion:
 * the move-pattern contents, the two move cursors, and the band clamp that
 * rolls a step back. `ActorRules.Step` is built from
 * these functions.
 */
module Motion {
  import opened Kinds

  /** n copies each of +v (down), -v (up) and 0 (stay). */
  function Cycles(v: int, n: nat): multiset<int>
  {
    if n == 0 then multiset{} else Cycles(v, n - 1) + multiset{v, -v, 0}
  }

  /** What `initializeMovePattern` builds at speed v: five copies each of +v, -v and 0. */
  function PatternMultiset(v: int): multiset<int>
  {
    Cycles(v, MoveFrequencyPerCycle)
  }

  /** A move pattern: some order of the 15 moves of `PatternMultiset` at speed 8. */
  predicate IsMovePattern(p: seq<int>)
  {
    |p| == PatternLength && multiset(p) == PatternMultiset(BossVerticalVelocity)
  }

  /** Only +v, -v and 0 occur in n cycles of moves. */
  lemma {:induction false} CyclesHoldOnlyMoves(v: int, n: nat, x: int)
    requires x in Cycles(v, n)
    ensures x == v || x == -v || x == 0
  {
    if x !in multiset{v, -v, 0} {
      CyclesHoldOnlyMoves(v, n - 1, x);
    }
  }

  /** Every entry of a move pattern is one of the three moves. */
  lemma MovePatternEntries(p: seq<int>, i: int)
    requires IsMovePattern(p) && 0 <= i < |p|
    ensures p[i] == BossVerticalVelocity || p[i] == -BossVerticalVelocity || p[i] == 0
  {
    assert p[i] in multiset(p);
    CyclesHoldOnlyMoves(BossVerticalVelocity, MoveFrequencyPerCycle, p[i]);
  }

  /** A reordering of a move pattern is a move pattern. */
  lemma PermutedMovePattern(p: seq<int>, q: seq<int>)
    requires IsMovePattern(p) && multiset(q) == multiset(p)
    ensures IsMovePattern(q)
  {
    assert |multiset(q)| == |multiset(p)|;
  }

  /** A cursor into a move pattern: which move, and how long it has been in use. */
  datatype Cursor = Cursor(index: int, run: int)

  /** Boss's cursor bounds: 0 <= index < 15 and 0 <= run < 10. */
  predicate BossCursorOk(c: Cursor)
  {
    0 <= c.index < PatternLength && 0 <= c.run < MaxFramesWithSameMove
  }

  /**
   * How Boss.getNextMove moves the cursor: the run counter goes up, and on
   * reaching 10 it goes back to 0 and the index advances, wrapping at 15.
   */
  function BossAdvance(c: Cursor): (r: Cursor)
    requires BossCursorOk(c)
    ensures BossCursorOk(r)
    ensures r.run == (c.run + 1) % MaxFramesWithSameMove
    ensures r.index != c.index <==> c.run + 1 == MaxFramesWithSameMove
    ensures r.index != c.index ==> r.index == (c.index + 1) % PatternLength
  {
    var run := c.run + 1;
    if run == MaxFramesWithSameMove then
      var index := c.index + 1;
      Cursor(if index == PatternLength then 0 else index, 0)
    else
      Cursor(c.index, run)
  }

  /** The Boss cursor after n calls of getNextMove. */
  function BossAdvanceN(c: Cursor, n: nat): Cursor
    requires BossCursorOk(c)
    ensures BossCursorOk(BossAdvanceN(c, n))
  {
    if n == 0 then c else BossAdvance(BossAdvanceN(c, n - 1))
  }

  /**
   * From a new Boss (index 0, run 0), the n-th frame's move is entry
   * (n / 10) mod 15: each entry serves exactly 10 frames in a row, cyclically.
   */
  lemma {:induction false} BossCursorSchedule(n: nat)
    ensures BossAdvanceN(Cursor(0, 0), n) == Cursor((n / 10) % 15, n % 10)
  {
    if n > 0 {
      BossCursorSchedule(n - 1);
      var m := n - 1;
      if m % 10 == 9 {
        var q := m / 10;
        assert n / 10 == q + 1 && n % 10 == 0;
        WrapIncrement(q);
      } else {
        assert n / 10 == m / 10 && n % 10 == m % 10 + 1;
      }
    }
  }

  /** Incrementing an index mod 15 and wrapping at 15 agree. */
  lemma WrapIncrement(q: nat)
    ensures (if q % 15 + 1 == 15 then 0 else q % 15 + 1) == (q + 1) % 15
  {
  }

  /** MutationBoss1's cursor bounds: 0 <= index < 15 and 0 <= framesInCurrentMove < 20. */
  predicate MutationCursorOk(c: Cursor)
  {
    0 <= c.index < PatternLength && 0 <= c.run < MutationMaxFramesWithSameMove
  }

  /**
   * How MutationBoss1.updatePosition moves its cursor: the frame counter goes
   * up, and once it reaches 20 it is reset and the index advances mod 15.
   */
  function MutationAdvance(c: Cursor): (r: Cursor)
    requires MutationCursorOk(c)
    ensures MutationCursorOk(r)
    ensures r.run == (c.run + 1) % MutationMaxFramesWithSameMove
    ensures r.index == if c.run + 1 == MutationMaxFramesWithSameMove then (c.index + 1) % PatternLength else c.index
  {
    var frames := c.run + 1;
    if frames >= MutationMaxFramesWithSameMove then Cursor((c.index + 1) % PatternLength, 0)
    else Cursor(c.index, frames)
  }

  /** The MutationBoss1 cursor after n calls of updatePosition. */
  function MutationAdvanceN(c: Cursor, n: nat): Cursor
    requires MutationCursorOk(c)
    ensures MutationCursorOk(MutationAdvanceN(c, n))
  {
    if n == 0 then c else MutationAdvance(MutationAdvanceN(c, n - 1))
  }

  /** From a new MutationBoss1, the index after n frames is (n / 20) mod 15 and the counter n mod 20. */
  lemma {:induction false} MutationCursorSchedule(n: nat)
    ensures MutationAdvanceN(Cursor(0, 0), n) == Cursor((n / 20) % 15, n % 20)
  {
    if n > 0 {
      MutationCursorSchedule(n - 1);
      var m := n - 1;
      if m % 20 == 19 {
        assert n / 20 == m / 20 + 1 && n % 20 == 0;
        assert (m / 20 % 15 + 1) % 15 == (m / 20 + 1) % 15;
      } else {
        assert n / 20 == m / 20 && n % 20 == m % 20 + 1;
      }
    }
  }

  /** The closed vertical band [lo, hi] that a plane's layoutY + translateY must stay in. */
  predicate InBand(y: real, lo: real, hi: real)
  {
    lo <= y <= hi
  }

  /**
   * The translateY after a clamped vertical step of `move` from `ty`: the step
   * is rolled back when layoutY + translateY would leave [lo, hi].
   */
  function ClampedStep(layoutY: real, ty: real, move: real, lo: real, hi: real): (r: real)
    ensures r == ty || r == ty + move
    ensures InBand(layoutY + ty, lo, hi) ==> InBand(layoutY + r, lo, hi)
    ensures InBand(layoutY + ty + move, lo, hi) ==> r == ty + move
    ensures !InBand(layoutY + ty + move, lo, hi) ==> r == ty
  {
    var landed := layoutY + ty + move;
    if landed < lo || landed > hi then ty else ty + move
  }
}
