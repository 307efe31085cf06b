/** Formulas as sequences of moves: running two formulas one after the other, and
    undoing a formula by running the inverse of each move in reverse order. */
module CubeSequences {
  import opened Types
  import opened CubeLogic
  import opened CubeProperties
  import opened CubeInvariants
  import opened CubeGroup

  /** Running `a ++ b` is running `a`, then `b` on the result. */
  lemma {:induction false} ApplyMovesAppend(s: Cube, a: seq<Move>, b: seq<Move>)
    ensures ApplyMoves(s, a + b) == ApplyMoves(ApplyMoves(s, a), b)
    decreases |a|
  {
    if a == [] {
      assert a + b == b;
    } else {
      assert (a + b)[0] == a[0];
      assert (a + b)[1..] == a[1..] + b;
      ApplyMovesAppend(Apply(s, a[0]), a[1..], b);
    }
  }

  /** The formula that undoes `ms`: the inverse of every move, last move first. */
  function InverseSequence(ms: seq<Move>): (r: seq<Move>)
    ensures |r| == |ms|
    ensures forall i :: 0 <= i < |ms| ==> r[i] == ms[|ms| - 1 - i].Inverse()
  {
    if ms == [] then [] else InverseSequence(ms[1..]) + [ms[0].Inverse()]
  }

  /** Inverting a formula twice gives the formula back. */
  lemma InverseSequenceInvolution(ms: seq<Move>)
    ensures InverseSequence(InverseSequence(ms)) == ms
  {
    var r := InverseSequence(InverseSequence(ms));
    forall i | 0 <= i < |ms|
      ensures r[i] == ms[i]
    {
      InverseInvolution(ms[i]);
    }
  }

  /** Running any formula and then its inverse formula gives back the starting state. */
  lemma {:induction false} UndoSequence(s: Cube, ms: seq<Move>)
    requires NormalCube(s)
    ensures ApplyMoves(ApplyMoves(s, ms), InverseSequence(ms)) == s
    decreases |ms|
  {
    if ms != [] {
      var m := ms[0];
      var t := Apply(s, m);
      ApplyKeepsAngles(s, m);
      UndoSequence(t, ms[1..]);
      ApplyMovesAppend(ApplyMoves(t, ms[1..]), InverseSequence(ms[1..]), [m.Inverse()]);
      EveryInverseCancels(s, m);
    }
  }
}
