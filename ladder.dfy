/** The quantization ladder: the step sizes the recorder switches between.
    Sizes are whole numbers of 1/24 bar, so that the triplet value 1/6 bar
    is exact: 1/8, 1/6, 1/4, 1/2, 1, 2 and 4 bars are 3, 4, 6, 12, 24, 48
    and 96 units. */
module Ladder {
  import opened Lists

  datatype Option<T> = None | Some(value: T)

  const StepSizes: seq<nat> := [3, 4, 6, 12, 24, 48, 96]

  /** The step size a fresh recorder starts with: 1/4 bar. */
  const InitialStepSize: nat := 6

  /** The ladder is strictly ascending, so every size occurs once. */
  lemma Ascending(i: nat, j: nat)
    requires i < j < |StepSizes|
    ensures 0 < StepSizes[i] < StepSizes[j]
  {
  }

  /** From 1/4 bar up, each size is twice the one below it. */
  lemma Doubling(i: nat)
    requires 3 <= i < |StepSizes|
    ensures StepSizes[i] == 2 * StepSizes[i - 1]
  {
  }

  /** Looking a ladder value up gives back its own position. */
  lemma {:induction false} IndexOfLadder(i: nat)
    requires i < |StepSizes|
    ensures IndexOf(StepSizes, StepSizes[i]) == i
  {
    var k := IndexOf(StepSizes, StepSizes[i]);
    if k < i {
      Ascending(k, i);
    }
  }

  /** The size `addIndex` notches away from `size`, or None when that falls
      off either end of the ladder. A size that is not on the ladder is
      looked up as position -1, as `indexOf` reports it. */
  function Shift(size: nat, addIndex: int): (r: Option<nat>)
    ensures r.Some? ==> r.value in StepSizes && r.value > 0
  {
    var index := IndexOf(StepSizes, size) + addIndex;
    if index < 0 || index >= |StepSizes| then None else Some(StepSizes[index])
  }

  /** From ladder position `i`, moving by `d` lands exactly on position
      `i + d` when that exists and is refused otherwise; in particular a
      step past either end of the ladder is refused. */
  lemma ShiftFrom(i: nat, d: int)
    requires i < |StepSizes|
    ensures 0 <= i + d < |StepSizes| ==> Shift(StepSizes[i], d) == Some(StepSizes[i + d])
    ensures !(0 <= i + d < |StepSizes|) ==> Shift(StepSizes[i], d) == None
  {
    IndexOfLadder(i);
  }

  /** A successful move is undone by the opposite move, and a move by a
      non-zero amount always changes the size. */
  lemma ShiftInverse(size: nat, d: int)
    requires size in StepSizes && Shift(size, d).Some?
    ensures Shift(Shift(size, d).value, -d) == Some(size)
    ensures d != 0 ==> Shift(size, d).value != size
  {
    var i := IndexOf(StepSizes, size);
    assert 0 <= i && StepSizes[i] == size;
    var j := i + d;
    assert 0 <= j < |StepSizes| && Shift(size, d) == Some(StepSizes[j]);
    ShiftFrom(j, -d);
    assert j + -d == i;
    IndexOfLadder(j);
  }

  /** `x * from / to` cast to an integer: the quotient truncated toward
      zero, which is what a Java `(int)` cast of the double does. */
  function Rescale(x: int, from: nat, to: nat): (r: int)
    requires to > 0
    ensures x >= 0 ==> 0 <= r && r * to <= x * from < (r + 1) * to
    ensures x < 0 ==> r <= 0 && -r * to <= -x * from < (-r + 1) * to
    ensures x == 0 ==> r == 0
  {
    if x >= 0 then
      var n := x * from;
      assert n >= 0;
      TruncatedQuotient(n, to);
      n / to
    else
      var n := -x * from;
      assert n >= 0;
      TruncatedQuotient(n, to);
      -(n / to)
  }

  lemma TruncatedQuotient(n: nat, d: nat)
    requires d > 0
    ensures 0 <= n / d && (n / d) * d <= n < (n / d + 1) * d
  {
    var q := n / d;
    assert n == q * d + n % d;
    assert (q + 1) * d == q * d + d;
  }
}
