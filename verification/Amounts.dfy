/** Exact money amounts and the rounding to whole cents that every
    `AmountRounded` field goes through.

    An amount is an exact real number of cents, so the two decimals printed by
    the source's rounding are the whole numbers here. */
module Amounts {

  predicate Whole(v: real) {
    v == v.Floor as real
  }

  /** Nearest whole cent; a tie goes to the even neighbour. */
  function Round(v: real): real {
    var low := v.Floor;
    var part := v - low as real;
    if part < 0.5 || (part == 0.5 && low % 2 == 0) then low as real else (low + 1) as real
  }

  lemma RoundBounds(v: real)
    ensures Whole(Round(v))
    ensures -0.5 <= Round(v) - v <= 0.5
  {
  }

  function Abs(v: real): (w: real) {
    if v < 0.0 then -v else v
  }

  lemma IntegersAreWhole(n: int)
    ensures Whole(n as real)
  {
  }

  /** Sums and differences of whole amounts are whole. */
  lemma WholeClosed(a: real, b: real)
    requires Whole(a) && Whole(b)
    ensures Whole(a + b) && Whole(a - b) && Whole(-a)
  {
    var m, n := a.Floor, b.Floor;
    assert a == m as real && b == n as real;
    hide Whole;
    IntegersAreWhole(m + n);
    IntegersAreWhole(m - n);
    IntegersAreWhole(-m);
  }

  /** No whole amount is nearer than the rounded one, and among two equally
      near ones the even one is taken: this determines the result. */
  lemma RoundIsNearestEven(v: real, u: int)
    ensures Abs(Round(v) - v) <= Abs(u as real - v)
    ensures u as real != Round(v) && Abs(Round(v) - v) == Abs(u as real - v) ==> Round(v).Floor % 2 == 0
  {
    var low := v.Floor;
    if u <= low {
      assert u as real <= low as real;
    } else {
      assert u as real >= (low + 1) as real;
    }
    if u as real != Round(v) && Abs(Round(v) - v) == Abs(u as real - v) {
      assert u == low || u == low + 1;
    }
  }

  /** Rounding leaves an amount alone exactly when it is whole already. */
  lemma RoundFixesWhole(v: real)
    ensures Round(v) == v <==> Whole(v)
  {
  }

  /** Rounding commutes with a change of sign, so a refund rounds like the
      payment it mirrors. */
  lemma RoundNegation(v: real)
    ensures Round(-v) == -Round(v)
  {
    var low, back := v.Floor, (-v).Floor;
    if v == low as real {
      assert -v == (-low) as real;
    } else {
      assert -v == (-low - 1) as real + ((low + 1) as real - v);
      assert back == -low - 1;
    }
  }
}
