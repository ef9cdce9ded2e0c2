/** Facts over the reals that both rating engines share: the pair a
    two-player computation returns, and the laws assumed of x |-> 10^x,
    which Dafny cannot compute. */
module EloMath {

  /** One real per player (ratings, scores or expected scores), A first. */
  datatype Pair = Pair(a: real, b: real) {
    /** The same pair seen from the other player's side. */
    function Swap(): Pair {
      Pair(b, a)
    }
  }

  function Abs(x: real): (r: real)
    ensures r >= 0.0 && (r == x || r == -x)
  {
    if x < 0.0 then -x else x
  }

  /** The properties of 10^x the engines rely on. The exponential itself is
      a parameter of every function that needs it, constrained by these laws. */
  ghost predicate Pow10Laws(pow10: real -> real) {
    && (forall x :: pow10(x) > 0.0)
    && pow10(0.0) == 1.0
    && pow10(1.0) == 10.0
    && (forall x, y :: x + y == 0.0 ==> pow10(x) * pow10(y) == 1.0)
    && (forall x, y :: IncreasingAt(pow10, x, y))
  }

  /** Strict monotonicity at one pair of points. Kept as its own predicate so
      that a proof asks for it at the points it needs, rather than the solver
      relating every pair of exponentials in sight. */
  ghost predicate IncreasingAt(pow10: real -> real, x: real, y: real) {
    x < y ==> pow10(x) < pow10(y)
  }

  /** A computable stand-in for 10^x: 1 + 9x from zero up, its reciprocal
      mirror below zero. It only serves to show the laws can be met. */
  function Pow10Witness(x: real): real {
    if x >= 0.0 then 1.0 + 9.0 * x else 1.0 / (1.0 - 9.0 * x)
  }

  /** The laws are consistent: some function satisfies all of them. */
  lemma Pow10LawsConsistent()
    ensures Pow10Laws(Pow10Witness)
  {
    var f: real -> real := Pow10Witness;
    forall x: real ensures f(x) > 0.0 {
      WitnessPositive(x);
    }
    forall x: real, y: real | x + y == 0.0 ensures f(x) * f(y) == 1.0 {
      WitnessReciprocal(y);
    }
    forall x: real, y: real ensures IncreasingAt(f, x, y) {
      if x < y {
        WitnessIncreasing(x, y);
      }
    }
    assert f(0.0) == 1.0 && f(1.0) == 10.0;
    assert Pow10Laws(f);
  }

  lemma WitnessPositive(x: real)
    ensures Pow10Witness(x) > 0.0
  {
    if x < 0.0 {
      ReciprocalDecreasing(1.0, 1.0 - 9.0 * x);
    }
  }

  lemma WitnessReciprocal(x: real)
    ensures Pow10Witness(-x) * Pow10Witness(x) == 1.0
  {
    if x > 0.0 {
      var d := 1.0 + 9.0 * x;
      assert Pow10Witness(x) == d;
      assert Pow10Witness(-x) == 1.0 / d;
    } else if x < 0.0 {
      var d := 1.0 - 9.0 * x;
      assert Pow10Witness(-x) == d;
      assert Pow10Witness(x) == 1.0 / d;
    }
  }

  lemma WitnessIncreasing(x: real, y: real)
    requires x < y
    ensures Pow10Witness(x) < Pow10Witness(y)
  {
    if y < 0.0 {
      ReciprocalDecreasing(1.0 - 9.0 * y, 1.0 - 9.0 * x);
    } else if x < 0.0 {
      ReciprocalDecreasing(1.0, 1.0 - 9.0 * x);
    }
  }

  lemma ReciprocalDecreasing(p: real, q: real)
    requires 0.0 < p < q
    ensures 1.0 / q < 1.0 / p
  {
    assert 1.0 / q * q == 1.0 && 1.0 / p * p == 1.0;
    assert (1.0 / q) * p < (1.0 / q) * q;
  }

  /** Two logistic terms whose exponentials are reciprocal add up to one. */
  lemma LogisticComplement(p: real, q: real)
    requires p > 0.0 && q > 0.0 && p * q == 1.0
    ensures 1.0 / (1.0 + p) + 1.0 / (1.0 + q) == 1.0
  {
    assert (1.0 + q) * p == p + 1.0;
    assert 1.0 / (1.0 + q) == p / (1.0 + p);
  }

  /** 1 / (1 + p) lies strictly between 0 and 1 for positive p, and is 1/2 at p = 1. */
  lemma LogisticBounds(p: real)
    requires p > 0.0
    ensures 0.0 < 1.0 / (1.0 + p) < 1.0
    ensures p == 1.0 ==> 1.0 / (1.0 + p) == 0.5
  {
    ReciprocalDecreasing(1.0, 1.0 + p);
  }

  /** Dividing by a positive constant keeps order. */
  lemma DivisionKeepsOrder(x: real, y: real, c: real)
    requires x < y && c > 0.0
    ensures x / c < y / c
  {
    assert y / c - x / c == (y - x) / c;
  }

  /** The difference of two scaled shares of a total is the scaled share of
      the difference. */
  lemma ScaledShareDifference(l: real, x: real, y: real)
    requires x + y != 0.0
    ensures l * (x / (x + y)) - l * (y / (x + y)) == l * (x - y) / (x + y)
  {
    var t := x + y;
    var fx, fy := x / t, y / t;
    assert fx * t == x && fy * t == y;
    assert (fx - fy) * t == x - y;
    assert fx - fy == (x - y) / t;
    assert l * fx - l * fy == l * (fx - fy);
    assert l * ((x - y) / t) == l * (x - y) / t;
  }
}
