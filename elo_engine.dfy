/** The Java rating engine: a configuration (K, C, L) fixed at construction,
    the validated pairwise Elo update, and the two ways of turning raw point
    totals into an update (point share as score, or win/draw/loss plus a
    margin bonus scaled by L). */
module Elo {
  import opened EloMath

  /** K-factor, C-value and L-factor. A datatype value never changes, as
      the final fields of the engine never do after construction. */
  datatype Config = Config(kFactor: int, cValue: int, lFactor: int)

  const DefaultKFactor: int := 32
  const DefaultCValue: int := 400
  const DefaultLFactor: int := 16

  /** The engine built with no arguments. */
  function DefaultConfig(): (cfg: Config)
    ensures cfg.kFactor == 32 && cfg.cValue == 400 && cfg.lFactor == 16
    ensures cfg.cValue > 0
  {
    Config(DefaultKFactor, DefaultCValue, DefaultLFactor)
  }

  /** What the real-number model needs to evaluate the logistic expectation:
      a nonzero C (the exponent divides by it) and an exponential obeying the
      laws of 10^x. */
  ghost predicate Computable(cfg: Config, pow10: real -> real) {
    cfg.cValue != 0 && Pow10Laws(pow10)
  }

  /** Scores are accepted when each lies in [0, 1] and their sum is below 1.1. */
  predicate ValidScores(scoreA: real, scoreB: real) {
    0.0 <= scoreA <= 1.0 && 0.0 <= scoreB <= 1.0 && scoreA + scoreB < 1.1
  }

  /** Logistic expectation of A against B: 1 / (1 + 10^((rb - ra) / C)). */
  function Expect(cfg: Config, pow10: real -> real, ratingA: real, ratingB: real): (e: real)
    requires Computable(cfg, pow10)
    ensures 0.0 < e < 1.0
    ensures ratingA == ratingB ==> e == 0.5
  {
    var p := pow10((ratingB - ratingA) / cfg.cValue as real);
    LogisticBounds(p);
    1.0 / (1.0 + p)
  }

  /** The two players' expectations, each computed with the same formula. */
  function ExpectedScores(cfg: Config, pow10: real -> real, ratingA: real, ratingB: real): (e: Pair)
    requires Computable(cfg, pow10)
    ensures 0.0 < e.a < 1.0 && 0.0 < e.b < 1.0
    ensures e.a + e.b == 1.0
    ensures ratingA == ratingB ==> e == Pair(0.5, 0.5)
  {
    ExpectComplement(cfg, pow10, ratingA, ratingB);
    Pair(Expect(cfg, pow10, ratingA, ratingB), Expect(cfg, pow10, ratingB, ratingA))
  }

  /** The two expectations are complementary whatever the ratings. */
  lemma ExpectComplement(cfg: Config, pow10: real -> real, ratingA: real, ratingB: real)
    requires Computable(cfg, pow10)
    ensures Expect(cfg, pow10, ratingA, ratingB) + Expect(cfg, pow10, ratingB, ratingA) == 1.0
  {
    var c := cfg.cValue as real;
    var x, y := (ratingB - ratingA) / c, (ratingA - ratingB) / c;
    assert x + y == 0.0 by {
      assert x + y == ((ratingB - ratingA) + (ratingA - ratingB)) / c;
    }
    var p, q := pow10(x), pow10(y);
    assert p > 0.0 && q > 0.0 && p * q == 1.0;
    LogisticComplement(p, q);
    assert Expect(cfg, pow10, ratingA, ratingB) == 1.0 / (1.0 + p);
    assert Expect(cfg, pow10, ratingB, ratingA) == 1.0 / (1.0 + q);
  }

  /** With a positive C, A is favoured exactly when A is rated higher. */
  lemma FavouriteExpectsMore(cfg: Config, pow10: real -> real, ratingA: real, ratingB: real)
    requires Computable(cfg, pow10) && cfg.cValue > 0
    ensures Expect(cfg, pow10, ratingA, ratingB) > 0.5 <==> ratingA > ratingB
    ensures Expect(cfg, pow10, ratingA, ratingB) < 0.5 <==> ratingA < ratingB
  {
    var x := (ratingB - ratingA) / cfg.cValue as real;
    var e := Expect(cfg, pow10, ratingA, ratingB);
    if ratingA > ratingB {
      DivisionKeepsOrder(ratingB - ratingA, 0.0, cfg.cValue as real);
      assert IncreasingAt(pow10, x, 0.0);
      ReciprocalDecreasing(1.0 + pow10(x), 2.0);
    } else if ratingA < ratingB {
      DivisionKeepsOrder(0.0, ratingB - ratingA, cfg.cValue as real);
      assert IncreasingAt(pow10, 0.0, x);
      ReciprocalDecreasing(2.0, 1.0 + pow10(x));
    }
  }

  /** With a positive C, raising A's rating (B fixed) raises A's expectation. */
  lemma ExpectIncreasing(cfg: Config, pow10: real -> real, ratingA: real, ratingA': real, ratingB: real)
    requires Computable(cfg, pow10) && cfg.cValue > 0
    requires ratingA < ratingA'
    ensures Expect(cfg, pow10, ratingA, ratingB) < Expect(cfg, pow10, ratingA', ratingB)
  {
    var c := cfg.cValue as real;
    DivisionKeepsOrder(ratingB - ratingA', ratingB - ratingA, c);
    var p, p' := pow10((ratingB - ratingA) / c), pow10((ratingB - ratingA') / c);
    assert IncreasingAt(pow10, (ratingB - ratingA') / c, (ratingB - ratingA) / c);
    ReciprocalDecreasing(1.0 + p', 1.0 + p);
  }

  /** One player's new rating: rating + K * (score - expected). */
  function Update(cfg: Config, rating: real, score: real, expected: real): (r: real)
    ensures cfg.kFactor > 0 ==> (r > rating <==> score > expected)
    ensures cfg.kFactor > 0 ==> (r < rating <==> score < expected)
    ensures cfg.kFactor == 0 || score == expected ==> r == rating
  {
    var k := cfg.kFactor as real;
    assert cfg.kFactor > 0 ==>
             ((k * (score - expected) > 0.0 <==> score > expected) &&
              (k * (score - expected) < 0.0 <==> score < expected)) by {
      if cfg.kFactor > 0 && score > expected {
        assert k * (score - expected) > 0.0;
      } else if cfg.kFactor > 0 && score < expected {
        assert k * (score - expected) < 0.0;
      }
    }
    rating + k * (score - expected)
  }

  /** The validated pairwise update: invalid scores leave both ratings as they
      were (the source also prints a message, not modelled); valid scores move
      each rating by K times its surprise, so that scores adding up to one move
      the two ratings by the same amount in opposite directions. */
  function Elo(cfg: Config, pow10: real -> real, ratingA: real, ratingB: real, scoreA: real, scoreB: real): (r: Pair)
    requires Computable(cfg, pow10)
    ensures !ValidScores(scoreA, scoreB) ==> r == Pair(ratingA, ratingB)
    ensures ValidScores(scoreA, scoreB) && scoreA + scoreB == 1.0 ==> r.a - ratingA == ratingB - r.b
  {
    if !ValidScores(scoreA, scoreB) then
      Pair(ratingA, ratingB)
    else
      var e := ExpectedScores(cfg, pow10, ratingA, ratingB);
      var k := cfg.kFactor as real;
      assert scoreA + scoreB == 1.0 ==> k * (scoreA - e.a) == -(k * (scoreB - e.b)) by {
        if scoreA + scoreB == 1.0 {
          assert scoreB - e.b == -(scoreA - e.a);
        }
      }
      Pair(Update(cfg, ratingA, scoreA, e.a), Update(cfg, ratingB, scoreB, e.b))
  }

  /** Score pairs the validation accepts and rejects: a draw and a win pass,
      0.9/0.9 fails on its sum, a negative score fails on its range. */
  lemma ValidScoresExamples()
    ensures ValidScores(0.5, 0.5) && ValidScores(1.0, 0.0) && ValidScores(0.0, 1.0)
    ensures !ValidScores(0.9, 0.9) && !ValidScores(-0.1, 1.0) && !ValidScores(1.05, 0.0)
  {
  }

  /** Swapping the players (ratings and scores) swaps the result. */
  lemma EloSwap(cfg: Config, pow10: real -> real, ratingA: real, ratingB: real, scoreA: real, scoreB: real)
    requires Computable(cfg, pow10)
    ensures Elo(cfg, pow10, ratingB, ratingA, scoreB, scoreA) == Elo(cfg, pow10, ratingA, ratingB, scoreA, scoreB).Swap()
  {
  }

  /** A draw between equally rated players changes nothing. */
  lemma EloEvenDraw(cfg: Config, pow10: real -> real, rating: real)
    requires Computable(cfg, pow10)
    ensures Elo(cfg, pow10, rating, rating, 0.5, 0.5) == Pair(rating, rating)
  {
  }

  /** When equally rated players meet, the winner gains K/2 and the loser
      loses K/2: 16 points each with K = 32. */
  lemma EloEvenWin(cfg: Config, pow10: real -> real, rating: real)
    requires Computable(cfg, pow10)
    ensures Elo(cfg, pow10, rating, rating, 1.0, 0.0) == Pair(rating + cfg.kFactor as real / 2.0, rating - cfg.kFactor as real / 2.0)
    ensures cfg.kFactor == 32 ==> Elo(cfg, pow10, rating, rating, 1.0, 0.0) == Pair(rating + 16.0, rating - 16.0)
  {
  }

  /** 1400 beats 1000 with the default configuration: A expects 10/11, so A
      gains 32/11 (about 2.91) and B loses as much. */
  lemma EloFavouriteWins(pow10: real -> real)
    requires Pow10Laws(pow10)
    ensures Elo(DefaultConfig(), pow10, 1400.0, 1000.0, 1.0, 0.0) == Pair(1400.0 + 32.0 / 11.0, 1000.0 - 32.0 / 11.0)
  {
    var cfg := DefaultConfig();
    assert (1000.0 - 1400.0) / cfg.cValue as real == -1.0;
    assert (1400.0 - 1000.0) / cfg.cValue as real == 1.0;
    assert pow10(-1.0) * pow10(1.0) == 1.0;
    assert pow10(-1.0) == 0.1;
    assert Expect(cfg, pow10, 1400.0, 1000.0) == 10.0 / 11.0;
    assert Expect(cfg, pow10, 1000.0, 1400.0) == 1.0 / 11.0;
  }

  /** With positive K and C, the higher A is rated (B fixed), the less A gains
      by winning; the gain is always positive. */
  lemma WinGainShrinks(cfg: Config, pow10: real -> real, ratingA: real, ratingA': real, ratingB: real)
    requires Computable(cfg, pow10) && cfg.cValue > 0 && cfg.kFactor > 0
    requires ratingA < ratingA'
    ensures 0.0 < Elo(cfg, pow10, ratingA', ratingB, 1.0, 0.0).a - ratingA'
                < Elo(cfg, pow10, ratingA, ratingB, 1.0, 0.0).a - ratingA
  {
    ExpectIncreasing(cfg, pow10, ratingA, ratingA', ratingB);
    var e, e' := Expect(cfg, pow10, ratingA, ratingB), Expect(cfg, pow10, ratingA', ratingB);
    assert Elo(cfg, pow10, ratingA, ratingB, 1.0, 0.0).a == Update(cfg, ratingA, 1.0, e);
    assert Elo(cfg, pow10, ratingA', ratingB, 1.0, 0.0).a == Update(cfg, ratingA', 1.0, e');
    WinGainOrder(cfg, ratingA, ratingA', e, e');
  }

  /** A win is worth less the higher the winner's expectation (K > 0). */
  lemma WinGainOrder(cfg: Config, rating: real, rating': real, e: real, e': real)
    requires cfg.kFactor > 0 && e < e' < 1.0
    ensures 0.0 < Update(cfg, rating', 1.0, e') - rating' < Update(cfg, rating, 1.0, e) - rating
  {
    var k := cfg.kFactor as real;
    assert k * (1.0 - e) - k * (1.0 - e') == k * (e' - e);
  }

  /** Point totals for which the source's divisions by pa + pb are defined:
      the totals are equal (both cases divide only when the total is then
      nonzero) or their sum is nonzero. */
  predicate SharesDefined(pointsA: real, pointsB: real) {
    pointsA == pointsB || pointsA + pointsB != 0.0
  }

  /** Dispatch on use_l_factor: point share as score, or win/draw/loss plus
      the L-factor bonus. Either way, equal point totals are scored as a draw. */
  function EloWithPoints(cfg: Config, pow10: real -> real, ratingA: real, ratingB: real,
                         pointsA: real, pointsB: real, useLFactor: bool): (r: Pair)
    requires Computable(cfg, pow10) && SharesDefined(pointsA, pointsB)
    ensures !useLFactor ==> r == EloRationalizePoints(cfg, pow10, ratingA, ratingB, pointsA, pointsB)
    ensures useLFactor ==> r == EloWithLFactor(cfg, pow10, ratingA, ratingB, pointsA, pointsB)
    ensures pointsA == pointsB ==> r == Elo(cfg, pow10, ratingA, ratingB, 0.5, 0.5)
  {
    if !useLFactor then
      EloRationalizePoints(cfg, pow10, ratingA, ratingB, pointsA, pointsB)
    else
      EloWithLFactor(cfg, pow10, ratingA, ratingB, pointsA, pointsB)
  }

  /** Under either policy, swapping the players (ratings and points) swaps
      the result. */
  lemma EloWithPointsSwap(cfg: Config, pow10: real -> real, ratingA: real, ratingB: real,
                          pointsA: real, pointsB: real, useLFactor: bool)
    requires Computable(cfg, pow10) && SharesDefined(pointsA, pointsB)
    ensures EloWithPoints(cfg, pow10, ratingB, ratingA, pointsB, pointsA, useLFactor)
         == EloWithPoints(cfg, pow10, ratingA, ratingB, pointsA, pointsB, useLFactor).Swap()
  {
    if useLFactor {
      LFactorSwap(cfg, pow10, ratingA, ratingB, pointsA, pointsB);
    } else {
      var s := PointShares(pointsA, pointsB);
      assert PointShares(pointsB, pointsA) == s.Swap() by {
        assert pointsB + pointsA == pointsA + pointsB;
      }
      EloSwap(cfg, pow10, ratingA, ratingB, s.a, s.b);
    }
  }

  /** The scores the point-share policy feeds to Elo: 0.5 each when both
      totals are zero, otherwise each side's share of the total. */
  function PointShares(pointsA: real, pointsB: real): (s: Pair)
    requires SharesDefined(pointsA, pointsB)
    ensures pointsA == pointsB ==> s == Pair(0.5, 0.5)
    ensures 0.0 <= pointsA && 0.0 <= pointsB ==> ValidScores(s.a, s.b) && s.a + s.b == 1.0
  {
    if pointsA == pointsB && pointsB == 0.0 then
      Pair(0.5, 0.5)
    else
      var total := pointsA + pointsB;
      assert pointsA / total + pointsB / total == 1.0 by {
        assert pointsA / total + pointsB / total == total / total;
      }
      assert 0.0 <= pointsA && 0.0 <= pointsB ==> pointsA / total <= 1.0 && pointsB / total <= 1.0 by {
        if 0.0 <= pointsA && 0.0 <= pointsB {
          assert pointsA / total <= total / total;
          assert pointsB / total <= total / total;
        }
      }
      assert pointsA == pointsB ==> pointsA / total == 0.5 by {
        if pointsA == pointsB {
          assert total == 2.0 * pointsA;
        }
      }
      Pair(pointsA / total, pointsB / total)
  }

  /** Point share used as the score. For non-negative totals validation
      always passes, so the two ratings move by equal and opposite amounts. */
  function EloRationalizePoints(cfg: Config, pow10: real -> real, ratingA: real, ratingB: real,
                                pointsA: real, pointsB: real): (r: Pair)
    requires Computable(cfg, pow10) && SharesDefined(pointsA, pointsB)
    ensures pointsA == pointsB ==> r == Elo(cfg, pow10, ratingA, ratingB, 0.5, 0.5)
    ensures 0.0 <= pointsA && 0.0 <= pointsB ==> r.a - ratingA == ratingB - r.b
  {
    var s := PointShares(pointsA, pointsB);
    Elo(cfg, pow10, ratingA, ratingB, s.a, s.b)
  }

  /** Sign of score - expected: 0 on a match, otherwise +1 or -1. */
  function P(score: real, expected: real): (p: real)
    ensures p == 0.0 <==> score == expected
    ensures p == 1.0 <==> score > expected
    ensures p == -1.0 <==> score < expected
  {
    if score == expected then
      0.0
    else
      var d := score - expected;
      assert d / Abs(d) == if d > 0.0 then 1.0 else -1.0 by {
        if d < 0.0 {
          assert Abs(d) == -d && d / -d == -1.0;
        }
      }
      d / Abs(d)
  }

  /** A's share pa / (pa + pb) of the points, or 0 whenever the totals are
      equal (not only when both are zero). */
  function PointsFraction(pointsA: real, pointsB: real): (f: real)
    requires SharesDefined(pointsA, pointsB)
    ensures pointsA == pointsB ==> f == 0.0
    ensures pointsA != pointsB ==> f * (pointsA + pointsB) == pointsA
    ensures 0.0 <= pointsA && 0.0 <= pointsB ==> 0.0 <= f <= 1.0
  {
    if pointsA == pointsB then
      0.0
    else
      var total := pointsA + pointsB;
      assert 0.0 <= pointsA && 0.0 <= pointsB ==> pointsA / total <= 1.0 by {
        if 0.0 <= pointsA && 0.0 <= pointsB {
          assert pointsA / total <= total / total;
        }
      }
      pointsA / total
  }

  /** For unequal totals the two players' fractions add up to one. */
  lemma PointsFractionComplement(pointsA: real, pointsB: real)
    requires pointsA != pointsB && pointsA + pointsB != 0.0
    ensures PointsFraction(pointsA, pointsB) + PointsFraction(pointsB, pointsA) == 1.0
  {
    var total := pointsA + pointsB;
    assert pointsB + pointsA == total;
    assert pointsA / total + pointsB / total == total / total;
  }

  /** The binary score pair the L-factor policy derives from the totals. */
  function BinaryScores(pointsA: real, pointsB: real): (s: Pair)
    ensures ValidScores(s.a, s.b) && s.a + s.b == 1.0
    ensures s.a > s.b <==> pointsA > pointsB
    ensures s.a < s.b <==> pointsA < pointsB
  {
    if pointsA == pointsB then Pair(0.5, 0.5)
    else if pointsA > pointsB then Pair(1.0, 0.0)
    else Pair(0.0, 1.0)
  }

  /** Win/draw/loss update plus a margin bonus: each player's bonus is
      P(score, expected) * L * own points fraction, with the expectations
      taken from the ratings before the update. Equal totals give no bonus,
      so the result is that of a draw. */
  function EloWithLFactor(cfg: Config, pow10: real -> real, ratingA: real, ratingB: real,
                          pointsA: real, pointsB: real): (r: Pair)
    requires Computable(cfg, pow10) && SharesDefined(pointsA, pointsB)
    ensures pointsA == pointsB ==> r == Elo(cfg, pow10, ratingA, ratingB, 0.5, 0.5)
  {
    var s := BinaryScores(pointsA, pointsB);
    var core := Elo(cfg, pow10, ratingA, ratingB, s.a, s.b);
    var e := ExpectedScores(cfg, pow10, ratingA, ratingB);
    Pair(core.a + Bonus(cfg, s.a, e.a, pointsA, pointsB),
         core.b + Bonus(cfg, s.b, e.b, pointsB, pointsA))
  }

  /** One player's margin bonus, P(score, expected) * L * own points
      fraction. With non-negative L and totals it never points against
      score - expected, and it vanishes on equal totals or a score that
      matches its expectation. */
  function Bonus(cfg: Config, score: real, expected: real, pointsX: real, pointsY: real): (b: real)
    requires SharesDefined(pointsX, pointsY)
    ensures cfg.lFactor >= 0 && 0.0 <= pointsX && 0.0 <= pointsY ==>
              (score > expected ==> b >= 0.0) && (score < expected ==> b <= 0.0)
    ensures pointsX == pointsY || score == expected ==> b == 0.0
  {
    var lf := cfg.lFactor as real * PointsFraction(pointsX, pointsY);
    assert cfg.lFactor >= 0 && 0.0 <= pointsX && 0.0 <= pointsY ==> lf >= 0.0;
    assert P(score, expected) * cfg.lFactor as real * PointsFraction(pointsX, pointsY) == P(score, expected) * lf;
    P(score, expected) * cfg.lFactor as real * PointsFraction(pointsX, pointsY)
  }

  /** When A has more points, A's bonus is +L * pa / (pa + pb) on top of the
      win update and B's is -L * pb / (pa + pb) on top of the loss update. */
  lemma LFactorBonus(cfg: Config, pow10: real -> real, ratingA: real, ratingB: real, pointsA: real, pointsB: real)
    requires Computable(cfg, pow10) && SharesDefined(pointsA, pointsB)
    requires pointsA > pointsB
    ensures EloWithLFactor(cfg, pow10, ratingA, ratingB, pointsA, pointsB)
         == Pair(Elo(cfg, pow10, ratingA, ratingB, 1.0, 0.0).a + cfg.lFactor as real * (pointsA / (pointsA + pointsB)),
                 Elo(cfg, pow10, ratingA, ratingB, 1.0, 0.0).b - cfg.lFactor as real * (pointsB / (pointsA + pointsB)))
  {
    var e := ExpectedScores(cfg, pow10, ratingA, ratingB);
    assert P(1.0, e.a) == 1.0 && P(0.0, e.b) == -1.0;
    assert pointsB + pointsA == pointsA + pointsB;
  }

  /** With positive K and non-negative L and totals, the player with more
      points gains rating and the other loses, whatever the ratings. */
  lemma LFactorWinnerGains(cfg: Config, pow10: real -> real, ratingA: real, ratingB: real, pointsA: real, pointsB: real)
    requires Computable(cfg, pow10) && cfg.kFactor > 0 && cfg.lFactor >= 0
    requires 0.0 <= pointsB < pointsA
    ensures EloWithLFactor(cfg, pow10, ratingA, ratingB, pointsA, pointsB).a > ratingA
    ensures EloWithLFactor(cfg, pow10, ratingA, ratingB, pointsA, pointsB).b < ratingB
  {
    LFactorBonus(cfg, pow10, ratingA, ratingB, pointsA, pointsB);
    var l, total := cfg.lFactor as real, pointsA + pointsB;
    assert l * (pointsA / total) >= 0.0 && l * (pointsB / total) >= 0.0;
  }

  /** The bonus never works against the core update: with positive K and
      non-negative L and totals, a player whose win/draw/loss update raised
      the rating is raised at least as much in the end, and one whose rating
      fell falls at least as far. */
  lemma LFactorBonusAgrees(cfg: Config, pow10: real -> real, ratingA: real, ratingB: real, pointsA: real, pointsB: real)
    requires Computable(cfg, pow10) && cfg.kFactor > 0 && cfg.lFactor >= 0
    requires 0.0 <= pointsA && 0.0 <= pointsB && SharesDefined(pointsA, pointsB)
    ensures var s := BinaryScores(pointsA, pointsB);
            var core := Elo(cfg, pow10, ratingA, ratingB, s.a, s.b);
            var r := EloWithLFactor(cfg, pow10, ratingA, ratingB, pointsA, pointsB);
            (core.a > ratingA ==> r.a >= core.a) && (core.a < ratingA ==> r.a <= core.a) &&
            (core.b > ratingB ==> r.b >= core.b) && (core.b < ratingB ==> r.b <= core.b)
  {
    var s := BinaryScores(pointsA, pointsB);
    var e := ExpectedScores(cfg, pow10, ratingA, ratingB);
    var core := Elo(cfg, pow10, ratingA, ratingB, s.a, s.b);
    assert core == Pair(Update(cfg, ratingA, s.a, e.a), Update(cfg, ratingB, s.b, e.b));
    assert EloWithLFactor(cfg, pow10, ratingA, ratingB, pointsA, pointsB)
        == Pair(core.a + Bonus(cfg, s.a, e.a, pointsA, pointsB), core.b + Bonus(cfg, s.b, e.b, pointsB, pointsA));
  }

  /** The L-factor update is not zero-sum: with unequal totals the two
      ratings together gain L * |pa - pb| / (pa + pb). */
  lemma LFactorNetChange(cfg: Config, pow10: real -> real, ratingA: real, ratingB: real, pointsA: real, pointsB: real)
    requires Computable(cfg, pow10) && SharesDefined(pointsA, pointsB)
    requires pointsA != pointsB
    ensures var r := EloWithLFactor(cfg, pow10, ratingA, ratingB, pointsA, pointsB);
            (r.a - ratingA) + (r.b - ratingB) == cfg.lFactor as real * Abs(pointsA - pointsB) / (pointsA + pointsB)
  {
    var s := BinaryScores(pointsA, pointsB);
    var e := ExpectedScores(cfg, pow10, ratingA, ratingB);
    var core := Elo(cfg, pow10, ratingA, ratingB, s.a, s.b);
    assert core.a - ratingA == ratingB - core.b;
    BonusTotal(cfg, s, e, pointsA, pointsB);
  }

  /** The two bonuses of a decided match add up to L * |pa - pb| / (pa + pb). */
  lemma BonusTotal(cfg: Config, s: Pair, e: Pair, pointsA: real, pointsB: real)
    requires SharesDefined(pointsA, pointsB) && pointsA != pointsB
    requires s == BinaryScores(pointsA, pointsB)
    requires 0.0 < e.a < 1.0 && 0.0 < e.b < 1.0
    ensures Bonus(cfg, s.a, e.a, pointsA, pointsB) + Bonus(cfg, s.b, e.b, pointsB, pointsA)
         == cfg.lFactor as real * Abs(pointsA - pointsB) / (pointsA + pointsB)
  {
    var l := cfg.lFactor as real;
    DecidedBonus(cfg, s.a, e.a, pointsA, pointsB);
    DecidedBonus(cfg, s.b, e.b, pointsB, pointsA);
    if pointsA > pointsB {
      ScaledShareDifference(l, pointsA, pointsB);
    } else {
      ScaledShareDifference(l, pointsB, pointsA);
      assert pointsB + pointsA == pointsA + pointsB;
    }
  }

  /** A bonus with unequal totals is plus or minus L times the own share. */
  lemma DecidedBonus(cfg: Config, score: real, expected: real, pointsX: real, pointsY: real)
    requires pointsX != pointsY && pointsX + pointsY != 0.0
    ensures score > expected ==> Bonus(cfg, score, expected, pointsX, pointsY) == cfg.lFactor as real * (pointsX / (pointsX + pointsY))
    ensures score < expected ==> Bonus(cfg, score, expected, pointsX, pointsY) == -(cfg.lFactor as real * (pointsX / (pointsX + pointsY)))
  {
    assert PointsFraction(pointsX, pointsY) == pointsX / (pointsX + pointsY);
  }

  /** Swapping the players (ratings and points) swaps the result. */
  lemma LFactorSwap(cfg: Config, pow10: real -> real, ratingA: real, ratingB: real, pointsA: real, pointsB: real)
    requires Computable(cfg, pow10) && SharesDefined(pointsA, pointsB)
    ensures EloWithLFactor(cfg, pow10, ratingB, ratingA, pointsB, pointsA)
         == EloWithLFactor(cfg, pow10, ratingA, ratingB, pointsA, pointsB).Swap()
  {
    var s := BinaryScores(pointsA, pointsB);
    assert BinaryScores(pointsB, pointsA) == s.Swap();
    EloSwap(cfg, pow10, ratingA, ratingB, s.a, s.b);
  }

  /** 1200 against 1200 with the default configuration, A winning 10 to 0:
      the win is worth 16 each way, A's full share adds 16 more and B's empty
      share adds nothing, giving 1232 and 1184. */
  lemma LFactorShutout(pow10: real -> real)
    requires Pow10Laws(pow10)
    ensures EloWithLFactor(DefaultConfig(), pow10, 1200.0, 1200.0, 10.0, 0.0) == Pair(1232.0, 1184.0)
  {
    LFactorBonus(DefaultConfig(), pow10, 1200.0, 1200.0, 10.0, 0.0);
    EloEvenWin(DefaultConfig(), pow10, 1200.0);
  }
}
