/** The earlier Python engine: configuration (K, c) only, no score
    validation, no point totals and no L-factor. */
module EloLegacy {
  import opened EloMath

  /** K and c as stored by the initialiser; never reassigned afterwards. */
  datatype Config = Config(k: int, c: int)

  /** The engine built with no arguments. */
  function DefaultConfig(): (cfg: Config)
    ensures cfg.k == 32 && cfg.c == 400
  {
    Config(32, 400)
  }

  /** Both expectations, each written out with its own exponent
      (rb - ra) / c and (ra - rb) / c. They are complementary, lie strictly
      between 0 and 1, and are 1/2 each for equal ratings. */
  function ExpectedScores(cfg: Config, pow10: real -> real, ratingA: real, ratingB: real): (e: Pair)
    requires cfg.c != 0 && Pow10Laws(pow10)
    ensures 0.0 < e.a < 1.0 && 0.0 < e.b < 1.0
    ensures e.a + e.b == 1.0
    ensures ratingA == ratingB ==> e == Pair(0.5, 0.5)
  {
    var c := cfg.c as real;
    var x, y := (ratingB - ratingA) / c, (ratingA - ratingB) / c;
    assert x + y == 0.0 by {
      assert x + y == ((ratingB - ratingA) + (ratingA - ratingB)) / c;
    }
    var p, q := pow10(x), pow10(y);
    assert p > 0.0 && q > 0.0 && p * q == 1.0;
    LogisticComplement(p, q);
    LogisticBounds(p);
    LogisticBounds(q);
    Pair(1.0 / (1.0 + p), 1.0 / (1.0 + q))
  }

  /** Each rating moves by K times (score - expected); any scores are taken
      as given. Scores adding up to one move the two ratings by equal and
      opposite amounts. */
  function UpdateRating(cfg: Config, pow10: real -> real, ratingA: real, ratingB: real,
                        scoreA: real, scoreB: real): (r: Pair)
    requires cfg.c != 0 && Pow10Laws(pow10)
    ensures scoreA + scoreB == 1.0 ==> r.a - ratingA == ratingB - r.b
  {
    var e := ExpectedScores(cfg, pow10, ratingA, ratingB);
    var k := cfg.k as real;
    assert scoreA + scoreB == 1.0 ==> k * (scoreA - e.a) == -(k * (scoreB - e.b)) by {
      if scoreA + scoreB == 1.0 {
        assert scoreB - e.b == -(scoreA - e.a);
      }
    }
    Pair(NewRating(cfg, ratingA, scoreA, e.a), NewRating(cfg, ratingB, scoreB, e.b))
  }

  /** rating + K * (score - expected), as written for each player. */
  function NewRating(cfg: Config, rating: real, score: real, expected: real): real {
    rating + cfg.k as real * (score - expected)
  }

  /** Expected score B is expected score A with the ratings exchanged. */
  lemma ExpectedScoresSwap(cfg: Config, pow10: real -> real, ratingA: real, ratingB: real)
    requires cfg.c != 0 && Pow10Laws(pow10)
    ensures ExpectedScores(cfg, pow10, ratingB, ratingA) == ExpectedScores(cfg, pow10, ratingA, ratingB).Swap()
  {
  }

  /** Swapping the players (ratings and scores) swaps the result. */
  lemma UpdateRatingSwap(cfg: Config, pow10: real -> real, ratingA: real, ratingB: real, scoreA: real, scoreB: real)
    requires cfg.c != 0 && Pow10Laws(pow10)
    ensures UpdateRating(cfg, pow10, ratingB, ratingA, scoreB, scoreA) == UpdateRating(cfg, pow10, ratingA, ratingB, scoreA, scoreB).Swap()
  {
    ExpectedScoresSwap(cfg, pow10, ratingA, ratingB);
  }

  /** Nothing screens the scores: 0.9/0.9 between equal ratings raises both
      ratings by 0.4 K (12.8 each with the defaults). */
  lemma UnvalidatedScores(pow10: real -> real, rating: real)
    requires Pow10Laws(pow10)
    ensures UpdateRating(DefaultConfig(), pow10, rating, rating, 0.9, 0.9) == Pair(rating + 12.8, rating + 12.8)
  {
  }
}
