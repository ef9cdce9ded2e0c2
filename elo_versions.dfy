/** How the Java engine relates to the earlier Python one: same defaults for
    K and C, the same expectations, and the same update whenever the Java
    validation lets the scores through. */
module EloVersions {
  import opened EloMath
  import Elo
  import EloLegacy

  /** Both engines compute the same pair of expected scores. */
  lemma ExpectationsAgree(k: int, c: int, l: int, pow10: real -> real, ratingA: real, ratingB: real)
    requires c != 0 && Pow10Laws(pow10)
    ensures Elo.ExpectedScores(Elo.Config(k, c, l), pow10, ratingA, ratingB)
         == EloLegacy.ExpectedScores(EloLegacy.Config(k, c), pow10, ratingA, ratingB)
  {
  }

  /** With c > 0 and B's rating fixed, the Python expectation of A strictly
      increases with A's rating: it is the Java expectation, which does. */
  lemma LegacyExpectationIncreasing(k: int, c: int, pow10: real -> real,
                                    ratingA: real, ratingA': real, ratingB: real)
    requires c > 0 && Pow10Laws(pow10)
    requires ratingA < ratingA'
    ensures EloLegacy.ExpectedScores(EloLegacy.Config(k, c), pow10, ratingA, ratingB).a
          < EloLegacy.ExpectedScores(EloLegacy.Config(k, c), pow10, ratingA', ratingB).a
  {
    var cfg := Elo.Config(k, c, 0);
    ExpectationsAgree(k, c, 0, pow10, ratingA, ratingB);
    ExpectationsAgree(k, c, 0, pow10, ratingA', ratingB);
    Elo.ExpectIncreasing(cfg, pow10, ratingA, ratingA', ratingB);
  }

  /** On scores the Java validation accepts, the Java update is the Python
      update with the same K and C; on scores it rejects, the Java update
      returns the ratings unchanged. */
  lemma EloRefinesUpdateRating(k: int, c: int, l: int, pow10: real -> real,
                               ratingA: real, ratingB: real, scoreA: real, scoreB: real)
    requires c != 0 && Pow10Laws(pow10)
    ensures Elo.ValidScores(scoreA, scoreB) ==>
              (Elo.Elo(Elo.Config(k, c, l), pow10, ratingA, ratingB, scoreA, scoreB)
               == EloLegacy.UpdateRating(EloLegacy.Config(k, c), pow10, ratingA, ratingB, scoreA, scoreB))
    ensures !Elo.ValidScores(scoreA, scoreB) ==>
              Elo.Elo(Elo.Config(k, c, l), pow10, ratingA, ratingB, scoreA, scoreB) == Pair(ratingA, ratingB)
  {
    ExpectationsAgree(k, c, l, pow10, ratingA, ratingB);
  }

  /** The default K and C of the two engines coincide. */
  lemma DefaultsAgree()
    ensures Elo.DefaultConfig().kFactor == EloLegacy.DefaultConfig().k
    ensures Elo.DefaultConfig().cValue == EloLegacy.DefaultConfig().c
  {
  }

  /** The two engines part ways on scores outside the Java validation:
      for 0.9/0.9 the Java engine keeps the ratings, the Python one moves them. */
  lemma VersionsDifferOnInvalidScores(pow10: real -> real)
    requires Pow10Laws(pow10)
    ensures Elo.Elo(Elo.DefaultConfig(), pow10, 1500.0, 1500.0, 0.9, 0.9) == Pair(1500.0, 1500.0)
    ensures EloLegacy.UpdateRating(EloLegacy.DefaultConfig(), pow10, 1500.0, 1500.0, 0.9, 0.9) != Pair(1500.0, 1500.0)
  {
    EloLegacy.UnvalidatedScores(pow10, 1500.0);
  }
}
