# Elo rating engine, modelled in Dafny

The repository is a small, stateless Elo rating library for two players, in
two versions:

- `ELO.java` is the full engine. Its configuration `(K, C, L)` is fixed at
  construction and defaults to 32/400/16. `elo` validates a score pair and
  then applies the pairwise Elo update. `elo_with_points` turns raw point
  totals into an update in one of two ways:
  - `elo_rationalize_points` uses each side's point share as its score;
  - `elo_with_l_factor` uses the win/draw/loss score and adds a margin bonus
    `p(score, expected) * L * points_fraction`.
- `ELO.py` is the earlier version. Its configuration is `(K, c)`, and its
  `update_rating` has no score validation.

Both versions are pure computations over `double`/`float`. The model uses
Dafny `real` and four modules:

- `EloMath` (elo_math.dfy) holds the `Pair` of per-player values, `Abs`, and
  the laws assumed of `10^x`. It also holds small arithmetic lemmas.
- `Elo` (elo_engine.dfy) models `ELO.java`. The configuration is a datatype
  `Config(kFactor, cValue, lFactor)`, and each method is a function.
- `EloLegacy` (elo_legacy.dfy) models `ELO.py`, with `Config(k, c)`.
- `EloVersions` (elo_versions.dfy) relates the two versions. On scores that
  Java accepts, Java's `elo` is Python's `update_rating` with the same K and C.

The exponential `10^x` (`Math.pow(10, x)` and `10 ** x`) cannot be computed
over the reals in Dafny. Every function that needs it takes it as a
parameter `pow10: real -> real` and requires `Pow10Laws(pow10)`. The laws are:

- `10^x` is positive;
- `10^0 = 1` and `10^1 = 10`;
- `10^x * 10^y = 1` whenever `x + y = 0`;
- `10^x` is strictly increasing.

`Pow10LawsConsistent` exhibits a computable function that satisfies all of
these laws, so the requirement can always be met.

In `elo_with_l_factor` each player's bonus is scaled by that player's own
points fraction (ELO.java:150-151). In a 10-0 shutout between two 1200s with
K = 32 and L = 16, the loser's fraction is 0, so the loser drops only the 16
points of the plain update and the result is (1232, 1184)
(`Elo.LFactorShutout`). For the same reason the update is not zero-sum when
L != 0: whenever the totals differ, the two ratings together change by
`L * |pa - pb| / (pa + pb)` (`Elo.LFactorNetChange`), with L > 0 a gain when the totals
are positive and a loss when their sum is negative.

## Model

| member | source | states |
|---|---|---|
| `Elo.DefaultConfig` | ELO.java:5-17 | The no-argument engine has K = 32, C = 400, L = 16, and its C is usable (positive). |
| `Elo.Expect` | ELO.java:184-186 | The expectation `1/(1+10^((rb-ra)/C))` lies strictly between 0 and 1, and is exactly 1/2 for equal ratings. |
| `Elo.ExpectedScores` | ELO.java:172-177 | The two expected scores each lie in (0,1), sum to exactly 1, and are (1/2, 1/2) for equal ratings. |
| `Elo.ExpectComplement` | ELO.java:172-186 | `expect(a,b) + expect(b,a) == 1` for all ratings, from `10^x * 10^-x == 1`. |
| `Elo.FavouriteExpectsMore` | ELO.java:184-186 | With C > 0, A's expectation is above 1/2 exactly when A is rated higher, and below 1/2 exactly when A is rated lower. |
| `Elo.ExpectIncreasing` | ELO.java:184-186 | With C > 0 and B's rating fixed, A's expectation strictly increases with A's rating. |
| `Elo.Update` | ELO.java:194-196 | With K > 0, the new rating is above the old one exactly when score > expected, and below it exactly when score < expected. With K = 0 or score == expected, the rating is unchanged. |
| `Elo.Elo` | ELO.java:52-70 | Invalid scores return the ratings unchanged. For valid scores summing to 1, the two rating changes are equal in size and opposite in sign. |
| `Elo.ValidScores` | ELO.java:161-165 | Holds exactly when both scores are in [0,1] and their sum is strictly below 1.1. |
| `Elo.ValidScoresExamples` | ELO.java:161-165 | (0.5,0.5), (1,0) and (0,1) pass validation. (0.9,0.9) fails on its sum, and -0.1 and 1.05 fail on the range. |
| `Elo.EloSwap` | ELO.java:52-70 | Swapping both players' ratings and scores swaps the result. |
| `Elo.EloEvenDraw` | ELO.java:52-70 | A 0.5/0.5 result between equal ratings leaves both ratings unchanged. |
| `Elo.EloEvenWin` | ELO.java:52-70 | Between equal ratings, a win moves the winner up by K/2 and the loser down by K/2: 16 each with K = 32. |
| `Elo.EloFavouriteWins` | ELO.java:52-70 | With defaults, 1400 beating 1000 gives exactly (1400 + 32/11, 1000 - 32/11), about (1402.91, 997.09). |
| `Elo.WinGainShrinks` | ELO.java:61-67 | With K, C > 0 and B fixed, a win always gains rating, and the gain strictly shrinks as A's rating rises. |
| `Elo.WinGainOrder` | ELO.java:194-196 | With K > 0, a win's gain is positive and strictly smaller for a higher expectation. |
| `Elo.EloWithPoints` | ELO.java:80-86 | `false` dispatches to point share and `true` to the L-factor path. Under either policy, equal totals give the 0.5/0.5 update. |
| `Elo.EloWithPointsSwap` | ELO.java:80-153 | Under either policy, swapping both players' ratings and points swaps the result. |
| `Elo.PointShares` | ELO.java:98-106 | Equal totals, including 0/0, give (0.5, 0.5). Non-negative totals give shares that pass validation and sum to 1. |
| `Elo.EloRationalizePoints` | ELO.java:95-109 | Equal totals give the 0.5/0.5 update. For non-negative totals, the two rating changes are equal and opposite; validation never rejects them. |
| `Elo.P` | ELO.java:203-208 | The result is 0 exactly when score == expected, +1 exactly when score > expected, and -1 exactly when score < expected. |
| `Elo.PointsFraction` | ELO.java:215-220 | The result is 0 whenever pa == pb. Otherwise it times (pa + pb) is pa. For non-negative totals it lies in [0,1]. |
| `Elo.PointsFractionComplement` | ELO.java:215-220 | For unequal totals, `points_fraction(pa,pb) + points_fraction(pb,pa) == 1`. |
| `Elo.BinaryScores` | ELO.java:121-133 | The win/draw/loss pair is valid and sums to 1. A's score beats B's exactly when pa > pb, and trails it exactly when pa < pb. |
| `Elo.EloWithLFactor` | ELO.java:118-154 | With equal totals, both bonuses vanish and the result is the 0.5/0.5 update. |
| `Elo.Bonus` | ELO.java:146-151 | With L and the totals non-negative, a bonus never has the opposite sign of score - expected. It is 0 on equal totals or when score == expected. |
| `Elo.LFactorBonus` | ELO.java:136-153 | If pa > pb, the result is the 1/0 update with +L*pa/(pa+pb) added for A and L*pb/(pa+pb) taken from B. Expectations come from the original ratings. |
| `Elo.LFactorWinnerGains` | ELO.java:118-154 | With K > 0, L >= 0 and pa > pb >= 0, A's rating rises and B's falls, whatever the ratings. |
| `Elo.LFactorBonusAgrees` | ELO.java:136-153 | With K > 0 and L and the totals >= 0, the bonus never reverses or shrinks the win/draw/loss change; it only extends it. |
| `Elo.LFactorNetChange` | ELO.java:150-151 | For unequal totals, the sum of the two rating changes is exactly L*abs(pa-pb)/(pa+pb) (negative points allowed), so the update is not zero-sum when L != 0. |
| `Elo.LFactorSwap` | ELO.java:118-154 | Swapping both players' ratings and points swaps the L-factor result. |
| `Elo.LFactorShutout` | ELO.java:118-154 | With defaults, 1200 vs 1200 and points 10-0 give exactly (1232, 1184). |
| `EloMath.Pow10LawsConsistent` | ELO.java:185 | The laws assumed of `Math.pow(10, x)` are satisfiable: a concrete function meets all of them. |
| `EloLegacy.DefaultConfig` | ELO.py:7-9 | The no-argument engine has K = 32 and c = 400. |
| `EloLegacy.ExpectedScores` | ELO.py:36-49 | Both expectations lie in (0,1), sum to exactly 1, and are 1/2 each for equal ratings. |
| `EloLegacy.UpdateRating` | ELO.py:11-34 | For any scores summing to 1, A's change is the negation of B's. No score is rejected. |
| `EloLegacy.ExpectedScoresSwap` | ELO.py:45-46 | `expected_score_b` is `expected_score_a` with the ratings exchanged. |
| `EloLegacy.UpdateRatingSwap` | ELO.py:26-34 | Swapping both players' ratings and scores swaps the result. |
| `EloLegacy.NewRating` | ELO.py:30-31 | One player's new rating is rating + K*(score - expected), with no bound on the score. |
| `EloLegacy.UnvalidatedScores` | ELO.py:11-34 | With defaults, 0.9/0.9 between equal ratings raises both ratings by 12.8. |
| `EloVersions.ExpectationsAgree` | ELO.java:172-186 | Java's `get_expected_scores` equals Python's `__get_expected_scores` for the same C. |
| `EloVersions.EloRefinesUpdateRating` | ELO.java:52-70 | On valid scores, Java's `elo` equals Python's `update_rating` with the same K and C. On invalid scores, Java returns the ratings unchanged. |
| `EloVersions.LegacyExpectationIncreasing` | ELO.py:45 | With c > 0 and B fixed, A's Python expectation strictly increases with A's rating, derived from the Java expectation it equals. |
| `EloVersions.DefaultsAgree` | ELO.py:7-9 | The default K and C of the Python engine are those of the Java engine. |
| `EloVersions.VersionsDifferOnInvalidScores` | ELO.java:55-58 | For 0.9/0.9, Java keeps (1500, 1500) while Python moves the ratings. |

## Left out

- The "Scores not valid" console message (ELO.java:56) is I/O. The model shows the invalid case only as ratings returned unchanged.
- Floating point is not modelled. Ratings, scores and points are exact reals, so rounding in `Math.pow`/`**` and in the divisions is not captured. Exact `==` on doubles in `p` and `points_fraction` is real equality.
- `10^x` is a parameter constrained by laws, not a computed function. Results that depend on its value at points other than 0 and ±1 are stated symbolically.
- Division by zero is excluded by preconditions. `C == 0` is excluded for both engines (`Elo.Computable` and `c != 0`): Java would produce Infinity/NaN and Python would raise. Points with `pa + pb == 0` but `pa != pb` are excluded (`Elo.SharesDefined`). This is the only input for which `points_a / (points_a + points_b)` divides by zero. Negative points are otherwise allowed, as in the source.
- The one- and two-argument Java constructors (ELO.java:22-32) only fill in defaults. They are `Config(k, 400, 16)` and `Config(k, c, 16)`, and have no members of their own.
- The integer widths of Java's `int` K, C, L and Python's `int` are not modelled. They are only converted to floating point, never combined as integers.
