# Fund recommender engine

A Dafny model of the mutual-fund recommendation engine in
`fund_recommender.py`. The engine answers a `/recommend` request for a
tenure and an amount in three stages:

1. It filters the fund catalog to the funds the client may buy.
2. It scores those funds and ranks them by a weighted score.
3. It spreads 100 percent over them in four passes over one column.

The response keeps only the funds given more than one percent.

The model has five modules:

- `Frame` (`frame.dfy`): the table as a sequence, or an array, of `Fund` rows. It holds columns, column sums (`Sum`, and the loop `SumColumn`) and the lemmas on sums, including that a column sum does not depend on row order.
- `Filter` (`filter.dfy`): `filter_funds`, a pure selection.
- `Rank` (`rank.dfy`): `rank_funds` as a method that writes the three score columns in place on an array. It then sorts a fresh copy by weighted score, using insertion sort. `recommend_mutual_funds` composes the two.
- `Allocation` (`allocation.dfy`): `calculate_allocation` as methods that overwrite the `allocation_percentage` column of an array, one per pass. Each method is proved against a function on the column (`Sized`, `Scaled`, `Floored`, `Reweighted`). Lemmas then say what those functions compute. Their main result is that the four passes cancel: every fund ends with `100 * rating / sum(rating)`.
- `Recommend` (`recommend.dfy`): the arithmetic of the route: the total investment of line 55 and the `> 1` truncation of line 58. It also has the method `Recommend`, which chains everything.

Python floats are modelled as exact `real`s. pandas' division by zero gives NaN or infinity instead of failing. Each such case is a precondition of the form "if the table is not empty, this divisor is not 0". On an empty table pandas divides nothing, and the model needs no condition there.

## Model

| member | source | states |
|---|---|---|
| Filter.FilterFunds | fund_recommender.py:11-12 | a row is in the result if and only if it is in the catalog and has `min_sip <= tenure` and `min_lumpsum <= amount`; the result is no longer than the catalog |
| Filter.FilterIsSubsequence | fund_recommender.py:11-12 | the filter keeps the catalog order: its result is a subsequence of the catalog |
| Filter.FilterCount | fund_recommender.py:11-12 | an eligible row is kept as many times as it occurs in the catalog, and any other row is dropped |
| Filter.FilterAppend | fund_recommender.py:11-12 | filtering a concatenation is concatenating the filtered parts, since the mask works row by row |
| Filter.FilterMonotone | fund_recommender.py:12 | raising the tenure or the amount never removes a row: the smaller result is the larger one filtered again, and a sub-multiset of it |
| Rank.ScoreAll | fund_recommender.py:16-19 | every row gets `risk_adjusted_returns = returns_5yr / risk_level`, `rating_score = rating / 5` and `weighted_score = 0.6 * risk_adjusted_returns + 0.4 * rating_score` |
| Rank.ScoreAllKeepsColumns | fund_recommender.py:16-19 | scoring leaves the name, min_sip, min_lumpsum, returns, risk and rating columns as they were |
| Rank.ScoreMonotone | fund_recommender.py:16-19 | the weighted score does not fall as the return or the rating rises or the risk level falls, for a positive risk level and a non-negative return |
| Rank.InsertRow | fund_recommender.py:20 | one insertion step leaves rows 0 to i sorted by non-increasing score, and the array a permutation of the old one with its tail unchanged |
| Rank.SortByScore | fund_recommender.py:20 | the array ends sorted by non-increasing weighted score and is a permutation of its old contents |
| Rank.RankFunds | fund_recommender.py:15-20 | the passed table ends scored in place, row by row; the returned fresh table is a permutation of it, sorted by non-increasing weighted score |
| Rank.RecommendMutualFunds | fund_recommender.py:23-26 | the result is a permutation of the scored eligible rows, sorted by non-increasing weighted score |
| Frame.SumColumn | fund_recommender.py:31 | the loop computes the column sum `Sum` used by lines 31, 43, 44 and 55 |
| Frame.SumColumnPermutation | fund_recommender.py:20 | a column sum does not depend on row order, so sorting does not change the sums the allocation divides by |
| Allocation.WriteShares | fund_recommender.py:30 | after the loop, every row's allocation is `field / whole * scale`, and every other column is unchanged; this shape is shared by lines 30, 32, 43 and 45 |
| Allocation.SizeProportionally | fund_recommender.py:30-32 | the allocation column becomes `Sized(min_lumpsum column, total)`, and nothing else changes |
| Allocation.ProportionalSizing | fund_recommender.py:30-32 | after sizing, the column is the min_lumpsum column renormalised: it sums to 100, each entry is `100 * min_lumpsum[i] / sum(min_lumpsum)`, and the total investment cancels |
| Allocation.NormalizedSums100 | fund_recommender.py:31-32 | a column divided by its own sum and multiplied by 100 sums to 100 |
| Allocation.NormalizedEntries | fund_recommender.py:31-32 | each renormalised entry is `100 * c[i] / sum(c)` |
| Allocation.NormalizedScaleInvariant | fund_recommender.py:30-32 | renormalising undoes any division and multiplication applied to every entry before it |
| Allocation.NormalizedIdempotent | fund_recommender.py:44-45 | renormalising a column that already sums to 100 leaves it unchanged |
| Allocation.ScaleAllocations | fund_recommender.py:35 | every allocation is multiplied by the factor, and nothing else changes |
| Allocation.ApplyTilt | fund_recommender.py:34-39 | every allocation is multiplied by exactly one factor: 0.6 when tenure <= 3, 0.8 when 3 < tenure <= 10, 0.9 otherwise |
| Allocation.TiltFactorBounds | fund_recommender.py:34-39 | each bracket's factor lies strictly between 0 and 1, and the factor never decreases as the tenure grows |
| Allocation.TiltLeavesResidual | fund_recommender.py:34-39 | a column summing to 100 sums to 100 times the factor after the tilt |
| Allocation.Floored | fund_recommender.py:41 | every entry ends at least 1; an entry above 1 is kept and any other becomes exactly 1 |
| Allocation.FloorAllocations | fund_recommender.py:41 | the allocation column becomes `Floored` of the old one, and nothing else changes |
| Allocation.FlooredBounds | fund_recommender.py:41 | the floor is idempotent; the floored column sums to at least its length and at least its old sum, so the pass-4 divisor is never 0 |
| Allocation.ReweightByRating | fund_recommender.py:43-45 | the allocation column becomes `Reweighted(rating column, old allocation column)`, and nothing else changes |
| Allocation.ReweightedIsNormalizedRating | fund_recommender.py:43-45 | however the allocation column stood, pass 4 leaves the rating column renormalised |
| Allocation.CalculateAllocation | fund_recommender.py:29-46 | the table keeps its rows in order, and only allocation_percentage changes, to `FinalAllocations` of its columns; that equals the renormalised rating column |
| Allocation.AllocationIsRatingShare | fund_recommender.py:29-46 | the final column is `100 * rating[i] / sum(rating)` for every row |
| Allocation.AllocationIndependence | fund_recommender.py:29-46 | the final column does not depend on min_lumpsum, the total investment or the tenure |
| Allocation.AllocationSums100 | fund_recommender.py:43-45 | the final column of a non-empty table sums to 100 |
| Allocation.NormalizedBounds | fund_recommender.py:43-45 | with no negative rating, every final allocation lies between 0 and 100 |
| Recommend.TotalInvestment | fund_recommender.py:55 | the total investment is at most the amount and at most the min_lumpsum sum, and is one of the two |
| Recommend.Response | fund_recommender.py:58 | exactly the rows with allocation above 1 appear, with their name and unchanged percentage; every percentage in the response is above 1 |
| Recommend.ResponseAppend | fund_recommender.py:58 | the truncation keeps the ranked order, since it works row by row |
| Recommend.ResponseFromRows | fund_recommender.py:58 | every response entry is the name and allocation of some row of the table |
| Recommend.ResponseKeepsAll | fund_recommender.py:58 | when every row is above 1, the response lists every row's percentage, in order |
| Recommend.ResponseSumAtMost | fund_recommender.py:58 | the kept percentages are not renormalised: they add up to at most the table's total |
| Recommend.ResponseOfAllocated | fund_recommender.py:56-58 | a ranked fund appears with `100 * rating / sum(rating)` if and only if that share is above 1 |
| Recommend.ResponseAtMost100 | fund_recommender.py:56-58 | with ratings that are not negative, the response adds up to at most 100 |
| Recommend.Recommend | fund_recommender.py:54-58 | `ranked` is a permutation of the scored eligible rows, sorted by non-increasing score; the response is the `> 1` truncation of `ranked` with every row given its rating share; an empty eligible set gives an empty response |
| Recommend.SingleFund | fund_recommender.py:29-58 | one eligible fund with a non-zero rating is recommended at exactly 100 percent |
| Recommend.DroppedShareNotRedistributed | fund_recommender.py:43-58 | ratings 199 and 1 give 99.5 and 0.5 percent; the second fund is dropped and the first keeps 99.5 |

## Left out

- `load_mutual_funds_data` (fund_recommender.py:7-8) is left out because it is a CSV read. The catalog is a parameter of `Recommend`.
- The Flask app, request parsing and `jsonify` (fund_recommender.py:1-4, 48-53, 59-62) are HTTP I/O. `tenure` and `amount` are parameters, and the response is a sequence of `Recommendation` values.
- `forcast.py` is not part of this model. It is a machine-learning pipeline built on foreign library calls.
- `runner.py` is not part of this model. It does HTTP calls to other services.
- IEEE floating point is not modelled: no rounding, and no NaN or infinity from division by zero. Arithmetic is exact over `real`.
- Every division by zero becomes a precondition on non-empty tables: `risk_level != 0`, total investment `!= 0`, `sum(min_lumpsum) != 0` and `sum(rating) != 0`.
- When every eligible rating is 0, the source computes NaN at line 43 and then drops every row at line 58. The model does not cover this case, because `Recommend` requires a non-zero rating sum.
- Recommend.Recommend: the condition on the total investment is `!= 0`, which is weaker than asking for a positive amount. Only a zero divisor matters, since the total cancels.
- Rank.SortByScore: the order of rows with equal weighted scores is not stated. pandas' default sort at line 20 is not guaranteed stable, so the model proves only that the result is sorted and is a permutation. The sort is an insertion sort on a fresh array, because `sort_values` returns a new frame.
- Rank.RankFunds: lines 16, 17 and 19 are three whole-column assignments. The model does them in a single loop that writes the three columns of each row. The resulting table is the same.
- A catalog row carries the four columns that the engine writes (`risk_adjusted_returns`, `rating_score`, `weighted_score`, `allocation_percentage`) from the start. No stage reads them before writing them.
- With an empty eligible set, the source returns an empty response: every column operation runs over no rows and raises nothing. The model follows that behaviour: `Recommend` gives `[]`. It does not raise an allocation error.
