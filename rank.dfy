/** rank_funds and recommend_mutual_funds (fund_recommender.py:15-26): the
    three score columns written in place on the filtered table, then a copy
    of the table sorted by descending weighted score. */
module Rank {
  import opened Frame
  import opened Filter

  const RATING_SCALE: real := 5.0
  const RETURNS_WEIGHT: real := 0.6
  const RATING_WEIGHT: real := 0.4

  /** A row with the three columns of lines 16, 17 and 19 filled in. */
  function Scored(f: Fund): Fund
    requires f.riskLevel != 0.0
  {
    var riskAdjusted := f.returns5yr / f.riskLevel;
    var ratingScore := f.rating / RATING_SCALE;
    f.(riskAdjustedReturns := riskAdjusted,
       ratingScore := ratingScore,
       weightedScore := RETURNS_WEIGHT * riskAdjusted + RATING_WEIGHT * ratingScore)
  }

  ghost predicate RiskLevelsNonZero(rows: seq<Fund>)
  {
    forall i :: 0 <= i < |rows| ==> rows[i].riskLevel != 0.0
  }

  /** The table with every row scored. */
  function ScoreAll(rows: seq<Fund>): (r: seq<Fund>)
    requires RiskLevelsNonZero(rows)
    ensures |r| == |rows|
    ensures forall i :: 0 <= i < |rows| ==> r[i] == Scored(rows[i])
  {
    seq(|rows|, i requires 0 <= i < |rows| => Scored(rows[i]))
  }

  /** Scoring writes only the three score columns: every column the
      allocation reads is the one the row came with. */
  lemma ScoreAllKeepsColumns(rows: seq<Fund>)
    requires RiskLevelsNonZero(rows)
    ensures Column(ScoreAll(rows), Lumpsum) == Column(rows, Lumpsum)
    ensures Column(ScoreAll(rows), Rating) == Column(rows, Rating)
    ensures forall i :: 0 <= i < |rows| ==>
              ScoreAll(rows)[i].schemeName == rows[i].schemeName
              && ScoreAll(rows)[i].minSip == rows[i].minSip
              && ScoreAll(rows)[i].returns5yr == rows[i].returns5yr
              && ScoreAll(rows)[i].riskLevel == rows[i].riskLevel
  {
  }

  /** The weighted score rises with the five-year return (for a positive risk
      level), with the rating, and falls as the risk level rises (for a
      positive return). */
  lemma ScoreMonotone(f: Fund, g: Fund)
    requires 0.0 < g.riskLevel <= f.riskLevel
    requires 0.0 <= f.returns5yr <= g.returns5yr
    requires f.rating <= g.rating
    ensures Scored(f).weightedScore <= Scored(g).weightedScore
  {
    assert f.returns5yr / f.riskLevel <= f.returns5yr / g.riskLevel;
    assert f.returns5yr / g.riskLevel <= g.returns5yr / g.riskLevel;
  }

  /** Non-increasing weighted score from the first row to the last. */
  ghost predicate SortedByScore(rows: seq<Fund>)
  {
    forall k, l :: 0 <= k < l < |rows| ==> rows[k].weightedScore >= rows[l].weightedScore
  }

  /** Rows `lo` to `hi - 1` of `a` are in non-increasing score order. */
  ghost predicate SortedRange(a: array<Fund>, lo: int, hi: int)
    requires 0 <= lo <= hi <= a.Length
    reads a
  {
    forall k, l :: lo <= k < l < hi ==> a[k].weightedScore >= a[l].weightedScore
  }

  method Swap(a: array<Fund>, i: nat, j: nat)
    requires i < a.Length && j < a.Length
    modifies a
    ensures a[i] == old(a[j]) && a[j] == old(a[i])
    ensures forall k :: 0 <= k < a.Length && k != i && k != j ==> a[k] == old(a[k])
    ensures multiset(a[..]) == multiset(old(a[..]))
  {
    a[i], a[j] := a[j], a[i];
  }

  /** One insertion step: moves row `i` left past every row of lower score,
      so that rows 0 to `i` end up sorted. */
  method InsertRow(a: array<Fund>, i: nat)
    requires i < a.Length
    requires SortedRange(a, 0, i)
    modifies a
    ensures SortedRange(a, 0, i + 1)
    ensures forall k :: i < k < a.Length ==> a[k] == old(a[k])
    ensures multiset(a[..]) == multiset(old(a[..]))
  {
    var j := i;
    while j > 0 && a[j - 1].weightedScore < a[j].weightedScore
      invariant 0 <= j <= i
      invariant forall k, l :: 0 <= k < l <= i && k != j && l != j ==> a[k].weightedScore >= a[l].weightedScore
      invariant forall l :: j < l <= i ==> a[j].weightedScore > a[l].weightedScore
      invariant forall k :: i < k < a.Length ==> a[k] == old(a[k])
      invariant multiset(a[..]) == multiset(old(a[..]))
    {
      Swap(a, j - 1, j);
      j := j - 1;
    }
  }

  /** sort_values(by='weighted_score', ascending=False) on an array, by
      insertion sort. Only the order and the permutation are promised: ties
      may end up in any order. */
  method SortByScore(a: array<Fund>)
    modifies a
    ensures SortedByScore(a[..])
    ensures multiset(a[..]) == multiset(old(a[..]))
  {
    var i := 0;
    while i < a.Length
      invariant 0 <= i <= a.Length
      invariant SortedRange(a, 0, i)
      invariant multiset(a[..]) == multiset(old(a[..]))
    {
      InsertRow(a, i);
      i := i + 1;
    }
  }

  /** rank_funds: writes risk_adjusted_returns, rating_score and
      weighted_score on every row of `frame`, then returns a new table holding
      the same rows sorted by descending weighted score. */
  method RankFunds(frame: array<Fund>) returns (ranked: array<Fund>)
    requires RiskLevelsNonZero(frame[..])
    modifies frame
    ensures frame[..] == ScoreAll(old(frame[..]))
    ensures fresh(ranked)
    ensures multiset(ranked[..]) == multiset(frame[..])
    ensures SortedByScore(ranked[..])
  {
    ghost var rows := frame[..];
    var i := 0;
    while i < frame.Length
      invariant 0 <= i <= frame.Length
      invariant forall k :: 0 <= k < i ==> frame[k] == Scored(rows[k])
      invariant forall k :: i <= k < frame.Length ==> frame[k] == rows[k]
    {
      var riskAdjusted := frame[i].returns5yr / frame[i].riskLevel;
      var ratingScore := frame[i].rating / RATING_SCALE;
      frame[i] := frame[i].(riskAdjustedReturns := riskAdjusted,
                            ratingScore := ratingScore,
                            weightedScore := RETURNS_WEIGHT * riskAdjusted + RATING_WEIGHT * ratingScore);
      i := i + 1;
    }
    assert frame[..] == ScoreAll(rows);
    ranked := new Fund[frame.Length](k requires 0 <= k < frame.Length reads frame => frame[k]);
    assert ranked[..] == frame[..];
    SortByScore(ranked);
  }

  /** recommend_mutual_funds: the eligible rows of the catalog, scored and
      ranked. */
  method RecommendMutualFunds(catalog: seq<Fund>, tenure: real, amount: real) returns (ranked: array<Fund>)
    requires forall f :: f in catalog && Eligible(f, tenure, amount) ==> f.riskLevel != 0.0
    ensures fresh(ranked)
    ensures RiskLevelsNonZero(FilterFunds(catalog, tenure, amount))
    ensures multiset(ranked[..]) == multiset(ScoreAll(FilterFunds(catalog, tenure, amount)))
    ensures SortedByScore(ranked[..])
  {
    var filtered := FilterFunds(catalog, tenure, amount);
    assert forall i :: 0 <= i < |filtered| ==> filtered[i] in filtered;
    var frame := new Fund[|filtered|](k requires 0 <= k < |filtered| => filtered[k]);
    assert frame[..] == filtered;
    ranked := RankFunds(frame);
  }
}
