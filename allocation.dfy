/** calculate_allocation (fund_recommender.py:29-46): four passes that
    overwrite the allocation_percentage column of the ranked table. */
module Allocation {
  import opened Frame

  // ---------------------------------------------------------------------
  // The passes, column by column

  /** Every entry divided by `whole` and multiplied by `scale`, in that
      order: the shape of lines 30, 32, 43 and 45. */
  function Shares(c: seq<real>, whole: real, scale: real): (r: seq<real>)
    requires |c| > 0 ==> whole != 0.0
    ensures |r| == |c|
    ensures forall i :: 0 <= i < |c| ==> r[i] == c[i] / whole * scale
  {
    seq(|c|, i requires 0 <= i < |c| => c[i] / whole * scale)
  }

  /** A column divided by its own sum and multiplied by 100 (lines 31-32 and
      44-45). */
  function Normalized(c: seq<real>): (r: seq<real>)
    requires |c| > 0 ==> Sum(c) != 0.0
    ensures |r| == |c|
  {
    Shares(c, Sum(c), 100.0)
  }

  /** Every entry multiplied by `factor` (lines 35, 37, 39). */
  function Scaled(c: seq<real>, factor: real): (r: seq<real>)
    ensures |r| == |c|
    ensures forall i :: 0 <= i < |c| ==> r[i] == c[i] * factor
  {
    seq(|c|, i requires 0 <= i < |c| => c[i] * factor)
  }

  /** The lambda of line 41: an entry above 1 is kept, any other becomes 1. */
  function Floor(x: real): real
  {
    if x > 1.0 then x else 1.0
  }

  /** Line 41 over the column: every entry ends at least 1; an entry above 1
      is kept and any other becomes exactly 1. */
  function Floored(c: seq<real>): (r: seq<real>)
    ensures |r| == |c|
    ensures forall i :: 0 <= i < |c| ==> r[i] >= 1.0
    ensures forall i :: 0 <= i < |c| ==> c[i] > 1.0 ==> r[i] == c[i]
    ensures forall i :: 0 <= i < |c| ==> c[i] <= 1.0 ==> r[i] == 1.0
  {
    seq(|c|, i requires 0 <= i < |c| => Floor(c[i]))
  }

  /** The tenure brackets of lines 34-39. */
  function TiltFactor(tenure: real): real
  {
    if tenure <= 3.0 then 0.6 else if tenure <= 10.0 then 0.8 else 0.9
  }

  /** Lines 30-32: min_lumpsum as a percentage of the total investment,
      renormalised. */
  function Sized(lumpsums: seq<real>, total: real): (r: seq<real>)
    requires |lumpsums| > 0 ==> total != 0.0 && Sum(lumpsums) != 0.0
    ensures |r| == |lumpsums|
  {
    if lumpsums == [] then []
    else
      SumSharesNonZero(lumpsums, total, 100.0);
      Normalized(Shares(lumpsums, total, 100.0))
  }

  /** Lines 43-45: each rating's share of the rating sum times the current
      column sum, renormalised. */
  function Reweighted(ratings: seq<real>, current: seq<real>): (r: seq<real>)
    requires |ratings| == |current|
    requires |ratings| > 0 ==> Sum(ratings) != 0.0 && Sum(current) != 0.0
    ensures |r| == |ratings|
  {
    if ratings == [] then []
    else
      SumSharesNonZero(ratings, Sum(ratings), Sum(current));
      Normalized(Shares(ratings, Sum(ratings), Sum(current)))
  }

  /** The allocation_percentage column that calculate_allocation leaves, from
      the min_lumpsum and rating columns, the total investment and the tenure. */
  function FinalAllocations(lumpsums: seq<real>, ratings: seq<real>, total: real, tenure: real): (r: seq<real>)
    requires |lumpsums| == |ratings|
    requires |lumpsums| > 0 ==> total != 0.0 && Sum(lumpsums) != 0.0 && Sum(ratings) != 0.0
    ensures |r| == |lumpsums|
  {
    var tilted := Scaled(Sized(lumpsums, total), TiltFactor(tenure));
    FlooredAtLeastLength(tilted);
    Reweighted(ratings, Floored(tilted))
  }

  // ---------------------------------------------------------------------
  // Arithmetic on single entries

  lemma ShareAsProduct(a: real, whole: real, scale: real)
    requires whole != 0.0
    ensures a / whole * scale == a * (scale / whole)
  {
  }

  lemma ShareNonZero(a: real, whole: real, scale: real)
    requires a != 0.0 && whole != 0.0 && scale != 0.0
    ensures a / whole * scale != 0.0
  {
  }

  lemma ShareOfSelf(s: real, scale: real)
    requires s != 0.0
    ensures s / s * scale == scale
  {
  }

  lemma ShareAsPercentage(a: real, s: real)
    requires s != 0.0
    ensures a / s * 100.0 == 100.0 * a / s
  {
  }

  /** Renormalising cancels any earlier division and multiplication. */
  lemma ShareScaleInvariant(a: real, s: real, whole: real, scale: real, a': real, s': real)
    requires s != 0.0 && whole != 0.0 && scale != 0.0
    requires a' == a / whole * scale && s' == s / whole * scale
    ensures s' != 0.0
    ensures a' / s' * 100.0 == a / s * 100.0
  {
  }

  lemma ShareBounds(a: real, s: real)
    requires 0.0 <= a <= s && s != 0.0
    ensures 0.0 <= a / s * 100.0 <= 100.0
  {
  }

  // ---------------------------------------------------------------------
  // What each pass does to the column

  /** The sum of the shares is the share of the sum. */
  lemma SumShares(c: seq<real>, whole: real, scale: real)
    requires whole != 0.0
    ensures Sum(Shares(c, whole, scale)) == Sum(c) / whole * scale
  {
    var r := Shares(c, whole, scale);
    var k := scale / whole;
    forall i | 0 <= i < |c|
      ensures r[i] == c[i] * k
    {
      ShareAsProduct(c[i], whole, scale);
    }
    SumScaled(c, r, k);
    ShareAsProduct(Sum(c), whole, scale);
  }

  lemma SumSharesNonZero(c: seq<real>, whole: real, scale: real)
    requires Sum(c) != 0.0 && whole != 0.0 && scale != 0.0
    ensures Sum(Shares(c, whole, scale)) != 0.0
  {
    SumShares(c, whole, scale);
    ShareNonZero(Sum(c), whole, scale);
  }

  /** Lines 32 and 45: a renormalised column sums to 100. */
  lemma NormalizedSums100(c: seq<real>)
    requires |c| > 0 && Sum(c) != 0.0
    ensures Sum(Normalized(c)) == 100.0
  {
    SumSharesOfSum(c, Sum(c), 100.0);
  }

  /** A column's shares of its own sum add up to the scale. */
  lemma SumSharesOfSum(c: seq<real>, s: real, scale: real)
    requires s == Sum(c) && s != 0.0
    ensures Sum(Shares(c, s, scale)) == scale
  {
    SumShares(c, s, scale);
    ShareOfSelf(s, scale);
  }

  /** Each entry of a renormalised column is its entry's percentage of the
      column sum. */
  lemma NormalizedEntry(c: seq<real>, i: nat)
    requires i < |c| && Sum(c) != 0.0
    ensures Normalized(c)[i] == 100.0 * c[i] / Sum(c)
  {
    var s := Sum(c);
    ShareAsPercentage(c[i], s);
  }

  lemma NormalizedEntries(c: seq<real>)
    requires Sum(c) != 0.0
    ensures forall i :: 0 <= i < |c| ==> Normalized(c)[i] == 100.0 * c[i] / Sum(c)
  {
    forall i | 0 <= i < |c|
      ensures Normalized(c)[i] == 100.0 * c[i] / Sum(c)
    {
      NormalizedEntry(c, i);
    }
  }

  /** Renormalising a column that already sums to 100 leaves it unchanged. */
  lemma NormalizedIdempotent(c: seq<real>)
    requires |c| > 0 && Sum(c) == 100.0
    ensures Normalized(c) == c
  {
  }

  /** Renormalising undoes any division and multiplication applied to every
      entry before it. */
  lemma NormalizedScaleInvariant(c: seq<real>, whole: real, scale: real)
    requires |c| > 0 && Sum(c) != 0.0 && whole != 0.0 && scale != 0.0
    ensures Sum(Shares(c, whole, scale)) != 0.0
    ensures Normalized(Shares(c, whole, scale)) == Normalized(c)
  {
    SharesComposeSum(c, whole, scale);
  }

  lemma SharesComposeSum(c: seq<real>, whole: real, scale: real)
    requires Sum(c) != 0.0 && whole != 0.0 && scale != 0.0
    ensures Sum(Shares(c, whole, scale)) != 0.0
    ensures Shares(Shares(c, whole, scale), Sum(Shares(c, whole, scale)), 100.0) == Shares(c, Sum(c), 100.0)
  {
    var s := Sum(c);
    var s' := Sum(Shares(c, whole, scale));
    SumShares(c, whole, scale);
    SharesCompose(c, whole, scale, s, s');
  }

  lemma SharesCompose(c: seq<real>, whole: real, scale: real, s: real, s': real)
    requires whole != 0.0 && scale != 0.0 && s != 0.0 && s' == s / whole * scale
    ensures s' != 0.0
    ensures Shares(Shares(c, whole, scale), s', 100.0) == Shares(c, s, 100.0)
  {
    ShareNonZero(s, whole, scale);
    var d := Shares(c, whole, scale);
    forall i | 0 <= i < |c|
      ensures Shares(d, s', 100.0)[i] == Shares(c, s, 100.0)[i]
    {
      ShareScaleInvariant(c[i], s, whole, scale, d[i], s');
    }
  }

  /** Lines 30-32: proportional sizing is the min_lumpsum column renormalised;
      the total investment cancels out, and the column sums to 100. */
  lemma ProportionalSizing(lumpsums: seq<real>, total: real)
    requires |lumpsums| > 0 && total != 0.0 && Sum(lumpsums) != 0.0
    ensures Sized(lumpsums, total) == Normalized(lumpsums)
    ensures Sum(Sized(lumpsums, total)) == 100.0
    ensures forall i :: 0 <= i < |lumpsums| ==> Sized(lumpsums, total)[i] == 100.0 * lumpsums[i] / Sum(lumpsums)
  {
    NormalizedScaleInvariant(lumpsums, total, 100.0);
    NormalizedSums100(lumpsums);
    NormalizedEntries(lumpsums);
  }

  /** The tilt factor of every tenure bracket lies strictly between 0 and 1
      and never decreases as the tenure grows. */
  lemma TiltFactorBounds(tenure: real, tenure': real)
    requires tenure <= tenure'
    ensures 0.0 < TiltFactor(tenure) <= TiltFactor(tenure') < 1.0
  {
  }

  /** Lines 34-39: the tilt multiplies every entry by the one factor of the
      tenure's bracket, so that a column summing to 100, as proportional
      sizing leaves it, then sums to 100 times that factor, leaving the rest
      unallocated. */
  lemma TiltLeavesResidual(sized: seq<real>, tenure: real)
    requires Sum(sized) == 100.0
    ensures Sum(Scaled(sized, TiltFactor(tenure))) == 100.0 * TiltFactor(tenure)
  {
    SumScaledBy(sized, 100.0, TiltFactor(tenure));
  }

  lemma SumScaledBy(c: seq<real>, s: real, factor: real)
    requires Sum(c) == s
    ensures Sum(Scaled(c, factor)) == s * factor
  {
    SumScaled(c, Scaled(c, factor), factor);
  }

  /** Line 41: the floor is idempotent, and the floored column sums to at
      least its length and at least its old sum. */
  lemma FlooredBounds(c: seq<real>)
    ensures Floored(Floored(c)) == Floored(c)
    ensures Sum(Floored(c)) >= |c| as real
    ensures Sum(Floored(c)) >= Sum(c)
  {
    FlooredIdempotent(c);
    FlooredAtLeastLength(c);
    FlooredAtLeastSum(c);
  }

  lemma FlooredIdempotent(c: seq<real>)
    ensures Floored(Floored(c)) == Floored(c)
  {
  }

  lemma FlooredAtLeastLength(c: seq<real>)
    ensures Sum(Floored(c)) >= |c| as real
  {
    SumLowerBound(Floored(c), 1.0);
  }

  lemma FlooredAtLeastSum(c: seq<real>)
    ensures Sum(Floored(c)) >= Sum(c)
  {
    SumMonotone(c, Floored(c));
  }

  /** Lines 43-45: the pass ends with the rating column renormalised,
      whatever column it starts from. */
  lemma ReweightedIsNormalizedRating(ratings: seq<real>, current: seq<real>)
    requires |ratings| == |current| > 0
    requires Sum(ratings) != 0.0 && Sum(current) != 0.0
    ensures Reweighted(ratings, current) == Normalized(ratings)
  {
    NormalizedScaleInvariant(ratings, Sum(ratings), Sum(current));
  }

  /** The four passes cancel: the final column is the rating column
      renormalised, each row getting its rating's percentage of the rating
      sum, whatever the min_lumpsum column, the total investment and the
      tenure. */
  lemma {:induction false} AllocationIsRatingShare(lumpsums: seq<real>, ratings: seq<real>, total: real, tenure: real)
    requires |lumpsums| == |ratings|
    requires |lumpsums| > 0 ==> total != 0.0 && Sum(lumpsums) != 0.0 && Sum(ratings) != 0.0
    ensures FinalAllocations(lumpsums, ratings, total, tenure) == Normalized(ratings)
    ensures forall i :: 0 <= i < |ratings| ==>
              FinalAllocations(lumpsums, ratings, total, tenure)[i] == 100.0 * ratings[i] / Sum(ratings)
  {
    if |lumpsums| > 0 {
      var tilted := Scaled(Sized(lumpsums, total), TiltFactor(tenure));
      FlooredAtLeastLength(tilted);
      ReweightedIsNormalizedRating(ratings, Floored(tilted));
      NormalizedEntries(ratings);
    }
  }

  /** So the final column does not change when the min_lumpsum column, the
      total investment or the tenure does. */
  lemma AllocationIndependence(lumpsums: seq<real>, lumpsums': seq<real>, ratings: seq<real>,
                               total: real, total': real, tenure: real, tenure': real)
    requires |lumpsums| == |lumpsums'| == |ratings|
    requires |ratings| > 0 ==> total != 0.0 && Sum(lumpsums) != 0.0 && Sum(ratings) != 0.0
    requires |ratings| > 0 ==> total' != 0.0 && Sum(lumpsums') != 0.0
    ensures FinalAllocations(lumpsums, ratings, total, tenure) == FinalAllocations(lumpsums', ratings, total', tenure')
  {
    AllocationIsRatingShare(lumpsums, ratings, total, tenure);
    AllocationIsRatingShare(lumpsums', ratings, total', tenure');
  }

  /** The final column sums to 100. */
  lemma AllocationSums100(lumpsums: seq<real>, ratings: seq<real>, total: real, tenure: real)
    requires |lumpsums| == |ratings| > 0
    requires total != 0.0 && Sum(lumpsums) != 0.0 && Sum(ratings) != 0.0
    ensures Sum(FinalAllocations(lumpsums, ratings, total, tenure)) == 100.0
  {
    AllocationIsRatingShare(lumpsums, ratings, total, tenure);
    NormalizedSums100(ratings);
  }

  /** With no negative entry, every entry of a renormalised column lies
      between 0 and 100: with ratings that are not negative, so does every
      final allocation. */
  lemma NormalizedBounds(c: seq<real>)
    requires |c| > 0 && Sum(c) != 0.0
    requires forall i :: 0 <= i < |c| ==> c[i] >= 0.0
    ensures forall i :: 0 <= i < |c| ==> 0.0 <= Normalized(c)[i] <= 100.0
  {
    var s := Sum(c);
    forall i | 0 <= i < |c|
      ensures 0.0 <= c[i] / s * 100.0 <= 100.0
    {
      SumAtLeastEntry(c, i);
      ShareBounds(c[i], s);
    }
  }

  lemma {:induction false} SumAtLeastEntry(c: seq<real>, i: nat)
    requires i < |c|
    requires forall k :: 0 <= k < |c| ==> c[k] >= 0.0
    ensures 0.0 <= c[i] <= Sum(c)
  {
    var n := |c| - 1;
    SumLowerBound(c[..n], 0.0);
    if i < n {
      SumAtLeastEntry(c[..n], i);
    }
  }

  // ---------------------------------------------------------------------
  // The passes on the table

  /** Replacing the allocation column twice keeps the second; the other
      columns are those the table had. */
  lemma SetAllocationsColumns(rows: seq<Fund>, c: seq<real>)
    requires |c| == |rows|
    ensures Column(SetAllocations(rows, c), AllocationPct) == c
    ensures Column(SetAllocations(rows, c), Lumpsum) == Column(rows, Lumpsum)
    ensures Column(SetAllocations(rows, c), Rating) == Column(rows, Rating)
    ensures forall d :: |d| == |rows| ==> SetAllocations(SetAllocations(rows, c), d) == SetAllocations(rows, d)
  {
  }

  /** One of lines 30, 32, 43, 45: allocation_percentage := field / whole * scale. */
  method WriteShares(frame: array<Fund>, field: Fund -> real, whole: real, scale: real)
    requires frame.Length > 0 ==> whole != 0.0
    modifies frame
    ensures frame[..] == SetAllocations(old(frame[..]), Shares(Column(old(frame[..]), field), whole, scale))
  {
    ghost var rows := frame[..];
    ghost var shares := Shares(Column(rows, field), whole, scale);
    var i := 0;
    while i < frame.Length
      invariant 0 <= i <= frame.Length
      invariant forall k :: 0 <= k < i ==> frame[k] == rows[k].(allocationPercentage := shares[k])
      invariant forall k :: i <= k < frame.Length ==> frame[k] == rows[k]
    {
      frame[i] := frame[i].(allocationPercentage := field(frame[i]) / whole * scale);
      i := i + 1;
    }
  }

  /** One of lines 35, 37, 39: allocation_percentage := allocation_percentage * factor. */
  method ScaleAllocations(frame: array<Fund>, factor: real)
    modifies frame
    ensures frame[..] == SetAllocations(old(frame[..]), Scaled(Column(old(frame[..]), AllocationPct), factor))
  {
    ghost var rows := frame[..];
    ghost var scaled := Scaled(Column(rows, AllocationPct), factor);
    var i := 0;
    while i < frame.Length
      invariant 0 <= i <= frame.Length
      invariant forall k :: 0 <= k < i ==> frame[k] == rows[k].(allocationPercentage := scaled[k])
      invariant forall k :: i <= k < frame.Length ==> frame[k] == rows[k]
    {
      frame[i] := frame[i].(allocationPercentage := frame[i].allocationPercentage * factor);
      i := i + 1;
    }
  }

  /** Lines 30-32: allocation_percentage := min_lumpsum / total * 100, then
      renormalised to its own sum. */
  method SizeProportionally(frame: array<Fund>, total: real)
    requires frame.Length > 0 ==> total != 0.0 && Sum(Column(frame[..], Lumpsum)) != 0.0
    modifies frame
    ensures frame[..] == SetAllocations(old(frame[..]), Sized(Column(old(frame[..]), Lumpsum), total))
  {
    ghost var rows := frame[..];
    ghost var lumpsums := Column(rows, Lumpsum);
    WriteShares(frame, Lumpsum, total, 100.0);
    ghost var raw := Shares(lumpsums, total, 100.0);
    SetAllocationsColumns(rows, raw);
    var totalPercent := SumColumn(frame, AllocationPct);
    if frame.Length > 0 {
      SumSharesNonZero(lumpsums, total, 100.0);
    }
    WriteShares(frame, AllocationPct, totalPercent, 100.0);
  }

  /** Lines 34-39: allocation_percentage scaled by the tenure bracket's factor. */
  method ApplyTilt(frame: array<Fund>, tenure: real)
    modifies frame
    ensures frame[..] == SetAllocations(old(frame[..]), Scaled(Column(old(frame[..]), AllocationPct), TiltFactor(tenure)))
  {
    if tenure <= 3.0 {
      ScaleAllocations(frame, 0.6);
    } else if tenure <= 10.0 {
      ScaleAllocations(frame, 0.8);
    } else {
      ScaleAllocations(frame, 0.9);
    }
  }

  /** Line 41: every allocation_percentage of 1 or less becomes 1. */
  method FloorAllocations(frame: array<Fund>)
    modifies frame
    ensures frame[..] == SetAllocations(old(frame[..]), Floored(Column(old(frame[..]), AllocationPct)))
  {
    ghost var rows := frame[..];
    var i := 0;
    while i < frame.Length
      invariant 0 <= i <= frame.Length
      invariant forall k :: 0 <= k < i ==> frame[k] == rows[k].(allocationPercentage := Floor(rows[k].allocationPercentage))
      invariant forall k :: i <= k < frame.Length ==> frame[k] == rows[k]
    {
      var x := frame[i].allocationPercentage;
      frame[i] := frame[i].(allocationPercentage := if x > 1.0 then x else 1.0);
      i := i + 1;
    }
  }

  /** Lines 43-45: allocation_percentage := rating / rating sum * allocation
      sum, then renormalised to its own sum. */
  method ReweightByRating(frame: array<Fund>)
    requires frame.Length > 0 ==> Sum(Column(frame[..], Rating)) != 0.0 && Sum(Column(frame[..], AllocationPct)) != 0.0
    modifies frame
    ensures frame[..] == SetAllocations(old(frame[..]), Reweighted(Column(old(frame[..]), Rating), Column(old(frame[..]), AllocationPct)))
  {
    ghost var rows := frame[..];
    ghost var ratings := Column(rows, Rating);
    var ratingSum := SumColumn(frame, Rating);
    var allocationSum := SumColumn(frame, AllocationPct);
    WriteShares(frame, Rating, ratingSum, allocationSum);
    ghost var weighted := Shares(ratings, ratingSum, allocationSum);
    SetAllocationsColumns(rows, weighted);
    var totalPercent := SumColumn(frame, AllocationPct);
    if frame.Length > 0 {
      SumSharesNonZero(ratings, ratingSum, allocationSum);
    }
    WriteShares(frame, AllocationPct, totalPercent, 100.0);
  }

  /** calculate_allocation: the four passes over `frame`, which ends up with
      the same rows in the same order and only allocation_percentage
      changed, to each row's rating share. */
  method CalculateAllocation(frame: array<Fund>, total: real, tenure: real)
    requires frame.Length > 0 ==> total != 0.0 && Sum(Column(frame[..], Lumpsum)) != 0.0
                                  && Sum(Column(frame[..], Rating)) != 0.0
    modifies frame
    ensures frame[..] == SetAllocations(old(frame[..]),
              FinalAllocations(Column(old(frame[..]), Lumpsum), Column(old(frame[..]), Rating), total, tenure))
    ensures frame[..] == SetAllocations(old(frame[..]), Normalized(Column(old(frame[..]), Rating)))
  {
    ghost var rows := frame[..];
    ghost var lumpsums, ratings := Column(rows, Lumpsum), Column(rows, Rating);
    SizeProportionally(frame, total);
    ghost var sized := Sized(lumpsums, total);
    SetAllocationsColumns(rows, sized);
    ApplyTilt(frame, tenure);
    ghost var tilted := Scaled(sized, TiltFactor(tenure));
    SetAllocationsColumns(rows, tilted);
    FloorAllocations(frame);
    ghost var floored := Floored(tilted);
    SetAllocationsColumns(rows, floored);
    FlooredAtLeastLength(tilted);
    ReweightByRating(frame);
    SetAllocationsColumns(rows, Reweighted(ratings, floored));
    AllocationIsRatingShare(lumpsums, ratings, total, tenure);
  }
}
