/** The arithmetic of the /recommend route (fund_recommender.py:48-59): the
    ranked eligible funds, the total investment of line 55, the allocation,
    and the truncation of line 58 to the funds given more than one percent. */
module Recommend {
  import opened Frame
  import opened Filter
  import opened Rank
  import opened Allocation

  /** Line 55: min(amount, sum of min_lumpsum). */
  function TotalInvestment(amount: real, lumpsumSum: real): (r: real)
    ensures r <= amount && r <= lumpsumSum
    ensures r == amount || r == lumpsumSum
  {
    if lumpsumSum < amount then lumpsumSum else amount
  }

  /** The two columns of a row that line 58 keeps. */
  function ToRecommendation(f: Fund): Recommendation
  {
    Recommendation(f.schemeName, f.allocationPercentage)
  }

  /** Line 58: the rows whose allocation_percentage is above 1, in table
      order, cut down to scheme_name and allocation_percentage; the kept
      percentages are not renormalised. */
  function Response(rows: seq<Fund>): (r: seq<Recommendation>)
    ensures |r| <= |rows|
    ensures forall k :: 0 <= k < |r| ==> r[k].allocationPercentage > 1.0
    ensures forall f :: f in rows ==> (ToRecommendation(f) in r <==> f.allocationPercentage > 1.0)
  {
    if rows == [] then []
    else (if rows[0].allocationPercentage > 1.0 then [ToRecommendation(rows[0])] else [])
         + Response(rows[1..])
  }

  /** The allocation percentages of a response. */
  function Percentages(r: seq<Recommendation>): (c: seq<real>)
    ensures |c| == |r|
    ensures forall k :: 0 <= k < |r| ==> c[k] == r[k].allocationPercentage
  {
    seq(|r|, k requires 0 <= k < |r| => r[k].allocationPercentage)
  }

  /** The truncation keeps the table order: truncating two tables one after
      the other is truncating each of them. */
  lemma {:induction false} ResponseAppend(a: seq<Fund>, b: seq<Fund>)
    ensures Response(a + b) == Response(a) + Response(b)
  {
    if a == [] {
      assert a + b == b;
    } else {
      assert (a + b)[1..] == a[1..] + b;
      ResponseAppend(a[1..], b);
    }
  }

  /** Every entry of the response comes from a row of the table. */
  lemma {:induction false} ResponseFromRows(rows: seq<Fund>)
    ensures forall x :: x in Response(rows) ==> exists f :: f in rows && x == ToRecommendation(f)
  {
    if rows != [] {
      ResponseFromRows(rows[1..]);
      forall x | x in Response(rows)
        ensures exists f :: f in rows && x == ToRecommendation(f)
      {
        if x !in Response(rows[1..]) {
          assert x == ToRecommendation(rows[0]);
        } else {
          var f :| f in rows[1..] && x == ToRecommendation(f);
          assert f in rows;
        }
      }
    }
  }

  /** When every row is above 1 nothing is dropped: the response lists every
      row's percentage, in order. */
  lemma {:induction false} ResponseKeepsAll(rows: seq<Fund>)
    requires forall i :: 0 <= i < |rows| ==> rows[i].allocationPercentage > 1.0
    ensures Percentages(Response(rows)) == Column(rows, AllocationPct)
  {
    if rows != [] {
      ResponseKeepsAll(rows[1..]);
      KeptPercentagesFront(rows);
      ColumnFront(rows, AllocationPct);
    }
  }

  lemma KeptPercentagesFront(rows: seq<Fund>)
    requires rows != [] && rows[0].allocationPercentage > 1.0
    ensures Percentages(Response(rows)) == [rows[0].allocationPercentage] + Percentages(Response(rows[1..]))
  {
    var head := [ToRecommendation(rows[0])];
    assert Response(rows) == head + Response(rows[1..]);
    PercentagesAppend(head, Response(rows[1..]));
    assert Percentages(head) == [rows[0].allocationPercentage];
  }

  /** With no negative allocation the response's percentages add up to at
      most the table's: the dropped share is not handed back to the others. */
  lemma {:induction false} ResponseSumAtMost(rows: seq<Fund>)
    requires forall i :: 0 <= i < |rows| ==> rows[i].allocationPercentage >= 0.0
    ensures Sum(Percentages(Response(rows))) <= Sum(Column(rows, AllocationPct))
  {
    if rows != [] {
      ResponseSumAtMost(rows[1..]);
      ResponseSumFront(rows);
      ColumnSumFront(rows);
    }
  }

  lemma ResponseSumFront(rows: seq<Fund>)
    requires rows != []
    ensures Sum(Percentages(Response(rows)))
         == (if rows[0].allocationPercentage > 1.0 then rows[0].allocationPercentage else 0.0)
            + Sum(Percentages(Response(rows[1..])))
  {
    var x := rows[0].allocationPercentage;
    var kept := if x > 1.0 then [ToRecommendation(rows[0])] else [];
    assert Response(rows) == kept + Response(rows[1..]);
    PercentagesAppend(kept, Response(rows[1..]));
    SumAppend(Percentages(kept), Percentages(Response(rows[1..])));
    if x > 1.0 {
      assert Percentages(kept) == [x];
      SumSingle(x);
    } else {
      assert Percentages(kept) == [];
    }
  }

  lemma ColumnSumFront(rows: seq<Fund>)
    requires rows != []
    ensures Sum(Column(rows, AllocationPct)) == rows[0].allocationPercentage + Sum(Column(rows[1..], AllocationPct))
  {
    var x := rows[0].allocationPercentage;
    ColumnFront(rows, AllocationPct);
    SumAppend([x], Column(rows[1..], AllocationPct));
    SumSingle(x);
  }

  lemma SumSingle(x: real)
    ensures Sum([x]) == x
  {
    assert [x][..0] == [];
  }

  lemma PercentagesAppend(a: seq<Recommendation>, b: seq<Recommendation>)
    ensures Percentages(a + b) == Percentages(a) + Percentages(b)
  {
  }

  /** The table that calculate_allocation hands back for `ranked`: every row
      with its rating's percentage of the rating sum. */
  function Allocated(ranked: seq<Fund>): (r: seq<Fund>)
    requires |ranked| > 0 ==> Sum(Column(ranked, Rating)) != 0.0
    ensures |r| == |ranked|
  {
    SetAllocations(ranked, Normalized(Column(ranked, Rating)))
  }

  /** The response for a ranked table: each fund whose rating share is above
      1 percent, with that share. */
  lemma ResponseOfAllocated(ranked: seq<Fund>)
    requires |ranked| > 0 ==> Sum(Column(ranked, Rating)) != 0.0
    ensures forall f :: f in ranked ==>
              (Recommendation(f.schemeName, 100.0 * f.rating / Sum(Column(ranked, Rating))) in Response(Allocated(ranked))
               <==> 100.0 * f.rating / Sum(Column(ranked, Rating)) > 1.0)
  {
    var ratings := Column(ranked, Rating);
    var rows := Allocated(ranked);
    if |ranked| > 0 {
      NormalizedEntries(ratings);
      forall f | f in ranked
        ensures Recommendation(f.schemeName, 100.0 * f.rating / Sum(ratings)) in Response(rows)
                <==> 100.0 * f.rating / Sum(ratings) > 1.0
      {
        var i :| 0 <= i < |ranked| && ranked[i] == f;
        assert rows[i] in rows;
        assert ToRecommendation(rows[i]) == Recommendation(f.schemeName, 100.0 * f.rating / Sum(ratings));
      }
    }
  }

  /** With ratings that are not negative, the response adds up to at most
      100 percent. */
  lemma ResponseAtMost100(ranked: seq<Fund>)
    requires |ranked| > 0 && Sum(Column(ranked, Rating)) != 0.0
    requires forall i :: 0 <= i < |ranked| ==> ranked[i].rating >= 0.0
    ensures Sum(Percentages(Response(Allocated(ranked)))) <= 100.0
  {
    var ratings := Column(ranked, Rating);
    var rows := Allocated(ranked);
    SetAllocationsColumns(ranked, Normalized(ratings));
    NormalizedBounds(ratings);
    NormalizedSums100(ratings);
    ResponseSumAtMost(rows);
  }

  /** The /recommend route without its I/O: `catalog` stands for the CSV
      file, `tenure` and `amount` for the request fields. The ghost `ranked`
      is the table recommend_mutual_funds returns. */
  method Recommend(catalog: seq<Fund>, tenure: real, amount: real) returns (response: seq<Recommendation>, ghost ranked: seq<Fund>)
    requires forall f :: f in catalog && Eligible(f, tenure, amount) ==> f.riskLevel != 0.0
    requires FilterFunds(catalog, tenure, amount) != [] ==>
               var lumpsumSum := Sum(Column(FilterFunds(catalog, tenure, amount), Lumpsum));
               TotalInvestment(amount, lumpsumSum) != 0.0 && lumpsumSum != 0.0
               && Sum(Column(FilterFunds(catalog, tenure, amount), Rating)) != 0.0
    ensures RiskLevelsNonZero(FilterFunds(catalog, tenure, amount))
    ensures |ranked| == |FilterFunds(catalog, tenure, amount)|
    ensures multiset(ranked) == multiset(ScoreAll(FilterFunds(catalog, tenure, amount)))
    ensures SortedByScore(ranked)
    ensures Sum(Column(ranked, Rating)) == Sum(Column(FilterFunds(catalog, tenure, amount), Rating))
    ensures response == Response(Allocated(ranked))
    ensures FilterFunds(catalog, tenure, amount) == [] ==> response == []
  {
    ghost var eligible := FilterFunds(catalog, tenure, amount);
    var frame := RecommendMutualFunds(catalog, tenure, amount);
    ranked := frame[..];
    ghost var scored := ScoreAll(eligible);
    ScoreAllKeepsColumns(eligible);
    SumColumnPermutation(ranked, scored, Lumpsum);
    SumColumnPermutation(ranked, scored, Rating);
    assert |ranked| == |multiset(ranked)| == |scored|;
    var lumpsumSum := SumColumn(frame, Lumpsum);
    var total := TotalInvestment(amount, lumpsumSum);
    CalculateAllocation(frame, total, tenure);
    response := Response(frame[..]);
  }

  /** A single eligible fund with a non-zero rating is given the whole 100
      percent. */
  lemma SingleFund(f: Fund)
    requires f.rating != 0.0
    ensures Sum(Column([f], Rating)) == f.rating
    ensures Response(Allocated([f])) == [Recommendation(f.schemeName, 100.0)]
  {
    var ratings := Column([f], Rating);
    assert ratings == [f.rating];
    SumSingle(f.rating);
    RatingShareOfSelf(ratings, f.rating);
    assert Allocated([f]) == [f.(allocationPercentage := 100.0)];
  }

  lemma RatingShareOfSelf(ratings: seq<real>, r: real)
    requires ratings == [r] && r != 0.0
    ensures Sum(ratings) == r
    ensures Normalized(ratings) == [100.0]
  {
    SumSingle(r);
    ShareOfSelf(r, 100.0);
  }

  /** Two funds rated 199 and 1 get 99.5 and 0.5 percent: the second is
      dropped and the first keeps 99.5, so the response adds up to less than
      100. */
  lemma DroppedShareNotRedistributed(f: Fund, g: Fund)
    requires f.rating == 199.0 && g.rating == 1.0
    ensures Sum(Column([f, g], Rating)) == 200.0
    ensures Response(Allocated([f, g])) == [Recommendation(f.schemeName, 99.5)]
  {
    var ratings := Column([f, g], Rating);
    assert ratings == [199.0, 1.0];
    assert ratings[..1] == [199.0];
    SumSingle(199.0);
    assert Sum(ratings) == 200.0;
    var rows := Allocated([f, g]);
    assert rows == [f.(allocationPercentage := 99.5), g.(allocationPercentage := 0.5)];
    assert rows[1..] == [g.(allocationPercentage := 0.5)];
  }

  /** The tenure brackets are closed on the right: 3 years is still the
      first bracket and 10 years the second. */
  lemma TiltBrackets()
    ensures TiltFactor(2.0) == 0.6 && TiltFactor(3.0) == 0.6
    ensures TiltFactor(3.5) == 0.8 && TiltFactor(10.0) == 0.8
    ensures TiltFactor(10.5) == 0.9 && TiltFactor(20.0) == 0.9
  {
  }
}
