/** The mutual-funds table that fund_recommender.py passes between its stages,
    as a sequence (or an array) of rows, with its columns and column sums. */
module Frame {

  /** One row of the table. The first six fields are the catalog's columns;
      the last four are the columns that rank_funds and calculate_allocation
      add. A row read from the catalog carries those four as well, with values
      that no stage reads before it has written them. */
  datatype Fund = Fund(
    schemeName: string,
    minSip: real,
    minLumpsum: real,
    returns5yr: real,
    riskLevel: real,
    rating: real,
    riskAdjustedReturns: real,
    ratingScore: real,
    weightedScore: real,
    allocationPercentage: real)

  /** One record of the /recommend response. */
  datatype Recommendation = Recommendation(schemeName: string, allocationPercentage: real)

  function Lumpsum(f: Fund): real { f.minLumpsum }
  function Rating(f: Fund): real { f.rating }
  function AllocationPct(f: Fund): real { f.allocationPercentage }

  /** The column of the table selected by `field`. */
  function Column(rows: seq<Fund>, field: Fund -> real): (c: seq<real>)
    ensures |c| == |rows|
    ensures forall i :: 0 <= i < |rows| ==> c[i] == field(rows[i])
  {
    seq(|rows|, i requires 0 <= i < |rows| => field(rows[i]))
  }

  /** The table with its allocation_percentage column replaced by `col`. */
  function SetAllocations(rows: seq<Fund>, col: seq<real>): (r: seq<Fund>)
    requires |col| == |rows|
    ensures |r| == |rows|
    ensures forall i :: 0 <= i < |rows| ==> r[i] == rows[i].(allocationPercentage := col[i])
  {
    seq(|rows|, i requires 0 <= i < |rows| => rows[i].(allocationPercentage := col[i]))
  }

  /** Sum of a column (Series.sum()), in exact arithmetic. */
  function Sum(c: seq<real>): real
  {
    if c == [] then 0.0 else Sum(c[..|c| - 1]) + c[|c| - 1]
  }

  lemma {:induction false} SumAppend(a: seq<real>, b: seq<real>)
    ensures Sum(a + b) == Sum(a) + Sum(b)
  {
    if b != [] {
      assert (a + b)[..|a + b| - 1] == a + b[..|b| - 1];
      SumAppend(a, b[..|b| - 1]);
    } else {
      assert a + b == a;
    }
  }

  /** Multiplying every entry of a column by `k` multiplies its sum by `k`. */
  lemma {:induction false} SumScaled(p: seq<real>, q: seq<real>, k: real)
    requires |q| == |p|
    requires forall i :: 0 <= i < |p| ==> q[i] == p[i] * k
    ensures Sum(q) == Sum(p) * k
  {
    if p != [] {
      SumScaled(p[..|p| - 1], q[..|q| - 1], k);
    }
  }

  /** A column whose entries are all at least `m` sums to at least `|c| * m`. */
  lemma {:induction false} SumLowerBound(c: seq<real>, m: real)
    requires forall i :: 0 <= i < |c| ==> c[i] >= m
    ensures Sum(c) >= (|c| as real) * m
  {
    if c != [] {
      SumLowerBound(c[..|c| - 1], m);
    }
  }

  /** A column is at least as large, entry by entry, as another: so is its sum. */
  lemma {:induction false} SumMonotone(c: seq<real>, d: seq<real>)
    requires |c| == |d|
    requires forall i :: 0 <= i < |c| ==> c[i] <= d[i]
    ensures Sum(c) <= Sum(d)
  {
    if c != [] {
      SumMonotone(c[..|c| - 1], d[..|d| - 1]);
    }
  }

  lemma ColumnAppend(a: seq<Fund>, b: seq<Fund>, field: Fund -> real)
    ensures Column(a + b, field) == Column(a, field) + Column(b, field)
  {
  }

  lemma ColumnFront(rows: seq<Fund>, field: Fund -> real)
    requires rows != []
    ensures Column(rows, field) == [field(rows[0])] + Column(rows[1..], field)
  {
  }

  /** Taking row `j` out of a table takes its entry out of every column sum. */
  lemma SumColumnRemove(t: seq<Fund>, j: nat, field: Fund -> real)
    requires j < |t|
    ensures Sum(Column(t, field)) == Sum(Column(t[..j] + t[j + 1..], field)) + field(t[j])
  {
    assert t == t[..j] + [t[j]] + t[j + 1..];
    ColumnAppend(t[..j] + [t[j]], t[j + 1..], field);
    ColumnAppend(t[..j], [t[j]], field);
    ColumnAppend(t[..j], t[j + 1..], field);
    var a, b := Column(t[..j], field), Column(t[j + 1..], field);
    assert Column([t[j]], field) == [field(t[j])];
    assert Column(t, field) == a + [field(t[j])] + b;
    SumAppend(a + [field(t[j])], b);
    SumAppend(a, [field(t[j])]);
    SumAppend(a, b);
  }

  /** Column sums do not depend on the order of the rows. */
  lemma {:induction false} SumColumnPermutation(s: seq<Fund>, t: seq<Fund>, field: Fund -> real)
    requires multiset(s) == multiset(t)
    ensures Sum(Column(s, field)) == Sum(Column(t, field))
  {
    if s == [] {
      assert |t| == |multiset(t)| == 0;
    } else {
      var i := |s| - 1;
      var x := s[i];
      assert x in multiset(t);
      var j :| 0 <= j < |t| && t[j] == x;
      var s', t' := s[..i] + s[i + 1..], t[..j] + t[j + 1..];
      MultisetRemove(s, i);
      MultisetRemove(t, j);
      SumColumnPermutation(s', t', field);
      SumColumnRemove(s, i, field);
      SumColumnRemove(t, j, field);
    }
  }

  lemma MultisetRemove(t: seq<Fund>, j: nat)
    requires j < |t|
    ensures multiset(t[..j] + t[j + 1..]) == multiset(t) - multiset{t[j]}
  {
    assert t == t[..j] + [t[j]] + t[j + 1..];
  }

  /** Series.sum() over one column of the table, as a loop over its rows. */
  method SumColumn(frame: array<Fund>, field: Fund -> real) returns (total: real)
    ensures total == Sum(Column(frame[..], field))
  {
    total := 0.0;
    var i := 0;
    while i < frame.Length
      invariant 0 <= i <= frame.Length
      invariant total == Sum(Column(frame[..i], field))
    {
      assert Column(frame[..i + 1], field)[..i] == Column(frame[..i], field);
      total := total + field(frame[i]);
      i := i + 1;
    }
    assert frame[..frame.Length] == frame[..];
  }
}
