/** filter_funds (fund_recommender.py:11-12): the boolean-mask selection of
    the catalog rows that a client with the given tenure and amount may buy. */
module Filter {
  import opened Frame

  /** The mask of line 12: min_sip is compared with the tenure and min_lumpsum
      with the amount. */
  predicate Eligible(f: Fund, tenure: real, amount: real)
  {
    f.minSip <= tenure && f.minLumpsum <= amount
  }

  /** The rows of `funds` that pass the mask, in their original order. */
  function FilterFunds(funds: seq<Fund>, tenure: real, amount: real): (r: seq<Fund>)
    ensures |r| <= |funds|
    ensures forall f :: f in r <==> f in funds && Eligible(f, tenure, amount)
  {
    if funds == [] then []
    else (if Eligible(funds[0], tenure, amount) then [funds[0]] else [])
         + FilterFunds(funds[1..], tenure, amount)
  }

  /** `r` lists some of the entries of `s`, in the order they have in `s`. */
  ghost predicate Subsequence(r: seq<Fund>, s: seq<Fund>)
    decreases |s|
  {
    if r == [] then true
    else if s == [] then false
    else (r[0] == s[0] && Subsequence(r[1..], s[1..])) || Subsequence(r, s[1..])
  }

  /** The filter keeps the input order: its result is a subsequence of its input. */
  lemma {:induction false} FilterIsSubsequence(funds: seq<Fund>, tenure: real, amount: real)
    ensures Subsequence(FilterFunds(funds, tenure, amount), funds)
  {
    if funds != [] {
      FilterIsSubsequence(funds[1..], tenure, amount);
      if Eligible(funds[0], tenure, amount) {
        assert FilterFunds(funds, tenure, amount)[1..] == FilterFunds(funds[1..], tenure, amount);
      } else {
        assert FilterFunds(funds, tenure, amount) == FilterFunds(funds[1..], tenure, amount);
      }
    }
  }

  /** Every eligible row is kept as many times as it occurs, every other row
      is dropped. */
  lemma {:induction false} FilterCount(funds: seq<Fund>, tenure: real, amount: real, f: Fund)
    ensures multiset(FilterFunds(funds, tenure, amount))[f]
         == if Eligible(f, tenure, amount) then multiset(funds)[f] else 0
  {
    if funds != [] {
      FilterCount(funds[1..], tenure, amount, f);
      assert funds == [funds[0]] + funds[1..];
    }
  }

  /** Filtering two tables one after the other is filtering each of them. */
  lemma {:induction false} FilterAppend(a: seq<Fund>, b: seq<Fund>, tenure: real, amount: real)
    ensures FilterFunds(a + b, tenure, amount) == FilterFunds(a, tenure, amount) + FilterFunds(b, tenure, amount)
  {
    if a == [] {
      assert a + b == b;
    } else {
      assert (a + b)[1..] == a[1..] + b;
      FilterAppend(a[1..], b, tenure, amount);
    }
  }

  /** Raising the tenure or the amount never removes a row: the result for the
      smaller inputs is the result for the larger ones, filtered again. */
  lemma {:induction false} FilterMonotone(funds: seq<Fund>, tenure: real, amount: real, tenure': real, amount': real)
    requires tenure <= tenure' && amount <= amount'
    ensures FilterFunds(FilterFunds(funds, tenure', amount'), tenure, amount) == FilterFunds(funds, tenure, amount)
    ensures multiset(FilterFunds(funds, tenure, amount)) <= multiset(FilterFunds(funds, tenure', amount'))
  {
    if funds != [] {
      FilterMonotone(funds[1..], tenure, amount, tenure', amount');
      var wide := FilterFunds(funds, tenure', amount');
      if Eligible(funds[0], tenure', amount') {
        assert wide == [funds[0]] + FilterFunds(funds[1..], tenure', amount');
        FilterAppend([funds[0]], FilterFunds(funds[1..], tenure', amount'), tenure, amount);
      } else {
        assert wide == FilterFunds(funds[1..], tenure', amount');
        assert FilterFunds(funds, tenure, amount) == FilterFunds(funds[1..], tenure, amount);
      }
    }
  }
}
