/** The factor table and the estimate: per month the ratio of total to
    partial, the last (incomplete) month dropped, the mean of the remaining
    ratios applied to the last month's partial amount. Ratios are exact
    reals here where the source uses 64-bit floats. */
module Estimation {
  import opened Calendar
  import opened Aggregation

  /** One row of the factor table. */
  datatype FactorRow = FactorRow(month: Month, total: int, partial: int, factor: real)

  /** Joining the two series on month pairs row i with row i: both have the
      same months in the same order. */
  predicate Joinable(totals: seq<MonthAmount>, partials: seq<MonthAmount>) {
    |totals| == |partials| && forall i :: 0 <= i < |totals| ==> totals[i].month == partials[i].month
  }

  /** The division is unguarded in the source; only the rows kept after the
      last one is dropped need a non-zero partial amount. */
  predicate FactorsDefined(totals: seq<MonthAmount>, partials: seq<MonthAmount>) {
    Joinable(totals, partials)
    && forall i :: 0 <= i < |partials| - 1 ==> partials[i].amount != 0
  }

  /** The table `calculate_factor_increases` stores: one row per month but the
      last, in month order, each factor the ratio of total to partial. */
  function FactorIncreases(totals: seq<MonthAmount>, partials: seq<MonthAmount>): (rows: seq<FactorRow>)
    requires FactorsDefined(totals, partials)
    ensures |rows| == if |totals| == 0 then 0 else |totals| - 1
    ensures forall i :: 0 <= i < |rows| ==>
      && rows[i].month == totals[i].month == partials[i].month
      && rows[i].total == totals[i].amount
      && rows[i].partial == partials[i].amount
      && rows[i].factor * (rows[i].partial as real) == rows[i].total as real
  {
    var kept := if |totals| == 0 then 0 else |totals| - 1;
    seq(kept, i requires 0 <= i < kept =>
      FactorRow(totals[i].month, totals[i].amount, partials[i].amount,
                totals[i].amount as real / partials[i].amount as real))
  }

  function Factors(rows: seq<FactorRow>): (fs: seq<real>)
    ensures |fs| == |rows| && forall i :: 0 <= i < |rows| ==> fs[i] == rows[i].factor
  {
    seq(|rows|, i requires 0 <= i < |rows| => rows[i].factor)
  }

  function SumReals(xs: seq<real>): real {
    if xs == [] then 0.0 else SumReals(xs[..|xs| - 1]) + xs[|xs| - 1]
  }

  /** The arithmetic mean. */
  function Mean(xs: seq<real>): (r: real)
    requires |xs| > 0
    ensures r * (|xs| as real) == SumReals(xs)
  {
    SumReals(xs) / (|xs| as real)
  }

  lemma {:induction false} SumRealsBounds(xs: seq<real>, lo: real, hi: real)
    requires forall i :: 0 <= i < |xs| ==> lo <= xs[i] <= hi
    ensures (|xs| as real) * lo <= SumReals(xs) <= (|xs| as real) * hi
  {
    if xs != [] {
      var n := |xs| as real;
      SumRealsBounds(xs[..|xs| - 1], lo, hi);
      assert (n - 1.0) * lo + lo == n * lo;
      assert (n - 1.0) * hi + hi == n * hi;
    }
  }

  /** The mean lies between the least and the greatest value. */
  lemma MeanWithin(xs: seq<real>, lo: real, hi: real)
    requires |xs| > 0
    requires forall i :: 0 <= i < |xs| ==> lo <= xs[i] <= hi
    ensures lo <= Mean(xs) <= hi
  {
    SumRealsBounds(xs, lo, hi);
    var n := |xs| as real;
    var m := Mean(xs);
    assert m * n == SumReals(xs);
  }

  /** Round to the nearest integer, ties to the even neighbour, as Python's
      `round` does on a float. */
  function RoundHalfEven(x: real): (r: int)
    ensures -0.5 <= (r as real) - x <= 0.5
    ensures (r as real) - x == 0.5 || x - (r as real) == 0.5 ==> r % 2 == 0
  {
    var f := x.Floor;
    var frac := x - f as real;
    if frac < 0.5 then f
    else if frac > 0.5 then f + 1
    else if f % 2 == 0 then f else f + 1
  }

  /** The two properties of `RoundHalfEven` pin the integer down: no other
      rounding satisfies them. */
  lemma RoundHalfEvenUnique(x: real, k: int)
    requires -0.5 <= (k as real) - x <= 0.5
    requires (k as real) - x == 0.5 || x - (k as real) == 0.5 ==> k % 2 == 0
    ensures k == RoundHalfEven(x)
  {
  }

  /** `generate_estimate`: the last month's partial amount scaled by the mean factor. */
  function Estimate(lastPartial: int, rows: seq<FactorRow>): (r: int)
    requires |rows| > 0
    ensures var x := (lastPartial as real) * Mean(Factors(rows));
      && -0.5 <= (r as real) - x <= 0.5
      && ((r as real) - x == 0.5 || x - (r as real) == 0.5 ==> r % 2 == 0)
  {
    RoundHalfEven((lastPartial as real) * Mean(Factors(rows)))
  }

  lemma FactorAtLeastOne(row: FactorRow)
    requires 0 < row.partial <= row.total
    requires row.factor * (row.partial as real) == row.total as real
    ensures row.factor >= 1.0
  {
    var p := row.partial as real;
    if row.factor < 1.0 {
      assert row.factor * p < p;
    }
  }

  lemma RoundNotBelow(y: real, n: int)
    requires y >= n as real
    ensures RoundHalfEven(y) >= n
  {
  }

  /** When every kept month's total is at least its positive partial, every
      factor is at least 1, and the estimate is never below the partial
      amount it projects from. */
  lemma EstimateAtLeastPartial(lastPartial: int, rows: seq<FactorRow>)
    requires |rows| > 0 && lastPartial >= 0
    requires forall i :: 0 <= i < |rows| ==> 0 < rows[i].partial <= rows[i].total
    requires forall i :: 0 <= i < |rows| ==> rows[i].factor * (rows[i].partial as real) == rows[i].total as real
    ensures Estimate(lastPartial, rows) >= lastPartial
  {
    var m := Mean(Factors(rows));
    MeanFactorAtLeastOne(rows);
    ScaleNotBelow(lastPartial as real, m);
    RoundNotBelow((lastPartial as real) * m, lastPartial);
  }

  /** Factors of at least 1 have a mean of at least 1. */
  lemma MeanFactorAtLeastOne(rows: seq<FactorRow>)
    requires |rows| > 0
    requires forall i :: 0 <= i < |rows| ==> 0 < rows[i].partial <= rows[i].total
    requires forall i :: 0 <= i < |rows| ==> rows[i].factor * (rows[i].partial as real) == rows[i].total as real
    ensures Mean(Factors(rows)) >= 1.0
  {
    var fs := Factors(rows);
    forall i | 0 <= i < |fs| ensures 1.0 <= fs[i] {
      FactorAtLeastOne(rows[i]);
    }
    MeanWithin(fs, 1.0, MaxOf(fs));
  }

  lemma ScaleNotBelow(p: real, m: real)
    requires p >= 0.0 && m >= 1.0
    ensures p * m >= p
  {
    assert p * m == p + p * (m - 1.0);
  }

  /** The greatest value of a non-empty sequence. */
  function MaxOf(xs: seq<real>): (m: real)
    requires |xs| > 0
    ensures forall i :: 0 <= i < |xs| ==> xs[i] <= m
  {
    if |xs| == 1 then xs[0]
    else
      var m := MaxOf(xs[..|xs| - 1]);
      if xs[|xs| - 1] > m then xs[|xs| - 1] else m
  }
}
