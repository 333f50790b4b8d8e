/** The `Transactions` object: a five-stage batch pipeline whose methods each
    overwrite one of its fields, from the loaded table to the estimate of
    the current month's total. */
module HistoricTransactions {
  import opened Errors
  import opened Calendar
  import opened Frames
  import opened Loader
  import opened Validator
  import opened Aggregation
  import opened Estimation

  /** The fixed current date, 2023-03-26. */
  const CurrentDate: Date := Date(2023, 3, 26)

  class Transactions {
    /** Days of the current month after the current date. */
    const remainingDays: int
    var df: Frame
    var totalAmountsByMonth: seq<MonthAmount>
    var partialAmountsByMonth: seq<MonthAmount>
    var factorIncreases: seq<FactorRow>
    var averageFactorIncrease: real
    var estimate: int

    constructor ()
      ensures remainingDays == RemainingDays(CurrentDate) == 5
      ensures 0 <= remainingDays < DaysInMonth(CurrentDate.year, CurrentDate.month)
      ensures df == Frame([])
      ensures totalAmountsByMonth == [] && partialAmountsByMonth == [] && factorIncreases == []
      ensures averageFactorIncrease == 0.0 && estimate == 0
    {
      remainingDays := RemainingDays(CurrentDate);
      df := Frame([]);
      totalAmountsByMonth := [];
      partialAmountsByMonth := [];
      factorIncreases := [];
      averageFactorIncrease := 0.0;
      estimate := 0;
    }

    /** `load_transactions`: the table is stored before the date column is
        converted, so a malformed date leaves the unconverted table behind. */
    method LoadTransactions(source: Source) returns (outcome: Outcome)
      modifies this`df
      ensures outcome == if Load(source).Success? then Pass else Fail(Load(source).error)
      ensures Load(source).Success? ==> df == Load(source).value
      ensures source.Missing? || (source.Present? && |source.frame.columns| == 0) ==> df == old(df)
      ensures Load(source) == Failure(WrongTransactionDateType) ==> df == source.frame
    {
      match source
      case Missing =>
        return Fail(FileNotFound);
      case Present(raw) =>
        if |raw.columns| == 0 {
          return Fail(EmptyDataFrame);
        }
        df := raw;
        if TransactionDate in Names(df) {
          var k := IndexOf(Names(df), TransactionDate);
          var converted := ToDatetime(df.columns[k]);
          if converted.None? {
            return Fail(WrongTransactionDateType);
          }
          df := Frame(df.columns[k := converted.value]);
        }
        return Pass;
    }

    /** `validate_transactions_columns`: the six checks in order; the table is
        left as it is. */
    method ValidateTransactionsColumns() returns (outcome: Outcome)
      ensures outcome == Validate(df)
    {
      if TransactionDate !in Names(df) {
        return Fail(NoTransactionDate);
      }
      if TransactionId !in Names(df) {
        return Fail(NoTransactionId);
      }
      if TransactionAmount !in Names(df) {
        return Fail(NoTransactionAmount);
      }
      if ColumnNamed(df, TransactionDate).dtype != DateTime64 {
        return Fail(WrongTransactionDateType);
      }
      if ColumnNamed(df, TransactionId).dtype != Object {
        return Fail(WrongTransactionIdType);
      }
      if ColumnNamed(df, TransactionAmount).dtype != Int64 {
        return Fail(WrongTransactionAmountType);
      }
      return Pass;
    }

    /** `calculate_total_amounts_by_month`: group by month, then one row per
        month from the first to the last, an empty month summing to 0. */
    method CalculateTotalAmountsByMonth()
      requires WellFormed(df) && Conforms(df)
      modifies this`totalAmountsByMonth
      ensures totalAmountsByMonth == TotalsByMonth(Records(df))
    {
      var rs := Records(df);
      var groups := GroupByMonth(rs);
      totalAmountsByMonth := SumEachBin(rs, groups, MonthSpan(rs));
    }

    /** `calculate_partial_amounts_by_month`: group by month, then
        `calculate_partial_amount` on each month's group. */
    method CalculatePartialAmountsByMonth()
      requires WellFormed(df) && Conforms(df)
      requires PartialsDefined(Records(df), remainingDays)
      modifies this`partialAmountsByMonth
      ensures partialAmountsByMonth == PartialsByMonth(Records(df), remainingDays)
    {
      var rs := Records(df);
      var groups := GroupByMonth(rs);
      partialAmountsByMonth := PartialOfEachBin(rs, groups, MonthSpan(rs), remainingDays);
    }

    /** `calculate_factor_increases`: join the two series on month, add the
        ratio of total to partial, and drop the last month's row. */
    method CalculateFactorIncreases()
      requires FactorsDefined(totalAmountsByMonth, partialAmountsByMonth)
      modifies this`factorIncreases
      ensures factorIncreases == FactorIncreases(totalAmountsByMonth, partialAmountsByMonth)
    {
      factorIncreases := FactorIncreases(totalAmountsByMonth, partialAmountsByMonth);
    }

    /** `generate_estimate`: the mean factor, and the last month's partial
        amount scaled by it and rounded. */
    method GenerateEstimate()
      requires |factorIncreases| > 0 && |partialAmountsByMonth| > 0
      modifies this`averageFactorIncrease, this`estimate
      ensures averageFactorIncrease == Mean(Factors(factorIncreases))
      ensures estimate == Estimate(partialAmountsByMonth[|partialAmountsByMonth| - 1].amount, factorIncreases)
    {
      var average := Mean(Factors(factorIncreases));
      var partialAmount := partialAmountsByMonth[|partialAmountsByMonth| - 1].amount;
      averageFactorIncrease := average;
      estimate := Estimate(partialAmount, factorIncreases);
    }
  }

  /** The records on which the whole computation is defined: every month bin
      holds a record and has an end day of at least 1, there are at least two
      months (so at least one factor), and no kept month has a zero partial. */
  predicate EstimateDefined(rs: seq<Record>, remainingDays: int) {
    && PartialsDefined(rs, remainingDays)
    && |MonthSpan(rs)| >= 2
    && var p := PartialsByMonth(rs, remainingDays);
       forall i :: 0 <= i < |p| - 1 ==> p[i].amount != 0
  }

  /** The estimate computed from the records, stage by stage. */
  function EstimateOf(rs: seq<Record>, remainingDays: int): int
    requires EstimateDefined(rs, remainingDays)
  {
    var t, p := TotalsByMonth(rs), PartialsByMonth(rs, remainingDays);
    SeriesReady(rs, remainingDays);
    Estimate(p[|p| - 1].amount, FactorIncreases(t, p))
  }

  /** Where the estimate is defined, the two series can be joined and
      divided, and at least one factor row remains once the last is dropped. */
  lemma SeriesReady(rs: seq<Record>, remainingDays: int)
    requires EstimateDefined(rs, remainingDays)
    ensures var t, p := TotalsByMonth(rs), PartialsByMonth(rs, remainingDays);
      && |p| >= 2 && FactorsDefined(t, p) && |FactorIncreases(t, p)| > 0
  {
    var t, p := TotalsByMonth(rs), PartialsByMonth(rs, remainingDays);
    assert Joinable(t, p);
  }

  predicate SourceWellFormed(source: Source) {
    source.Present? ==> WellFormed(source.frame)
  }

  /** The source is defined on this input: the reader's table is well formed,
      and a table that loads and validates has records on which the
      estimate is defined. */
  predicate PipelineDefined(source: Source) {
    && SourceWellFormed(source)
    && (Load(source).Success? && Validate(Load(source).value).Pass? ==>
          EstimateDefined(Records(Load(source).value), RemainingDays(CurrentDate)))
  }

  /** What a run of the pipeline yields: the first exception raised, loading
      before validation, or the estimate. */
  function PipelineResult(source: Source): (r: Result<int>)
    requires PipelineDefined(source)
    ensures r == Failure(FileNotFound) <==> source.Missing?
    ensures Load(source).Failure? ==> r == Failure(Load(source).error)
    ensures Load(source).Success? ==> r.Failure? == Validate(Load(source).value).Fail?
    ensures Load(source).Success? && Validate(Load(source).value).Fail? ==>
      r == Failure(Validate(Load(source).value).error)
  {
    match Load(source)
    case Failure(e) => Failure(e)
    case Success(f) =>
      match Validate(f)
      case Fail(e) => Failure(e)
      case Pass => Success(EstimateOf(Records(f), RemainingDays(CurrentDate)))
  }

  /** A source that loads and validates yields the estimate over its records. */
  lemma PipelineSucceeds(source: Source, f: Frame)
    requires PipelineDefined(source)
    requires Load(source) == Success(f) && Validate(f) == Pass
    ensures WellFormed(f) && Conforms(f)
    ensures EstimateDefined(Records(f), RemainingDays(CurrentDate))
    ensures PipelineResult(source) == Success(EstimateOf(Records(f), RemainingDays(CurrentDate)))
  {
  }

  /** The two stored series satisfy what the last two stages need, and the
      estimate those stages compute from them is the one over the records. */
  lemma StagesReady(rs: seq<Record>, rd: int, totals: seq<MonthAmount>, partials: seq<MonthAmount>)
    requires EstimateDefined(rs, rd)
    requires totals == TotalsByMonth(rs) && partials == PartialsByMonth(rs, rd)
    ensures FactorsDefined(totals, partials) && |totals| >= 2
    ensures EstimateOf(rs, rd) == Estimate(partials[|partials| - 1].amount, FactorIncreases(totals, partials))
  {
    assert Joinable(totals, partials);
  }

  /** The two grouping stages, on the records `rs` of the stored table. */
  method RunGroupingStages(t: Transactions, ghost rs: seq<Record>)
    requires WellFormed(t.df) && Conforms(t.df) && rs == Records(t.df)
    requires PartialsDefined(rs, t.remainingDays)
    modifies t`totalAmountsByMonth, t`partialAmountsByMonth
    ensures t.totalAmountsByMonth == TotalsByMonth(rs)
    ensures t.partialAmountsByMonth == PartialsByMonth(rs, t.remainingDays)
  {
    t.CalculateTotalAmountsByMonth();
    t.CalculatePartialAmountsByMonth();
  }

  /** The two estimating stages, on the stored series `totals` and `partials`. */
  method RunEstimatingStages(t: Transactions, ghost totals: seq<MonthAmount>, ghost partials: seq<MonthAmount>)
    requires t.totalAmountsByMonth == totals && t.partialAmountsByMonth == partials
    requires FactorsDefined(totals, partials) && |totals| >= 2
    modifies t`factorIncreases, t`averageFactorIncrease, t`estimate
    ensures t.estimate == Estimate(partials[|partials| - 1].amount, FactorIncreases(totals, partials))
  {
    t.CalculateFactorIncreases();
    t.GenerateEstimate();
  }

  /** The four computing stages, in order, on a loaded and validated table
      whose records are `rs`. */
  method RunStages(t: Transactions, ghost rs: seq<Record>)
    requires WellFormed(t.df) && Conforms(t.df) && rs == Records(t.df)
    requires EstimateDefined(rs, t.remainingDays)
    modifies t`totalAmountsByMonth, t`partialAmountsByMonth
    modifies t`factorIncreases, t`averageFactorIncrease, t`estimate
    ensures t.estimate == EstimateOf(rs, t.remainingDays)
  {
    RunGroupingStages(t, rs);
    ghost var totals, partials := t.totalAmountsByMonth, t.partialAmountsByMonth;
    StagesReady(rs, t.remainingDays, totals, partials);
    RunEstimatingStages(t, totals, partials);
  }

  /** The program's run without the report printing: the stages in order on
      one object, the first exception ending the run. */
  method RunPipeline(source: Source) returns (r: Result<int>)
    requires PipelineDefined(source)
    ensures r == PipelineResult(source)
  {
    var t := new Transactions();
    var loaded := t.LoadTransactions(source);
    if loaded.Fail? {
      return Failure(loaded.error);
    }
    var valid := t.ValidateTransactionsColumns();
    if valid.Fail? {
      return Failure(valid.error);
    }
    PipelineSucceeds(source, t.df);
    RunStages(t, Records(t.df));
    return Success(t.estimate);
  }

  /** A ledger with a gap, whatever the ids: 10 on 2023-01-10 and 20 on
      2023-03-10, nothing in February. */
  predicate GapLedger(rs: seq<Record>) {
    && |rs| == 2
    && rs[0].date == Date(2023, 1, 10) && rs[0].amount == 10
    && rs[1].date == Date(2023, 3, 10) && rs[1].amount == 20
  }

  /** The month without records still gets its bin: the totals series has a
      0 row for February. */
  lemma {:induction false} GapMonthTotalsZero(rs: seq<Record>)
    requires GapLedger(rs)
    ensures TotalsByMonth(rs)
         == [MonthAmount(Month(2023, 1), 10), MonthAmount(Month(2023, 2), 0), MonthAmount(Month(2023, 3), 20)]
  {
    GapSpan(rs);
    GapMonthTotals(rs);
    FirstQuarterTotals(rs, 10, 0, 20);
  }

  /** The gap ledger's month totals: 10, nothing and 20. */
  lemma {:induction false} GapMonthTotals(rs: seq<Record>)
    requires GapLedger(rs)
    ensures MonthTotal(rs, Month(2023, 1)) == 10
    ensures MonthTotal(rs, Month(2023, 2)) == 0
    ensures MonthTotal(rs, Month(2023, 3)) == 20
  {
    assert MonthTotal(rs, Month(2023, 1)) == 10 by {
      GapGroups(rs, Month(2023, 1));
      PairSumAndWindow(rs[0], rs[1], Date(2023, 1, 1), Date(2023, 1, 1));
    }
    assert MonthTotal(rs, Month(2023, 2)) == 0 by {
      GapGroups(rs, Month(2023, 2));
    }
    assert MonthTotal(rs, Month(2023, 3)) == 20 by {
      GapGroups(rs, Month(2023, 3));
      PairSumAndWindow(rs[1], rs[0], Date(2023, 1, 1), Date(2023, 1, 1));
    }
  }

  /** The gap ledger's bins are January to March. */
  lemma {:induction false} GapSpan(rs: seq<Record>)
    requires GapLedger(rs)
    ensures MonthSpan(rs) == [Month(2023, 1), Month(2023, 2), Month(2023, 3)]
  {
    assert MonthKey(rs[0]) == 24276 && MonthKey(rs[1]) == 24278;
    FirstQuarterSpan(rs);
  }

  /** The group of month `m` of a two-record table, record by record. */
  lemma {:induction false} GapGroups(rs: seq<Record>, m: Month)
    requires |rs| == 2
    ensures InMonth(rs, m)
         == (if MonthOf(rs[0].date) == m then [rs[0]] else [])
          + (if MonthOf(rs[1].date) == m then [rs[1]] else [])
  {
    assert [rs[0]] + [rs[1]] == rs;
    InMonthAppend([], rs[0], m);
    InMonthAppend([rs[0]], rs[1], m);
  }

  /** A ledger of three months, whatever the ids: January 100 on the 25th
      and 50 on the 30th, February 200 on the 5th and on the 25th, March 300
      on the 20th. */
  predicate ThreeMonthLedger(rs: seq<Record>) {
    && |rs| == 5
    && rs[0].date == Date(2023, 1, 25) && rs[0].amount == 100
    && rs[1].date == Date(2023, 1, 30) && rs[1].amount == 50
    && rs[2].date == Date(2023, 2, 5) && rs[2].amount == 200
    && rs[3].date == Date(2023, 2, 25) && rs[3].amount == 200
    && rs[4].date == Date(2023, 3, 20) && rs[4].amount == 300
  }

  /** The ledger's first month is January 2023 and its last March 2023. */
  lemma {:induction false} ThreeMonthKeys(rs: seq<Record>)
    requires ThreeMonthLedger(rs)
    ensures FirstMonthKey(rs) == MonthIndex(Month(2023, 1))
    ensures LastMonthKey(rs) == MonthIndex(Month(2023, 3))
  {
    assert MonthKey(rs[0]) == 24276 && MonthKey(rs[1]) == 24276;
    assert MonthKey(rs[2]) == 24277 && MonthKey(rs[3]) == 24277;
    assert MonthKey(rs[4]) == 24278;
  }

  /** The ledger's bins are January to March. */
  lemma {:induction false} ThreeMonthSpan(rs: seq<Record>)
    requires ThreeMonthLedger(rs)
    ensures MonthSpan(rs) == [Month(2023, 1), Month(2023, 2), Month(2023, 3)]
  {
    ThreeMonthKeys(rs);
    FirstQuarterSpan(rs);
  }

  /** Records whose months run from January to March 2023 are binned into
      exactly those three months. */
  lemma {:induction false} FirstQuarterSpan(rs: seq<Record>)
    requires |rs| > 0
    requires FirstMonthKey(rs) == MonthIndex(Month(2023, 1))
    requires LastMonthKey(rs) == MonthIndex(Month(2023, 3))
    ensures MonthSpan(rs) == [Month(2023, 1), Month(2023, 2), Month(2023, 3)]
  {
    var ms, quarter := MonthSpan(rs), [Month(2023, 1), Month(2023, 2), Month(2023, 3)];
    forall i | 0 <= i < |ms| ensures ms[i] == quarter[i] {
      MonthIndexInjective(ms[i], quarter[i]);
    }
  }

  /** The group of month `m` of a five-record table, record by record. */
  lemma {:induction false} FiveRecordGroup(rs: seq<Record>, m: Month)
    requires |rs| == 5
    ensures InMonth(rs, m)
         == (if MonthOf(rs[0].date) == m then [rs[0]] else [])
          + (if MonthOf(rs[1].date) == m then [rs[1]] else [])
          + (if MonthOf(rs[2].date) == m then [rs[2]] else [])
          + (if MonthOf(rs[3].date) == m then [rs[3]] else [])
          + (if MonthOf(rs[4].date) == m then [rs[4]] else [])
  {
    var r1 := [rs[0]];
    var r2 := r1 + [rs[1]];
    var r3 := r2 + [rs[2]];
    var r4 := r3 + [rs[3]];
    assert r4 + [rs[4]] == rs;
    InMonthAppend([], rs[0], m);
    InMonthAppend(r1, rs[1], m);
    InMonthAppend(r2, rs[2], m);
    InMonthAppend(r3, rs[3], m);
    InMonthAppend(r4, rs[4], m);
  }

  lemma {:induction false} ThreeMonthJanuary(rs: seq<Record>)
    requires ThreeMonthLedger(rs)
    ensures InMonth(rs, Month(2023, 1)) == [rs[0], rs[1]]
  {
    FiveRecordGroup(rs, Month(2023, 1));
  }

  lemma {:induction false} ThreeMonthFebruary(rs: seq<Record>)
    requires ThreeMonthLedger(rs)
    ensures InMonth(rs, Month(2023, 2)) == [rs[2], rs[3]]
  {
    FiveRecordGroup(rs, Month(2023, 2));
  }

  lemma {:induction false} ThreeMonthMarch(rs: seq<Record>)
    requires ThreeMonthLedger(rs)
    ensures InMonth(rs, Month(2023, 3)) == [rs[4]]
  {
    FiveRecordGroup(rs, Month(2023, 3));
  }

  /** January's group: 100 on the 25th and 50 on the 30th total 150, and
      only the first falls on or before the end day, the 26th. */
  lemma {:induction false} JanuaryGroupAmounts(a: Record, b: Record)
    requires a.date == Date(2023, 1, 25) && a.amount == 100
    requires b.date == Date(2023, 1, 30) && b.amount == 50
    ensures SumAmounts([a, b]) == 150 && PartialAmount([a, b], 5) == 100
  {
    PairSumAndWindow(a, b, Date(2023, 1, 1), Date(2023, 1, 26));
  }

  /** February 2023's group: 200 on the 5th and on the 25th total 400, and
      only the first falls on or before the end day, the 23rd. */
  lemma {:induction false} FebruaryGroupAmounts(a: Record, b: Record)
    requires a.date == Date(2023, 2, 5) && a.amount == 200
    requires b.date == Date(2023, 2, 25) && b.amount == 200
    ensures SumAmounts([a, b]) == 400 && PartialAmount([a, b], 5) == 200
  {
    PairSumAndWindow(a, b, Date(2023, 2, 1), Date(2023, 2, 23));
  }

  /** March's group: 300 on the 20th, on or before the end day, the 26th. */
  lemma {:induction false} MarchGroupAmounts(a: Record)
    requires a.date == Date(2023, 3, 20) && a.amount == 300
    ensures SumAmounts([a]) == 300 && PartialAmount([a], 5) == 300
  {
    PairSumAndWindow(a, a, Date(2023, 3, 1), Date(2023, 3, 26));
  }

  /** The sum and the window of a one- or two-record group, record by record. */
  lemma {:induction false} PairSumAndWindow(a: Record, b: Record, lo: Date, hi: Date)
    ensures SumAmounts([a]) == a.amount && SumAmounts([a, b]) == a.amount + b.amount
    ensures InWindow([a], lo, hi) == if DateAtMost(lo, a.date) && DateAtMost(a.date, hi) then [a] else []
    ensures InWindow([a, b], lo, hi)
         == (if DateAtMost(lo, a.date) && DateAtMost(a.date, hi) then [a] else [])
          + (if DateAtMost(lo, b.date) && DateAtMost(b.date, hi) then [b] else [])
  {
    assert [a, b][..1] == [a];
    assert [a][..0] == [];
  }

  /** The totals series of records binned into January to March 2023. */
  lemma {:induction false} FirstQuarterTotals(rs: seq<Record>, t1: int, t2: int, t3: int)
    requires MonthSpan(rs) == [Month(2023, 1), Month(2023, 2), Month(2023, 3)]
    requires MonthTotal(rs, Month(2023, 1)) == t1
    requires MonthTotal(rs, Month(2023, 2)) == t2
    requires MonthTotal(rs, Month(2023, 3)) == t3
    ensures TotalsByMonth(rs)
         == [MonthAmount(Month(2023, 1), t1), MonthAmount(Month(2023, 2), t2), MonthAmount(Month(2023, 3), t3)]
  {
    var t := TotalsByMonth(rs);
    assert |t| == 3;
    assert t[0] == MonthAmount(Month(2023, 1), t1);
    assert t[1] == MonthAmount(Month(2023, 2), t2);
    assert t[2] == MonthAmount(Month(2023, 3), t3);
    ThreeRows(t, t[0], t[1], t[2]);
  }

  /** `calculate_partial_amount` is defined on every bin of records binned
      into January to March 2023 when each of those months holds a record. */
  lemma {:induction false} FirstQuarterPartialsDefined(rs: seq<Record>)
    requires ValidRecords(rs)
    requires MonthSpan(rs) == [Month(2023, 1), Month(2023, 2), Month(2023, 3)]
    requires InMonth(rs, Month(2023, 1)) != []
    requires InMonth(rs, Month(2023, 2)) != []
    requires InMonth(rs, Month(2023, 3)) != []
    ensures PartialsDefined(rs, 5)
  {
  }

  /** The partial series of records binned into January to March 2023 holds
      each month's partial amount, in month order. */
  lemma {:induction false} FirstQuarterPartials(rs: seq<Record>, ms: seq<Month>, p1: int, p2: int, p3: int)
    requires BinsDefined(rs, ms, 5)
    requires ms == [Month(2023, 1), Month(2023, 2), Month(2023, 3)]
    requires Month(2023, 1) in ms && MonthPartial(rs, Month(2023, 1), 5) == p1
    requires Month(2023, 2) in ms && MonthPartial(rs, Month(2023, 2), 5) == p2
    requires Month(2023, 3) in ms && MonthPartial(rs, Month(2023, 3), 5) == p3
    ensures PartialTally(rs, ms, 5)
         == [MonthAmount(Month(2023, 1), p1), MonthAmount(Month(2023, 2), p2), MonthAmount(Month(2023, 3), p3)]
  {
    var p := PartialTally(rs, ms, 5);
    assert p[0] == MonthAmount(Month(2023, 1), p1) by { PartialTallyRow(rs, ms, 5, 0); }
    assert p[1] == MonthAmount(Month(2023, 2), p2) by { PartialTallyRow(rs, ms, 5, 1); }
    assert p[2] == MonthAmount(Month(2023, 3), p3) by { PartialTallyRow(rs, ms, 5, 2); }
    ThreeRows(p, p[0], p[1], p[2]);
  }

  /** A three-row series is the series of its three rows. */
  lemma ThreeRows(p: seq<MonthAmount>, a: MonthAmount, b: MonthAmount, c: MonthAmount)
    requires |p| == 3 && p[0] == a && p[1] == b && p[2] == c
    ensures p == [a, b, c]
  {
  }

  /** A month's partial amount is the partial amount of its group. */
  lemma {:induction false} MonthPartialOfGroup(rs: seq<Record>, m: Month, g: seq<Record>)
    requires ValidRecords(rs) && ValidMonth(m) && InMonth(rs, m) == g && g != []
    requires 5 < DaysInMonth(m.year, m.month)
    ensures ValidRecords(g) && ValidDate(g[0].date) && MonthOf(g[0].date) == m
    ensures MonthPartial(rs, m, 5) == PartialAmount(g, 5)
  {
    assert g[0] in rs;
    InMonthValid(rs, m);
  }

  /** The ledger's totals are 150, 400 and 300, and with five days left its
      partials are 100, 200 and 300. */
  lemma {:induction false} ThreeMonthSeries(rs: seq<Record>)
    requires ThreeMonthLedger(rs)
    ensures TotalsByMonth(rs)
         == [MonthAmount(Month(2023, 1), 150), MonthAmount(Month(2023, 2), 400), MonthAmount(Month(2023, 3), 300)]
    ensures PartialsDefined(rs, 5)
    ensures PartialsByMonth(rs, 5)
         == [MonthAmount(Month(2023, 1), 100), MonthAmount(Month(2023, 2), 200), MonthAmount(Month(2023, 3), 300)]
  {
    ThreeMonthSpan(rs);
    ThreeMonthJanuary(rs);
    ThreeMonthFebruary(rs);
    ThreeMonthMarch(rs);
    ThreeMonthTotals(rs);
    ThreeMonthMonthPartials(rs);
    FirstQuarterPartialsDefined(rs);
    FirstQuarterPartialSeries(rs, 100, 200, 300);
  }

  /** The ledger's month totals, from its three month groups. */
  lemma {:induction false} ThreeMonthTotals(rs: seq<Record>)
    requires ThreeMonthLedger(rs)
    requires MonthSpan(rs) == [Month(2023, 1), Month(2023, 2), Month(2023, 3)]
    requires InMonth(rs, Month(2023, 1)) == [rs[0], rs[1]]
    requires InMonth(rs, Month(2023, 2)) == [rs[2], rs[3]]
    requires InMonth(rs, Month(2023, 3)) == [rs[4]]
    ensures TotalsByMonth(rs)
         == [MonthAmount(Month(2023, 1), 150), MonthAmount(Month(2023, 2), 400), MonthAmount(Month(2023, 3), 300)]
  {
    JanuaryGroupAmounts(rs[0], rs[1]);
    FebruaryGroupAmounts(rs[2], rs[3]);
    MarchGroupAmounts(rs[4]);
    FirstQuarterTotals(rs, 150, 400, 300);
  }

  /** The ledger's month partials with five days left: January's window ends
      on the 26th, February's on the 23rd and March's on the 26th. */
  lemma {:induction false} ThreeMonthMonthPartials(rs: seq<Record>)
    requires ThreeMonthLedger(rs)
    requires InMonth(rs, Month(2023, 1)) == [rs[0], rs[1]]
    requires InMonth(rs, Month(2023, 2)) == [rs[2], rs[3]]
    requires InMonth(rs, Month(2023, 3)) == [rs[4]]
    ensures ValidRecords(rs)
    ensures MonthPartial(rs, Month(2023, 1), 5) == 100
    ensures MonthPartial(rs, Month(2023, 2), 5) == 200
    ensures MonthPartial(rs, Month(2023, 3), 5) == 300
  {
    MonthPartialOfGroup(rs, Month(2023, 1), [rs[0], rs[1]]);
    MonthPartialOfGroup(rs, Month(2023, 2), [rs[2], rs[3]]);
    MonthPartialOfGroup(rs, Month(2023, 3), [rs[4]]);
    JanuaryGroupAmounts(rs[0], rs[1]);
    FebruaryGroupAmounts(rs[2], rs[3]);
    MarchGroupAmounts(rs[4]);
  }

  /** The partial series of records binned into January to March 2023. */
  lemma {:induction false} FirstQuarterPartialSeries(rs: seq<Record>, p1: int, p2: int, p3: int)
    requires PartialsDefined(rs, 5)
    requires MonthSpan(rs) == [Month(2023, 1), Month(2023, 2), Month(2023, 3)]
    requires MonthPartial(rs, Month(2023, 1), 5) == p1
    requires MonthPartial(rs, Month(2023, 2), 5) == p2
    requires MonthPartial(rs, Month(2023, 3), 5) == p3
    ensures PartialsByMonth(rs, 5)
         == [MonthAmount(Month(2023, 1), p1), MonthAmount(Month(2023, 2), p2), MonthAmount(Month(2023, 3), p3)]
  {
    FirstQuarterPartials(rs, MonthSpan(rs), p1, p2, p3);
  }

  /** The factor table of the ledger's series holds 1.5 for January and 2.0
      for February; their mean 1.75 projects March's partial 300 to 525. */
  lemma {:induction false} FirstQuarterEstimate(t: seq<MonthAmount>, p: seq<MonthAmount>)
    requires t == [MonthAmount(Month(2023, 1), 150), MonthAmount(Month(2023, 2), 400), MonthAmount(Month(2023, 3), 300)]
    requires p == [MonthAmount(Month(2023, 1), 100), MonthAmount(Month(2023, 2), 200), MonthAmount(Month(2023, 3), 300)]
    ensures FactorsDefined(t, p)
    ensures Estimate(300, FactorIncreases(t, p)) == 525
  {
    var rows := FactorIncreases(t, p);
    assert rows[0].factor * 100.0 == 150.0 && rows[1].factor * 200.0 == 400.0;
    var fs := Factors(rows);
    assert fs == [1.5, 2.0];
    assert SumReals(fs) == SumReals([1.5]) + 2.0 by { assert fs[..1] == [1.5]; }
    assert SumReals([1.5]) == 1.5 by { assert [1.5][..0] == []; }
    assert Mean(fs) == 1.75;
  }

  /** The ledger's estimate: the source is defined on it, and the run
      yields 525. */
  lemma {:induction false} ThreeMonthEstimate(rs: seq<Record>)
    requires ThreeMonthLedger(rs)
    ensures EstimateDefined(rs, 5)
    ensures EstimateOf(rs, 5) == 525
  {
    ThreeMonthSeries(rs);
    ThreeMonthSpan(rs);
    SeriesEstimate(rs);
  }

  /** Records whose two series are the ledger's have the ledger's estimate. */
  lemma {:induction false} SeriesEstimate(rs: seq<Record>)
    requires PartialsDefined(rs, 5) && |MonthSpan(rs)| == 3
    requires TotalsByMonth(rs)
         == [MonthAmount(Month(2023, 1), 150), MonthAmount(Month(2023, 2), 400), MonthAmount(Month(2023, 3), 300)]
    requires PartialsByMonth(rs, 5)
         == [MonthAmount(Month(2023, 1), 100), MonthAmount(Month(2023, 2), 200), MonthAmount(Month(2023, 3), 300)]
    ensures EstimateDefined(rs, 5)
    ensures EstimateOf(rs, 5) == 525
  {
    FirstQuarterEstimate(TotalsByMonth(rs), PartialsByMonth(rs, 5));
  }
}
