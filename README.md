# historical-transactions in Dafny

A model of `historic_transactions.py`, a batch pipeline that projects the
current month's total transaction amount from a ledger of past
transactions. The `Transactions` object runs these stages in order, and
each stage overwrites one of its fields:

1. **Configuration.** The constructor derives `remaining_days`, the days
   left in the month after the fixed current date 2023-03-26. That is 5.
2. **Load.** A missing file, an empty file, or a transaction date that does
   not convert under the format `%Y-%m-%d` raises the matching exception.
   The model accepts only the zero-padded spelling (see "Left out").
3. **Validate.** Three column-presence checks, then three dtype checks, in a
   fixed order. The first check that fails raises its own exception.
4. **Totals by month.** The amounts are summed per calendar month, one row
   per month from the first month to the last. A month with no records
   sums to 0.
5. **Partials by month.** Each month's group sums only the amounts dated
   from day 1 to `days_in_month − remaining_days`.
6. **Factors and estimate.** The two series are joined on month, and each
   factor is total / partial. The last, incomplete month is dropped. The
   estimate is the last month's partial amount times the mean factor,
   rounded.

Modules:

- `Errors`: the eight exception kinds and the result types.
- `Calendar`: Gregorian month lengths, month order, and the strict date text form.
- `Frames`: the table as typed columns.
- `Loader`: `load_transactions` as a function of what the reader returned.
- `Validator`: the six checks.
- `Aggregation`: grouping, totals and partials. Three steps are given
  twice, once as a specification function and once as a method with a loop
  that is proved equal to it:
  - the grouping by month: `InMonth` and `GroupByMonth`;
  - the sum of each bin: `Tally` and `SumEachBin`;
  - `calculate_partial_amount` applied to each bin: `PartialTally` and
    `PartialOfEachBin`.

  The bins (`MonthSpan`) and `calculate_partial_amount` itself
  (`PartialAmount`) are functions only.
- `Estimation`: the factor table, the mean and half-even rounding.
- `HistoricTransactions`:
  - the `Transactions` class, with one method per pipeline stage;
  - `RunPipeline`, which runs the stages on one object and is proved equal
    to the pure `PipelineResult`;
  - two worked ledgers, stated over any records with the given dates and
    amounts. One has a month without records. The other runs the whole
    computation over three months and ends with the estimate 525.

## Model

| member | source | states |
|---|---|---|
| Calendar.DaysInMonth | historic_transactions.py:46-47 | a month has 28 to 31 days, and February has 29 exactly in a Gregorian leap year |
| Calendar.RemainingDays | historic_transactions.py:46-47 | the days left after a valid date lie from 0 to below the month's length, and the date's day plus them is the month's length |
| Calendar.MonthBeforeIsIndexOrder | historic_transactions.py:107-109 | chronological order of the month bins is exactly the numeric order of their month numbers |
| Calendar.MonthIndexInjective | historic_transactions.py:107-109 | two valid months with the same month number are the same month, so each bin stands for one calendar month |
| Calendar.ParseDate | historic_transactions.py:71 | a strict `%Y-%m-%d` text parses only to a real calendar date of years 1 to 9999 |
| Calendar.ParseFormatRoundTrip | historic_transactions.py:71 | every date of years 1 to 9999 is read back from its `%Y-%m-%d` text |
| Calendar.FormatParseRoundTrip | historic_transactions.py:71 | only the canonical spelling parses: a text accepted as a date is exactly that date's `%Y-%m-%d` form |
| Frames.ColumnNamed | historic_transactions.py:94-101 | `df[name]` is a column of the table and carries that name |
| Loader.ParseCell | historic_transactions.py:71 | text cells convert exactly when they parse as a strict date; numbers and flags never convert; every converted value is a valid date |
| Loader.ToDatetime | historic_transactions.py:70-73 | the column fails to convert exactly when some cell fails; otherwise it keeps its name and length, gets the datetime dtype, and holds each cell's parsed date |
| Loader.Load | historic_transactions.py:56-73 | a missing file fails with FileNotFound, a table with no columns with EmptyDataFrame, and a bad date with WrongTransactionDateType, each exactly in its case; a loaded table keeps its names, row count and other columns; its date column holds timestamps |
| Validator.Validate | historic_transactions.py:85-101 | the table passes exactly when all six checks hold, and each exception is raised exactly when its check fails and all earlier ones hold |
| Validator.LoadedDatesAreTemporal | historic_transactions.py:69-73 | on a table that loaded, the date-dtype check never fails |
| Aggregation.Records | historic_transactions.py:107-109 | the rows of a validated table, in order, each with the timestamp, id text and integer amount of its row |
| Aggregation.InMonth | historic_transactions.py:108 | a month's group holds only records of that month taken from the table |
| Aggregation.MonthTotalAddsRecord | historic_transactions.py:107-109 | a record added to the table adds its amount to its own month's total and changes no other month's total |
| Aggregation.TallyAddsRecord | historic_transactions.py:107-109 | over distinct bins, a record added to the table raises the sum of the month rows by its amount when its month is a bin, and leaves it unchanged otherwise |
| Aggregation.InMonthMembers | historic_transactions.py:108 | a record is in a month's group exactly when it is in the table and dated in that month |
| Aggregation.GroupByMonth | historic_transactions.py:108 | the month-keyed map built by the loop has a key exactly for each month with a record, mapped to that month's records |
| Aggregation.MonthSpan | historic_transactions.py:108 | the bins run over consecutive months from the first record's month to the last one's |
| Aggregation.SpanCoversRecords | historic_transactions.py:108 | the bins are distinct, and every record's month is one of them |
| Aggregation.Tally | historic_transactions.py:107-109 | one row per bin, carrying the sum of exactly that month's amounts |
| Aggregation.SumEachBin | historic_transactions.py:107-110 | summing each bin's group, an empty bin giving 0, yields the month tally of the bins |
| Aggregation.TotalsChronological | historic_transactions.py:107-109 | the monthly totals are in strictly chronological month order whatever the input order, and every record's month has a row |
| Aggregation.TotalsByMonth | historic_transactions.py:107-110 | one row per month bin, and on valid records no amount is lost or counted twice: the monthly totals add up to the sum of all amounts |
| Aggregation.InWindowMembers | historic_transactions.py:123-125 | a record passes the date mask exactly when it is in the group and dated from the lower bound to the upper bound inclusive |
| Aggregation.EarlyInMonthMembers | historic_transactions.py:123-125 | a record counts towards a month's partial exactly when it is in that month and dated on the end day or before |
| Aggregation.WindowOfMonthIsEarly | historic_transactions.py:123-125 | masking a month's group with the window from day 1 to the end day keeps exactly the month's early records |
| Aggregation.PartialAmount | historic_transactions.py:112-127 | `calculate_partial_amount` takes the year and month from the group's first row; on valid records it is the sum of the group's records in that month dated from day 1 to the month's length minus `remaining_days` |
| Aggregation.WindowIsEarly | historic_transactions.py:123-125 | on valid records, the mask from day 1 to the end day of a month keeps exactly that month's records dated on the end day or before, in order |
| Aggregation.PartialIsEarlySum | historic_transactions.py:112-127 | a month's partial is the sum of exactly its records dated on days 1 to its own length minus `remaining_days` |
| Aggregation.PartialAtMostTotal | historic_transactions.py:112-127 | with non-negative amounts, a month's partial is at most its total |
| Aggregation.PartialIsTotalWhenNoDaysRemain | historic_transactions.py:120-127 | with no remaining days, a month's partial is its total |
| Aggregation.PartialTally | historic_transactions.py:133-135 | one partial row per bin, in bin order |
| Aggregation.PartialsByMonth | historic_transactions.py:129-135 | the partial series has one row per month bin |
| Aggregation.PartialsAlignWithTotals | historic_transactions.py:137-143 | the partial and total series have the same months in the same order; each partial is at most its total for non-negative amounts, and the two series are equal when no days remain |
| Aggregation.BinPartial | historic_transactions.py:133-134 | every bin's group is non-empty, `calculate_partial_amount` is defined on it, and it yields the bin's row of the partial series |
| Aggregation.PartialOfEachBin | historic_transactions.py:133-135 | applying `calculate_partial_amount` to each bin's group yields the partial series of the bins |
| Estimation.FactorIncreases | historic_transactions.py:142-146 | n months give n − 1 rows in month order; each row pairs the month's total and partial, and its factor times the partial is the total |
| Estimation.Factors | historic_transactions.py:152 | the factor column of the table, row by row |
| Estimation.Mean | historic_transactions.py:152 | the mean times the count is the sum |
| Estimation.MeanWithin | historic_transactions.py:152 | the mean lies between any lower and upper bound of the values |
| Estimation.FactorAtLeastOne | historic_transactions.py:143 | a positive partial not above its total gives a factor of at least 1 |
| Estimation.RoundHalfEven | historic_transactions.py:155 | the result is within one half of the input, and a tie goes to the even neighbour |
| Estimation.RoundHalfEvenUnique | historic_transactions.py:155 | no other integer satisfies those two properties |
| Estimation.Estimate | historic_transactions.py:148-155 | the estimate is within one half of the last partial times the mean factor, and a tie goes to the even integer |
| Estimation.EstimateAtLeastPartial | historic_transactions.py:148-155 | when every kept month's total is at least its positive partial, the estimate is not below the partial it projects from |
| HistoricTransactions.Transactions.constructor | historic_transactions.py:45-54 | `remaining_days` is the days left after 2023-03-26, which is 5; the other fields start empty or zero |
| HistoricTransactions.Transactions.LoadTransactions | historic_transactions.py:56-73 | the outcome is the loader's; a loaded table is stored; a missing or empty file leaves the old table; a bad date leaves the unconverted table stored |
| HistoricTransactions.Transactions.ValidateTransactionsColumns | historic_transactions.py:75-101 | the outcome is the validator's verdict on the stored table, and nothing changes |
| HistoricTransactions.Transactions.CalculateTotalAmountsByMonth | historic_transactions.py:103-110 | the stored totals are the month tally of the table's records |
| HistoricTransactions.Transactions.CalculatePartialAmountsByMonth | historic_transactions.py:129-135 | the stored partials are the partial series of the table's records |
| HistoricTransactions.Transactions.CalculateFactorIncreases | historic_transactions.py:137-146 | the stored factor table is the joined, divided and truncated table of the stored series |
| HistoricTransactions.Transactions.GenerateEstimate | historic_transactions.py:148-155 | the stored average is the mean factor, and the estimate projects the last month's partial, the month the factors exclude |
| HistoricTransactions.PipelineResult | historic_transactions.py:158-162 | a missing file is the only way to fail with FileNotFound; a load failure is the run's failure; a loaded table fails exactly when it does not validate |
| HistoricTransactions.PipelineSucceeds | historic_transactions.py:160-162 | a table that loads and validates is well formed and conforming, and the run yields the estimate over its records |
| HistoricTransactions.StagesReady | historic_transactions.py:164-180 | the two stored series can be joined and divided, and the last two stages compute the records' estimate from them |
| HistoricTransactions.RunGroupingStages | historic_transactions.py:164-171 | the two grouping stages store the totals and partials of the table's records |
| HistoricTransactions.RunEstimatingStages | historic_transactions.py:174-180 | the two estimating stages store the estimate of the stored series |
| HistoricTransactions.RunStages | historic_transactions.py:164-180 | the four computing stages, in order, store the estimate over the table's records |
| HistoricTransactions.RunPipeline | historic_transactions.py:158-184 | running the stages on one object, the first exception ending the run, gives exactly `PipelineResult` |
| HistoricTransactions.GapMonthTotalsZero | historic_transactions.py:107-110 | records on 2023-01-10 and 2023-03-10 give three total rows, and February's row is 0 rather than missing |
| HistoricTransactions.FirstQuarterSpan | historic_transactions.py:108 | records whose first month is January 2023 and last month is March 2023 fall into exactly those three bins, whatever order they come in |
| HistoricTransactions.ThreeMonthMonthPartials | historic_transactions.py:112-127 | with 5 days remaining, the window ends on January 26, February 23 and March 26, so the sample ledger's partials are 100, 200 and 300 |
| HistoricTransactions.ThreeMonthSeries | historic_transactions.py:103-135 | the sample ledger's total series is 150, 400, 300 and its partial series is 100, 200, 300, in month order |
| HistoricTransactions.FirstQuarterEstimate | historic_transactions.py:137-155 | those two series give factors 1.5 and 2.0 once March is dropped; their mean is 1.75, and it projects March's partial of 300 to 525 |
| HistoricTransactions.ThreeMonthEstimate | historic_transactions.py:103-155 | the estimate is defined on the sample ledger and is 525 |

The source's `pd.Grouper(freq="M")` creates a bin for every month from
the first to the last, and `sum` over an empty bin is 0. The totals
series therefore has a 0 row for a month without records; it does not
omit the month. The model follows the code.

The source raises no dedicated error when there are fewer than two months
or when a partial amount is zero. The model states both as preconditions
(see below). It does not invent an error kind for them.

## Left out

- Reading files: `os.path.isfile` and `pd.read_csv` are not modelled. Their outcome is the `Source` value: no file, a table with no columns (the reader's "no columns to parse"), or the parsed table.
- CSV parsing and pandas' dtype inference: each column carries its dtype as a tag.
- `main()`, its printing and the month-end date it shows are console output. They are not modelled. `RunPipeline` runs the same stages without printing.
- Floating point: ratios, the mean and the product use exact reals, with Python's half-to-even `round`. IEEE-754 float64 error is not modelled.
- NaN and NaT cells, and pandas' bounded timestamp range, are not modelled. Dates are years 1 to 9999 and amounts are unbounded integers; 64-bit overflow of the sums is not modelled.
- Loader.Load: two differences from `pd.to_datetime(..., format="%Y-%m-%d")` at historic_transactions.py:71-73. First, the source's `%m` and `%d` also accept one-digit fields, so a cell such as "2023-3-5" loads there; the model's `Calendar.ParseDate` accepts only the zero-padded form and reports WrongTransactionDateType. Second, a boolean date column makes the converter raise a TypeError, which the `except ValueError` handler does not catch, so the source lets it escape; the model reports WrongTransactionDateType instead. The model has no error kind for an uncaught exception.
- Loader.ParseCell: a numeric cell is treated as failing the conversion; how pandas converts numbers under an explicit format is not modelled.
- Aggregation.PartialsDefined: its precondition excludes months with no records. On such a month the source's `.iloc[0]` raises on an empty group; that exception is not modelled.
- Aggregation.PartialsDefined: its precondition also excludes a `remaining_days` at least as large as a month's length. There `pd.Timestamp` would raise on an end day below 1; that exception is not modelled.
- Estimation.FactorsDefined: its precondition excludes a zero partial on any kept month. The source divides without a guard there; the model does not produce an infinite or NaN factor.
- HistoricTransactions.EstimateDefined: its precondition requires at least two months. With fewer, the source takes the mean of an empty series and produces NaN; that result is not modelled.
- The test file's comparisons against fixture CSV files and the reference dataset's estimate 371871 are not modelled, because that data is not part of this model.
