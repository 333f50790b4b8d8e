/** Monthly totals and partial ("to-date") amounts over the transaction
    records, as the month-end grouping of the table computes them. */
module Aggregation {
  import opened Calendar
  import opened Frames
  import opened Validator

  datatype Record = Record(id: string, date: Date, amount: int)

  /** One row of a month-indexed series: the month and its amount. */
  datatype MonthAmount = MonthAmount(month: Month, amount: int)

  /** The rows of a validated table as records, in row order. */
  function Records(f: Frame): (rs: seq<Record>)
    requires WellFormed(f) && Conforms(f)
    ensures |rs| == RowCount(f)
    ensures forall i :: 0 <= i < |rs| ==> ValidDate(rs[i].date)
    ensures forall i :: 0 <= i < |rs| ==>
      && ColumnNamed(f, TransactionDate).cells[i] == Stamp(rs[i].date)
      && ColumnNamed(f, TransactionId).cells[i] == Text(rs[i].id)
      && ColumnNamed(f, TransactionAmount).cells[i] == Whole(rs[i].amount)
  {
    var dates := f.columns[IndexOf(Names(f), TransactionDate)];
    var ids := f.columns[IndexOf(Names(f), TransactionId)];
    var amounts := f.columns[IndexOf(Names(f), TransactionAmount)];
    assert ColumnFits(dates) && ColumnFits(ids) && ColumnFits(amounts);
    seq(RowCount(f), i requires 0 <= i < RowCount(f) =>
      Record(ids.cells[i].text, dates.cells[i].date, amounts.cells[i].n))
  }

  predicate ValidRecords(rs: seq<Record>) {
    forall i :: 0 <= i < |rs| ==> ValidDate(rs[i].date)
  }

  /** The month a record is grouped under, as a month number. */
  function MonthKey(x: Record): int {
    MonthIndex(MonthOf(x.date))
  }

  function SumAmounts(rs: seq<Record>): int {
    if rs == [] then 0 else SumAmounts(rs[..|rs| - 1]) + rs[|rs| - 1].amount
  }

  /** The records of month `m`, in their original order. */
  function InMonth(rs: seq<Record>, m: Month): (g: seq<Record>)
    ensures |g| <= |rs|
    ensures forall x :: x in g ==> x in rs && MonthOf(x.date) == m
  {
    if rs == [] then []
    else
      var x := rs[|rs| - 1];
      InMonth(rs[..|rs| - 1], m) + (if MonthOf(x.date) == m then [x] else [])
  }

  /** The group of a month holds valid records when the table does. */
  lemma InMonthValid(rs: seq<Record>, m: Month)
    requires ValidRecords(rs)
    ensures ValidRecords(InMonth(rs, m))
  {
    var g := InMonth(rs, m);
    forall i | 0 <= i < |g| ensures ValidDate(g[i].date) {
      assert g[i] in g;
    }
  }

  /** A record lands in the group of month `m` exactly when its date is in `m`. */
  lemma {:induction false} InMonthMembers(rs: seq<Record>, m: Month, x: Record)
    ensures x in InMonth(rs, m) <==> x in rs && MonthOf(x.date) == m
  {
    if rs != [] {
      var init := rs[..|rs| - 1];
      assert rs == init + [rs[|rs| - 1]];
      InMonthMembers(init, m, x);
    }
  }

  /** A record appended to the table joins the end of its own month's group
      and no other. */
  lemma InMonthAppend(rs: seq<Record>, x: Record, m: Month)
    ensures InMonth(rs + [x], m) == InMonth(rs, m) + (if MonthOf(x.date) == m then [x] else [])
  {
    assert (rs + [x])[..|rs|] == rs;
  }

  /** The total of month `m`: the sum of the amounts of its records. */
  function MonthTotal(rs: seq<Record>, m: Month): int {
    SumAmounts(InMonth(rs, m))
  }

  lemma SumAmountsAppend(rs: seq<Record>, x: Record)
    ensures SumAmounts(rs + [x]) == SumAmounts(rs) + x.amount
  {
    assert (rs + [x])[..|rs|] == rs;
  }

  /** A new record adds its amount to the total of its own month only. */
  lemma MonthTotalAddsRecord(rs: seq<Record>, x: Record, m: Month)
    ensures MonthTotal(rs + [x], m) == MonthTotal(rs, m) + (if MonthOf(x.date) == m then x.amount else 0)
  {
    assert (rs + [x])[..|rs|] == rs;
    if MonthOf(x.date) == m {
      assert InMonth(rs + [x], m) == InMonth(rs, m) + [x];
      SumAmountsAppend(InMonth(rs, m), x);
    } else {
      assert InMonth(rs + [x], m) == InMonth(rs, m);
    }
  }

  // ---------------------------------------------------------------------
  // The bins of the month-end grouping: every month from the first to the
  // last month that has a record.

  function FirstMonthKey(rs: seq<Record>): (k: int)
    requires |rs| > 0
    ensures forall i :: 0 <= i < |rs| ==> k <= MonthKey(rs[i])
    ensures exists i :: 0 <= i < |rs| && k == MonthKey(rs[i])
  {
    if |rs| == 1 then MonthKey(rs[0])
    else
      var k := FirstMonthKey(rs[..|rs| - 1]);
      if MonthKey(rs[|rs| - 1]) < k then MonthKey(rs[|rs| - 1]) else k
  }

  function LastMonthKey(rs: seq<Record>): (k: int)
    requires |rs| > 0
    ensures forall i :: 0 <= i < |rs| ==> MonthKey(rs[i]) <= k
    ensures exists i :: 0 <= i < |rs| && k == MonthKey(rs[i])
  {
    if |rs| == 1 then MonthKey(rs[0])
    else
      var k := LastMonthKey(rs[..|rs| - 1]);
      if MonthKey(rs[|rs| - 1]) > k then MonthKey(rs[|rs| - 1]) else k
  }

  /** The months of the grouping's bins, oldest first. */
  function MonthSpan(rs: seq<Record>): (ms: seq<Month>)
    ensures |rs| == 0 ==> ms == []
    ensures |rs| > 0 ==> |ms| == LastMonthKey(rs) - FirstMonthKey(rs) + 1
    ensures forall i :: 0 <= i < |ms| ==> ValidMonth(ms[i]) && MonthIndex(ms[i]) == FirstMonthKey(rs) + i
  {
    if |rs| == 0 then []
    else
      var first := FirstMonthKey(rs);
      var n := LastMonthKey(rs) - first + 1;
      var ms := seq(n, i requires 0 <= i < n => MonthAt(first + i));
      assert forall i :: 0 <= i < n ==> ms[i] == MonthAt(first + i);
      ms
  }

  predicate Distinct(ms: seq<Month>) {
    forall i, j :: 0 <= i < j < |ms| ==> ms[i] != ms[j]
  }

  /** One series row per month of `ms`, carrying that month's total. */
  function Tally(rs: seq<Record>, ms: seq<Month>): (t: seq<MonthAmount>)
    ensures |t| == |ms|
    ensures forall i :: 0 <= i < |ms| ==> t[i] == MonthAmount(ms[i], MonthTotal(rs, ms[i]))
  {
    seq(|ms|, i requires 0 <= i < |ms| => MonthAmount(ms[i], MonthTotal(rs, ms[i])))
  }

  /** The series `calculate_total_amounts_by_month` stores. */
  function TotalsByMonth(rs: seq<Record>): (t: seq<MonthAmount>)
    ensures |t| == |MonthSpan(rs)|
    ensures ValidRecords(rs) ==> SumSeries(t) == SumAmounts(rs)
  {
    assert ValidRecords(rs) ==> SumSeries(Tally(rs, MonthSpan(rs))) == SumAmounts(rs) by {
      if ValidRecords(rs) {
        SpanCoversRecords(rs);
        TallyCoversAll(rs, MonthSpan(rs));
      }
    }
    Tally(rs, MonthSpan(rs))
  }

  function SumSeries(s: seq<MonthAmount>): int {
    if s == [] then 0 else SumSeries(s[..|s| - 1]) + s[|s| - 1].amount
  }

  /** The series is in chronological order, one row per month, and every
      record's month has its row, whatever order the records came in. */
  lemma TotalsChronological(rs: seq<Record>)
    requires ValidRecords(rs)
    ensures var t := TotalsByMonth(rs);
      && (forall i, j :: 0 <= i < j < |t| ==> MonthBefore(t[i].month, t[j].month))
      && (forall x :: x in rs ==> exists i :: 0 <= i < |t| && t[i].month == MonthOf(x.date))
  {
    var t := TotalsByMonth(rs);
    var ms := MonthSpan(rs);
    forall i, j | 0 <= i < j < |t| ensures MonthBefore(t[i].month, t[j].month) {
      MonthBeforeIsIndexOrder(ms[i], ms[j]);
    }
    forall x | x in rs ensures exists i :: 0 <= i < |t| && t[i].month == MonthOf(x.date) {
      var n :| 0 <= n < |rs| && rs[n] == x;
      var i := MonthKey(x) - FirstMonthKey(rs);
      assert MonthIndex(ms[i]) == MonthIndex(MonthOf(x.date));
      MonthAtIndex(ms[i]);
      MonthAtIndex(MonthOf(x.date));
      assert t[i].month == MonthOf(x.date);
    }
  }

  lemma SpanCoversRecords(rs: seq<Record>)
    requires ValidRecords(rs)
    ensures Distinct(MonthSpan(rs))
    ensures forall x :: x in rs ==> MonthOf(x.date) in MonthSpan(rs)
  {
    var ms := MonthSpan(rs);
    forall x | x in rs ensures MonthOf(x.date) in ms {
      var n :| 0 <= n < |rs| && rs[n] == x;
      var i := MonthKey(x) - FirstMonthKey(rs);
      MonthAtIndex(ms[i]);
      MonthAtIndex(MonthOf(x.date));
      assert ms[i] == MonthOf(x.date);
    }
  }

  /** Adding one record changes the month-by-month sum by its amount when its
      month is among `ms`, and not at all otherwise. */
  lemma {:induction false} TallyAddsRecord(rs: seq<Record>, x: Record, ms: seq<Month>)
    requires Distinct(ms)
    ensures SumSeries(Tally(rs + [x], ms))
         == SumSeries(Tally(rs, ms)) + (if MonthOf(x.date) in ms then x.amount else 0)
  {
    if ms != [] {
      var init, m := ms[..|ms| - 1], ms[|ms| - 1];
      assert Tally(rs + [x], ms)[..|ms| - 1] == Tally(rs + [x], init);
      assert Tally(rs, ms)[..|ms| - 1] == Tally(rs, init);
      assert SumSeries(Tally(rs + [x], ms)) == SumSeries(Tally(rs + [x], init)) + MonthTotal(rs + [x], m);
      assert SumSeries(Tally(rs, ms)) == SumSeries(Tally(rs, init)) + MonthTotal(rs, m);
      TallyAddsRecord(rs, x, init);
      MonthTotalAddsRecord(rs, x, m);
      assert MonthOf(x.date) in ms <==> MonthOf(x.date) in init || MonthOf(x.date) == m;
      if MonthOf(x.date) == m {
        assert MonthOf(x.date) !in init;
      }
    }
  }

  /** Summing month by month over distinct months that cover every record
      gives the sum of all amounts. */
  lemma {:induction false} TallyCoversAll(rs: seq<Record>, ms: seq<Month>)
    requires Distinct(ms)
    requires forall x :: x in rs ==> MonthOf(x.date) in ms
    ensures SumSeries(Tally(rs, ms)) == SumAmounts(rs)
  {
    if rs == [] {
      if ms != [] {
        assert Tally(rs, ms)[..|ms| - 1] == Tally(rs, ms[..|ms| - 1]);
        TallyCoversAll(rs, ms[..|ms| - 1]);
      }
    } else {
      var init, x := rs[..|rs| - 1], rs[|rs| - 1];
      assert rs == init + [x];
      TallyCoversAll(init, ms);
      TallyAddsRecord(init, x, ms);
    }
  }

  /** `groups` holds, under each month that has records in `rs`, exactly
      those records, and no other key. */
  ghost predicate Grouped(groups: map<Month, seq<Record>>, rs: seq<Record>) {
    forall m {:trigger m in groups} ::
      && (m in groups <==> InMonth(rs, m) != [])
      && (m in groups ==> groups[m] == InMonth(rs, m))
  }

  /** Appending the next record to its month's group keeps the grouping exact. */
  lemma GroupedExtends(groups: map<Month, seq<Record>>, rs: seq<Record>, i: int)
    requires 0 <= i < |rs| && Grouped(groups, rs[..i])
    ensures var key := MonthOf(rs[i].date);
      Grouped(groups[key := (if key in groups then groups[key] else []) + [rs[i]]], rs[..i + 1])
  {
    var key := MonthOf(rs[i].date);
    var next := groups[key := (if key in groups then groups[key] else []) + [rs[i]]];
    var before, after := rs[..i], rs[..i + 1];
    assert after[..i] == before && after[i] == rs[i];
    forall m
      ensures m in next <==> InMonth(after, m) != []
      ensures m in next ==> next[m] == InMonth(after, m)
    {
      assert InMonth(after, m) == InMonth(before, m) + (if key == m then [rs[i]] else []);
      assert m in groups <==> InMonth(before, m) != [];
      assert m in groups ==> groups[m] == InMonth(before, m);
    }
  }

  /** The grouping step: the records of each month that has any, keyed by month. */
  method GroupByMonth(rs: seq<Record>) returns (groups: map<Month, seq<Record>>)
    ensures forall m :: m in groups <==> InMonth(rs, m) != []
    ensures forall m :: m in groups ==> groups[m] == InMonth(rs, m)
  {
    groups := map[];
    var i := 0;
    while i < |rs|
      invariant 0 <= i <= |rs|
      invariant Grouped(groups, rs[..i])
    {
      var key := MonthOf(rs[i].date);
      var group := if key in groups then groups[key] else [];
      GroupedExtends(groups, rs, i);
      groups := groups[key := group + [rs[i]]];
      i := i + 1;
    }
    assert rs[..|rs|] == rs;
  }

  // ---------------------------------------------------------------------
  // Partial amounts

  /** The records dated from `lo` to `hi` inclusive, in their original order. */
  function InWindow(rs: seq<Record>, lo: Date, hi: Date): (w: seq<Record>)
    ensures |w| <= |rs|
  {
    if rs == [] then []
    else
      var x := rs[|rs| - 1];
      InWindow(rs[..|rs| - 1], lo, hi)
        + (if DateAtMost(lo, x.date) && DateAtMost(x.date, hi) then [x] else [])
  }

  /** A record passes the mask exactly when it is in the table and dated from
      `lo` to `hi` inclusive. */
  lemma {:induction false} InWindowMembers(rs: seq<Record>, lo: Date, hi: Date, x: Record)
    ensures x in InWindow(rs, lo, hi) <==> x in rs && DateAtMost(lo, x.date) && DateAtMost(x.date, hi)
  {
    if rs != [] {
      var init := rs[..|rs| - 1];
      assert rs == init + [rs[|rs| - 1]];
      InWindowMembers(init, lo, hi, x);
    }
  }

  /** The day up to which a month counts towards its partial amount. */
  function EndDay(m: Month, remainingDays: int): int
    requires ValidMonth(m)
  {
    DaysInMonth(m.year, m.month) - remainingDays
  }

  /** `calculate_partial_amount` applied to one month's group: the year and
      month come from the group's first record, and the amounts dated from the
      1st to the month's own end day are summed. An end day below 1 or past
      the month's end would make the timestamp constructor raise. */
  function PartialAmount(x: seq<Record>, remainingDays: int): (r: int)
    requires |x| > 0 && ValidRecords(x) && ValidDate(x[0].date)
    requires 0 <= remainingDays < DaysInMonth(x[0].date.year, x[0].date.month)
    ensures r == SumAmounts(EarlyInMonth(x, MonthOf(x[0].date), EndDay(MonthOf(x[0].date), remainingDays)))
  {
    var m := MonthOf(x[0].date);
    var e := EndDay(m, remainingDays);
    WindowIsEarly(x, m, e);
    SumAmounts(InWindow(x, Date(m.year, m.month, 1), Date(m.year, m.month, e)))
  }

  /** On valid records, the window from day 1 to `endDay` of month `m` keeps
      exactly the early records of `m`. */
  lemma {:induction false} WindowIsEarly(rs: seq<Record>, m: Month, endDay: int)
    requires ValidRecords(rs)
    ensures InWindow(rs, Date(m.year, m.month, 1), Date(m.year, m.month, endDay)) == EarlyInMonth(rs, m, endDay)
  {
    if rs != [] {
      var init := rs[..|rs| - 1];
      assert ValidRecords(init);
      assert ValidDate(rs[|rs| - 1].date);
      WindowIsEarly(init, m, endDay);
    }
  }

  /** Reference definition of a month's early records: in month `m` and dated
      on day `endDay` or before. */
  function EarlyInMonth(rs: seq<Record>, m: Month, endDay: int): (g: seq<Record>)
  {
    if rs == [] then []
    else
      var x := rs[|rs| - 1];
      EarlyInMonth(rs[..|rs| - 1], m, endDay)
        + (if MonthOf(x.date) == m && x.date.day <= endDay then [x] else [])
  }

  lemma {:induction false} EarlyInMonthMembers(rs: seq<Record>, m: Month, endDay: int, x: Record)
    ensures x in EarlyInMonth(rs, m, endDay) <==> x in rs && MonthOf(x.date) == m && x.date.day <= endDay
  {
    if rs != [] {
      var init := rs[..|rs| - 1];
      assert rs == init + [rs[|rs| - 1]];
      EarlyInMonthMembers(init, m, endDay, x);
    }
  }

  /** The window filter applied to the month's group picks exactly the
      month's records dated on days 1 to `endDay`, in order. */
  lemma {:induction false} WindowOfMonthIsEarly(rs: seq<Record>, m: Month, endDay: int)
    requires ValidRecords(rs) && ValidMonth(m)
    ensures InWindow(InMonth(rs, m), Date(m.year, m.month, 1), Date(m.year, m.month, endDay))
         == EarlyInMonth(rs, m, endDay)
  {
    if rs != [] {
      var init, x := rs[..|rs| - 1], rs[|rs| - 1];
      var lo, hi := Date(m.year, m.month, 1), Date(m.year, m.month, endDay);
      assert ValidRecords(init);
      WindowOfMonthIsEarly(init, m, endDay);
      var g := InMonth(init, m);
      if MonthOf(x.date) == m {
        assert InMonth(rs, m) == g + [x];
        assert (g + [x])[..|g|] == g;
        assert ValidDate(x.date);
      } else {
        assert InMonth(rs, m) == g;
      }
    }
  }

  /** The partial amount of month `m`: its group through `calculate_partial_amount`. */
  function MonthPartial(rs: seq<Record>, m: Month, remainingDays: int): int
    requires ValidRecords(rs) && ValidMonth(m) && InMonth(rs, m) != []
    requires 0 <= remainingDays < DaysInMonth(m.year, m.month)
  {
    var g := InMonth(rs, m);
    assert g[0] in rs && MonthOf(g[0].date) == m;
    InMonthValid(rs, m);
    PartialAmount(g, remainingDays)
  }

  /** On a group whose first record lies in month `m`, the partial amount
      sums the group's records dated from the 1st to the end day of `m`. */
  lemma GroupPartial(g: seq<Record>, m: Month, remainingDays: int)
    requires g != [] && ValidRecords(g) && ValidDate(g[0].date) && MonthOf(g[0].date) == m
    requires 0 <= remainingDays < DaysInMonth(m.year, m.month)
    ensures PartialAmount(g, remainingDays)
         == SumAmounts(InWindow(g, Date(m.year, m.month, 1), Date(m.year, m.month, EndDay(m, remainingDays))))
  {
  }

  /** A month's partial amount is the sum of the amounts of exactly the
      records of that month dated on days 1 to days-in-month minus
      `remainingDays`, each month with its own length. */
  lemma {:induction false} PartialIsEarlySum(rs: seq<Record>, m: Month, remainingDays: int)
    requires ValidRecords(rs) && ValidMonth(m) && InMonth(rs, m) != []
    requires 0 <= remainingDays < DaysInMonth(m.year, m.month)
    ensures MonthPartial(rs, m, remainingDays) == SumAmounts(EarlyInMonth(rs, m, EndDay(m, remainingDays)))
  {
    var g, e := InMonth(rs, m), EndDay(m, remainingDays);
    InMonthMembers(rs, m, g[0]);
    InMonthValid(rs, m);
    GroupPartial(g, m, remainingDays);
    WindowOfMonthIsEarly(rs, m, e);
  }

  predicate NonNegative(rs: seq<Record>) {
    forall i :: 0 <= i < |rs| ==> rs[i].amount >= 0
  }

  lemma {:induction false} EarlySumAtMostTotal(rs: seq<Record>, m: Month, endDay: int)
    requires NonNegative(rs)
    ensures SumAmounts(EarlyInMonth(rs, m, endDay)) <= SumAmounts(InMonth(rs, m))
  {
    if rs != [] {
      var init, x := rs[..|rs| - 1], rs[|rs| - 1];
      assert NonNegative(init);
      EarlySumAtMostTotal(init, m, endDay);
      var e, g := EarlyInMonth(init, m, endDay), InMonth(init, m);
      if MonthOf(x.date) == m {
        assert x.amount >= 0;
        assert InMonth(rs, m) == g + [x];
        SumAmountsAppend(g, x);
        if x.date.day <= endDay {
          assert EarlyInMonth(rs, m, endDay) == e + [x];
          SumAmountsAppend(e, x);
        } else {
          assert EarlyInMonth(rs, m, endDay) == e;
        }
      } else {
        assert InMonth(rs, m) == g;
        assert EarlyInMonth(rs, m, endDay) == e;
      }
    }
  }

  /** With non-negative amounts a month's partial never exceeds its total. */
  lemma PartialAtMostTotal(rs: seq<Record>, m: Month, remainingDays: int)
    requires ValidRecords(rs) && ValidMonth(m) && InMonth(rs, m) != []
    requires 0 <= remainingDays < DaysInMonth(m.year, m.month)
    requires NonNegative(rs)
    ensures MonthPartial(rs, m, remainingDays) <= MonthTotal(rs, m)
  {
    PartialIsEarlySum(rs, m, remainingDays);
    EarlySumAtMostTotal(rs, m, EndDay(m, remainingDays));
  }

  lemma {:induction false} WholeMonthIsEarly(rs: seq<Record>, m: Month)
    requires ValidRecords(rs) && ValidMonth(m)
    ensures EarlyInMonth(rs, m, DaysInMonth(m.year, m.month)) == InMonth(rs, m)
  {
    if rs != [] {
      var init := rs[..|rs| - 1];
      assert ValidRecords(init);
      WholeMonthIsEarly(init, m);
      assert ValidDate(rs[|rs| - 1].date);
    }
  }

  /** With no days remaining every month's window is the whole month. */
  lemma PartialIsTotalWhenNoDaysRemain(rs: seq<Record>, m: Month)
    requires ValidRecords(rs) && ValidMonth(m) && InMonth(rs, m) != []
    ensures MonthPartial(rs, m, 0) == MonthTotal(rs, m)
  {
    PartialIsEarlySum(rs, m, 0);
    WholeMonthIsEarly(rs, m);
  }

  /** `calculate_partial_amount` is defined on every bin of `ms`: each bin
      holds a record (an empty bin would have no first row to read the
      month from) and has an end day from 1 to its last day. */
  predicate BinsDefined(rs: seq<Record>, ms: seq<Month>, remainingDays: int) {
    && ValidRecords(rs)
    && 0 <= remainingDays
    && forall m :: m in ms ==>
         && ValidMonth(m) && InMonth(rs, m) != []
         && remainingDays < DaysInMonth(m.year, m.month)
  }

  /** One series row per month of `ms`, carrying that month's partial amount. */
  function PartialTally(rs: seq<Record>, ms: seq<Month>, remainingDays: int): (t: seq<MonthAmount>)
    requires BinsDefined(rs, ms, remainingDays)
    ensures |t| == |ms| && forall i :: 0 <= i < |ms| ==> t[i].month == ms[i]
  {
    seq(|ms|, i requires 0 <= i < |ms| =>
      assert ms[i] in ms;
      MonthAmount(ms[i], MonthPartial(rs, ms[i], remainingDays)))
  }

  /** Row `i` of the partial tally carries the partial amount of month `ms[i]`. */
  lemma PartialTallyRow(rs: seq<Record>, ms: seq<Month>, remainingDays: int, i: int)
    requires BinsDefined(rs, ms, remainingDays) && 0 <= i < |ms|
    ensures ms[i] in ms
    ensures PartialTally(rs, ms, remainingDays)[i] == MonthAmount(ms[i], MonthPartial(rs, ms[i], remainingDays))
  {
  }

  /** The source is defined on these records: `calculate_partial_amount` is
      defined on every bin of the grouping. */
  predicate PartialsDefined(rs: seq<Record>, remainingDays: int) {
    BinsDefined(rs, MonthSpan(rs), remainingDays)
  }

  /** The series `calculate_partial_amounts_by_month` stores. */
  function PartialsByMonth(rs: seq<Record>, remainingDays: int): (p: seq<MonthAmount>)
    requires PartialsDefined(rs, remainingDays)
    ensures |p| == |MonthSpan(rs)|
  {
    PartialTally(rs, MonthSpan(rs), remainingDays)
  }

  /** The partial series has the same months as the total series, in the same
      order; each partial is at most its total when amounts are
      non-negative, and equal to it when no days remain. */
  lemma PartialsAlignWithTotals(rs: seq<Record>, remainingDays: int)
    requires PartialsDefined(rs, remainingDays)
    ensures var p, t := PartialsByMonth(rs, remainingDays), TotalsByMonth(rs);
      && |p| == |t|
      && (forall i :: 0 <= i < |p| ==> p[i].month == t[i].month)
      && (NonNegative(rs) ==> forall i :: 0 <= i < |p| ==> p[i].amount <= t[i].amount)
      && (remainingDays == 0 ==> p == t)
  {
    var p, t, ms := PartialsByMonth(rs, remainingDays), TotalsByMonth(rs), MonthSpan(rs);
    forall i | 0 <= i < |p|
      ensures NonNegative(rs) ==> p[i].amount <= t[i].amount
      ensures remainingDays == 0 ==> p[i] == t[i]
    {
      assert ms[i] in ms;
      if NonNegative(rs) {
        PartialAtMostTotal(rs, ms[i], remainingDays);
      }
      if remainingDays == 0 {
        PartialIsTotalWhenNoDaysRemain(rs, ms[i]);
      }
    }
  }

  /** The grouping holds, for each month of `bins`, exactly that month's
      records, and no key for a month without any. */
  predicate GroupsCover(rs: seq<Record>, groups: map<Month, seq<Record>>, bins: seq<Month>) {
    forall m :: m in bins ==>
      && (m in groups <==> InMonth(rs, m) != [])
      && (m in groups ==> groups[m] == InMonth(rs, m))
  }

  /** `sum` applied to each bin of the month-end grouping: one row per bin,
      a bin with no records summing to 0. */
  method SumEachBin(rs: seq<Record>, groups: map<Month, seq<Record>>, bins: seq<Month>)
    returns (series: seq<MonthAmount>)
    requires GroupsCover(rs, groups, bins)
    ensures series == Tally(rs, bins)
  {
    ghost var expected := Tally(rs, bins);
    series := [];
    for i := 0 to |bins|
      invariant series == expected[..i]
    {
      var m := bins[i];
      assert m in bins;
      var total := if m in groups then SumAmounts(groups[m]) else 0;
      assert MonthAmount(m, total) == expected[i];
      assert expected[..i + 1] == expected[..i] + [expected[i]];
      series := series + [MonthAmount(m, total)];
    }
  }

  /** Every bin's group is non-empty and `calculate_partial_amount` is
      defined on it and yields the bin's row of the partial series. */
  lemma BinPartial(rs: seq<Record>, groups: map<Month, seq<Record>>, bins: seq<Month>, remainingDays: int, i: int)
    requires BinsDefined(rs, bins, remainingDays) && GroupsCover(rs, groups, bins) && 0 <= i < |bins|
    ensures bins[i] in groups
    ensures var g := groups[bins[i]];
      && g != [] && ValidRecords(g) && ValidDate(g[0].date)
      && 0 <= remainingDays < DaysInMonth(g[0].date.year, g[0].date.month)
      && PartialTally(rs, bins, remainingDays)[i] == MonthAmount(bins[i], PartialAmount(g, remainingDays))
      && PartialTally(rs, bins, remainingDays)[..i + 1]
         == PartialTally(rs, bins, remainingDays)[..i] + [MonthAmount(bins[i], PartialAmount(g, remainingDays))]
  {
    var m := bins[i];
    assert m in bins;
    var g := InMonth(rs, m);
    InMonthMembers(rs, m, g[0]);
    InMonthValid(rs, m);
    GroupPartial(g, m, remainingDays);
    SeriesPrefixStep(PartialTally(rs, bins, remainingDays), i);
  }

  /** Extending a prefix of a series by one row. */
  lemma SeriesPrefixStep(s: seq<MonthAmount>, i: int)
    requires 0 <= i < |s|
    ensures s[..i + 1] == s[..i] + [s[i]]
  {
  }

  /** `calculate_partial_amount` applied to each bin of the month-end
      grouping. */
  method PartialOfEachBin(rs: seq<Record>, groups: map<Month, seq<Record>>, bins: seq<Month>, remainingDays: int)
    returns (series: seq<MonthAmount>)
    requires BinsDefined(rs, bins, remainingDays) && GroupsCover(rs, groups, bins)
    ensures series == PartialTally(rs, bins, remainingDays)
  {
    ghost var expected := PartialTally(rs, bins, remainingDays);
    series := [];
    for i := 0 to |bins|
      invariant series == expected[..i]
    {
      BinPartial(rs, groups, bins, remainingDays, i);
      var partial := PartialAmount(groups[bins[i]], remainingDays);
      series := series + [MonthAmount(bins[i], partial)];
    }
  }
}
