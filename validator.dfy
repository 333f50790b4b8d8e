/** The schema gate `validate_transactions_columns`: three presence checks,
    then three dtype checks, in a fixed order; the first that fails decides
    the exception. */
module Validator {
  import opened Errors
  import opened Frames
  import Loader

  predicate HasDate(f: Frame) { TransactionDate in Names(f) }
  predicate HasId(f: Frame) { TransactionId in Names(f) }
  predicate HasAmount(f: Frame) { TransactionAmount in Names(f) }

  /** `is_datetime64_dtype` of the date column. */
  predicate DateIsTemporal(f: Frame) requires HasDate(f) {
    ColumnNamed(f, TransactionDate).dtype == DateTime64
  }

  /** `is_object_dtype` of the id column. */
  predicate IdIsObject(f: Frame) requires HasId(f) {
    ColumnNamed(f, TransactionId).dtype == Object
  }

  /** `is_integer_dtype` of the amount column. */
  predicate AmountIsInteger(f: Frame) requires HasAmount(f) {
    ColumnNamed(f, TransactionAmount).dtype == Int64
  }

  /** All six conditions hold. */
  predicate Conforms(f: Frame) {
    && HasDate(f) && HasId(f) && HasAmount(f)
    && DateIsTemporal(f) && IdIsObject(f) && AmountIsInteger(f)
  }

  /** The exception the checks raise, if any. Each kind is raised exactly when
      its own condition fails and every earlier one holds. */
  function Validate(f: Frame): (r: Outcome)
    ensures r == Pass <==> Conforms(f)
    ensures r == Fail(NoTransactionDate) <==> !HasDate(f)
    ensures r == Fail(NoTransactionId) <==> HasDate(f) && !HasId(f)
    ensures r == Fail(NoTransactionAmount) <==> HasDate(f) && HasId(f) && !HasAmount(f)
    ensures r == Fail(WrongTransactionDateType) <==>
      HasDate(f) && HasId(f) && HasAmount(f) && !DateIsTemporal(f)
    ensures r == Fail(WrongTransactionIdType) <==>
      HasDate(f) && HasId(f) && HasAmount(f) && DateIsTemporal(f) && !IdIsObject(f)
    ensures r == Fail(WrongTransactionAmountType) <==>
      HasDate(f) && HasId(f) && HasAmount(f) && DateIsTemporal(f) && IdIsObject(f) && !AmountIsInteger(f)
    ensures r.Fail? ==> r.error !in {FileNotFound, EmptyDataFrame}
  {
    if !HasDate(f) then Fail(NoTransactionDate)
    else if !HasId(f) then Fail(NoTransactionId)
    else if !HasAmount(f) then Fail(NoTransactionAmount)
    else if !DateIsTemporal(f) then Fail(WrongTransactionDateType)
    else if !IdIsObject(f) then Fail(WrongTransactionIdType)
    else if !AmountIsInteger(f) then Fail(WrongTransactionAmountType)
    else Pass
  }

  /** Once a table has loaded, its date column (if any) already holds
      timestamps, so the fourth check can only fire on a table that did not
      come through the loader. */
  lemma LoadedDatesAreTemporal(src: Loader.Source)
    requires Loader.Load(src).Success?
    ensures Validate(Loader.Load(src).value) != Fail(WrongTransactionDateType)
  {
    var f := Loader.Load(src).value;
    if HasDate(f) {
      assert TransactionDate in Names(f);
      assert DateIsTemporal(f);
    }
  }
}
