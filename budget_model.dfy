/** models/Budget.js: the evaluation of a budget against the transactions of its month
  * (`checkBudget`) and the instance methods that update and delete one. */
module BudgetModel {
  import opened Wrappers
  import opened Arith
  import opened Calendar
  import opened Entities
  import opened Tables
  import opened Store

  /** A transaction is charged to budget `b` when it is an expense of the budget's owner, in
    * exactly the budget's category, dated within the budget's calendar month (both ends
    * included, as `Op.between` does). */
  predicate Charged(b: Budget, t: Transaction) {
    t.userId == b.userId && t.category == b.category && t.kind == Expense
    && InInterval(t.date, MonthInterval(b.year, b.month))
  }

  function ChargedTo(b: Budget): Transaction -> bool {
    t => Charged(b, t)
  }

  /** The `findAll` of `checkBudget`: the transactions charged to `b`, in table order. */
  function ChargedRows(b: Budget, txs: seq<Transaction>): (r: seq<Transaction>)
    ensures forall i :: 0 <= i < |r| ==> r[i] in txs && Charged(b, r[i])
    ensures forall i :: 0 <= i < |txs| && Charged(b, txs[i]) ==> txs[i] in r
  {
    FilterMembers(txs, ChargedTo(b));
    Filter(txs, ChargedTo(b))
  }

  /** `spentAmount`: the `reduce` sum of the charged amounts. */
  function SpentAmount(b: Budget, txs: seq<Transaction>): int {
    Sum(ChargedRows(b, txs), Amount)
  }

  /** `percentageUsed`: `spent / limit * 100` rounded to two decimals, held as hundredths of a
    * percent; a zero limit gives `Infinity` or `NaN`. */
  datatype Percent = NonFinite | Hundredths(value: int)

  /** The object `checkBudget` resolves to. */
  datatype BudgetStatus = BudgetStatus(
    limitAmount: int, spentAmount: int, remainingAmount: int, percentageUsed: Percent, isOverBudget: bool)

  /** `checkBudget()` over the table `txs`. */
  function CheckBudget(b: Budget, txs: seq<Transaction>): (r: BudgetStatus)
    ensures r.limitAmount == b.limitAmount && r.spentAmount == SpentAmount(b, txs)
    ensures r.remainingAmount == r.limitAmount - r.spentAmount
    ensures r.isOverBudget <==> r.spentAmount > r.limitAmount
    ensures r.percentageUsed.NonFinite? <==> b.limitAmount == 0
    ensures b.limitAmount > 0 ==> var v := r.percentageUsed.value;
              2 * b.limitAmount * v - b.limitAmount <= 2 * 10000 * r.spentAmount < 2 * b.limitAmount * v + b.limitAmount
  {
    var spent := SpentAmount(b, txs);
    BudgetStatus(
      b.limitAmount, spent, b.limitAmount - spent,
      if b.limitAmount == 0 then NonFinite else Hundredths(RoundHalfUp(10000 * spent, b.limitAmount)),
      spent > b.limitAmount)
  }

  /** A charged transaction adds its amount to the spent amount; any other transaction, be it
    * income, another category, another user's or another month's, adds nothing. */
  lemma SpentStep(b: Budget, txs: seq<Transaction>, t: Transaction)
    ensures SpentAmount(b, txs + [t]) == SpentAmount(b, txs) + (if Charged(b, t) then t.amount else 0)
  {
    FilterAppend(txs, [t], ChargedTo(b));
    SumAppend(Filter(txs, ChargedTo(b)), Filter([t], ChargedTo(b)), Amount);
    assert [t][..0] == [];
    var tail := Filter([t], ChargedTo(b));
    if Charged(b, t) {
      assert tail == [t];
      assert tail[..0] == [];
    } else {
      assert tail == [];
    }
  }

  /** Income, other categories and other users' transactions never change the spent amount. */
  lemma SpentIgnoresUnrelated(b: Budget, txs: seq<Transaction>, t: Transaction)
    requires t.kind == Income || t.category != b.category || t.userId != b.userId
    ensures CheckBudget(b, txs + [t]) == CheckBudget(b, txs)
  {
    SpentStep(b, txs, t);
  }

  /** The spent amount is the sum over the whole table of the charged amounts, 0 for the rest. */
  lemma SpentIsChargedSum(b: Budget, txs: seq<Transaction>, g: Transaction -> int)
    requires forall t :: g(t) == if Charged(b, t) then t.amount else 0
    ensures SpentAmount(b, txs) == Sum(txs, g)
  {
    SumFilter(txs, ChargedTo(b), Amount, g);
  }

  /** For a valid date the period test is "same calendar month": day 1 to the last day of the
    * month, whatever its length. */
  lemma ChargedIff(b: Budget, t: Transaction)
    requires ValidDate(t.date) && 1 <= b.month <= 12
    ensures Charged(b, t) <==> t.userId == b.userId && t.category == b.category && t.kind == Expense
                               && t.date.year == JsYear(b.year) && t.date.month == b.month
  {
    InMonthIntervalIff(t.date, b.year, b.month);
  }

  /** The period of a February budget ends on the 29th exactly in leap years. */
  lemma FebruaryBudgetPeriod(b: Budget)
    requires b.month == 2 && b.year >= MinBudgetYear
    ensures MonthInterval(b.year, b.month).last.day == (if IsLeapYear(b.year) then 29 else 28)
  {
    FebruaryInterval(b.year);
  }

  /** For a stored budget over stored transactions the percentage is finite and not negative,
    * and a budget spent exactly to its limit is not over it and stands at 100.00 %. */
  lemma PercentageBounds(b: Budget, txs: seq<Transaction>)
    requires ValidBudget(b)
    requires forall i :: 0 <= i < |txs| ==> ValidTransaction(txs[i])
    ensures CheckBudget(b, txs).percentageUsed.Hundredths?
    ensures CheckBudget(b, txs).percentageUsed.value >= 0
    ensures SpentAmount(b, txs) == b.limitAmount ==>
              !CheckBudget(b, txs).isOverBudget && CheckBudget(b, txs).percentageUsed.value == 10000
  {
    var rows := ChargedRows(b, txs);
    forall i | 0 <= i < |rows| ensures Amount(rows[i]) >= 0 {
      assert rows[i] in txs;
    }
    SumNonNegative(rows, Amount);
    RoundHalfUpAtLeast(10000 * SpentAmount(b, txs), b.limitAmount, 0);
    if SpentAmount(b, txs) == b.limitAmount {
      RoundHalfUpAtLeast(10000 * SpentAmount(b, txs), b.limitAmount, 10000);
      RoundHalfUpAtMost(10000 * SpentAmount(b, txs), b.limitAmount, 10000);
    }
  }

  /** The `percentUsed >= 90` alert of the budgets page, on the unrounded ratio: for a positive
    * limit at least 90 % spent; a zero limit gives `Infinity` (alert) for a positive spent
    * amount and `NaN` (no alert) otherwise; a negative limit flips the inequality. */
  predicate NearLimit(s: BudgetStatus) {
    if s.limitAmount > 0 then 100 * s.spentAmount >= 90 * s.limitAmount
    else if s.limitAmount == 0 then s.spentAmount > 0
    else 100 * s.spentAmount <= 90 * s.limitAmount
  }

  /** An over-budget status with a positive limit always raises the alert. */
  lemma OverBudgetIsNearLimit(s: BudgetStatus)
    requires s.limitAmount > 0 && s.spentAmount > s.limitAmount
    ensures NearLimit(s)
  {
  }

  /** The attributes `updateBudget` may copy, in the order of its `allowedFields`. */
  datatype BudgetField = CategoryField | LimitAmountField | MonthField | YearField

  const BudgetFields: seq<BudgetField> := [CategoryField, LimitAmountField, MonthField, YearField]

  /** The argument of `updateBudget`; an absent entry is `undefined`. */
  datatype BudgetData = BudgetData(
    category: Option<string>, limitAmount: Option<int>, month: Option<int>, year: Option<int>)

  function CopyBudgetField(b: Budget, data: BudgetData, f: BudgetField): Budget {
    match f
    case CategoryField => if data.category.Some? then b.(category := data.category.value) else b
    case LimitAmountField => if data.limitAmount.Some? then b.(limitAmount := data.limitAmount.value) else b
    case MonthField => if data.month.Some? then b.(month := data.month.value) else b
    case YearField => if data.year.Some? then b.(year := data.year.value) else b
  }

  function CopyBudgetFields(b: Budget, data: BudgetData, fs: seq<BudgetField>): Budget {
    if fs == [] then b else CopyBudgetField(CopyBudgetFields(b, data, fs[..|fs| - 1]), data, fs[|fs| - 1])
  }

  /** What `updateBudget` promises: each allowed attribute takes the given value when there is one
    * and keeps its own otherwise; the id and the owner never change. */
  predicate BudgetUpdateOf(r: Budget, b: Budget, data: BudgetData) {
    && r.category == (if data.category.Some? then data.category.value else b.category)
    && r.limitAmount == (if data.limitAmount.Some? then data.limitAmount.value else b.limitAmount)
    && r.month == (if data.month.Some? then data.month.value else b.month)
    && r.year == (if data.year.Some? then data.year.value else b.year)
    && r.id == b.id && r.userId == b.userId
  }

  /** Copying the four allowed fields is exactly the promised update. */
  lemma {:induction false} CopyAllBudgetFields(b: Budget, data: BudgetData)
    ensures BudgetUpdateOf(CopyBudgetFields(b, data, BudgetFields), b, data)
  {
    var fs := BudgetFields;
    var b1 := CopyBudgetField(b, data, CategoryField);
    var b2 := CopyBudgetField(b1, data, LimitAmountField);
    var b3 := CopyBudgetField(b2, data, MonthField);
    assert CopyBudgetFields(b, data, fs[..1]) == b1 by { assert fs[..1][..0] == []; }
    assert CopyBudgetFields(b, data, fs[..2]) == b2 by { assert fs[..2][..1] == fs[..1]; }
    assert CopyBudgetFields(b, data, fs[..3]) == b3 by { assert fs[..3][..2] == fs[..2]; }
    assert CopyBudgetFields(b, data, fs) == CopyBudgetField(b3, data, YearField) by {
      assert fs[..|fs| - 1] == fs[..3];
    }
  }

  /** A budget instance: the attribute values of one row, as read and as assigned since. */
  class BudgetInstance {
    var values: Budget

    constructor (row: Budget)
      ensures values == row
    {
      values := row;
    }

    /** `checkBudget()` against the current transactions table. */
    function Check(txs: seq<Transaction>): (r: BudgetStatus)
      reads this
      ensures r.spentAmount == SpentAmount(values, txs) && r.limitAmount == values.limitAmount
    {
      CheckBudget(values, txs)
    }

    /** `save()`: the store's update of this row. */
    method Save(db: Db) returns (r: Result<Budget, StoreError>)
      requires db.Valid()
      modifies db
      ensures db.Valid()
      ensures Step(r, db.state) == SaveBudget(old(db.state), values)
    {
      r := db.UpdateBudget(values);
    }

    /** `updateBudget(budgetData)`, and Sequelize's own `update(values)`, which sets the defined
      * entries the same way: the allowed fields are copied one by one, then saved. */
    method UpdateBudget(data: BudgetData, db: Db) returns (r: Result<Budget, StoreError>)
      requires db.Valid()
      modifies this, db
      ensures db.Valid()
      ensures BudgetUpdateOf(values, old(values), data)
      ensures Step(r, db.state) == SaveBudget(old(db.state), values)
    {
      var i := 0;
      while i < |BudgetFields|
        invariant 0 <= i <= |BudgetFields|
        invariant values == CopyBudgetFields(old(values), data, BudgetFields[..i])
        invariant db.state == old(db.state)
      {
        assert BudgetFields[..i + 1][..i] == BudgetFields[..i];
        values := CopyBudgetField(values, data, BudgetFields[i]);
        i := i + 1;
      }
      assert BudgetFields[..i] == BudgetFields;
      CopyAllBudgetFields(old(values), data);
      r := Save(db);
    }

    /** `deleteBudget()` / `destroy()`: the row with this id leaves the table. */
    method DeleteBudget(db: Db)
      requires db.Valid()
      modifies db
      ensures db.Valid()
      ensures db.state == old(db.state).(budgets := Filter(old(db.state.budgets), IdIsNot(BudgetId, values.id)))
    {
      db.DeleteBudget(values.id);
    }
  }
}
