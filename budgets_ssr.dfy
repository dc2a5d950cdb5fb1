/** routes/budgets-ssr.js: the budgets page with its totals and alert count, and the form
  * handlers that create, replace and delete a budget of the session's user. */
module BudgetsSsr {
  import opened Wrappers
  import Text
  import opened Forms
  import opened Entities
  import opened Tables
  import opened Ordering
  import opened Store
  import opened BudgetModel
  import opened BudgetController

  /** The year floor of this page's `POST`. */
  const SsrYearFloor: int := 2020

  /** `order: [["year", "DESC"], ["month", "DESC"], ["category", "ASC"]]`, ties in creation
    * order. The order of the category column is the database's collation: `collate` gives each
    * category its rank in it. */
  function ManageKey(collate: string -> int): Budget -> Key {
    (b: Budget) => Key(-b.year, -b.month, collate(b.category), b.id)
  }

  /** `x` may come before `y` in the page's order: a later period first, then the category in
    * collation order. */
  predicate ManageBefore(x: Budget, y: Budget, collate: string -> int) {
    x.year > y.year
    || (x.year == y.year && (x.month > y.month || (x.month == y.month && collate(x.category) <= collate(y.category))))
  }

  function OwnedBy(userId: nat): Budget -> bool {
    (x: Budget) => x.userId == userId
  }

  /** The `stats` object of the page. */
  datatype Totals = Totals(totalBudgets: nat, totalBudgetAmount: int, totalSpentAmount: int, totalAlerts: nat)

  /** The `forEach` over the statuses: the two sums and the alerts at 90 % or more. */
  method ManageTotals(statuses: seq<BudgetStatus>) returns (t: Totals)
    ensures t.totalBudgets == |statuses|
    ensures t.totalBudgetAmount == Sum(statuses, LimitOf)
    ensures t.totalSpentAmount == Sum(statuses, SpentOf)
    ensures t.totalAlerts == Count(statuses, NearLimit)
  {
    var totalBudgetAmount, totalSpentAmount, totalAlerts := 0, 0, 0;
    var i := 0;
    while i < |statuses|
      invariant 0 <= i <= |statuses|
      invariant totalBudgetAmount == Sum(statuses[..i], LimitOf)
      invariant totalSpentAmount == Sum(statuses[..i], SpentOf)
      invariant totalAlerts == Count(statuses[..i], NearLimit)
    {
      SumPrefixStep(statuses, i, LimitOf);
      SumPrefixStep(statuses, i, SpentOf);
      CountPrefixStep(statuses, i, NearLimit);
      totalBudgetAmount := totalBudgetAmount + statuses[i].limitAmount;
      totalSpentAmount := totalSpentAmount + statuses[i].spentAmount;
      if NearLimit(statuses[i]) {
        totalAlerts := totalAlerts + 1;
      }
      i := i + 1;
    }
    assert statuses[..i] == statuses;
    t := Totals(|statuses|, totalBudgetAmount, totalSpentAmount, totalAlerts);
  }

  /** What the page renders. */
  datatype ManagePage = ManagePage(budgets: seq<Budget>, statuses: seq<BudgetStatus>, totals: Totals)

  /** `GET /budgets` over a database state: all of the user's budgets, latest period first and
    * by category within a period, each with its status, and the totals over all of them. */
  function ManageOf(st: DbState, userId: nat, collate: string -> int): (r: ManagePage)
    ensures multiset(r.budgets) == multiset(Filter(st.budgets, OwnedBy(userId)))
    ensures forall i :: 0 <= i < |r.budgets| ==> r.budgets[i] in st.budgets && r.budgets[i].userId == userId
    ensures forall i :: 0 <= i < |st.budgets| && st.budgets[i].userId == userId ==> st.budgets[i] in r.budgets
    ensures forall i, j :: 0 <= i < j < |r.budgets| ==> ManageBefore(r.budgets[i], r.budgets[j], collate)
    ensures SortedBy(r.budgets, ManageKey(collate), Asc)
    ensures |r.statuses| == |r.budgets|
    ensures forall i :: 0 <= i < |r.statuses| ==> r.statuses[i] == CheckBudget(r.budgets[i], st.transactions)
    ensures r.totals.totalBudgets == |r.budgets|
    ensures r.totals.totalBudgetAmount == Sum(r.statuses, LimitOf)
    ensures r.totals.totalSpentAmount == Sum(r.statuses, SpentOf)
    ensures r.totals.totalAlerts == Count(r.statuses, NearLimit) <= r.totals.totalBudgets
  {
    var budgets := SortBy(Filter(st.budgets, OwnedBy(userId)), ManageKey(collate), Asc);
    SortedRows(st.budgets, OwnedBy(userId), ManageKey(collate), Asc);
    LatestPeriodFirst(budgets, collate);
    var statuses := StatusesOf(budgets, st.transactions);
    CountIsFilterLength(statuses, NearLimit);
    ManagePage(budgets, statuses,
               Totals(|budgets|, Sum(statuses, LimitOf), Sum(statuses, SpentOf), Count(statuses, NearLimit)))
  }

  /** Sorted on `ManageKey`, the budgets run from the latest period to the earliest, and by
    * category within a period. */
  lemma LatestPeriodFirst(budgets: seq<Budget>, collate: string -> int)
    requires SortedBy(budgets, ManageKey(collate), Asc)
    ensures forall i, j :: 0 <= i < j < |budgets| ==> ManageBefore(budgets[i], budgets[j], collate)
  {
    forall i, j | 0 <= i < j < |budgets| ensures ManageBefore(budgets[i], budgets[j], collate) {
      assert Before(ManageKey(collate)(budgets[i]), ManageKey(collate)(budgets[j]), Asc);
    }
  }

  /** `GET /budgets`. */
  method Manage(db: Db, userId: nat, collate: string -> int) returns (page: ManagePage)
    ensures page == ManageOf(db.state, userId, collate)
  {
    var budgets := SortBy(Filter(db.state.budgets, OwnedBy(userId)), ManageKey(collate), Asc);
    var statuses := StatusesOf(budgets, db.state.transactions);
    var totals := ManageTotals(statuses);
    page := ManagePage(budgets, statuses, totals);
  }

  /** Over stored budgets every budget over its limit is also counted as an alert. */
  lemma AlertsIncludeOverBudget(st: DbState, userId: nat, collate: string -> int)
    requires forall i :: 0 <= i < |st.budgets| ==> ValidBudget(st.budgets[i])
    ensures Count(ManageOf(st, userId, collate).statuses, IsOver) <= ManageOf(st, userId, collate).totals.totalAlerts
  {
    var page := ManageOf(st, userId, collate);
    var statuses := page.statuses;
    forall i | 0 <= i < |statuses| && IsOver(statuses[i]) ensures NearLimit(statuses[i]) {
      assert page.budgets[i] in st.budgets;
      OverBudgetIsNearLimit(statuses[i]);
    }
    CountMono(statuses, IsOver, NearLimit);
  }

  /** `POST /budgets`: the controller's guard chain with the year floor 2020. */
  method Post(db: Db, userId: nat, b: BudgetBody) returns (r: Outcome)
    requires db.Valid()
    modifies db
    ensures db.Valid()
    ensures Handled(r, db.state) == CreateOf(old(db.state), userId, b, SsrYearFloor)
  {
    r := AddBudget(db, userId, b, SsrYearFloor);
  }

  /** The two floors disagree: a budget for 2022 is refused by the controller and accepted by
    * this page, on the same database. */
  lemma YearFloorsDiffer(st: DbState, userId: nat)
    requires HasUser(st.users, userId) && !SlotTaken(st.budgets, Budget(0, userId, "Courses", 0, 5, 2022))
    ensures var b := BudgetBody(Some("Courses"), Given(30000), Given(5), Given(2022));
      CreateOf(st, userId, b, ControllerYearFloor).outcome == InvalidPeriod
      && CreateOf(st, userId, b, SsrYearFloor).outcome.Created?
  {
    var b := BudgetBody(Some("Courses"), Given(30000), Given(5), Given(2022));
    assert !LimitRejected(b) && PeriodRejected(b, ControllerYearFloor);
    CoursesBudgetAccepted(st, userId);
  }

  /** The 2022 budget of `YearFloorsDiffer` passes every check of this page's create. */
  lemma CoursesBudgetAccepted(st: DbState, userId: nat)
    requires HasUser(st.users, userId) && !SlotTaken(st.budgets, Budget(0, userId, "Courses", 0, 5, 2022))
    ensures CreateAccepted(st, userId, BudgetBody(Some("Courses"), Given(30000), Given(5), Given(2022)), SsrYearFloor)
  {
    var row := Budget(st.nextId, userId, "Courses", 30000, 5, 2022);
    var c := "Courses";
    assert Text.Trim(c) == c by {
      assert !Text.IsSpace(c[0]) && !Text.IsSpace(c[|c| - 1]);
      assert Text.TrimStart(c) == c;
    }
    assert ValidBudget(row);
    assert !SlotTaken(st.budgets, row) by {
      forall k | 0 <= k < |st.budgets| ensures !SameSlot(st.budgets[k], row) {
        assert !SameSlot(st.budgets[k], Budget(0, userId, "Courses", 0, 5, 2022));
      }
    }
  }

  /** The replacement of `PUT /budgets/:id`: all four fields set from the body. */
  function Replaced(found: Budget, b: BudgetBody): Budget
    requires b.category.Some? && b.limitAmount.Given? && b.month.Given? && b.year.Given?
  {
    found.(category := b.category.value, limitAmount := b.limitAmount.n, month := b.month.n, year := b.year.n)
  }

  /** `PUT /budgets/:id` over a database state: ownership is checked before anything else, then
    * the category and limit; the four fields are then set together, a `NaN` among them failing
    * the validation of `save`. */
  function PutOf(st: DbState, userId: nat, id: nat, b: BudgetBody): (r: Handled)
    ensures OwnedBudget(st.budgets, id, userId).None? ==> r == Handled(NotFound, st)
    ensures OwnedBudget(st.budgets, id, userId).Some? && LimitRejected(b) ==> r == Handled(MissingFields, st)
    ensures OwnedBudget(st.budgets, id, userId).Some? && !LimitRejected(b) ==>
              (r.outcome.Updated? <==>
                 && b.limitAmount.Given? && b.month.Given? && b.year.Given?
                 && var e := Replaced(OwnedBudget(st.budgets, id, userId).value, b);
                    && ValidBudget(e)
                    && !OtherRow(st.budgets, IndexWhere(st.budgets, IdIs(BudgetId, id)), InSlotOf(e))
                    && HasUser(st.users, userId))
    ensures r.outcome.Updated? ==>
              && OwnedBudget(st.budgets, id, userId).Some? && !LimitRejected(b)
              && b.limitAmount.Given? && b.month.Given? && b.year.Given?
              && r.outcome.budget == Replaced(OwnedBudget(st.budgets, id, userId).value, b)
              && r.outcome.budget.id == id && r.outcome.budget.userId == userId
              && ValidBudget(r.outcome.budget)
              && 0 <= IndexWhere(st.budgets, IdIs(BudgetId, id))
              && r.after == st.(budgets := st.budgets[IndexWhere(st.budgets, IdIs(BudgetId, id)) := r.outcome.budget])
    ensures !r.outcome.Updated? ==> r.after == st
  {
    var found := OwnedBudget(st.budgets, id, userId);
    if found.None? then Handled(NotFound, st)
    else if LimitRejected(b) then Handled(MissingFields, st)
    else if !b.limitAmount.Given? || !b.month.Given? || !b.year.Given? then Handled(Failed, st)
    else
      var row := Replaced(found.value, b);
      var s := SaveBudget(st, row);
      if s.result.Ok? then
        RowIsIndexed(st.budgets, BudgetId, found.value);
        Handled(Updated(s.result.value), s.after)
      else Handled(Failed, st)
  }

  /** `PUT /budgets/:id`. */
  method Put(db: Db, userId: nat, id: nat, b: BudgetBody) returns (r: Outcome)
    requires db.Valid()
    modifies db
    ensures db.Valid()
    ensures Handled(r, db.state) == PutOf(old(db.state), userId, id, b)
  {
    var found := OwnedBudget(db.state.budgets, id, userId);
    if found.None? {
      return NotFound;
    }
    if LimitRejected(b) {
      return MissingFields;
    }
    if !b.limitAmount.Given? || !b.month.Given? || !b.year.Given? {
      return Failed;
    }
    var data := BudgetData(b.category, Some(b.limitAmount.n), Some(b.month.n), Some(b.year.n));
    var instance := new BudgetInstance(found.value);
    var saved := instance.UpdateBudget(data, db);
    r := if saved.Ok? then Updated(saved.value) else Failed;
  }

  /** `DELETE /budgets/:id`: the controller's owner-scoped delete. */
  method Delete(db: Db, userId: nat, id: nat) returns (r: Outcome)
    requires db.Valid()
    modifies db
    ensures db.Valid()
    ensures Handled(r, db.state) == DeleteOf(old(db.state), userId, id)
  {
    r := BudgetController.Delete(db, userId, id);
  }
}
