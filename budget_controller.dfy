/** controllers/BudgetController.js: creation with its guard chain and duplicate check, the
  * partial update of an owned budget, its deletion, and the dashboard roll-up of the budgets of
  * the current month. The session's user id and the current date are parameters. */
module BudgetController {
  import opened Wrappers
  import opened Calendar
  import opened Forms
  import opened Entities
  import opened Tables
  import opened Store
  import opened BudgetModel

  /** The year floor of this controller's `create`. */
  const ControllerYearFloor: int := 2024

  /** The request body of a create or an update. */
  datatype BudgetBody = BudgetBody(category: Option<string>, limitAmount: NumInput, month: NumInput, year: NumInput)

  /** `!category || !limitAmount || parseFloat(limitAmount) <= 0`. A limit that does not parse
    * is `NaN`, which this comparison lets through. */
  predicate LimitRejected(b: BudgetBody) {
    !Truthy(b.category) || !NumTruthy(b.limitAmount) || Le(Parse(b.limitAmount), 0)
  }

  /** `!month || !year || parseInt(month) < 1 || parseInt(month) > 12 || parseInt(year) < floor`;
    * a `NaN` month or year passes it too. */
  predicate PeriodRejected(b: BudgetBody, yearFloor: int) {
    !NumTruthy(b.month) || !NumTruthy(b.year)
    || Lt(Parse(b.month), 1) || Gt(Parse(b.month), 12) || Lt(Parse(b.year), yearFloor)
  }

  /** What a handler answers: the created, updated or deleted budget; the two validation
    * messages; the duplicate message; not found (or not owned); the generic error of its
    * `catch`. */
  datatype Outcome =
    | Created(budget: Budget)
    | Updated(budget: Budget)
    | Deleted
    | MissingFields
    | InvalidPeriod
    | Duplicate
    | NotFound
    | Failed

  /** An answer and the database after it. */
  datatype Handled = Handled(outcome: Outcome, after: DbState)

  /** The budget a create inserts, once every guard has passed. */
  predicate CreateAccepted(st: DbState, userId: nat, b: BudgetBody, yearFloor: int) {
    && !LimitRejected(b) && !PeriodRejected(b, yearFloor)
    && b.limitAmount.Given? && b.month.Given? && b.year.Given?
    && var row := Budget(st.nextId, userId, b.category.value, b.limitAmount.n, b.month.n, b.year.n);
       ValidBudget(row) && !SlotTaken(st.budgets, row) && HasUser(st.users, userId)
  }

  /** The create handler over a database state: the two guards in order, the slot lookup, then
    * `Budget.create`, whose unique-index failure is reported as a duplicate and any other
    * failure as the generic error. A `NaN` month or year matches no slot; a `NaN` month, year
    * or limit passes the `min`/`max` validators and is refused by the store, which the handler
    * reports as the generic error. */
  function CreateOf(st: DbState, userId: nat, b: BudgetBody, yearFloor: int): (r: Handled)
    ensures LimitRejected(b) ==> r == Handled(MissingFields, st)
    ensures !LimitRejected(b) && PeriodRejected(b, yearFloor) ==> r == Handled(InvalidPeriod, st)
    ensures !LimitRejected(b) && !PeriodRejected(b, yearFloor) && b.month.Given? && b.year.Given?
            && SlotTaken(st.budgets, Budget(0, userId, b.category.value, 0, b.month.n, b.year.n)) ==>
              r == Handled(Duplicate, st)
    ensures r.outcome.Created? <==> CreateAccepted(st, userId, b, yearFloor)
    ensures r.outcome.Created? ==>
              && r.outcome.budget == Budget(st.nextId, userId, b.category.value, b.limitAmount.n, b.month.n, b.year.n)
              && r.outcome.budget.year >= yearFloor
              && r.after == st.(budgets := st.budgets + [r.outcome.budget], nextId := st.nextId + 1)
    ensures !r.outcome.Created? ==> r.after == st
  {
    if LimitRejected(b) then Handled(MissingFields, st)
    else if PeriodRejected(b, yearFloor) then Handled(InvalidPeriod, st)
    else if !b.month.Given? || !b.year.Given? then Handled(Failed, st)
    else if SlotTaken(st.budgets, Budget(0, userId, b.category.value, 0, b.month.n, b.year.n)) then Handled(Duplicate, st)
    else if !b.limitAmount.Given? then Handled(Failed, st)
    else
      var s := CreateBudget(st, userId, b.category.value, b.limitAmount.n, b.month.n, b.year.n);
      if s.result.Ok? then Handled(Created(s.result.value), s.after)
      else if s.result.error == UniqueViolation then Handled(Duplicate, st)
      else Handled(Failed, st)
  }

  /** A create keeps the unique index: no two budgets ever share a slot. */
  lemma CreateKeepsSlotsUnique(st: DbState, userId: nat, b: BudgetBody, yearFloor: int)
    requires SlotsUnique(st.budgets)
    ensures SlotsUnique(CreateOf(st, userId, b, yearFloor).after.budgets)
  {
    var r := CreateOf(st, userId, b, yearFloor);
    if r.outcome.Created? {
      SlotsUniqueAppend(st.budgets, r.outcome.budget);
    }
  }

  /** The guard chain and insert shared by this controller's `create` and the budgets page's
    * `POST`, which differ only in their year floor. */
  method AddBudget(db: Db, userId: nat, b: BudgetBody, yearFloor: int) returns (r: Outcome)
    requires db.Valid()
    modifies db
    ensures db.Valid()
    ensures Handled(r, db.state) == CreateOf(old(db.state), userId, b, yearFloor)
  {
    if LimitRejected(b) {
      return MissingFields;
    }
    if PeriodRejected(b, yearFloor) {
      return InvalidPeriod;
    }
    if !b.month.Given? || !b.year.Given? {
      return Failed;
    }
    var existing := db.FindBudgetSlot(userId, b.category.value, b.month.n, b.year.n);
    if existing.Some? {
      return Duplicate;
    }
    if !b.limitAmount.Given? {
      return Failed;
    }
    var created := db.InsertBudget(userId, b.category.value, b.limitAmount.n, b.month.n, b.year.n);
    if created.Ok? {
      r := Created(created.value);
    } else if created.error == UniqueViolation {
      r := Duplicate;
    } else {
      r := Failed;
    }
  }

  /** `POST /` of routes/budgets.js. */
  method Create(db: Db, userId: nat, b: BudgetBody) returns (r: Outcome)
    requires db.Valid()
    modifies db
    ensures db.Valid()
    ensures Handled(r, db.state) == CreateOf(old(db.state), userId, b, ControllerYearFloor)
  {
    r := AddBudget(db, userId, b, ControllerYearFloor);
  }

  function OwnedIs(id: nat, userId: nat): Budget -> bool {
    (x: Budget) => x.id == id && x.userId == userId
  }

  /** `Budget.findOne({ where: { id, userId } })`. */
  function OwnedBudget(budgets: seq<Budget>, id: nat, userId: nat): (r: Option<Budget>)
    ensures r.Some? ==> r.value in budgets && r.value.id == id && r.value.userId == userId
    ensures r.None? <==> forall i :: 0 <= i < |budgets| ==> !(budgets[i].id == id && budgets[i].userId == userId)
  {
    FindFirst(budgets, OwnedIs(id, userId))
  }

  /** A truthy field that does not parse sets `NaN`, which the store refuses on `save`. */
  predicate NaNField(b: BudgetBody) {
    b.limitAmount.Malformed? || b.month.Malformed? || b.year.Malformed?
  }

  /** `updateData`: each truthy field of the body, and nothing for the others. */
  function UpdateDataOf(b: BudgetBody): (d: BudgetData)
    ensures d.category.Some? <==> Truthy(b.category)
    ensures d.limitAmount.Some? <==> b.limitAmount.Given?
    ensures d.month.Some? <==> b.month.Given?
    ensures d.year.Some? <==> b.year.Given?
  {
    BudgetData(
      if Truthy(b.category) then b.category else None,
      if b.limitAmount.Given? then Some(b.limitAmount.n) else None,
      if b.month.Given? then Some(b.month.n) else None,
      if b.year.Given? then Some(b.year.n) else None)
  }

  /** The owned row with the truthy fields of the body copied over it. */
  function EditedBudget(found: Budget, b: BudgetBody): (r: Budget)
    ensures BudgetUpdateOf(r, found, UpdateDataOf(b))
  {
    CopyAllBudgetFields(found, UpdateDataOf(b));
    CopyBudgetFields(found, UpdateDataOf(b), BudgetFields)
  }

  /** The update handler over a database state: an id the user does not own is not found;
    * otherwise the truthy fields are copied and saved, every failure being the generic error.
    * The update goes through exactly when no field is `NaN`, the edited row is valid, no other
    * row holds its slot and its owner exists. */
  function UpdateOf(st: DbState, userId: nat, id: nat, b: BudgetBody): (r: Handled)
    ensures OwnedBudget(st.budgets, id, userId).None? ==> r == Handled(NotFound, st)
    ensures OwnedBudget(st.budgets, id, userId).Some? ==>
              var e := EditedBudget(OwnedBudget(st.budgets, id, userId).value, b);
              (r.outcome.Updated? <==>
                 && !NaNField(b)
                 && ValidBudget(e)
                 && !OtherRow(st.budgets, IndexWhere(st.budgets, IdIs(BudgetId, id)), InSlotOf(e))
                 && HasUser(st.users, userId))
    ensures r.outcome.Updated? ==>
              && OwnedBudget(st.budgets, id, userId).Some?
              && BudgetUpdateOf(r.outcome.budget, OwnedBudget(st.budgets, id, userId).value, UpdateDataOf(b))
              && ValidBudget(r.outcome.budget)
              && 0 <= IndexWhere(st.budgets, IdIs(BudgetId, id))
              && r.after == st.(budgets := st.budgets[IndexWhere(st.budgets, IdIs(BudgetId, id)) := r.outcome.budget])
    ensures !r.outcome.Updated? ==> r.after == st
    ensures r.outcome.Updated? || r.outcome == NotFound || r.outcome == Failed
  {
    var found := OwnedBudget(st.budgets, id, userId);
    if found.None? then Handled(NotFound, st)
    else if NaNField(b) then Handled(Failed, st)
    else
      var row := EditedBudget(found.value, b);
      var s := SaveBudget(st, row);
      if s.result.Ok? then
        RowIsIndexed(st.budgets, BudgetId, found.value);
        Handled(Updated(s.result.value), s.after)
      else Handled(Failed, st)
  }

  /** `PUT /:id` of routes/budgets.js. */
  method Update(db: Db, userId: nat, id: nat, b: BudgetBody) returns (r: Outcome)
    requires db.Valid()
    modifies db
    ensures db.Valid()
    ensures Handled(r, db.state) == UpdateOf(old(db.state), userId, id, b)
  {
    var found := OwnedBudget(db.state.budgets, id, userId);
    if found.None? {
      return NotFound;
    }
    if NaNField(b) {
      return Failed;
    }
    var data := UpdateDataOf(b);
    var instance := new BudgetInstance(found.value);
    CopyAllBudgetFields(found.value, data);
    var saved := instance.UpdateBudget(data, db);
    r := if saved.Ok? then Updated(saved.value) else Failed;
  }

  /** The delete handler over a database state: the owned budget with that id leaves the table;
    * an id the user does not own changes nothing. */
  function DeleteOf(st: DbState, userId: nat, id: nat): (r: Handled)
    ensures r.outcome == Deleted <==> OwnedBudget(st.budgets, id, userId).Some?
    ensures r.outcome != Deleted ==> r == Handled(NotFound, st)
    ensures r.outcome == Deleted ==> r.after == st.(budgets := r.after.budgets)
  {
    if OwnedBudget(st.budgets, id, userId).None? then Handled(NotFound, st)
    else Handled(Deleted, st.(budgets := Filter(st.budgets, IdIsNot(BudgetId, id))))
  }

  /** A deletion removes the rows with that id and keeps every other row. */
  lemma DeleteKeepsOtherRows(st: DbState, userId: nat, id: nat)
    requires DeleteOf(st, userId, id).outcome == Deleted
    ensures var after := DeleteOf(st, userId, id).after.budgets;
            && (forall i :: 0 <= i < |after| ==> after[i].id != id && after[i] in st.budgets)
            && (forall i :: 0 <= i < |st.budgets| && st.budgets[i].id != id ==> st.budgets[i] in after)
  {
    FilterMembers(st.budgets, IdIsNot(BudgetId, id));
  }

  /** `DELETE /:id` of routes/budgets.js. */
  method Delete(db: Db, userId: nat, id: nat) returns (r: Outcome)
    requires db.Valid()
    modifies db
    ensures db.Valid()
    ensures Handled(r, db.state) == DeleteOf(old(db.state), userId, id)
  {
    var found := OwnedBudget(db.state.budgets, id, userId);
    if found.None? {
      return NotFound;
    }
    db.DeleteBudget(id);
    r := Deleted;
  }

  function LimitOf(s: BudgetStatus): int { s.limitAmount }
  function SpentOf(s: BudgetStatus): int { s.spentAmount }
  function IsOver(s: BudgetStatus): bool { s.isOverBudget }

  /** The accumulation loop over the statuses: the limit total, the spent total and the number
    * of budgets over their limit. */
  method Accumulate(statuses: seq<BudgetStatus>) returns (totalBudget: int, totalSpent: int, overLimit: nat)
    ensures totalBudget == Sum(statuses, LimitOf)
    ensures totalSpent == Sum(statuses, SpentOf)
    ensures overLimit == Count(statuses, IsOver)
  {
    totalBudget, totalSpent, overLimit := 0, 0, 0;
    var i := 0;
    while i < |statuses|
      invariant 0 <= i <= |statuses|
      invariant totalBudget == Sum(statuses[..i], LimitOf)
      invariant totalSpent == Sum(statuses[..i], SpentOf)
      invariant overLimit == Count(statuses[..i], IsOver)
    {
      SumPrefixStep(statuses, i, LimitOf);
      SumPrefixStep(statuses, i, SpentOf);
      CountPrefixStep(statuses, i, IsOver);
      totalBudget := totalBudget + statuses[i].limitAmount;
      totalSpent := totalSpent + statuses[i].spentAmount;
      if statuses[i].isOverBudget {
        overLimit := overLimit + 1;
      }
      i := i + 1;
    }
    assert statuses[..i] == statuses;
  }

  /** When the spending of a set of budgets exceeds their limits in total, at least one of them is
    * over its own limit. */
  lemma {:induction false} OverspentHasOverBudget(statuses: seq<BudgetStatus>)
    requires forall i :: 0 <= i < |statuses| ==> (statuses[i].isOverBudget <==> statuses[i].spentAmount > statuses[i].limitAmount)
    ensures Sum(statuses, SpentOf) > Sum(statuses, LimitOf) ==> Count(statuses, IsOver) > 0
  {
    if statuses != [] {
      OverspentHasOverBudget(statuses[..|statuses| - 1]);
    }
  }

  /** `getBudget` and `getStats`: the owned budget with that id and its `checkBudget()` status,
    * or nothing (the 404) when the user owns no budget with that id. */
  function BudgetWithStats(st: DbState, userId: nat, id: nat): (r: Option<(Budget, BudgetStatus)>)
    ensures r.None? <==> forall i :: 0 <= i < |st.budgets| ==> !(st.budgets[i].id == id && st.budgets[i].userId == userId)
    ensures r.Some? ==> var (b, s) := r.value;
              && b in st.budgets && b.id == id && b.userId == userId
              && s.spentAmount == SpentAmount(b, st.transactions) && s.limitAmount == b.limitAmount
              && (s.isOverBudget <==> s.spentAmount > s.limitAmount)
    ensures r.Some? ==> r.value.1 == CheckBudget(r.value.0, st.transactions)
  {
    var found := OwnedBudget(st.budgets, id, userId);
    if found.None? then None else Some((found.value, CheckBudget(found.value, st.transactions)))
  }

  /** The budgets of the user for the given calendar month. */
  function InPeriod(userId: nat, month: int, year: int): Budget -> bool {
    (x: Budget) => x.userId == userId && x.month == month && x.year == year
  }

  /** The object `getDashboardStats` answers with. */
  datatype DashboardStats = DashboardStats(
    totalBudgets: nat, totalBudget: int, totalSpent: int, totalRemaining: int, budgetsOverLimit: nat,
    budgets: seq<Budget>, statuses: seq<BudgetStatus>)

  /** The statuses of `budgets`, one per budget, against the transactions `txs`. */
  function StatusesOf(budgets: seq<Budget>, txs: seq<Transaction>): (r: seq<BudgetStatus>)
    ensures |r| == |budgets|
    ensures forall i :: 0 <= i < |r| ==> r[i] == CheckBudget(budgets[i], txs)
  {
    seq(|budgets|, i requires 0 <= i < |budgets| => CheckBudget(budgets[i], txs))
  }

  /** `getDashboardStats` over a database state, `today` being `new Date()`: the budgets of the
    * user for the current month and year, their totals, what remains, and how many are over. */
  function DashboardStatsOf(st: DbState, userId: nat, today: Date): (r: DashboardStats)
    ensures forall i :: 0 <= i < |r.budgets| ==>
              r.budgets[i] in st.budgets && r.budgets[i].userId == userId
              && r.budgets[i].month == today.month && r.budgets[i].year == today.year
    ensures forall i :: 0 <= i < |st.budgets| && InPeriod(userId, today.month, today.year)(st.budgets[i]) ==>
              st.budgets[i] in r.budgets
    ensures r.totalBudgets == |r.budgets| == |r.statuses|
    ensures forall i :: 0 <= i < |r.statuses| ==> r.statuses[i] == CheckBudget(r.budgets[i], st.transactions)
    ensures r.totalBudget == Sum(r.statuses, LimitOf) && r.totalSpent == Sum(r.statuses, SpentOf)
    ensures r.totalRemaining == r.totalBudget - r.totalSpent
    ensures r.budgetsOverLimit == Count(r.statuses, IsOver) <= r.totalBudgets
    ensures r.totalRemaining < 0 ==> r.budgetsOverLimit > 0
  {
    var budgets := Filter(st.budgets, InPeriod(userId, today.month, today.year));
    FilterMembers(st.budgets, InPeriod(userId, today.month, today.year));
    var statuses := StatusesOf(budgets, st.transactions);
    OverspentHasOverBudget(statuses);
    CountIsFilterLength(statuses, IsOver);
    var total := Sum(statuses, LimitOf);
    var spent := Sum(statuses, SpentOf);
    DashboardStats(|budgets|, total, spent, total - spent, Count(statuses, IsOver), budgets, statuses)
  }

  /** `GET /dashboard/stats` of routes/budgets.js; the parallel `Promise.all` runs here one budget after
    * the other. */
  method GetDashboardStats(db: Db, userId: nat, today: Date) returns (s: DashboardStats)
    ensures s == DashboardStatsOf(db.state, userId, today)
  {
    var budgets := Filter(db.state.budgets, InPeriod(userId, today.month, today.year));
    var statuses := StatusesOf(budgets, db.state.transactions);
    var totalBudget, totalSpent, overLimit := Accumulate(statuses);
    s := DashboardStats(|budgets|, totalBudget, totalSpent, totalBudget - totalSpent, overLimit, budgets, statuses);
  }
}
