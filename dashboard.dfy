/** controllers/DashboardController.js: the figures of the dashboard for the current month, the
  * savings totals and progress, and the five latest transactions. The current date is a
  * parameter (`new Date()`). */
module Dashboard {
  import opened Arith
  import opened Calendar
  import opened Entities
  import opened Tables
  import opened Ordering
  import opened Store
  import opened TransactionModel

  /** A transaction of the user dated within the calendar month of `today`, both ends included. */
  predicate InMonth(userId: nat, today: Date, t: Transaction) {
    t.userId == userId && InInterval(t.date, MonthInterval(today.year, today.month))
  }

  function InMonthOf(userId: nat, today: Date): Transaction -> bool {
    t => InMonth(userId, today, t)
  }

  function IsKind(k: Kind): Transaction -> bool {
    (t: Transaction) => t.kind == k
  }

  /** `transactions.filter(type === k).reduce(+ amount)` over the month's rows. */
  function KindTotal(rows: seq<Transaction>, k: Kind): int {
    Sum(Filter(rows, IsKind(k)), Amount)
  }

  /** A row's amount when it is of kind `k`, and 0 otherwise. */
  function AmountIfKind(k: Kind): Transaction -> int {
    (t: Transaction) => if t.kind == k then t.amount else 0
  }

  /** The figures both handlers compute. */
  datatype Summary = Summary(
    income: int, expenses: int, balance: int, activeBudgets: nat,
    totalSavingsTarget: int, totalSavingsCurrent: int)

  function TargetOf(g: SavingsGoal): int { g.targetAmount }
  function CurrentOf(g: SavingsGoal): int { g.currentAmount }

  function GoalOf(userId: nat): SavingsGoal -> bool {
    (g: SavingsGoal) => g.userId == userId
  }

  function BudgetInMonth(userId: nat, today: Date): Budget -> bool {
    (b: Budget) => b.userId == userId && b.month == today.month && b.year == today.year
  }

  /** The month's income and expenses of the user, their balance, the number of the user's
    * budgets for this month and year (`Budget.count`), and the target and current totals of all
    * the user's goals. */
  function SummaryOf(st: DbState, userId: nat, today: Date): (s: Summary)
    ensures s.balance == s.income - s.expenses
    ensures s.income == Sum(Filter(st.transactions, InMonthOf(userId, today)), AmountIfKind(Income))
    ensures s.expenses == Sum(Filter(st.transactions, InMonthOf(userId, today)), AmountIfKind(Expense))
    ensures s.income + s.expenses == Sum(Filter(st.transactions, InMonthOf(userId, today)), Amount)
    ensures s.activeBudgets == |Filter(st.budgets, BudgetInMonth(userId, today))|
    ensures s.totalSavingsTarget == Sum(Filter(st.goals, GoalOf(userId)), TargetOf)
    ensures s.totalSavingsCurrent == Sum(Filter(st.goals, GoalOf(userId)), CurrentOf)
  {
    var rows := Filter(st.transactions, InMonthOf(userId, today));
    var income := KindTotal(rows, Income);
    var expenses := KindTotal(rows, Expense);
    SumFilter(rows, IsKind(Income), Amount, AmountIfKind(Income));
    SumFilter(rows, IsKind(Expense), Amount, AmountIfKind(Expense));
    SumPartition(rows, IsKind(Income), IsKind(Expense), Amount);
    CountIsFilterLength(st.budgets, BudgetInMonth(userId, today));
    var goals := Filter(st.goals, GoalOf(userId));
    Summary(income, expenses, income - expenses, Count(st.budgets, BudgetInMonth(userId, today)),
            Sum(goals, TargetOf), Sum(goals, CurrentOf))
  }

  /** Income counts only the user's income rows of the month: a row of another user, of another
    * month or of an expense leaves it as it is. */
  lemma IncomeIgnoresOtherRows(st: DbState, userId: nat, today: Date, t: Transaction)
    requires !InMonth(userId, today, t) || t.kind == Expense
    ensures SummaryOf(st.(transactions := st.transactions + [t]), userId, today).income == SummaryOf(st, userId, today).income
  {
    var after := SummaryOf(st.(transactions := st.transactions + [t]), userId, today);
    var before := SummaryOf(st, userId, today);
    AppendAddsNothing(st.transactions, InMonthOf(userId, today), AmountIfKind(Income), t);
  }

  /** A row the condition drops, or one that weighs 0, leaves the masked sum as it is. */
  lemma AppendAddsNothing(txs: seq<Transaction>, p: Transaction -> bool, g: Transaction -> int, t: Transaction)
    requires !p(t) || g(t) == 0
    ensures Sum(Filter(txs + [t], p), g) == Sum(Filter(txs, p), g)
  {
    var added := Filter([t], p);
    FilterAppend(txs, [t], p);
    SumAppend(Filter(txs, p), added, g);
    assert Sum(added, g) == 0 by {
      assert [t][..0] == [];
      if p(t) {
        assert added == [t];
      } else {
        assert added == [];
      }
    }
  }

  /** `savingsProgress`: `current / target * 100` to one decimal, held in tenths of a percent,
    * or 0 when the target total is not positive. */
  function SavingsProgress(current: int, target: int): (p: int)
    ensures target > 0 ==> 2 * target * p - target <= 2 * 1000 * current < 2 * target * p + target
    ensures target <= 0 ==> p == 0
  {
    if target > 0 then RoundHalfUp(1000 * current, target) else 0
  }

  /** Progress between the current and the target total lies in 0.0 .. 100.0 %. */
  lemma SavingsProgressBounds(current: int, target: int)
    requires target > 0 && 0 <= current <= target
    ensures 0 <= SavingsProgress(current, target) <= 1000
    ensures current == target ==> SavingsProgress(current, target) == 1000
  {
    RoundHalfUpAtLeast(1000 * current, target, 0);
    RoundHalfUpAtMost(1000 * current, target, 1000);
    if current == target {
      RoundHalfUpAtLeast(1000 * current, target, 1000);
    }
  }

  /** The answer of `GET /dashboard/stats`. */
  datatype StatsReply = StatsReply(summary: Summary, savingsProgress: int)

  function GetStats(st: DbState, userId: nat, today: Date): (r: StatsReply)
    ensures r.summary == SummaryOf(st, userId, today)
    ensures r.savingsProgress == SavingsProgress(r.summary.totalSavingsCurrent, r.summary.totalSavingsTarget)
    ensures r.summary.totalSavingsTarget <= 0 ==> r.savingsProgress == 0
  {
    var s := SummaryOf(st, userId, today);
    StatsReply(s, SavingsProgress(s.totalSavingsCurrent, s.totalSavingsTarget))
  }

  /** The stored goals have non-negative current amounts and positive targets, so their totals
    * are non-negative and the target total is positive as soon as the user has a goal. */
  lemma {:induction false} GoalTotals(goals: seq<SavingsGoal>)
    requires forall i :: 0 <= i < |goals| ==> ValidGoal(goals[i])
    ensures Sum(goals, CurrentOf) >= 0
    ensures goals != [] ==> Sum(goals, TargetOf) > 0
  {
    if goals != [] {
      GoalTotals(goals[..|goals| - 1]);
    }
  }

  /** A sum of current amounts none of which exceeds its target is at most the target sum. */
  lemma {:induction false} CurrentWithinTarget(goals: seq<SavingsGoal>)
    requires forall i :: 0 <= i < |goals| ==> goals[i].currentAmount <= goals[i].targetAmount
    ensures Sum(goals, CurrentOf) <= Sum(goals, TargetOf)
  {
    if goals != [] {
      CurrentWithinTarget(goals[..|goals| - 1]);
    }
  }

  /** Over stored goals of which none is over its target, the progress the stats report lies
    * in 0.0 .. 100.0 %. */
  lemma StatsProgressInRange(st: DbState, userId: nat, today: Date)
    requires forall i :: 0 <= i < |st.goals| ==>
               ValidGoal(st.goals[i]) && st.goals[i].currentAmount <= st.goals[i].targetAmount
    ensures 0 <= GetStats(st, userId, today).savingsProgress <= 1000
  {
    var goals := Filter(st.goals, GoalOf(userId));
    FilterMembers(st.goals, GoalOf(userId));
    GoalTotals(goals);
    CurrentWithinTarget(goals);
    if goals != [] {
      SavingsProgressBounds(Sum(goals, CurrentOf), Sum(goals, TargetOf));
    }
  }

  /** What the dashboard page renders. */
  datatype DashboardPage = DashboardPage(summary: Summary, recentTransactions: seq<Transaction>)

  function Take<T>(s: seq<T>, n: nat): (r: seq<T>)
    ensures |r| == if |s| < n then |s| else n
    ensures r == s[..|r|]
  {
    if |s| <= n then s else s[..n]
  }

  /** The recent list of `showDashboard`: the user's transactions ordered by date, then
    * creation, both descending (`order: [["date", "DESC"], ["created_at", "DESC"]]`), at most
    * five of them: the front of the sorted selection. */
  function RecentOf(txs: seq<Transaction>, userId: nat): (r: seq<Transaction>)
    ensures |r| == Min5(|Filter(txs, OwnedBy(userId))|)
    ensures exists s :: && multiset(s) == multiset(Filter(txs, OwnedBy(userId)))
                        && SortedBy(s, DateKey, Desc) && |r| <= |s| && r == s[..|r|]
    ensures multiset(r) <= multiset(Filter(txs, OwnedBy(userId)))
    ensures SortedBy(r, DateKey, Desc)
    ensures forall i :: 0 <= i < |r| ==> r[i] in txs && r[i].userId == userId
  {
    var own := Filter(txs, OwnedBy(userId));
    var sorted := SortBy(own, DateKey, Desc);
    SortedRows(txs, OwnedBy(userId), DateKey, Desc);
    PermutationMembers(sorted, own);
    var recent := Take(sorted, 5);
    TakeIsTop(sorted, |recent|, DateKey, Desc);
    FrontIsSubMultiset(sorted, |recent|);
    recent
  }

  /** `showDashboard`: the summary and the most recent five transactions of the user. */
  function ShowDashboard(st: DbState, userId: nat, today: Date): (r: DashboardPage)
    ensures r.summary == SummaryOf(st, userId, today)
    ensures |r.recentTransactions| == Min5(|Filter(st.transactions, OwnedBy(userId))|)
    ensures SortedBy(r.recentTransactions, DateKey, Desc)
    ensures multiset(r.recentTransactions) <= multiset(Filter(st.transactions, OwnedBy(userId)))
    ensures forall i :: 0 <= i < |r.recentTransactions| ==>
              r.recentTransactions[i] in st.transactions && r.recentTransactions[i].userId == userId
  {
    DashboardPage(SummaryOf(st, userId, today), RecentOf(st.transactions, userId))
  }

  /** The front of a sequence holds no row more often than the whole. */
  lemma FrontIsSubMultiset<T>(s: seq<T>, n: nat)
    requires n <= |s|
    ensures multiset(s[..n]) <= multiset(s)
  {
    assert s == s[..n] + s[n..];
  }

  function Min5(n: nat): nat {
    if n < 5 then n else 5
  }

  /** The five rows shown are the latest: every row of the user left out comes after each of
    * them in the date-then-creation order. */
  lemma RecentAreLatest(txs: seq<Transaction>, userId: nat)
    ensures var recent := RecentOf(txs, userId);
      forall t :: t in txs && t.userId == userId && t !in recent ==>
        forall i :: 0 <= i < |recent| ==> Before(DateKey(recent[i]), DateKey(t), Desc)
  {
    var sorted := SortBy(Filter(txs, OwnedBy(userId)), DateKey, Desc);
    var recent := RecentOf(txs, userId);
    assert recent == sorted[..|recent|];
    SortedRows(txs, OwnedBy(userId), DateKey, Desc);
    forall t | t in txs && t.userId == userId && t !in recent
      ensures forall i :: 0 <= i < |recent| ==> Before(DateKey(recent[i]), DateKey(t), Desc)
    {
      var k :| 0 <= k < |txs| && txs[k] == t;
      assert OwnedBy(userId)(txs[k]);
      LeftOutComesAfter(sorted, |recent|, DateKey, Desc, t);
    }
  }
}
