/** The database of models/index.js: four tables, the column validation Sequelize performs before
  * a write, the unique constraints (`users.email` and the budget slot index), the `userId`
  * foreign keys of the three owned tables, and `onDelete: "CASCADE"` from a user to the rows
  * it owns. */
module Store {
  import opened Wrappers
  import opened Calendar
  import opened Entities
  import opened Tables

  /** The failure a write reports: a `validate` block rejected a column, a unique constraint
    * rejected the row (`SequelizeUniqueConstraintError`), or the owner does not exist. */
  datatype StoreError = ValidationFailed | UniqueViolation | ForeignKeyViolation

  /** Row ids strictly increase along the table (ids come from one counter, so the table's
    * order is creation order) and stay below the next id to hand out. */
  predicate IdsIncreasing<T>(s: seq<T>, id: T -> nat, bound: nat) {
    (forall i, j :: 0 <= i < j < |s| ==> id(s[i]) < id(s[j]))
    && (forall i :: 0 <= i < |s| ==> id(s[i]) < bound)
  }

  function UserId(u: User): nat { u.id }
  function TransactionId(t: Transaction): nat { t.id }
  function BudgetId(b: Budget): nat { b.id }
  function GoalId(g: SavingsGoal): nat { g.id }
  function TransactionOwner(t: Transaction): nat { t.userId }
  function BudgetOwner(b: Budget): nat { b.userId }
  function GoalOwner(g: SavingsGoal): nat { g.userId }

  /** The ids of the users in `users`. */
  function UserIds(users: seq<User>): set<nat> {
    if users == [] then {} else UserIds(users[..|users| - 1]) + {users[|users| - 1].id}
  }

  /** Some user has the id `id`. */
  predicate HasUser(users: seq<User>, id: nat) {
    id in UserIds(users)
  }

  /** The foreign key `userId REFERENCES users(id)`: every row's owner exists. */
  predicate Owned<T>(s: seq<T>, owner: T -> nat, users: seq<User>) {
    forall i :: 0 <= i < |s| ==> owner(s[i]) in UserIds(users)
  }

  predicate EmailTaken(users: seq<User>, email: string) {
    exists k :: 0 <= k < |users| && users[k].email == email
  }

  /** No two users share an email (`email: { unique: true }`). */
  predicate EmailsUnique(users: seq<User>) {
    forall i, j :: 0 <= i < j < |users| ==> users[i].email != users[j].email
  }

  /** No two budgets share a `(userId, category, month, year)` slot. */
  predicate SlotsUnique(budgets: seq<Budget>) {
    forall i, j :: 0 <= i < j < |budgets| ==> !SameSlot(budgets[i], budgets[j])
  }

  predicate SlotTaken(budgets: seq<Budget>, b: Budget) {
    exists k :: 0 <= k < |budgets| && SameSlot(budgets[k], b)
  }

  /** Appending a row with a fresh id keeps the ids increasing. */
  lemma AppendKeepsIds<T>(s: seq<T>, x: T, id: T -> nat, bound: nat)
    requires IdsIncreasing(s, id, bound) && id(x) == bound
    ensures IdsIncreasing(s + [x], id, bound + 1)
  {
    var t := s + [x];
    forall i, j | 0 <= i < j < |t| ensures id(t[i]) < id(t[j]) {
      assert t[i] == s[i];
      if j < |s| { assert t[j] == s[j]; }
    }
  }

  /** Replacing a row by one with the same id keeps the ids. */
  lemma ReplaceKeepsIds<T>(s: seq<T>, k: int, x: T, id: T -> nat, bound: nat)
    requires IdsIncreasing(s, id, bound) && 0 <= k < |s| && id(x) == id(s[k])
    ensures IdsIncreasing(s[k := x], id, bound)
  {
    var t := s[k := x];
    assert forall i :: 0 <= i < |t| ==> id(t[i]) == id(s[i]);
  }

  /** Removing rows keeps the ids increasing. */
  lemma {:induction false} FilterKeepsIds<T>(s: seq<T>, p: T -> bool, id: T -> nat, bound: nat)
    requires IdsIncreasing(s, id, bound)
    ensures IdsIncreasing(Filter(s, p), id, bound)
  {
    if s != [] {
      var init := s[..|s| - 1];
      var last := s[|s| - 1];
      assert IdsIncreasing(init, id, bound) by {
        forall i, j | 0 <= i < j < |init| ensures id(init[i]) < id(init[j]) {
          assert init[i] == s[i] && init[j] == s[j];
        }
      }
      FilterKeepsIds(init, p, id, bound);
      FilterMembers(init, p);
      var f := Filter(init, p);
      assert IdsIncreasing(f + [last], id, bound) by {
        var t := f + [last];
        forall i, j | 0 <= i < j < |t| ensures id(t[i]) < id(t[j]) {
          assert t[i] == f[i];
          if j < |f| {
            assert t[j] == f[j];
          } else {
            assert f[i] in init;
            var k :| 0 <= k < |init| && init[k] == f[i];
            assert s[k] == f[i];
          }
        }
      }
    }
  }

  /** `UserIds` is the set of ids that occur in the table. */
  lemma {:induction false} UserIdsMembers(users: seq<User>)
    ensures forall id :: id in UserIds(users) <==> exists k :: 0 <= k < |users| && users[k].id == id
  {
    if users != [] {
      var init := users[..|users| - 1];
      UserIdsMembers(init);
      forall id ensures id in UserIds(users) <==> exists k :: 0 <= k < |users| && users[k].id == id {
        if id in UserIds(init) {
          var k :| 0 <= k < |init| && init[k].id == id;
          assert users[k] == init[k];
        }
        if exists k :: 0 <= k < |users| && users[k].id == id {
          var k :| 0 <= k < |users| && users[k].id == id;
          if k < |init| {
            assert init[k] == users[k];
          }
        }
      }
    }
  }

  lemma {:induction false} UserIdsConcat(a: seq<User>, b: seq<User>)
    ensures UserIds(a + b) == UserIds(a) + UserIds(b)
    decreases |b|
  {
    if b == [] {
      assert a + b == a;
    } else {
      var c := b[..|b| - 1];
      assert (a + b)[..|a + b| - 1] == a + c;
      UserIdsConcat(a, c);
    }
  }

  lemma UserIdsReplace(users: seq<User>, k: int, u: User)
    requires 0 <= k < |users| && u.id == users[k].id
    ensures UserIds(users[k := u]) == UserIds(users)
  {
    var t := users[k := u];
    UserIdsMembers(users);
    UserIdsMembers(t);
    forall id ensures id in UserIds(t) <==> id in UserIds(users) {
      if id in UserIds(t) {
        var j :| 0 <= j < |t| && t[j].id == id;
        assert users[j].id == id;
      }
      if id in UserIds(users) {
        var j :| 0 <= j < |users| && users[j].id == id;
        assert t[j].id == id;
      }
    }
  }

  /** Removing the users with id `uid` removes exactly that id. */
  lemma {:induction false} UserIdsRemove(users: seq<User>, uid: nat)
    ensures UserIds(Filter(users, UserIsNot(uid))) == UserIds(users) - {uid}
  {
    if users != [] {
      var init := users[..|users| - 1];
      var last := users[|users| - 1];
      UserIdsRemove(init, uid);
      var tail := if last.id != uid then [last] else [];
      UserIdsConcat(Filter(init, UserIsNot(uid)), tail);
      assert UserIds([last]) == {last.id} by {
        assert [last][..0] == [];
      }
    }
  }

  lemma OwnedAppendUser<T>(s: seq<T>, owner: T -> nat, users: seq<User>, u: User)
    requires Owned(s, owner, users)
    ensures Owned(s, owner, users + [u])
  {
    assert (users + [u])[..|users|] == users;
  }

  lemma OwnedReplaceUser<T>(s: seq<T>, owner: T -> nat, users: seq<User>, k: int, u: User)
    requires Owned(s, owner, users) && 0 <= k < |users| && u.id == users[k].id
    ensures Owned(s, owner, users[k := u])
  {
    UserIdsReplace(users, k, u);
  }

  lemma OwnedFilterRows<T>(s: seq<T>, p: T -> bool, owner: T -> nat, users: seq<User>)
    requires Owned(s, owner, users)
    ensures Owned(Filter(s, p), owner, users)
  {
    FilterElements(s, p, x => owner(x) in UserIds(users));
  }

  /** After removing user `uid` and every row it owns, the remaining rows' owners remain. */
  lemma OwnedAfterCascade<T>(s: seq<T>, owner: T -> nat, users: seq<User>, uid: nat)
    requires Owned(s, owner, users)
    ensures Owned(Filter(s, OwnerIsNot(owner, uid)), owner, Filter(users, UserIsNot(uid)))
  {
    UserIdsRemove(users, uid);
    FilterElements(s, OwnerIsNot(owner, uid), x => owner(x) in UserIds(users) - {uid});
  }

  /** The row filters the store's deletes and lookups use. */
  function UserIsNot(uid: nat): User -> bool { (u: User) => u.id != uid }
  function OwnerIsNot<T>(owner: T -> nat, uid: nat): T -> bool { x => owner(x) != uid }
  function IdIsNot<T>(id: T -> nat, k: nat): T -> bool { x => id(x) != k }
  function EmailIs(email: string): User -> bool { (u: User) => u.email == email }
  function HoldsToken(token: string): User -> bool { (u: User) => u.resetToken == Some(token) }
  function InSlotOf(b: Budget): Budget -> bool { (x: Budget) => SameSlot(x, b) }
  function IdIs<T>(id: T -> nat, k: nat): T -> bool { x => id(x) == k }

  /** A row of a table is found by its id. */
  lemma RowIsIndexed<T>(s: seq<T>, id: T -> nat, x: T)
    requires x in s
    ensures IndexWhere(s, IdIs(id, id(x))) >= 0
  {
    var j :| 0 <= j < |s| && s[j] == x;
    assert IdIs(id, id(x))(s[j]);
  }

  /** Two rows of a table with increasing ids have different ids. */
  lemma IdsDistinct<T>(s: seq<T>, id: T -> nat, n: nat, i: int, j: int)
    requires IdsIncreasing(s, id, n) && 0 <= i < |s| && 0 <= j < |s| && i != j
    ensures id(s[i]) != id(s[j])
  {
  }

  /** Every row a filter keeps has a property that the rows it keeps have in the table. */
  lemma FilterElements<T>(s: seq<T>, p: T -> bool, q: T -> bool)
    requires forall i :: 0 <= i < |s| && p(s[i]) ==> q(s[i])
    ensures forall i :: 0 <= i < |Filter(s, p)| ==> q(Filter(s, p)[i])
  {
    FilterMembers(s, p);
    var f := Filter(s, p);
    forall i | 0 <= i < |f| ensures q(f[i]) {
      assert f[i] in s;
      var k :| 0 <= k < |s| && s[k] == f[i];
    }
  }

  /** Removing rows keeps the pairwise-distinct emails and slots. */
  lemma {:induction false} FilterKeepsEmailsUnique(users: seq<User>, p: User -> bool)
    requires EmailsUnique(users)
    ensures EmailsUnique(Filter(users, p))
  {
    if users != [] {
      var init := users[..|users| - 1];
      var last := users[|users| - 1];
      FilterKeepsEmailsUnique(init, p);
      FilterMembers(init, p);
      var f := Filter(init, p);
      var t := f + (if p(last) then [last] else []);
      forall i, j | 0 <= i < j < |t| ensures t[i].email != t[j].email {
        assert t[i] == f[i];
        if j < |f| {
          assert t[j] == f[j];
        } else {
          assert f[i] in init;
          var k :| 0 <= k < |init| && init[k] == f[i];
          assert users[k] == f[i];
        }
      }
    }
  }

  lemma {:induction false} FilterKeepsSlotsUnique(budgets: seq<Budget>, p: Budget -> bool)
    requires SlotsUnique(budgets)
    ensures SlotsUnique(Filter(budgets, p))
  {
    if budgets != [] {
      var init := budgets[..|budgets| - 1];
      var last := budgets[|budgets| - 1];
      FilterKeepsSlotsUnique(init, p);
      FilterMembers(init, p);
      var f := Filter(init, p);
      var t := f + (if p(last) then [last] else []);
      forall i, j | 0 <= i < j < |t| ensures !SameSlot(t[i], t[j]) {
        assert t[i] == f[i];
        if j < |f| {
          assert t[j] == f[j];
        } else {
          assert f[i] in init;
          var k :| 0 <= k < |init| && init[k] == f[i];
          assert budgets[k] == f[i];
        }
      }
    }
  }

  lemma IdsBoundGrows<T>(s: seq<T>, id: T -> nat, n: nat)
    requires IdsIncreasing(s, id, n)
    ensures IdsIncreasing(s, id, n + 1)
  {
  }

  /** A table of owned rows: increasing ids, existing owners, every row valid. */
  predicate RowsOk<T>(s: seq<T>, id: T -> nat, owner: T -> nat, valid: T -> bool, users: seq<User>, n: nat) {
    IdsIncreasing(s, id, n) && Owned(s, owner, users) && forall i :: 0 <= i < |s| ==> valid(s[i])
  }

  lemma RowsAppend<T>(s: seq<T>, x: T, id: T -> nat, owner: T -> nat, valid: T -> bool, users: seq<User>, n: nat)
    requires RowsOk(s, id, owner, valid, users, n)
    requires id(x) == n && HasUser(users, owner(x)) && valid(x)
    ensures RowsOk(s + [x], id, owner, valid, users, n + 1)
  {
    AppendKeepsIds(s, x, id, n);
    var t := s + [x];
    assert forall i :: 0 <= i < |s| ==> t[i] == s[i];
  }

  lemma RowsReplace<T>(s: seq<T>, k: int, x: T, id: T -> nat, owner: T -> nat, valid: T -> bool, users: seq<User>, n: nat)
    requires RowsOk(s, id, owner, valid, users, n) && 0 <= k < |s|
    requires id(x) == id(s[k]) && HasUser(users, owner(x)) && valid(x)
    ensures RowsOk(s[k := x], id, owner, valid, users, n)
  {
    ReplaceKeepsIds(s, k, x, id, n);
  }

  lemma RowsRemove<T>(s: seq<T>, p: T -> bool, id: T -> nat, owner: T -> nat, valid: T -> bool, users: seq<User>, n: nat)
    requires RowsOk(s, id, owner, valid, users, n)
    ensures RowsOk(Filter(s, p), id, owner, valid, users, n)
  {
    FilterKeepsIds(s, p, id, n);
    OwnedFilterRows(s, p, owner, users);
    FilterElements(s, p, valid);
  }

  /** A new user and a grown id counter leave an owned table valid. */
  lemma RowsNewUser<T>(s: seq<T>, id: T -> nat, owner: T -> nat, valid: T -> bool, users: seq<User>, u: User, n: nat)
    requires RowsOk(s, id, owner, valid, users, n)
    ensures RowsOk(s, id, owner, valid, users + [u], n + 1)
  {
    OwnedAppendUser(s, owner, users, u);
  }

  lemma RowsUserReplaced<T>(s: seq<T>, id: T -> nat, owner: T -> nat, valid: T -> bool, users: seq<User>, k: int, u: User, n: nat)
    requires RowsOk(s, id, owner, valid, users, n) && 0 <= k < |users| && u.id == users[k].id
    ensures RowsOk(s, id, owner, valid, users[k := u], n)
  {
    OwnedReplaceUser(s, owner, users, k, u);
  }

  lemma RowsCascade<T>(s: seq<T>, id: T -> nat, owner: T -> nat, valid: T -> bool, users: seq<User>, uid: nat, n: nat)
    requires RowsOk(s, id, owner, valid, users, n)
    ensures RowsOk(Filter(s, OwnerIsNot(owner, uid)), id, owner, valid, Filter(users, UserIsNot(uid)), n)
  {
    OwnedAfterCascade(s, owner, users, uid);
    FilterKeepsIds(s, OwnerIsNot(owner, uid), id, n);
    FilterElements(s, OwnerIsNot(owner, uid), valid);
  }

  predicate UsersOk(users: seq<User>, isEmail: string -> bool, n: nat) {
    IdsIncreasing(users, UserId, n) && EmailsUnique(users)
    && forall i :: 0 <= i < |users| ==> StoredUser(users[i], isEmail)
  }

  /** The contents of the database: the four tables in insertion order and the next id the
    * auto-increment counters hand out (one counter for all tables, which keeps every id fresh). */
  datatype DbState = DbState(
    users: seq<User>, transactions: seq<Transaction>, budgets: seq<Budget>,
    goals: seq<SavingsGoal>, nextId: nat)

  /** The invariant of the whole database: each table's column constraints, increasing ids,
    * unique emails and budget slots, and the `userId` foreign keys. */
  predicate DbOk(st: DbState, isEmail: string -> bool) {
    UsersOk(st.users, isEmail, st.nextId)
    && RowsOk(st.transactions, TransactionId, TransactionOwner, ValidTransaction, st.users, st.nextId)
    && RowsOk(st.budgets, BudgetId, BudgetOwner, ValidBudget, st.users, st.nextId)
    && SlotsUnique(st.budgets)
    && RowsOk(st.goals, GoalId, GoalOwner, ValidGoal, st.users, st.nextId)
  }

  /** `user.destroy()` followed by `ON DELETE CASCADE` on the three owned tables. */
  function Cascade(st: DbState, uid: nat): (r: DbState)
    ensures r.nextId == st.nextId
  {
    DbState(Filter(st.users, UserIsNot(uid)), Filter(st.transactions, OwnerIsNot(TransactionOwner, uid)),
            Filter(st.budgets, OwnerIsNot(BudgetOwner, uid)), Filter(st.goals, OwnerIsNot(GoalOwner, uid)),
            st.nextId)
  }

  /** After the cascade, nothing the user owned is left, and every row of another owner is still
    * there. */
  lemma CascadeRemovesOwned(st: DbState, uid: nat)
    ensures forall i :: 0 <= i < |Cascade(st, uid).users| ==> Cascade(st, uid).users[i].id != uid
    ensures forall i :: 0 <= i < |Cascade(st, uid).transactions| ==> Cascade(st, uid).transactions[i].userId != uid
    ensures forall i :: 0 <= i < |Cascade(st, uid).budgets| ==> Cascade(st, uid).budgets[i].userId != uid
    ensures forall i :: 0 <= i < |Cascade(st, uid).goals| ==> Cascade(st, uid).goals[i].userId != uid
    ensures forall i :: 0 <= i < |st.users| && st.users[i].id != uid ==> st.users[i] in Cascade(st, uid).users
    ensures forall i :: 0 <= i < |st.transactions| && st.transactions[i].userId != uid ==>
              st.transactions[i] in Cascade(st, uid).transactions
    ensures forall i :: 0 <= i < |st.budgets| && st.budgets[i].userId != uid ==>
              st.budgets[i] in Cascade(st, uid).budgets
    ensures forall i :: 0 <= i < |st.goals| && st.goals[i].userId != uid ==> st.goals[i] in Cascade(st, uid).goals
  {
    FilterMembers(st.users, UserIsNot(uid));
    FilterMembers(st.transactions, OwnerIsNot(TransactionOwner, uid));
    FilterMembers(st.budgets, OwnerIsNot(BudgetOwner, uid));
    FilterMembers(st.goals, OwnerIsNot(GoalOwner, uid));
  }

  lemma DbCascade(st: DbState, isEmail: string -> bool, uid: nat)
    requires DbOk(st, isEmail)
    ensures DbOk(Cascade(st, uid), isEmail)
  {
    var n := st.nextId;
    FilterKeepsIds(st.users, UserIsNot(uid), UserId, n);
    FilterKeepsEmailsUnique(st.users, UserIsNot(uid));
    FilterElements(st.users, UserIsNot(uid), (u: User) => StoredUser(u, isEmail));
    RowsCascade(st.transactions, TransactionId, TransactionOwner, ValidTransaction, st.users, uid, n);
    RowsCascade(st.budgets, BudgetId, BudgetOwner, ValidBudget, st.users, uid, n);
    FilterKeepsSlotsUnique(st.budgets, OwnerIsNot(BudgetOwner, uid));
    RowsCascade(st.goals, GoalId, GoalOwner, ValidGoal, st.users, uid, n);
  }

  lemma DbInsertUser(st: DbState, isEmail: string -> bool, row: User)
    requires DbOk(st, isEmail)
    requires row.id == st.nextId && StoredUser(row, isEmail) && !EmailTaken(st.users, row.email)
    ensures DbOk(st.(users := st.users + [row], nextId := st.nextId + 1), isEmail)
  {
    var users, n := st.users, st.nextId;
    AppendKeepsIds(users, row, UserId, n);
    RowsNewUser(st.transactions, TransactionId, TransactionOwner, ValidTransaction, users, row, n);
    RowsNewUser(st.budgets, BudgetId, BudgetOwner, ValidBudget, users, row, n);
    RowsNewUser(st.goals, GoalId, GoalOwner, ValidGoal, users, row, n);
    var u := users + [row];
    assert EmailsUnique(u) by {
      forall i, j | 0 <= i < j < |u| ensures u[i].email != u[j].email {
        assert u[i] == users[i];
        if j < |users| { assert u[j] == users[j]; }
      }
    }
    assert forall i :: 0 <= i < |users| ==> u[i] == users[i];
  }

  lemma DbUpdateUser(st: DbState, isEmail: string -> bool, k: int, row: User)
    requires DbOk(st, isEmail)
    requires 0 <= k < |st.users| && st.users[k].id == row.id && StoredUser(row, isEmail)
    requires !OtherRow(st.users, k, EmailIs(row.email))
    ensures DbOk(st.(users := st.users[k := row]), isEmail)
  {
    assert forall j :: 0 <= j < |st.users| && j != k ==> !EmailIs(row.email)(st.users[j]);
    var users, n := st.users, st.nextId;
    ReplaceKeepsIds(users, k, row, UserId, n);
    RowsUserReplaced(st.transactions, TransactionId, TransactionOwner, ValidTransaction, users, k, row, n);
    RowsUserReplaced(st.budgets, BudgetId, BudgetOwner, ValidBudget, users, k, row, n);
    RowsUserReplaced(st.goals, GoalId, GoalOwner, ValidGoal, users, k, row, n);
    var u := users[k := row];
    assert EmailsUnique(u) by {
      forall i, j | 0 <= i < j < |u| ensures u[i].email != u[j].email {
        if i != k && j != k { assert u[i] == users[i] && u[j] == users[j]; }
      }
    }
  }

  lemma DbInsertTransaction(st: DbState, isEmail: string -> bool, row: Transaction)
    requires DbOk(st, isEmail)
    requires row.id == st.nextId && ValidTransaction(row) && HasUser(st.users, row.userId)
    ensures DbOk(st.(transactions := st.transactions + [row], nextId := st.nextId + 1), isEmail)
  {
    var n := st.nextId;
    RowsAppend(st.transactions, row, TransactionId, TransactionOwner, ValidTransaction, st.users, n);
    IdsBoundGrows(st.users, UserId, n);
    IdsBoundGrows(st.budgets, BudgetId, n);
    IdsBoundGrows(st.goals, GoalId, n);
  }

  lemma DbReplaceTransaction(st: DbState, isEmail: string -> bool, k: int, row: Transaction)
    requires DbOk(st, isEmail) && 0 <= k < |st.transactions|
    requires row.id == st.transactions[k].id && ValidTransaction(row) && HasUser(st.users, row.userId)
    ensures DbOk(st.(transactions := st.transactions[k := row]), isEmail)
  {
    RowsReplace(st.transactions, k, row, TransactionId, TransactionOwner, ValidTransaction, st.users, st.nextId);
  }

  lemma DbDeleteTransaction(st: DbState, isEmail: string -> bool, id: nat)
    requires DbOk(st, isEmail)
    ensures DbOk(st.(transactions := Filter(st.transactions, IdIsNot(TransactionId, id))), isEmail)
  {
    RowsRemove(st.transactions, IdIsNot(TransactionId, id), TransactionId, TransactionOwner, ValidTransaction,
      st.users, st.nextId);
  }

  lemma DbInsertBudget(st: DbState, isEmail: string -> bool, row: Budget)
    requires DbOk(st, isEmail)
    requires row.id == st.nextId && ValidBudget(row) && HasUser(st.users, row.userId)
    requires !SlotTaken(st.budgets, row)
    ensures DbOk(st.(budgets := st.budgets + [row], nextId := st.nextId + 1), isEmail)
  {
    var n, bs := st.nextId, st.budgets;
    RowsAppend(bs, row, BudgetId, BudgetOwner, ValidBudget, st.users, n);
    IdsBoundGrows(st.users, UserId, n);
    IdsBoundGrows(st.transactions, TransactionId, n);
    IdsBoundGrows(st.goals, GoalId, n);
    SlotsUniqueAppend(bs, row);
  }

  lemma SlotsUniqueAppend(bs: seq<Budget>, row: Budget)
    requires SlotsUnique(bs) && !SlotTaken(bs, row)
    ensures SlotsUnique(bs + [row])
  {
    var t := bs + [row];
    forall i, j | 0 <= i < j < |t| ensures !SameSlot(t[i], t[j]) {
      assert t[i] == bs[i];
      if j < |bs| {
        assert t[j] == bs[j];
      } else {
        assert t[j] == row;
      }
    }
  }

  lemma DbReplaceBudget(st: DbState, isEmail: string -> bool, k: int, row: Budget)
    requires DbOk(st, isEmail) && 0 <= k < |st.budgets|
    requires row.id == st.budgets[k].id && ValidBudget(row) && HasUser(st.users, row.userId)
    requires !OtherRow(st.budgets, k, InSlotOf(row))
    ensures DbOk(st.(budgets := st.budgets[k := row]), isEmail)
  {
    assert forall j :: 0 <= j < |st.budgets| && j != k ==> !InSlotOf(row)(st.budgets[j]);
    var bs := st.budgets;
    RowsReplace(bs, k, row, BudgetId, BudgetOwner, ValidBudget, st.users, st.nextId);
    var t := bs[k := row];
    forall i, j | 0 <= i < j < |t| ensures !SameSlot(t[i], t[j]) {
      if i != k && j != k { assert t[i] == bs[i] && t[j] == bs[j]; }
    }
  }

  lemma DbDeleteBudget(st: DbState, isEmail: string -> bool, id: nat)
    requires DbOk(st, isEmail)
    ensures DbOk(st.(budgets := Filter(st.budgets, IdIsNot(BudgetId, id))), isEmail)
  {
    RowsRemove(st.budgets, IdIsNot(BudgetId, id), BudgetId, BudgetOwner, ValidBudget, st.users, st.nextId);
    FilterKeepsSlotsUnique(st.budgets, IdIsNot(BudgetId, id));
  }

  lemma DbInsertGoal(st: DbState, isEmail: string -> bool, row: SavingsGoal)
    requires DbOk(st, isEmail)
    requires row.id == st.nextId && ValidGoal(row) && HasUser(st.users, row.userId)
    ensures DbOk(st.(goals := st.goals + [row], nextId := st.nextId + 1), isEmail)
  {
    var n := st.nextId;
    RowsAppend(st.goals, row, GoalId, GoalOwner, ValidGoal, st.users, n);
    IdsBoundGrows(st.users, UserId, n);
    IdsBoundGrows(st.transactions, TransactionId, n);
    IdsBoundGrows(st.budgets, BudgetId, n);
  }

  lemma DbReplaceGoal(st: DbState, isEmail: string -> bool, k: int, row: SavingsGoal)
    requires DbOk(st, isEmail) && 0 <= k < |st.goals|
    requires row.id == st.goals[k].id && ValidGoal(row) && HasUser(st.users, row.userId)
    ensures DbOk(st.(goals := st.goals[k := row]), isEmail)
  {
    RowsReplace(st.goals, k, row, GoalId, GoalOwner, ValidGoal, st.users, st.nextId);
  }

  lemma DbDeleteGoal(st: DbState, isEmail: string -> bool, id: nat)
    requires DbOk(st, isEmail)
    ensures DbOk(st.(goals := Filter(st.goals, IdIsNot(GoalId, id))), isEmail)
  {
    RowsRemove(st.goals, IdIsNot(GoalId, id), GoalId, GoalOwner, ValidGoal, st.users, st.nextId);
  }

  /** Some row other than the one at position `k` satisfies `p`. */
  predicate OtherRow<T>(s: seq<T>, k: int, p: T -> bool) {
    exists j :: 0 <= j < |s| && j != k && p(s[j])
  }

  /** What a write reports, and the database after it. */
  datatype Step<T> = Step(result: Result<T, StoreError>, after: DbState)

  /** `User.create(values)`: validation, the `beforeCreate` hook, then the unique email; the new
    * row gets the next id and no reset token. */
  function CreateUser(st: DbState, isEmail: string -> bool, name: string, email: string, password: Secret,
                      currency: string, preferences: Preferences, salt: string): (s: Step<User>)
    ensures var row := User(st.nextId, name, email, password, currency, preferences, None, None);
      && (s.result.Ok? <==> ValidUser(row, isEmail) && !EmailTaken(st.users, email))
      && (s.result == Err(UniqueViolation) <==> ValidUser(row, isEmail) && EmailTaken(st.users, email))
      && (s.result.Ok? ==> s.result.value == Hooked(row, salt)
                           && s.after == st.(users := st.users + [s.result.value], nextId := st.nextId + 1))
      && (s.result.Err? ==> s.after == st)
  {
    var row := User(st.nextId, name, email, password, currency, preferences, None, None);
    if !ValidUser(row, isEmail) then Step(Err(ValidationFailed), st)
    else if EmailTaken(st.users, email) then Step(Err(UniqueViolation), st)
    else
      var stored := Hooked(row, salt);
      Step(Ok(stored), st.(users := st.users + [stored], nextId := st.nextId + 1))
  }

  lemma CreateUserKeeps(st: DbState, isEmail: string -> bool, name: string, email: string, password: Secret,
                        currency: string, preferences: Preferences, salt: string)
    requires DbOk(st, isEmail)
    ensures DbOk(CreateUser(st, isEmail, name, email, password, currency, preferences, salt).after, isEmail)
  {
    var row := User(st.nextId, name, email, password, currency, preferences, None, None);
    var s := CreateUser(st, isEmail, name, email, password, currency, preferences, salt);
    if s.result.Ok? {
      HookedStoresDigest(row, isEmail, salt, "");
      DbInsertUser(st, isEmail, s.result.value);
    }
  }

  /** `user.save()` of an instance, an `UPDATE` by primary key: validation, the `beforeUpdate`
    * hook, then the unique email against the other users. A row that no longer exists is left
    * alone. */
  function SaveUser(st: DbState, isEmail: string -> bool, u: User, salt: string): (s: Step<User>)
    ensures var k := IndexWhere(st.users, IdIs(UserId, u.id));
      && (s.result.Ok? <==> ValidUser(u, isEmail) && !OtherRow(st.users, k, EmailIs(u.email)))
      && (s.result.Ok? ==> s.result.value == Hooked(u, salt)
                           && s.after == (if k >= 0 then st.(users := st.users[k := Hooked(u, salt)]) else st))
      && (s.result.Err? ==> s.after == st)
  {
    var k := IndexWhere(st.users, IdIs(UserId, u.id));
    if !ValidUser(u, isEmail) then Step(Err(ValidationFailed), st)
    else if OtherRow(st.users, k, EmailIs(u.email)) then Step(Err(UniqueViolation), st)
    else
      var stored := Hooked(u, salt);
      Step(Ok(stored), if k >= 0 then st.(users := st.users[k := stored]) else st)
  }

  lemma SaveUserKeeps(st: DbState, isEmail: string -> bool, u: User, salt: string)
    requires DbOk(st, isEmail)
    ensures DbOk(SaveUser(st, isEmail, u, salt).after, isEmail)
  {
    var k := IndexWhere(st.users, IdIs(UserId, u.id));
    if !ValidUser(u, isEmail) || OtherRow(st.users, k, EmailIs(u.email)) {
      assert SaveUser(st, isEmail, u, salt).after == st;
    } else if k >= 0 {
      HookedStoresDigest(u, isEmail, salt, "");
      DbUpdateUser(st, isEmail, k, Hooked(u, salt));
      assert SaveUser(st, isEmail, u, salt).after == st.(users := st.users[k := Hooked(u, salt)]);
    } else {
      assert SaveUser(st, isEmail, u, salt).after == st;
    }
  }

  /** `Transaction.create(values)`: validation, then the foreign key. */
  function CreateTransaction(st: DbState, userId: nat, kind: Kind, amount: int, category: string, date: Date,
                             description: Option<string>): (s: Step<Transaction>)
    ensures var row := Transaction(st.nextId, userId, kind, amount, category, date, description);
      && (s.result.Ok? <==> ValidTransaction(row) && HasUser(st.users, userId))
      && (s.result.Ok? ==> s.result.value == row
                           && s.after == st.(transactions := st.transactions + [row], nextId := st.nextId + 1))
      && (s.result.Err? ==> s.after == st)
  {
    var row := Transaction(st.nextId, userId, kind, amount, category, date, description);
    if !ValidTransaction(row) then Step(Err(ValidationFailed), st)
    else if !HasUser(st.users, userId) then Step(Err(ForeignKeyViolation), st)
    else Step(Ok(row), st.(transactions := st.transactions + [row], nextId := st.nextId + 1))
  }

  lemma CreateTransactionKeeps(st: DbState, isEmail: string -> bool, userId: nat, kind: Kind, amount: int,
                               category: string, date: Date, description: Option<string>)
    requires DbOk(st, isEmail)
    ensures DbOk(CreateTransaction(st, userId, kind, amount, category, date, description).after, isEmail)
  {
    var row := Transaction(st.nextId, userId, kind, amount, category, date, description);
    if ValidTransaction(row) && HasUser(st.users, userId) {
      DbInsertTransaction(st, isEmail, row);
      assert CreateTransaction(st, userId, kind, amount, category, date, description).after
        == st.(transactions := st.transactions + [row], nextId := st.nextId + 1);
    } else {
      assert CreateTransaction(st, userId, kind, amount, category, date, description).after == st;
    }
  }

  /** `transaction.save()`: validation, then the foreign key; the row with the same id is
    * replaced, and nothing happens when there is none. */
  function SaveTransaction(st: DbState, t: Transaction): (s: Step<Transaction>)
    ensures var k := IndexWhere(st.transactions, IdIs(TransactionId, t.id));
      && (s.result.Ok? <==> ValidTransaction(t) && HasUser(st.users, t.userId))
      && (s.result.Ok? ==> s.result.value == t
                           && s.after == (if k >= 0 then st.(transactions := st.transactions[k := t]) else st))
      && (s.result.Err? ==> s.after == st)
  {
    var k := IndexWhere(st.transactions, IdIs(TransactionId, t.id));
    if !ValidTransaction(t) then Step(Err(ValidationFailed), st)
    else if !HasUser(st.users, t.userId) then Step(Err(ForeignKeyViolation), st)
    else Step(Ok(t), if k >= 0 then st.(transactions := st.transactions[k := t]) else st)
  }

  lemma SaveTransactionKeeps(st: DbState, isEmail: string -> bool, t: Transaction)
    requires DbOk(st, isEmail)
    ensures DbOk(SaveTransaction(st, t).after, isEmail)
  {
    var k := IndexWhere(st.transactions, IdIs(TransactionId, t.id));
    if ValidTransaction(t) && HasUser(st.users, t.userId) && k >= 0 {
      DbReplaceTransaction(st, isEmail, k, t);
      assert SaveTransaction(st, t).after == st.(transactions := st.transactions[k := t]);
    } else {
      assert SaveTransaction(st, t).after == st;
    }
  }

  /** `Budget.create(values)`: validation, the unique slot index, then the foreign key. */
  function CreateBudget(st: DbState, userId: nat, category: string, limitAmount: int, month: int, year: int)
    : (s: Step<Budget>)
    ensures var row := Budget(st.nextId, userId, category, limitAmount, month, year);
      && (s.result.Ok? <==> ValidBudget(row) && !SlotTaken(st.budgets, row) && HasUser(st.users, userId))
      && (s.result == Err(UniqueViolation) <==> ValidBudget(row) && SlotTaken(st.budgets, row))
      && (s.result.Ok? ==> s.result.value == row
                           && s.after == st.(budgets := st.budgets + [row], nextId := st.nextId + 1))
      && (s.result.Err? ==> s.after == st)
  {
    var row := Budget(st.nextId, userId, category, limitAmount, month, year);
    if !ValidBudget(row) then Step(Err(ValidationFailed), st)
    else if SlotTaken(st.budgets, row) then Step(Err(UniqueViolation), st)
    else if !HasUser(st.users, userId) then Step(Err(ForeignKeyViolation), st)
    else Step(Ok(row), st.(budgets := st.budgets + [row], nextId := st.nextId + 1))
  }

  lemma CreateBudgetKeeps(st: DbState, isEmail: string -> bool, userId: nat, category: string, limitAmount: int,
                          month: int, year: int)
    requires DbOk(st, isEmail)
    ensures DbOk(CreateBudget(st, userId, category, limitAmount, month, year).after, isEmail)
  {
    var row := Budget(st.nextId, userId, category, limitAmount, month, year);
    if ValidBudget(row) && !SlotTaken(st.budgets, row) && HasUser(st.users, userId) {
      DbInsertBudget(st, isEmail, row);
      assert CreateBudget(st, userId, category, limitAmount, month, year).after
        == st.(budgets := st.budgets + [row], nextId := st.nextId + 1);
    } else {
      assert CreateBudget(st, userId, category, limitAmount, month, year).after == st;
    }
  }

  /** `budget.save()`: validation, the unique slot index against the other budgets, then the
    * foreign key. */
  function SaveBudget(st: DbState, b: Budget): (s: Step<Budget>)
    ensures var k := IndexWhere(st.budgets, IdIs(BudgetId, b.id));
      && (s.result.Ok? <==> ValidBudget(b) && !OtherRow(st.budgets, k, InSlotOf(b))
                            && HasUser(st.users, b.userId))
      && (s.result == Err(UniqueViolation) <==> ValidBudget(b) && OtherRow(st.budgets, k, InSlotOf(b)))
      && (s.result.Ok? ==> s.result.value == b
                           && s.after == (if k >= 0 then st.(budgets := st.budgets[k := b]) else st))
      && (s.result.Err? ==> s.after == st)
  {
    var k := IndexWhere(st.budgets, IdIs(BudgetId, b.id));
    if !ValidBudget(b) then Step(Err(ValidationFailed), st)
    else if OtherRow(st.budgets, k, InSlotOf(b)) then Step(Err(UniqueViolation), st)
    else if !HasUser(st.users, b.userId) then Step(Err(ForeignKeyViolation), st)
    else Step(Ok(b), if k >= 0 then st.(budgets := st.budgets[k := b]) else st)
  }

  lemma SaveBudgetKeeps(st: DbState, isEmail: string -> bool, b: Budget)
    requires DbOk(st, isEmail)
    ensures DbOk(SaveBudget(st, b).after, isEmail)
  {
    var k := IndexWhere(st.budgets, IdIs(BudgetId, b.id));
    if !ValidBudget(b) || OtherRow(st.budgets, k, InSlotOf(b)) || !HasUser(st.users, b.userId) {
      assert SaveBudget(st, b).after == st;
    } else if k >= 0 {
      DbReplaceBudget(st, isEmail, k, b);
      assert SaveBudget(st, b).after == st.(budgets := st.budgets[k := b]);
    } else {
      assert SaveBudget(st, b).after == st;
    }
  }

  /** `SavingsGoal.create(values)`: validation, then the foreign key. */
  function CreateGoal(st: DbState, userId: nat, title: string, targetAmount: int, currentAmount: int,
                      deadline: Date): (s: Step<SavingsGoal>)
    ensures var row := SavingsGoal(st.nextId, userId, title, targetAmount, currentAmount, deadline);
      && (s.result.Ok? <==> ValidGoal(row) && HasUser(st.users, userId))
      && (s.result.Ok? ==> s.result.value == row
                           && s.after == st.(goals := st.goals + [row], nextId := st.nextId + 1))
      && (s.result.Err? ==> s.after == st)
  {
    var row := SavingsGoal(st.nextId, userId, title, targetAmount, currentAmount, deadline);
    if !ValidGoal(row) then Step(Err(ValidationFailed), st)
    else if !HasUser(st.users, userId) then Step(Err(ForeignKeyViolation), st)
    else Step(Ok(row), st.(goals := st.goals + [row], nextId := st.nextId + 1))
  }

  lemma CreateGoalKeeps(st: DbState, isEmail: string -> bool, userId: nat, title: string, targetAmount: int,
                        currentAmount: int, deadline: Date)
    requires DbOk(st, isEmail)
    ensures DbOk(CreateGoal(st, userId, title, targetAmount, currentAmount, deadline).after, isEmail)
  {
    var row := SavingsGoal(st.nextId, userId, title, targetAmount, currentAmount, deadline);
    if ValidGoal(row) && HasUser(st.users, userId) {
      DbInsertGoal(st, isEmail, row);
      assert CreateGoal(st, userId, title, targetAmount, currentAmount, deadline).after
        == st.(goals := st.goals + [row], nextId := st.nextId + 1);
    } else {
      assert CreateGoal(st, userId, title, targetAmount, currentAmount, deadline).after == st;
    }
  }

  /** `goal.save()`: validation, then the foreign key. */
  function SaveGoal(st: DbState, g: SavingsGoal): (s: Step<SavingsGoal>)
    ensures var k := IndexWhere(st.goals, IdIs(GoalId, g.id));
      && (s.result.Ok? <==> ValidGoal(g) && HasUser(st.users, g.userId))
      && (s.result.Ok? ==> s.result.value == g
                           && s.after == (if k >= 0 then st.(goals := st.goals[k := g]) else st))
      && (s.result.Err? ==> s.after == st)
  {
    var k := IndexWhere(st.goals, IdIs(GoalId, g.id));
    if !ValidGoal(g) then Step(Err(ValidationFailed), st)
    else if !HasUser(st.users, g.userId) then Step(Err(ForeignKeyViolation), st)
    else Step(Ok(g), if k >= 0 then st.(goals := st.goals[k := g]) else st)
  }

  lemma SaveGoalKeeps(st: DbState, isEmail: string -> bool, g: SavingsGoal)
    requires DbOk(st, isEmail)
    ensures DbOk(SaveGoal(st, g).after, isEmail)
  {
    var k := IndexWhere(st.goals, IdIs(GoalId, g.id));
    if ValidGoal(g) && HasUser(st.users, g.userId) && k >= 0 {
      DbReplaceGoal(st, isEmail, k, g);
      assert SaveGoal(st, g).after == st.(goals := st.goals[k := g]);
    } else {
      assert SaveGoal(st, g).after == st;
    }
  }

  /** The whole database and its invariant. `isEmail` is the `isEmail` validator, which this
    * model takes as given. Each write changes the state exactly as the function of the same
    * operation above describes. */
  class Db {
    var state: DbState
    const isEmail: string -> bool

    ghost predicate Valid()
      reads this
    {
      DbOk(state, isEmail)
    }

    /** An empty database; auto-increment ids start at 1. */
    constructor (isEmail: string -> bool)
      ensures Valid() && this.isEmail == isEmail
      ensures state == DbState([], [], [], [], 1)
    {
      state := DbState([], [], [], [], 1);
      this.isEmail := isEmail;
    }

    /** `User.findByPk(id)`. */
    function FindUser(id: nat): (r: Option<User>)
      reads this
      ensures r.Some? ==> r.value in state.users && r.value.id == id
      ensures r.None? <==> !HasUser(state.users, id)
    {
      UserIdsMembers(state.users);
      FindFirst(state.users, IdIs(UserId, id))
    }

    /** `User.findOne({ where: { email } })`. */
    function FindUserByEmail(email: string): (r: Option<User>)
      reads this
      ensures r.Some? ==> r.value in state.users && r.value.email == email
      ensures r.None? <==> !EmailTaken(state.users, email)
    {
      FindFirst(state.users, EmailIs(email))
    }

    /** `User.findOne({ where: { resetPasswordToken: token } })`. */
    function FindUserByResetToken(token: string): (r: Option<User>)
      reads this
      ensures r.Some? ==> r.value in state.users && r.value.resetToken == Some(token)
      ensures r.None? <==> forall i :: 0 <= i < |state.users| ==> state.users[i].resetToken != Some(token)
    {
      FindFirst(state.users, HoldsToken(token))
    }

    /** `Transaction.findOne({ where: { id, userId } })`: the owner-scoped lookup. */
    function FindOwnedTransaction(id: nat, userId: nat): (r: Option<Transaction>)
      reads this
      ensures r.Some? ==> r.value in state.transactions && r.value.id == id && r.value.userId == userId
      ensures r.None? <==> forall i :: 0 <= i < |state.transactions| ==>
                             !(state.transactions[i].id == id && state.transactions[i].userId == userId)
    {
      FindFirst(state.transactions, (t: Transaction) => t.id == id && t.userId == userId)
    }

    /** `Transaction.findByPk(id)`: a lookup by id alone, whoever owns the row. */
    function FindTransaction(id: nat): (r: Option<Transaction>)
      reads this
      ensures r.Some? ==> r.value in state.transactions && r.value.id == id
      ensures r.None? <==> forall i :: 0 <= i < |state.transactions| ==> state.transactions[i].id != id
    {
      FindFirst(state.transactions, (t: Transaction) => t.id == id)
    }

    /** `Budget.findOne({ where: { id, userId } })`. */
    function FindOwnedBudget(id: nat, userId: nat): (r: Option<Budget>)
      reads this
      ensures r.Some? ==> r.value in state.budgets && r.value.id == id && r.value.userId == userId
      ensures r.None? <==> forall i :: 0 <= i < |state.budgets| ==>
                             !(state.budgets[i].id == id && state.budgets[i].userId == userId)
    {
      FindFirst(state.budgets, (b: Budget) => b.id == id && b.userId == userId)
    }

    /** `Budget.findOne({ where: { userId, category, month, year } })`: the slot lookup. */
    function FindBudgetSlot(userId: nat, category: string, month: int, year: int): (r: Option<Budget>)
      reads this
      ensures r.Some? ==> r.value in state.budgets && SameSlot(r.value, Budget(0, userId, category, 0, month, year))
      ensures r.None? <==> !SlotTaken(state.budgets, Budget(0, userId, category, 0, month, year))
    {
      FindFirst(state.budgets, (b: Budget) => SameSlot(b, Budget(0, userId, category, 0, month, year)))
    }

    /** `SavingsGoal.findOne({ where: { id, userId } })`. */
    function FindOwnedGoal(id: nat, userId: nat): (r: Option<SavingsGoal>)
      reads this
      ensures r.Some? ==> r.value in state.goals && r.value.id == id && r.value.userId == userId
      ensures r.None? <==> forall i :: 0 <= i < |state.goals| ==>
                             !(state.goals[i].id == id && state.goals[i].userId == userId)
    {
      FindFirst(state.goals, (g: SavingsGoal) => g.id == id && g.userId == userId)
    }

    method InsertUser(name: string, email: string, password: Secret, currency: string,
                      preferences: Preferences, salt: string) returns (r: Result<User, StoreError>)
      requires Valid()
      modifies this
      ensures Valid()
      ensures Step(r, state) == CreateUser(old(state), isEmail, name, email, password, currency, preferences, salt)
    {
      CreateUserKeeps(state, isEmail, name, email, password, currency, preferences, salt);
      var s := CreateUser(state, isEmail, name, email, password, currency, preferences, salt);
      r, state := s.result, s.after;
    }

    method UpdateUser(u: User, salt: string) returns (r: Result<User, StoreError>)
      requires Valid()
      modifies this
      ensures Valid()
      ensures Step(r, state) == SaveUser(old(state), isEmail, u, salt)
    {
      SaveUserKeeps(state, isEmail, u, salt);
      var s := SaveUser(state, isEmail, u, salt);
      r, state := s.result, s.after;
    }

    /** `user.destroy()`: the user and, through `onDelete: "CASCADE"`, everything it owns. */
    method DestroyUser(uid: nat)
      requires Valid()
      modifies this
      ensures Valid()
      ensures state == Cascade(old(state), uid)
    {
      DbCascade(state, isEmail, uid);
      state := Cascade(state, uid);
    }

    method InsertTransaction(userId: nat, kind: Kind, amount: int, category: string, date: Date,
                             description: Option<string>) returns (r: Result<Transaction, StoreError>)
      requires Valid()
      modifies this
      ensures Valid()
      ensures Step(r, state) == CreateTransaction(old(state), userId, kind, amount, category, date, description)
    {
      CreateTransactionKeeps(state, isEmail, userId, kind, amount, category, date, description);
      var s := CreateTransaction(state, userId, kind, amount, category, date, description);
      r, state := s.result, s.after;
    }

    method UpdateTransaction(t: Transaction) returns (r: Result<Transaction, StoreError>)
      requires Valid()
      modifies this
      ensures Valid()
      ensures Step(r, state) == SaveTransaction(old(state), t)
    {
      SaveTransactionKeeps(state, isEmail, t);
      var s := SaveTransaction(state, t);
      r, state := s.result, s.after;
    }

    /** `transaction.destroy()`: the row with that id goes, all others stay in order. */
    method DeleteTransaction(id: nat)
      requires Valid()
      modifies this
      ensures Valid()
      ensures state == old(state).(transactions := Filter(old(state.transactions), IdIsNot(TransactionId, id)))
    {
      DbDeleteTransaction(state, isEmail, id);
      state := state.(transactions := Filter(state.transactions, IdIsNot(TransactionId, id)));
    }

    method InsertBudget(userId: nat, category: string, limitAmount: int, month: int, year: int)
      returns (r: Result<Budget, StoreError>)
      requires Valid()
      modifies this
      ensures Valid()
      ensures Step(r, state) == CreateBudget(old(state), userId, category, limitAmount, month, year)
    {
      CreateBudgetKeeps(state, isEmail, userId, category, limitAmount, month, year);
      var s := CreateBudget(state, userId, category, limitAmount, month, year);
      r, state := s.result, s.after;
    }

    method UpdateBudget(b: Budget) returns (r: Result<Budget, StoreError>)
      requires Valid()
      modifies this
      ensures Valid()
      ensures Step(r, state) == SaveBudget(old(state), b)
    {
      SaveBudgetKeeps(state, isEmail, b);
      var s := SaveBudget(state, b);
      r, state := s.result, s.after;
    }

    /** `budget.destroy()`. */
    method DeleteBudget(id: nat)
      requires Valid()
      modifies this
      ensures Valid()
      ensures state == old(state).(budgets := Filter(old(state.budgets), IdIsNot(BudgetId, id)))
    {
      DbDeleteBudget(state, isEmail, id);
      state := state.(budgets := Filter(state.budgets, IdIsNot(BudgetId, id)));
    }

    method InsertGoal(userId: nat, title: string, targetAmount: int, currentAmount: int, deadline: Date)
      returns (r: Result<SavingsGoal, StoreError>)
      requires Valid()
      modifies this
      ensures Valid()
      ensures Step(r, state) == CreateGoal(old(state), userId, title, targetAmount, currentAmount, deadline)
    {
      CreateGoalKeeps(state, isEmail, userId, title, targetAmount, currentAmount, deadline);
      var s := CreateGoal(state, userId, title, targetAmount, currentAmount, deadline);
      r, state := s.result, s.after;
    }

    method UpdateGoal(g: SavingsGoal) returns (r: Result<SavingsGoal, StoreError>)
      requires Valid()
      modifies this
      ensures Valid()
      ensures Step(r, state) == SaveGoal(old(state), g)
    {
      SaveGoalKeeps(state, isEmail, g);
      var s := SaveGoal(state, g);
      r, state := s.result, s.after;
    }

    /** `goal.destroy()`. */
    method DeleteGoal(id: nat)
      requires Valid()
      modifies this
      ensures Valid()
      ensures state == old(state).(goals := Filter(old(state.goals), IdIsNot(GoalId, id)))
    {
      DbDeleteGoal(state, isEmail, id);
      state := state.(goals := Filter(state.goals, IdIsNot(GoalId, id)));
    }
  }
}
