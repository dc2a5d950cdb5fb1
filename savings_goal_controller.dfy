/** controllers/SavingsGoalController.js: creation of a savings goal from the validated form, the
  * list of the user's goals by deadline, and the update and deletion of a goal the user owns.
  * The session's user id is a parameter; the express-validator verdict is the form predicate of
  * module Validators. */
module SavingsGoalController {
  import opened Wrappers
  import opened Calendar
  import opened Forms
  import opened Entities
  import opened Tables
  import opened Ordering
  import opened Store
  import opened Validators

  /** What a handler answers: the created or updated goal, the deletion, the rejected form, a
    * goal that is not the user's, and the generic error of its `catch`. */
  datatype Outcome =
    | Created(goal: SavingsGoal)
    | Updated(goal: SavingsGoal)
    | Deleted
    | FormRejected
    | NotFound
    | Failed

  /** An answer and the database after it. */
  datatype Handled = Handled(outcome: Outcome, after: DbState)

  // ----- create -----

  /** The row `create` inserts: the form's title, target and deadline, a current amount of 0
    * whatever the form says, the session's user. */
  function NewGoal(st: DbState, userId: nat, f: GoalForm): SavingsGoal
    requires GoalFormValid(f)
  {
    SavingsGoal(st.nextId, userId, f.title.value, f.targetAmount.n, 0, f.deadline.d)
  }

  /** `create` over a database state: a rejected form creates nothing; otherwise
    * `SavingsGoal.create`, whose validation or foreign-key failure is the generic error. */
  function CreateOf(st: DbState, userId: nat, f: GoalForm): (r: Handled)
    ensures !GoalFormValid(f) ==> r == Handled(FormRejected, st)
    ensures r.outcome.Created? <==>
              GoalFormValid(f) && ValidGoal(NewGoal(st, userId, f)) && HasUser(st.users, userId)
    ensures r.outcome.Created? ==>
              && r.outcome.goal.currentAmount == 0 && r.outcome.goal.userId == userId
              && f.title == Some(r.outcome.goal.title) && f.targetAmount == Given(r.outcome.goal.targetAmount)
              && f.deadline == Iso(r.outcome.goal.deadline)
              && r.after == st.(goals := st.goals + [r.outcome.goal], nextId := st.nextId + 1)
    ensures !r.outcome.Created? ==> r.after == st
    ensures r.outcome.Created? || r.outcome == FormRejected || r.outcome == Failed
  {
    if !GoalFormValid(f) then Handled(FormRejected, st)
    else
      var s := CreateGoal(st, userId, f.title.value, f.targetAmount.n, 0, f.deadline.d);
      if s.result.Ok? then Handled(Created(s.result.value), s.after) else Handled(Failed, st)
  }

  /** `POST /savings`. */
  method Create(db: Db, userId: nat, f: GoalForm) returns (r: Outcome)
    requires db.Valid()
    modifies db
    ensures db.Valid()
    ensures Handled(r, db.state) == CreateOf(old(db.state), userId, f)
  {
    if !GoalFormValid(f) {
      return FormRejected;
    }
    var created := db.InsertGoal(userId, f.title.value, f.targetAmount.n, 0, f.deadline.d);
    r := if created.Ok? then Created(created.value) else Failed;
  }

  // ----- index -----

  /** `order: [["deadline", "ASC"]]`, ties in creation order. */
  function DeadlineKey(g: SavingsGoal): Key {
    Key(g.deadline.year, g.deadline.month, g.deadline.day, g.id)
  }

  /** `where: { userId }`. */
  function OwnedBy(userId: nat): SavingsGoal -> bool {
    (g: SavingsGoal) => g.userId == userId
  }

  /** What `GET /savings` lists: every goal of the user and no other, earliest deadline first. */
  function IndexOf(goals: seq<SavingsGoal>, userId: nat): (r: seq<SavingsGoal>)
    ensures multiset(r) == multiset(Filter(goals, OwnedBy(userId)))
    ensures forall i :: 0 <= i < |r| ==> r[i] in goals && r[i].userId == userId
    ensures forall i :: 0 <= i < |goals| && goals[i].userId == userId ==> goals[i] in r
    ensures SortedBy(r, DeadlineKey, Asc)
  {
    SortedRows(goals, OwnedBy(userId), DeadlineKey, Asc);
    SortBy(Filter(goals, OwnedBy(userId)), DeadlineKey, Asc)
  }

  /** `GET /savings`. */
  method Index(db: Db, userId: nat) returns (goals: seq<SavingsGoal>)
    ensures goals == IndexOf(db.state.goals, userId)
  {
    goals := SortBy(Filter(db.state.goals, OwnedBy(userId)), DeadlineKey, Asc);
  }

  /** A created goal joins the user's list, which otherwise holds the same goals as before. */
  lemma CreatedGoalListed(st: DbState, userId: nat, f: GoalForm)
    requires CreateOf(st, userId, f).outcome.Created?
    ensures var r := CreateOf(st, userId, f);
            multiset(IndexOf(r.after.goals, userId)) == multiset(IndexOf(st.goals, userId)) + multiset{r.outcome.goal}
  {
    var g := CreateOf(st, userId, f).outcome.goal;
    FilterAppend(st.goals, [g], OwnedBy(userId));
    assert [g][..0] == [];
    assert Filter([g], OwnedBy(userId)) == [g];
  }

  // ----- update and delete -----

  /** `where: { id, userId }`. */
  function GoalIs(id: nat, userId: nat): SavingsGoal -> bool {
    (g: SavingsGoal) => g.id == id && g.userId == userId
  }

  /** `SavingsGoal.findOne({ where: { id, userId } })`. */
  function OwnedGoal(goals: seq<SavingsGoal>, id: nat, userId: nat): (r: Option<SavingsGoal>)
    ensures r.Some? ==> r.value in goals && r.value.id == id && r.value.userId == userId
    ensures r.None? <==> forall i :: 0 <= i < |goals| ==> !(goals[i].id == id && goals[i].userId == userId)
  {
    FindFirst(goals, GoalIs(id, userId))
  }

  /** `savingsGoal.update({ title, targetAmount, currentAmount, deadline })`: the four fields
    * set from the form; an absent current amount is `undefined`, which `update` leaves out. */
  function Edited(g: SavingsGoal, f: GoalForm): (e: SavingsGoal)
    requires GoalFormValid(f)
  {
    g.(title := f.title.value, targetAmount := f.targetAmount.n,
       currentAmount := if f.currentAmount.Given? then f.currentAmount.n else g.currentAmount,
       deadline := f.deadline.d)
  }

  /** `update` over a database state. The ownership lookup comes first, so a goal that is not
    * the user's is not found whatever the form holds; a rejected form then changes nothing. A
    * current amount sent empty passes the form and cannot be stored, so it is the generic error.
    * Otherwise only the found goal changes: the form's title, target, deadline and current
    * amount (kept when absent), id and owner as they were. */
  function UpdateOf(st: DbState, userId: nat, id: nat, f: GoalForm): (r: Handled)
    ensures OwnedGoal(st.goals, id, userId).None? ==> r == Handled(NotFound, st)
    ensures OwnedGoal(st.goals, id, userId).Some? && !GoalFormValid(f) ==> r == Handled(FormRejected, st)
    ensures OwnedGoal(st.goals, id, userId).Some? && GoalFormValid(f) ==>
              (r.outcome.Updated? <==>
                 && !f.currentAmount.Blank?
                 && ValidGoal(Edited(OwnedGoal(st.goals, id, userId).value, f))
                 && HasUser(st.users, userId))
    ensures r.outcome.Updated? ==>
              var old_ := OwnedGoal(st.goals, id, userId).value;
              var g := r.outcome.goal;
              var k := IndexWhere(st.goals, IdIs(GoalId, id));
              && OwnedGoal(st.goals, id, userId).Some? && GoalFormValid(f)
              && g.id == id && g.userId == userId
              && f.title == Some(g.title) && f.targetAmount == Given(g.targetAmount) && f.deadline == Iso(g.deadline)
              && (f.currentAmount.Given? ==> g.currentAmount == f.currentAmount.n)
              && (f.currentAmount.Missing? ==> g.currentAmount == old_.currentAmount)
              && ValidGoal(g)
              && 0 <= k < |st.goals| && r.after == st.(goals := st.goals[k := g])
    ensures !r.outcome.Updated? ==> r.after == st
    ensures r.outcome.Updated? || r.outcome in {NotFound, FormRejected, Failed}
  {
    var found := OwnedGoal(st.goals, id, userId);
    if found.None? then Handled(NotFound, st)
    else if !GoalFormValid(f) then Handled(FormRejected, st)
    else if f.currentAmount.Blank? then Handled(Failed, st)
    else
      var g := Edited(found.value, f);
      RowIsIndexed(st.goals, GoalId, found.value);
      var s := SaveGoal(st, g);
      if s.result.Ok? then Handled(Updated(g), s.after) else Handled(Failed, st)
  }

  /** `PUT /savings/:id`. */
  method Update(db: Db, userId: nat, id: nat, f: GoalForm) returns (r: Outcome)
    requires db.Valid()
    modifies db
    ensures db.Valid()
    ensures Handled(r, db.state) == UpdateOf(old(db.state), userId, id, f)
  {
    var found := OwnedGoal(db.state.goals, id, userId);
    if found.None? {
      return NotFound;
    }
    if !GoalFormValid(f) {
      return FormRejected;
    }
    if f.currentAmount.Blank? {
      return Failed;
    }
    ghost var st, g := db.state, Edited(found.value, f);
    assert UpdateOf(st, userId, id, f)
           == var s := SaveGoal(st, g); if s.result.Ok? then Handled(Updated(g), s.after) else Handled(Failed, st);
    var saved := db.UpdateGoal(Edited(found.value, f));
    r := if saved.Ok? then Updated(saved.value) else Failed;
  }

  /** With goal ids unique, as in a consistent database, the row an update rewrites is the
    * user's goal with that id: no other user's list changes, the user's list holds the updated
    * goal, and the old version of the goal is gone. */
  lemma UpdateTouchesOnlyOwnedGoal(st: DbState, userId: nat, id: nat, f: GoalForm, other: nat)
    requires IdsIncreasing(st.goals, GoalId, st.nextId)
    requires UpdateOf(st, userId, id, f).outcome.Updated?
    requires other != userId
    ensures var r := UpdateOf(st, userId, id, f);
            && IndexOf(r.after.goals, other) == IndexOf(st.goals, other)
            && r.outcome.goal in IndexOf(r.after.goals, userId)
            && (OwnedGoal(st.goals, id, userId).value != r.outcome.goal ==>
                  OwnedGoal(st.goals, id, userId).value !in r.after.goals)
  {
    var r := UpdateOf(st, userId, id, f);
    var found := OwnedGoal(st.goals, id, userId).value;
    var k := IndexWhere(st.goals, IdIs(GoalId, id));
    assert IdIs(GoalId, id)(st.goals[k]);
    assert st.goals[k] == found by {
      var j :| 0 <= j < |st.goals| && st.goals[j] == found;
      if j != k {
        IdsDistinct(st.goals, GoalId, st.nextId, j, k);
      }
    }
    var g := r.outcome.goal;
    var after := st.goals[k := g];
    assert r.after.goals == after;
    ReplaceOwnedRow(st.goals, st.nextId, k, g, userId, other);
    assert after[k] == g && g.userId == userId;
  }

  /** Rewriting one user's row with another row of the same id and owner: no other user's rows
    * change, and the old row is gone when it differs from the new one. */
  lemma ReplaceOwnedRow(goals: seq<SavingsGoal>, n: nat, k: int, g: SavingsGoal, userId: nat, other: nat)
    requires IdsIncreasing(goals, GoalId, n) && 0 <= k < |goals|
    requires goals[k].userId == userId && g.userId == userId && g.id == goals[k].id && other != userId
    ensures Filter(goals[k := g], OwnedBy(other)) == Filter(goals, OwnedBy(other))
    ensures goals[k] != g ==> goals[k] !in goals[k := g]
  {
    FilterReplaceRejected(goals, k, g, OwnedBy(other));
    var t := goals[k := g];
    forall i | 0 <= i < |t| && i != k ensures t[i].id != goals[k].id {
      IdsDistinct(goals, GoalId, n, i, k);
    }
  }

  /** `delete` over a database state: the user's goal with that id is removed, and nothing
    * else; an id the user does not own changes nothing. */
  function DeleteOf(st: DbState, userId: nat, id: nat): (r: Handled)
    ensures r.outcome == Deleted <==> OwnedGoal(st.goals, id, userId).Some?
    ensures r.outcome != Deleted ==> r == Handled(NotFound, st)
    ensures r.outcome == Deleted ==>
              && r.after == st.(goals := r.after.goals)
              && (forall i :: 0 <= i < |r.after.goals| ==> r.after.goals[i].id != id && r.after.goals[i] in st.goals)
              && (forall i :: 0 <= i < |st.goals| && st.goals[i].id != id ==> st.goals[i] in r.after.goals)
  {
    if OwnedGoal(st.goals, id, userId).None? then Handled(NotFound, st)
    else
      var rest := Filter(st.goals, IdIsNot(GoalId, id));
      FilterMembers(st.goals, IdIsNot(GoalId, id));
      Handled(Deleted, st.(goals := rest))
  }

  /** `DELETE /savings/:id`. */
  method Delete(db: Db, userId: nat, id: nat) returns (r: Outcome)
    requires db.Valid()
    modifies db
    ensures db.Valid()
    ensures Handled(r, db.state) == DeleteOf(old(db.state), userId, id)
  {
    var found := OwnedGoal(db.state.goals, id, userId);
    if found.None? {
      return NotFound;
    }
    db.DeleteGoal(id);
    r := Deleted;
  }

  /** With goal ids unique, as in a consistent database, a deletion takes the goal out of the
    * user's list and leaves every other user's list as it was. */
  lemma DeleteTouchesOnlyOwnedGoal(st: DbState, userId: nat, id: nat, other: nat)
    requires IdsIncreasing(st.goals, GoalId, st.nextId)
    requires DeleteOf(st, userId, id).outcome == Deleted
    requires other != userId
    ensures var after := DeleteOf(st, userId, id).after;
            && IndexOf(after.goals, other) == IndexOf(st.goals, other)
            && OwnedGoal(after.goals, id, userId).None?
  {
    var found := OwnedGoal(st.goals, id, userId).value;
    var j :| 0 <= j < |st.goals| && st.goals[j] == found;
    var keep := IdIsNot(GoalId, id);
    var both := (g: SavingsGoal) => keep(g) && OwnedBy(other)(g);
    FilterConj(st.goals, keep, OwnedBy(other), both);
    forall i | 0 <= i < |st.goals| ensures both(st.goals[i]) == OwnedBy(other)(st.goals[i]) {
      if i != j {
        IdsDistinct(st.goals, GoalId, st.nextId, i, j);
      }
    }
    FilterSameOn(st.goals, both, OwnedBy(other));
  }
}
