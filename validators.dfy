/** The `express-validator` chains of routes/transactions.js, routes/savings.js and
  * routes/profile.js, as predicates over the submitted form. `optional({ checkFalsy: true })`
  * skips a rule when the field is absent or empty. */
module Validators {
  import opened Wrappers
  import opened Calendar
  import opened Forms
  import opened Entities
  import Text

  /** The largest amount the transaction form accepts, 999 999.99, in cents. */
  const MaxFormAmount: int := 999_999_99

  /** `isLength({ min: lo, max: hi })` on a field that must be a string. */
  predicate TextLength(v: Option<string>, lo: int, hi: int) {
    v.Some? && lo <= |v.value| <= hi
  }

  /** A rule under `optional({ checkFalsy: true })`: it holds when the field is falsy. */
  predicate OptionalText(v: Option<string>, lo: int, hi: int) {
    !Truthy(v) || lo <= |v.value| <= hi
  }

  /** `isFloat({ min: lo, max: hi })`, bounds in cents. */
  predicate FloatIn(v: NumInput, lo: int, hi: Option<int>) {
    v.Given? && lo <= v.n && (hi.Some? ==> v.n <= hi.value)
  }

  /** The body of `POST /transactions` and `PUT /transactions/:id`. */
  datatype TransactionForm = TransactionForm(
    kind: Option<string>, amount: NumInput, category: Option<string>, newCategory: Option<string>,
    description: Option<string>, date: DateInput)

  /** `transactionValidation`: the type is `income` or `expense`, the amount lies in
    * [0.01, 999 999.99], a category and a new category are each 1..100 characters when
    * given, the description is at most 255, a date is ISO 8601 when given, and at least one
    * of the two categories is given. */
  predicate TransactionFormValid(f: TransactionForm) {
    && (f.kind == Some("income") || f.kind == Some("expense"))
    && FloatIn(f.amount, MinAmount, Some(MaxFormAmount))
    && OptionalText(f.category, 1, 100)
    && OptionalText(f.newCategory, 1, 100)
    && OptionalText(f.description, 0, 255)
    && (DateTruthy(f.date) ==> f.date.Iso?)
    && (Truthy(f.category) || Truthy(f.newCategory))
  }

  /** The body of `POST /savings` and `PUT /savings/:id`. */
  datatype GoalForm = GoalForm(title: Option<string>, targetAmount: NumInput, currentAmount: NumInput, deadline: DateInput)

  /** `savingsGoalValidation`: a title of 2..200 characters, a target of at least 0.01, a current
    * amount of at least 0 when given, and an ISO 8601 deadline. */
  predicate GoalFormValid(f: GoalForm) {
    && TextLength(f.title, 2, 200)
    && FloatIn(f.targetAmount, MinAmount, None)
    && (!NumTruthy(f.currentAmount) || FloatIn(f.currentAmount, 0, None))
    && f.deadline.Iso?
  }

  /** The body of `POST /profile/update`. */
  datatype ProfileForm = ProfileForm(
    name: Option<string>, email: Option<string>, currency: Option<string>,
    currentPassword: Option<string>, newPassword: Option<string>)

  /** `profileUpdateValidation`: a name of 2..100 characters, an email the `isEmail` check
    * accepts, a currency of exactly 3 characters, and a new password of at least 6 when given. */
  predicate ProfileFormValid(f: ProfileForm, isEmail: string -> bool) {
    && TextLength(f.name, 2, 100)
    && f.email.Some? && isEmail(f.email.value)
    && TextLength(f.currency, 3, 3)
    && (!Truthy(f.newPassword) || |f.newPassword.value| >= 6)
  }

  /** `newCategory && newCategory.trim() ? newCategory.trim() : category`: the category chosen
    * as sent, or a new category that is non-blank and has nothing left to trim. */
  function FinalCategory(category: Option<string>, newCategory: Option<string>): (r: Option<string>)
    ensures r == category || (r.Some? && NotBlank(r.value) && Text.Trim(r.value) == r.value)
    ensures newCategory.Some? && NotBlank(newCategory.value) ==> r == Some(Text.Trim(newCategory.value))
    ensures !(newCategory.Some? && NotBlank(newCategory.value)) ==> r == category
  {
    if newCategory.Some? && Text.Trim(newCategory.value) != [] then
      Text.TrimIdempotent(newCategory.value);
      Some(Text.Trim(newCategory.value))
    else category
  }

  /** A non-blank new category wins, trimmed; otherwise the chosen category is used as sent. */
  lemma {:induction false} FinalCategoryTrimmed(category: Option<string>, newCategory: Option<string>)
    requires newCategory.Some? && NotBlank(newCategory.value)
    ensures var r := FinalCategory(category, newCategory); r.Some? && NotBlank(r.value) && Text.Trim(r.value) == r.value
  {
    Text.TrimIdempotent(newCategory.value);
  }

  /** The form rules do not promise a category: a blank new category passes them, and with no
    * category chosen the row to create has none. */
  lemma BlankNewCategoryPassesForm()
    ensures var f := TransactionForm(Some("income"), Given(100), None, Some("  "), None, NoDate);
      TransactionFormValid(f) && FinalCategory(f.category, f.newCategory).None?
  {
    var s := "  ";
    assert Text.TrimStart(s) == [] by {
      assert Text.IsSpace(s[0]) && Text.IsSpace(s[1]);
    }
    assert !NotBlank(s);
  }

  /** A form the rules accept gives a transaction the model accepts, once the category it ends up
    * with is not blank and the date is an existing day. */
  lemma FormGivesValidTransaction(f: TransactionForm, today: Date, id: nat, userId: nat)
    requires TransactionFormValid(f)
    requires var c := FinalCategory(f.category, f.newCategory); c.Some? && NotBlank(c.value)
    requires ValidDate(if f.date.Iso? then f.date.d else today)
    ensures var c := FinalCategory(f.category, f.newCategory).value;
      ValidTransaction(Transaction(id, userId, if f.kind == Some("income") then Income else Expense,
                                   f.amount.n, c, if f.date.Iso? then f.date.d else today,
                                   if Truthy(f.description) then f.description else None))
  {
    var c := FinalCategory(f.category, f.newCategory).value;
    if f.newCategory.Some? && NotBlank(f.newCategory.value) {
      Text.TrimIsSlice(f.newCategory.value, |f.newCategory.value| - |Text.TrimStart(f.newCategory.value)|);
    }
  }

  /** The route's title rule is stricter than the model's `len: [1, 200]`. */
  lemma GoalTitleRuleStricter(f: GoalForm)
    requires GoalFormValid(f)
    ensures LenIn(f.title.value, 1, 200)
  {
  }

  /** The route's profile rules give the model's length and email constraints. */
  lemma ProfileRulesGiveUserColumns(f: ProfileForm, isEmail: string -> bool)
    requires ProfileFormValid(f, isEmail)
    ensures LenIn(f.name.value, 2, 100) && isEmail(f.email.value) && LenIn(f.currency.value, 3, 3)
  {
  }
}
