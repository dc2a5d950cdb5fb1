/** The four stored entities of models/User.js, Transaction.js, Budget.js and SavingsGoal.js,
  * their column constraints (the model `validate` blocks and the `DECIMAL(10,2)` and `INTEGER`
  * column types), and the password digests the `User` hooks store. */
module Entities {
  import opened Wrappers
  import opened Calendar
  import Text

  /** The smallest stored amount, `min: 0.01`, in cents. */
  const MinAmount: int := 1
  /** The largest value a `DECIMAL(10,2)` column holds, 99 999 999.99, in cents. */
  const MaxDecimal: int := 99_999_999_99
  /** The largest value of an `INTEGER` column. */
  const MaxInteger: int := 0x7FFF_FFFF
  /** The `min` of the `year` column of a budget. */
  const MinBudgetYear: int := 2020

  /** The `ENUM("income", "expense")` column. */
  datatype Kind = Income | Expense

  function KindName(k: Kind): string {
    match k
    case Income => "income"
    case Expense => "expense"
  }

  /** The enumeration value a string names, if any. */
  function ParseKind(s: string): (r: Option<Kind>)
    ensures r.Some? <==> (s == "income" || s == "expense")
    ensures r.Some? ==> KindName(r.value) == s
  {
    if s == "income" then Some(Income) else if s == "expense" then Some(Expense) else None
  }

  /** Reading back the name of a kind gives the kind. */
  lemma ParseKindName(k: Kind)
    ensures ParseKind(KindName(k)) == Some(k)
  {
  }

  /** A bcrypt digest, idealised: it records the secret it was computed from and its salt, so
    * that comparing a candidate against it succeeds exactly for that secret. */
  datatype Digest = Bcrypt(secret: string, salt: string)

  /** `bcrypt.hash(p, 10)`, the random salt being a parameter. */
  function Hash(p: string, salt: string): (d: Digest)
    ensures Compare(p, d)
  {
    Bcrypt(p, salt)
  }

  /** `bcrypt.compare(p, d)`. */
  predicate Compare(p: string, d: Digest) {
    d.secret == p
  }

  /** The only candidate a digest accepts is the password it was computed from. */
  lemma CompareHash(p: string, q: string, salt: string)
    ensures Compare(q, Hash(p, salt)) <==> q == p
  {
  }

  /** The `notEmpty` validator: the value is not made of white space only. */
  predicate NotBlank(s: string) {
    Text.Trim(s) != []
  }

  /** The `len: [lo, hi]` validator. */
  predicate LenIn(s: string, lo: int, hi: int) {
    lo <= |s| <= hi
  }

  /** The JSON `preferences` column; the empty object `{}` has every entry absent. */
  datatype Preferences = Preferences(language: Option<string>, theme: Option<string>, notifications: Option<bool>)

  const NoPreferences := Preferences(None, None, None)

  /** What the `password` attribute of a user instance holds: the digest the hooks stored, a
    * plain text assigned since the row was read (`user.password = newPassword`), or nothing. */
  datatype Secret = Hashed(digest: Digest) | Plain(text: string) | NoPassword

  /** A row of `users`, or the attribute values of an instance over it. `resetExpires` is in
    * milliseconds. */
  datatype User = User(
    id: nat, name: string, email: string, password: Secret, currency: string,
    preferences: Preferences, resetToken: Option<string>, resetExpires: Option<int>)

  /** `password: len [6, 255]`, checked on the plain text before the hook hashes it. */
  predicate ValidPlainPassword(p: string) {
    LenIn(p, 6, 255)
  }

  /** The `validate` blocks and `allowNull: false` of models/User.js. Sequelize validates only
    * the columns a save changes: a digest already in the row is not checked again, a newly
    * assigned plain text is, and a missing password is a `notNull` violation. */
  predicate ValidUser(u: User, isEmail: string -> bool) {
    NotBlank(u.name) && LenIn(u.name, 2, 100) && isEmail(u.email) && LenIn(u.currency, 3, 3)
    && match u.password
       case Hashed(_) => true
       case Plain(p) => ValidPlainPassword(p)
       case NoPassword => false
  }

  /** The `beforeCreate`/`beforeUpdate` hooks: a plain-text password is replaced by its digest;
    * nothing else changes. No plain text survives them, and the digest accepts the text it
    * replaced. */
  function Hooked(u: User, salt: string): (r: User)
    ensures r.(password := u.password) == u
    ensures !r.password.Plain?
    ensures u.password.Plain? ==> r.password == Hashed(Hash(u.password.text, salt))
    ensures u.password.Plain? ==> Compare(u.password.text, r.password.digest)
    ensures !u.password.Plain? ==> r == u
  {
    match u.password
    case Plain(p) => u.(password := Hashed(Hash(p, salt)))
    case _ => u
  }

  /** The hooks hash once: running them again on a saved row leaves it as it is. */
  lemma HookedIdempotent(u: User, salt: string, salt2: string)
    ensures Hooked(Hooked(u, salt), salt2) == Hooked(u, salt)
  {
  }

  /** After the hooks a valid user holds a digest, and the digest accepts exactly the plain text
    * that was assigned. */
  lemma HookedStoresDigest(u: User, isEmail: string -> bool, salt: string, q: string)
    requires ValidUser(u, isEmail)
    ensures ValidUser(Hooked(u, salt), isEmail) && Hooked(u, salt).password.Hashed?
    ensures u.password.Plain? ==> (Compare(q, Hooked(u, salt).password.digest) <==> q == u.password.text)
  {
    if u.password.Plain? {
      CompareHash(u.password.text, q, salt);
    }
  }

  /** A row as the `users` table stores it: valid, with the password as a digest. */
  predicate StoredUser(u: User, isEmail: string -> bool) {
    ValidUser(u, isEmail) && u.password.Hashed?
  }

  /** A row of `transactions`. */
  datatype Transaction = Transaction(
    id: nat, userId: nat, kind: Kind, amount: int, category: string, date: Date,
    description: Option<string>)

  /** The `amount` column, as the sums over transactions read it. */
  function Amount(t: Transaction): int {
    t.amount
  }

  predicate ValidTransaction(t: Transaction) {
    NotBlank(t.category) && LenIn(t.category, 1, 100)
    && MinAmount <= t.amount <= MaxDecimal && ValidDate(t.date)
  }

  /** A row of `budgets`. */
  datatype Budget = Budget(id: nat, userId: nat, category: string, limitAmount: int, month: int, year: int)

  predicate ValidBudget(b: Budget) {
    NotBlank(b.category) && LenIn(b.category, 1, 100)
    && MinAmount <= b.limitAmount <= MaxDecimal
    && 1 <= b.month <= 12 && MinBudgetYear <= b.year <= MaxInteger
  }

  /** The columns of the unique index `(userId, category, month, year)`. */
  predicate SameSlot(a: Budget, b: Budget) {
    a.userId == b.userId && a.category == b.category && a.month == b.month && a.year == b.year
  }

  /** A row of `savings_goals`. */
  datatype SavingsGoal = SavingsGoal(
    id: nat, userId: nat, title: string, targetAmount: int, currentAmount: int, deadline: Date)

  predicate ValidGoal(g: SavingsGoal) {
    NotBlank(g.title) && LenIn(g.title, 1, 200)
    && MinAmount <= g.targetAmount <= MaxDecimal
    && 0 <= g.currentAmount <= MaxDecimal
    && ValidDate(g.deadline)
  }
}
