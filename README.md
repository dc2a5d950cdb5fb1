# A verified model of a personal-finance web application

The application is an Express server over a Sequelize database. Users register and sign in; they record income and expense transactions, set monthly budgets per category and follow savings goals. A dashboard sums the current month, and a password can be reset through an emailed token. This project models its core in Dafny and proves properties of that model:

- the four stored entities with their column constraints, the unique email and budget-slot indexes, the `userId` foreign keys and the cascade from a user to everything it owns (modules `Entities` and `Store`);
- the instance methods of the `User`, `Transaction` and `Budget` models: the whitelisted partial updates, the password hooks and the reset-token lifecycle, and `checkBudget` (modules `UserModel`, `TransactionModel` and `BudgetModel`);
- the request handlers of the transaction, budget, dashboard, authentication, profile and savings-goal controllers and of the budgets page (one module each). Each is a pure function of the database state that states the answer and the new state, plus a method on the `Db` class that performs the steps and is proved equal to it;
- the `express-validator` rule chains of the transaction, savings and profile routes (module `Validators`);
- `trim`, integer rounding, calendar months, `ORDER BY`, `LIMIT` and the CSV export text (modules `Text`, `Arith`, `Calendar`, `Ordering`, `Tables` and `Csv`).

Modelling choices:

- Amounts are integer cents, since the `DECIMAL(10,2)` columns hold exact cents. Percentages are scaled integers: hundredths of a percent for `percentageUsed`, tenths for `savingsProgress`.
- A table is a sequence of rows in insertion order. As a modelling choice, ids come from one counter shared by all tables, so they increase along every table; a tie in an `ORDER BY` is resolved by id, which stands for creation order.
- The database is assumed to be MySQL through the `mysql2` driver; config/database.js, which names the dialect, is not part of this model. The tie order, the one-second `created_at` resolution and the `DECIMAL` text (`"12.50"`, `Csv.DecimalText`) named below are that assumption's.
- The timestamps are read as Sequelize `underscored` columns (`created_at`, `updated_at`, `user_id`): config/database.js, which would say so, is not part of this model. Under that reading `createdAt` and `created_at` both order by creation, which the model takes as id order.
- A Sequelize query is a filter, sum, count or sort over those sequences.
- The following are parameters of the operations that use them:
  - the clock (`new Date()`, `Date.now()`);
  - the random reset token;
  - the bcrypt salt;
  - whether the reset email could be sent;
  - the `isEmail` validator.
- A bcrypt digest is idealised: it accepts exactly the password it was computed from.
- Each handler's response (render, redirect, flash or JSON) is an `Outcome` value.

## Model

| member | source | states |
|---|---|---|
| Arith.CeilDiv | controllers/TransactionController.js:80 | `Math.ceil(count / limit)`: the least integer `q` with `a <= b * q`, for either sign of the divisor |
| Arith.RoundHalfUp | models/Budget.js:110 | `Math.round`: the nearest integer, halves rounded up (`2·den·r − den <= 2·num < 2·den·r + den`) |
| Arith.RoundHalfUpAtLeast | models/Budget.js:110 | rounding never goes below a whole-number lower bound of the exact value |
| Arith.RoundHalfUpAtMost | models/Budget.js:110 | rounding never goes above a whole-number upper bound of the exact value |
| Text.TrimStart | controllers/TransactionController.js:30-32 | the result is a suffix of the input, starts with no white space, and only white space was cut |
| Text.TrimEnd | controllers/TransactionController.js:30-32 | the result is a prefix of the input, ends with no white space, and only white space was cut |
| Text.TrimIsSlice | controllers/TransactionController.js:143 | `trim()` returns a contiguous slice of the input with no white space at either end |
| Text.TrimCutsOnlySpace | controllers/TransactionController.js:143 | every character `trim()` drops, before or after the slice, is white space |
| Text.TrimIdempotent | controllers/TransactionController.js:143 | trimming a trimmed string changes nothing |
| Text.TrimEmptyIff | controllers/TransactionController.js:30-32 | `trim()` gives the empty string exactly when every character is white space |
| Text.TrimIsSubstring | controllers/TransactionController.js:30-32 | the trimmed text occurs in the input |
| Text.Utf16Length | controllers/AuthController.js:38 | JavaScript's `length` counts one code unit per character of the Basic Multilingual Plane and two for any other, so it lies between the number of characters and twice that |
| Text.AstralLength | controllers/AuthController.js:38 | a password of three emoji has length 6 to the controller while it is 3 characters |
| Calendar.DaysInMonth | models/Budget.js:86 | a month has 28 to 31 days; February's length follows the Gregorian leap-year rule |
| Calendar.FebruaryLength | models/Budget.js:86 | February has 29 days exactly in leap years and 28 otherwise |
| Calendar.DateLeTotalOrder | models/Budget.js:94 | the day order used by `BETWEEN` is reflexive, antisymmetric, transitive and total |
| Calendar.MonthInterval | models/Budget.js:85-86 | `new Date(y, m - 1, 1)` .. `new Date(y, m, 0)` are real days, the first and the last of one month, and for `m` in 1..12 that month is `m` of year `y` (0..99 read as 1900..1999) |
| Calendar.InMonthIntervalIff | models/Budget.js:85-94 | a real day lies between the two dates exactly when it falls in month `m` of that year |
| Calendar.FebruaryInterval | models/Budget.js:86 | the period of a February budget ends on the 29th in leap years and the 28th otherwise |
| Forms.ParseOr | controllers/TransactionController.js:15-16 | `parseInt(v) \|\| d` is never 0 when the default is not, and it is either the parsed value or the default: the parsed value unless that is `NaN` or 0 |
| Entities.ParseKind | models/Transaction.js:20-23 | only `"income"` and `"expense"` name a value of the `type` enumeration, and the value read back names the string |
| Entities.ParseKindName | models/Transaction.js:20-23 | reading the name of a kind gives the kind back |
| Entities.Hash | models/User.js:61-65 | the digest `bcrypt.hash` stores accepts the password it was computed from |
| Entities.CompareHash | models/User.js:76-78 | `bcrypt.compare` against a digest succeeds exactly for the password it was computed from |
| Entities.Hooked | models/User.js:60-71 | the hooks change nothing but the password, leave no plain text behind, and the digest they store accepts the password it replaced |
| Entities.HookedIdempotent | models/User.js:60-71 | running the hooks on a row they already processed changes nothing: a password is hashed once |
| Entities.HookedStoresDigest | models/User.js:60-71 | after the hooks a valid user holds a digest that accepts exactly the assigned password |
| Tables.FilterMembers | controllers/TransactionController.js:60-72 | a `WHERE` keeps exactly the rows that satisfy it, and only rows of the table |
| Tables.FindFirst | controllers/TransactionController.js:169-183 | `findOne` returns a matching row of the table, and nothing exactly when no row matches |
| Tables.IndexWhere | controllers/TransactionController.js:169-183 | the position of the first matching row, or -1 exactly when no row matches |
| Tables.FindFirstIsIndexWhere | controllers/TransactionController.js:169-183 | the row `findOne` returns is the row at the first matching position |
| Tables.SumFilter | models/Budget.js:88-101 | summing over the selected rows is summing over all rows with 0 for the rows left out |
| Tables.SumPartition | controllers/TransactionController.js:418-435 | the sum over a table splits into the sums over the rows where a condition holds and where it fails |
| Tables.SumNonNegative | models/Budget.js:99-101 | a sum of non-negative amounts is non-negative |
| Tables.CountIsFilterLength | controllers/TransactionController.js:426 | `COUNT` is the number of rows the `WHERE` keeps |
| Tables.FilterConj | controllers/TransactionController.js:419-425 | adding `type` to a spread `WHERE` is filtering the selected rows again by `type` |
| Tables.FilterAll | controllers/TransactionController.js:60-72 | a condition every row satisfies keeps the whole table |
| Tables.CountMono | controllers/TransactionController.js:426 | a weaker condition counts at least as many rows |
| Tables.FilterReplaceRejected | models/Budget.js:88-97 | rewriting a row the `WHERE` rejects into another rejected row leaves the selection as it was |
| Tables.FilterSameOn | controllers/TransactionController.js:60-72 | two conditions that agree on every row select the same rows |
| Ordering.BeforeTotal | controllers/TransactionController.js:55-57 | the `ORDER BY` key order, ties broken by id, is total and transitive in both directions |
| Ordering.Insert | controllers/TransactionController.js:55-72 | inserting into a sorted table keeps it sorted and adds exactly that row |
| Ordering.SortBy | controllers/TransactionController.js:55-72 | the `ORDER BY` result is a permutation of the rows and sorted by the key in the given direction |
| Ordering.PermutationMembers | controllers/TransactionController.js:55-72 | sorting keeps the number of rows and the set of rows |
| Ordering.SortedRows | controllers/TransactionController.js:346-356 | `findAll({ where, order })` holds every selected row and nothing else |
| Ordering.TakeIsTop | controllers/DashboardController.js:56-63 | the first `n` rows of a sorted table (`LIMIT n`) are sorted and come before every row left out |
| Ordering.LeftOutComesAfter | controllers/DashboardController.js:56-63 | a row beyond the `LIMIT` comes after each row that was kept |
| Store.AppendKeepsIds | models/index.js:10-43 | a row created with the next id keeps the ids of the table strictly increasing |
| Store.FilterKeepsIds | models/index.js:10-43 | deleting rows keeps the ids strictly increasing |
| Store.UserIdsRemove | models/index.js:10-14 | destroying the users with id `uid` removes exactly that id from the users table |
| Store.OwnedAfterCascade | models/index.js:10-43 | after a user and the rows it owns are removed, every remaining row's owner still exists |
| Store.IdsDistinct | models/index.js:10-43 | two rows of a table never share an id |
| Store.FilterKeepsEmailsUnique | models/User.js:21-28 | deleting users keeps the emails unique |
| Store.FilterKeepsSlotsUnique | models/Budget.js:53-58 | deleting budgets keeps the `(userId, category, month, year)` index unique |
| Store.SlotsUniqueAppend | models/Budget.js:53-58 | a budget whose slot is free keeps the unique index when it is added |
| Store.Cascade | models/index.js:10-38 | destroying a user keeps the id counter |
| Store.CascadeRemovesOwned | models/index.js:10-38 | after `destroy` with `onDelete: "CASCADE"` nothing of the user is left in any table, and every row of any other owner is still there |
| Store.DbCascade | models/index.js:10-43 | the cascade keeps every table's constraints, unique indexes and foreign keys |
| Store.DbInsertUser | models/User.js:21-28 | a stored user with a fresh id and an unused email keeps the database consistent |
| Store.DbUpdateUser | models/User.js:21-28 | rewriting a user row with an email no other user holds keeps the database consistent |
| Store.DbInsertTransaction | models/index.js:16-19 | a valid transaction whose owner exists keeps the database consistent |
| Store.DbInsertBudget | models/Budget.js:53-58 | a valid budget in a free slot whose owner exists keeps the database consistent |
| Store.DbReplaceBudget | models/Budget.js:53-58 | rewriting a budget into a slot no other budget takes keeps the database consistent |
| Store.DbInsertGoal | models/index.js:40-43 | a valid goal whose owner exists keeps the database consistent |
| Store.CreateUser | models/User.js:13-71 | `User.create` succeeds exactly for a valid row whose email is unused (a used email is the unique-constraint error); the new row has the next id, no reset token and the hooked password, and a failure changes nothing |
| Store.CreateUserKeeps | models/User.js:13-71 | `User.create` keeps the database consistent |
| Store.SaveUser | models/User.js:66-70 | `user.save()` succeeds exactly for a valid row whose email no other user holds; it rewrites the row of that id with the hooked values, and a failure changes nothing |
| Store.SaveUserKeeps | models/User.js:13-71 | `user.save()` keeps the database consistent |
| Store.CreateTransaction | models/Transaction.js:7-47 | `Transaction.create` succeeds exactly for a valid row whose owner exists, appends it with the next id, and a failure changes nothing |
| Store.CreateTransactionKeeps | models/Transaction.js:7-47 | `Transaction.create` keeps the database consistent |
| Store.SaveTransaction | models/Transaction.js:7-47 | `transaction.save()` succeeds exactly for a valid row whose owner exists and rewrites only the row of that id |
| Store.SaveTransactionKeeps | models/Transaction.js:7-47 | `transaction.save()` keeps the database consistent |
| Store.CreateBudget | models/Budget.js:12-58 | `Budget.create` succeeds exactly for a valid row in a free slot whose owner exists; a taken slot is the unique-constraint error |
| Store.CreateBudgetKeeps | models/Budget.js:12-58 | `Budget.create` keeps the database consistent |
| Store.SaveBudget | models/Budget.js:53-58 | `budget.save()` succeeds exactly for a valid row whose slot no other budget takes and rewrites only the row of that id |
| Store.SaveBudgetKeeps | models/Budget.js:12-58 | `budget.save()` keeps the database consistent |
| Store.CreateGoal | models/SavingsGoal.js:12-46 | `SavingsGoal.create` succeeds exactly for a valid row whose owner exists and appends it with the next id |
| Store.CreateGoalKeeps | models/SavingsGoal.js:12-46 | `SavingsGoal.create` keeps the database consistent |
| Store.SaveGoal | models/SavingsGoal.js:12-46 | `goal.save()` succeeds exactly for a valid row whose owner exists and rewrites only the row of that id |
| Store.SaveGoalKeeps | models/SavingsGoal.js:12-46 | `goal.save()` keeps the database consistent |
| Store.Db.constructor | models/index.js:46-57 | an empty, consistent database whose ids start at 1 |
| Store.Db.FindUser | controllers/AuthController.js:183 | `User.findByPk` returns the user with that id, and nothing exactly when there is none |
| Store.Db.FindUserByEmail | controllers/AuthController.js:101 | `User.findOne({ where: { email } })` returns a user with that email, and nothing exactly when the email is unused |
| Store.Db.FindUserByResetToken | controllers/AuthController.js:343-347 | the lookup by reset token returns a holder of the token, and nothing exactly when nobody holds it |
| Store.Db.FindOwnedTransaction | controllers/TransactionController.js:246-253 | the `{ id, userId }` lookup returns that user's row with that id, and nothing exactly when there is none |
| Store.Db.FindTransaction | controllers/TransactionController.js:231 | `findByPk` returns the row with that id whoever owns it |
| Store.Db.FindOwnedBudget | controllers/BudgetController.js:210-218 | the `{ id, userId }` lookup of a budget |
| Store.Db.FindBudgetSlot | controllers/BudgetController.js:134-148 | the lookup of the `(userId, category, month, year)` slot returns a budget in it, and nothing exactly when the slot is free |
| Store.Db.FindOwnedGoal | controllers/SavingsGoalController.js:196-198 | the `{ id, userId }` lookup of a goal |
| Store.Db.InsertUser | models/User.js:13-71 | the new state is the one `CreateUser` gives, and the database stays consistent |
| Store.Db.UpdateUser | models/User.js:66-70 | the new state is the one `SaveUser` gives, and the database stays consistent |
| Store.Db.DestroyUser | models/index.js:10-38 | the new state is the cascade of the user |
| Store.Db.InsertTransaction | models/Transaction.js:7-47 | the new state is the one `CreateTransaction` gives |
| Store.Db.UpdateTransaction | models/Transaction.js:73 | the new state is the one `SaveTransaction` gives |
| Store.Db.DeleteTransaction | models/Transaction.js:76-78 | only the row with that id goes; every other row stays, in order |
| Store.Db.InsertBudget | models/Budget.js:12-58 | the new state is the one `CreateBudget` gives |
| Store.Db.UpdateBudget | models/Budget.js:74 | the new state is the one `SaveBudget` gives |
| Store.Db.DeleteBudget | models/Budget.js:77-79 | only the budget with that id goes |
| Store.Db.InsertGoal | models/SavingsGoal.js:12-46 | the new state is the one `CreateGoal` gives |
| Store.Db.UpdateGoal | controllers/SavingsGoalController.js:232 | the new state is the one `SaveGoal` gives |
| Store.Db.DeleteGoal | controllers/SavingsGoalController.js:295 | only the goal with that id goes |
| UserModel.CopyAllProfileFields | models/User.js:80-86 | the `forEach` over `allowedFields` gives each of name, email, currency and preferences the defined new value or keeps the old one, and never touches the id, the password or the reset token |
| UserModel.HookedKeepsProfile | models/User.js:66-70 | the save hook does not disturb what the profile update promises |
| UserModel.AssignedPassword | models/User.js:91 | assigning `this.password` gives a plain text, or no password for `undefined` |
| UserModel.IssuedTokenLifetime | models/User.js:96-112 | a token issued at time `t0` is accepted exactly for itself and exactly while the clock is before `t0` + 15 minutes |
| UserModel.ClearedTokenInvalid | models/User.js:106-117 | a cleared token and expiry accept no token |
| UserModel.ComparePassword | models/User.js:76-78 | `bcrypt.compare` throws for a missing argument or a missing digest, and succeeds exactly when the stored digest accepts the candidate |
| UserModel.UserInstance.constructor | models/User.js:7-57 | the instance holds the row it was read from |
| UserModel.UserInstance.ValidatePassword | models/User.js:76-78 | `validatePassword` succeeds exactly when the instance's digest accepts the candidate |
| UserModel.UserInstance.Save | models/User.js:66-70 | the store write of the instance is `SaveUser`, and on success the instance holds the stored values |
| UserModel.UserInstance.UpdateProfile | models/User.js:80-88 | only the allowed, defined fields change on the instance, and the write is `SaveUser` of the copied values |
| UserModel.UserInstance.ChangePassword | models/User.js:90-93 | the write is `SaveUser` of the instance with the new plain text; on success only the password changed, and the stored digest accepts the new password; on failure the instance keeps the new plain text |
| UserModel.UserInstance.GenerateResetToken | models/User.js:96-104 | the token and an expiry 15 minutes after the clock replace the old ones, nothing else changes, and afterwards exactly that token is valid |
| UserModel.UserInstance.ResetPassword | models/User.js:114-119 | the write is `SaveUser` with the new password and no token; whatever the save reports no token is valid any more; on success the instance is the stored row and the new password is accepted, on failure it holds the new plain text and no token |
| Validators.FinalCategory | controllers/TransactionController.js:142-143 | the final category is the chosen one as sent, or a new category that is non-blank and has nothing left to trim; a non-blank new category wins |
| Validators.FinalCategoryTrimmed | controllers/TransactionController.js:142-143 | a category taken from a non-blank new category is itself non-blank and already trimmed |
| Validators.BlankNewCategoryPassesForm | routes/transactions.js:45-50 | the custom rule accepts a blank new category with no category, so the form does not guarantee a category |
| Validators.FormGivesValidTransaction | routes/transactions.js:15-51 | an accepted transaction form, with a non-blank final category and a real date, gives a row the model's validation accepts |
| Validators.GoalTitleRuleStricter | routes/savings.js:16-19 | the route's title rule implies the model's `len: [1, 200]` |
| Validators.ProfileRulesGiveUserColumns | routes/profile.js:15-34 | the route's profile rules imply the model's name length, email and currency length |
| TransactionModel.CopyAllTransactionFields | models/Transaction.js:66-72 | the `forEach` over `allowedFields` gives each of category, type, amount, date and description the defined new value or keeps the old one, and never touches the id or the owner |
| TransactionModel.TransactionInstance.constructor | models/Transaction.js:7-47 | the instance holds the row it was read from |
| TransactionModel.TransactionInstance.UpdateTransaction | models/Transaction.js:66-74 | only the allowed, defined fields change on the instance, and the write is `SaveTransaction` of the new values |
| TransactionModel.TransactionInstance.DeleteTransaction | models/Transaction.js:76-78 | only the row with the instance's id leaves the table |
| TransactionModel.GetTransactionsByUser | models/Transaction.js:81-88 | the rows are a permutation of those the caller's `where`, or else the owner scope, selects, sorted by the caller's order, or else newest first |
| TransactionModel.DefaultListIsOwnRows | models/Transaction.js:81-88 | with no options the result holds exactly the user's transactions, newest first |
| TransactionModel.WhereOptionOverridesOwner | models/Transaction.js:81-88 | a caller's `where`, spread after the default, replaces the owner scope: rows of other users come back |
| TransactionQuery.TrimmedParam | controllers/TransactionController.js:30-32 | a parameter counts exactly when it is present and holds a non-space character, and then it is a substring of the input with no white space at either end |
| TransactionQuery.KindParam | controllers/TransactionController.js:24-27 | a type condition is added exactly for `income` or `expense` |
| TransactionQuery.BuildWhere | controllers/TransactionController.js:20-52 | the loop over the parameters builds the `where` the query describes, and the echoed filters are exactly the conditions applied |
| TransactionQuery.WhereSelects | controllers/TransactionController.js:20-52 | the built `where` selects exactly the user's rows of the requested type, containing the trimmed category, matching the search in description or category, and between the date bounds |
| TransactionQuery.Paginate | controllers/TransactionController.js:15-17 | `page` and `limit` fall back to 1 and 10 when missing, malformed or 0, and `offset` is `(page - 1) * limit` |
| TransactionQuery.TotalPages | controllers/TransactionController.js:80 | the number of pages is the least `n` with `count <= limit * n` |
| TransactionQuery.Window | controllers/TransactionController.js:60-64 | `LIMIT`/`OFFSET` returns `min(limit, count - offset)` rows, none past the end, the ones from position `offset` on |
| TransactionQuery.PagesPrefix | controllers/TransactionController.js:60-64 | the first `n` pages together are the first `n * limit` rows |
| TransactionQuery.PagesCoverRows | controllers/TransactionController.js:80 | walking pages 1 to `totalPages` shows every row once, in order |
| TransactionQuery.ListPage | controllers/TransactionController.js:55-72 | `findAndCountAll` counts every matching row and returns the window at `offset` of some ordering of exactly the matching rows sorted by the column, ties by id in the column's direction; a negative limit or offset or an unknown column is refused |
| TransactionQuery.SortedPage | controllers/TransactionController.js:55-72 | the page is a window of a sorted permutation of the selected rows: at most `limit` of them, sorted, each in the table and selected |
| TransactionQuery.GetStats | controllers/TransactionController.js:418-435 | each total sums the selected rows of its own type, the balance is their difference, and the count is the number of selected rows |
| TransactionQuery.StatsIgnoreTypeFilter | controllers/TransactionController.js:419-425 | a type filter in the caller's `where` does not change either total |
| TransactionQuery.StatsSplitMatchingRows | controllers/TransactionController.js:418-435 | without a type filter the two totals add up to the sum of the matching rows |
| TransactionQuery.Dedup | controllers/TransactionController.js:452 | `[...new Set(s)]` holds every value of `s` once and nothing else |
| TransactionQuery.CategoryGroups | controllers/TransactionController.js:438-443 | the `group` rows are exactly the `(category, type)` pairs of the user's transactions, each once |
| TransactionQuery.NamesOfKind | controllers/TransactionController.js:445-450 | the categories of one type are those of the groups of that type, without repeats |
| TransactionQuery.GetCategories | controllers/TransactionController.js:437-453 | income and expense list exactly the categories the user has of that type, each once, and `all` is their union without repeats |
| TransactionQuery.CategoriesByType | controllers/TransactionController.js:393-415 | a type other than `income` or `expense` is refused; otherwise the list holds exactly the categories of the user's rows of that type, each once |
| TransactionController.IndexOf | controllers/TransactionController.js:8-100 | as routed (`this` undefined) every request ends in the redirect of the `catch`; with `this` bound, the page is the window at `offset` of a permutation of exactly the selected rows sorted by the column and then by id, with their full count, `Math.ceil(count / limit)` pages, the statistics of `getStats` over the same `where` and the user's categories; a refused limit or offset or an unknown column ends in the `catch` |
| TransactionController.RoutedIndexAlwaysFails | routes/transactions.js:54 | as the route registers it, `GET /transactions` always ends in the redirect to the dashboard, whatever the query and the table |
| TransactionController.BoundIndexRenders | controllers/TransactionController.js:8-100 | with `this` bound, a positive limit, a non-negative offset and a sortable column always render the page |
| TransactionController.Index | controllers/TransactionController.js:8-100 | the handler answers what `IndexOf` describes for the receiver it runs with, and changes nothing |
| TransactionController.StoreTransaction | controllers/TransactionController.js:124-161 | a rejected form creates nothing and, as routed, ends in the redirect of the `catch` (`this.getCategories` throws at line 128), re-rendering the form only with `this` bound; a missing final category fails validation; otherwise the store receives the user's row with the final category, `description \|\| null` and `date \|\| today` |
| TransactionController.EditFormRow | controllers/TransactionController.js:246-253 | the row looked up within the user's own rows: one the user owns with that id |
| TransactionController.EditFormShowsForeignRow | controllers/TransactionController.js:229-238 | with `this` bound, a rejected update of another user's id renders that user's row in the edit form |
| TransactionController.EditFormShowsOwnRowsOnly | controllers/TransactionController.js:229-238 | looked up within the user's rows, no other user's row is ever shown |
| TransactionController.UpdateTransaction | controllers/TransactionController.js:226-274 | a rejected form changes nothing and, as routed, ends in the redirect of the `catch` (line 230 throws), showing the edit form only with `this` bound; an id the user does not own changes nothing; otherwise only that row changes, to the form's values |
| TransactionController.DestroyTransaction | controllers/TransactionController.js:277-321 | the row is deleted exactly when the user owns it, and then only that row goes; otherwise nothing changes |
| TransactionController.ExportRows | controllers/TransactionController.js:346-356 | the export is a permutation of exactly the rows its filters select, newest first |
| TransactionController.Export | controllers/TransactionController.js:324-390 | the export's rows are those of `ExportRows` for the filters without search, and its text is the CSV the code writes for them, amount unquoted |
| Csv.NatText | controllers/TransactionController.js:362 | the numeral of a natural number is a non-empty string of digits |
| Csv.FrDate | controllers/TransactionController.js:362 | the `fr-FR` date text `DD/MM/YYYY` holds no comma, quote or newline |
| Csv.DecimalText | controllers/TransactionController.js:366 | the `DECIMAL(10,2)` text holds only a sign, digits and a point |
| Csv.DecimalHasOneDot | controllers/TransactionController.js:366 | the decimal text holds exactly one point |
| Csv.ReplaceFirst | controllers/TransactionController.js:366 | `String.prototype.replace` with a one-character pattern changes only the first occurrence and keeps the length |
| Csv.ReplaceOnlyDot | controllers/TransactionController.js:366 | replacing the only point of a comma-free text leaves exactly one comma |
| Csv.AmountText | controllers/TransactionController.js:366 | the amount text holds exactly one comma and no quote or newline |
| Csv.SeparatorsConcat | controllers/TransactionController.js:368 | the separators of a concatenation are those of each part, the second read from where the first leaves the quoting |
| Csv.SeparatorsUnquoted | controllers/TransactionController.js:368 | in text without quotes every comma outside a quoted field is a separator |
| Csv.QuotedField | controllers/TransactionController.js:364-365 | a quoted field without embedded quotes adds no separator |
| Csv.JoinSeparators | controllers/TransactionController.js:368 | joining balanced fields with commas gives one separator between each two plus those inside the fields |
| Csv.JoinCount | controllers/TransactionController.js:370 | joining with a separator adds it once between each two parts |
| Csv.HeaderShape | controllers/TransactionController.js:359 | the header line names five columns and holds no newline before its end |
| Csv.LeadingFields | controllers/TransactionController.js:362-365 | the date, the type and the quoted category and description add no separator |
| Csv.RowAsWrittenHasSixFields | controllers/TransactionController.js:366-368 | as written, every row has five separators, six fields, under a header of five columns |
| Csv.RowHasFiveFields | controllers/TransactionController.js:366-368 | with the amount quoted, every row has the header's five fields |
| Csv.RowNewlines | controllers/TransactionController.js:368 | a row holds no newline when its text fields hold none |
| Csv.ExportLines | controllers/TransactionController.js:359-372 | the export holds one newline after the header and one between rows: as many newlines as rows, or one when empty, both for the corrected rows and for the rows as written |
| Csv.LinesOf | controllers/TransactionController.js:370-372 | a header and newline-free rows joined by newlines hold one newline per row, or one when there is none |
| BudgetModel.ChargedRows | models/Budget.js:88-97 | the `findAll` returns every transaction charged to the budget and no other: the owner's expenses in exactly its category, dated within its month |
| BudgetModel.CheckBudget | models/Budget.js:81-113 | the status reports the limit, the spent sum of the charged rows, `remaining = limit − spent`, over budget exactly when spent exceeds the limit, and the percentage rounded to hundredths (not finite for a zero limit) |
| BudgetModel.SpentStep | models/Budget.js:99-101 | a new transaction adds its amount to the spent sum exactly when it is charged to the budget |
| BudgetModel.SpentIgnoresUnrelated | models/Budget.js:88-97 | income, another category or another user's transaction leaves the whole status unchanged |
| BudgetModel.SpentIsChargedSum | models/Budget.js:88-101 | the spent sum is the sum over the whole table of the charged amounts, 0 for the rest |
| BudgetModel.ChargedIff | models/Budget.js:85-97 | for a real date, a transaction is charged exactly when it is an expense of the owner in the category, in the budget's month and year |
| BudgetModel.FebruaryBudgetPeriod | models/Budget.js:85-86 | a February budget runs to the 29th exactly in leap years |
| BudgetModel.PercentageBounds | models/Budget.js:104-110 | for a stored budget the percentage is finite and not negative, and a budget spent exactly to its limit is not over it and stands at 100.00 % |
| BudgetModel.OverBudgetIsNearLimit | routes/budgets-ssr.js:66-69 | an over-budget status with a positive limit always raises the 90 % alert |
| BudgetModel.CopyAllBudgetFields | models/Budget.js:67-73 | the `forEach` over `allowedFields` gives each of category, limit, month and year the defined new value or keeps the old one, and never touches the id or the owner |
| BudgetModel.BudgetInstance.constructor | models/Budget.js:7-60 | the instance holds the row it was read from |
| BudgetModel.BudgetInstance.Check | models/Budget.js:81-113 | `checkBudget` on the instance reports the spent sum of its charged rows and its limit |
| BudgetModel.BudgetInstance.Save | models/Budget.js:63-65 | the write is `SaveBudget` of the instance |
| BudgetModel.BudgetInstance.UpdateBudget | models/Budget.js:67-75 | only the allowed, defined fields change on the instance, and the write is `SaveBudget` of the new values |
| BudgetModel.BudgetInstance.DeleteBudget | models/Budget.js:77-79 | only the row with the instance's id leaves the table |
| BudgetController.CreateOf | controllers/BudgetController.js:72-181 | a missing category or limit or a limit `<= 0` is refused first, then a missing month or year or one out of range; a taken slot is the duplicate message; a budget is created exactly when every guard passes, the slot is free, the row is valid and the owner exists; any refusal changes nothing |
| BudgetController.CreateKeepsSlotsUnique | controllers/BudgetController.js:134-174 | creating a budget never puts two budgets in the same `(userId, category, month, year)` slot |
| BudgetController.AddBudget | controllers/BudgetController.js:72-181 | the handler's steps give the answer and the new state `CreateOf` describes |
| BudgetController.Create | controllers/BudgetController.js:72-181 | the create with this controller's year floor of 2024 is `CreateOf` |
| BudgetController.OwnedBudget | controllers/BudgetController.js:210-218 | the lookup returns a budget of the user with that id, and nothing exactly when the user owns none |
| BudgetController.UpdateDataOf | controllers/BudgetController.js:221-225 | `updateData` holds exactly the truthy fields of the body |
| BudgetController.UpdateOf | controllers/BudgetController.js:184-250 | an id the user does not own is not found; the update goes through exactly when no field is `NaN`, the edited row is valid, no other row holds its slot and its owner exists, and then only that budget changes, to the truthy fields of the body; any failure changes nothing |
| BudgetController.Update | controllers/BudgetController.js:184-250 | the handler's answer and new state are those of `UpdateOf` |
| BudgetController.DeleteOf | controllers/BudgetController.js:324-363 | the budget is deleted exactly when the user owns it; otherwise nothing changes |
| BudgetController.DeleteKeepsOtherRows | controllers/BudgetController.js:338-348 | a deletion removes the budget with that id and keeps every other budget |
| BudgetController.Delete | controllers/BudgetController.js:324-363 | the handler's answer and new state are those of `DeleteOf` |
| BudgetController.BudgetWithStats | controllers/BudgetController.js:253-321 | `getBudget`/`getStats` return the owned budget with that id and exactly its `checkBudget` status (spent, limit, remaining, percentage and over-budget flag), or not found exactly when the user owns no budget with that id |
| BudgetController.Accumulate | controllers/BudgetController.js:435-451 | the loop sums the limits and the spent amounts and counts the budgets over their limit |
| BudgetController.OverspentHasOverBudget | controllers/BudgetController.js:453-460 | when the budgets overspend in total, at least one of them is over its own limit |
| BudgetController.StatusesOf | controllers/BudgetController.js:435-451 | one `checkBudget` status per budget, in order |
| BudgetController.DashboardStatsOf | controllers/BudgetController.js:410-475 | the roll-up covers exactly the user's budgets of the current month and year, totals their limits and spending, reports the remainder, and counts as over limit at most all of them, at least one when the remainder is negative |
| BudgetController.GetDashboardStats | controllers/BudgetController.js:410-475 | the handler answers `DashboardStatsOf` and changes nothing |
| BudgetsSsr.ManageTotals | routes/budgets-ssr.js:57-70 | the `forEach` counts the budgets, sums their limits and spent amounts, and counts the alerts at 90 % or more |
| BudgetsSsr.ManageOf | routes/budgets-ssr.js:24-106 | the page lists a permutation of exactly the user's budgets, ordered by year and month descending, then by category in collation order, then by id, each with its `checkBudget` status, and totals over all of them with at most one alert per budget |
| BudgetsSsr.LatestPeriodFirst | routes/budgets-ssr.js:31-38 | the `year DESC, month DESC, category ASC` order puts a later period first and orders a period's budgets by category |
| BudgetsSsr.Manage | routes/budgets-ssr.js:24-106 | the handler renders `ManageOf` and changes nothing |
| BudgetsSsr.AlertsIncludeOverBudget | routes/budgets-ssr.js:62-70 | over stored budgets, every budget over its limit is also counted as an alert |
| BudgetsSsr.Post | routes/budgets-ssr.js:109-184 | the page's create is the controller's guard chain, slot check and insert with a year floor of 2020 |
| BudgetsSsr.YearFloorsDiffer | routes/budgets-ssr.js:127-132 | a budget for 2022 is refused by the API create (floor 2024) and created by the page (floor 2020) on the same database |
| BudgetsSsr.CoursesBudgetAccepted | routes/budgets-ssr.js:118-166 | that 2022 budget passes every check of the page's create |
| BudgetsSsr.PutOf | routes/budgets-ssr.js:187-233 | ownership is checked first, then the category and limit; the update goes through exactly when the limit, month and year are numerals, the replaced row is valid, no other row holds its slot and the owner exists, and then only that budget changes, with all four fields set from the body; any failure changes nothing |
| BudgetsSsr.Put | routes/budgets-ssr.js:187-233 | the handler's answer and new state are those of `PutOf` |
| BudgetsSsr.Delete | routes/budgets-ssr.js:236-267 | the page's delete is the owner-scoped delete of the controller |
| Dashboard.SummaryOf | controllers/DashboardController.js:12-54 | income and expenses sum the user's rows of each type in the current month, the balance is their difference, the budget count is the number of the user's budgets for this month and year, and the savings totals sum the target and current amounts of all the user's goals |
| Dashboard.IncomeIgnoresOtherRows | controllers/DashboardController.js:26-28 | a row of another user, another month or an expense leaves the income as it is |
| Dashboard.SavingsProgress | controllers/DashboardController.js:149-152 | progress is `current / target * 100` rounded half up to one decimal, and 0 when the target total is not positive |
| Dashboard.SavingsProgressBounds | controllers/DashboardController.js:149-152 | with the current total between 0 and the target, progress lies between 0.0 and 100.0 %, and a reached target is 100.0 % |
| Dashboard.GetStats | controllers/DashboardController.js:93-160 | the API answers the same summary as the page, and its progress is `SavingsProgress` of the two savings totals (0 for a target total that is not positive) |
| Dashboard.CurrentWithinTarget | controllers/DashboardController.js:52-54 | when no goal is over its target, the current total is at most the target total |
| Dashboard.StatsProgressInRange | controllers/DashboardController.js:149-152 | over stored goals none of which is over its target, the reported progress lies in 0.0 .. 100.0 % |
| Dashboard.GoalTotals | controllers/DashboardController.js:42-54 | over stored goals the current total is not negative, and the target total is positive as soon as the user has a goal |
| Dashboard.Take | controllers/DashboardController.js:61 | `LIMIT n` keeps the first `min(n, length)` rows |
| Dashboard.RecentOf | controllers/DashboardController.js:56-63 | the recent list is the front, five rows or all when fewer, of a permutation of the user's transactions sorted by date and then creation, newest first; no row appears more often than in the table |
| Dashboard.ShowDashboard | controllers/DashboardController.js:5-91 | the page shows the month's summary and the user's five latest transactions, each at most as often as in the table |
| Dashboard.RecentAreLatest | controllers/DashboardController.js:56-63 | every transaction of the user left out of the recent list comes after each one shown in the date-then-creation order |
| ProfileController.RowOfReplace | controllers/ProfileController.js:87-92 | after a save rewrites a user's row, the lookup by that id still finds the same position |
| ProfileController.ProfileSaveAt | controllers/ProfileController.js:92-100 | the profile save succeeds exactly when the row with the form's fields is valid and no other row holds its email, rewriting only that user's row with the form's name, email and currency; otherwise it fails and changes nothing |
| ProfileController.OtherRowReplace | controllers/ProfileController.js:87-100 | rewriting a user's own row does not change whether another row holds an email |
| ProfileController.ChangeThenSave | controllers/ProfileController.js:87-100 | the password is saved before the profile; both saves succeed exactly when the row with the new password is valid with its email unique and then the row with the form's profile is too; on success the row holds the new password's digest and the form's profile, and a failed profile save after a stored password leaves only the password changed |
| ProfileController.UpdateOf | controllers/ProfileController.js:40-112 | a rejected form, an unknown user, a wrong current password and a new password shorter than 6 UTF-16 units change nothing; the password changes only when both passwords are given; the update succeeds exactly when the saves it makes are accepted (a valid row whose email no other row holds); on success only that user's row changes (profile fields from the form, preferences and token kept, the new digest when given) and the session holds the stored values |
| ProfileController.SaveProfile | controllers/ProfileController.js:92-100 | the method's answer and new state are those of `ProfileSaveAt` |
| ProfileController.ChangeThenSaveSteps | controllers/ProfileController.js:87-92 | `ChangeThenSave` is the password save followed, when it succeeds, by the profile save |
| ProfileController.ChangeAndSave | controllers/ProfileController.js:72-100 | the method's answer and new state are those of `ChangeThenSave` |
| ProfileController.UpdateProfile | controllers/ProfileController.js:40-112 | the handler's answer and new state are those of `UpdateOf` |
| ProfileController.DeleteAccountAsWritten | controllers/ProfileController.js:115-165 | as written, the database transaction is left open exactly on the unknown-user and wrong-password returns |
| ProfileController.WrongPasswordLeavesTransactionOpen | controllers/ProfileController.js:135-142 | a wrong confirmation password returns with the transaction neither committed nor rolled back |
| ProfileController.DeleteAccountOf | controllers/ProfileController.js:115-165 | the transaction always ends; it is committed exactly when the account is deleted, which happens exactly when the user exists and the password is right, and then the whole cascade is applied; otherwise nothing changes |
| ProfileController.DeleteAccountVersionsAgree | controllers/ProfileController.js:115-165 | both versions give the same answer and database; they differ only in the transaction left open |
| ProfileController.DeletedAccountLeavesNothing | models/index.js:10-38 | after a deletion no row of the user is left in any table, and every row of another user still is |
| ProfileController.DeleteAccount | controllers/ProfileController.js:115-165 | the handler with the rollback added, as corrected: its answer, new state and transaction status are those of `DeleteAccountOf`; by `DeleteAccountVersionsAgree` the answer and database are also those of the code as written, which only leaves the transaction open |
| SavingsGoalController.CreateOf | controllers/SavingsGoalController.js:47-111 | a rejected form creates nothing; a goal is created exactly when the form is valid and the store accepts the row, with the form's title, target and deadline, a current amount of 0 and the session's user; a failure changes nothing |
| SavingsGoalController.Create | controllers/SavingsGoalController.js:47-111 | the handler's answer and new state are those of `CreateOf` |
| SavingsGoalController.IndexOf | controllers/SavingsGoalController.js:121-124 | the list is a permutation of exactly the goals of the user, earliest deadline first |
| SavingsGoalController.Index | controllers/SavingsGoalController.js:114-151 | the handler lists `IndexOf` and changes nothing |
| SavingsGoalController.CreatedGoalListed | controllers/SavingsGoalController.js:77-124 | a created goal joins the user's list, which otherwise holds the same goals as before |
| SavingsGoalController.OwnedGoal | controllers/SavingsGoalController.js:196-198 | the lookup returns a goal of the user with that id, and nothing exactly when the user owns none |
| SavingsGoalController.UpdateOf | controllers/SavingsGoalController.js:187-268 | a goal that is not the user's is not found whatever the form; a rejected form changes nothing; a valid form on an owned goal succeeds exactly when the current amount is not sent empty, the edited goal is valid and its owner exists, and then only that goal changes, to the form's title, target, deadline and current amount (kept when absent) |
| SavingsGoalController.Update | controllers/SavingsGoalController.js:187-268 | the handler's answer and new state are those of `UpdateOf` |
| SavingsGoalController.UpdateTouchesOnlyOwnedGoal | controllers/SavingsGoalController.js:196-237 | an update leaves every other user's list as it was, and the user's list holds the updated goal in place of the old one |
| SavingsGoalController.ReplaceOwnedRow | controllers/SavingsGoalController.js:232 | rewriting one user's goal leaves every other user's goals as they were, and the old version is gone |
| SavingsGoalController.DeleteOf | controllers/SavingsGoalController.js:271-325 | the goal is deleted exactly when the user owns it, and then only that goal goes; otherwise nothing changes |
| SavingsGoalController.Delete | controllers/SavingsGoalController.js:271-325 | the handler's answer and new state are those of `DeleteOf` |
| SavingsGoalController.DeleteTouchesOnlyOwnedGoal | controllers/SavingsGoalController.js:281-295 | a deletion takes the goal out of the user's list and leaves every other user's list as it was |
| AuthController.IdIndexIsPosition | controllers/AuthController.js:183 | with ids increasing along the table, the lookup by a user's id finds that user's own row |
| AuthController.SavedRowIsFound | controllers/AuthController.js:235 | a save that succeeds rewrites the row of the same account and nothing else |
| AuthController.RegisterOf | controllers/AuthController.js:13-81 | the four checks run in order (all fields, matching passwords, at least 6 UTF-16 code units, unused email), the first failure winning and creating nothing; a new account has the given name and email, `EUR` unless a currency was sent, the preferences fr/light/notifications, no reset token, a digest of its password, and a signed-in session |
| AuthController.Register | controllers/AuthController.js:13-81 | the handler's answer and new state are those of `RegisterOf` |
| AuthController.LoginOf | controllers/AuthController.js:90-133 | a missing field is refused first; an unknown email and a wrong password give the same answer; a password the digest accepts signs in the user with that email, and when the first row with the email accepts the password the session is that row's |
| AuthController.Login | controllers/AuthController.js:90-133 | the handler answers `LoginOf` and changes nothing |
| AuthController.RegisteredUserCanLogIn | controllers/AuthController.js:53-123 | a new account can sign in at once with the email and password it registered with |
| AuthController.ChangePasswordOf | controllers/AuthController.js:172-202 | a mismatch is refused before the user is looked up; a wrong current password changes nothing; on success only that user's password changes, and its digest accepts exactly the new password |
| AuthController.ChangePassword | controllers/AuthController.js:172-202 | the handler's answer and new state are those of `ChangePasswordOf` |
| AuthController.ForgotOf | controllers/AuthController.js:213-279 | a missing email or an unknown one issues no token and changes nothing; for a known email the token and a 15-minute expiry are saved on that user before the email is sent, and the page shows the link when sending fails |
| AuthController.ForgotPassword | controllers/AuthController.js:213-279 | the handler's answer and new state are those of `ForgotOf` |
| AuthController.ForgotIssuesToken | controllers/AuthController.js:234-270 | in a consistent database a known email always gets its token stored, and the stored state is the same whether or not the email could be sent |
| AuthController.SavedTokenOutcome | controllers/AuthController.js:234-270 | once the token save succeeds, the answer depends only on the email service and the stored state does not |
| AuthController.TokenSaveSucceeds | controllers/AuthController.js:234-235 | setting a token on a stored user passes validation and the unique email |
| AuthController.StoredRowSaveSucceeds | controllers/AuthController.js:193 | on a consistent database, a valid rewrite of a stored user's row that keeps its id and email is always saved (the `changePassword` here, `resetPassword` at line 357 and the token save at lines 234-235) |
| AuthController.ChangePasswordSucceeds | controllers/AuthController.js:172-202 | a right current password and a new password of allowed length, typed twice, always change the password |
| AuthController.ResetSucceeds | controllers/AuthController.js:314-370 | on a link that opens the reset form, a new password of allowed length typed twice always resets the password |
| AuthController.ShowResetOf | controllers/AuthController.js:281-312 | the reset form opens exactly when the first holder of the token still holds a valid one, and the link is invalid when no user's token is valid |
| AuthController.ShowResetPassword | controllers/AuthController.js:281-312 | the handler answers `ShowResetOf` and changes nothing |
| AuthController.IssuedTokenOpensForm | models/User.js:96-112 | a freshly issued token nobody else holds opens the reset form exactly until it expires |
| AuthController.ResetOf | controllers/AuthController.js:314-370 | presence, match and length in UTF-16 code units are checked before the token lookup; an unknown or expired token changes nothing; otherwise only that user changes, to a digest accepting exactly the new password, with token and expiry cleared |
| AuthController.ResetPassword | controllers/AuthController.js:314-370 | the handler's answer and new state are those of `ResetOf` |
| AuthController.ResetConsumesToken | models/User.js:114-119 | after a successful reset the same link is invalid at any time |

## Left out

- Email delivery (services/EmailService.js) is not part of this model: `forgotPassword` takes whether sending succeeded as a boolean, and the reset URL and the mail text are not modelled.
- Session gates: the `401`/redirect when no user is signed in, `requireAuth`, and `logout`. Handlers take the signed-in user's id as a parameter.
- The handlers that only render a page: the register, login and forgot-password forms, the goal create and edit forms, `showProfile`, and the transaction `show` and `edit` pages. Their owner-scoped lookup is `Store.Db.FindOwnedTransaction`.
- `BudgetController.index`: it lists the same rows as `BudgetsSsr.ManageOf`, each with its status, and has no member of its own.
- `AuthController.updateProfile` (controllers/AuthController.js:144-170): a second profile update is not reached from any route of routes/auth.js; it applies `UserModel.UserInstance.UpdateProfile` without validation. It is not modelled as a handler of its own.
- TransactionQuery.ListPage: ordering on a text column (`category`, `description`, `type`) or on `updatedAt`/`updated_at` depends on the database collation or clock. It is the outcome `OrderOutsideModel`, and only the date, amount, owner and creation-order columns are sorted.
- TransactionQuery.CategoryGroups: the `ORDER BY category` of the group query depends on the collation. The groups come in table order, and only their members and uniqueness are stated.
- `LIKE` wildcards: `%` and `_` typed by the user are treated as plain characters, so the test is a substring test.
- Collations: text compares by exact characters everywhere, while a MySQL column's default collation ignores case. This covers the `LIKE` tests, the equality lookups (`User.findOne({ where: { email } })` at controllers/AuthController.js:45, :101 and :225; the budget slot `findOne` at controllers/BudgetController.js:134-148), the unique indexes on the email (models/User.js:24) and on the budget slot (models/Budget.js:55), and the `GROUP BY category` of controllers/TransactionController.js:438-443. Under a case-insensitive collation "Courses" and "courses" share a budget slot and a category group; in the model they do not.
- Csv.FrDate: `toLocaleDateString("fr-FR")` is fixed as `DD/MM/YYYY` on the stored calendar day, with no time zone shift.
- The UTF-8 byte-order mark written before the CSV text, the `Content-Disposition` file name and the HTTP headers.
- Floating point: `parseFloat` sums, `toFixed` and the display rounding. Amounts are exact cents, and `toFixed`/`Math.round` round half up on the exact value.
- TransactionQuery.GetStats: an empty sum is 0. The `|| 0` at controllers/TransactionController.js:422-425 applies to a Promise, so at run time the source may report `null` for an empty sum.
- BudgetController.GetDashboardStats: the `Promise.all` over the budgets runs one budget after the other; concurrency is not modelled.
- The parse of a numeric field is abstracted to `NumInput`: a numeral's value, or `NaN`. Sequelize's `min`/`max` validators let a `NaN` through, and it is the database that refuses to store it; the model folds that refusal into the failed save, which the handlers report as their generic error.
- SavingsGoalController.UpdateOf: a current amount sent as the empty string passes the form and is modelled as the generic error of the save, not as a stored `NULL`.
- CSV quoting: embedded double quotes in a category or description are not escaped by the source. The CSV lemmas assume text fields without quotes and claim no RFC 4180 conformance.
- `isEmail` and `isISO8601` are opaque: the first is a parameter, and the second is decided when a form value becomes a `DateInput`.
- Bootstrap and wiring: app.js, app-ssr.js, the route files that only register handlers, middleware/auth.js, and controllers/SimpleProfileController.js (a test stub).
- The response format: `xhr`/JSON answers and redirects with flash messages are one `Outcome`.
- ProfileController.UpdateOf: as in the source, a password saved before a profile save that then fails stays stored. The contract states this case rather than a rollback.
- Per-table `AUTO_INCREMENT` counters: each table has its own in the database, while the model draws every id from one counter. Only the order of ids within a table is used, which both give.
- Tie order: under the assumed MySQL, the order of rows with equal `ORDER BY` columns is unspecified, and `created_at` has a resolution of one second. The model resolves every tie by id, and every ordering contract states that order: the sort keys of `TransactionQuery.ListPage`, `TransactionController.IndexOf`, `TransactionController.ExportRows`, `Dashboard.RecentOf`, `SavingsGoalController.IndexOf` and `BudgetsSsr.ManageOf` (`ManageKey`) all end in the id. A database that breaks ties another way may list equal rows in another order.
- BudgetsSsr.ManageOf: the category order within a period is the column's collation, which is a parameter (`collate`, a rank per category); no particular collation is modelled.
- The `Accept` header: a request without one makes `req.headers.accept.indexOf` (controllers/SavingsGoalController.js:59, :85, :101 and the other handlers of that file) or `req.headers.accept.includes` (controllers/BudgetController.js:232) throw. After the goal insert of line 85 that leaves the request without an answer. The model assumes the header is present.
- Password lengths: the controllers' `password.length < 6` (controllers/AuthController.js:38, :335; controllers/ProfileController.js:79) counts UTF-16 code units (`Text.Utf16Length`), while the `len` validators of the model and of express-validator count characters. A password of three emoji therefore passes the controller's check and is then refused by validation.
- TransactionController.EditFormShowsForeignRow: the foreign row is shown only once `this` is bound. As routed, line 230 throws first and the `findByPk` of line 231 is not reached.
- TransactionController.UpdateTransaction: with `this` bound, a rejected form re-renders the row found by the owner-scoped lookup (`EditFormRow`, the corrected half of the findings row on lines 229-238), not the `findByPk` of controllers/TransactionController.js:231 (`EditFormRowAsWritten`). As routed the branch throws before either lookup, which the contract states as written.
- TransactionQuery: the `dateFrom` and `dateTo` query strings (controllers/TransactionController.js:45-51, :339-343) are taken as already-parsed calendar days (`Option<Date>`). A malformed string is handed to the database as written, and what the database then compares is not modelled.

## Findings

| source | as written | input that shows it | evidently intended | confidence | as-written member | corrected member |
|---|---|---|---|---|---|---|
| controllers/TransactionController.js:366-368 | the amount's decimal point becomes a comma, and the amount is written unquoted into a comma-separated row | any transaction, e.g. 12.50 in row `01/03/2024,Dépense,"Loyer","",12,50`, which splits into six fields under the five-column header | the amount stays one field (quoted like the text fields) | not executed | Csv.RowAsWrittenHasSixFields | Csv.RowHasFiveFields |
| controllers/TransactionController.js:229-238 | after a rejected update, the edit form is filled from `Transaction.findByPk(req.params.id)` with no owner condition; latent while `this` is unbound (next row), since line 230 throws before line 231 runs | with `this` bound, user 1 submits an invalid form to `PUT /transactions/7`, where transaction 7 belongs to user 2: the page shows user 2's transaction | the owner-scoped `findOne({ where: { id, userId } })` that every other handler uses | not executed | TransactionController.EditFormShowsForeignRow | TransactionController.EditFormShowsOwnRowsOnly |
| controllers/ProfileController.js:116-142 | the transaction opened at line 116 is neither committed nor rolled back on the unknown-user and wrong-password returns | `POST /profile/delete` with a wrong `confirmPassword` | roll the transaction back before returning | not executed | ProfileController.WrongPasswordLeavesTransactionOpen | ProfileController.DeleteAccountOf |
| routes/transactions.js:54-70 | the routes register `index`, `store` and `update` of the exported instance (controllers/TransactionController.js:456) unbound, so in the strict class body `this` is undefined and `this.getStats` (line 75) and `this.getCategories` (lines 128, 230) throw | any `GET /transactions`: the query runs, `this.getStats` throws, and the `catch` of lines 95-99 redirects to `/dashboard` with an error | the handlers bound to the instance (`.bind`, or arrow-function fields, the form in which controllers/DashboardController.js declares its handlers) | not executed | TransactionController.RoutedIndexAlwaysFails | TransactionController.BoundIndexRenders |
