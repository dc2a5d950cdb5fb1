/** controllers/ProfileController.js: the profile update with its optional password change, and
  * the deletion of the account behind a password check, inside a database transaction. The
  * session's user id and the bcrypt salt are parameters; the express-validator verdict is the
  * form predicate of module Validators. */
module ProfileController {
  import opened Wrappers
  import opened Entities
  import opened Tables
  import opened Store
  import opened UserModel
  import Text
  import opened Forms
  import opened Validators
  import Auth = AuthController

  /** What a handler answers. */
  datatype Outcome =
    | ProfileUpdated(session: Auth.SessionUser)
    | AccountDeleted
    | FormRejected
    | UserNotFound
    | WrongCurrentPassword
    | PasswordTooShort
    | WrongPassword
    | Failed

  /** An answer and the database after it. */
  datatype Handled = Handled(outcome: Outcome, after: DbState)

  // ----- updateProfile -----

  /** `currentPassword && newPassword`: only then is the password changed. */
  predicate PasswordGiven(f: ProfileForm) {
    Truthy(f.currentPassword) && Truthy(f.newPassword)
  }

  /** `updateProfile({ name, email, currency })`. */
  function ProfileDataOf(f: ProfileForm): ProfileData {
    ProfileData(f.name, f.email, f.currency, None)
  }

  /** `w` is the row `u` with the form's name, email and currency, everything else kept. */
  predicate ProfileStored(w: User, u: User, f: ProfileForm) {
    && f.name == Some(w.name) && f.email == Some(w.email) && f.currency == Some(w.currency)
    && w.id == u.id && w.preferences == u.preferences
    && w.resetToken == u.resetToken && w.resetExpires == u.resetExpires
  }

  /** Replacing a user's row by one with the same id leaves it the row found for that id. */
  lemma RowOfReplace(users: seq<User>, k: int, x: User)
    requires 0 <= k < |users| && Auth.RowOf(users, x.id) == k
    ensures Auth.RowOf(users[k := x], x.id) == k
  {
    var ys := users[k := x];
    assert IdIs(UserId, x.id)(ys[k]);
    forall j | 0 <= j < k ensures !IdIs(UserId, x.id)(ys[j]) {
      assert ys[j] == users[j];
    }
  }

  /** The row `updateProfile` saves: `u` with the form's name, email and currency, after the
    * hook. */
  function ProfileApplied(u: User, f: ProfileForm, salt: string): User
    requires f.name.Some? && f.email.Some? && f.currency.Some?
  {
    Hooked(u, salt).(name := f.name.value, email := f.email.value, currency := f.currency.value)
  }

  /** The profile save goes through: `u` with the form's name, email and currency passes the
    * model's validation, and no row but the user's own (at `k`) holds that email. */
  predicate ProfileSaveAccepted(users: seq<User>, isEmail: string -> bool, k: int, u: User, f: ProfileForm)
    requires f.name.Some? && f.email.Some? && f.currency.Some?
  {
    ValidUser(u.(name := f.name.value, email := f.email.value, currency := f.currency.value), isEmail)
    && !OtherRow(users, k, EmailIs(f.email.value))
  }

  /** Rewriting row `k` does not change which other rows match. */
  lemma OtherRowReplace<T>(s: seq<T>, k: int, x: T, p: T -> bool)
    requires 0 <= k < |s|
    ensures OtherRow(s[k := x], k, p) <==> OtherRow(s, k, p)
  {
    if OtherRow(s, k, p) {
      var j :| 0 <= j < |s| && j != k && p(s[j]);
      assert s[k := x][j] == s[j];
    }
  }

  /** The last step of the update: the three profile fields copied onto `u`, the row at `k`,
    * and saved. */
  function ProfileSaveAt(st: DbState, isEmail: string -> bool, k: int, u: User, f: ProfileForm, salt: string)
    : (r: Handled)
    requires 0 <= k < |st.users| && Auth.RowOf(st.users, u.id) == k
    requires f.name.Some? && f.email.Some? && f.currency.Some?
    ensures r.outcome.ProfileUpdated? || r == Handled(Failed, st)
    ensures r.outcome.ProfileUpdated? <==> ProfileSaveAccepted(st.users, isEmail, k, u, f)
    ensures r.outcome.ProfileUpdated? ==>
              r.after == st.(users := st.users[k := ProfileApplied(u, f, salt)])
              && r.outcome.session == Auth.SessionOf(ProfileApplied(u, f, salt))
  {
    CopyAllProfileFields(u, ProfileDataOf(f));
    var s := SaveUser(st, isEmail, CopyProfileFields(u, ProfileDataOf(f), ProfileFields), salt);
    if s.result.Ok? then Handled(ProfileUpdated(Auth.SessionOf(s.result.value)), s.after) else Handled(Failed, st)
  }

  /** The password branch once the current password is accepted: `changePassword`, then the
    * profile save on the instance it left. */
  function ChangeThenSave(st: DbState, isEmail: string -> bool, k: int, f: ProfileForm, salt: string): (r: Handled)
    requires 0 <= k < |st.users| && Auth.RowOf(st.users, st.users[k].id) == k
    requires PasswordGiven(f) && f.name.Some? && f.email.Some? && f.currency.Some?
    ensures r.outcome.ProfileUpdated? || r.outcome == Failed
    ensures r.outcome.ProfileUpdated? ==>
              && |r.after.users| == |st.users|
              && r.after == st.(users := st.users[k := r.after.users[k]])
              && ProfileStored(r.after.users[k], st.users[k], f)
              && r.outcome.session == Auth.SessionOf(r.after.users[k])
              && r.after.users[k].password.Hashed?
              && forall q :: Compare(q, r.after.users[k].password.digest) <==> q == f.newPassword.value
    ensures r.outcome == Failed && r.after != st ==> Auth.NewPasswordAt(st, r.after, k, f.newPassword.value)
    ensures var v := st.users[k].(password := AssignedPassword(f.newPassword));
            r.outcome.ProfileUpdated? <==>
              && ValidUser(v, isEmail) && !OtherRow(st.users, k, EmailIs(v.email))
              && ProfileSaveAccepted(st.users, isEmail, k, Hooked(v, salt), f)
  {
    var v := st.users[k].(password := AssignedPassword(f.newPassword));
    OtherRowReplace(st.users, k, Hooked(v, salt), EmailIs(f.email.value));
    var s := SaveUser(st, isEmail, v, salt);
    if s.result.Err? then Handled(Failed, st)
    else
      Auth.SavedRowIsFound(st, isEmail, k, v, salt);
      var h := s.result.value;
      RowOfReplace(st.users, k, h);
      var w := ProfileApplied(h, f, salt);
      assert st.users[k := h][k := w] == st.users[k := w];
      ProfileSaveAt(s.after, isEmail, k, h, f, salt)
  }

  /** `updateProfile` over a database state. A rejected form, an unknown user, a wrong current
    * password and a short new password change nothing. The password is changed only when both
    * passwords are given, and it is saved before the profile, so a profile save that fails
    * after it (a taken email, say) reports the generic error with the new password stored. On
    * success only that user's row changes: the form's name, email and currency, the same
    * preferences and token, the new password's digest when one was given; and the session
    * holds the stored values. */
  function UpdateOf(st: DbState, isEmail: string -> bool, userId: nat, f: ProfileForm, salt: string): (r: Handled)
    ensures !ProfileFormValid(f, isEmail) ==> r == Handled(FormRejected, st)
    ensures ProfileFormValid(f, isEmail) && Auth.RowOf(st.users, userId) < 0 ==> r == Handled(UserNotFound, st)
    ensures r.outcome == WrongCurrentPassword <==>
              ProfileFormValid(f, isEmail) && Auth.RowOf(st.users, userId) >= 0 && PasswordGiven(f)
              && ComparePassword(st.users[Auth.RowOf(st.users, userId)], f.currentPassword) == Ok(false)
    ensures PasswordGiven(f) && Text.Utf16Length(f.newPassword.value) < Auth.MinPasswordLength ==>
              !r.outcome.ProfileUpdated? && r.after == st
    ensures ProfileFormValid(f, isEmail) && Auth.RowOf(st.users, userId) >= 0 && !PasswordGiven(f) ==>
              var k := Auth.RowOf(st.users, userId);
              (r.outcome.ProfileUpdated? <==> ProfileSaveAccepted(st.users, isEmail, k, st.users[k], f))
    ensures ProfileFormValid(f, isEmail) && Auth.RowOf(st.users, userId) >= 0 && PasswordGiven(f)
            && ComparePassword(st.users[Auth.RowOf(st.users, userId)], f.currentPassword) == Ok(true)
            && Text.Utf16Length(f.newPassword.value) >= Auth.MinPasswordLength ==>
              var k := Auth.RowOf(st.users, userId);
              var v := st.users[k].(password := AssignedPassword(f.newPassword));
              (r.outcome.ProfileUpdated? <==>
                 && ValidUser(v, isEmail) && !OtherRow(st.users, k, EmailIs(v.email))
                 && ProfileSaveAccepted(st.users, isEmail, k, Hooked(v, salt), f))
    ensures r.outcome.ProfileUpdated? ==>
              var k := Auth.RowOf(st.users, userId);
              && 0 <= k < |st.users| && |r.after.users| == |st.users|
              && r.after == st.(users := st.users[k := r.after.users[k]])
              && ProfileStored(r.after.users[k], st.users[k], f)
              && r.outcome.session == Auth.SessionOf(r.after.users[k])
              && (PasswordGiven(f) ==>
                    r.after.users[k].password.Hashed?
                    && forall q :: Compare(q, r.after.users[k].password.digest) <==> q == f.newPassword.value)
              && (!PasswordGiven(f) ==> r.after.users[k].password == Hooked(st.users[k], salt).password)
    ensures r.outcome == Failed && r.after != st ==>
              PasswordGiven(f) && Auth.NewPasswordAt(st, r.after, Auth.RowOf(st.users, userId), f.newPassword.value)
    ensures !r.outcome.ProfileUpdated? && r.outcome != Failed ==> r.after == st
    ensures r.outcome.ProfileUpdated? || r.outcome in {FormRejected, UserNotFound, WrongCurrentPassword, PasswordTooShort, Failed}
  {
    if !ProfileFormValid(f, isEmail) then Handled(FormRejected, st)
    else
      var k := Auth.RowOf(st.users, userId);
      if k < 0 then Handled(UserNotFound, st)
      else
      assert IdIs(UserId, userId)(st.users[k]);
      if !PasswordGiven(f) then ProfileSaveAt(st, isEmail, k, st.users[k], f, salt)
      else match ComparePassword(st.users[k], f.currentPassword)
        case Err(_) => Handled(Failed, st)
        case Ok(valid) =>
          if !valid then Handled(WrongCurrentPassword, st)
          else if Text.Utf16Length(f.newPassword.value) < Auth.MinPasswordLength then Handled(PasswordTooShort, st)
          else ChangeThenSave(st, isEmail, k, f, salt)
  }

  /** The profile save of `updateProfile` on the instance `user`, whose row is at `k`. */
  method SaveProfile(db: Db, user: UserInstance, f: ProfileForm, salt: string, ghost k: int) returns (r: Outcome)
    requires db.Valid()
    requires 0 <= k < |db.state.users| && Auth.RowOf(db.state.users, user.values.id) == k
    requires f.name.Some? && f.email.Some? && f.currency.Some?
    modifies db, user
    ensures db.Valid()
    ensures Handled(r, db.state) == ProfileSaveAt(old(db.state), db.isEmail, k, old(user.values), f, salt)
  {
    var saved := user.UpdateProfile(ProfileDataOf(f), db, salt);
    r := if saved.Ok? then ProfileUpdated(Auth.SessionOf(user.values)) else Failed;
  }

  /** `ChangeThenSave` is the password save followed, when it succeeds, by the profile save. */
  lemma ChangeThenSaveSteps(st: DbState, isEmail: string -> bool, k: int, f: ProfileForm, salt: string)
    requires 0 <= k < |st.users| && Auth.RowOf(st.users, st.users[k].id) == k
    requires PasswordGiven(f) && f.name.Some? && f.email.Some? && f.currency.Some?
    ensures var s := SaveUser(st, isEmail, st.users[k].(password := AssignedPassword(f.newPassword)), salt);
            && (s.result.Err? ==> ChangeThenSave(st, isEmail, k, f, salt) == Handled(Failed, st))
            && (s.result.Ok? ==>
                  && s.after == st.(users := st.users[k := s.result.value])
                  && Auth.RowOf(s.after.users, s.result.value.id) == k
                  && ChangeThenSave(st, isEmail, k, f, salt) == ProfileSaveAt(s.after, isEmail, k, s.result.value, f, salt))
  {
    var v := st.users[k].(password := AssignedPassword(f.newPassword));
    var s := SaveUser(st, isEmail, v, salt);
    if s.result.Ok? {
      Auth.SavedRowIsFound(st, isEmail, k, v, salt);
      RowOfReplace(st.users, k, s.result.value);
    }
  }

  /** The password branch of `updateProfile` once the current password is accepted. */
  method ChangeAndSave(db: Db, user: UserInstance, f: ProfileForm, salt: string, ghost k: int) returns (r: Outcome)
    requires db.Valid()
    requires 0 <= k < |db.state.users| && user.values == db.state.users[k]
    requires Auth.RowOf(db.state.users, user.values.id) == k
    requires PasswordGiven(f) && f.name.Some? && f.email.Some? && f.currency.Some?
    modifies db, user
    ensures db.Valid()
    ensures Handled(r, db.state) == ChangeThenSave(old(db.state), db.isEmail, k, f, salt)
  {
    ghost var st, v := db.state, user.values.(password := AssignedPassword(f.newPassword));
    ChangeThenSaveSteps(st, db.isEmail, k, f, salt);
    var changed := user.ChangePassword(f.newPassword, db, salt);
    if changed.Err? {
      return Failed;
    }
    r := SaveProfile(db, user, f, salt, k);
  }

  /** `POST /profile/update` (routes/profile.js) for the session's user. */
  method UpdateProfile(db: Db, userId: nat, f: ProfileForm, salt: string) returns (r: Outcome)
    requires db.Valid()
    modifies db
    ensures db.Valid()
    ensures Handled(r, db.state) == UpdateOf(old(db.state), db.isEmail, userId, f, salt)
  {
    ghost var st := db.state;
    if !ProfileFormValid(f, db.isEmail) {
      return FormRejected;
    }
    var found := db.FindUser(userId);
    FindFirstIsIndexWhere(st.users, IdIs(UserId, userId));
    if found.None? {
      return UserNotFound;
    }
    ghost var k := Auth.RowOf(st.users, userId);
    assert IdIs(UserId, userId)(st.users[k]);
    var user := new UserInstance(found.value);
    if PasswordGiven(f) {
      var valid := user.ValidatePassword(f.currentPassword);
      if valid.Err? {
        return Failed;
      }
      if !valid.value {
        return WrongCurrentPassword;
      }
      if Text.Utf16Length(f.newPassword.value) < Auth.MinPasswordLength {
        return PasswordTooShort;
      }
      r := ChangeAndSave(db, user, f, salt, k);
    } else {
      r := SaveProfile(db, user, f, salt, k);
    }
  }

  // ----- deleteAccount -----

  /** The database transaction `deleteAccount` opens first: still open, committed, or rolled
    * back. */
  datatype TxStatus = TxOpen | TxCommitted | TxRolledBack

  /** An answer, the database after it, and the state the transaction is left in. */
  datatype Deletion = Deletion(outcome: Outcome, after: DbState, tx: TxStatus)

  /** `deleteAccount` as written: the transaction is opened before anything else, but the two
    * early returns (an unknown user, a wrong password) leave it neither committed nor rolled
    * back; a password check that throws reaches the `catch`, which rolls back. */
  function DeleteAccountAsWritten(st: DbState, userId: nat, confirmPassword: Option<string>): (r: Deletion)
    ensures r.tx == TxOpen <==> r.outcome in {UserNotFound, WrongPassword}
  {
    var found := FindFirst(st.users, IdIs(UserId, userId));
    if found.None? then Deletion(UserNotFound, st, TxOpen)
    else match ComparePassword(found.value, confirmPassword)
      case Err(_) => Deletion(Failed, st, TxRolledBack)
      case Ok(valid) =>
        if !valid then Deletion(WrongPassword, st, TxOpen)
        else Deletion(AccountDeleted, Cascade(st, userId), TxCommitted)
  }

  /** As written, a wrong confirmation password returns with the transaction still open. */
  lemma WrongPasswordLeavesTransactionOpen()
    ensures var u := User(1, "Alice", "alice@example.com", Hashed(Bcrypt("secret1", "s")), "EUR", NoPreferences,
                          None, None);
            var st := DbState([u], [], [], [], 2);
            DeleteAccountAsWritten(st, 1, Some("wrong")) == Deletion(WrongPassword, st, TxOpen)
  {
    var u := User(1, "Alice", "alice@example.com", Hashed(Bcrypt("secret1", "s")), "EUR", NoPreferences, None, None);
    var st := DbState([u], [], [], [], 2);
    assert UserId(u) == 1;
    assert IdIs(UserId, 1)(st.users[0]);
    assert FindFirst(st.users, IdIs(UserId, 1)) == Some(u);
    assert |"wrong"| != |"secret1"|;
  }

  /** `deleteAccount` with every early return rolling the transaction back: an unknown user or a
    * wrong password leaves everything in place; the right password destroys the user and, by
    * the cascade, everything the user owns, and commits. */
  function DeleteAccountOf(st: DbState, userId: nat, confirmPassword: Option<string>): (r: Deletion)
    ensures r.tx != TxOpen
    ensures r.tx == TxCommitted <==> r.outcome == AccountDeleted
    ensures r.outcome == AccountDeleted <==>
              Auth.RowOf(st.users, userId) >= 0
              && ComparePassword(st.users[Auth.RowOf(st.users, userId)], confirmPassword) == Ok(true)
    ensures r.outcome == AccountDeleted ==> r.after == Cascade(st, userId)
    ensures r.outcome != AccountDeleted ==> r.after == st
    ensures r.outcome in {AccountDeleted, UserNotFound, WrongPassword, Failed}
  {
    FindFirstIsIndexWhere(st.users, IdIs(UserId, userId));
    var found := FindFirst(st.users, IdIs(UserId, userId));
    if found.None? then Deletion(UserNotFound, st, TxRolledBack)
    else match ComparePassword(found.value, confirmPassword)
      case Err(_) => Deletion(Failed, st, TxRolledBack)
      case Ok(valid) =>
        if !valid then Deletion(WrongPassword, st, TxRolledBack)
        else Deletion(AccountDeleted, Cascade(st, userId), TxCommitted)
  }

  /** Both versions agree on the answer and the database; they differ only in the transaction. */
  lemma DeleteAccountVersionsAgree(st: DbState, userId: nat, confirmPassword: Option<string>)
    ensures DeleteAccountAsWritten(st, userId, confirmPassword).outcome == DeleteAccountOf(st, userId, confirmPassword).outcome
    ensures DeleteAccountAsWritten(st, userId, confirmPassword).after == DeleteAccountOf(st, userId, confirmPassword).after
    ensures DeleteAccountAsWritten(st, userId, confirmPassword).tx == TxOpen ==>
              DeleteAccountOf(st, userId, confirmPassword).tx == TxRolledBack
  {
  }

  /** After a deletion no row of the user is left, and every row of another user still is. */
  lemma DeletedAccountLeavesNothing(st: DbState, userId: nat, confirmPassword: Option<string>)
    requires DeleteAccountOf(st, userId, confirmPassword).outcome == AccountDeleted
    ensures var after := DeleteAccountOf(st, userId, confirmPassword).after;
      && (forall i :: 0 <= i < |after.users| ==> after.users[i].id != userId)
      && (forall i :: 0 <= i < |after.transactions| ==> after.transactions[i].userId != userId)
      && (forall i :: 0 <= i < |after.budgets| ==> after.budgets[i].userId != userId)
      && (forall i :: 0 <= i < |after.goals| ==> after.goals[i].userId != userId)
      && (forall i :: 0 <= i < |st.transactions| && st.transactions[i].userId != userId ==>
                        st.transactions[i] in after.transactions)
      && (forall i :: 0 <= i < |st.budgets| && st.budgets[i].userId != userId ==> st.budgets[i] in after.budgets)
      && (forall i :: 0 <= i < |st.goals| && st.goals[i].userId != userId ==> st.goals[i] in after.goals)
  {
    CascadeRemovesOwned(st, userId);
  }

  /** `POST /profile/delete` (routes/profile.js) for the session's user, over the corrected definition. */
  method DeleteAccount(db: Db, userId: nat, confirmPassword: Option<string>) returns (r: Outcome, tx: TxStatus)
    requires db.Valid()
    modifies db
    ensures db.Valid()
    ensures Deletion(r, db.state, tx) == DeleteAccountOf(old(db.state), userId, confirmPassword)
  {
    tx := TxOpen;
    var found := db.FindUser(userId);
    if found.None? {
      return UserNotFound, TxRolledBack;
    }
    var user := new UserInstance(found.value);
    var valid := user.ValidatePassword(confirmPassword);
    if valid.Err? {
      return Failed, TxRolledBack;
    }
    if !valid.value {
      return WrongPassword, TxRolledBack;
    }
    db.DestroyUser(userId);
    r, tx := AccountDeleted, TxCommitted;
  }
}
