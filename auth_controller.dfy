/** controllers/AuthController.js: registration, login, the password change of a signed-in user,
  * and the reset-token flow (ask for a link, open it, set a new password). The clock, the random
  * token, the bcrypt salt and whether the reset email could be sent are parameters. */
module AuthController {
  import opened Wrappers
  import opened Forms
  import opened Entities
  import opened Tables
  import opened Store
  import opened UserModel
  import Text

  /** What the handlers keep in `req.session.user`. */
  datatype SessionUser = SessionUser(id: nat, name: string, email: string, currency: string)

  function SessionOf(u: User): SessionUser {
    SessionUser(u.id, u.name, u.email, u.currency)
  }

  /** What a handler answers: a signed-in session (and the redirect to the dashboard), one of the
    * success pages, one of the error messages, or the generic error of its `catch`. */
  datatype Outcome =
    | SignedIn(session: SessionUser)
    | PasswordChanged
    | ResetMailSent
    | ResetLinkShown(token: string)
    | ResetForm(token: string)
    | PasswordReset
    | FieldsRequired
    | PasswordMismatch
    | PasswordTooShort
    | EmailInUse
    | CredentialsRequired
    | BadCredentials
    | UserNotFound
    | WrongCurrentPassword
    | EmailRequired
    | NoSuchEmail
    | InvalidLink
    | Failed

  /** An answer and the database after it. */
  datatype Handled = Handled(outcome: Outcome, after: DbState)

  /** The length check of `register` and `resetPassword`. */
  const MinPasswordLength: int := 6
  const DefaultCurrency: string := "EUR"
  /** The preferences every new account starts with. */
  const DefaultPreferences: Preferences := Preferences(Some("fr"), Some("light"), Some(true))

  /** The position of the user row with id `id`, or -1. */
  function RowOf(users: seq<User>, id: nat): int {
    IndexWhere(users, IdIs(UserId, id))
  }

  /** Two rows of the same account with the same profile. */
  predicate SameProfile(a: User, b: User) {
    a.id == b.id && a.name == b.name && a.email == b.email && a.currency == b.currency
    && a.preferences == b.preferences
  }

  /** `after` is `st` with only the user at position `k` rewritten: the same profile, and a
    * digest that accepts exactly the password `p`. */
  ghost predicate NewPasswordAt(st: DbState, after: DbState, k: int, p: string) {
    && 0 <= k < |st.users| && |after.users| == |st.users|
    && after == st.(users := st.users[k := after.users[k]])
    && SameProfile(after.users[k], st.users[k])
    && after.users[k].password.Hashed?
    && forall q :: Compare(q, after.users[k].password.digest) <==> q == p
  }

  /** With ids increasing along the table, the row found for a user's id is that user's row. */
  lemma IdIndexIsPosition(users: seq<User>, n: nat, i: int)
    requires IdsIncreasing(users, UserId, n) && 0 <= i < |users|
    ensures RowOf(users, users[i].id) == i
  {
    assert IdIs(UserId, users[i].id)(users[i]);
  }

  /** A save that succeeds writes the row it was given over the row of the same account: any
    * other row with that id would carry the same email, which the unique index refuses. */
  lemma SavedRowIsFound(st: DbState, isEmail: string -> bool, i: int, v: User, salt: string)
    requires 0 <= i < |st.users| && v.id == st.users[i].id && v.email == st.users[i].email
    requires SaveUser(st, isEmail, v, salt).result.Ok?
    ensures RowOf(st.users, v.id) == i
    ensures SaveUser(st, isEmail, v, salt).after == st.(users := st.users[i := Hooked(v, salt)])
  {
    var k := RowOf(st.users, v.id);
    assert IdIs(UserId, v.id)(st.users[i]);
  }

  // ----- register -----

  /** The body of `POST /auth/register`; an absent entry is `undefined`. */
  datatype RegisterForm = RegisterForm(
    name: Option<string>, email: Option<string>, password: Option<string>,
    confirmPassword: Option<string>, currency: Option<string>)

  predicate AllGiven(f: RegisterForm) {
    Truthy(f.name) && Truthy(f.email) && Truthy(f.password) && Truthy(f.confirmPassword)
  }

  /** `currency = "EUR"` in the destructuring: the default replaces `undefined` only. */
  function CurrencyOf(f: RegisterForm): string {
    if f.currency.Some? then f.currency.value else DefaultCurrency
  }

  /** The three checks that come before the email lookup. */
  predicate PasswordAccepted(f: RegisterForm) {
    AllGiven(f) && f.password == f.confirmPassword && Text.Utf16Length(f.password.value) >= MinPasswordLength
  }

  /** The row `User.create` is given. */
  function NewUser(st: DbState, f: RegisterForm): User
    requires AllGiven(f)
  {
    User(st.nextId, f.name.value, f.email.value, Plain(f.password.value), CurrencyOf(f), DefaultPreferences,
         None, None)
  }

  /** `register` over a database state: the four checks in order, the first failure winning and
    * creating nothing; then `User.create`, whose failure is the generic error. A new account has
    * the given name and email, the currency `EUR` unless one was sent, the default preferences,
    * no reset token, and a digest of its password; its session is signed in. */
  function RegisterOf(st: DbState, isEmail: string -> bool, f: RegisterForm, salt: string): (r: Handled)
    ensures !AllGiven(f) ==> r == Handled(FieldsRequired, st)
    ensures AllGiven(f) && f.password != f.confirmPassword ==> r == Handled(PasswordMismatch, st)
    ensures AllGiven(f) && f.password == f.confirmPassword && Text.Utf16Length(f.password.value) < MinPasswordLength ==>
              r == Handled(PasswordTooShort, st)
    ensures PasswordAccepted(f) && EmailTaken(st.users, f.email.value) ==> r == Handled(EmailInUse, st)
    ensures r.outcome.SignedIn? <==>
              PasswordAccepted(f) && !EmailTaken(st.users, f.email.value) && ValidUser(NewUser(st, f), isEmail)
    ensures r.outcome.SignedIn? ==>
              && |r.after.users| == |st.users| + 1
              && var u := r.after.users[|st.users|];
              && r.after == st.(users := st.users + [u], nextId := st.nextId + 1)
              && u.id == st.nextId && u.name == f.name.value && u.email == f.email.value
              && u.currency == CurrencyOf(f) && u.preferences == DefaultPreferences
              && u.resetToken.None? && u.resetExpires.None?
              && u.password.Hashed? && (forall q :: Compare(q, u.password.digest) <==> q == f.password.value)
              && r.outcome.session == SessionOf(u)
    ensures !r.outcome.SignedIn? ==> r.after == st
  {
    if !AllGiven(f) then Handled(FieldsRequired, st)
    else if f.password != f.confirmPassword then Handled(PasswordMismatch, st)
    else if Text.Utf16Length(f.password.value) < MinPasswordLength then Handled(PasswordTooShort, st)
    else if FindFirst(st.users, EmailIs(f.email.value)).Some? then Handled(EmailInUse, st)
    else
      var s := CreateUser(st, isEmail, f.name.value, f.email.value, Plain(f.password.value), CurrencyOf(f),
                          DefaultPreferences, salt);
      if s.result.Ok? then Handled(SignedIn(SessionOf(s.result.value)), s.after) else Handled(Failed, st)
  }

  /** `POST /auth/register`. */
  method Register(db: Db, f: RegisterForm, salt: string) returns (r: Outcome)
    requires db.Valid()
    modifies db
    ensures db.Valid()
    ensures Handled(r, db.state) == RegisterOf(old(db.state), db.isEmail, f, salt)
  {
    if !AllGiven(f) {
      return FieldsRequired;
    }
    if f.password != f.confirmPassword {
      return PasswordMismatch;
    }
    if Text.Utf16Length(f.password.value) < MinPasswordLength {
      return PasswordTooShort;
    }
    var existing := db.FindUserByEmail(f.email.value);
    if existing.Some? {
      return EmailInUse;
    }
    var created := db.InsertUser(f.name.value, f.email.value, Plain(f.password.value), CurrencyOf(f),
                                 DefaultPreferences, salt);
    r := if created.Ok? then SignedIn(SessionOf(created.value)) else Failed;
  }

  // ----- login -----

  /** `login` over the users table: a missing field, then the email lookup, then the password
    * check. An unknown email and a wrong password give the same answer; a password the digest
    * accepts signs in the user with that email. */
  function LoginOf(users: seq<User>, email: Option<string>, password: Option<string>): (r: Outcome)
    ensures !Truthy(email) || !Truthy(password) ==> r == CredentialsRequired
    ensures Truthy(email) && Truthy(password)
            && (forall k :: 0 <= k < |users| && users[k].email == email.value ==>
                              ComparePassword(users[k], password) == Ok(false)) ==>
              r == BadCredentials
    ensures r.SignedIn? ==>
              exists k :: 0 <= k < |users| && users[k].email == email.value && password.Some?
                          && users[k].password.Hashed? && Compare(password.value, users[k].password.digest)
                          && r.session == SessionOf(users[k])
    ensures Truthy(email) && Truthy(password) ==>
              var i := IndexWhere(users, EmailIs(email.value));
              i >= 0 && ComparePassword(users[i], password) == Ok(true) ==> r == SignedIn(SessionOf(users[i]))
    ensures r.SignedIn? || r == CredentialsRequired || r == BadCredentials || r == Failed
  {
    if !Truthy(email) || !Truthy(password) then CredentialsRequired
    else
      FindFirstIsIndexWhere(users, EmailIs(email.value));
      var found := FindFirst(users, EmailIs(email.value));
      if found.None? then BadCredentials
      else match ComparePassword(found.value, password)
        case Err(_) => Failed
        case Ok(valid) => if valid then SignedIn(SessionOf(found.value)) else BadCredentials
  }

  /** `POST /auth/login`; it changes nothing in the database. */
  method Login(db: Db, email: Option<string>, password: Option<string>) returns (r: Outcome)
    ensures r == LoginOf(db.state.users, email, password)
  {
    if !Truthy(email) || !Truthy(password) {
      return CredentialsRequired;
    }
    var found := db.FindUserByEmail(email.value);
    if found.None? {
      return BadCredentials;
    }
    var user := new UserInstance(found.value);
    var valid := user.ValidatePassword(password);
    if valid.Err? {
      return Failed;
    }
    r := if valid.value then SignedIn(SessionOf(user.values)) else BadCredentials;
  }

  /** A new account can sign in at once with the email and password it registered with, and gets
    * the same session. */
  lemma RegisteredUserCanLogIn(st: DbState, isEmail: string -> bool, f: RegisterForm, salt: string)
    requires RegisterOf(st, isEmail, f, salt).outcome.SignedIn?
    ensures LoginOf(RegisterOf(st, isEmail, f, salt).after.users, f.email, f.password)
            == RegisterOf(st, isEmail, f, salt).outcome
  {
    var r := RegisterOf(st, isEmail, f, salt);
    var users := r.after.users;
    var u := users[|st.users|];
    assert users == st.users + [u];
    assert EmailIs(f.email.value)(u);
    var found := FindFirst(users, EmailIs(f.email.value));
    assert found.value == u;
  }

  // ----- changePassword -----

  /** `changePassword` over a database state: the confirmation is compared before the user is
    * looked up; then the current password is checked on the session's user, and only then is
    * the new one saved. A new password that fails validation (or is absent) is the generic
    * error. Whatever fails, nothing changes; on success only that user's password does, and the
    * new digest accepts exactly the new password. */
  function ChangePasswordOf(st: DbState, isEmail: string -> bool, userId: nat, currentPassword: Option<string>,
                            newPassword: Option<string>, confirmPassword: Option<string>, salt: string): (r: Handled)
    ensures newPassword != confirmPassword ==> r == Handled(PasswordMismatch, st)
    ensures newPassword == confirmPassword && RowOf(st.users, userId) < 0 ==> r == Handled(UserNotFound, st)
    ensures r.outcome == WrongCurrentPassword <==>
              newPassword == confirmPassword && RowOf(st.users, userId) >= 0
              && ComparePassword(st.users[RowOf(st.users, userId)], currentPassword) == Ok(false)
    ensures r.outcome.PasswordChanged? ==>
              var k := RowOf(st.users, userId);
              && k >= 0 && currentPassword.Some? && newPassword.Some?
              && st.users[k].password.Hashed? && Compare(currentPassword.value, st.users[k].password.digest)
              && NewPasswordAt(st, r.after, k, newPassword.value)
              && r.after.users[k].resetToken == st.users[k].resetToken
              && r.after.users[k].resetExpires == st.users[k].resetExpires
    ensures !r.outcome.PasswordChanged? ==> r.after == st
    ensures r.outcome in {PasswordChanged, PasswordMismatch, UserNotFound, WrongCurrentPassword, Failed}
  {
    if newPassword != confirmPassword then Handled(PasswordMismatch, st)
    else
      FindFirstIsIndexWhere(st.users, IdIs(UserId, userId));
      var found := FindFirst(st.users, IdIs(UserId, userId));
      if found.None? then Handled(UserNotFound, st)
      else match ComparePassword(found.value, currentPassword)
        case Err(_) => Handled(Failed, st)
        case Ok(valid) =>
          if !valid then Handled(WrongCurrentPassword, st)
          else
            var s := SaveUser(st, isEmail, found.value.(password := AssignedPassword(newPassword)), salt);
            if s.result.Ok? then Handled(PasswordChanged, s.after) else Handled(Failed, st)
  }

  /** On a consistent database, a right current password and a new password the model accepts
    * always change the password. */
  lemma ChangePasswordSucceeds(st: DbState, isEmail: string -> bool, userId: nat, current: string, p: string,
                               salt: string)
    requires DbOk(st, isEmail) && ValidPlainPassword(p) && RowOf(st.users, userId) >= 0
    requires ComparePassword(st.users[RowOf(st.users, userId)], Some(current)) == Ok(true)
    ensures ChangePasswordOf(st, isEmail, userId, Some(current), Some(p), Some(p), salt).outcome == PasswordChanged
  {
    FindFirstIsIndexWhere(st.users, IdIs(UserId, userId));
    var i := RowOf(st.users, userId);
    assert StoredUser(st.users[i], isEmail);
    StoredRowSaveSucceeds(st, isEmail, i, st.users[i].(password := AssignedPassword(Some(p))), salt);
  }

  /** `changePassword` for the session's user; no route of routes/auth.js leads to it. */
  method ChangePassword(db: Db, userId: nat, currentPassword: Option<string>, newPassword: Option<string>,
                        confirmPassword: Option<string>, salt: string) returns (r: Outcome)
    requires db.Valid()
    modifies db
    ensures db.Valid()
    ensures Handled(r, db.state)
            == ChangePasswordOf(old(db.state), db.isEmail, userId, currentPassword, newPassword, confirmPassword, salt)
  {
    if newPassword != confirmPassword {
      return PasswordMismatch;
    }
    var found := db.FindUser(userId);
    if found.None? {
      return UserNotFound;
    }
    var user := new UserInstance(found.value);
    var valid := user.ValidatePassword(currentPassword);
    if valid.Err? {
      return Failed;
    }
    if !valid.value {
      return WrongCurrentPassword;
    }
    ghost var st, v := db.state, user.values.(password := AssignedPassword(newPassword));
    assert ChangePasswordOf(st, db.isEmail, userId, currentPassword, newPassword, confirmPassword, salt)
           == var s := SaveUser(st, db.isEmail, v, salt);
              if s.result.Ok? then Handled(PasswordChanged, s.after) else Handled(Failed, st);
    var changed := user.ChangePassword(newPassword, db, salt);
    r := if changed.Ok? then PasswordChanged else Failed;
  }

  // ----- forgotPassword -----

  /** `forgotPassword` over a database state: a missing email, then the lookup; for a known
    * email a token is generated and saved on that user, and only then is the email sent, so the
    * token is stored whether or not sending succeeds (the page then shows the link). */
  function ForgotOf(st: DbState, isEmail: string -> bool, email: Option<string>, token: string, now: int,
                    emailSent: bool, salt: string): (r: Handled)
    ensures !Truthy(email) ==> r == Handled(EmailRequired, st)
    ensures Truthy(email) && !EmailTaken(st.users, email.value) ==> r == Handled(NoSuchEmail, st)
    ensures r.outcome.ResetMailSent? || r.outcome.ResetLinkShown? ==>
              && Truthy(email)
              && var i := IndexWhere(st.users, EmailIs(email.value));
              && 0 <= i < |st.users|
              && var k := RowOf(st.users, st.users[i].id);
              && 0 <= k < |st.users| && |r.after.users| == |st.users|
              && r.after == st.(users := st.users[k := r.after.users[k]])
              && SameProfile(r.after.users[k], st.users[i])
              && forall s, t :: TokenValid(r.after.users[k], s, t) <==> s == token && t < now + ResetWindow
    ensures r.outcome.ResetMailSent? ==> emailSent
    ensures r.outcome.ResetLinkShown? ==> !emailSent && r.outcome.token == token
    ensures !(r.outcome.ResetMailSent? || r.outcome.ResetLinkShown?) ==> r.after == st
    ensures r.outcome.ResetMailSent? || r.outcome.ResetLinkShown? || r.outcome in {EmailRequired, NoSuchEmail, Failed}
  {
    if !Truthy(email) then Handled(EmailRequired, st)
    else
      FindFirstIsIndexWhere(st.users, EmailIs(email.value));
      var found := FindFirst(st.users, EmailIs(email.value));
      if found.None? then Handled(NoSuchEmail, st)
      else
        var s := SaveUser(st, isEmail, found.value.(resetToken := Some(token), resetExpires := Some(now + ResetWindow)),
                          salt);
        if s.result.Err? then Handled(Failed, st)
        else if emailSent then Handled(ResetMailSent, s.after)
        else Handled(ResetLinkShown(token), s.after)
  }

  /** `POST /auth/forgot-password`. `token` is what `crypto.randomBytes` drew, `now` the clock,
    * `emailSent` the result of the email service. */
  method ForgotPassword(db: Db, email: Option<string>, token: string, now: int, emailSent: bool, salt: string)
    returns (r: Outcome)
    requires db.Valid()
    modifies db
    ensures db.Valid()
    ensures Handled(r, db.state) == ForgotOf(old(db.state), db.isEmail, email, token, now, emailSent, salt)
  {
    if !Truthy(email) {
      return EmailRequired;
    }
    var found := db.FindUserByEmail(email.value);
    if found.None? {
      return NoSuchEmail;
    }
    var user := new UserInstance(found.value);
    var issued := user.GenerateResetToken(token, now);
    var saved := user.Save(db, salt);
    if saved.Err? {
      return Failed;
    }
    r := if emailSent then ResetMailSent else ResetLinkShown(issued);
  }

  /** In a consistent database a known email always gets its token stored, and the stored state
    * is the same whether or not the email could be sent. */
  lemma ForgotIssuesToken(st: DbState, isEmail: string -> bool, email: string, token: string, now: int, salt: string)
    requires DbOk(st, isEmail) && email != [] && EmailTaken(st.users, email)
    ensures ForgotOf(st, isEmail, Some(email), token, now, true, salt).outcome == ResetMailSent
    ensures ForgotOf(st, isEmail, Some(email), token, now, false, salt).outcome == ResetLinkShown(token)
    ensures ForgotOf(st, isEmail, Some(email), token, now, true, salt).after
            == ForgotOf(st, isEmail, Some(email), token, now, false, salt).after
  {
    var users := st.users;
    var k0 :| 0 <= k0 < |users| && users[k0].email == email;
    assert EmailIs(email)(users[k0]);
    FindFirstIsIndexWhere(users, EmailIs(email));
    var i := IndexWhere(users, EmailIs(email));
    TokenSaveSucceeds(st, isEmail, i, token, now + ResetWindow, salt);
    SavedTokenOutcome(st, isEmail, email, token, now, salt);
  }

  /** When saving the token on the user found succeeds, the answer depends on the email service
    * only, and the stored state does not. */
  lemma SavedTokenOutcome(st: DbState, isEmail: string -> bool, email: string, token: string, now: int, salt: string)
    requires email != [] && FindFirst(st.users, EmailIs(email)).Some?
    requires SaveUser(st, isEmail, FindFirst(st.users, EmailIs(email)).value.(resetToken := Some(token),
                      resetExpires := Some(now + ResetWindow)), salt).result.Ok?
    ensures ForgotOf(st, isEmail, Some(email), token, now, true, salt).outcome == ResetMailSent
    ensures ForgotOf(st, isEmail, Some(email), token, now, false, salt).outcome == ResetLinkShown(token)
    ensures ForgotOf(st, isEmail, Some(email), token, now, true, salt).after
            == ForgotOf(st, isEmail, Some(email), token, now, false, salt).after
  {
  }

  /** Setting a token on a stored user passes validation and the unique email. */
  lemma TokenSaveSucceeds(st: DbState, isEmail: string -> bool, i: int, token: string, expires: int, salt: string)
    requires DbOk(st, isEmail) && 0 <= i < |st.users|
    ensures SaveUser(st, isEmail, st.users[i].(resetToken := Some(token), resetExpires := Some(expires)), salt).result.Ok?
  {
    assert StoredUser(st.users[i], isEmail);
    StoredRowSaveSucceeds(st, isEmail, i, st.users[i].(resetToken := Some(token), resetExpires := Some(expires)), salt);
  }

  /** A valid rewrite of a stored user's row that keeps its id and email is saved: the email
    * stays unique because no other row of a consistent database holds it. */
  lemma StoredRowSaveSucceeds(st: DbState, isEmail: string -> bool, i: int, v: User, salt: string)
    requires DbOk(st, isEmail) && 0 <= i < |st.users|
    requires v.id == st.users[i].id && v.email == st.users[i].email && ValidUser(v, isEmail)
    ensures SaveUser(st, isEmail, v, salt).result.Ok?
  {
    var users := st.users;
    IdIndexIsPosition(users, st.nextId, i);
    assert !OtherRow(users, i, EmailIs(v.email)) by {
      forall j | 0 <= j < |users| && j != i ensures !EmailIs(v.email)(users[j]) {
        if j < i {
          assert users[j].email != users[i].email;
        } else {
          assert users[i].email != users[j].email;
        }
      }
    }
  }

  // ----- showResetPassword -----

  /** `showResetPassword` over the users table: the first user holding `token`, if its token is
    * still valid at `now`, gets the reset form; otherwise the link is invalid. No user whose
    * token is valid means an invalid link. */
  function ShowResetOf(users: seq<User>, token: string, now: int): (r: Outcome)
    ensures r == ResetForm(token) || r == InvalidLink
    ensures r == ResetForm(token) <==>
              var k := IndexWhere(users, HoldsToken(token)); k >= 0 && TokenValid(users[k], token, now)
    ensures (forall i :: 0 <= i < |users| ==> !TokenValid(users[i], token, now)) ==> r == InvalidLink
  {
    FindFirstIsIndexWhere(users, HoldsToken(token));
    var found := FindFirst(users, HoldsToken(token));
    if found.None? || !TokenValid(found.value, token, now) then InvalidLink else ResetForm(token)
  }

  /** `GET /auth/reset-password/:token`; it changes nothing. */
  method ShowResetPassword(db: Db, token: string, now: int) returns (r: Outcome)
    ensures r == ShowResetOf(db.state.users, token, now)
  {
    var found := db.FindUserByResetToken(token);
    if found.None? {
      return InvalidLink;
    }
    var user := new UserInstance(found.value);
    if !user.IsResetTokenValid(token, now) {
      return InvalidLink;
    }
    r := ResetForm(token);
  }

  /** Issuing a token nobody holds opens the reset form exactly until it expires. */
  lemma IssuedTokenOpensForm(st: DbState, isEmail: string -> bool, email: Option<string>, token: string, now: int,
                             emailSent: bool, salt: string, t: int)
    requires forall i :: 0 <= i < |st.users| ==> st.users[i].resetToken != Some(token)
    requires ForgotOf(st, isEmail, email, token, now, emailSent, salt).outcome.ResetMailSent?
             || ForgotOf(st, isEmail, email, token, now, emailSent, salt).outcome.ResetLinkShown?
    ensures ShowResetOf(ForgotOf(st, isEmail, email, token, now, emailSent, salt).after.users, token, t)
            == if t < now + ResetWindow then ResetForm(token) else InvalidLink
  {
    var after := ForgotOf(st, isEmail, email, token, now, emailSent, salt).after;
    var i := IndexWhere(st.users, EmailIs(email.value));
    var k := RowOf(st.users, st.users[i].id);
    assert HoldsToken(token)(after.users[k]) by {
      assert TokenValid(after.users[k], token, now - 1);
    }
    forall j | 0 <= j < |after.users| && j != k ensures !HoldsToken(token)(after.users[j]) {
      assert after.users[j] == st.users[j];
    }
    var h := IndexWhere(after.users, HoldsToken(token));
    assert h == k;
  }

  // ----- resetPassword -----

  /** The three checks `resetPassword` runs before it looks the token up. */
  predicate ResetFieldsAccepted(password: Option<string>, confirmPassword: Option<string>) {
    Truthy(password) && Truthy(confirmPassword) && password == confirmPassword
    && Text.Utf16Length(password.value) >= MinPasswordLength
  }

  /** `resetPassword` over a database state: presence, match and length are checked before the
    * token is looked up; an unknown or expired token then changes nothing. Otherwise that user
    * gets a digest accepting exactly the new password, and loses the token and its expiry. */
  function ResetOf(st: DbState, isEmail: string -> bool, token: string, password: Option<string>,
                   confirmPassword: Option<string>, now: int, salt: string): (r: Handled)
    ensures !Truthy(password) || !Truthy(confirmPassword) ==> r == Handled(FieldsRequired, st)
    ensures Truthy(password) && Truthy(confirmPassword) && password != confirmPassword ==>
              r == Handled(PasswordMismatch, st)
    ensures Truthy(password) && password == confirmPassword && Text.Utf16Length(password.value) < MinPasswordLength ==>
              r == Handled(PasswordTooShort, st)
    ensures ResetFieldsAccepted(password, confirmPassword) && ShowResetOf(st.users, token, now) == InvalidLink ==>
              r == Handled(InvalidLink, st)
    ensures r.outcome.PasswordReset? ==>
              && ResetFieldsAccepted(password, confirmPassword)
              && var i := IndexWhere(st.users, HoldsToken(token));
              && 0 <= i < |st.users| && TokenValid(st.users[i], token, now)
              && var k := RowOf(st.users, st.users[i].id);
              && NewPasswordAt(st, r.after, k, password.value)
              && r.after.users[k].resetToken.None? && r.after.users[k].resetExpires.None?
    ensures !r.outcome.PasswordReset? ==> r.after == st
    ensures r.outcome in {PasswordReset, FieldsRequired, PasswordMismatch, PasswordTooShort, InvalidLink, Failed}
  {
    if !Truthy(password) || !Truthy(confirmPassword) then Handled(FieldsRequired, st)
    else if password != confirmPassword then Handled(PasswordMismatch, st)
    else if Text.Utf16Length(password.value) < MinPasswordLength then Handled(PasswordTooShort, st)
    else
      FindFirstIsIndexWhere(st.users, HoldsToken(token));
      var found := FindFirst(st.users, HoldsToken(token));
      if found.None? || !TokenValid(found.value, token, now) then Handled(InvalidLink, st)
      else
        var v := found.value.(password := Plain(password.value), resetToken := None, resetExpires := None);
        var s := SaveUser(st, isEmail, v, salt);
        if s.result.Ok? then
          SavedRowIsFound(st, isEmail, IndexWhere(st.users, HoldsToken(token)), v, salt);
          Handled(PasswordReset, s.after)
        else Handled(Failed, st)
  }

  /** On a consistent database, a link that opens the reset form and an accepted new password
    * the model also accepts always reset the password. */
  lemma ResetSucceeds(st: DbState, isEmail: string -> bool, token: string, p: string, now: int, salt: string)
    requires DbOk(st, isEmail) && ResetFieldsAccepted(Some(p), Some(p)) && ValidPlainPassword(p)
    requires ShowResetOf(st.users, token, now) == ResetForm(token)
    ensures ResetOf(st, isEmail, token, Some(p), Some(p), now, salt).outcome == PasswordReset
  {
    FindFirstIsIndexWhere(st.users, HoldsToken(token));
    var i := IndexWhere(st.users, HoldsToken(token));
    assert StoredUser(st.users[i], isEmail);
    StoredRowSaveSucceeds(st, isEmail, i, st.users[i].(password := Plain(p), resetToken := None, resetExpires := None), salt);
  }

  /** `POST /auth/reset-password/:token`. */
  method ResetPassword(db: Db, token: string, password: Option<string>, confirmPassword: Option<string>, now: int,
                       salt: string) returns (r: Outcome)
    requires db.Valid()
    modifies db
    ensures db.Valid()
    ensures Handled(r, db.state) == ResetOf(old(db.state), db.isEmail, token, password, confirmPassword, now, salt)
  {
    if !Truthy(password) || !Truthy(confirmPassword) {
      return FieldsRequired;
    }
    if password != confirmPassword {
      return PasswordMismatch;
    }
    if Text.Utf16Length(password.value) < MinPasswordLength {
      return PasswordTooShort;
    }
    var found := db.FindUserByResetToken(token);
    if found.None? {
      return InvalidLink;
    }
    var user := new UserInstance(found.value);
    if !user.IsResetTokenValid(token, now) {
      return InvalidLink;
    }
    var reset := user.ResetPassword(password.value, db, salt);
    r := if reset.Ok? then PasswordReset else Failed;
  }

  /** At most one user holds the token. */
  predicate SoleHolder(users: seq<User>, token: string) {
    forall i, j :: (0 <= i < |users| && 0 <= j < |users| && users[i].resetToken == Some(token)
                    && users[j].resetToken == Some(token)) ==> i == j
  }

  /** A token works once: after a successful reset the same link is invalid at any time. */
  lemma ResetConsumesToken(st: DbState, isEmail: string -> bool, token: string, password: Option<string>,
                           confirmPassword: Option<string>, now: int, salt: string, t: int)
    requires DbOk(st, isEmail) && SoleHolder(st.users, token)
    requires ResetOf(st, isEmail, token, password, confirmPassword, now, salt).outcome.PasswordReset?
    ensures ShowResetOf(ResetOf(st, isEmail, token, password, confirmPassword, now, salt).after.users, token, t)
            == InvalidLink
  {
    var after := ResetOf(st, isEmail, token, password, confirmPassword, now, salt).after;
    var i := IndexWhere(st.users, HoldsToken(token));
    IdIndexIsPosition(st.users, st.nextId, i);
    forall j | 0 <= j < |after.users| ensures !TokenValid(after.users[j], token, t) {
      if j != i {
        assert after.users[j] == st.users[j];
        assert HoldsToken(token)(st.users[i]);
      }
    }
  }
}
