/** The instance methods of models/User.js: an instance holds the attribute values of one user
  * row, the methods assign some of them and `save()` writes them back through the store (which
  * validates, runs the hashing hook and enforces the unique email). */
module UserModel {
  import opened Wrappers
  import opened Entities
  import opened Store

  /** A reset token lives fifteen minutes, in milliseconds. */
  const ResetWindow: int := 15 * 60 * 1000

  /** The attributes `updateProfile` may copy, in the order of its `allowedFields`. */
  datatype ProfileField = NameField | EmailField | CurrencyField | PreferencesField

  const ProfileFields: seq<ProfileField> := [NameField, EmailField, CurrencyField, PreferencesField]

  /** The argument of `updateProfile`; an absent entry is `undefined`. */
  datatype ProfileData = ProfileData(
    name: Option<string>, email: Option<string>, currency: Option<string>, preferences: Option<Preferences>)

  /** One turn of the `forEach`: the field is copied when the argument defines it. */
  function CopyProfileField(u: User, data: ProfileData, f: ProfileField): User {
    match f
    case NameField => if data.name.Some? then u.(name := data.name.value) else u
    case EmailField => if data.email.Some? then u.(email := data.email.value) else u
    case CurrencyField => if data.currency.Some? then u.(currency := data.currency.value) else u
    case PreferencesField => if data.preferences.Some? then u.(preferences := data.preferences.value) else u
  }

  /** The fields `fs` copied one after the other. */
  function CopyProfileFields(u: User, data: ProfileData, fs: seq<ProfileField>): User {
    if fs == [] then u else CopyProfileField(CopyProfileFields(u, data, fs[..|fs| - 1]), data, fs[|fs| - 1])
  }

  /** What `updateProfile` promises: each allowed attribute takes the given value when there is
    * one and keeps its own otherwise; the id, the password and the reset token never change. */
  predicate ProfileUpdateOf(r: User, u: User, data: ProfileData) {
    && r.name == (if data.name.Some? then data.name.value else u.name)
    && r.email == (if data.email.Some? then data.email.value else u.email)
    && r.currency == (if data.currency.Some? then data.currency.value else u.currency)
    && r.preferences == (if data.preferences.Some? then data.preferences.value else u.preferences)
    && r.id == u.id && r.password == u.password
    && r.resetToken == u.resetToken && r.resetExpires == u.resetExpires
  }

  /** Copying the four allowed fields is exactly the promised update. */
  lemma {:induction false} CopyAllProfileFields(u: User, data: ProfileData)
    ensures ProfileUpdateOf(CopyProfileFields(u, data, ProfileFields), u, data)
  {
    var fs := ProfileFields;
    var u1 := CopyProfileField(u, data, NameField);
    var u2 := CopyProfileField(u1, data, EmailField);
    var u3 := CopyProfileField(u2, data, CurrencyField);
    assert fs[..3][..2][..1][..0] == [];
    assert CopyProfileFields(u, data, fs[..1]) == u1 by { assert fs[..1][..0] == []; }
    assert CopyProfileFields(u, data, fs[..2]) == u2 by { assert fs[..2][..1] == fs[..1]; }
    assert CopyProfileFields(u, data, fs[..3]) == u3 by { assert fs[..3][..2] == fs[..2]; }
    assert CopyProfileFields(u, data, fs) == CopyProfileField(u3, data, PreferencesField) by {
      assert fs[..|fs| - 1] == fs[..3];
    }
  }

  /** The hook replaces both passwords alike, so the update relation survives it. */
  lemma HookedKeepsProfile(r: User, u: User, data: ProfileData, salt: string)
    requires ProfileUpdateOf(r, u, data)
    ensures ProfileUpdateOf(Hooked(r, salt), Hooked(u, salt), data)
  {
  }

  /** The attribute `this.password = p` gives: the plain text, or no password for `undefined`. */
  function AssignedPassword(p: Option<string>): (s: Secret)
    ensures p.Some? <==> s.Plain?
    ensures p.Some? ==> s.text == p.value
  {
    if p.Some? then Plain(p.value) else NoPassword
  }

  /** `isResetTokenValid(token)` against the clock `now`: the stored token is that token, an
    * expiry is set, and it lies strictly after `now`. */
  predicate TokenValid(u: User, token: string, now: int) {
    u.resetToken == Some(token) && u.resetExpires.Some? && u.resetExpires.value > now
  }

  /** A token issued at `issued` is accepted exactly for itself and exactly before the window
    * closes; one issued later replaces it. */
  lemma IssuedTokenLifetime(u: User, token: string, issued: int, t: string, now: int)
    ensures TokenValid(u.(resetToken := Some(token), resetExpires := Some(issued + ResetWindow)), t, now)
            <==> t == token && now < issued + ResetWindow
  {
  }

  /** With the token and expiry cleared no token is accepted. */
  lemma ClearedTokenInvalid(u: User, t: string, now: int)
    requires u.resetToken.None? && u.resetExpires.None?
    ensures !TokenValid(u, t, now)
  {
  }

  /** `bcrypt.compare(candidate, this.password)`: an argument that is not a string makes it
    * throw; a plain text that was never hashed matches nothing. */
  function ComparePassword(u: User, candidate: Option<string>): (r: Result<bool, ()>)
    ensures r.Err? <==> candidate.None? || u.password.NoPassword?
    ensures r == Ok(true) <==> candidate.Some? && u.password.Hashed? && Compare(candidate.value, u.password.digest)
  {
    if candidate.None? then Err(())
    else match u.password
      case Hashed(d) => Ok(Compare(candidate.value, d))
      case Plain(_) => Ok(false)
      case NoPassword => Err(())
  }

  /** A user instance: the attribute values of one row, as read and as given since. */
  class UserInstance {
    var values: User

    /** An instance over the row a finder returned. */
    constructor (row: User)
      ensures values == row
    {
      values := row;
    }

    /** `validatePassword(password)`. */
    function ValidatePassword(candidate: Option<string>): (r: Result<bool, ()>)
      reads this
      ensures r == Ok(true) <==>
                (candidate.Some? && values.password.Hashed? && Compare(candidate.value, values.password.digest))
    {
      ComparePassword(values, candidate)
    }

    /** `isResetTokenValid(token)` with `new Date()` as `now`. */
    predicate IsResetTokenValid(token: string, now: int)
      reads this
    {
      TokenValid(values, token, now)
    }

    /** `save()`: the store's update; on success the instance holds the stored values (the
      * hook's digest in place of a plain text). */
    method Save(db: Db, salt: string) returns (r: Result<User, StoreError>)
      requires db.Valid()
      modifies this, db
      ensures db.Valid()
      ensures Step(r, db.state) == SaveUser(old(db.state), db.isEmail, old(values), salt)
      ensures values == if r.Ok? then r.value else old(values)
    {
      r := db.UpdateUser(values, salt);
      if r.Ok? {
        values := r.value;
      }
    }

    /** `updateProfile(profileData)`: the allowed fields are copied one by one, then saved. On a
      * successful save the instance holds what the hook stored. */
    method UpdateProfile(data: ProfileData, db: Db, salt: string) returns (r: Result<User, StoreError>)
      requires db.Valid()
      modifies this, db
      ensures db.Valid()
      ensures ProfileUpdateOf(values, if r.Ok? then Hooked(old(values), salt) else old(values), data)
      ensures Step(r, db.state) == SaveUser(old(db.state), db.isEmail, CopyProfileFields(old(values), data, ProfileFields), salt)
      ensures r.Ok? ==> values == r.value
    {
      var i := 0;
      while i < |ProfileFields|
        invariant 0 <= i <= |ProfileFields|
        invariant values == CopyProfileFields(old(values), data, ProfileFields[..i])
        invariant db.state == old(db.state)
      {
        assert ProfileFields[..i + 1][..i] == ProfileFields[..i];
        values := CopyProfileField(values, data, ProfileFields[i]);
        i := i + 1;
      }
      assert ProfileFields[..i] == ProfileFields;
      CopyAllProfileFields(old(values), data);
      ghost var given := values;
      r := Save(db, salt);
      if r.Ok? {
        HookedKeepsProfile(given, old(values), data, salt);
      }
    }

    /** `changePassword(newPassword)`: only the password is given, then saved; a successful
      * save stores the digest of the new password and leaves the reset token alone. */
    method ChangePassword(newPassword: Option<string>, db: Db, salt: string) returns (r: Result<User, StoreError>)
      requires db.Valid()
      modifies this, db
      ensures db.Valid()
      ensures Step(r, db.state) == SaveUser(old(db.state), db.isEmail,
                                             old(values).(password := AssignedPassword(newPassword)), salt)
      ensures r.Ok? ==> ValidatePassword(newPassword) == Ok(true)
      ensures r.Ok? ==> values == old(values).(password := values.password) && values == r.value
      ensures r.Err? ==> values == old(values).(password := AssignedPassword(newPassword))
    {
      values := values.(password := AssignedPassword(newPassword));
      ghost var given := values;
      r := Save(db, salt);
      if r.Ok? {
        assert ValidUser(given, db.isEmail);
        HookedStoresDigest(given, db.isEmail, salt, newPassword.value);
      }
    }

    /** `generateResetToken()`: a fresh token (`crypto.randomBytes`, a parameter here) and an
      * expiry fifteen minutes after `now` replace whatever was there; nothing is saved. */
    method GenerateResetToken(token: string, now: int) returns (t: string)
      modifies this
      ensures t == token
      ensures values == old(values).(resetToken := Some(token), resetExpires := Some(now + ResetWindow))
      ensures forall s :: IsResetTokenValid(s, now) <==> s == token
    {
      values := values.(resetToken := Some(token), resetExpires := Some(now + ResetWindow));
      t := token;
    }

    /** `resetPassword(newPassword)`: the password is given, the token and expiry cleared,
      * then saved. Whatever the save reports, no token is valid for the instance any more. */
    method ResetPassword(newPassword: string, db: Db, salt: string) returns (r: Result<User, StoreError>)
      requires db.Valid()
      modifies this, db
      ensures db.Valid()
      ensures Step(r, db.state) == SaveUser(old(db.state), db.isEmail,
                                             old(values).(password := Plain(newPassword), resetToken := None,
                                                          resetExpires := None), salt)
      ensures forall s, now :: !IsResetTokenValid(s, now)
      ensures r.Ok? ==> ValidatePassword(Some(newPassword)) == Ok(true)
      ensures values == if r.Ok? then r.value
                        else old(values).(password := Plain(newPassword), resetToken := None, resetExpires := None)
    {
      values := values.(password := Plain(newPassword), resetToken := None, resetExpires := None);
      ghost var given := values;
      r := Save(db, salt);
      if r.Ok? {
        HookedStoresDigest(given, db.isEmail, salt, newPassword);
      }
    }
  }
}
