/**
 * The user registry (`accounts/models.py`): users keyed by their unique e-mail, the field
 * defaults, and the manager's `create_user` / `create_superuser`.
 */
module Accounts {
  import opened Wrappers

  /** The password state: never set (blank), marked unusable, or set (hashing is not modelled). */
  datatype Password = NoPassword | Unusable | Usable(raw: string)

  datatype User = User(
    email: string,
    fullName: string,
    isActive: bool,
    isStaff: bool,
    isSuperuser: bool,
    password: Password,
    signupToken: Option<string>)

  /** The keyword arguments a caller may pass on; `None` is a field left out. */
  datatype ExtraFields = ExtraFields(
    fullName: Option<string>,
    isActive: Option<bool>,
    isStaff: Option<bool>,
    isSuperuser: Option<bool>)

  const NoExtraFields: ExtraFields := ExtraFields(None, None, None, None)

  /**
   * `User(email=..., **extra_fields)`: every field not given takes its default (blank name,
   * inactive, not staff, not superuser, no password) and the user gets the fresh `token`.
   */
  function NewUser(email: string, extra: ExtraFields, token: string): (u: User)
    ensures u.email == email && u.signupToken == Some(token) && u.password == NoPassword
    ensures extra.isActive.None? ==> !u.isActive
    ensures extra.isStaff.None? ==> !u.isStaff
    ensures extra.isSuperuser.None? ==> !u.isSuperuser
    ensures extra.fullName.None? ==> u.fullName == ""
  {
    User(email, extra.fullName.GetOr(""), extra.isActive.GetOr(false), extra.isStaff.GetOr(false),
         extra.isSuperuser.GetOr(false), NoPassword, Some(token))
  }

  /** No user holds `token` yet. */
  ghost predicate TokenIsFresh(users: map<string, User>, token: string) {
    forall e :: e in users ==> users[e].signupToken != Some(token)
  }

  /** The user table; `email` and `signup_token` are unique columns. */
  class UserTable {
    var users: map<string, User>

    ghost predicate Valid()
      reads this
    {
      && (forall e :: e in users ==> users[e].email == e)
      && (forall e, f :: e in users && f in users && e != f && users[e].signupToken.Some? ==>
            users[e].signupToken != users[f].signupToken)
    }

    constructor ()
      ensures Valid() && users == map[]
    {
      users := map[];
    }
  }

  /** Adding a user with a fresh token under its own e-mail keeps both columns unique. */
  lemma InsertKeepsValid(users: map<string, User>, u: User, token: string)
    requires forall e :: e in users ==> users[e].email == e
    requires forall e, f :: e in users && f in users && e != f && users[e].signupToken.Some? ==>
               users[e].signupToken != users[f].signupToken
    requires TokenIsFresh(users, token) && u.signupToken == Some(token)
    ensures var r := users[u.email := u];
            && (forall e :: e in r ==> r[e].email == e)
            && (forall e, f :: e in r && f in r && e != f && r[e].signupToken.Some? ==>
                  r[e].signupToken != r[f].signupToken)
  {
  }

  datatype CreateError = EmailRequired | EmailTaken

  /**
   * `create_user`: an empty e-mail is refused; otherwise the user is built from the
   * normalized e-mail and the extra fields, with the password set when one is given and
   * marked unusable otherwise, and saved; an e-mail already in the table violates the
   * unique column and nothing is saved.
   */
  method CreateUser(table: UserTable, email: string, password: string, extra: ExtraFields,
                    token: string, normalize: string -> string)
    returns (r: Result<User, CreateError>)
    requires table.Valid() && TokenIsFresh(table.users, token)
    modifies table
    ensures table.Valid()
    ensures r.Failure? ==> table.users == old(table.users)
    ensures r == Failure(EmailRequired) <==> email == ""
    ensures r == Failure(EmailTaken) <==> email != "" && normalize(email) in old(table.users)
    ensures r.Success? <==> email != "" && normalize(email) !in old(table.users)
    ensures r.Success? ==>
              && r.value == NewUser(normalize(email), extra, token).(
                              password := if password != "" then Usable(password) else Unusable)
              && table.users == old(table.users)[normalize(email) := r.value]
  {
    if email == "" {
      return Failure(EmailRequired);
    }
    var normalized := normalize(email);
    var user := NewUser(normalized, extra, token);
    if password != "" {
      user := user.(password := Usable(password));
    } else {
      user := user.(password := Unusable);
    }
    if normalized in table.users {
      return Failure(EmailTaken);
    }
    InsertKeepsValid(table.users, user, token);
    table.users := table.users[normalized := user];
    r := Success(user);
  }

  /**
   * `create_superuser`: staff and superuser default to true unless the caller says otherwise;
   * `is_active` still defaults to false.
   */
  method CreateSuperuser(table: UserTable, email: string, password: string, extra: ExtraFields,
                         token: string, normalize: string -> string)
    returns (r: Result<User, CreateError>)
    requires table.Valid() && TokenIsFresh(table.users, token)
    modifies table
    ensures table.Valid()
    ensures r.Failure? ==> table.users == old(table.users)
    ensures r.Success? <==> email != "" && normalize(email) !in old(table.users)
    ensures r.Success? ==>
              && table.users == old(table.users)[normalize(email) := r.value]
              && r.value.isStaff == extra.isStaff.GetOr(true)
              && r.value.isSuperuser == extra.isSuperuser.GetOr(true)
              && r.value.isActive == extra.isActive.GetOr(false)
  {
    var fields := extra;
    if fields.isStaff.None? {
      fields := fields.(isStaff := Some(true));
    }
    if fields.isSuperuser.None? {
      fields := fields.(isSuperuser := Some(true));
    }
    r := CreateUser(table, email, password, fields, token, normalize);
  }
}
