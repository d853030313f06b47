/**
 * The account lifecycle views (`accounts/views.py`): sign-up, e-mail verification, setting
 * the password, and the dashboard's delivery fee.
 */
module AccountViews {
  import opened Wrappers
  import opened SessionCart
  import opened Accounts

  datatype SignupOutcome =
    | SignupRedirected    // already logged in
    | SignupForm          // GET
    | AlreadyRegistered
    | VerificationSent    // whether the e-mail could be sent is not modelled

  /**
   * Sign-up: an e-mail that is already registered, active or not, creates nothing; otherwise
   * an inactive user holding the fresh token is inserted.
   */
  method Signup(table: UserTable, authenticated: bool, isPost: bool, email: string, token: string)
    returns (outcome: SignupOutcome)
    requires table.Valid() && TokenIsFresh(table.users, token)
    modifies table
    ensures table.Valid()
    ensures outcome == SignupRedirected <==> authenticated
    ensures outcome == SignupForm <==> !authenticated && !isPost
    ensures outcome == AlreadyRegistered <==> !authenticated && isPost && email in old(table.users)
    ensures outcome != VerificationSent ==> table.users == old(table.users)
    ensures outcome == VerificationSent ==>
              && table.users == old(table.users)[email := NewUser(email, NoExtraFields.(isActive := Some(false)), token)]
              && !table.users[email].isActive && table.users[email].signupToken == Some(token)
  {
    if authenticated {
      return SignupRedirected;
    }
    if !isPost {
      return SignupForm;
    }
    if email in table.users {
      return AlreadyRegistered;
    }
    var user := NewUser(email, NoExtraFields.(isActive := Some(false)), token);
    InsertKeepsValid(table.users, user, token);
    table.users := table.users[email := user];
    outcome := VerificationSent;
  }

  /** The user registered under `e` is inactive and holds `token`. */
  ghost predicate AwaitsVerification(users: map<string, User>, e: string, token: string) {
    e in users && users[e].signupToken == Some(token) && !users[e].isActive
  }

  datatype VerifyEmailOutcome =
    | VerifyRedirected          // already logged in
    | InvalidLink
    | Activated(email: string)  // and logged in

  /**
   * E-mail verification: only an inactive user holding exactly `token` matches; it becomes
   * active and its token is consumed, so the same link cannot succeed again.
   */
  method VerifyEmail(table: UserTable, authenticated: bool, token: string) returns (outcome: VerifyEmailOutcome)
    requires table.Valid()
    modifies table
    ensures table.Valid()
    ensures outcome == VerifyRedirected <==> authenticated
    ensures outcome == InvalidLink <==>
              !authenticated && !exists e :: AwaitsVerification(old(table.users), e, token)
    ensures !outcome.Activated? ==> table.users == old(table.users)
    ensures outcome.Activated? ==>
              var e := outcome.email;
              && AwaitsVerification(old(table.users), e, token)
              && table.users == old(table.users)[e := old(table.users)[e].(isActive := true, signupToken := None)]
              && TokenIsFresh(table.users, token)
  {
    if authenticated {
      return VerifyRedirected;
    }
    if !exists e :: e in table.users && table.users[e].signupToken == Some(token) && !table.users[e].isActive {
      return InvalidLink;
    }
    var e :| e in table.users && table.users[e].signupToken == Some(token) && !table.users[e].isActive;
    assert AwaitsVerification(table.users, e, token);
    var user := table.users[e];
    user := user.(isActive := true, signupToken := None);
    table.users := table.users[e := user];
    outcome := Activated(e);
  }

  datatype SetPasswordOutcome = PasswordForm | PasswordsDiffer | PasswordRejected | PasswordSaved

  /**
   * Setting the password of the logged-in user `current`: the posted name is kept only in
   * memory until the save, so a mismatched confirmation or a rejected password leaves the
   * stored user, name included, unchanged. `passwordAccepted` is the password validators'
   * verdict.
   */
  method SetPassword(table: UserTable, current: string, isPost: bool, fullName: string,
                     password: string, confirm: string, passwordAccepted: bool)
    returns (outcome: SetPasswordOutcome)
    requires table.Valid() && current in table.users
    modifies table
    ensures table.Valid()
    ensures outcome == PasswordForm <==> !isPost
    ensures outcome == PasswordsDiffer <==> isPost && password != confirm
    ensures outcome == PasswordRejected <==> isPost && password == confirm && !passwordAccepted
    ensures outcome != PasswordSaved ==> table.users == old(table.users)
    ensures outcome == PasswordSaved ==>
              var u := old(table.users)[current];
              table.users == old(table.users)[current := u.(fullName := if fullName != "" then fullName else u.fullName,
                                                            password := Usable(password))]
  {
    if !isPost {
      return PasswordForm;
    }
    var user := table.users[current];
    if fullName != "" {
      user := user.(fullName := fullName);
    }
    if password != confirm {
      return PasswordsDiffer;
    }
    if !passwordAccepted {
      return PasswordRejected;
    }
    user := user.(password := Usable(password));
    table.users := table.users[current := user];
    outcome := PasswordSaved;
  }

  /** The fee the dashboard shows: the admin setting, or the default. */
  function DashboardFee(adminFee: Option<real>): (fee: real)
    ensures adminFee.Some? ==> fee == adminFee.value
    ensures adminFee.None? ==> fee == 3500.0
  {
    adminFee.GetOr(DefaultDeliveryFee)
  }

  /**
   * The dashboard shows the fee a fresh session would be given, which a session that already
   * cached another fee does not pay.
   */
  lemma DashboardFeeIsFreshSessionFee(adminFee: Option<real>, cached: real)
    ensures DashboardFee(adminFee) == SelectFee(None, adminFee)
    ensures adminFee.None? ==> DashboardFee(adminFee) == 3500.0
    ensures SelectFee(Some(cached), adminFee) == cached
  {
  }
}
