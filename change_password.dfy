/**
 * The change-password screen: three checks in a fixed order (the current
 * password, the confirmation, the minimum length); the first that fails
 * is reported, and only when all pass is the user handed on with the new
 * password.
 */
module ChangePassword {
  import opened Types
  import Login

  /** The shortest new password accepted. */
  const MinLength: nat := 6

  datatype Outcome = WrongCurrent | Mismatch | TooShort | Updated(user: User)

  /** Submitting the form for `user`. */
  function HandleSubmit(user: User, currentPass: string, newPass: string, confirmPass: string): (r: Outcome)
    ensures r == WrongCurrent <==> currentPass != user.password
    ensures r == Mismatch <==> currentPass == user.password && newPass != confirmPass
    ensures r == TooShort <==> currentPass == user.password && newPass == confirmPass && |newPass| < MinLength
    ensures r.Updated? <==> currentPass == user.password && newPass == confirmPass && |newPass| >= MinLength
    ensures r.Updated? ==> r.user == user.(password := newPass)
  {
    if currentPass != user.password then WrongCurrent
    else if newPass != confirmPass then Mismatch
    else if |newPass| < MinLength then TooShort
    else Updated(user.(password := newPass))
  }

  /** A successful change keeps the id, the username, the name and the role. */
  lemma OnlyPasswordChanges(user: User, currentPass: string, newPass: string, confirmPass: string)
    requires HandleSubmit(user, currentPass, newPass, confirmPass).Updated?
    ensures var u := HandleSubmit(user, currentPass, newPass, confirmPass).user;
            u.id == user.id && u.username == user.username && u.name == user.name && u.role == user.role
            && u.password == newPass && |u.password| >= MinLength
  {
  }

  /**
   * Once the updated user is stored in place of the old one, the new
   * password logs in and the old one, if different, no longer does.
   */
  lemma NewPasswordLogsIn(user: User, currentPass: string, newPass: string, confirmPass: string)
    requires HandleSubmit(user, currentPass, newPass, confirmPass).Updated?
    ensures var u := HandleSubmit(user, currentPass, newPass, confirmPass).user;
            Login.HandleLogin([u], user.username, newPass) == Login.LoggedIn(u)
            && (newPass != user.password ==> Login.HandleLogin([u], user.username, user.password).BadCredentials?)
  {
    var u := HandleSubmit(user, currentPass, newPass, confirmPass).user;
    Login.FirstMatchWins([u], user.username, newPass, 0);
  }
}
