/**
 * The login screen: the first stored user whose username matches the
 * input ignoring case, and whose password matches exactly, is logged in;
 * with no such user the screen shows an error.
 */
module Login {
  import opened Types
  import Text

  /**
   * `u.username.toLowerCase() === username.toLowerCase() && u.password === password`:
   * the exact username and password always match; a match needs the exact
   * password and a username of the same length.
   */
  function Matches(username: string, password: string): (r: User -> bool)
    ensures forall u: User :: u.username == username && u.password == password ==> r(u)
    ensures forall u: User :: r(u) ==> u.password == password && |u.username| == |username|
  {
    (u: User) => Text.Lower(u.username) == Text.Lower(username) && u.password == password
  }

  /** `users.find(p)`: the first user meeting `p`, if any. */
  function Find(users: seq<User>, p: User -> bool): (r: Option<User>)
    ensures r.None? <==> forall i :: 0 <= i < |users| ==> !p(users[i])
    ensures r.Some? ==> exists i :: 0 <= i < |users| && users[i] == r.value && p(r.value)
                                    && forall j :: 0 <= j < i ==> !p(users[j])
  {
    if users == [] then None
    else if p(users[0]) then
      assert users[0] == users[0];
      Some(users[0])
    else
      var r := Find(users[1..], p);
      assert forall i :: 0 < i < |users| ==> users[i] == users[1..][i - 1];
      if r.Some? then
        var k :| 0 <= k < |users[1..]| && users[1..][k] == r.value && p(r.value)
                 && forall j :: 0 <= j < k ==> !p(users[1..][j]);
        assert users[k + 1] == r.value;
        r
      else r
  }

  /** The outcome of a login attempt: the user to log in, or the error. */
  datatype Outcome = LoggedIn(user: User) | BadCredentials

  /** Submitting the login form against the stored users. */
  function HandleLogin(users: seq<User>, username: string, password: string): (r: Outcome)
    ensures r.LoggedIn? <==>
              exists u :: u in users && Text.Lower(u.username) == Text.Lower(username) && u.password == password
    ensures r.LoggedIn? ==> r.user in users && r.user.password == password
                            && Text.Lower(r.user.username) == Text.Lower(username)
  {
    match Find(users, Matches(username, password))
    case Some(u) => LoggedIn(u)
    case None =>
      assert forall u :: u in users ==> !Matches(username, password)(u);
      BadCredentials
  }

  /** The user logged in is the first match in list order. */
  lemma FirstMatchWins(users: seq<User>, username: string, password: string, i: nat)
    requires i < |users| && Matches(username, password)(users[i])
    requires forall j :: 0 <= j < i ==> !Matches(username, password)(users[j])
    ensures HandleLogin(users, username, password) == LoggedIn(users[i])
  {
    var r := Find(users, Matches(username, password));
    var k :| 0 <= k < |users| && users[k] == r.value && Matches(username, password)(r.value)
             && forall j :: 0 <= j < k ==> !Matches(username, password)(users[j]);
    assert k == i;
  }

  /** Case in the username does not matter: the lower-cased input logs in the same user. */
  lemma UsernameCaseIgnored(users: seq<User>, username: string, password: string)
    ensures HandleLogin(users, Text.Lower(username), password) == HandleLogin(users, username, password)
  {
    Text.LowerIdempotent(username);
    assert Matches(Text.Lower(username), password) == Matches(username, password);
  }

  /**
   * On the seeded users, "admin" with the seeded password logs in the
   * administrator, while the right username with the password in small
   * letters is refused.
   */
  lemma SeedLogins()
    ensures var seed := [ User("1", "Admin", "অ্যাডমিন", RoleAdmin, "Samiti9999"),
                          User("2", "Roni", "আবু সুফিয়ান রনি", RoleUser, "Samiti9999") ];
            HandleLogin(seed, "admin", "Samiti9999") == LoggedIn(seed[0])
            && HandleLogin(seed, "Admin", "samiti9999") == BadCredentials
  {
    var seed := [ User("1", "Admin", "অ্যাডমিন", RoleAdmin, "Samiti9999"),
                  User("2", "Roni", "আবু সুফিয়ান রনি", RoleUser, "Samiti9999") ];
    assert Text.Lower("Admin") == "admin";
    assert Text.Lower("admin") == "admin";
    FirstMatchWins(seed, "admin", "Samiti9999", 0);
    assert "samiti9999" != "Samiti9999" by {
      assert "samiti9999"[0] != "Samiti9999"[0];
    }
  }
}
