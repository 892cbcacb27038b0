/** The demo authentication provider: a fixed table of two accounts, a
    session holding at most one user, `login`, `logout` and `isAdmin`. */
module DemoSession {
  import opened Types

  datatype Role = Admin | RegularUser

  /** An entry of the fixed account table. */
  datatype Account = Account(id: string, email: string, password: string, role: Role, name: string)

  /** The user a session holds. It has no password field: the password never
      leaves the account table. */
  datatype SessionUser = SessionUser(id: string, email: string, role: Role, name: Option<string>)

  /** The provider's state: the logged-in user, if any. */
  type Session = Option<SessionUser>

  const AdminAccount: Account :=
    Account("1", "admin@example.com", "admin123", Admin, "Administrator")
  const UserAccount: Account :=
    Account("2", "user@example.com", "user123", RegularUser, "Regular User")

  /** The account table, searched in this order. */
  const DemoAccounts: seq<Account> := [AdminAccount, UserAccount]

  /** The provider starts with nobody logged in (the saved session in
      browser storage is not part of this model). */
  const InitialSession: Session := None

  predicate Credentials(a: Account, email: string, password: string) {
    a.email == email && a.password == password
  }

  /** `accounts.find(...)`: the first account whose e-mail and password both
      equal the given ones. */
  function FindAccount(accounts: seq<Account>, email: string, password: string): (r: Option<Account>)
    ensures r.Some? ==> r.value in accounts && Credentials(r.value, email, password)
    ensures r.Some? ==> exists k :: 0 <= k < |accounts| && accounts[k] == r.value
                          && forall i :: 0 <= i < k ==> !Credentials(accounts[i], email, password)
    ensures r.None? <==> forall a :: a in accounts ==> !Credentials(a, email, password)
    decreases |accounts|
  {
    if |accounts| == 0 then None
    else if Credentials(accounts[0], email, password) then Some(accounts[0])
    else
      var r := FindAccount(accounts[1..], email, password);
      assert forall a :: a in accounts ==> a == accounts[0] || a in accounts[1..];
      assert r.Some? ==> exists k :: 0 <= k < |accounts| && accounts[k] == r.value
                          && forall i :: 0 <= i < k ==> !Credentials(accounts[i], email, password) by {
        if r.Some? {
          var k :| 0 <= k < |accounts[1..]| && accounts[1..][k] == r.value
                   && forall i :: 0 <= i < k ==> !Credentials(accounts[1..][i], email, password);
          assert accounts[k + 1] == r.value;
          assert forall i :: 0 <= i < k + 1 ==> !Credentials(accounts[i], email, password) by {
            forall i | 0 <= i < k + 1 ensures !Credentials(accounts[i], email, password) {
              if i > 0 {
                assert accounts[i] == accounts[1..][i - 1];
              }
            }
          }
        }
      }
      r
  }

  /** The session user built from an account: every field but the password. */
  function UserOf(a: Account): (u: SessionUser)
    ensures u.id == a.id && u.email == a.email && u.role == a.role && u.name == Some(a.name)
  {
    SessionUser(a.id, a.email, a.role, Some(a.name))
  }

  datatype LoginResult = LoginResult(success: bool, session: Session)

  /** `login(email, password)`: succeeds iff some account has both this
      e-mail and this password; on success the session holds that account's
      user, on failure the session is left as it was. */
  function Login(session: Session, email: string, password: string): (r: LoginResult)
    ensures r.success <==> exists a :: a in DemoAccounts && Credentials(a, email, password)
    ensures r.success ==> exists a :: a in DemoAccounts && Credentials(a, email, password)
                                       && r.session == Some(UserOf(a))
    ensures !r.success ==> r.session == session
  {
    match FindAccount(DemoAccounts, email, password)
    case Some(a) => LoginResult(true, Some(UserOf(a)))
    case None => LoginResult(false, session)
  }

  /** `logout()`: nobody is logged in afterwards, whoever was before. */
  function Logout(session: Session): (r: Session)
    ensures r.None?
  {
    None
  }

  /** `isAdmin()`: a user is logged in and holds the admin role. */
  function IsAdmin(session: Session): (r: bool)
    ensures r <==> session.Some? && session.value.role == Admin
  {
    match session
    case Some(u) => u.role == Admin
    case None => false
  }

  /** The demo administrator's credentials give an admin session. */
  lemma AdminCredentialsGiveAdmin(session: Session)
    ensures var r := Login(session, "admin@example.com", "admin123");
            r.success && IsAdmin(r.session) && r.session.value.id == "1"
  {
    assert Credentials(DemoAccounts[0], "admin@example.com", "admin123");
  }

  /** The demo user's credentials give a session that is not an admin one. */
  lemma UserCredentialsGiveNonAdmin(session: Session)
    ensures var r := Login(session, "user@example.com", "user123");
            r.success && !IsAdmin(r.session) && r.session.value.id == "2"
  {
    assert Credentials(DemoAccounts[1], "user@example.com", "user123");
    assert !Credentials(DemoAccounts[0], "user@example.com", "user123");
  }

  /** A user logged in through `login` has the role of the unique account
      with those credentials: no two accounts share an e-mail, so admin
      rights come only from the admin account's password. */
  lemma LoginGrantsAdminOnlyToAdminAccount(session: Session, email: string, password: string)
    ensures IsAdmin(Login(session, email, password).session) <==>
              (email == AdminAccount.email && password == AdminAccount.password)
              || (!Login(session, email, password).success && IsAdmin(session))
  {
  }

  /** After logging out nobody is an administrator. */
  lemma LogoutRevokesAdmin(session: Session)
    ensures !IsAdmin(Logout(session))
  {
  }
}
