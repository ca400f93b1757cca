/** The mock authentication context (src/contexts/AuthContext.tsx): login
    and signup validation, the user record they build, logout, and the
    stored copy of the user that a reload restores. */
module Auth {
  import opened Wrappers

  datatype User = User(id: string, name: string, email: string, companyName: Option<string>)

  /** The current user and the `"user"` storage entry. */
  datatype Session = Session(user: Option<User>, stored: Option<User>)

  /** The state before the mount effect runs: nobody logged in. */
  const LoggedOut: Session := Session(None, None)

  /** The mount effect: the stored user, if any, becomes the current one. */
  function Restore(stored: Option<User>): (s: Session)
    ensures s.user == stored && s.stored == stored
    ensures IsAuthenticated(s) <==> stored.Some?
  {
    Session(stored, stored)
  }

  /** `isAuthenticated` is `!!user`. */
  predicate IsAuthenticated(s: Session) {
    s.user.Some?
  }

  /** `email.split('@')[0]`: the text before the first '@', or all of it. */
  function EmailPrefix(email: string): (r: string)
    ensures r <= email
    ensures '@' !in r
    ensures |r| < |email| ==> email[|r|] == '@'
  {
    if email == [] || email[0] == '@' then []
    else [email[0]] + EmailPrefix(email[1..])
  }

  /** The login check: a non-empty email and a password of at least six
      characters. */
  predicate LoginValid(email: string, password: string) {
    email != "" && |password| >= 6
  }

  /** `login(email, password)`: the next session and the boolean result. */
  function Login(s: Session, email: string, password: string): (r: (Session, bool))
    ensures r.1 <==> LoginValid(email, password)
    ensures r.1 ==> r.0.user.Some? && r.0.stored == r.0.user
    ensures r.1 ==> r.0.user.value.id == "12345" && r.0.user.value.email == email
    ensures r.1 ==> r.0.user.value.name == EmailPrefix(email)
    ensures r.1 ==> r.0.user.value.name <= email && '@' !in r.0.user.value.name
    ensures r.1 ==> r.0.user.value.companyName.None?
    ensures !r.1 ==> r.0 == s
  {
    if LoginValid(email, password) then
      var user := User("12345", EmailPrefix(email), email, None);
      (Session(Some(user), Some(user)), true)
    else (s, false)
  }

  /** The signup check adds a non-empty name. */
  predicate SignupValid(email: string, password: string, name: string) {
    email != "" && |password| >= 6 && name != ""
  }

  /** `signup(email, password, name, companyName)`; `freshId` stands for the
      random `user_…` id. */
  function Signup(s: Session, email: string, password: string, name: string, companyName: string, freshId: string): (r: (Session, bool))
    ensures r.1 <==> SignupValid(email, password, name)
    ensures r.1 ==> r.0.user == Some(User(freshId, name, email, Some(companyName))) && r.0.stored == r.0.user
    ensures !r.1 ==> r.0 == s
  {
    if SignupValid(email, password, name) then
      var user := User(freshId, name, email, Some(companyName));
      (Session(Some(user), Some(user)), true)
    else (s, false)
  }

  /** `logout()`: clears the user and the stored copy. */
  function Logout(s: Session): (r: Session)
    ensures !IsAuthenticated(r) && r.stored.None?
  {
    Session(None, None)
  }

  /** Every successful login or signup is a valid credential check, and a
      reload after it restores the same user; a reload after logout
      restores nobody. */
  lemma SessionSurvivesReload(s: Session, email: string, password: string, name: string, companyName: string, freshId: string)
    ensures Login(s, email, password).1 ==> Restore(Login(s, email, password).0.stored) == Login(s, email, password).0
    ensures Signup(s, email, password, name, companyName, freshId).1 ==>
      Restore(Signup(s, email, password, name, companyName, freshId).0.stored) == Signup(s, email, password, name, companyName, freshId).0
    ensures !IsAuthenticated(Restore(Logout(s).stored))
  {
  }

  /** The login/logout machine: a valid login authenticates from any state,
      an invalid one keeps the previous state, logout always ends logged out. */
  lemma AuthMachine(s: Session, email: string, password: string)
    ensures LoginValid(email, password) ==> IsAuthenticated(Login(s, email, password).0)
    ensures !LoginValid(email, password) ==> (IsAuthenticated(Login(s, email, password).0) <==> IsAuthenticated(s))
    ensures Logout(Logout(s)) == Logout(s)
  {
  }

  /** The current user and the `"user"` storage entry agree. */
  predicate Mirrored(s: Session) {
    s.user == s.stored
  }

  /** Every transition writes the user and the stored copy together, so in
      every session reached from `LoggedOut` or a reload they agree, and
      `isAuthenticated` is exactly "a user is stored". */
  lemma MirroredPreserved(s: Session, stored: Option<User>, email: string, password: string, name: string, companyName: string, freshId: string)
    requires Mirrored(s)
    ensures Mirrored(LoggedOut) && Mirrored(Restore(stored))
    ensures Mirrored(Login(s, email, password).0)
    ensures Mirrored(Signup(s, email, password, name, companyName, freshId).0)
    ensures Mirrored(Logout(s))
    ensures IsAuthenticated(s) <==> s.stored.Some?
  {
  }

  /** The derived name for a few shapes of email. */
  lemma EmailPrefixExamples()
    ensures EmailPrefix("jane@example.com") == "jane"
    ensures EmailPrefix("no-at-sign") == "no-at-sign"
    ensures EmailPrefix("@host") == ""
  {
    assert "jane@example.com"[4] == '@';
    assert EmailPrefix("@host") == "";
  }
}
