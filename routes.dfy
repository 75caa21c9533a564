/** The request handlers of the account service as transitions on its two
    in-memory stores: the ordered `users` list and the `verificationTokens`
    map from token to e-mail. Each function takes the state a handler sees and
    returns the state it leaves behind together with the HTTP outcome. The
    methods of `Server.Registry` are proved to do what these functions say. */
module Routes {
  import opened Records

  /** The one address whose login sets the admin cookie to "true". */
  const AdminEmail: string := "admin@example.com"

  datatype Store = Store(users: seq<User>, tokens: map<string, string>)

  /** What a handler sends back. `Ok` is a 200 plain-text body, `Page` a static
      HTML file, `Json` the serialised user list. */
  datatype Response =
    | Ok
    | Page(file: string)
    | Json(list: seq<User>)
    | Redirect(path: string)
    | Err(code: int)

  datatype Step = Step(store: Store, response: Response)

  /** Login leaves the stores alone; it changes the session and may set the
      `Admin` cookie (`None`: no cookie is set). */
  datatype LoginResult = LoginResult(session: Option<User>, adminCookie: Option<string>, response: Response)

  /** The account update leaves the token map alone; it changes `users` and the
      session copy of the user. */
  datatype AccountResult = AccountResult(users: seq<User>, session: Option<User>, response: Response)

  // The predicates the handlers pass to `find` and `filter`.

  function EmailIs(email: string): User -> bool
  {
    (u: User) => u.email == email
  }

  function CredentialsAre(email: string, password: string): User -> bool
  {
    (u: User) => u.email == email && u.password == password
  }

  function IdIs(id: int): User -> bool
  {
    (u: User) => u.id == id
  }

  /** `u.id !== parseInt(param)`; a parameter that is not a number (`None`,
      NaN in the source) differs from every id. */
  function IdIsNot(id: Option<int>): User -> bool
  {
    (u: User) => id.None? || u.id != id.value
  }

  /** No two stored records share an e-mail address. */
  ghost predicate UniqueEmails(users: seq<User>)
  {
    forall i, k :: 0 <= i < k < |users| ==> users[i].email != users[k].email
  }

  /** `isAuthenticated`: passes exactly when the session holds a user. It
      does not look the user up in the store. */
  predicate Authenticated(session: Option<User>)
    ensures Authenticated(session) <==> session != None
  {
    session.Some?
  }

  /** The admin guard: the request's `Admin` cookie is exactly "true"; an
      absent cookie or any other value fails. */
  predicate AdminAllowed(adminCookie: Option<string>)
    ensures AdminAllowed(adminCookie) <==> adminCookie.Some? && adminCookie.value == "true"
  {
    adminCookie == Some("true")
  }

  /** `GET /home` and `GET /account`: the page behind the session guard. */
  function GuardedPage(session: Option<User>, file: string): (r: Response)
    ensures r == Page(file) <==> session.Some?
    ensures r != Page(file) ==> r == Redirect("/login")
  {
    if Authenticated(session) then Page(file) else Redirect("/login")
  }

  /** `GET /admin`: the admin page behind the cookie guard. */
  function AdminPage(adminCookie: Option<string>): (r: Response)
    ensures r == Page("admin.html") <==> adminCookie == Some("true")
    ensures r != Page("admin.html") ==> r == Err(403)
  {
    if AdminAllowed(adminCookie) then Page("admin.html") else Err(403)
  }

  /** `POST /register`. The record is appended and the token recorded before
      the mail is sent, so a failed send (500) keeps both. */
  function Register(s: Store, firstName: string, lastName: string, email: string, password: string,
                    token: string, mailSent: bool): (r: Step)
    ensures !NoneMatch(s.users, EmailIs(email)) ==> r == Step(s, Err(400))
    ensures NoneMatch(s.users, EmailIs(email)) ==>
      && |r.store.users| == |s.users| + 1
      && r.store.users[..|s.users|] == s.users
      && r.store.users[|s.users|] == User(|s.users| + 1, firstName, lastName, email, password, false)
      && r.store.tokens.Keys == s.tokens.Keys + {token}
      && r.store.tokens[token] == email
      && (forall t :: t in s.tokens && t != token ==> r.store.tokens[t] == s.tokens[t])
      && r.response == (if mailSent then Ok else Err(500))
  {
    if FindFirst(s.users, EmailIs(email)).Some? then
      Step(s, Err(400))
    else
      var user := User(|s.users| + 1, firstName, lastName, email, password, false);
      Step(Store(s.users + [user], s.tokens[token := email]), if mailSent then Ok else Err(500))
  }

  /** `GET /verify?token=`. The stored e-mail is tested for truthiness, so a
      token mapped to the empty string fails like a missing one. */
  function Verify(s: Store, token: string): (r: Step)
    ensures r.response == Redirect("/login") || r == Step(s, Err(400))
    ensures r.response == Redirect("/login") <==>
      token in s.tokens && s.tokens[token] != "" && !NoneMatch(s.users, EmailIs(s.tokens[token]))
    ensures forall i :: token in s.tokens && s.tokens[token] != "" && IsFirst(s.users, EmailIs(s.tokens[token]), i) ==>
      r.store == Store(s.users[i := s.users[i].(isVerified := true)], s.tokens - {token})
  {
    if token in s.tokens && s.tokens[token] != "" then
      var email := s.tokens[token];
      match FindFirst(s.users, EmailIs(email))
      case Some(i) =>
        Step(Store(s.users[i := s.users[i].(isVerified := true)], s.tokens - {token}), Redirect("/login"))
      case None =>
        Step(s, Err(400))
    else
      Step(s, Err(400))
  }

  /** `POST /login`: plaintext comparison of e-mail and password against the
      first matching record. */
  function Login(users: seq<User>, session: Option<User>, email: string, password: string): (r: LoginResult)
    ensures NoneMatch(users, CredentialsAre(email, password)) ==> r == LoginResult(session, None, Err(401))
    ensures forall i :: IsFirst(users, CredentialsAre(email, password), i) ==>
      r == if !users[i].isVerified then LoginResult(session, None, Err(403))
           else LoginResult(Some(users[i]), Some(if email == AdminEmail then "true" else "false"), Redirect("/home"))
  {
    match FindFirst(users, CredentialsAre(email, password))
    case None => LoginResult(session, None, Err(401))
    case Some(i) =>
      var user := users[i];
      if !user.isVerified then LoginResult(session, None, Err(403))
      else LoginResult(Some(user), Some(if user.email == AdminEmail then "true" else "false"), Redirect("/home"))
  }

  /** `POST /account` behind the session guard: the first record with the
      session's id and the session copy both take the new e-mail, with no
      uniqueness check. */
  function UpdateEmail(users: seq<User>, session: Option<User>, email: string): (r: AccountResult)
    ensures !Authenticated(session) ==> r == AccountResult(users, session, Redirect("/login"))
    ensures Authenticated(session) && NoneMatch(users, IdIs(session.value.id)) ==>
      r == AccountResult(users, session, Err(404))
    ensures forall i :: Authenticated(session) && IsFirst(users, IdIs(session.value.id), i) ==>
      r == AccountResult(users[i := users[i].(email := email)], Some(session.value.(email := email)), Redirect("/account"))
  {
    if !Authenticated(session) then
      AccountResult(users, session, Redirect("/login"))
    else
      match FindFirst(users, IdIs(session.value.id))
      case None => AccountResult(users, session, Err(404))
      case Some(i) =>
        AccountResult(users[i := users[i].(email := email)], Some(session.value.(email := email)), Redirect("/account"))
  }

  /** `DELETE /api/users/:id` behind the admin cookie: every record carrying
      the id goes, every other record stays (the order is the subject of
      `Properties.DeleteKeepsOrder`). */
  function DeleteUser(s: Store, adminCookie: Option<string>, id: Option<int>): (r: Step)
    ensures !AdminAllowed(adminCookie) ==> r == Step(s, Err(403))
    ensures AdminAllowed(adminCookie) ==>
      && r.response == Ok
      && r.store.tokens == s.tokens
      && (forall u :: multiset(r.store.users)[u] == if id == Some(u.id) then 0 else multiset(s.users)[u])
  {
    if AdminAllowed(adminCookie) then
      FilterCounts(s.users, IdIsNot(id));
      Step(Store(Filter(s.users, IdIsNot(id)), s.tokens), Ok)
    else
      Step(s, Err(403))
  }
}
