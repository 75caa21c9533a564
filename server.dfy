/** The running service: the two module-level stores of the server, held by a
    `Registry` object, and the per-browser session, held by a `Session` object.
    Each handler is a method that changes the stores in place (push, field
    update, key insertion and deletion, reassignment by filter) and is proved
    to leave exactly the state the matching `Routes` function describes. */
module Server {
  import opened Records
  import opened Routes

  /** The session store's entry for one browser: the user copied in at login. */
  class Session {
    var user: Option<User>

    constructor ()
      ensures user == None
    {
      user := None;
    }
  }

  class Registry {
    var users: seq<User>
    var tokens: map<string, string>

    /** Both stores start empty when the process starts. */
    constructor ()
      ensures users == [] && tokens == map[]
    {
      users := [];
      tokens := map[];
    }

    /** The stores as one value. */
    function Snapshot(): Store
      reads this
    {
      Store(users, tokens)
    }

    /** `POST /register`; `token` is the random token and `mailSent` the
        outcome of sending the verification mail. */
    method Register(firstName: string, lastName: string, email: string, password: string,
                    token: string, mailSent: bool) returns (response: Response)
      modifies this
      ensures Routes.Register(old(Snapshot()), firstName, lastName, email, password, token, mailSent)
           == Step(Snapshot(), response)
      ensures response == Err(400) ==> unchanged(this)
    {
      if FindFirst(users, EmailIs(email)).Some? {
        return Err(400);
      }
      var user := User(|users| + 1, firstName, lastName, email, password, false);
      users := users + [user];
      tokens := tokens[token := email];
      if mailSent {
        response := Ok;
      } else {
        response := Err(500);
      }
    }

    /** `GET /verify?token=`. */
    method Verify(token: string) returns (response: Response)
      modifies this
      ensures Routes.Verify(old(Snapshot()), token) == Step(Snapshot(), response)
      ensures |users| == |old(users)|
    {
      if token in tokens && tokens[token] != "" {
        var email := tokens[token];
        var found := FindFirst(users, EmailIs(email));
        if found.Some? {
          var i := found.value;
          users := users[i := users[i].(isVerified := true)];
          tokens := tokens - {token};
          return Redirect("/login");
        }
      }
      response := Err(400);
    }

    /** `POST /login`; `adminCookie` is the `Admin` cookie the response sets. */
    method Login(session: Session, email: string, password: string) returns (response: Response, adminCookie: Option<string>)
      modifies session
      ensures Routes.Login(users, old(session.user), email, password) == LoginResult(session.user, adminCookie, response)
    {
      var found := FindFirst(users, CredentialsAre(email, password));
      if found.None? {
        return Err(401), None;
      }
      var user := users[found.value];
      if !user.isVerified {
        return Err(403), None;
      }
      session.user := Some(user);
      adminCookie := Some(if user.email == AdminEmail then "true" else "false");
      response := Redirect("/home");
    }

    /** `POST /account` behind `isAuthenticated`. */
    method UpdateEmail(session: Session, email: string) returns (response: Response)
      modifies this, session
      ensures Routes.UpdateEmail(old(users), old(session.user), email) == AccountResult(users, session.user, response)
      ensures tokens == old(tokens)
    {
      if !Authenticated(session.user) {
        return Redirect("/login");
      }
      var found := FindFirst(users, IdIs(session.user.value.id));
      if found.Some? {
        var i := found.value;
        users := users[i := users[i].(email := email)];
        session.user := Some(session.user.value.(email := email));
        response := Redirect("/account");
      } else {
        response := Err(404);
      }
    }

    /** `GET /api/users`: the whole list, passwords included, for whoever
        presents the cookie. */
    method ListUsers(adminCookie: Option<string>) returns (response: Response)
      ensures AdminAllowed(adminCookie) ==> response == Json(users)
      ensures !AdminAllowed(adminCookie) ==> response == Err(403)
    {
      if adminCookie == Some("true") {
        response := Json(users);
      } else {
        response := Err(403);
      }
    }

    /** `DELETE /api/users/:id`; `id` is the parsed path parameter, `None`
        when it is not a number. */
    method DeleteUser(adminCookie: Option<string>, id: Option<int>) returns (response: Response)
      modifies this
      ensures Routes.DeleteUser(old(Snapshot()), adminCookie, id) == Step(Snapshot(), response)
    {
      if adminCookie == Some("true") {
        users := Filter(users, IdIsNot(id));
        response := Ok;
      } else {
        response := Err(403);
      }
    }
  }
}
