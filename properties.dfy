/** Properties of the account service that span several requests: what one
    handler leaves behind, as seen by the next one. */
module Properties {
  import opened Records
  import opened Routes

  /** A second registration of an address is refused and changes nothing,
      whether or not the first one's mail went out. */
  lemma RegisterTwiceRejected(s: Store, firstName: string, lastName: string, email: string, password: string,
                              token: string, mailSent: bool,
                              firstName': string, lastName': string, password': string,
                              token': string, mailSent': bool)
    ensures var s1 := Register(s, firstName, lastName, email, password, token, mailSent).store;
            Register(s1, firstName', lastName', email, password', token', mailSent') == Step(s1, Err(400))
  {
  }

  /** Registration keeps the address unique among the stored records. */
  lemma RegisterKeepsEmailsUnique(s: Store, firstName: string, lastName: string, email: string, password: string,
                                  token: string, mailSent: bool)
    requires UniqueEmails(s.users)
    ensures UniqueEmails(Register(s, firstName, lastName, email, password, token, mailSent).store.users)
  {
  }

  /** Verification changes only the verified flag, so it keeps addresses unique. */
  lemma VerifyKeepsEmailsUnique(s: Store, token: string)
    requires UniqueEmails(s.users)
    ensures UniqueEmails(Verify(s, token).store.users)
  {
  }

  /** Filtering out records keeps the remaining addresses unique. */
  lemma {:induction false} FilterKeepsEmailsUnique(users: seq<User>, p: User -> bool)
    requires UniqueEmails(users)
    ensures UniqueEmails(Filter(users, p))
  {
    if |users| > 0 {
      var rest := users[1..];
      assert UniqueEmails(rest) by {
        forall i, k | 0 <= i < k < |rest| ensures rest[i].email != rest[k].email {
          assert rest[i] == users[i + 1] && rest[k] == users[k + 1];
        }
      }
      FilterKeepsEmailsUnique(rest, p);
      var tail := Filter(rest, p);
      if p(users[0]) {
        forall j | 0 <= j < |tail| ensures tail[j].email != users[0].email {
          assert tail[j] in rest;
          var m :| 0 <= m < |rest| && rest[m] == tail[j];
          assert users[m + 1] == tail[j];
        }
      }
    }
  }

  /** Deleting records keeps addresses unique. */
  lemma DeleteKeepsEmailsUnique(s: Store, adminCookie: Option<string>, id: Option<int>)
    requires UniqueEmails(s.users)
    ensures UniqueEmails(DeleteUser(s, adminCookie, id).store.users)
  {
    if AdminAllowed(adminCookie) {
      FilterKeepsEmailsUnique(s.users, IdIsNot(id));
    }
  }

  /** The account update does not re-check uniqueness: moving to an address
      another record holds leaves two records with that address. */
  lemma UpdateEmailCanDuplicate(users: seq<User>, session: Option<User>, email: string, j: int)
    requires Authenticated(session) && !NoneMatch(users, IdIs(session.value.id))
    requires 0 <= j < |users| && users[j].email == email && users[j].id != session.value.id
    ensures UpdateEmail(users, session, email).response == Redirect("/account")
    ensures !UniqueEmails(UpdateEmail(users, session, email).users)
  {
    var i := FindFirst(users, IdIs(session.value.id)).value;
    var users' := UpdateEmail(users, session, email).users;
    assert users'[i].email == email && users'[j].email == email;
    if i < j {
      assert users'[i].email == users'[j].email;
    } else {
      assert users'[j].email == users'[i].email;
    }
  }

  /** A user who has just registered cannot log in until verified. */
  lemma FreshUserMustVerify(s: Store, session: Option<User>, firstName: string, lastName: string,
                            email: string, password: string, token: string, mailSent: bool)
    requires NoneMatch(s.users, EmailIs(email))
    ensures var users := Register(s, firstName, lastName, email, password, token, mailSent).store.users;
            Login(users, session, email, password) == LoginResult(session, None, Err(403))
  {
  }

  /** The whole happy path: register a new non-empty address, follow the
      mailed token, and log in. The session then holds the verified record and
      the admin cookie says whether the address is the admin's. */
  lemma RegisterVerifyLogin(s: Store, session: Option<User>, firstName: string, lastName: string,
                            email: string, password: string, token: string, mailSent: bool)
    requires NoneMatch(s.users, EmailIs(email))
    requires email != ""
    ensures var r1 := Register(s, firstName, lastName, email, password, token, mailSent);
            var r2 := Verify(r1.store, token);
            var r3 := Login(r2.store.users, session, email, password);
            && r2.response == Redirect("/login")
            && r2.store.tokens == s.tokens - {token}
            && r3.response == Redirect("/home")
            && r3.session == Some(User(|s.users| + 1, firstName, lastName, email, password, true))
            && r3.adminCookie == Some(if email == AdminEmail then "true" else "false")
  {
    var n := |s.users|;
    var r1 := Register(s, firstName, lastName, email, password, token, mailSent);
    assert IsFirst(r1.store.users, EmailIs(email), n) by {
      forall j | 0 <= j < n ensures !EmailIs(email)(r1.store.users[j]) {
        assert r1.store.users[j] == s.users[j];
      }
    }
    var r2 := Verify(r1.store, token);
    assert r2.store.tokens == r1.store.tokens - {token};
    assert r2.store.tokens == s.tokens - {token};
    var users := r2.store.users;
    assert IsFirst(users, CredentialsAre(email, password), n) by {
      forall j | 0 <= j < n ensures !CredentialsAre(email, password)(users[j]) {
        assert users[j] == s.users[j];
        assert !EmailIs(email)(s.users[j]);
      }
    }
  }

  /** A token mapped to the empty address (registration accepted an empty
      e-mail) can never verify anything. */
  lemma EmptyEmailNeverVerifies(s: Store, token: string)
    requires token in s.tokens && s.tokens[token] == ""
    ensures Verify(s, token) == Step(s, Err(400))
  {
  }

  /** A token is good for one verification only. */
  lemma VerifyIsSingleUse(s: Store, token: string)
    requires Verify(s, token).response == Redirect("/login")
    ensures var s1 := Verify(s, token).store; Verify(s1, token) == Step(s1, Err(400))
  {
  }

  /** A token whose account is gone fails and changes nothing, but it stays
      in the map: once the same address registers again, the old token
      verifies the new account. */
  lemma StaleTokenVerifiesLaterAccount(s: Store, token: string, firstName: string, lastName: string,
                                       password: string, newToken: string, mailSent: bool)
    requires token in s.tokens && s.tokens[token] != ""
    requires NoneMatch(s.users, EmailIs(s.tokens[token]))
    ensures Verify(s, token) == Step(s, Err(400))
    ensures var s1 := Register(s, firstName, lastName, s.tokens[token], password, newToken, mailSent).store;
            Verify(s1, token).response == Redirect("/login")
            && Verify(s1, token).store.users[|s.users|].isVerified
  {
  }

  /** A successful login opens the session-guarded pages and opens the admin
      pages exactly for the admin address. */
  lemma LoginOpensGuards(users: seq<User>, session: Option<User>, email: string, password: string, file: string)
    requires Login(users, session, email, password).response == Redirect("/home")
    ensures var r := Login(users, session, email, password);
            && GuardedPage(r.session, file) == Page(file)
            && (AdminPage(r.adminCookie) == Page("admin.html") <==> email == AdminEmail)
  {
  }

  /** A failed login leaves the session as it was and sets no admin cookie. */
  lemma FailedLoginKeepsSession(users: seq<User>, session: Option<User>, email: string, password: string)
    requires Login(users, session, email, password).response != Redirect("/home")
    ensures Login(users, session, email, password).session == session
    ensures Login(users, session, email, password).adminCookie.None?
  {
  }

  /** The session guard does not consult the store: after an admin deletes the
      session's account, the session still passes the guard, and the account
      update answers 404 and changes nothing. */
  lemma SessionOutlivesDeletedAccount(s: Store, session: Option<User>, email: string)
    requires Authenticated(session)
    ensures var users := DeleteUser(s, Some("true"), Some(session.value.id)).store.users;
            && GuardedPage(session, "account.html") == Page("account.html")
            && UpdateEmail(users, session, email) == AccountResult(users, session, Err(404))
  {
  }

  /** Deleting keeps the surviving records in their original order. */
  lemma DeleteKeepsOrder(a: seq<User>, b: seq<User>, tokens: map<string, string>, adminCookie: Option<string>, id: Option<int>)
    requires AdminAllowed(adminCookie)
    ensures DeleteUser(Store(a + b, tokens), adminCookie, id).store.users
         == DeleteUser(Store(a, tokens), adminCookie, id).store.users + DeleteUser(Store(b, tokens), adminCookie, id).store.users
  {
    FilterAppend(a, b, IdIsNot(id));
  }

  /** Deleting an id no record carries, or a non-numeric id, is a successful no-op. */
  lemma DeleteMissingIsNoOp(s: Store, adminCookie: Option<string>, id: Option<int>)
    requires AdminAllowed(adminCookie)
    requires id.None? || NoneMatch(s.users, IdIs(id.value))
    ensures DeleteUser(s, adminCookie, id) == Step(s, Ok)
  {
    FilterKeepsAll(s.users, IdIsNot(id));
  }

  /** With ids 1..n, filtering out id 1 removes exactly the first record. */
  lemma FilterFirstOfSequential(users: seq<User>)
    requires |users| >= 1
    requires forall i :: 0 <= i < |users| ==> users[i].id == i + 1
    ensures Filter(users, IdIsNot(Some(1))) == users[1..]
  {
    var rest := users[1..];
    var keep := IdIsNot(Some(1));
    forall j | 0 <= j < |rest| ensures keep(rest[j]) {
      assert rest[j] == users[j + 1];
    }
    FilterKeepsAll(rest, keep);
    assert [users[0]][1..] == [];
    assert Filter([users[0]], keep) == [];
    assert users == [users[0]] + rest;
    FilterAppend([users[0]], rest, keep);
  }

  /** Ids are not unique: with ids 1..n assigned by registration, deleting id 1
      and registering again hands out id n a second time. */
  lemma IdCollisionAfterDelete(s: Store, firstName: string, lastName: string, email: string, password: string,
                               token: string, mailSent: bool)
    requires |s.users| >= 2
    requires forall i :: 0 <= i < |s.users| ==> s.users[i].id == i + 1
    requires NoneMatch(s.users, EmailIs(email))
    ensures var d := DeleteUser(s, Some("true"), Some(1)).store;
            var users := Register(d, firstName, lastName, email, password, token, mailSent).store.users;
            && |users| == |s.users|
            && users[|users| - 2].id == users[|users| - 1].id == |s.users|
  {
    FilterFirstOfSequential(s.users);
    var d := Store(s.users[1..], s.tokens);
    assert DeleteUser(s, Some("true"), Some(1)).store == d;
    assert NoneMatch(d.users, EmailIs(email)) by {
      forall j | 0 <= j < |d.users| ensures !EmailIs(email)(d.users[j]) {
        assert d.users[j] == s.users[j + 1];
      }
    }
    var users := Register(d, firstName, lastName, email, password, token, mailSent).store.users;
    assert users[|users| - 2] == s.users[|s.users| - 1];
  }
}
