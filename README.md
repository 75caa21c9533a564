# Account registry of a registration / login web service

This project models the in-memory core of a small Express web service. Users
register and confirm their address through a mailed token. They then log in
to a session and may change their e-mail. An `Admin` cookie unlocks a user
list and a delete-by-id endpoint.

All state is two module-level stores:

- `users`: an ordered array of records `{id, firstName, lastName, email, password, isVerified}`.
- `verificationTokens`: an object mapping a token to an e-mail.

Each browser also has a session holding a copy of the logged-in record.

The model has four modules:

- `Records` (`records.dfy`): the `User` record, plus `find` and `filter` on the user list as `FindFirst` and `Filter`.
- `Routes` (`routes.dfy`): each handler as a pure transition from the stores it sees to the stores it leaves and the HTTP outcome (`Ok`, `Page`, `Json`, `Redirect`, `Err(code)`). It also holds the two access guards:
  - the session guard `isAuthenticated`;
  - the admin guard, which passes only when the `Admin` cookie is exactly `"true"`.
- `Server` (`server.dfy`): the running service.
  - A `Registry` object holds `users` and `tokens`; a `Session` object holds the session copy.
  - Each handler is a method that updates these in place, proved to leave exactly what the matching `Routes` function describes.
- `Properties` (`properties.dfy`): lemmas spanning several requests.
  - Duplicate registration is refused.
  - Registration, verification and deletion keep e-mails unique; the account update can break this.
  - A new account gets 403 until verified; the full register/verify/login path succeeds.
  - Tokens are single-use. A token mapped to the empty e-mail never works.
  - A stale token verifies a later account registered with the same address.
  - Ids collide after a delete followed by a registration.
  - A session survives the deletion of its account, and the account update then answers 404.

Behaviours of the code that are easy to get wrong, and that the model keeps:

- Ids are `users.length + 1` at registration, so after a delete an id can be handed out again (`IdCollisionAfterDelete`).
- The delete endpoint removes every record carrying the id, not a single one.
- `/verify` tests the mapped e-mail for truthiness, so a token mapped to `""` fails with 400 (`EmptyEmailNeverVerifies`).
- A token whose account was deleted fails only until the same address registers again. After that, the old token verifies the new account (`StaleTokenVerifiesLaterAccount`).

External inputs are parameters:

- the random token of registration (`token`);
- the outcome of sending the verification mail (`mailSent`);
- the request's `Admin` cookie (`Option<string>`, `None` when absent);
- the parsed `:id` path parameter (`Option<int>`, `None` when `parseInt` gives NaN).

## Model

| member | source | states |
|---|---|---|
| `Records.FindFirst` | index.js:53 | `find`: a result index is the first element satisfying the predicate; no result exactly when no element satisfies it |
| `Records.Filter` | index.js:166 | `filter`: an element is in the result exactly when it is in the input and satisfies the predicate |
| `Records.FilterCounts` | index.js:166 | `filter` keeps each passing element as many times as it occurs in the input and drops every other one |
| `Records.FilterAppend` | index.js:166 | `filter` keeps relative order: it distributes over concatenation |
| `Records.FilterKeepsAll` | index.js:166 | when every element passes, `filter` returns the list unchanged |
| `Routes.Register` | index.js:50-86 | if a stored user has the e-mail: 400 and both stores unchanged. Otherwise exactly one record `{id: old length + 1, given fields, isVerified: false}` is appended, all earlier records are kept in order, the token is set to the e-mail (overwriting any earlier entry for it, other entries untouched), and the answer is 200 or, on mail failure, 500 with the record and token kept |
| `Routes.Verify` | index.js:88-101 | redirect to `/login` exactly when the token is present, maps to a non-empty e-mail, and some user has that e-mail. Then only the first such user becomes verified and only that token is removed. Otherwise 400 with nothing changed |
| `Routes.Login` | index.js:107-124 | no user with both e-mail and password matching: 401. First match unverified: 403. Neither changes the session or sets a cookie. Otherwise the session holds that record, the `Admin` cookie is `"true"` exactly for `admin@example.com` (else `"false"`), and the answer redirects to `/home` |
| `Routes.Authenticated` | index.js:26-31 | the session guard passes exactly when the session holds a user |
| `Routes.GuardedPage` | index.js:126-132 | the home and account pages are served exactly when the session holds a user; otherwise the answer redirects to `/login` |
| `Routes.AdminAllowed` | index.js:157 | the admin guard passes exactly when the `Admin` cookie is present and is the string `"true"` |
| `Routes.AdminPage` | index.js:147-154 | the admin page is served exactly when the cookie is `"true"`; otherwise 403 |
| `Routes.UpdateEmail` | index.js:134-145 | without a session user: redirect to `/login`. No record with the session's id: 404 and nothing changed. Otherwise only the first such record's e-mail and the session copy's e-mail change, with no uniqueness check, and the answer redirects to `/account` |
| `Routes.DeleteUser` | index.js:164-171 | cookie not exactly `"true"`: 403 and nothing changed. Otherwise 200; every record with the id is gone, every other record keeps its multiplicity, and the tokens are untouched |
| `Server.Registry.constructor` | index.js:23-24 | both stores start empty |
| `Server.Session.constructor` | index.js:15-20 | a new session holds no user |
| `Server.Registry.Register` | index.js:50-86 | the push onto `users` and the key insertion into the token map leave exactly the state and answer of `Routes.Register`. A 400 changes nothing |
| `Server.Registry.Verify` | index.js:88-101 | the in-place `isVerified` update and the token `delete` leave exactly the state and answer of `Routes.Verify` |
| `Server.Registry.Login` | index.js:107-124 | the session assignment and the cookie match `Routes.Login` |
| `Server.Registry.UpdateEmail` | index.js:134-145 | the in-place e-mail updates of the record and the session copy match `Routes.UpdateEmail`. The token map is untouched |
| `Server.Registry.ListUsers` | index.js:156-162 | with the cookie exactly `"true"`: the whole list, passwords included. Otherwise 403 |
| `Server.Registry.DeleteUser` | index.js:164-171 | reassigning `users` to the filtered list matches `Routes.DeleteUser` |
| `Properties.RegisterTwiceRejected` | index.js:53-55 | registering an address a second time, after a first attempt that succeeded or failed on mail, gives 400 and changes nothing |
| `Properties.RegisterKeepsEmailsUnique` | index.js:53-66 | registration preserves "no two records share an e-mail" |
| `Properties.VerifyKeepsEmailsUnique` | index.js:93-96 | verification preserves unique e-mails |
| `Properties.FilterKeepsEmailsUnique` | index.js:166 | filtering the list preserves unique e-mails |
| `Properties.DeleteKeepsEmailsUnique` | index.js:164-171 | the admin delete preserves unique e-mails |
| `Properties.UpdateEmailCanDuplicate` | index.js:136-141 | changing to an address another record holds succeeds and leaves two records with that address |
| `Properties.FreshUserMustVerify` | index.js:109-117 | right after a successful registration, logging in with the same credentials gives 403 and leaves the session alone |
| `Properties.RegisterVerifyLogin` | index.js:50-124 | register a new non-empty address, verify with its token, then log in: verification redirects to `/login` and removes the token. Login redirects to `/home` with the verified record in the session and the admin cookie set by address |
| `Properties.EmptyEmailNeverVerifies` | index.js:90-100 | a token mapped to the empty e-mail gives 400 and changes nothing |
| `Properties.VerifyIsSingleUse` | index.js:92-100 | after a successful verification, the same token gives 400 and changes nothing |
| `Properties.StaleTokenVerifiesLaterAccount` | index.js:66-100 | a token whose address no user has gives 400 and changes nothing. Once that address registers again, under any token including the same one, the old token verifies the new record |
| `Properties.LoginOpensGuards` | index.js:119-123 | after a successful login the session guard lets pages through. The admin guard lets the admin page through exactly when the address is `admin@example.com` |
| `Properties.FailedLoginKeepsSession` | index.js:111-117 | a login that does not redirect to `/home` keeps the previous session and sets no cookie |
| `Properties.SessionOutlivesDeletedAccount` | index.js:134-145 | after the admin deletes the session's id, the session guard still passes and the account update answers 404, changing nothing |
| `Properties.DeleteKeepsOrder` | index.js:166 | delete keeps the surviving records in their original order |
| `Properties.DeleteMissingIsNoOp` | index.js:164-167 | deleting an id that no record has, or a non-numeric id, answers 200 and changes nothing |
| `Properties.IdCollisionAfterDelete` | index.js:58-66 | with ids 1..n, deleting id 1 and then registering assigns id n again, so two records share it |

## Left out

- Express wiring, body/cookie/query parsing, `dotenv`, the port and `app.listen` (index.js:1-21, 179-182). This is framework plumbing. Every form field, the query token and the cookie arrive as plain strings or options. A missing field or token (JavaScript `undefined`, looked up as the key `"undefined"`) is not modelled.
- Static page serving (`sendFile`, index.js:42-48, 103-105, 126-132, 150). This is file I/O. A guarded page is modelled only as the outcome `Page(file)` (`GuardedPage`, `AdminPage`).
- The Nodemailer transport and the mail text (index.js:33-39, 71-85). This is a foreign network call, reduced to the `mailSent` flag, which is decided after the stores have changed.
- `Math.random().toString(36)` (index.js:68). This is floating-point randomness; the token is a parameter. Its quality is not modelled, and neither is a collision with an existing token beyond "the new entry overwrites".
- `parseInt` (index.js:166). Number parsing (for example `"3abc"` gives 3) is outside the model; the parsed value is a parameter.
- The `await` on the mail send (index.js:80). The duplicate check (index.js:53), the `push` (index.js:66) and the token insertion (index.js:69) all run before it, so no other request can run between the check and the insert. Only the 200/500 answer is delayed. Each handler is modelled as atomic, so the model does not capture that other requests can run, and see the new record and token, before registration answers.
- Logout (index.js:173-177): session destruction and cookie clearing are library behaviour.
- In-place mutation of records (`user.isVerified = true`, `user.email = email`) is modelled as a sequence update at the found index. No other reference to a stored record survives a request, because the session store keeps a serialized copy. So aliasing is not modelled.
- JavaScript object semantics of the token map: keys inherited from `Object.prototype` are treated as absent. Any such key maps to a non-string value that no e-mail equals, so `/verify` still answers 400.
