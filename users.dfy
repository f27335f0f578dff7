/** The user controller: listing users, signing up and logging in against an
    in-memory credential store. Every awaited call of the handlers (the store's
    `find`, `findOne` and `save`, bcrypt's `hash` and `compare`, jsonwebtoken's
    `sign`) is an oracle whose result is given to the handler: the store calls as
    a flag saying whether the call rejected, the cryptographic calls as the
    functions of a `Crypto` value that either resolve to a value or reject. */
module Users {
  import opened Http

  /** A stored user document. */
  datatype User = User(id: string, name: string, email: string, image: string, password: string, places: seq<string>)

  /** The settled state of an awaited call: resolved with a value, or rejected. */
  datatype Attempt<T> = Resolved(value: T) | Rejected

  /** The payload handed to `jwt.sign` together with its `expiresIn` option. */
  datatype Claims = Claims(userId: string, email: string, expiresIn: string)

  /** bcrypt and jsonwebtoken, as uninterpreted functions. The salt and the
      signing secret are hidden inside them. */
  datatype Crypto = Crypto(
    hash: (string, int) -> Attempt<string>,
    compare: (string, string) -> Attempt<bool>,
    sign: Claims -> Attempt<string>)

  const SaltRounds := 12
  const TokenLifetime := "1h"

  const FetchUsersFailed := "Fetching users failed, please try again later."
  const InvalidInputs := "Invalid inputs passed, please check your data."
  const SignupLookupFailed := "Signing up failed, please try again later"
  const UserExists := "User exists, already, please login instead"
  const CouldNotCreateUser := "Could not create user, please try again."
  const SignupFailed := "Signing up failed, please try again"
  const LoginLookupFailed := "Logging in failed, please try again later"
  const InvalidCredentials := "Invalid credentials, could not log you in."
  const CredentialCheckFailed := "Something went wrong when trying to log you in, please check your credentials and try again."
  const LoginFailed := "Logging in failed, please try again"

  /** The `-password` projection of `find`. */
  function Summarize(u: User): UserSummary
  {
    UserSummary(u.id, u.name, u.email, u.image, u.places)
  }

  /** `users.map(...)`: the projection of each document, in order. */
  function Summaries(us: seq<User>): (r: seq<UserSummary>)
    ensures |r| == |us|
    ensures forall i :: 0 <= i < |us| ==> r[i] == Summarize(us[i])
  {
    if us == [] then [] else [Summarize(us[0])] + Summaries(us[1..])
  }

  /** The documents of the store in collection order. */
  function Documents(emails: seq<string>, users: map<string, User>): (r: seq<User>)
    requires forall i :: 0 <= i < |emails| ==> emails[i] in users
    ensures |r| == |emails|
    ensures forall i :: 0 <= i < |emails| ==> r[i] == users[emails[i]]
  {
    if emails == [] then [] else [users[emails[0]]] + Documents(emails[1..], users)
  }

  /** The store invariant: one record per email, stored under its own email,
      and a collection order that lists every email exactly once. */
  ghost predicate Consistent(emails: seq<string>, users: map<string, User>)
  {
    && (forall e :: e in users ==> users[e].email == e)
    && (forall e :: e in users <==> e in emails)
    && (forall i, j :: 0 <= i < j < |emails| ==> emails[i] != emails[j])
  }

  /** `r` is a listing of the whole store: one summary per stored user and
      nothing else, never a password. */
  ghost predicate ListsEveryUserOnce(r: seq<UserSummary>, users: map<string, User>)
  {
    && |r| == |users|
    && (forall i :: 0 <= i < |r| ==> r[i].email in users && r[i] == Summarize(users[r[i].email]))
    && (forall e :: e in users ==> exists i :: 0 <= i < |r| && r[i].email == e)
  }

  /** A consistent store has exactly as many records as its collection order
      has entries. */
  lemma {:induction false} StoreSize(emails: seq<string>, users: map<string, User>)
    requires Consistent(emails, users)
    ensures |users| == |emails|
  {
    if emails == [] {
      assert forall e :: e in users ==> e in emails;
      assert users.Keys == {};
    } else {
      var n := |emails|;
      var last := emails[n - 1];
      var front := emails[..n - 1];
      var rest := users - {last};
      assert last in emails;
      forall e ensures e in rest <==> e in front {
        if e in front {
          var i :| 0 <= i < n - 1 && front[i] == e;
          assert emails[i] == e && emails[i] != emails[n - 1];
        }
        if e in rest {
          assert e in emails;
          var i :| 0 <= i < n && emails[i] == e;
          assert i != n - 1;
          assert front[i] == e;
        }
      }
      forall i, j | 0 <= i < j < |front| ensures front[i] != front[j] {
        assert front[i] == emails[i] && front[j] == emails[j];
      }
      assert Consistent(front, rest);
      StoreSize(front, rest);
      assert rest.Keys == users.Keys - {last};
      assert |rest.Keys| == |users.Keys| - 1;
    }
  }

  /** The listing `getUsers` builds from a consistent store is complete: it
      holds every stored user, once, with the password projected out. */
  lemma ListingIsComplete(emails: seq<string>, users: map<string, User>)
    requires Consistent(emails, users)
    ensures forall i :: 0 <= i < |emails| ==> emails[i] in users
    ensures ListsEveryUserOnce(Summaries(Documents(emails, users)), users)
  {
    assert forall i :: 0 <= i < |emails| ==> emails[i] in emails;
    var r := Summaries(Documents(emails, users));
    StoreSize(emails, users);
    forall e | e in users ensures exists i :: 0 <= i < |r| && r[i].email == e {
      assert e in emails;
      var i :| 0 <= i < |emails| && emails[i] == e;
      assert r[i].email == e;
    }
  }

  /** The credential store with the three handlers that use it. */
  class UserStore {
    /** The collection, keyed by email (the login key). */
    var users: map<string, User>
    /** The collection's natural order: the order in which records were saved. */
    var emails: seq<string>

    ghost predicate Valid()
      reads this
    {
      Consistent(emails, users)
    }

    constructor ()
      ensures Valid() && users == map[] && emails == []
    {
      users := map[];
      emails := [];
    }

    /** `userToCreate.save()`: the only write to the store. */
    method Save(u: User, fails: bool) returns (saved: bool)
      requires Valid() && u.email !in users
      modifies this
      ensures Valid()
      ensures saved == !fails
      ensures saved ==> users == old(users)[u.email := u] && emails == old(emails) + [u.email]
      ensures !saved ==> unchanged(this)
    {
      if fails {
        return false;
      }
      users := users[u.email := u];
      emails := emails + [u.email];
      return true;
    }

    /** `getUsers`: list every user without the password, or fail with 500 when
        the query rejects. */
    method GetUsers(findFails: bool) returns (out: Outcome)
      requires Valid()
      ensures findFails <==> out == Fail(HttpError(FetchUsersFailed, 500))
      ensures !findFails ==> out.Respond? && out.status == 200 && out.body.UsersList?
                             && ListsEveryUserOnce(out.body.users, users)
    {
      if findFails {
        return Fail(HttpError(FetchUsersFailed, 500));
      }
      ListingIsComplete(emails, users);
      var docs := Documents(emails, users);
      return Respond(200, UsersList(Summaries(docs)));
    }

    /** `signup`. The store changes only when `save` resolves, and then by
        exactly the new record; a later token failure does not undo it. */
    method Signup(inputsValid: bool, name: string, email: string, password: string, imageLocation: string,
                  lookupFails: bool, crypto: Crypto, newId: string, saveFails: bool) returns (out: Outcome)
      requires Valid()
      modifies this
      ensures Valid()
      // validation, then the duplicate check: 422, nothing written
      ensures !inputsValid ==> out == Fail(HttpError(InvalidInputs, 422)) && unchanged(this)
      ensures inputsValid && lookupFails ==> out == Fail(HttpError(SignupLookupFailed, 422)) && unchanged(this)
      ensures inputsValid && !lookupFails && email in old(users) ==>
                out == Fail(HttpError(UserExists, 422)) && unchanged(this)
      // hashing, then saving: 500, nothing written
      ensures inputsValid && !lookupFails && email !in old(users) && crypto.hash(password, SaltRounds).Rejected? ==>
                out == Fail(HttpError(CouldNotCreateUser, 500)) && unchanged(this)
      ensures inputsValid && !lookupFails && email !in old(users) && crypto.hash(password, SaltRounds).Resolved? && saveFails ==>
                out == Fail(HttpError(SignupFailed, 500)) && unchanged(this)
      // saved: exactly one new record, kept whatever signing does
      ensures var saved := inputsValid && !lookupFails && email !in old(users)
                           && crypto.hash(password, SaltRounds).Resolved? && !saveFails;
              (users != old(users) <==> saved)
              && (saved ==>
                    var u := User(newId, name, email, imageLocation, crypto.hash(password, SaltRounds).value, []);
                    var token := crypto.sign(Claims(newId, email, TokenLifetime));
                    users == old(users)[email := u] && emails == old(emails) + [email]
                    && (token.Rejected? ==> out == Fail(HttpError(SignupFailed, 500)))
                    && (token.Resolved? ==> out == Respond(201, Session(newId, email, token.value))))
      // a 201 only ever follows a save
      ensures out.Respond? ==> out.status == 201 && out.body.Session? && email in users && users[email].id == newId
                               && users[email].image == imageLocation && users != old(users)
    {
      if !inputsValid {
        return Fail(HttpError(InvalidInputs, 422));
      }
      if lookupFails {
        return Fail(HttpError(SignupLookupFailed, 422));
      }
      var existingUser := if email in users then Some(users[email]) else None;
      if existingUser.Some? {
        return Fail(HttpError(UserExists, 422));
      }
      var hashedPassword := crypto.hash(password, SaltRounds);
      if hashedPassword.Rejected? {
        return Fail(HttpError(CouldNotCreateUser, 500));
      }
      var userToCreate := User(newId, name, email, imageLocation, hashedPassword.value, []);
      var saved := Save(userToCreate, saveFails);
      if !saved {
        return Fail(HttpError(SignupFailed, 500));
      }
      assert old(users)[email := userToCreate] != old(users) by {
        assert email in old(users)[email := userToCreate];
      }
      var token := crypto.sign(Claims(userToCreate.id, userToCreate.email, TokenLifetime));
      if token.Rejected? {
        return Fail(HttpError(SignupFailed, 500));
      }
      return Respond(201, Session(userToCreate.id, userToCreate.email, token.value));
    }

    /** `login`. It never writes the store (it has no modifies clause). An
        unknown email and a wrong password end in the same error. */
    method Login(email: string, password: string, lookupFails: bool, crypto: Crypto) returns (out: Outcome)
      requires Valid()
      ensures lookupFails ==> out == Fail(HttpError(LoginLookupFailed, 500))
      ensures out == Fail(HttpError(InvalidCredentials, 403)) <==>
                !lookupFails && (email !in users || crypto.compare(password, users[email].password) == Resolved(false))
      ensures !lookupFails && email in users && crypto.compare(password, users[email].password).Rejected? ==>
                out == Fail(HttpError(CredentialCheckFailed, 500))
      ensures !lookupFails && email in users && crypto.compare(password, users[email].password) == Resolved(true) ==>
                var token := crypto.sign(Claims(users[email].id, email, TokenLifetime));
                (token.Rejected? ==> out == Fail(HttpError(LoginFailed, 500)))
                && (token.Resolved? ==> out == Respond(200, Session(users[email].id, email, token.value)))
      // a 200 only for a stored user whose password compare accepted
      ensures out.Respond? ==>
                out.status == 200 && email in users && crypto.compare(password, users[email].password) == Resolved(true)
                && out.body.Session? && out.body.userId == users[email].id && out.body.email == email
    {
      if lookupFails {
        return Fail(HttpError(LoginLookupFailed, 500));
      }
      var existingUser := if email in users then Some(users[email]) else None;
      if existingUser.None? {
        return Fail(HttpError(InvalidCredentials, 403));
      }
      var isValidPassword := crypto.compare(password, existingUser.value.password);
      if isValidPassword.Rejected? {
        return Fail(HttpError(CredentialCheckFailed, 500));
      }
      if !isValidPassword.value {
        return Fail(HttpError(InvalidCredentials, 403));
      }
      var user := existingUser.value;
      var token := crypto.sign(Claims(user.id, user.email, TokenLifetime));
      if token.Rejected? {
        return Fail(HttpError(LoginFailed, 500));
      }
      return Respond(200, Session(user.id, user.email, token.value));
    }
  }
}
