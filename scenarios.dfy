/** Requests followed from the route handler to the last middleware: what the
    client receives, what the store holds and which files are deleted, proved
    from the contracts of the handlers and the middleware alone. */
module Scenarios {
  import opened Http
  import opened Users
  import opened App

  /** Every error the signup handler produces carries a non-zero code and a
      non-empty message, so the error handler writes it as it is. */
  predicate WrittenVerbatim(e: HttpError)
  {
    ErrorStatus(e.code) == e.code && ErrorMessage(e.message) == e.message
  }

  /** `POST /api/users/signup` with an uploaded avatar: the signup handler,
      then Express's ending of the request. */
  method SignupRequest(store: UserStore, req: Request, res: Response, fx: Effects,
                       inputsValid: bool, name: string, email: string, password: string,
                       lookupFails: bool, crypto: Crypto, newId: string, saveFails: bool)
    returns (out: Outcome, n: Next)
    requires store.Valid() && req.file.Some? && !res.headersSent
    modifies store, res, fx
    ensures store.Valid() && n == Finished && res.headersSent
    // a failed signup deletes the avatar once and reports the handler's error verbatim
    ensures out.Fail? ==>
              Deletes(fx.trace) == Deletes(old(fx.trace)) + [req.file.value.location]
              && res.status == out.error.code && res.body == Message(out.error.message)
    // a successful one keeps the avatar and answers 201 with the session
    ensures out.Respond? ==>
              Deletes(fx.trace) == Deletes(old(fx.trace)) && res.status == 201 && res.body.Session?
              && email in store.users && store.users[email].image == req.file.value.location
    // a token failure after save: the account stays, pointing at a deleted avatar
    ensures store.users != old(store.users) && out.Fail? ==>
              out == Fail(HttpError(SignupFailed, 500)) && email in store.users
              && store.users[email].image == req.file.value.location
              && req.file.value.location in Deletes(fx.trace)
  {
    ghost var before := fx.trace;
    out := store.Signup(inputsValid, name, email, password, req.file.value.location,
                        lookupFails, crypto, newId, saveFails);
    n := Finish(out, req, res, fx);
    DeletesAppend(before, if out.Fail? then ErrorEffects(out.error, req, false) else [Sent(out.status, out.body)]);
    if out.Fail? {
      CleanupExactlyOnce(out.error, req, false);
      assert WrittenVerbatim(out.error);
    } else {
      var sent: seq<Effect> := [Sent(out.status, out.body)];
      assert Deletes(sent) == [] by { assert sent[1..] == []; }
    }
  }

  /** Signing up twice with the same email: once the first call has written
      the record, whether it answered 201 or failed to sign the token, the
      retry is refused as a duplicate and writes nothing. */
  method SignupTwice(store: UserStore, name: string, email: string, password: string, imageLocation: string,
                     crypto: Crypto, firstId: string, secondCrypto: Crypto, secondId: string, secondSaveFails: bool)
    returns (first: Outcome, second: Outcome)
    requires store.Valid()
    modifies store
    ensures store.Valid()
    ensures first.Respond? ==> first.status == 201
    // with `save` resolving, the first call's 500 can only be a token failure
    ensures first.Respond? || first == Fail(HttpError(SignupFailed, 500)) ==>
              second == Fail(HttpError(UserExists, 422)) && email in store.users && store.users[email].id == firstId
    ensures email in old(store.users) ==>
              first == Fail(HttpError(UserExists, 422)) && second == first && store.users == old(store.users)
  {
    first := store.Signup(true, name, email, password, imageLocation, false, crypto, firstId, false);
    second := store.Signup(true, name, email, password, imageLocation, false, secondCrypto, secondId, secondSaveFails);
  }

  /** A user who has just signed up can log in with the same password, given
      that bcrypt's `compare` accepts a password against its own hash. */
  method SignupThenLogin(store: UserStore, name: string, email: string, password: string, imageLocation: string,
                         crypto: Crypto, newId: string)
    returns (signedUp: Outcome, loggedIn: Outcome)
    requires store.Valid()
    requires crypto.hash(password, SaltRounds).Resolved? ==>
               crypto.compare(password, crypto.hash(password, SaltRounds).value) == Resolved(true)
    modifies store
    ensures store.Valid()
    ensures signedUp.Respond? ==>
              loggedIn.Respond? && loggedIn.status == 200
              && loggedIn.body.Session? && loggedIn.body.userId == newId && loggedIn.body.email == email
  {
    signedUp := store.Signup(true, name, email, password, imageLocation, false, crypto, newId, false);
    loggedIn := store.Login(email, password, false, crypto);
  }

  /** A login with an unknown email and one with a wrong password reach the
      client as the same response, and neither deletes anything it should not. */
  method LoginRequest(store: UserStore, req: Request, res: Response, fx: Effects,
                      email: string, password: string, lookupFails: bool, crypto: Crypto)
    returns (out: Outcome, n: Next)
    requires store.Valid() && !res.headersSent
    modifies res, fx
    ensures n == Finished && res.headersSent
    ensures !lookupFails && (email !in store.users || crypto.compare(password, store.users[email].password) == Resolved(false)) ==>
              res.status == 403 && res.body == Message(InvalidCredentials)
              && fx.trace == old(fx.trace) + Cleanup(req) + [Sent(403, Message(InvalidCredentials))]
    ensures out.Respond? ==> res.status == 200 && res.body == out.body && fx.trace == old(fx.trace) + [Sent(200, out.body)]
  {
    out := store.Login(email, password, lookupFails, crypto);
    n := Finish(out, req, res, fx);
  }

  /** A request no route matched is answered 404 with the route message,
      after deleting whatever file it carried. */
  method UnmatchedRoute(req: Request, res: Response, fx: Effects) returns (n: Next)
    requires !res.headersSent
    modifies res, fx
    ensures n == Finished
    ensures res.status == 404 && res.body == Message(NotFoundMessage)
    ensures fx.trace == old(fx.trace) + Cleanup(req) + [Sent(404, Message(NotFoundMessage))]
  {
    var forwarded := NotFound(req);
    n := HandleError(forwarded.error, req, res, fx);
  }
}
