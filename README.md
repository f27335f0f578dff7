# placeShare backend: authentication handlers and the error pipeline

This project models the authentication part of the placeShare Express backend in Dafny:

- the three user handlers `getUsers`, `signup` and `login`, run against an in-memory credential store;
- the application's middleware chain: the CORS headers, the 404 fallback, and the general error handler. The error handler deletes an uploaded file and then either answers with the error or forwards it.

Files:

- `http.dfy` (module `Http`) holds the values that cross the wire: `HttpError`, the JSON bodies, and the two ways a handler ends. `Respond(status, body)` is `res.status(..).json(..)`. `Fail(error)` is `next(new HttpError(..))`.
- `users.dfy` (module `Users`) holds the class `UserStore`. Its field `users` maps each email to its `User` record. Its field `emails` keeps the collection order, so that `find({})` lists users in a defined order. Its methods are the handlers. `Save` is the only method that writes the store.
- `app.dfy` (module `App`) holds the response record (`headersSent`, `status`, `body`, `headers`) and an effect log.
  - The log records, in order, every `fileDelete(location)` call and every response written. This shows that the delete happens before the answer.
  - It also holds the middleware, and `Finish`, which is how Express ends a request after the handler settles.
- `scenarios.dfy` (module `Scenarios`) follows whole requests through a handler and the middleware. It proves, from the contracts alone:
  - a failed signup deletes the avatar exactly once;
  - a retry after a token failure is refused as a duplicate;
  - a fresh account can log in;
  - an unknown email and a wrong password look the same on the wire.

Each awaited external step is an oracle. A store call (`find`, `findOne`, `save`) is a flag saying whether it rejected. Validation is the boolean `inputsValid`. bcrypt's `hash`/`compare` and jsonwebtoken's `sign` are function-valued fields of `Crypto`. Each returns `Resolved(value)` or `Rejected`. The salt rounds (12) and the `expiresIn: '1h'` option are passed as constants, inside the arguments.

Where the code and its design description disagree, the model follows the code:

- a failed `findOne` during signup gives 422, not 500 (`users-controller.js:38`);
- a failed `save` gives a 500 with "Signing up failed, please try again", not a duplicate-account error;
- if `jwt.sign` fails after `save`, the new record stays in the store. The error handler then deletes the avatar that record points to, and a retry is refused with "User exists, already, please login instead". `Scenarios.SignupRequest` and `Scenarios.SignupTwice` state both consequences.

## Model

| member | source | states |
|---|---|---|
| `Users.Summaries` | placeShare/BackEnd/controllers/users-controller.js:18 | `users.map(...)`: as many summaries as documents, each the password-free projection of the document at the same position |
| `Users.Documents` | placeShare/BackEnd/controllers/users-controller.js:12 | the documents `find({})` returns, one per entry of the collection order, each the record stored under that email |
| `Users.StoreSize` | placeShare/BackEnd/controllers/users-controller.js:42-46 | in a store with one record per email, the number of records equals the length of the collection order (proved by induction) |
| `Users.ListingIsComplete` | placeShare/BackEnd/controllers/users-controller.js:12-18 | the listing built from a consistent store holds every stored user exactly once, with the password projected out, and nothing else |
| `Users.UserStore.Save` | placeShare/BackEnd/controllers/users-controller.js:65-69 | `save` either rejects and leaves the store as it was, or adds exactly the new record under its email at the end of the collection order; one record per email is kept |
| `Users.UserStore.GetUsers` | placeShare/BackEnd/controllers/users-controller.js:9-19 | fails with exactly `(500, 'Fetching users failed, please try again later.')` if and only if `find` rejects; otherwise answers 200 with every stored user once, without passwords; never writes the store |
| `Users.UserStore.Signup` | placeShare/BackEnd/controllers/users-controller.js:21-90 | failed validation gives 422 'Invalid inputs…'; a failed lookup gives 422 'Signing up failed, please try again later'; an existing email gives 422 'User exists…'; a rejected hash gives 500 'Could not create user…'; a rejected save gives 500 'Signing up failed, please try again'; the store is unchanged in all five cases. The store changes if and only if `save` resolves, and then by exactly `User(id, name, email, image = upload location, password = hash(password, 12), places = [])`. After that, a rejected `sign` gives 500 'Signing up failed, please try again' with the record kept; otherwise the answer is 201 `{userId, email, token}`, the token signed over `{userId, email}` with expiry '1h'. One record per email is preserved |
| `Users.UserStore.Login` | placeShare/BackEnd/controllers/users-controller.js:92-164 | never writes the store; a failed lookup gives 500 'Logging in failed, please try again later'; the result is `(403, 'Invalid credentials, could not log you in.')` if and only if the email is unknown or `compare` resolves false (the same error for both); a rejected compare gives 500 'Something went wrong…'; after an accepted compare, a rejected `sign` gives 500 'Logging in failed, please try again', otherwise 200 `{userId, email, token}` of the found user with the token over `{userId, email}`, '1h'; a 200 happens only then |
| `App.ErrorStatus` | placeShare/BackEnd/app.js:53 | the status written is never 0 (falsy): the error's code when it is non-zero, 500 otherwise |
| `App.ErrorMessage` | placeShare/BackEnd/app.js:54 | the message written is never empty: the error's message when non-empty, 'An unknown error occurred!' otherwise |
| `App.Deletes` | placeShare/BackEnd/app.js:42 | the locations passed to `fileDelete`, in call order; never more than the effects logged |
| `App.DeletesAppend` | placeShare/BackEnd/app.js:42 | the delete calls of two consecutive stretches of a request are those of the first followed by those of the second |
| `App.CleanupExactlyOnce` | placeShare/BackEnd/app.js:41-47 | the error handler calls `fileDelete` exactly once, with the file's location, when the request carries a file, and never otherwise, whether or not headers were sent; the call is its first effect, and the only response it writes comes after it and only when headers were not sent |
| `App.Response.SetHeader` | placeShare/BackEnd/app.js:20-25 | `res.setHeader` sets that header only; status, body and `headersSent` are unchanged |
| `App.Effects.DeleteFile` | placeShare/BackEnd/app.js:42 | a `fileDelete(location)` call appends exactly that call to the effect log |
| `App.Send` | placeShare/BackEnd/app.js:53-54 | `res.status(s).json(b)` leaves status `s`, body `b`, headers sent and the headers map unchanged, and logs one written response |
| `App.Cors` | placeShare/BackEnd/app.js:19-28 | sets exactly the three fixed `Access-Control-Allow-Origin/Headers/Methods` values, touches nothing else, and passes the request on |
| `App.NotFound` | placeShare/BackEnd/app.js:34-36 | a request that reaches the fallback is forwarded as `HttpError('Could not find this route', 404)` and nothing is written |
| `App.HandleError` | placeShare/BackEnd/app.js:38-56 | logs the file deletion first when there is a file. If headers were already sent, the error is forwarded unchanged and status and body are untouched. Otherwise the status becomes `code` or else 500, the body becomes `{message}` or else the unknown-error message, and the response is sent. Headers are never changed |
| `App.Finish` | placeShare/BackEnd/controllers/users-controller.js:85-89 | a handler's `Respond` writes exactly its status and body; a `Fail` goes through the error handler with the same effects as `HandleError` |
| `Scenarios.SignupRequest` | placeShare/BackEnd/controllers/users-controller.js:21-90 | through the error pipeline, a failed signup deletes the uploaded avatar exactly once and writes the handler's status and message unchanged. A successful one deletes nothing and answers 201. A token failure after save leaves an account whose image is the deleted avatar |
| `Scenarios.SignupTwice` | placeShare/BackEnd/controllers/users-controller.js:42-46 | once a signup has saved the record, whether it then answered 201 or failed to sign, the same signup again gets 422 'User exists, already, please login instead'. An email already stored is refused both times, with the store unchanged |
| `Scenarios.SignupThenLogin` | placeShare/BackEnd/controllers/users-controller.js:122-139 | if `compare` accepts a password against its own hash, a user who just signed up logs in with that password and gets 200 with the same id and email |
| `Scenarios.LoginRequest` | placeShare/BackEnd/controllers/users-controller.js:116-139 | an unknown email and a refused password produce the same written response (403, 'Invalid credentials, could not log you in.') and the same effects; a successful login writes 200 with its session body |
| `Scenarios.UnmatchedRoute` | placeShare/BackEnd/app.js:34-36 | a request no route matched is answered 404 `{message: 'Could not find this route'}`, after the deletion of any file it carried |

## Left out

- The MongoDB connection, `mongoose.connect` and `app.listen` (`app.js:58-67`): process bootstrap and network I/O.
- `express.static`, `bodyParser.json` and the mounting of the route modules (`app.js:15-17, 30-32`): framework plumbing. The route files and their express-validator rules are not part of this model; their verdict is the boolean `inputsValid`.
- bcrypt and jsonwebtoken themselves (salts, the cost factor's effect, signatures, the secret, issue and expiry timestamps). They are the uninterpreted functions of `Crypto`. The cost factor 12 and the `'1h'` expiry are passed as constants. Only `Scenarios.SignupThenLogin` assumes anything about them: that `compare` accepts a password against its own hash, stated as its precondition.
- `sign` is a function of its claims in the model, so the same claims give the same result. A real token also carries an issue time.
- Verifying a token and its expiry: the middleware that checks tokens is not part of this model.
- `fileDelete`'s implementation (`middleware/file-delete` is not part of this model). A call is one entry in the effect log. Its own failure cannot reach the handler.
- The `HttpError` class (`models/http-error` is not part of this model) is the record `HttpError(message, code)`. JavaScript truthiness is modelled for integer codes only: 0 stands for any falsy code, and "" for any falsy message. Non-numeric codes from other middleware are not modelled.
- `res.json` also sets a Content-Type header, and writing after headers are sent throws in Express. Neither is modelled.
- Concurrent signups racing on the same email: the model is sequential, so the pre-check in `signup` is the only guard against duplicates.
- A signup with no uploaded file: `req.file.location` (`users-controller.js:60`) would throw outside any `try`. `Signup` therefore takes the location itself, and `Scenarios.SignupRequest` requires a file.
- `toObject({ getters: true })` serialisation: a summary is the record without its password field.
- Users.UserStore.Login: "never writes the store" is guaranteed by the method having no `modifies` clause, not by an explicit postcondition.
