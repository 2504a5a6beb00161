# Photo-sharing server: access rules, account handlers and photo reports

This project models the decision logic of a small photo-sharing web server
(`webServer.js`) and its password codec (`password.js`) in Dafny, and proves
properties of the model.

- **Password** (`password.dfy`, from `password.js`). `MakePasswordEntry` turns
  8 random bytes into a 16-character lower-case hex salt. It returns that salt
  with the digest of the clear text followed by the salt. `DoesPasswordMatch`
  recomputes that digest and compares. SHA-1 is the function parameter `H`. The
  random bytes are a parameter too.
- **Gate** (`gate.dfy`). The global middleware lets a request through when the
  session has a user, or when the path is exactly `/admin/login` or `/user`.
  `requireLogin` is the same rule with an empty allow-list.
- **Photos** (`photos.dfy`). Photo and comment records. The two `reduce` folds
  of `/user/photoUsage/:id` are stated as left folds. `date_time` is an integer
  timestamp. The reshaping done by `/photosOfUser/:id` is here too, with the
  output of `populate` given as a map from user id to name.
- **Routes** (`routes.dfy`). Class `App` holds the server state. Its fields
  are the users (keyed by `login_name`), the session user and the photos (keyed
  by id, each carrying its comments). The handlers for `POST /user`,
  `/admin/login`, `/admin/logout` and `/commentsOfPhoto/:photo_id` are methods
  that update this state. `GET /test/:p1` is a method whose `for` loop builds
  the counts object. The GET handlers for photo usage and photos of a user are
  functions over what the store's query returned.

Parameters stand in for the outside world:
- `hash` is SHA-1 in hex.
- `isValidId` is `mongoose.Types.ObjectId.isValid`, which also decides whether `findById` throws a cast error.
- `random` is the output of `crypto.randomBytes(8)`.
- `newId` and `newCommentId` are the ObjectIds the store assigns.
- `now` is `new Date()`.
- The store's query results and document counts are passed in as inputs.

Behaviour of webServer.js worth knowing:
- A duplicate login name is answered 400 "Login name already exists", the same status as a missing field.
- `/admin/logout` is not on the allow-list. Without a session user the global middleware answers 401 "Unauthorized" first, so the handler's own 400 "No user currently logged in" is never reached (`Gate.LogoutIsGated`). `Routes.App.Logout` still models that branch.
- The allow-list compares the whole path and ignores the HTTP method. So `GET /user` passes without a session too, while `/user/list` and `/user/:id` do not (`Gate.SubpathsAreGated`).
- `/photosOfUser/:id` has no `requireLogin`. It still sits behind the global middleware, so it needs a session like every other path off the allow-list.
- The comment handler reads `req.session.user._id` inside its `try` block, after the photo lookup. Without a session user it would answer 500. Behind the global middleware it never lacks one (`Gate.PassedGateHasUser`).

## Model

| member | source | states |
|---|---|---|
| `Password.Hex` | password.js:12 | hex text is two characters per byte, every one in 0-9a-f |
| `Password.UnhexHex` | password.js:12 | reading the hex salt back gives the random bytes it came from |
| `Password.HexInjective` | password.js:12 | different random bytes give different salts |
| `Password.MakePasswordEntry` | password.js:11-19 | the salt is 16 hex characters encoding the 8 random bytes, and the hash is H(clear text + that very salt) |
| `Password.RoundTrip` | password.js:29-35 | an entry made from a password verifies that password (this row and `Password.WrongPasswordRejected` are what is proved about `Password.DoesPasswordMatch`, the model of doesPasswordMatch) |
| `Password.ConcatRightCancel` | password.js:29-34 | two candidate passwords followed by the same salt give the same digest input only if they are equal |
| `Password.ConcatLeftCancel` | password.js:13-16 | one password followed by two salts gives the same digest input only if the salts are equal |
| `Password.WrongPasswordRejected` | password.js:29-34 | under an injective H, no other password matches an entry |
| `Password.FreshSaltsGiveFreshEntries` | password.js:11-19 | two entries for one password from different random bytes differ in salt, and in hash under an injective H |
| `Gate.GlobalGate` | webServer.js:33-40 | 401 exactly when there is no session user and the path is neither "/admin/login" nor "/user" |
| `Gate.RequireLogin` | webServer.js:131-137 | passes exactly when there is a session user |
| `Gate.RequireLoginIgnoresPath` | webServer.js:131-137 | requireLogin gives the same verdict for every path |
| `Gate.SubpathsAreGated` | webServer.js:33-35 | the allow-list matches whole paths: any longer path starting with an allowed one is refused without a session |
| `Gate.RequireLoginIsStricter` | webServer.js:131-137 | whatever requireLogin admits, the global middleware admits |
| `Gate.LogoutIsGated` | webServer.js:33-36 | a logout request without a session user is answered 401 by the global middleware |
| `Gate.PassedGateHasUser` | webServer.js:34-39 | off the allow-list, passing the global middleware means a session user exists and requireLogin passes |
| `Photos.ReduceIsFirstMax` | webServer.js:344-351 | a strict-`>` reduce seeded with the first photo returns the first photo whose key is greatest (this is what is proved about `Photos.Reduce`, the model of both `reduce` calls) |
| `Photos.FirstMaxUnique` | webServer.js:344-351 | the first greatest position is unique |
| `Photos.PhotoUsage` | webServer.js:339-364 | there is a usage report exactly when the photo list is non-empty |
| `Photos.PhotoUsageSpec` | webServer.js:343-364 | mostRecentPhoto is the first photo with the latest date_time; photoWithMostComments is the first with the most comments, and commentsCount is its number of comments |
| `Photos.AuthorOf` | webServer.js:260-264 | a populated author carries its own id and that user's first_name and last_name; an author that could not be populated has every field undefined |
| `Photos.FormatComments` | webServer.js:256-265 | one formatted comment per comment, in the same order, with id, text and date kept |
| `Photos.FormatPhotos` | webServer.js:251-266 | one formatted photo per photo, in the same order, with id, owner, file name and date kept and the comments reshaped |
| `Photos.FormatRoundTrip` | webServer.js:251-266 | when every author is found, the original photos and comments can be read back from the formatted list |
| `Routes.NewUser` | webServer.js:66-75 | the new user document carries the id the store assigns, takes login_name, first_name, last_name, location, description and occupation from the request, and password_digest and salt from the password entry |
| `Routes.AppendComment` | webServer.js:320 | the pushed comment comes last, the earlier comments are kept as a prefix, and the photo's other fields do not change |
| `Routes.App.Register` | webServer.js:43-83 | a missing required field and a taken login name each give 400 with the users unchanged; otherwise exactly one user is added under login_name, built from makePasswordEntry, and the reply is the login_name |
| `Routes.App.Login` | webServer.js:86-108 | missing fields give 400; an unknown user and a wrong password give the same 400 "Invalid login credentials" with the session unchanged; otherwise the session holds that user and the reply is its id and first_name, after which every path passes the gate |
| `Routes.App.Logout` | webServer.js:111-128 | with no session user the reply is 400 and nothing changes (behind the global middleware that request is answered 401 instead); otherwise the session is cleared and the cookie dropped; afterwards only the allow-listed paths pass the gate |
| `Routes.App.AddComment` | webServer.js:300-327 | an empty comment gives 400 and an unknown photo 404, both with nothing changed; on success exactly one comment by the session user is appended to that photo and no other photo changes |
| `Routes.RegisterThenLogin` | webServer.js:64-103 | a user who has just registered logs in with the same password and becomes the session user |
| `Routes.RegisterThenWrongPassword` | webServer.js:94-100 | under an injective H, any other password is refused right after registration |
| `Routes.CountsObject` | webServer.js:168-171 | the object's keys are the collection names, and each name maps to the count of its last entry |
| `Routes.TestInfo` | webServer.js:140-179 | 401 without a session; "info" gives the first SchemaInfo or 500 when there is none; "counts" gives exactly the keys user, photo and schemaInfo with their counts; any other param gives 400 "Bad param ..."; the param is `Routes.Param`, which takes p1 when it is truthy and "info" otherwise (webServer.js:141) |
| `Routes.PhotoUsageHandler` | webServer.js:329-371 | an invalid id gives 400, no photos give 404, otherwise 200 with the usage report |
| `Routes.PhotosOfUserHandler` | webServer.js:231-273 | an invalid id gives 400, no photos give 400, otherwise 200 with the body `FormatPhotos(authors, photos)`: one formatted photo per photo, in order, with its fields and its comments, in order, kept |

## Left out

- Database connection, queries, `populate` and `save` are left out. They are storage. Query results come in as inputs (`seq<Photo>`, a map of author names, counts).
- The HTTP framework is left out: express, body-parser, the express-session configuration and response serialisation. Answers are `Response` values with a status and a body.
- `express.static` is left out. It runs before the global middleware, so a path naming a file under the server directory is served without a session.
- Every 500 answer caused by a store fault, and the 500 when `session.destroy` fails, are left out. They are storage faults. The 500s that follow from the handler's own logic (an id `findById` rejects, a missing session user in the comment handler) are modelled.
- `POST /photos/new` is left out. It is a multer upload plus `fs.writeFile`, with a file name taken from the clock.
- How the store keeps users findable by login_name and photos by id is left out. The model states both as the class invariant `Valid` of `App`, which every handler keeps.
- `GET /user/list` and `GET /user/:id` are left out. They only query the store with a projection. Their gating follows from `Gate.GlobalGate`.
- The counts for `/test/counts` are gathered by `Promise.all` concurrently. That part is left out and the counts are inputs. Only the loop that builds the result object is modelled.
- The internals of SHA-1 and `crypto.randomBytes` are left out; both are foreign library calls.
- Text encoding is left out. Strings are sequences of Unicode scalar values, and `H` stands for SHA-1 of the UTF-8 encoding. JavaScript strings are UTF-16, and `hash.update` turns a lone surrogate into U+FFFD, so the JSON passwords "\uD800" and "\uFFFD" hash alike. Passwords that are not well-formed UTF-16 are not modelled, and `Password.ConcatRightCancel` and `Password.WrongPasswordRejected` hold only for well-formed text.
- JavaScript truthiness of non-string field values (numbers, booleans, objects) is left out. Request fields are optional strings, so only a missing field or "" counts as missing.
- Date parsing is left out. `date_time` is an integer timestamp, so an invalid date (NaN, never greater than anything) is not modelled.
- Concurrent registrations are left out. Users are filed by `login_name`, so the model cannot hold two users with one name. The store could end up with two if two registrations interleaved between `findOne` and `save`.
- `loadDatabase.js` and the React front end are not part of this model.
