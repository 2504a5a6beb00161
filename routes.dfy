/**
 * The route handlers of webServer.js as operations over the server's state:
 * the user collection (keyed by login_name, which registration keeps unique),
 * the session user, and the photo collection with each photo's comments.
 * The store, the session store, SHA-1, randomness, the clock and ObjectId
 * allocation are parameters: `hash`, `isValidId`, `random`, `newId`, `now`.
 */
module Routes {
  import opened Common
  import opened Password
  import opened Gate
  import opened Photos

  datatype User = User(id: ObjectId, login_name: string, password_digest: string, salt: string,
                       first_name: string, last_name: string,
                       location: Option<string>, description: Option<string>, occupation: Option<string>)

  /** The JSON body of POST /user; any field may be missing. */
  datatype Registration = Registration(login_name: Option<string>, password: Option<string>,
                                       first_name: Option<string>, last_name: Option<string>,
                                       location: Option<string>, description: Option<string>,
                                       occupation: Option<string>)

  datatype SchemaInfo = SchemaInfo(version: string)

  /** What a handler sends: plain text, a JSON object, or a JSON value built from the store. */
  datatype Body =
    | Text(text: string)
    | Message(message: string)
    | Registered(login_name: string)
    | Identity(id: ObjectId, first_name: string)
    | SessionEnded(clearedCookie: string)
    | Info(info: SchemaInfo)
    | Counts(counts: map<string, nat>)
    | PhotoList(photos: seq<FormattedPhoto>)
    | UsageReport(usage: Usage)

  datatype Response = Response(status: nat, body: Body)

  /** The cookie express-session uses to carry the session token. */
  const SessionCookie: string := "connect.sid"

  const Unauthorized401: Response := Response(401, Text("Unauthorized"))
  const InvalidCredentials: Response := Response(400, Text("Invalid login credentials"))
  const InternalError: Response := Response(500, Text("Internal server error"))

  /** login_name, password, first_name and last_name are all truthy. */
  predicate RegistrationComplete(req: Registration)
  {
    Present(req.login_name) && Present(req.password) && Present(req.first_name) && Present(req.last_name)
  }

  /** The document `new User({...})` builds from the request and the password entry. */
  function NewUser(id: ObjectId, req: Registration, entry: PasswordEntry): (u: User)
    requires RegistrationComplete(req)
    ensures u.login_name == req.login_name.value && u.first_name == req.first_name.value
    ensures u.password_digest == entry.hash && u.salt == entry.salt
    ensures u.id == id && u.last_name == req.last_name.value
    ensures u.location == req.location && u.description == req.description && u.occupation == req.occupation
  {
    User(id, req.login_name.value, entry.hash, entry.salt, req.first_name.value, req.last_name.value,
         req.location, req.description, req.occupation)
  }

  /** The stored digest and salt accept the candidate password. */
  predicate Authenticates(H: string -> string, u: User, password: string)
  {
    DoesPasswordMatch(H, u.password_digest, u.salt, password)
  }

  /** photo.comments.push(newComment). */
  function AppendComment(p: Photo, c: Comment): (r: Photo)
    ensures |r.comments| == |p.comments| + 1
    ensures r.comments[..|p.comments|] == p.comments && r.comments[|p.comments|] == c
    ensures r.id == p.id && r.user_id == p.user_id && r.file_name == p.file_name && r.date_time == p.date_time
  {
    p.(comments := p.comments + [c])
  }

  class App {
    /** SHA-1 of a text, in hex. */
    const hash: string -> string
    /** mongoose.Types.ObjectId.isValid; findById rejects an id it refuses. */
    const isValidId: ObjectId -> bool

    var users: map<string, User>
    var session: Option<User>
    var photos: map<ObjectId, Photo>

    /** Every user is filed under its own login_name, and every photo under its own id. */
    ghost predicate Valid()
      reads this
    {
      (forall name :: name in users ==> users[name].login_name == name) &&
      (forall id :: id in photos ==> photos[id].id == id)
    }

    constructor (hash: string -> string, isValidId: ObjectId -> bool, users: map<string, User>, photos: map<ObjectId, Photo>)
      requires forall name :: name in users ==> users[name].login_name == name
      requires forall id :: id in photos ==> photos[id].id == id
      ensures Valid()
      ensures this.hash == hash && this.isValidId == isValidId
      ensures this.users == users && this.photos == photos && session == None
    {
      this.hash := hash;
      this.isValidId := isValidId;
      this.users := users;
      this.photos := photos;
      session := None;
    }

    /** The global middleware's verdict on a request for `path` in the current session. */
    function Admits(path: string): Verdict
      reads this
    {
      GlobalGate(path, session.Some?)
    }

    /** POST /user. */
    method Register(req: Registration, random: seq<Byte>, newId: ObjectId) returns (resp: Response)
      requires Valid()
      requires |random| == SaltBytes
      modifies this`users
      ensures Valid()
      ensures !RegistrationComplete(req) ==>
                resp == Response(400, Text("Missing required fields")) && users == old(users)
      ensures RegistrationComplete(req) && req.login_name.value in old(users) ==>
                resp == Response(400, Text("Login name already exists")) && users == old(users)
      ensures RegistrationComplete(req) && req.login_name.value !in old(users) ==>
                resp == Response(200, Registered(req.login_name.value)) &&
                users == old(users)[req.login_name.value := NewUser(newId, req, MakePasswordEntry(hash, req.password.value, random))]
    {
      if !RegistrationComplete(req) {
        return Response(400, Text("Missing required fields"));
      }
      var name := req.login_name.value;
      if name in users {
        return Response(400, Text("Login name already exists"));
      }
      var entry := MakePasswordEntry(hash, req.password.value, random);
      users := users[name := NewUser(newId, req, entry)];
      resp := Response(200, Registered(name));
    }

    /** POST /admin/login: an unknown name and a wrong password give the same answer. */
    method Login(loginName: Option<string>, password: Option<string>) returns (resp: Response)
      requires Valid()
      modifies this`session
      ensures Valid()
      ensures !Present(loginName) || !Present(password) ==>
                resp == Response(400, Text("Missing login name or password")) && session == old(session)
      ensures Present(loginName) && Present(password) && loginName.value !in users ==>
                resp == InvalidCredentials && session == old(session)
      ensures Present(loginName) && Present(password) && loginName.value in users &&
              !Authenticates(hash, users[loginName.value], password.value) ==>
                resp == InvalidCredentials && session == old(session)
      ensures Present(loginName) && Present(password) && loginName.value in users &&
              Authenticates(hash, users[loginName.value], password.value) ==>
                session == Some(users[loginName.value]) && session.value.login_name == loginName.value &&
                resp == Response(200, Identity(users[loginName.value].id, users[loginName.value].first_name))
      ensures resp.status == 200 ==> forall path :: Admits(path) == Next
    {
      if !Present(loginName) || !Present(password) {
        return Response(400, Text("Missing login name or password"));
      }
      var name := loginName.value;
      if name !in users || !DoesPasswordMatch(hash, users[name].password_digest, users[name].salt, password.value) {
        return InvalidCredentials;
      }
      var user := users[name];
      session := Some(user);
      resp := Response(200, Identity(user.id, user.first_name));
    }

    /**
     * POST /admin/logout: destroys the session and clears its cookie. The path is
     * off the allow-list, so without a session user the global middleware answers
     * 401 first (Gate.LogoutIsGated) and the handler's 400 branch is never reached.
     */
    method Logout() returns (resp: Response)
      requires Valid()
      modifies this`session
      ensures Valid()
      ensures old(session).None? ==> resp == Response(400, Text("No user currently logged in"))
      ensures old(session).Some? ==> resp == Response(200, SessionEnded(SessionCookie))
      ensures session == None
      ensures forall path :: Admits(path) == Next <==> path in AllowedPaths
    {
      if session.None? {
        return Response(400, Text("No user currently logged in"));
      }
      session := None;
      resp := Response(200, SessionEnded(SessionCookie));
    }

    /**
     * POST /commentsOfPhoto/:photo_id. The session user is read only after the
     * photo is found and inside the handler's try block, so without one the
     * handler answers 500; behind the global middleware that cannot happen
     * (Gate.PassedGateHasUser).
     */
    method AddComment(photoId: ObjectId, comment: Option<string>, newCommentId: ObjectId, now: int)
      returns (resp: Response)
      requires Valid()
      modifies this`photos
      ensures Valid()
      ensures !Present(comment) ==>
                resp == Response(400, Text("Comment cannot be empty")) && photos == old(photos)
      ensures Present(comment) && !isValidId(photoId) ==>
                resp == InternalError && photos == old(photos)
      ensures Present(comment) && isValidId(photoId) && photoId !in old(photos) ==>
                resp == Response(404, Text("Photo not found")) && photos == old(photos)
      ensures Present(comment) && isValidId(photoId) && photoId in old(photos) && session.None? ==>
                resp == InternalError && photos == old(photos)
      ensures Present(comment) && isValidId(photoId) && photoId in old(photos) && session.Some? ==>
                resp == Response(200, Text("Comment added successfully")) &&
                photos == old(photos)[photoId := AppendComment(old(photos)[photoId],
                                                               Comment(newCommentId, comment.value, now, session.value.id))]
    {
      if !Present(comment) {
        return Response(400, Text("Comment cannot be empty"));
      }
      if !isValidId(photoId) {
        return InternalError;
      }
      if photoId !in photos {
        return Response(404, Text("Photo not found"));
      }
      if session.None? {
        return InternalError;
      }
      var photo := photos[photoId];
      var newComment := Comment(newCommentId, comment.value, now, session.value.id);
      photos := photos[photoId := AppendComment(photo, newComment)];
      resp := Response(200, Text("Comment added successfully"));
    }
  }

  // ---------------------------------------------------------------------------
  // Client scenarios over the handlers
  // ---------------------------------------------------------------------------

  /** A user who has just registered can log in with the same password, and the session then holds that user. */
  method RegisterThenLogin(app: App, req: Registration, random: seq<Byte>, newId: ObjectId)
    returns (registered: Response, loggedIn: Response)
    requires app.Valid() && |random| == SaltBytes
    requires RegistrationComplete(req) && req.login_name.value !in app.users
    modifies app`users, app`session
    ensures registered == Response(200, Registered(req.login_name.value))
    ensures loggedIn == Response(200, Identity(newId, req.first_name.value))
    ensures app.session.Some? && app.session.value.login_name == req.login_name.value
  {
    registered := app.Register(req, random, newId);
    RoundTrip(app.hash, req.password.value, random);
    loggedIn := app.Login(req.login_name, req.password);
  }

  /** Under an injective digest, any other password is refused right after registration, and the session is left alone. */
  method RegisterThenWrongPassword(app: App, req: Registration, random: seq<Byte>, newId: ObjectId, other: string)
    returns (registered: Response, refused: Response)
    requires app.Valid() && |random| == SaltBytes && Injective(app.hash)
    requires RegistrationComplete(req) && req.login_name.value !in app.users
    requires other != "" && other != req.password.value
    modifies app`users, app`session
    ensures registered == Response(200, Registered(req.login_name.value))
    ensures refused == InvalidCredentials
    ensures app.session == old(app.session)
  {
    registered := app.Register(req, random, newId);
    WrongPasswordRejected(app.hash, req.password.value, other, random);
    refused := app.Login(req.login_name, Some(other));
  }

  // ---------------------------------------------------------------------------
  // GET /test/:p1
  // ---------------------------------------------------------------------------

  /** One entry of the `collections` array once its count has been filled in. */
  datatype Collection = Collection(name: string, count: nat)

  /** No entry in cs[k+1..end] has the name of cs[k]. */
  predicate LastOfNameBefore(cs: seq<Collection>, k: nat, end: nat)
    requires k < end <= |cs|
  {
    forall j :: k < j < end ==> cs[j].name != cs[k].name
  }

  /** The `for` loop that copies each collection's count into `obj` under its name; a later name overwrites. */
  method CountsObject(cs: seq<Collection>) returns (obj: map<string, nat>)
    ensures forall k :: 0 <= k < |cs| ==> cs[k].name in obj
    ensures forall name :: name in obj ==> exists k :: 0 <= k < |cs| && cs[k].name == name
    ensures forall k :: 0 <= k < |cs| && LastOfNameBefore(cs, k, |cs|) ==> obj[cs[k].name] == cs[k].count
  {
    obj := map[];
    var i := 0;
    while i < |cs|
      invariant 0 <= i <= |cs|
      invariant forall k :: 0 <= k < i ==> cs[k].name in obj
      invariant forall name :: name in obj ==> exists k :: 0 <= k < i && cs[k].name == name
      invariant forall k :: 0 <= k < i && LastOfNameBefore(cs, k, i) ==> obj[cs[k].name] == cs[k].count
    {
      obj := obj[cs[i].name := cs[i].count];
      i := i + 1;
    }
  }

  /** request.params.p1 || "info". */
  function Param(p1: Option<string>): string
  {
    if Present(p1) then p1.value else "info"
  }

  /** GET /test/:p1 behind requireLogin; the three counts are what countDocuments answered. */
  method TestInfo(hasUser: bool, p1: Option<string>, infos: seq<SchemaInfo>,
                  userCount: nat, photoCount: nat, schemaInfoCount: nat) returns (resp: Response)
    ensures !hasUser ==> resp == Unauthorized401
    ensures hasUser && Param(p1) == "info" && infos == [] ==> resp == Response(500, Text("Missing SchemaInfo"))
    ensures hasUser && Param(p1) == "info" && infos != [] ==> resp == Response(200, Info(infos[0]))
    ensures hasUser && Param(p1) == "counts" ==>
              resp.status == 200 && resp.body.Counts? &&
              resp.body.counts.Keys == {"user", "photo", "schemaInfo"} &&
              resp.body.counts["user"] == userCount && resp.body.counts["photo"] == photoCount &&
              resp.body.counts["schemaInfo"] == schemaInfoCount
    ensures hasUser && Param(p1) != "info" && Param(p1) != "counts" ==>
              resp == Response(400, Text("Bad param " + Param(p1)))
  {
    // requireLogin does not look at the path (Gate.RequireLoginIgnoresPath), so the route pattern stands for it.
    if RequireLogin("/test/:p1", hasUser) == Unauthorized {
      return Unauthorized401;
    }
    var param := Param(p1);
    if param == "info" {
      if infos == [] {
        return Response(500, Text("Missing SchemaInfo"));
      }
      return Response(200, Info(infos[0]));
    } else if param == "counts" {
      var cs := [Collection("user", userCount), Collection("photo", photoCount), Collection("schemaInfo", schemaInfoCount)];
      var obj := CountsObject(cs);
      assert LastOfNameBefore(cs, 0, 3) && LastOfNameBefore(cs, 1, 3) && LastOfNameBefore(cs, 2, 3);
      assert obj.Keys == {"user", "photo", "schemaInfo"} by {
        assert cs[0].name == "user" && cs[1].name == "photo" && cs[2].name == "schemaInfo";
      }
      return Response(200, Counts(obj));
    } else {
      return Response(400, Text("Bad param " + param));
    }
  }

  // ---------------------------------------------------------------------------
  // GET handlers over the result of the store's query
  // ---------------------------------------------------------------------------

  /** GET /user/photoUsage/:id, given the photos the store found for that user. */
  function PhotoUsageHandler(isValidId: ObjectId -> bool, userId: ObjectId, photos: seq<Photo>): (r: Response)
    ensures !isValidId(userId) ==> r == Response(400, Message("Invalid user ID format"))
    ensures isValidId(userId) && photos == [] ==> r == Response(404, Message("No photos found for this user"))
    ensures isValidId(userId) && photos != [] ==> r.status == 200 && r.body == UsageReport(PhotoUsage(photos).value)
  {
    if !isValidId(userId) then Response(400, Message("Invalid user ID format"))
    else match PhotoUsage(photos)
      case None => Response(404, Message("No photos found for this user"))
      case Some(usage) => Response(200, UsageReport(usage))
  }

  /** GET /photosOfUser/:id, given the photos the store found and the authors populate found. */
  function PhotosOfUserHandler(isValidId: ObjectId -> bool, userId: ObjectId, photos: seq<Photo>,
                               authors: map<ObjectId, UserName>): (r: Response)
    ensures !isValidId(userId) ==> r == Response(400, Message("Invalid user ID format"))
    ensures isValidId(userId) && photos == [] ==> r == Response(400, Message("No photos found for this user"))
    ensures isValidId(userId) && photos != [] ==> r == Response(200, PhotoList(FormatPhotos(authors, photos)))
  {
    if !isValidId(userId) then Response(400, Message("Invalid user ID format"))
    else if photos == [] then Response(400, Message("No photos found for this user"))
    else Response(200, PhotoList(FormatPhotos(authors, photos)))
  }
}
