/**
 * The user and session handlers.  Each handler is specified by a function giving its outcome
 * and the user collection it leaves (`...Outcome`), and implemented by a method of
 * `UserCollection` that loads, checks, assigns and saves as the handler does.
 *
 * Collection queries: a `findOne` filter value passes through the schema's setters before it
 * is compared (so username and email are compared after trimming and lowercasing), an
 * `undefined` filter value matches no stored user, and when several records match, the one with
 * the least id (the collection's natural order) is returned.
 */
module UserController {
  import opened Common
  import opened JsText
  import opened Bcrypt
  import opened Jwt
  import opened Storage
  import opened UserModel

  /** The outcome of a handler together with the user collection it leaves behind. */
  datatype Step<T> = Step(result: Result<T>, users: map<UserId, User>)

  // ----- Queries on the collection -----

  lemma {:induction false} LeastExists(s: set<nat>)
    requires s != {}
    ensures exists m :: m in s && forall k :: k in s ==> m <= k
    decreases |s|
  {
    var x :| x in s;
    var rest := s - {x};
    assert s == rest + {x};
    if rest == {} {
      LeastOfInsert(rest, x, x);
    } else {
      assert |rest| < |s|;
      LeastExists(rest);
      var m :| m in rest && forall k :: k in rest ==> m <= k;
      LeastOfInsert(rest, x, m);
    }
  }

  /** Adding `x` to a set whose least element is `m` (or to the empty set, with `m == x`). */
  lemma LeastOfInsert(rest: set<nat>, x: nat, m: nat)
    requires (rest == {} && m == x) || (m in rest && forall k :: k in rest ==> m <= k)
    ensures var w := if x < m then x else m;
      w in rest + {x} && forall k :: k in rest + {x} ==> w <= k
  {
  }

  /** The least element of a non-empty set of ids. */
  function Least(s: set<nat>): (m: nat)
    requires s != {}
    ensures m in s && forall k :: k in s ==> m <= k
  {
    LeastExists(s);
    var m :| m in s && forall k :: k in s ==> m <= k;
    m
  }

  /** The filter `{$or: [{username}, {email}]}`. */
  datatype KeyFilter = KeyFilter(username: Option<string>, email: Option<string>)

  predicate Matches(u: User, f: KeyFilter) {
    || (f.username.Some? && u.username == NormalizeKey(f.username.value))
    || (f.email.Some? && u.email == NormalizeKey(f.email.value))
  }

  /** `User.findOne(f)`. */
  function FindOne(users: map<UserId, User>, f: KeyFilter): (r: Option<UserId>)
    ensures r.None? <==> forall id :: id in users ==> !Matches(users[id], f)
    ensures r.Some? ==> r.value in users && Matches(users[r.value], f)
    ensures r.Some? ==> forall id :: id in users && Matches(users[id], f) ==> r.value <= id
  {
    var hits := set id | id in users && Matches(users[id], f);
    if hits == {} then
      assert forall id :: id in users ==> !Matches(users[id], f) by {
        forall id | id in users
          ensures !Matches(users[id], f)
        {
          assert id !in hits;
        }
      }
      None
    else
      var m := Least(hits);
      assert forall id :: id in users && Matches(users[id], f) ==> m <= id by {
        forall id | id in users && Matches(users[id], f)
          ensures m <= id
        {
          assert id in hits;
        }
      }
      Some(m)
  }

  /** What the unique indexes on username and email guarantee, and what the setters leave. */
  ghost predicate KeysUnique(users: map<UserId, User>) {
    forall a, b :: a in users && b in users && a != b ==>
      users[a].username != users[b].username && users[a].email != users[b].email
  }

  ghost predicate KeysNormalized(users: map<UserId, User>) {
    forall id :: id in users ==> users[id].username != [] && IsKey(users[id].username) && IsKey(users[id].email)
  }

  ghost predicate CollectionInvariant(users: map<UserId, User>) {
    KeysUnique(users) && KeysNormalized(users)
  }

  // ----- generateAccessAndRefreshTokens -----

  datatype TokenPair = TokenPair(accessToken: string, refreshToken: string)

  const TokenFailure := "Something went wrong while generating refresh and access token"

  /** `generateAccessAndRefreshTokens(id)` at second `now`: a missing user is an internal
      error; otherwise a fresh pair is issued and the refresh token replaces whatever token the
      user had stored. */
  function IssueTokens(users: map<UserId, User>, id: UserId, now: nat): (s: Step<TokenPair>)
    ensures id !in users ==> s == Step(Err(InternalError, TokenFailure), users)
    ensures id in users ==> s.result.Ok?
    ensures id in users ==>
      s.users == users[id := users[id].(refreshToken := Some(s.result.value.refreshToken))]
    ensures id in users ==>
      && Verify(s.result.value.refreshToken, RefreshSecret) == Some(Claims(id, None))
      && IssuedAt(s.result.value.refreshToken) == Some(now)
      && Verify(s.result.value.accessToken, AccessSecret)
         == Some(Claims(id, Some(Profile(users[id].email, users[id].username, users[id].fullName))))
  {
    if id !in users then Step(Err(InternalError, TokenFailure), users)
    else
      var u := users[id];
      var pair := TokenPair(GenerateAccessToken(id, u, now), GenerateRefreshToken(id, now));
      Step(Ok(pair), users[id := u.(refreshToken := Some(pair.refreshToken))])
  }

  // ----- registerUser -----

  datatype RegisterForm = RegisterForm(
    fullName: Option<string>, email: Option<string>, username: Option<string>, password: Option<string>)

  /** `req.files` as the upload middleware leaves it: the local path of the avatar and of the
      cover image, when each was sent. */
  datatype RegisterFiles = RegisterFiles(avatar: Option<string>, coverImage: Option<string>)

  predicate AnyBlank(f: RegisterForm) {
    BlankGiven(f.fullName) || BlankGiven(f.email) || BlankGiven(f.username) || BlankGiven(f.password)
  }

  const AllFieldsRequired := "All fields are required!"
  const UserExists := "User with email or username already exists"
  const AvatarRequired := "Avatar file is required"

  function RegisterFilter(f: RegisterForm): KeyFilter {
    KeyFilter(f.username, f.email)
  }

  /** The checks both versions of the handler make first: blank fields, an existing user with
      the same username or email, and reading the avatar path (`req.files.avatar[0]` throws when
      files were sent without an avatar).  Gives the avatar path. */
  function RegisterChecks(users: map<UserId, User>, form: RegisterForm, files: Option<RegisterFiles>)
    : (r: Result<Option<string>>)
    ensures r == Err(400, AllFieldsRequired) <==> AnyBlank(form)
    ensures !AnyBlank(form) && FindOne(users, RegisterFilter(form)).Some? ==> r == Err(409, UserExists)
    ensures r.Ok? <==>
      !AnyBlank(form) && FindOne(users, RegisterFilter(form)).None? && (files.None? || files.value.avatar.Some?)
    ensures r.Err? && r.status == InternalError ==> files.Some? && files.value.avatar.None?
    ensures r.Ok? ==> r.value == (if files.Some? then files.value.avatar else None)
  {
    if AnyBlank(form) then Err(400, AllFieldsRequired)
    else if FindOne(users, RegisterFilter(form)).Some? then Err(409, UserExists)
    else if files.Some? && files.value.avatar.None? then
      Err(InternalError, "Cannot read properties of undefined (reading '0')")
    else Ok(if files.Some? then files.value.avatar else None)
  }

  /** `registerUser` as written: `coverImageLocalPath` is never declared, so assigning it (when a
      cover image was sent) or reading it (right after the avatar upload) throws a
      ReferenceError, and no user is ever created. */
  function RegisterAsWritten(users: map<UserId, User>, form: RegisterForm, files: Option<RegisterFiles>)
    : (r: Result<PublicUser>)
    ensures r.Err?
    ensures (!AnyBlank(form) && FindOne(users, RegisterFilter(form)).None? && files.Some?
             && Truthy(files.value.avatar)) ==> r.status == InternalError
  {
    match RegisterChecks(users, form, files)
    case Err(st, m) => Err(st, m)
    case Ok(avatarPath) =>
      if files.Some? && files.value.coverImage.Some? then
        Err(InternalError, "coverImageLocalPath is not defined")
      else if !Truthy(avatarPath) then Err(400, AvatarRequired)
      else Err(InternalError, "coverImageLocalPath is not defined")
  }

  /** `registerUser` with `coverImageLocalPath` declared: the avatar and cover image are uploaded
      (the provider's answers are parameters), the user is created under the fresh id `newId` with
      its password hashed with `salt`, and returned without password and refresh token. */
  function RegisterOutcome(
    users: map<UserId, User>, form: RegisterForm, files: Option<RegisterFiles>,
    avatarResponse: Option<Upload>, coverResponse: Option<Upload>, newId: UserId, salt: nat)
    : (s: Step<PublicUser>)
    requires newId !in users
    ensures AnyBlank(form) ==> s == Step(Err(400, AllFieldsRequired), users)
    ensures !AnyBlank(form) && FindOne(users, RegisterFilter(form)).Some? ==> s == Step(Err(409, UserExists), users)
    ensures s.result.Err? ==> s.users == users
    ensures s.result.Ok? ==> forall id :: id in users ==> !Matches(users[id], RegisterFilter(form))
    ensures s.result.Ok? ==>
      && form.username.Some? && form.email.Some? && form.fullName.Some? && form.password.Some?
      && newId in s.users && s.users == users[newId := s.users[newId]]
      && s.users[newId].username == NormalizeKey(form.username.value)
      && s.users[newId].email == NormalizeKey(form.email.value)
      && s.users[newId].fullName == Trim(form.fullName.value)
      && Compare(form.password.value, s.users[newId].password)
      && s.users[newId].refreshToken == None
      && s.users[newId].watchHistory == []
      && s.result.value == Sanitize(newId, s.users[newId])
    ensures s.result.Ok? ==>
      && files.Some? && Truthy(files.value.avatar) && avatarResponse.Some?
      && s.users[newId].avatar == avatarResponse.value.url
      && s.users[newId].coverImage
         == Some(if Truthy(files.value.coverImage) && coverResponse.Some? then coverResponse.value.url else "")
    ensures !AnyBlank(form) && FindOne(users, RegisterFilter(form)).None?
            && (files.None? || (files.value.avatar.Some? && !Truthy(files.value.avatar))) ==>
      s == Step(Err(400, AvatarRequired), users)
    ensures !AnyBlank(form) && FindOne(users, RegisterFilter(form)).None?
            && files.Some? && Truthy(files.value.avatar) && avatarResponse.None? ==>
      s == Step(Err(400, AvatarRequired), users)
  {
    match RegisterChecks(users, form, files)
    case Err(st, m) => Step(Err(st, m), users)
    case Ok(avatarPath) =>
      var coverPath := if files.Some? then files.value.coverImage else None;
      if !Truthy(avatarPath) then Step(Err(400, AvatarRequired), users)
      else
        var avatar := UploadOnCloudinary(avatarPath, avatarResponse);
        var cover := UploadOnCloudinary(coverPath, coverResponse);
        if avatar.None? then Step(Err(400, AvatarRequired), users)
        else if form.username.None? then
          Step(Err(InternalError, "Cannot read properties of undefined (reading 'toLowerCase')"), users)
        else
          var coverUrl := if cover.Some? && cover.value.url != "" then cover.value.url else "";
          var draft := NewUser(form.fullName, Some(avatar.value.url), Some(coverUrl), form.email,
                               form.password, Some(Lower(form.username.value)));
          NormalizeKeyOfLower(form.username.value);
          match CreateUser(draft, salt)
          case Err(st, m) => Step(Err(st, m), users)
          case Ok(u) => Step(Ok(Sanitize(newId, u)), users[newId := u])
  }

  lemma NormalizeKeyOfLower(s: string)
    ensures NormalizeKey(Lower(s)) == NormalizeKey(s)
  {
    TrimCommutesWithLower(s);
    LowerIdempotent(Trim(s));
  }

  // ----- loginUser -----

  datatype LoginForm = LoginForm(email: Option<string>, username: Option<string>, password: Option<string>)

  /** The response of a successful login: the user without secrets, and both tokens. */
  datatype Session = Session(user: PublicUser, accessToken: string, refreshToken: string)

  function LoginFilter(f: LoginForm): KeyFilter {
    KeyFilter(f.username, f.email)
  }

  /** `loginUser` at second `now`. */
  function LoginOutcome(users: map<UserId, User>, form: LoginForm, now: nat): (s: Step<Session>)
    ensures !Truthy(form.username) && !Truthy(form.email) ==>
      s == Step(Err(400, "username or email is required"), users)
    ensures (Truthy(form.username) || Truthy(form.email)) && FindOne(users, LoginFilter(form)).None? ==>
      s == Step(Err(404, "User does not exist"), users)
    ensures (Truthy(form.username) || Truthy(form.email)) && FindOne(users, LoginFilter(form)).Some?
            && form.password.Some?
            && !Compare(form.password.value, users[FindOne(users, LoginFilter(form)).value].password) ==>
      s == Step(Err(401, "Invalid user credentials"), users)
    ensures s.result.Err? ==> s.users == users
    ensures s.result.Ok? ==>
      && FindOne(users, LoginFilter(form)).Some?
      && var id := FindOne(users, LoginFilter(form)).value;
      && form.password.Some? && Compare(form.password.value, users[id].password)
      && s.result.value.user == Sanitize(id, users[id])
      && s.users == users[id := users[id].(refreshToken := Some(s.result.value.refreshToken))]
      && Verify(s.result.value.refreshToken, RefreshSecret) == Some(Claims(id, None))
      && IssuedAt(s.result.value.refreshToken) == Some(now)
      && Verify(s.result.value.accessToken, AccessSecret).Some?
      && Verify(s.result.value.accessToken, AccessSecret).value.id == id
  {
    if !Truthy(form.username) && !Truthy(form.email) then Step(Err(400, "username or email is required"), users)
    else match FindOne(users, LoginFilter(form))
      case None => Step(Err(404, "User does not exist"), users)
      case Some(id) =>
        match IsPasswordCorrect(users[id], form.password)
        case Err(st, m) => Step(Err(st, m), users)
        case Ok(valid) =>
          if !valid then Step(Err(401, "Invalid user credentials"), users)
          else
            var issued := IssueTokens(users, id, now);
            var pair := issued.result.value;
            Step(Ok(Session(Sanitize(id, issued.users[id]), pair.accessToken, pair.refreshToken)), issued.users)
  }

  /** The converse of the error cases of `LoginOutcome`: a request naming a stored user with
      that user's password logs in. */
  lemma LoginAccepts(users: map<UserId, User>, form: LoginForm, now: nat)
    requires Truthy(form.username) || Truthy(form.email)
    requires FindOne(users, LoginFilter(form)).Some?
    requires form.password.Some?
    requires Compare(form.password.value, users[FindOne(users, LoginFilter(form)).value].password)
    ensures LoginOutcome(users, form, now).result.Ok?
  {
    var id := FindOne(users, LoginFilter(form)).value;
    assert IsPasswordCorrect(users[id], form.password) == Ok(true);
  }

  // ----- logoutUser -----

  /** `logoutUser` for the user the access-token middleware attached (`None` when it attached
      `null`, in which case reading `req.user._id` throws): `$unset` removes the caller's refresh
      token and nothing else. */
  function LogoutOutcome(users: map<UserId, User>, requester: Option<UserId>): (s: Step<()>)
    ensures requester.None? ==> s.result.Err? && s.result.status == InternalError && s.users == users
    ensures requester.Some? ==> s.result.Ok?
    ensures s.users.Keys == users.Keys
    ensures forall id :: id in users ==>
      s.users[id] == if requester == Some(id) then users[id].(refreshToken := None) else users[id]
  {
    if requester.None? then Step(Err(InternalError, "Cannot read properties of null (reading '_id')"), users)
    else if requester.value !in users then Step(Ok(()), users)
    else
      var id := requester.value;
      Step(Ok(()), users[id := users[id].(refreshToken := None)])
  }

  // ----- refreshAccessToken -----

  /** Where the handler looks for the incoming refresh token. */
  datatype RefreshForm = RefreshForm(cookie: Option<string>, body: Option<string>)

  /** `req.cookies.refreshToken || req.body.refreshToken`. */
  function IncomingRefreshToken(f: RefreshForm): (r: Option<string>)
    ensures Truthy(f.cookie) ==> r == f.cookie
    ensures !Truthy(f.cookie) ==> r == f.body
  {
    if Truthy(f.cookie) then f.cookie else f.body
  }

  /** The checks of `refreshAccessToken`: the token must be present, verify under the refresh
      secret, name a stored user and equal the token stored for that user.  Every failure is
      reported as 401.  Gives the user's id. */
  function RefreshCheck(users: map<UserId, User>, incoming: Option<string>): (r: Result<UserId>)
    ensures r.Err? ==> r.status == 401
    ensures r.Ok? <==>
      && Truthy(incoming)
      && Verify(incoming.value, RefreshSecret).Some?
      && Verify(incoming.value, RefreshSecret).value.id in users
      && users[Verify(incoming.value, RefreshSecret).value.id].refreshToken == incoming
    ensures r.Ok? ==> r.value == Verify(incoming.value, RefreshSecret).value.id
  {
    if !Truthy(incoming) then Err(401, "Unauthorized request")
    else match Verify(incoming.value, RefreshSecret)
      case None => Err(401, "invalid token")
      case Some(claims) =>
        if claims.id !in users then Err(401, "Unauthorized request")
        else if users[claims.id].refreshToken != incoming then Err(401, "Refresh token is expired or used")
        else Ok(claims.id)
  }

  /** The checks followed by the rotation: a new pair is issued and stored. */
  function RotateOutcome(users: map<UserId, User>, form: RefreshForm, now: nat): (s: Step<TokenPair>)
    ensures s.result.Err? ==> s.result.status == 401 && s.users == users
    ensures s.result.Ok? <==> RefreshCheck(users, IncomingRefreshToken(form)).Ok?
    ensures s.result.Ok? ==>
      var id := RefreshCheck(users, IncomingRefreshToken(form)).value;
      s == IssueTokens(users, id, now)
  {
    match RefreshCheck(users, IncomingRefreshToken(form))
    case Err(st, m) => Step(Err(st, m), users)
    case Ok(id) => IssueTokens(users, id, now)
  }

  /** The tokens the response carries (in its body and its cookies). */
  datatype Refreshed = Refreshed(accessToken: string, refreshToken: Option<string>, refreshCookie: string)

  /** The response as written: `newRefreshToken` is not a property of the pair, so the body's
      refresh token is `undefined` and the refresh cookie is set to the string "undefined". */
  function RefreshResponseAsWritten(pair: TokenPair): (r: Refreshed)
    ensures r.accessToken == pair.accessToken
    ensures r.refreshToken.None? && r.refreshCookie == "undefined"
  {
    Refreshed(pair.accessToken, None, "undefined")
  }

  /** The response with the new refresh token in body and cookie. */
  function RefreshResponse(pair: TokenPair): (r: Refreshed)
    ensures r.accessToken == pair.accessToken
    ensures r.refreshToken == Some(pair.refreshToken) && r.refreshCookie == pair.refreshToken
  {
    Refreshed(pair.accessToken, Some(pair.refreshToken), pair.refreshToken)
  }

  function RefreshAsWritten(users: map<UserId, User>, form: RefreshForm, now: nat): (s: Step<Refreshed>)
    ensures s.users == RotateOutcome(users, form, now).users
    ensures s.result.Ok? <==> RotateOutcome(users, form, now).result.Ok?
    ensures s.result.Ok? ==> s.result.value.refreshToken.None?
  {
    var rotated := RotateOutcome(users, form, now);
    match rotated.result
    case Err(st, m) => Step(Err(st, m), rotated.users)
    case Ok(pair) => Step(Ok(RefreshResponseAsWritten(pair)), rotated.users)
  }

  /** `refreshAccessToken` at second `now`, returning the rotated refresh token. */
  function RefreshOutcome(users: map<UserId, User>, form: RefreshForm, now: nat): (s: Step<Refreshed>)
    ensures s.result.Err? ==> s.result.status == 401 && s.users == users
    ensures s.result.Ok? <==> RefreshCheck(users, IncomingRefreshToken(form)).Ok?
    ensures s.result.Ok? ==>
      var id := RefreshCheck(users, IncomingRefreshToken(form)).value;
      && s.users == users[id := users[id].(refreshToken := s.result.value.refreshToken)]
      && s.result.value.refreshToken.Some?
      && s.result.value.refreshCookie == s.result.value.refreshToken.value
      && Verify(s.result.value.refreshToken.value, RefreshSecret) == Some(Claims(id, None))
      && IssuedAt(s.result.value.refreshToken.value) == Some(now)
  {
    var rotated := RotateOutcome(users, form, now);
    match rotated.result
    case Err(st, m) => Step(Err(st, m), rotated.users)
    case Ok(pair) => Step(Ok(RefreshResponse(pair)), rotated.users)
  }

  // ----- changeCurrentPassword -----

  /** `changeCurrentPassword`: the old password must compare; the new one is assigned and the
      save re-hashes it with `salt`. */
  function ChangePasswordOutcome(
    users: map<UserId, User>, requester: Option<UserId>, oldPassword: Option<string>,
    newPassword: Option<string>, salt: nat)
    : (s: Step<()>)
    ensures s.result.Ok? <==>
      && requester.Some? && requester.value in users
      && oldPassword.Some? && Compare(oldPassword.value, users[requester.value].password)
      && newPassword.Some?
    ensures requester.Some? && requester.value in users && oldPassword.Some?
            && !Compare(oldPassword.value, users[requester.value].password) ==>
      s == Step(Err(400, "Invalid old password"), users)
    ensures s.result.Err? ==> s.users == users
    ensures s.result.Ok? ==>
      var id := requester.value;
      && id in users && id in s.users
      && s.users == users[id := users[id].(password := s.users[id].password)]
      && forall q :: Compare(q, s.users[id].password) <==> q == newPassword.value
  {
    if requester.None? || requester.value !in users then
      Step(Err(InternalError, "Cannot read properties of null (reading 'isPasswordCorrect')"), users)
    else
      var id := requester.value;
      match IsPasswordCorrect(users[id], oldPassword)
      case Err(st, m) => Step(Err(st, m), users)
      case Ok(valid) =>
        if !valid then Step(Err(400, "Invalid old password"), users)
        else match Rehash(Assigned(newPassword), salt)
          case Err(st, m) => Step(Err(st, m), users)
          case Ok(h) => Step(Ok(()), users[id := users[id].(password := h)])
  }

  // ----- updateAccountDetails -----

  /** `updateAccountDetails`: both fields are required; `$set` runs the setters; the unique
      index on email refuses an email another user has; an id matching no record gives `null`. */
  function UpdateAccountOutcome(
    users: map<UserId, User>, requester: Option<UserId>, fullName: Option<string>, email: Option<string>)
    : (s: Step<Option<AccountView>>)
    ensures !Truthy(fullName) || !Truthy(email) ==> s == Step(Err(400, "All fields are required"), users)
    ensures s.result.Err? ==> s.users == users
    ensures s.result == Ok(None) ==> s.users == users
    ensures s.result.Ok? && s.result.value.Some? ==>
      && requester.Some? && requester.value in users
      && var id := requester.value;
      && s.users == users[id := users[id].(fullName := Trim(fullName.value), email := NormalizeKey(email.value))]
      && s.result.value.value == WithoutPassword(id, s.users[id])
    ensures Truthy(fullName) && Truthy(email) && requester.Some? && requester.value in users ==>
      (s.result.Ok? <==> forall other :: other in users && other != requester.value ==>
                           users[other].email != NormalizeKey(email.value))
    ensures s.result == Ok(None) <==> Truthy(fullName) && Truthy(email) && (requester.None? || requester.value !in users)
    ensures Truthy(fullName) && Truthy(email) && s.result.Err? ==> s.result.status == InternalError
  {
    if !Truthy(fullName) || !Truthy(email) then Step(Err(400, "All fields are required"), users)
    else if requester.None? || requester.value !in users then Step(Ok(None), users)
    else
      var id := requester.value;
      var newEmail := NormalizeKey(email.value);
      if exists other :: other in users && other != id && users[other].email == newEmail then
        Step(Err(InternalError, "E11000 duplicate key error"), users)
      else
        var u := users[id].(fullName := Trim(fullName.value), email := newEmail);
        Step(Ok(Some(WithoutPassword(id, u))), users[id := u])
  }

  // ----- updateUserAvatar / updateUserCoverImage -----

  datatype ImageField = AvatarField | CoverImageField

  function WithImage(u: User, field: ImageField, url: string): User {
    match field
    case AvatarField => u.(avatar := url)
    case CoverImageField => u.(coverImage := Some(url))
  }

  /** The shared shape of the two image handlers: the file must be present, the upload's answer
      is read without a null check (so a failed upload throws), an empty URL is refused, and the
      new URL is `$set` on the caller's record. */
  function UpdateImageOutcome(
    users: map<UserId, User>, requester: Option<UserId>, field: ImageField, localPath: Option<string>,
    response: Option<Upload>, missing: string)
    : (s: Step<Option<AccountView>>)
    ensures !Truthy(localPath) ==> s == Step(Err(400, missing), users)
    ensures Truthy(localPath) && response.None? ==> s.result.Err? && s.result.status == InternalError
    ensures s.result.Err? || s.result == Ok(None) ==> s.users == users
    ensures s.result.Ok? && s.result.value.Some? ==>
      && requester.Some? && requester.value in users && response.Some? && response.value.url != ""
      && s.users == users[requester.value := WithImage(users[requester.value], field, response.value.url)]
      && s.result.value.value == WithoutPassword(requester.value, s.users[requester.value])
    ensures Truthy(localPath) && response.Some? && response.value.url == "" ==>
      s == Step(Err(400, "Error while uploading on cloudinary"), users)
    ensures Truthy(localPath) && response.Some? && response.value.url != "" ==>
      (s.result.Ok? && (s.result.value.Some? <==> requester.Some? && requester.value in users))
  {
    if !Truthy(localPath) then Step(Err(400, missing), users)
    else
      var upload := UploadOnCloudinary(localPath, response);
      if upload.None? then Step(Err(InternalError, "Cannot read properties of null (reading 'url')"), users)
      else if upload.value.url == "" then Step(Err(400, "Error while uploading on cloudinary"), users)
      else if requester.None? || requester.value !in users then Step(Ok(None), users)
      else
        var id := requester.value;
        var u := WithImage(users[id], field, upload.value.url);
        Step(Ok(Some(WithoutPassword(id, u))), users[id := u])
  }

  function UpdateAvatarOutcome(
    users: map<UserId, User>, requester: Option<UserId>, localPath: Option<string>, response: Option<Upload>)
    : (s: Step<Option<AccountView>>)
    ensures !Truthy(localPath) ==> s == Step(Err(400, "Avatar is missing"), users)
    ensures Truthy(localPath) && response.None? ==> s.result.Err? && s.result.status == InternalError
    ensures Truthy(localPath) && response.Some? && response.value.url == "" ==>
      s == Step(Err(400, "Error while uploading on cloudinary"), users)
    ensures s.result.Err? || s.result == Ok(None) ==> s.users == users
    ensures Truthy(localPath) && response.Some? && response.value.url != "" ==>
      (s.result.Ok? && (s.result.value.Some? <==> requester.Some? && requester.value in users))
    ensures s.result.Ok? && s.result.value.Some? ==>
      && requester.Some? && requester.value in users && response.Some? && response.value.url != ""
      && s.users == users[requester.value := users[requester.value].(avatar := response.value.url)]
      && s.result.value.value == WithoutPassword(requester.value, s.users[requester.value])
  {
    UpdateImageOutcome(users, requester, AvatarField, localPath, response, "Avatar is missing")
  }

  function UpdateCoverImageOutcome(
    users: map<UserId, User>, requester: Option<UserId>, localPath: Option<string>, response: Option<Upload>)
    : (s: Step<Option<AccountView>>)
    ensures !Truthy(localPath) ==> s == Step(Err(400, "Cover Image file is missing"), users)
    ensures Truthy(localPath) && response.None? ==> s.result.Err? && s.result.status == InternalError
    ensures Truthy(localPath) && response.Some? && response.value.url == "" ==>
      s == Step(Err(400, "Error while uploading on cloudinary"), users)
    ensures s.result.Err? || s.result == Ok(None) ==> s.users == users
    ensures Truthy(localPath) && response.Some? && response.value.url != "" ==>
      (s.result.Ok? && (s.result.value.Some? <==> requester.Some? && requester.value in users))
    ensures s.result.Ok? && s.result.value.Some? ==>
      && requester.Some? && requester.value in users && response.Some? && response.value.url != ""
      && s.users == users[requester.value := users[requester.value].(coverImage := Some(response.value.url))]
      && s.result.value.value == WithoutPassword(requester.value, s.users[requester.value])
  {
    UpdateImageOutcome(users, requester, CoverImageField, localPath, response, "Cover Image file is missing")
  }

  // ----- The collection keeps its invariant -----

  /** A change that leaves every username and email as it was keeps the invariant. */
  lemma KeysPreserved(users: map<UserId, User>, id: UserId, u: User)
    requires CollectionInvariant(users) && id in users
    requires u.username == users[id].username && u.email == users[id].email
    ensures CollectionInvariant(users[id := u])
  {
    var m := users[id := u];
    forall a | a in m
      ensures m[a].username == users[a].username && m[a].email == users[a].email
    {
    }
  }

  /** Registration keeps usernames and emails unique and normalized. */
  lemma {:induction false} RegisterKeepsInvariant(
    users: map<UserId, User>, form: RegisterForm, files: Option<RegisterFiles>,
    avatarResponse: Option<Upload>, coverResponse: Option<Upload>, newId: UserId, salt: nat)
    requires newId !in users && CollectionInvariant(users)
    ensures CollectionInvariant(RegisterOutcome(users, form, files, avatarResponse, coverResponse, newId, salt).users)
  {
    var s := RegisterOutcome(users, form, files, avatarResponse, coverResponse, newId, salt);
    if s.result.Ok? {
      var u := s.users[newId];
      NormalizeKeyIsKey(form.username.value);
      NormalizeKeyIsKey(form.email.value);
      forall id | id in users
        ensures users[id].username != u.username && users[id].email != u.email
      {
        assert !Matches(users[id], RegisterFilter(form));
      }
      InsertKeepsInvariant(users, newId, u);
    }
  }

  /** Adding a record whose keys are normalized and taken by no other record keeps the invariant. */
  lemma InsertKeepsInvariant(users: map<UserId, User>, newId: UserId, u: User)
    requires CollectionInvariant(users) && newId !in users
    requires u.username != [] && IsKey(u.username) && IsKey(u.email)
    requires forall id :: id in users ==> users[id].username != u.username && users[id].email != u.email
    ensures CollectionInvariant(users[newId := u])
  {
  }

  /** Updating the account details keeps usernames and emails unique and normalized. */
  lemma {:induction false} UpdateAccountKeepsInvariant(
    users: map<UserId, User>, requester: Option<UserId>, fullName: Option<string>, email: Option<string>)
    requires CollectionInvariant(users)
    ensures CollectionInvariant(UpdateAccountOutcome(users, requester, fullName, email).users)
  {
    var s := UpdateAccountOutcome(users, requester, fullName, email);
    if s.result.Ok? && s.result.value.Some? {
      var id := requester.value;
      NormalizeKeyIsKey(email.value);
      ReplaceEmailKeepsInvariant(users, id, s.users[id]);
    }
  }

  /** Replacing a record by one with the same username and a normalized email no other record
      holds keeps the invariant. */
  lemma ReplaceEmailKeepsInvariant(users: map<UserId, User>, id: UserId, u: User)
    requires CollectionInvariant(users) && id in users
    requires u.username == users[id].username && IsKey(u.email)
    requires forall other :: other in users && other != id ==> users[other].email != u.email
    ensures CollectionInvariant(users[id := u])
  {
  }

  /** The user collection: the handlers load, check and update its records. */
  class UserCollection {
    var users: map<UserId, User>

    ghost predicate Valid()
      reads this
    {
      CollectionInvariant(users)
    }

    constructor ()
      ensures Valid() && users == map[]
    {
      users := map[];
    }

    /** `generateAccessAndRefreshTokens`: load the user, sign both tokens, assign the refresh
        token to the document and save it. */
    method GenerateAccessAndRefreshTokens(id: UserId, now: nat) returns (r: Result<TokenPair>)
      requires Valid()
      modifies this
      ensures Valid()
      ensures Step(r, users) == IssueTokens(old(users), id, now)
    {
      if id !in users {
        return Err(InternalError, TokenFailure);
      }
      var doc := new UserDocument.Load(id, users[id]);
      var accessToken := GenerateAccessToken(id, doc.fields, now);
      var refreshToken := GenerateRefreshToken(id, now);
      doc.AssignRefreshToken(refreshToken);
      var saved := doc.Save(0);
      KeysPreserved(users, id, saved.value);
      users := users[id := saved.value];
      r := Ok(TokenPair(accessToken, refreshToken));
    }

    /** `registerUser` (with the cover-image path declared). */
    method RegisterUser(
      form: RegisterForm, files: Option<RegisterFiles>, avatarResponse: Option<Upload>,
      coverResponse: Option<Upload>, newId: UserId, salt: nat)
      returns (r: Result<PublicUser>)
      requires Valid() && newId !in users
      modifies this
      ensures Valid()
      ensures Step(r, users) == RegisterOutcome(old(users), form, files, avatarResponse, coverResponse, newId, salt)
    {
      RegisterKeepsInvariant(users, form, files, avatarResponse, coverResponse, newId, salt);
      var checked := RegisterChecks(users, form, files);
      if checked.Err? {
        return Err(checked.status, checked.message);
      }
      var avatarLocalPath := checked.value;
      var coverImageLocalPath: Option<string> := None;
      if files.Some? && files.value.coverImage.Some? {
        coverImageLocalPath := files.value.coverImage;
      }
      if !Truthy(avatarLocalPath) {
        return Err(400, AvatarRequired);
      }
      var avatar := UploadOnCloudinary(avatarLocalPath, avatarResponse);
      var coverImage := UploadOnCloudinary(coverImageLocalPath, coverResponse);
      if avatar.None? {
        return Err(400, AvatarRequired);
      }
      if form.username.None? {
        return Err(InternalError, "Cannot read properties of undefined (reading 'toLowerCase')");
      }
      var coverUrl := if coverImage.Some? && coverImage.value.url != "" then coverImage.value.url else "";
      var created := CreateUser(NewUser(form.fullName, Some(avatar.value.url), Some(coverUrl), form.email,
                                        form.password, Some(Lower(form.username.value))), salt);
      if created.Err? {
        return Err(created.status, created.message);
      }
      users := users[newId := created.value];
      r := Ok(Sanitize(newId, users[newId]));
    }

    /** `loginUser`. */
    method LoginUser(form: LoginForm, now: nat) returns (r: Result<Session>)
      requires Valid()
      modifies this
      ensures Valid()
      ensures Step(r, users) == LoginOutcome(old(users), form, now)
    {
      if !Truthy(form.username) && !Truthy(form.email) {
        return Err(400, "username or email is required");
      }
      var found := FindOne(users, LoginFilter(form));
      if found.None? {
        return Err(404, "User does not exist");
      }
      var id := found.value;
      var isPasswordValid := IsPasswordCorrect(users[id], form.password);
      if isPasswordValid.Err? {
        return Err(isPasswordValid.status, isPasswordValid.message);
      }
      if !isPasswordValid.value {
        return Err(401, "Invalid user credentials");
      }
      var pair := GenerateAccessAndRefreshTokens(id, now);
      var loggedInUser := Sanitize(id, users[id]);
      r := Ok(Session(loggedInUser, pair.value.accessToken, pair.value.refreshToken));
    }

    /** `logoutUser`: `$unset` the caller's refresh token. */
    method LogoutUser(requester: Option<UserId>) returns (r: Result<()>)
      requires Valid()
      modifies this
      ensures Valid()
      ensures Step(r, users) == LogoutOutcome(old(users), requester)
    {
      if requester.None? {
        return Err(InternalError, "Cannot read properties of null (reading '_id')");
      }
      var id := requester.value;
      if id in users {
        KeysPreserved(users, id, users[id].(refreshToken := None));
        users := users[id := users[id].(refreshToken := None)];
      }
      r := Ok(());
    }

    /** `refreshAccessToken` (answering with the rotated refresh token). */
    method RefreshAccessToken(form: RefreshForm, now: nat) returns (r: Result<Refreshed>)
      requires Valid()
      modifies this
      ensures Valid()
      ensures Step(r, users) == RefreshOutcome(old(users), form, now)
    {
      var incoming := IncomingRefreshToken(form);
      if !Truthy(incoming) {
        return Err(401, "Unauthorized request");
      }
      var decoded := Verify(incoming.value, RefreshSecret);
      if decoded.None? {
        return Err(401, "invalid token");
      }
      var id := decoded.value.id;
      if id !in users {
        return Err(401, "Unauthorized request");
      }
      if users[id].refreshToken != incoming {
        return Err(401, "Refresh token is expired or used");
      }
      var pair := GenerateAccessAndRefreshTokens(id, now);
      r := Ok(RefreshResponse(pair.value));
    }

    /** `changeCurrentPassword`: load the user, compare the old password, assign the new one and
        save (the hook hashes it). */
    method ChangeCurrentPassword(
      requester: Option<UserId>, oldPassword: Option<string>, newPassword: Option<string>, salt: nat)
      returns (r: Result<()>)
      requires Valid()
      modifies this
      ensures Valid()
      ensures Step(r, users) == ChangePasswordOutcome(old(users), requester, oldPassword, newPassword, salt)
    {
      if requester.None? || requester.value !in users {
        return Err(InternalError, "Cannot read properties of null (reading 'isPasswordCorrect')");
      }
      var id := requester.value;
      var doc := new UserDocument.Load(id, users[id]);
      var isCorrect := IsPasswordCorrect(doc.fields, oldPassword);
      if isCorrect.Err? {
        return Err(isCorrect.status, isCorrect.message);
      }
      if !isCorrect.value {
        return Err(400, "Invalid old password");
      }
      doc.AssignPassword(newPassword);
      var saved := doc.Save(salt);
      if saved.Err? {
        return Err(saved.status, saved.message);
      }
      KeysPreserved(users, id, saved.value);
      users := users[id := saved.value];
      r := Ok(());
    }

    /** `updateAccountDetails`: `$set` full name and email on the caller's record. */
    method UpdateAccountDetails(requester: Option<UserId>, fullName: Option<string>, email: Option<string>)
      returns (r: Result<Option<AccountView>>)
      requires Valid()
      modifies this
      ensures Valid()
      ensures Step(r, users) == UpdateAccountOutcome(old(users), requester, fullName, email)
    {
      UpdateAccountKeepsInvariant(users, requester, fullName, email);
      if !Truthy(fullName) || !Truthy(email) {
        return Err(400, "All fields are required");
      }
      if requester.None? || requester.value !in users {
        return Ok(None);
      }
      var id := requester.value;
      var newEmail := NormalizeKey(email.value);
      if exists other :: other in users && other != id && users[other].email == newEmail {
        return Err(InternalError, "E11000 duplicate key error");
      }
      users := users[id := users[id].(fullName := Trim(fullName.value), email := newEmail)];
      r := Ok(Some(WithoutPassword(id, users[id])));
    }

    /** `updateUserAvatar` and `updateUserCoverImage`: `$set` the uploaded URL. */
    method UpdateImage(
      requester: Option<UserId>, field: ImageField, localPath: Option<string>, response: Option<Upload>,
      missing: string)
      returns (r: Result<Option<AccountView>>)
      requires Valid()
      modifies this
      ensures Valid()
      ensures Step(r, users) == UpdateImageOutcome(old(users), requester, field, localPath, response, missing)
    {
      if !Truthy(localPath) {
        return Err(400, missing);
      }
      var upload := UploadOnCloudinary(localPath, response);
      if upload.None? {
        return Err(InternalError, "Cannot read properties of null (reading 'url')");
      }
      if upload.value.url == "" {
        return Err(400, "Error while uploading on cloudinary");
      }
      if requester.None? || requester.value !in users {
        return Ok(None);
      }
      var id := requester.value;
      var u := WithImage(users[id], field, upload.value.url);
      KeysPreserved(users, id, u);
      users := users[id := u];
      r := Ok(Some(WithoutPassword(id, u)));
    }
  }
}
