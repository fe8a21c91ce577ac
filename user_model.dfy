/**
 * The User schema: its fields, the setters and `required` validators it declares, the
 * `pre("save")` hook that re-hashes a modified password, and the instance methods
 * `isPasswordCorrect`, `generateAccessToken` and `generateRefreshToken`.
 */
module UserModel {
  import opened Common
  import opened JsText
  import opened Bcrypt
  import opened Jwt

  /** A stored user record (timestamps are not modelled). */
  datatype User = User(
    username: string,
    email: string,
    fullName: string,
    avatar: string,
    coverImage: Option<string>,
    watchHistory: seq<VideoId>,
    password: PasswordHash,
    refreshToken: Option<string>)

  /** A user as the handlers return it after `.select("-password -refreshToken")`. */
  datatype PublicUser = PublicUser(
    id: UserId,
    username: string,
    email: string,
    fullName: string,
    avatar: string,
    coverImage: Option<string>,
    watchHistory: seq<VideoId>)

  /** A user after `.select("-password")` only: the refresh token is still part of it. */
  datatype AccountView = AccountView(user: PublicUser, refreshToken: Option<string>)

  function Sanitize(id: UserId, u: User): (p: PublicUser)
    ensures p.id == id && p.username == u.username && p.email == u.email
    ensures p.fullName == u.fullName && p.avatar == u.avatar
    ensures p.coverImage == u.coverImage && p.watchHistory == u.watchHistory
  {
    PublicUser(id, u.username, u.email, u.fullName, u.avatar, u.coverImage, u.watchHistory)
  }

  function WithoutPassword(id: UserId, u: User): (v: AccountView)
    ensures v.user.id == id && v.user.username == u.username && v.user.email == u.email
    ensures v.user.fullName == u.fullName && v.user.avatar == u.avatar && v.user.coverImage == u.coverImage
    ensures v.user.watchHistory == u.watchHistory && v.refreshToken == u.refreshToken
  {
    AccountView(Sanitize(id, u), u.refreshToken)
  }

  /** The values handed to `User.create`; `None` is an `undefined` field. */
  datatype NewUser = NewUser(
    fullName: Option<string>,
    avatar: Option<string>,
    coverImage: Option<string>,
    email: Option<string>,
    password: Option<string>,
    username: Option<string>)

  /** Mongoose's `required` validator on a String path: a non-empty string. */
  predicate Present(v: Option<string>) {
    v.Some? && v.value != ""
  }

  /** The values after the setters of the schema ran: `lowercase` and `trim` on username and
      email, `trim` on fullName. */
  function CastNewUser(d: NewUser): (c: NewUser)
    ensures c.avatar == d.avatar && c.coverImage == d.coverImage && c.password == d.password
    ensures c.fullName.Some? == d.fullName.Some? && c.email.Some? == d.email.Some?
    ensures c.username.Some? == d.username.Some?
    ensures c.fullName.Some? ==> Trim(c.fullName.value) == c.fullName.value
    ensures c.email.Some? ==> IsKey(c.email.value)
    ensures c.username.Some? ==> IsKey(c.username.value)
  {
    SetterResults(d);
    NewUser(
      if d.fullName.Some? then Some(Trim(d.fullName.value)) else None,
      d.avatar,
      d.coverImage,
      if d.email.Some? then Some(NormalizeKey(d.email.value)) else None,
      d.password,
      if d.username.Some? then Some(NormalizeKey(d.username.value)) else None)
  }

  /** What the setters make of each given field. */
  lemma SetterResults(d: NewUser)
    ensures d.fullName.Some? ==> Trim(Trim(d.fullName.value)) == Trim(d.fullName.value)
    ensures d.email.Some? ==> IsKey(NormalizeKey(d.email.value))
    ensures d.username.Some? ==> IsKey(NormalizeKey(d.username.value))
  {
    if d.fullName.Some? { TrimIdempotent(d.fullName.value); }
    if d.email.Some? { NormalizeKeyIsKey(d.email.value); }
    if d.username.Some? { NormalizeKeyIsKey(d.username.value); }
  }

  /** `User.create(d)`: cast, validate the required paths, run the `pre("save")` hook (the
      password of a new document counts as modified) and give the stored record. */
  function CreateUser(d: NewUser, salt: nat): (r: Result<User>)
    ensures r.Ok? <==> var c := CastNewUser(d);
      Present(c.username) && Present(c.email) && Present(c.fullName) && Present(c.avatar) && Present(c.password)
    ensures r.Err? ==> r.status == InternalError
    ensures r.Ok? ==> && r.value.username == NormalizeKey(d.username.value)
                      && r.value.email == NormalizeKey(d.email.value)
                      && r.value.fullName == Trim(d.fullName.value)
                      && r.value.avatar == d.avatar.value
                      && r.value.coverImage == d.coverImage
                      && r.value.watchHistory == []
                      && r.value.refreshToken == None
                      && Compare(d.password.value, r.value.password)
  {
    var c := CastNewUser(d);
    if !(Present(c.username) && Present(c.email) && Present(c.fullName) && Present(c.avatar) && Present(c.password)) then
      Err(InternalError, "User validation failed")
    else
      Ok(User(c.username.value, c.email.value, c.fullName.value, c.avatar.value, c.coverImage, [],
              Hash(c.password.value, salt), None))
  }

  /** `user.isPasswordCorrect(password)`; `bcrypt.compare` rejects an undefined password. */
  function IsPasswordCorrect(u: User, password: Option<string>): (r: Result<bool>)
    ensures r.Err? <==> password.None?
    ensures r.Err? ==> r.status == InternalError
    ensures r == Ok(true) <==> password.Some? && Compare(password.value, u.password)
  {
    if password.None? then Err(InternalError, "data and hash arguments required")
    else Ok(Compare(password.value, u.password))
  }

  /** `user.generateAccessToken()` at second `now`: signed with the access secret and carrying
      `_id`, email, username and full name. */
  function GenerateAccessToken(id: UserId, u: User, now: nat): (token: string)
    ensures Verify(token, AccessSecret) == Some(Claims(id, Some(Profile(u.email, u.username, u.fullName))))
    ensures Verify(token, RefreshSecret) == None
    ensures IssuedAt(token) == Some(now)
  {
    Sign(Claims(id, Some(Profile(u.email, u.username, u.fullName))), AccessSecret, now)
  }

  /** `user.generateRefreshToken()` at second `now`: signed with the refresh secret and carrying
      only `_id`. */
  function GenerateRefreshToken(id: UserId, now: nat): (token: string)
    ensures Verify(token, RefreshSecret) == Some(Claims(id, None))
    ensures Verify(token, AccessSecret) == None
    ensures IssuedAt(token) == Some(now)
  {
    Sign(Claims(id, None), RefreshSecret, now)
  }

  /** The in-memory value of a loaded document's password path: the stored hash, or a value a
      handler assigned (which makes `isModified("password")` true). */
  datatype PasswordPath = Stored(hash: PasswordHash) | Assigned(plain: Option<string>)

  /** The hash the `pre("save")` hook leaves in the password path: a stored hash is kept as it
      is, an assigned password is hashed, and hashing `undefined` throws. */
  function Rehash(p: PasswordPath, salt: nat): (r: Result<PasswordHash>)
    ensures p.Stored? ==> r == Ok(p.hash)
    ensures p.Assigned? && p.plain.Some? ==>
      r.Ok? && Compare(p.plain.value, r.value) && forall q :: Compare(q, r.value) ==> q == p.plain.value
    ensures p.Assigned? && p.plain.None? ==> r.Err? && r.status == InternalError
  {
    match p
    case Stored(h) => Ok(h)
    case Assigned(None) => Err(InternalError, "data and salt arguments required")
    case Assigned(Some(pw)) => Ok(Hash(pw, salt))
  }

  /** A user document loaded with `User.findById`: handlers assign its paths and then `save` it. */
  class UserDocument {
    const id: UserId
    /** Every path as it will be written, except the password. */
    var fields: User
    /** The password path as the handler left it. */
    var password: PasswordPath

    constructor Load(id: UserId, u: User)
      ensures this.id == id && fields == u && password == Stored(u.password)
    {
      this.id := id;
      fields := u;
      password := Stored(u.password);
    }

    /** `isModified("password")`. */
    predicate PasswordModified()
      reads this
    {
      password.Assigned?
    }

    /** `user.password = p`. */
    method AssignPassword(p: Option<string>)
      modifies this
      ensures password == Assigned(p) && fields == old(fields)
    {
      password := Assigned(p);
    }

    /** `user.refreshToken = token`. */
    method AssignRefreshToken(token: string)
      modifies this
      ensures fields == old(fields).(refreshToken := Some(token)) && password == old(password)
    {
      fields := fields.(refreshToken := Some(token));
    }

    /** The `pre("save")` hook: only a modified password is hashed again. */
    method PreSave(salt: nat) returns (ok: bool)
      modifies this
      ensures fields == old(fields)
      ensures ok <==> Rehash(old(password), salt).Ok?
      ensures ok ==> password == Stored(Rehash(old(password), salt).value)
      ensures !old(PasswordModified()) ==> ok && password == old(password)
    {
      if !PasswordModified() {
        return true;
      }
      if password.plain.None? {
        return false;
      }
      password := Stored(Hash(password.plain.value, salt));
      ok := true;
    }

    /** `user.save({validateBeforeSave: false})`: the hook runs, then the record is written. */
    method Save(salt: nat) returns (r: Result<User>)
      modifies this
      ensures r == match Rehash(old(password), salt)
                   case Ok(h) => Ok(old(fields).(password := h))
                   case Err(s, m) => Err(s, m)
      ensures !old(PasswordModified()) ==> r == Ok(old(fields).(password := old(password).hash))
    {
      var ok := PreSave(salt);
      if !ok {
        return Err(InternalError, "data and salt arguments required");
      }
      r := Ok(fields.(password := password.hash));
    }
  }

  /** A refresh-token write (a save that leaves the password path alone) keeps the hash, and a
      password assignment followed by a save stores a hash that accepts the new password only. */
  lemma SaveRehashesOnlyModifiedPassword(u: User, p: string, salt: nat)
    ensures Rehash(Stored(u.password), salt) == Ok(u.password)
    ensures Rehash(Assigned(Some(p)), salt).Ok?
    ensures forall q :: Compare(q, Rehash(Assigned(Some(p)), salt).value) <==> q == p
  {
  }
}
