/**
 * Properties of sequences of handler calls: refresh-token rotation, logout, password change and
 * registration followed by login, and the two defects of the user handlers as written.
 */
module SessionProperties {
  import opened Common
  import opened JsText
  import opened Bcrypt
  import opened Jwt
  import opened Storage
  import opened UserModel
  import opened UserController

  /** A stored key is found by a login that names it, and only its record is. */
  lemma {:induction false} FindByStoredUsername(users: map<UserId, User>, id: UserId)
    requires CollectionInvariant(users) && id in users
    ensures FindOne(users, KeyFilter(Some(users[id].username), None)) == Some(id)
  {
    var f := KeyFilter(Some(users[id].username), None);
    KeyIsNormalized(users[id].username);
    assert Matches(users[id], f);
    var r := FindOne(users, f);
    assert r.value in users && users[r.value].username == users[id].username;
  }

  // ----- Rotation -----

  /** After a rotation at second `now`, the token that was presented is refused (a token issued
      in an earlier second can no longer be used). */
  lemma RotationRejectsReplay(users: map<UserId, User>, form: RefreshForm, now: nat)
    requires RefreshOutcome(users, form, now).result.Ok?
    requires IssuedAt(IncomingRefreshToken(form).value) != Some(now)
    ensures RefreshCheck(RefreshOutcome(users, form, now).users, IncomingRefreshToken(form)).Err?
  {
    var s := RefreshOutcome(users, form, now);
    var id := RefreshCheck(users, IncomingRefreshToken(form)).value;
    assert s.users[id].refreshToken == s.result.value.refreshToken;
  }

  /** Within one second the rotation issues the very token that was presented (`iat` has a
      resolution of one second and the payload is only the id), so presenting it again is
      accepted. */
  lemma SameSecondReplayAccepted(users: map<UserId, User>, id: UserId, now: nat)
    requires id in users && users[id].refreshToken == Some(GenerateRefreshToken(id, now))
    ensures var form := RefreshForm(Some(GenerateRefreshToken(id, now)), None);
      && RefreshOutcome(users, form, now).result.Ok?
      && RefreshCheck(RefreshOutcome(users, form, now).users, Some(GenerateRefreshToken(id, now))).Ok?
  {
    var t := GenerateRefreshToken(id, now);
    var form := RefreshForm(Some(t), None);
    assert RefreshCheck(users, Some(t)) == Ok(id);
    var s := RefreshOutcome(users, form, now);
    assert s.result.value.refreshToken == Some(t);
  }

  /** The rotated token is accepted by the next refresh, whichever way it is sent back. */
  lemma RotationChains(users: map<UserId, User>, form: RefreshForm, now: nat, later: nat)
    requires RefreshOutcome(users, form, now).result.Ok?
    ensures var s := RefreshOutcome(users, form, now);
      && RefreshOutcome(s.users, RefreshForm(Some(s.result.value.refreshCookie), None), later).result.Ok?
      && RefreshOutcome(s.users, RefreshForm(None, s.result.value.refreshToken), later).result.Ok?
  {
    var s := RefreshOutcome(users, form, now);
    var id := RefreshCheck(users, IncomingRefreshToken(form)).value;
    assert RefreshCheck(s.users, s.result.value.refreshToken) == Ok(id);
  }

  /** As written, the refresh response sets the cookie to "undefined" and returns no refresh
      token, while the store already holds the new one: the client has nothing left to refresh
      with. */
  lemma RefreshAsWrittenStrandsClient(users: map<UserId, User>, form: RefreshForm, now: nat, later: nat)
    requires RefreshAsWritten(users, form, now).result.Ok?
    ensures var s := RefreshAsWritten(users, form, now);
      && RefreshOutcome(s.users, RefreshForm(Some(s.result.value.refreshCookie), None), later).result
         == Err(401, "invalid token")
      && RefreshOutcome(s.users, RefreshForm(None, s.result.value.refreshToken), later).result
         == Err(401, "Unauthorized request")
  {
    var s := RefreshAsWritten(users, form, now);
    assert s.result.value.refreshCookie == "undefined";
    assert s.result.value.refreshCookie[0] != KindTag(RefreshSecret);
  }

  // ----- Login and logout -----

  /** The refresh token a login hands out is accepted by a refresh, exactly once when the
      refresh happens in a later second. */
  lemma LoginThenRefreshOnce(users: map<UserId, User>, form: LoginForm, now: nat, t1: nat, t2: nat)
    requires LoginOutcome(users, form, now).result.Ok?
    requires t1 != now
    ensures var login := LoginOutcome(users, form, now);
      var cookie := RefreshForm(Some(login.result.value.refreshToken), None);
      var first := RefreshOutcome(login.users, cookie, t1);
      && first.result.Ok?
      && RefreshOutcome(first.users, cookie, t2).result.Err?
  {
    var login := LoginOutcome(users, form, now);
    var id := FindOne(users, LoginFilter(form)).value;
    var cookie := RefreshForm(Some(login.result.value.refreshToken), None);
    assert RefreshCheck(login.users, Some(login.result.value.refreshToken)) == Ok(id);
    RotationRejectsReplay(login.users, cookie, t1);
  }

  /** After logout no refresh token names the user any more. */
  lemma LogoutRevokesRefresh(users: map<UserId, User>, id: UserId, token: string)
    requires id in users
    requires Verify(token, RefreshSecret).Some? && Verify(token, RefreshSecret).value.id == id
    ensures RefreshCheck(LogoutOutcome(users, Some(id)).users, Some(token)) == Err(401, "Refresh token is expired or used")
  {
  }

  /** Logout leaves the invariant of the collection, and every other record, as they were. */
  lemma LogoutKeepsInvariant(users: map<UserId, User>, requester: Option<UserId>)
    requires CollectionInvariant(users)
    ensures CollectionInvariant(LogoutOutcome(users, requester).users)
  {
    if requester.Some? && requester.value in users {
      KeysPreserved(users, requester.value, users[requester.value].(refreshToken := None));
    }
  }

  // ----- Password change -----

  /** After a password change the new password logs in and the old one is refused. */
  lemma {:induction false} PasswordChangeThenLogin(
    users: map<UserId, User>, id: UserId, oldPassword: string, newPassword: string, salt: nat, now: nat)
    requires CollectionInvariant(users) && id in users
    requires Compare(oldPassword, users[id].password)
    ensures var s := ChangePasswordOutcome(users, Some(id), Some(oldPassword), Some(newPassword), salt);
      && s.result.Ok?
      && LoginOutcome(s.users, LoginForm(None, Some(users[id].username), Some(newPassword)), now).result.Ok?
      && (oldPassword != newPassword ==>
            LoginOutcome(s.users, LoginForm(None, Some(users[id].username), Some(oldPassword)), now).result
            == Err(401, "Invalid user credentials"))
  {
    var s := ChangePasswordOutcome(users, Some(id), Some(oldPassword), Some(newPassword), salt);
    KeysPreserved(users, id, s.users[id]);
    assert s.users[id].username == users[id].username;
    FindByStoredUsername(s.users, id);
  }

  // ----- Registration -----

  /** A registered user can log in with the username and password given at registration. */
  lemma {:induction false} RegisterThenLogin(
    users: map<UserId, User>, form: RegisterForm, files: Option<RegisterFiles>,
    avatarResponse: Option<Upload>, coverResponse: Option<Upload>, newId: UserId, salt: nat, now: nat)
    requires CollectionInvariant(users) && newId !in users
    requires RegisterOutcome(users, form, files, avatarResponse, coverResponse, newId, salt).result.Ok?
    ensures var s := RegisterOutcome(users, form, files, avatarResponse, coverResponse, newId, salt);
      var login := LoginOutcome(s.users, LoginForm(None, form.username, form.password), now);
      && login.result.Ok?
      && login.result.value.user == s.result.value
  {
    var s := RegisterOutcome(users, form, files, avatarResponse, coverResponse, newId, salt);
    RegisterKeepsInvariant(users, form, files, avatarResponse, coverResponse, newId, salt);
    var lf := LoginForm(None, form.username, form.password);
    assert Truthy(form.username) by {
      assert !BlankGiven(form.username);
    }
    var f := LoginFilter(lf);
    assert Matches(s.users[newId], f);
    var r := FindOne(s.users, f);
    assert r.value in s.users && s.users[r.value].username == s.users[newId].username;
    assert r == Some(newId);
    LoginAccepts(s.users, lf, now);
  }

  /** A complete form with an avatar registers, as long as its username and email are free:
      the corrected handler accepts such requests. */
  lemma {:induction false} CompleteFormRegisters(
    users: map<UserId, User>, fullName: string, email: string, username: string, password: string,
    avatarPath: string, upload: Upload, newId: UserId, salt: nat)
    requires newId !in users
    requires Trim(fullName) != [] && Trim(email) != [] && Trim(username) != [] && Trim(password) != []
    requires avatarPath != [] && upload.url != []
    requires forall id :: id in users ==> !Matches(users[id], KeyFilter(Some(username), Some(email)))
    ensures var form := RegisterForm(Some(fullName), Some(email), Some(username), Some(password));
      var files := Some(RegisterFiles(Some(avatarPath), None));
      RegisterOutcome(users, form, files, Some(upload), None, newId, salt).result.Ok?
  {
    CompleteFormPassesChecks(users, fullName, email, username, password, avatarPath);
    CompleteFormDraftCreates(fullName, email, username, password, upload.url, salt);
    CheckedDraftRegisters(users, RegisterForm(Some(fullName), Some(email), Some(username), Some(password)),
                          avatarPath, upload, newId, salt);
  }

  /** Once the checks pass with an avatar path and the draft passes the validators, the
      registration succeeds. */
  lemma CheckedDraftRegisters(
    users: map<UserId, User>, form: RegisterForm, avatarPath: string, upload: Upload, newId: UserId, salt: nat)
    requires newId !in users && avatarPath != [] && form.username.Some?
    requires RegisterChecks(users, form, Some(RegisterFiles(Some(avatarPath), None))) == Ok(Some(avatarPath))
    requires CreateUser(NewUser(form.fullName, Some(upload.url), Some(""), form.email, form.password,
                                Some(Lower(form.username.value))), salt).Ok?
    ensures RegisterOutcome(users, form, Some(RegisterFiles(Some(avatarPath), None)), Some(upload), None, newId, salt).result.Ok?
  {
    var draft := NewUser(form.fullName, Some(upload.url), Some(""), form.email, form.password, Some(Lower(form.username.value)));
    var u := CreateUser(draft, salt).value;
    assert RegisterOutcome(users, form, Some(RegisterFiles(Some(avatarPath), None)), Some(upload), None, newId, salt)
      == Step(Ok(Sanitize(newId, u)), users[newId := u]);
  }

  /** Such a form passes the blank and duplicate checks and yields its avatar path. */
  lemma CompleteFormPassesChecks(
    users: map<UserId, User>, fullName: string, email: string, username: string, password: string, avatarPath: string)
    requires Trim(fullName) != [] && Trim(email) != [] && Trim(username) != [] && Trim(password) != []
    requires forall id :: id in users ==> !Matches(users[id], KeyFilter(Some(username), Some(email)))
    ensures var form := RegisterForm(Some(fullName), Some(email), Some(username), Some(password));
      RegisterChecks(users, form, Some(RegisterFiles(Some(avatarPath), None))) == Ok(Some(avatarPath))
  {
    var form := RegisterForm(Some(fullName), Some(email), Some(username), Some(password));
    assert !AnyBlank(form);
    assert FindOne(users, RegisterFilter(form)).None?;
  }

  /** The draft `registerUser` builds from a form whose fields are not blank passes the
      validators, the extra `toLowerCase` on the username included. */
  lemma CompleteFormDraftCreates(fullName: string, email: string, username: string, password: string, url: string, salt: nat)
    requires Trim(fullName) != [] && Trim(email) != [] && Trim(username) != [] && Trim(password) != [] && url != []
    ensures CreateUser(NewUser(Some(fullName), Some(url), Some(""), Some(email), Some(password), Some(Lower(username))), salt).Ok?
  {
    NotBlank(email);
    NotBlank(username);
    NotBlank(password);
    NormalizeKeyOfLower(username);
    CompleteDraftCreates(fullName, email, Lower(username), password, url, salt);
  }

  /** The draft `registerUser` builds from such a form passes the schema's validators. */
  lemma CompleteDraftCreates(fullName: string, email: string, username: string, password: string, url: string, salt: nat)
    requires Trim(fullName) != [] && NormalizeKey(email) != [] && NormalizeKey(username) != []
    requires password != [] && url != []
    ensures CreateUser(NewUser(Some(fullName), Some(url), Some(""), Some(email), Some(password), Some(username)), salt).Ok?
  {
  }

  /** A value that is not blank is non-empty, and stays non-empty through the setters. */
  lemma NotBlank(s: string)
    requires Trim(s) != []
    ensures s != [] && NormalizeKey(s) != []
  {
  }

  /** The undeclared `coverImageLocalPath`: every registration the corrected handler accepts is
      answered with 500 by the handler as written, and nothing is stored. */
  lemma RegisterCoverImageDefect(
    users: map<UserId, User>, form: RegisterForm, files: Option<RegisterFiles>,
    avatarResponse: Option<Upload>, coverResponse: Option<Upload>, newId: UserId, salt: nat)
    requires newId !in users
    requires RegisterOutcome(users, form, files, avatarResponse, coverResponse, newId, salt).result.Ok?
    ensures RegisterAsWritten(users, form, files) == Err(InternalError, "coverImageLocalPath is not defined")
  {
  }
}
