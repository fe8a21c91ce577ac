# Video-Streaming-Platform backend: a Dafny model of its request handlers

The backend is an Express/Mongoose service. Users register, log in and keep a session alive by
refresh-token rotation. They update their account, avatar and cover image, and look at channel
profiles. Videos are published, listed, read, updated and deleted by their owners.

This project models the handlers of that service in Dafny, together with:

- the User schema (setters, `required` paths, the `pre("save")` re-hash hook and the instance
  methods);
- the access-token middleware `verifyJWT`.

The database, `jsonwebtoken`, `bcrypt` and the storage provider are replaced by values and
small stand-ins whose properties are proved.

Modules, one concern each:

- `Common`: `Option`, and `Result` with `Ok(value)` or `Err(status, message)`. `Err` is the HTTP
  status and message the request ends with. A thrown JavaScript error is reported as 500, with
  the message the runtime would give.
- `JsText`: the string builtins the handlers use.
  - JavaScript truthiness of an optional string.
  - `trim` over the ECMAScript white-space set.
  - ASCII `toLowerCase`.
  - `replace` of the first occurrence.
  - `IsKey`, which says that a string is already trimmed and lowercased.
- `Jwt`: a token is the parseable encoding of a secret kind, an issue time in seconds and the
  claims. `Verify` gives the claims back under the same secret and fails under the other one.
- `Bcrypt`: a hash records the cost 10, a salt and a digest. `Compare` accepts exactly the
  password that was hashed.
- `Storage`: `uploadOnCloudinary` answers `null` for a missing path. Otherwise it answers the
  provider's response, which is a parameter.
- `UserModel`: the record, the setters and validators applied by `User.create`, and the instance
  methods. The `UserDocument` class is a loaded document whose paths handlers assign before
  `save`.
- `UserController`:
  - one outcome function per handler, giving the result and the new user collection;
  - the invariant of the collection (usernames and emails unique, trimmed and lowercased);
  - the `UserCollection` class, whose methods are proved equal to the outcome functions and to
    keep the invariant.
- `AuthMiddleware`: the decision `verifyJWT` takes, and the `RequestContext` class it updates.
- `SessionProperties`: properties of sequences of calls, such as rotation, replay, logout,
  password change, and registration followed by login.
- `VideoController`:
  - the `getAllVideos` pipeline built stage by stage, and its pagination;
  - publish, read, update and delete, as outcome functions;
  - the `VideoCollection` class, whose state is the collection plus the effects outside it
    (staged files removed, records removed, storage assets to destroy).
- `ChannelProfile`: the `getUserChannelProfile` aggregation over users and subscription
  records, and `getWatchHistory`.

Where a handler is defective, two things are modelled:

- the code as written, by a member named `...AsWritten`;
- the evidently intended behaviour, which the rest of the model uses.

See "## Findings".

## Model

| member | source | states |
|---|---|---|
| JsText.Trim | src/controllers/user.controller.js:37-42 | the result is the input with its leading and trailing white space removed: a contiguous slice of it, every character dropped before or after it is white space, and it neither starts nor ends with white space |
| JsText.TrimIsEmptyIffBlank | src/controllers/user.controller.js:37-42 | `field.trim() === ""` exactly when every character is white space |
| JsText.TrimIdempotent | src/models/user.model.js:12 | trimming twice is trimming once |
| JsText.LowerIdempotent | src/controllers/user.controller.js:74 | lowercasing an already lowercased name changes nothing |
| JsText.TrimCommutesWithLower | src/models/user.model.js:7-21 | the `lowercase` and `trim` setters give the same result in either order |
| JsText.NormalizeKeyIdempotent | src/models/user.model.js:7-21 | applying the username/email setters to a stored value changes nothing |
| JsText.NormalizeKeyIsKey | src/models/user.model.js:7-21 | a value after the setters has no upper-case ASCII letter and no white space at either end |
| JsText.KeyIsNormalized | src/models/user.model.js:7-21 | a value with no upper-case letter and no surrounding white space is a fixed point of the setters |
| JsText.Lower | src/controllers/user.controller.js:74 | `toLowerCase` keeps the length |
| JsText.NormalizeKey | src/models/user.model.js:7-21 | the username/email setters (`trim`, then `lowercase`) keep the length of the trimmed value; `NormalizeKeyIsKey` and `KeyIsNormalized` give what they produce |
| JsText.IndexOfFrom | src/middlewares/auth.middleware.js:17 | the result is the first occurrence of the pattern at or after `from`, or none exists |
| JsText.RemoveFirst | src/middlewares/auth.middleware.js:17 | when the pattern occurs, the result is the input with the first occurrence cut out; otherwise the input unchanged |
| JsText.RemoveFirstPrefix | src/middlewares/auth.middleware.js:17 | `("Bearer " + t).replace("Bearer ", "")` is `t` |
| Jwt.DecodeEncodeClaims | src/models/user.model.js:64-88 | decoding an encoded payload gives the payload back |
| Jwt.Verify | src/middlewares/auth.middleware.js:21 | a token verifies only under the secret whose tag it carries, so no token verifies under both secrets; `Sign` gives what it verifies to |
| Jwt.Sign | src/models/user.model.js:64-88 | a signed token verifies to its payload under its own secret, fails under the other secret, and carries its issue time |
| Jwt.SignInjective | src/models/user.model.js:64-88 | two tokens are equal exactly when payload, secret and issue second are equal |
| Bcrypt.Compare | src/models/user.model.js:60 | the stand-in for `bcrypt.compare` accepts a password exactly when it is the one the hash was made from |
| Bcrypt.Hash | src/models/user.model.js:54 | the hash compares equal to the hashed password and to no other password, at cost 10 |
| Storage.UploadOnCloudinary | src/utils/cloudinary.js:15-30 | a missing or empty path gives `null` |
| UserModel.Sanitize | src/controllers/user.controller.js:116-118 | the view after `select("-password -refreshToken")` keeps every other field of the record |
| UserModel.CreateUser | src/models/user.model.js:5-46 | succeeds exactly when username, email, fullName, avatar and password are non-empty after the setters. The stored username and email are trimmed and lowercased, and fullName is trimmed. The password is stored hashed; refreshToken is unset and watchHistory is empty. |
| UserModel.WithoutPassword | src/controllers/user.controller.js:242 | the view after `select("-password")` keeps the id, every profile field and the refresh token |
| UserModel.CastNewUser | src/models/user.model.js:7-27 | the setters leave avatar, cover image and password untouched, keep each field present or absent, trim fullName, and turn username and email into keys (trimmed, no ASCII capital) |
| UserModel.IsPasswordCorrect | src/models/user.model.js:59-61 | true exactly when the password compares equal to the stored hash; an undefined password throws |
| UserModel.GenerateAccessToken | src/models/user.model.js:64-77 | the token verifies under the access secret to the id, email, username and full name, and fails under the refresh secret |
| UserModel.GenerateRefreshToken | src/models/user.model.js:78-88 | the token verifies under the refresh secret to the id alone, and fails under the access secret |
| UserModel.Rehash | src/models/user.model.js:51-56 | an unmodified password keeps its hash; an assigned password is hashed so that it, and only it, compares; hashing `undefined` throws |
| UserModel.UserDocument.Load | src/controllers/user.controller.js:11 | a loaded document holds the stored record and an unmodified password path |
| UserModel.UserDocument.AssignPassword | src/controllers/user.controller.js:215 | marks the password path modified and changes no other path |
| UserModel.UserDocument.AssignRefreshToken | src/controllers/user.controller.js:15 | sets the refresh token and changes no other path |
| UserModel.UserDocument.PreSave | src/models/user.model.js:51-56 | the hook re-hashes the password only when it was modified and leaves every other path unchanged |
| UserModel.UserDocument.Save | src/controllers/user.controller.js:16 | the written record is the document's paths with the password the hook produced |
| UserModel.SaveRehashesOnlyModifiedPassword | src/models/user.model.js:51-56 | a save that did not touch the password keeps the hash; after a password assignment only the new password compares |
| UserController.Least | src/controllers/user.controller.js:101-103 | the chosen id is in the set and no larger than any other member |
| UserController.FindOne | src/controllers/user.controller.js:44-46 | `findOne` finds nothing exactly when no record matches; otherwise it finds a matching record, the one with the least id |
| UserController.IssueTokens | src/controllers/user.controller.js:9-21 | a missing user gives 500 and no change. Otherwise both tokens are issued for the user, and the new refresh token replaces the stored one (the only change). |
| UserController.RegisterChecks | src/controllers/user.controller.js:37-51 | 400 exactly when some field is given but whitespace-only (an absent field is not refused here); otherwise an existing user with that username or email gives 409; files sent without an avatar give 500 (reading `avatar[0]` of undefined); the checks pass exactly in the remaining cases, and then give the avatar path |
| UserController.RegisterAsWritten | src/controllers/user.controller.js:51-62 | as written, registration never succeeds; once the checks pass, a request with an avatar ends in 500 |
| UserController.RegisterOutcome | src/controllers/user.controller.js:23-86 | the 400/409 cases leave the store unchanged. No files, an empty avatar path, or a failed avatar upload give 400 "Avatar file is required". A success adds exactly one record under the fresh id: username and email trimmed and lowercased, fullName trimmed, the avatar URL from the upload, the cover URL or `""` when none was uploaded, the password stored hashed, no refresh token. The response omits password and refresh token. |
| UserController.NormalizeKeyOfLower | src/controllers/user.controller.js:74 | lowercasing the username before `create` does not change the stored value |
| UserController.LoginOutcome | src/controllers/user.controller.js:96-118 | neither username nor email gives 400, no match gives 404, a wrong password gives 401. A success returns the user without secrets and tokens that verify to that user, and stores the new refresh token. |
| UserController.LoginAccepts | src/controllers/user.controller.js:101-114 | a request that names a stored user and gives its password logs in (the converse of the error cases) |
| UserController.LogoutOutcome | src/controllers/user.controller.js:141-151 | only the caller's refresh token is removed; no other field or user changes; a `null` user gives 500 |
| UserController.IncomingRefreshToken | src/controllers/user.controller.js:166 | the cookie when truthy, otherwise the body's token |
| UserController.RefreshCheck | src/controllers/user.controller.js:166-186 | accepts exactly a present token that verifies under the refresh secret and equals the token stored for a user who still exists; every failure is 401 |
| UserController.RotateOutcome | src/controllers/user.controller.js:184-193 | a token that passes the check is rotated as `generateAccessAndRefreshTokens` does; a failing one changes nothing |
| UserController.RefreshResponseAsWritten | src/controllers/user.controller.js:193-199 | as written, the response carries no refresh token and the cookie holds "undefined" |
| UserController.RefreshResponse | src/controllers/user.controller.js:193-199 | the corrected response carries the new refresh token in the body and the cookie |
| UserController.RefreshAsWritten | src/controllers/user.controller.js:164-203 | as written, the store is rotated but the response has no refresh token |
| UserController.RefreshOutcome | src/controllers/user.controller.js:164-203 | every failure is 401 and changes nothing. A success stores a fresh refresh token issued now for the same user and hands it back. |
| UserController.ChangePasswordOutcome | src/controllers/user.controller.js:205-221 | succeeds exactly when the old password compares; a wrong old password gives 400. Afterwards only the new password compares and nothing else changes. |
| UserController.UpdateAccountOutcome | src/controllers/user.controller.js:228-246 | both fields are required (400). For a stored caller the request succeeds exactly when no other user holds the normalized email (otherwise the unique index answers 500); fullName is then set trimmed and email trimmed and lowercased, and the updated record is returned without password. An id naming no record answers `null` and changes nothing. The store changes only on a success that returns a user. |
| UserController.UpdateImageOutcome | src/controllers/user.controller.js:248-287 | a missing file gives 400, a failed upload throws (500), and an empty upload URL gives 400 "Error while uploading on cloudinary". Otherwise the request succeeds: for a stored caller only that image field is set to the upload URL and the record is returned without password; an id naming no record answers `null`. Errors and `null` leave the store unchanged. |
| UserController.UpdateAvatarOutcome | src/controllers/user.controller.js:248-268 | a missing file gives 400 "Avatar is missing", a failed upload 500 and an empty URL 400. Otherwise the request succeeds, and for a stored caller only the avatar changes, to the upload URL. Errors and `null` leave the store unchanged. |
| UserController.UpdateCoverImageOutcome | src/controllers/user.controller.js:270-287 | a missing file gives 400 "Cover Image file is missing", a failed upload 500 and an empty URL 400. Otherwise the request succeeds, and for a stored caller only the cover image changes, to the upload URL. Errors and `null` leave the store unchanged. |
| UserController.KeysPreserved | src/models/user.model.js:7-21 | a change that keeps a record's username and email keeps them unique and normalized across the collection |
| UserController.RegisterKeepsInvariant | src/controllers/user.controller.js:44-75 | registration keeps usernames and emails unique, trimmed and lowercased |
| UserController.InsertKeepsInvariant | src/models/user.model.js:7-21 | inserting a record with normalized, unused keys keeps the unique indexes |
| UserController.UpdateAccountKeepsInvariant | src/controllers/user.controller.js:228-246 | updating the account details keeps usernames and emails unique and normalized |
| UserController.ReplaceEmailKeepsInvariant | src/models/user.model.js:15-21 | replacing an email by a normalized one no other record holds keeps the unique index |
| UserController.UserCollection.GenerateAccessAndRefreshTokens | src/controllers/user.controller.js:9-21 | loads, assigns the refresh token and saves; the result and new store are `IssueTokens`' and the invariant is kept |
| UserController.UserCollection.RegisterUser | src/controllers/user.controller.js:23-86 | result and new store are `RegisterOutcome`'s; the invariant is kept |
| UserController.UserCollection.LoginUser | src/controllers/user.controller.js:88-135 | result and new store are `LoginOutcome`'s; the invariant is kept |
| UserController.UserCollection.LogoutUser | src/controllers/user.controller.js:137-162 | result and new store are `LogoutOutcome`'s; the invariant is kept |
| UserController.UserCollection.RefreshAccessToken | src/controllers/user.controller.js:164-203 | result and new store are `RefreshOutcome`'s; the invariant is kept |
| UserController.UserCollection.ChangeCurrentPassword | src/controllers/user.controller.js:205-221 | assigns the password on the loaded document and saves it; result and new store are `ChangePasswordOutcome`'s |
| UserController.UserCollection.UpdateAccountDetails | src/controllers/user.controller.js:228-246 | result and new store are `UpdateAccountOutcome`'s; the invariant is kept |
| UserController.UserCollection.UpdateImage | src/controllers/user.controller.js:248-287 | result and new store are `UpdateImageOutcome`'s; the invariant is kept |
| AuthMiddleware.SelectToken | src/middlewares/auth.middleware.js:17 | a truthy cookie wins; otherwise the Authorization header with its first "Bearer " removed; otherwise nothing |
| AuthMiddleware.Authenticate | src/middlewares/auth.middleware.js:6-35 | a guest proceeds with `null`. Any other request proceeds exactly when its token verifies under the access secret to a stored user, who is attached without password and refresh token. Every refusal is 401. |
| AuthMiddleware.RequestContext.VerifyJwt | src/middlewares/auth.middleware.js:6-35 | `next()` runs exactly when `Authenticate` proceeds, with `req.user` set to its user; a refusal leaves `req.user` untouched |
| AuthMiddleware.AccessTokenAcceptedFromCookie | src/middlewares/auth.middleware.js:17-31 | a token from `generateAccessToken` sent as the cookie authenticates its user |
| AuthMiddleware.AccessTokenAcceptedFromHeader | src/middlewares/auth.middleware.js:17-31 | the same token sent as `Authorization: Bearer <token>` authenticates its user |
| AuthMiddleware.RefreshTokenRejected | src/middlewares/auth.middleware.js:21 | a refresh token is never accepted as an access token |
| AuthMiddleware.RefreshTokenChangeKeepsAccess | src/middlewares/auth.middleware.js:23-25 | changing or removing a stored refresh token does not change what an access token authenticates |
| SessionProperties.FindByStoredUsername | src/controllers/user.controller.js:101-103 | under the invariant, a filter naming a stored username finds that user's record |
| SessionProperties.RotationRejectsReplay | src/controllers/user.controller.js:184-193 | after a rotation, the presented token (issued in an earlier second) is refused |
| SessionProperties.SameSecondReplayAccepted | src/controllers/user.controller.js:184-193 | a rotation in the same second as the token's issue re-issues that same token, so it is still accepted |
| SessionProperties.RotationChains | src/controllers/user.controller.js:184-199 | the rotated token is accepted by the next refresh, from the cookie or the body |
| SessionProperties.RefreshAsWrittenStrandsClient | src/controllers/user.controller.js:193-199 | as written, neither the cookie nor the body the client received can refresh again (401) |
| SessionProperties.LoginThenRefreshOnce | src/controllers/user.controller.js:88-203 | the refresh token a login hands out refreshes once, and is refused the second time |
| SessionProperties.LogoutRevokesRefresh | src/controllers/user.controller.js:141-151 | after logout every refresh token for the user is refused with 401 |
| SessionProperties.LogoutKeepsInvariant | src/controllers/user.controller.js:141-151 | logout keeps usernames and emails unique and normalized |
| SessionProperties.PasswordChangeThenLogin | src/controllers/user.controller.js:205-221 | after a password change the new password logs in and a different old one gets 401 |
| SessionProperties.RegisterThenLogin | src/controllers/user.controller.js:68-75 | a registered user logs in with the username and password used to register, and sees the same user view |
| SessionProperties.CompleteFormRegisters | src/controllers/user.controller.js:23-86 | a form whose fields are not blank after `trim` (leading white space allowed), with an avatar and an unused username and email, registers |
| SessionProperties.RegisterCoverImageDefect | src/controllers/user.controller.js:51-62 | every registration the corrected handler accepts ends in 500 as written |
| VideoController.ParseObjectId | src/controllers/video.controller.js:184 | a string names an id exactly when it has 24 hexadecimal digits |
| VideoController.SortStage | src/controllers/video.controller.js:42-50 | sorts by `sortBy` ascending or descending only when `sortType` is exactly "asc" or "desc"; otherwise newest first |
| VideoController.PipelineFor | src/controllers/video.controller.js:14-79 | the pipeline is refused with 400 "Invalid userId" exactly when a `userId` is given and is not a valid ObjectId; otherwise it ends with the skip and limit stages |
| VideoController.BuildPipeline | src/controllers/video.controller.js:11-79 | the pipeline built by successive pushes is `PipelineFor(q)`, or the 400 for a malformed `userId` |
| VideoController.PipelineShape | src/controllers/video.controller.js:14-79 | the pipeline has the published filter and exactly one kind of sort stage, and ends with skip and limit. A search stage appears only for a query, and first. An owner filter appears exactly when a user id is given. |
| VideoController.InvalidUserIdRefused | src/controllers/video.controller.js:28-31 | the listing is refused (400) exactly when a given `userId` is not a valid id |
| VideoController.CeilDiv | src/controllers/video.controller.js:85 | `Math.ceil(total / limit)`: the least page count whose pages hold every item |
| VideoController.PagesWithinTotal | src/controllers/video.controller.js:75-85 | every page from 1 to `totalPages` starts inside the published videos |
| VideoController.ListVideos | src/controllers/video.controller.js:11-102 | a malformed id gives 400, a negative skip or non-positive limit 500. Otherwise the request succeeds: the pipeline comes back with a total counting every published video, the page count, and the page and limit asked for. |
| VideoController.PaginationIgnoresFilters | src/controllers/video.controller.js:83-85 | two listings with the same limit report the same total and page count, whatever their query, owner and sort |
| VideoController.PublishCreate | src/controllers/video.controller.js:138-157 | creates exactly when there is an owner and both uploads succeed. The record holds the uploads' URLs and ids, the owner, title, description and duration, and is published unless `isPublic` is "false". |
| VideoController.PublishAsWritten | src/controllers/video.controller.js:113-170 | as written, no `req.files` gives 500 and no file at all 401; a request with exactly one of the two files, or with both files but a missing title or description, ends in 500 (only when both staged paths are empty does the latter give 401); nothing is removed and nothing is stored on failure |
| VideoController.PublishOutcome | src/controllers/video.controller.js:113-170 | a missing file or a missing title or description gives 401, removes the staged files and creates nothing. A success creates one record owned by the requester, published unless `isPublic` is "false". No `req.files` gives 500. A request with both files, a title and a description is exactly `PublishCreate`. |
| VideoController.PublishMissingFileDefect | src/controllers/video.controller.js:116-124 | with exactly one file, as written: 500 and no file removed; corrected: 401 and that file removed |
| VideoController.GetVideoById | src/controllers/video.controller.js:175-200 | succeeds exactly for an existing published video; a missing or unpublished one gives 400, whoever asks; a malformed id gives 500 |
| VideoController.ApplyPatch | src/controllers/video.controller.js:229-243 | the supplied fields are replaced and every other field is kept |
| VideoController.PatchOutcome | src/controllers/video.controller.js:225-243 | a failed thumbnail upload throws (500). Otherwise only the truthy supplied title, description and thumbnail URL change; the thumbnail's public id is kept. |
| VideoController.UpdateOutcome | src/controllers/video.controller.js:203-261 | a missing id or nothing to update gives 400, and so does a requester who is not the owner. A success is the owner's patch. |
| VideoController.CleanupRequests | src/controllers/video.controller.js:282-289 | a destroy request is made for the thumbnail and for the video asset exactly when the record names them |
| VideoController.DeleteOutcome | src/controllers/video.controller.js:263-305 | succeeds exactly for the owner of an existing video. The record is removed before the cleanup requests, and the answer is 200 whatever they do. Failures change nothing. |
| VideoController.VideoCollection.PublishAVideo | src/controllers/video.controller.js:104-172 | result, new collection and appended effects are `PublishOutcome`'s |
| VideoController.VideoCollection.CreateVideo | src/controllers/video.controller.js:138-157 | result and new collection are `PublishCreate`'s; no effect is appended |
| VideoController.VideoCollection.UpdateVideo | src/controllers/video.controller.js:203-261 | result and new collection are `UpdateOutcome`'s |
| VideoController.VideoCollection.PatchVideo | src/controllers/video.controller.js:225-243 | `updatedObj` filled field by field and `$set`: result and new collection are `PatchOutcome`'s |
| VideoController.VideoCollection.DeleteVideo | src/controllers/video.controller.js:263-305 | result, new collection and appended effects are `DeleteOutcome`'s |
| VideoController.PrivateVideoHidden | src/controllers/video.controller.js:181-188 | a video published with `isPublic` "false" cannot be read back, not even by its owner |
| VideoController.PublishedVideoVisible | src/controllers/video.controller.js:181-188 | a published video reads back as it was created |
| VideoController.DeletedVideoGone | src/controllers/video.controller.js:263-281 | after a deletion, reading or deleting the video again is refused with 400 |
| VideoController.OnlyOwnerChanges | src/controllers/video.controller.js:217-223 | an update or deletion by anyone but the owner changes nothing |
| ChannelProfile.GetUserChannelProfile | src/controllers/user.controller.js:290-361 | a blank username gives 400. Otherwise the channel is found exactly when a stored username equals the lowercased name (else 404). Counts are the channel's subscriptions both ways; `isSubscribed` holds exactly when the requester subscribes. The answer is the projection `ChannelOf` of the matching record. |
| ChannelProfile.StoredUsernameFindsChannel | src/controllers/user.controller.js:297-303 | under the invariant, a stored username finds its own channel |
| ChannelProfile.ChannelLookupIgnoresCase | src/controllers/user.controller.js:300-302 | the lookup gives the same answer for a name and its lowercase form |
| ChannelProfile.ChannelOf | src/controllers/user.controller.js:304-349 | the projected record keeps the user's id, username, email, fullName, avatar and cover image; the counts are bounded by the number of subscriptions; `isSubscribed` holds exactly when the requester is the subscriber of one of the channel's subscription records (the `$in` over `subscribers.subscriber`) |
| ChannelProfile.SameHitsSameProfile | src/controllers/user.controller.js:290-302 | two names that lowercase alike and are blank alike give the same answer |
| ChannelProfile.PaddedNameNotFound | src/controllers/user.controller.js:300-302 | a name with white space at either end finds no channel (404), since the match does not trim |
| ChannelProfile.GuestNeverSubscribed | src/controllers/user.controller.js:326-332 | a guest is never reported as subscribed |
| ChannelProfile.SubscribeCounts | src/controllers/user.controller.js:305-335 | a new subscription raises the channel's subscriber count and the follower's subscription count by one, and makes the follower subscribed |
| ChannelProfile.SubscribersGrow | src/controllers/user.controller.js:305-311 | a new subscription adds one record to the channel's `subscribers` lookup |
| ChannelProfile.SubscribedToGrows | src/controllers/user.controller.js:313-319 | a new subscription adds one record to the follower's `subscribedTo` lookup |
| ChannelProfile.GetWatchHistory | src/controllers/user.controller.js:363-417 | a `null` user or unknown id ends in 500; otherwise the answer is undefined |
| ChannelProfile.WatchHistoryIgnored | src/controllers/user.controller.js:413 | the answer is the same whatever the user watched |

## Left out

- Express wiring, server start-up, the database connection and the upload middleware's disk
  storage: bootstrap I/O with no rules of its own.
- Response envelopes, cookie options and `clearCookie`: formatting. Each handler's result is its
  status and its data.
- `getCurrentUser`: it echoes `req.user`, which `AuthMiddleware.Authenticate` already states.
- The error wrappers (`ApiError`, `asyncHandler`, `ApiResponse`) and `video.model.js` are not part
  of this model. A thrown `ApiError` is taken to report its status and message, and anything else
  500. `Video.create` is taken to succeed once the handler has checked its fields.
- Jwt.Verify: no expiry and no unforgeability. A token is a readable encoding, so the model
  cannot express that an access token expires or that only the server can sign.
- Bcrypt.Hash: the 72-byte input limit and the cost of hashing are not modelled. Compare accepts
  exactly the hashed password.
- JsText.Lower: only the ASCII letters are mapped, as they are for the names this service
  stores. Other scripts' case mappings are not modelled.
- UserController.FindOne: the record `findOne` picks among several matches is the one with the
  least id, a stand-in for the database's natural order. Under the collection invariant at most
  one record matches, so nothing depends on the choice.
- ChannelProfile.GetUserChannelProfile: `channel[0]` is taken to be the match with the least id.
  As with `findOne`, at most one record matches under the invariant.
- ChannelProfile.GuestNeverSubscribed: the guest's `undefined` id is taken to match no
  subscription. The model has no subscription record without a subscriber.
- The `$search`, `$lookup` and `$unwind` stages of `getAllVideos` are not evaluated: the listing
  returns the pipeline. Full-text ranking and the owner join are database behaviour.
- `getWatchHistory`'s lookup is not modelled. Its `$first` (src/controllers/user.controller.js:393-397)
  sits inside the users sub-pipeline, so the owner is never flattened. The answer reads
  `WatchHistory` (src/controllers/user.controller.js:413), which the aggregation never produces.
  The model states only that the answer is undefined.
- VideoController.ListVideos: `page` and `limit` are integers. `parseInt` on a non-numeric
  string (NaN) and the floating-point division inside `Math.ceil` are not modelled.
- VideoController.ParseObjectId: only the 24-hex-digit string form of an id is modelled. The
  12-character and numeric forms some driver versions also accept are not.
- `deleteFromCloudinary` is not modelled beyond the destroy request it receives. It ignores its
  second argument, so the video asset would be destroyed as an image resource. It also reads an
  undefined `localFilePath` (src/utils/cloudinary.js:37), so even a successful destroy ends in
  its own catch. The handler never awaits it, and the answer is 200 either way.
- Storage.UploadOnCloudinary: the removal of the staged file after an upload is not recorded as
  an effect, and neither is the removal after a failure.
- Concurrency: two rotations racing for the same user, and the scheduling of the cleanup
  promises in `deleteVideo`, are not modelled.
- Subscription records are not created or removed by any handler here. `subscription.model.js`
  is not part of this model, so the subscriptions are a parameter of the channel profile.
- Timestamps (`createdAt`, `updatedAt`) are not stored. The default sort stage names
  `createdAt` but is not evaluated.

## Findings

| source | as written | input that shows it | evidently intended | confidence | as-written member | corrected member |
|---|---|---|---|---|---|---|
| src/controllers/user.controller.js:51-62 | `coverImageLocalPath` is assigned (:55) and read (:62) but never declared. Module code is strict, so either use throws a ReferenceError, and the request ends in 500 before `User.create`. | a registration with non-blank fields, an unused username and email, and an avatar file | declare `let coverImageLocalPath` before the `if` | not executed | UserController.RegisterAsWritten, SessionProperties.RegisterCoverImageDefect | UserController.RegisterOutcome, SessionProperties.CompleteFormRegisters, SessionProperties.RegisterThenLogin |
| src/controllers/user.controller.js:193 | destructures `newRefreshToken`, which the returned object does not have. The store holds the new token, but the response cookie is "undefined" and the body has no refresh token. | any refresh with the token stored for the user | `const {accessToken, refreshToken: newRefreshToken} = ...` | not executed | UserController.RefreshAsWritten, SessionProperties.RefreshAsWrittenStrandsClient | UserController.RefreshOutcome, SessionProperties.RotationChains |
| src/controllers/video.controller.js:116-136 | `fs.unlinkSync` is called but `fs` is never imported, so each clean-up branch throws a ReferenceError. The request ends in 500 instead of 401, and the staged file stays on disk. | a publish request that sends `videoFile` but no `thumbnail` | `import fs from "fs"` | not executed | VideoController.PublishAsWritten, VideoController.PublishMissingFileDefect | VideoController.PublishOutcome |
