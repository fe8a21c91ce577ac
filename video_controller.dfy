/**
 * The video handlers: listing (the aggregation pipeline `getAllVideos` builds, and its
 * pagination), publishing, reading, updating and deleting videos.  The collection and the
 * side effects outside it (staged upload files removed, records removed, storage assets to
 * destroy) are the state of `VideoCollection`; each handler is specified by a function giving
 * its outcome, the new collection and the effects it appends.
 */
module VideoController {
  import opened Common
  import opened JsText
  import opened Storage

  /** A stored video (timestamps are not modelled). */
  datatype Video = Video(
    videoFile: string,
    videoFilePublicId: string,
    thumbnail: string,
    thumbnailPublicId: string,
    owner: UserId,
    title: string,
    description: string,
    duration: Option<real>,
    isPublished: bool)

  // ----- Object ids in request parameters -----

  predicate IsHexDigit(c: char) {
    '0' <= c <= '9' || 'a' <= c <= 'f' || 'A' <= c <= 'F'
  }

  function HexDigitValue(c: char): (d: nat)
    requires IsHexDigit(c)
    ensures d < 16
  {
    if '0' <= c <= '9' then c as int - '0' as int
    else if 'a' <= c <= 'f' then c as int - 'a' as int + 10
    else c as int - 'A' as int + 10
  }

  predicate AllHex(s: string) {
    forall i :: 0 <= i < |s| ==> IsHexDigit(s[i])
  }

  function HexValue(s: string): nat
    requires AllHex(s)
  {
    if s == [] then 0 else 16 * HexValue(s[..|s| - 1]) + HexDigitValue(s[|s| - 1])
  }

  /** `new mongoose.Types.ObjectId(s)` on a string: 24 hexadecimal digits name an id; any other
      string makes the constructor (and a cast in `findById`) throw. */
  function ParseObjectId(s: string): (r: Option<VideoId>)
    ensures r.Some? <==> |s| == 24 && AllHex(s)
  {
    if |s| == 24 && AllHex(s) then Some(HexValue(s)) else None
  }

  // ----- getAllVideos: the pipeline -----

  datatype Stage =
    | Search(query: string)
    | MatchOwner(owner: UserId)
    | MatchPublished
    | SortBy(field: string, direction: int)
    | LookupOwnerDetails
    | UnwindOwnerDetails
    | Skip(count: int)
    | Limit(count: int)

  /** The query parameters; `page` and `limit` as numbers, `None` when absent. */
  datatype VideoQuery = VideoQuery(
    page: Option<int>, limit: Option<int>, query: Option<string>, sortBy: Option<string>,
    sortType: Option<string>, userId: Option<string>)

  function PageOf(q: VideoQuery): int {
    if q.page.Some? then q.page.value else 1
  }

  function LimitOf(q: VideoQuery): int {
    if q.limit.Some? then q.limit.value else 10
  }

  /** `(page - 1) * limit`. */
  function SkipOf(q: VideoQuery): int {
    (PageOf(q) - 1) * LimitOf(q)
  }

  /** The sort stage: by the requested field when `sortType` is exactly "asc" or "desc",
      otherwise newest first. */
  function SortStage(q: VideoQuery): (st: Stage)
    ensures st.SortBy?
    ensures Truthy(q.sortBy) && q.sortType == Some("asc") ==> st == SortBy(q.sortBy.value, 1)
    ensures Truthy(q.sortBy) && q.sortType == Some("desc") ==> st == SortBy(q.sortBy.value, -1)
    ensures !(Truthy(q.sortBy) && (q.sortType == Some("asc") || q.sortType == Some("desc"))) ==>
      st == SortBy("createdAt", -1)
  {
    if Truthy(q.sortBy) && (q.sortType == Some("asc") || q.sortType == Some("desc")) then
      SortBy(q.sortBy.value, if q.sortType == Some("asc") then 1 else -1)
    else SortBy("createdAt", -1)
  }

  /** The pipeline `getAllVideos` hands to the aggregation, or the 400 for a malformed
      `userId`. */
  function PipelineFor(q: VideoQuery): (r: Result<seq<Stage>>)
    ensures r.Err? <==> Truthy(q.userId) && ParseObjectId(q.userId.value).None?
    ensures r.Err? ==> r == Err(400, "Invalid userId")
    ensures r.Ok? ==> |r.value| >= 6 && r.value[|r.value| - 2] == Skip(SkipOf(q)) && r.value[|r.value| - 1] == Limit(LimitOf(q))
  {
    if Truthy(q.userId) && ParseObjectId(q.userId.value).None? then Err(400, "Invalid userId")
    else
      Ok((if Truthy(q.query) then [Search(q.query.value)] else [])
         + (if Truthy(q.userId) then [MatchOwner(ParseObjectId(q.userId.value).value)] else [])
         + [MatchPublished] + [SortStage(q)] + [LookupOwnerDetails, UnwindOwnerDetails]
         + [Skip(SkipOf(q))] + [Limit(LimitOf(q))])
  }

  /** The pipeline is built by successive pushes. */
  method BuildPipeline(q: VideoQuery) returns (r: Result<seq<Stage>>)
    ensures r == PipelineFor(q)
  {
    var pipeline: seq<Stage> := [];
    if Truthy(q.query) {
      pipeline := pipeline + [Search(q.query.value)];
    }
    assert pipeline == (if Truthy(q.query) then [Search(q.query.value)] else []);
    if Truthy(q.userId) {
      var owner := ParseObjectId(q.userId.value);
      if owner.None? {
        assert PipelineFor(q) == Err(400, "Invalid userId");
        return Err(400, "Invalid userId");
      }
      pipeline := pipeline + [MatchOwner(owner.value)];
    }
    pipeline := pipeline + [MatchPublished];
    if Truthy(q.sortBy) && (q.sortType == Some("asc") || q.sortType == Some("desc")) {
      pipeline := pipeline + [SortBy(q.sortBy.value, if q.sortType == Some("asc") then 1 else -1)];
    } else {
      pipeline := pipeline + [SortBy("createdAt", -1)];
    }
    pipeline := pipeline + [LookupOwnerDetails, UnwindOwnerDetails];
    var skip := (PageOf(q) - 1) * LimitOf(q);
    var limitInt := LimitOf(q);
    pipeline := pipeline + [Skip(skip)];
    pipeline := pipeline + [Limit(limitInt)];
    assert pipeline == PipelineFor(q).value;
    r := Ok(pipeline);
  }

  /** What every pipeline contains: the published filter, exactly one sort stage, and the page
      window at the end; a search stage only when a query was given, and then first; an owner
      filter exactly when a user id was given. */
  lemma {:induction false} PipelineShape(q: VideoQuery)
    requires PipelineFor(q).Ok?
    ensures var p := PipelineFor(q).value;
      && MatchPublished in p
      && |p| >= 6 && p[|p| - 2] == Skip(SkipOf(q)) && p[|p| - 1] == Limit(LimitOf(q))
      && (forall i :: 0 <= i < |p| && p[i].Search? ==> i == 0)
      && (p[0].Search? <==> Truthy(q.query))
      && (Truthy(q.query) ==> p[0] == Search(q.query.value))
      && ((exists i :: 0 <= i < |p| && p[i].MatchOwner?) <==> Truthy(q.userId))
      && (forall i :: 0 <= i < |p| && p[i].MatchOwner? ==>
            Truthy(q.userId) && p[i].owner == ParseObjectId(q.userId.value).value)
      && (forall i :: 0 <= i < |p| && p[i].SortBy? ==> p[i] == SortStage(q))
      && (exists i :: 0 <= i < |p| && p[i].SortBy?)
  {
    var p := PipelineFor(q).value;
    var head := (if Truthy(q.query) then [Search(q.query.value)] else [])
                + (if Truthy(q.userId) then [MatchOwner(ParseObjectId(q.userId.value).value)] else []);
    var tail := [MatchPublished, SortStage(q), LookupOwnerDetails, UnwindOwnerDetails, Skip(SkipOf(q)), Limit(LimitOf(q))];
    assert p == head + tail;
    assert p[|head|] == MatchPublished;
    assert p[|head| + 1] == SortStage(q);
    if Truthy(q.userId) {
      assert p[|head| - 1].MatchOwner?;
    }
  }

  /** A malformed `userId` is refused with 400; a well-formed or absent one is not. */
  lemma InvalidUserIdRefused(q: VideoQuery)
    ensures PipelineFor(q).Err? <==> Truthy(q.userId) && !(|q.userId.value| == 24 && AllHex(q.userId.value))
    ensures PipelineFor(q).Err? ==> PipelineFor(q).status == 400
  {
  }

  // ----- getAllVideos: pagination -----

  /** `Math.ceil(total / limit)` for a positive limit. */
  function CeilDiv(total: nat, limit: nat): (pages: nat)
    requires limit > 0
    ensures (pages - 1) * limit < total <= pages * limit
  {
    var n := total + limit - 1;
    assert n == (n / limit) * limit + n % limit;
    n / limit
  }

  /** Every page up to the last one starts inside the published videos. */
  lemma {:induction false} PagesWithinTotal(total: nat, limit: nat, page: int)
    requires limit > 0 && 1 <= page <= CeilDiv(total, limit)
    ensures 0 <= (page - 1) * limit < total
  {
    var pages := CeilDiv(total, limit);
    assert (page - 1) * limit <= (pages - 1) * limit by {
      MultiplyMonotone(page - 1, pages - 1, limit);
    }
    MultiplyMonotone(0, page - 1, limit);
  }

  lemma MultiplyMonotone(a: int, b: int, c: nat)
    requires a <= b
    ensures a * c <= b * c
  {
    assert b * c - a * c == (b - a) * c;
  }

  function PublishedIds(videos: map<VideoId, Video>): set<VideoId> {
    set id | id in videos && videos[id].isPublished
  }

  datatype Pagination = Pagination(totalVideos: nat, totalPages: nat, currentPage: int, limit: int)

  /** The answer to `getAllVideos`: the pipeline that selects the page (its evaluation by the
      database engine is not part of this model) and the pagination block. */
  datatype Listing = Listing(pipeline: seq<Stage>, pagination: Pagination)

  /** `getAllVideos`: a negative skip or a non-positive limit makes the aggregation fail, which
      is reported as 500; the total counts every published video, whatever the filters. */
  function ListVideos(videos: map<VideoId, Video>, q: VideoQuery): (r: Result<Listing>)
    ensures PipelineFor(q).Err? ==> r == Err(400, "Invalid userId")
    ensures PipelineFor(q).Ok? && (SkipOf(q) < 0 || LimitOf(q) <= 0) ==>
      r == Err(InternalError, "An error occurred while fetching videos")
    ensures PipelineFor(q).Ok? && SkipOf(q) >= 0 && LimitOf(q) > 0 ==> r.Ok?
    ensures r.Ok? ==>
      && r.value.pipeline == PipelineFor(q).value
      && LimitOf(q) > 0 && SkipOf(q) >= 0
      && r.value.pagination.totalVideos == |PublishedIds(videos)|
      && (r.value.pagination.totalPages - 1) * LimitOf(q) < |PublishedIds(videos)|
      && |PublishedIds(videos)| <= r.value.pagination.totalPages * LimitOf(q)
      && r.value.pagination.currentPage == PageOf(q)
      && r.value.pagination.limit == LimitOf(q)
  {
    match PipelineFor(q)
    case Err(st, m) => Err(st, m)
    case Ok(p) =>
      if SkipOf(q) < 0 || LimitOf(q) <= 0 then Err(InternalError, "An error occurred while fetching videos")
      else
        var total := |PublishedIds(videos)|;
        Ok(Listing(p, Pagination(total, CeilDiv(total, LimitOf(q)), PageOf(q), LimitOf(q))))
  }

  // ----- Effects outside the collection -----

  /** A staged upload file removed from the local disk, a record removed from the collection, or
      a request to the storage provider to destroy an asset. */
  datatype Effect = Unlinked(path: string) | RecordRemoved(id: VideoId) | DestroyRequested(publicId: string)

  /** A handler's outcome, the collection it leaves and the effects it performs, in order. */
  datatype VideoStep<T> = VideoStep(result: Result<T>, videos: map<VideoId, Video>, effects: seq<Effect>)

  // ----- publishAVideo -----

  /** `req.files` after the upload middleware: the staged path of the first file of each field,
      or `None` when the field is absent. */
  datatype PublishFiles = PublishFiles(videoFile: Option<string>, thumbnail: Option<string>)

  datatype PublishForm = PublishForm(title: Option<string>, description: Option<string>, isPublic: Option<string>)

  /** `if (path) fs.unlinkSync(path)`. */
  function UnlinkIfTruthy(path: Option<string>): seq<Effect> {
    if Truthy(path) then [Unlinked(path.value)] else []
  }

  /** `if (req.files.field) fs.unlinkSync(req.files.field[0].path)`.  The upload middleware only
      stages files under a non-empty path, so the empty path (on which `unlinkSync` would throw)
      never reaches this call. */
  function UnlinkPresent(path: Option<string>): seq<Effect> {
    if path.Some? then [Unlinked(path.value)] else []
  }

  /** The part of `publishAVideo` after the files and fields were checked: the owner must be
      known, both uploads must succeed, and the record is created, published unless `isPublic`
      is "false". */
  function PublishCreate(
    videos: map<VideoId, Video>, videoPath: string, thumbnailPath: string, form: PublishForm,
    requester: Option<UserId>, videoResponse: Option<Upload>, thumbnailResponse: Option<Upload>, newId: VideoId)
    : (s: VideoStep<Video>)
    requires newId !in videos && Truthy(form.title) && Truthy(form.description)
    ensures s.effects == []
    ensures s.result.Err? ==> s.videos == videos
    ensures requester.None? ==> s.result == Err(401, "user not loggedin")
    ensures s.result.Ok? <==> (requester.Some? && Truthy(Some(videoPath)) && Truthy(Some(thumbnailPath))
                               && videoResponse.Some? && thumbnailResponse.Some?)
    ensures s.result.Ok? ==>
      && s.videos == videos[newId := s.result.value]
      && s.result.value == Video(
           videoResponse.value.secureUrl, videoResponse.value.publicId,
           thumbnailResponse.value.secureUrl, thumbnailResponse.value.publicId,
           requester.value, form.title.value, form.description.value, videoResponse.value.duration,
           form.isPublic != Some("false"))
  {
    if requester.None? then VideoStep(Err(401, "user not loggedin"), videos, [])
    else
      var videoFile := UploadOnCloudinary(Some(videoPath), videoResponse);
      var thumbnail := UploadOnCloudinary(Some(thumbnailPath), thumbnailResponse);
      if thumbnail.None? || videoFile.None? then
        VideoStep(Err(InternalError, "uploading error when uploading either video or thumbnail to cloudinary"), videos, [])
      else
        var video := Video(
          videoFile.value.secureUrl, videoFile.value.publicId, thumbnail.value.secureUrl,
          thumbnail.value.publicId, requester.value, form.title.value, form.description.value,
          videoFile.value.duration, form.isPublic != Some("false"));
        VideoStep(Ok(video), videos[newId := video], [])
  }

  const MissingFile := "either videoFile or thumbnail is missing"
  const MissingText := "cannot publish video without title and description"
  const FsUndefined := "fs is not defined"

  /** `publishAVideo` as written: `fs` is never imported, so every branch that tries to remove a
      staged file throws a ReferenceError instead, and the request ends with 500 while the
      files stay on disk. */
  function PublishAsWritten(
    videos: map<VideoId, Video>, files: Option<PublishFiles>, form: PublishForm, requester: Option<UserId>,
    videoResponse: Option<Upload>, thumbnailResponse: Option<Upload>, newId: VideoId)
    : (s: VideoStep<Video>)
    requires newId !in videos
    ensures s.effects == []
    ensures files.None? ==> s.result.Err? && s.result.status == InternalError
    ensures files.Some? && files.value.videoFile.None? && files.value.thumbnail.None? ==>
      s.result == Err(401, MissingFile)
    ensures files.Some? && (files.value.videoFile.Some? != files.value.thumbnail.Some?) ==>
      s.result == Err(InternalError, FsUndefined)
    ensures files.Some? && files.value.videoFile.Some? && files.value.thumbnail.Some?
            && (!Truthy(form.title) || !Truthy(form.description)) ==>
      s.result == (if Truthy(files.value.videoFile) || Truthy(files.value.thumbnail)
                   then Err(InternalError, FsUndefined) else Err(401, MissingText))
    ensures s.result.Err? ==> s.videos == videos
  {
    if files.None? then VideoStep(Err(InternalError, "Cannot read properties of undefined (reading 'videoFile')"), videos, [])
    else if files.value.videoFile.None? || files.value.thumbnail.None? then
      if files.value.videoFile.Some? || files.value.thumbnail.Some? then VideoStep(Err(InternalError, FsUndefined), videos, [])
      else VideoStep(Err(401, MissingFile), videos, [])
    else
      var videoPath := files.value.videoFile;
      var thumbnailPath := files.value.thumbnail;
      if !Truthy(form.title) || !Truthy(form.description) then
        if Truthy(videoPath) || Truthy(thumbnailPath) then VideoStep(Err(InternalError, FsUndefined), videos, [])
        else VideoStep(Err(401, MissingText), videos, [])
      else PublishCreate(videos, videoPath.value, thumbnailPath.value, form, requester, videoResponse, thumbnailResponse, newId)
  }

  /** `publishAVideo` with `fs` imported: a request missing a file, the title or the description
      is refused with 401 after its staged files are removed, and creates nothing. */
  function PublishOutcome(
    videos: map<VideoId, Video>, files: Option<PublishFiles>, form: PublishForm, requester: Option<UserId>,
    videoResponse: Option<Upload>, thumbnailResponse: Option<Upload>, newId: VideoId)
    : (s: VideoStep<Video>)
    requires newId !in videos
    ensures s.result.Err? ==> s.videos == videos
    ensures files.None? ==> s.result.Err? && s.result.status == InternalError && s.effects == []
    ensures files.Some? && (files.value.videoFile.None? || files.value.thumbnail.None?) ==>
      s == VideoStep(Err(401, MissingFile), videos,
                     UnlinkPresent(files.value.videoFile) + UnlinkPresent(files.value.thumbnail))
    ensures files.Some? && files.value.videoFile.Some? && files.value.thumbnail.Some?
            && (!Truthy(form.title) || !Truthy(form.description)) ==>
      s == VideoStep(Err(401, MissingText), videos,
                     UnlinkIfTruthy(files.value.videoFile) + UnlinkIfTruthy(files.value.thumbnail))
    ensures s.result.Ok? ==>
      && files.Some? && files.value.videoFile.Some? && files.value.thumbnail.Some?
      && Truthy(form.title) && Truthy(form.description) && requester.Some?
      && videoResponse.Some? && thumbnailResponse.Some?
      && s.videos == videos[newId := s.result.value]
      && s.result.value.owner == requester.value
      && (s.result.value.isPublished <==> form.isPublic != Some("false"))
      && s.effects == []
    ensures files.Some? && files.value.videoFile.Some? && files.value.thumbnail.Some?
            && Truthy(form.title) && Truthy(form.description) ==>
      s == PublishCreate(videos, files.value.videoFile.value, files.value.thumbnail.value, form, requester,
                         videoResponse, thumbnailResponse, newId)
  {
    if files.None? then VideoStep(Err(InternalError, "Cannot read properties of undefined (reading 'videoFile')"), videos, [])
    else if files.value.videoFile.None? || files.value.thumbnail.None? then
      VideoStep(Err(401, MissingFile), videos, UnlinkPresent(files.value.videoFile) + UnlinkPresent(files.value.thumbnail))
    else
      var videoPath := files.value.videoFile;
      var thumbnailPath := files.value.thumbnail;
      if !Truthy(form.title) || !Truthy(form.description) then
        VideoStep(Err(401, MissingText), videos, UnlinkIfTruthy(videoPath) + UnlinkIfTruthy(thumbnailPath))
      else PublishCreate(videos, videoPath.value, thumbnailPath.value, form, requester, videoResponse, thumbnailResponse, newId)
  }

  /** The missing `fs` import: a request with exactly one of the two files is answered with 500
      and leaves the staged file on disk as written, and with 401 after removing it when `fs` is
      imported. */
  lemma PublishMissingFileDefect(
    videos: map<VideoId, Video>, path: string, fileIsVideo: bool, form: PublishForm, requester: Option<UserId>,
    videoResponse: Option<Upload>, thumbnailResponse: Option<Upload>, newId: VideoId)
    requires newId !in videos
    ensures var files := if fileIsVideo then PublishFiles(Some(path), None) else PublishFiles(None, Some(path));
      && PublishAsWritten(videos, Some(files), form, requester, videoResponse, thumbnailResponse, newId)
         == VideoStep(Err(InternalError, FsUndefined), videos, [])
      && PublishOutcome(videos, Some(files), form, requester, videoResponse, thumbnailResponse, newId)
         == VideoStep(Err(401, MissingFile), videos, [Unlinked(path)])
  {
  }

  // ----- getVideoById -----

  /** `getVideoById`: an unpublished video is refused like a missing one, whoever asks. */
  function GetVideoById(videos: map<VideoId, Video>, videoId: Option<string>): (r: Result<Video>)
    ensures !Truthy(videoId) ==> r == Err(400, "videoId missing")
    ensures Truthy(videoId) && ParseObjectId(videoId.value).None? ==> r.Err? && r.status == InternalError
    ensures r.Ok? <==>
      && Truthy(videoId) && ParseObjectId(videoId.value).Some?
      && ParseObjectId(videoId.value).value in videos && videos[ParseObjectId(videoId.value).value].isPublished
    ensures r.Ok? ==> r.value == videos[ParseObjectId(videoId.value).value]
    ensures r.Err? && Truthy(videoId) && ParseObjectId(videoId.value).Some? ==> r.status == 400
  {
    if !Truthy(videoId) then Err(400, "videoId missing")
    else match ParseObjectId(videoId.value)
      case None => Err(InternalError, "input must be a 24 character hex string, 12 byte Uint8Array, or an integer")
      case Some(id) =>
        if id !in videos || !videos[id].isPublished then Err(400, "video with this " + videoId.value + " is not available")
        else Ok(videos[id])
  }

  // ----- updateVideo -----

  /** The `updatedObj` of `updateVideo`: the fields to `$set`. */
  datatype VideoPatch = VideoPatch(title: Option<string>, description: Option<string>, thumbnail: Option<string>)

  function ApplyPatch(v: Video, p: VideoPatch): (w: Video)
    ensures w.title == (if p.title.Some? then p.title.value else v.title)
    ensures w.description == (if p.description.Some? then p.description.value else v.description)
    ensures w.thumbnail == (if p.thumbnail.Some? then p.thumbnail.value else v.thumbnail)
    ensures w.(title := v.title, description := v.description, thumbnail := v.thumbnail) == v
  {
    v.(title := if p.title.Some? then p.title.value else v.title,
       description := if p.description.Some? then p.description.value else v.description,
       thumbnail := if p.thumbnail.Some? then p.thumbnail.value else v.thumbnail)
  }

  /** The part of `updateVideo` after the owner was checked: the new thumbnail is uploaded and
      the supplied fields are `$set`; a failed upload is read without a null check and throws. */
  function PatchOutcome(
    videos: map<VideoId, Video>, id: VideoId, title: Option<string>, description: Option<string>,
    thumbnailPath: Option<string>, thumbnailResponse: Option<Upload>)
    : (s: VideoStep<Video>)
    requires id in videos
    ensures s.effects == []
    ensures s.result.Err? <==> Truthy(thumbnailPath) && thumbnailResponse.None?
    ensures s.result.Err? ==> s.videos == videos && s.result.status == InternalError
    ensures s.result.Ok? ==>
      && s.videos == videos[id := s.result.value]
      && s.result.value.title == (if Truthy(title) then title.value else videos[id].title)
      && s.result.value.description == (if Truthy(description) then description.value else videos[id].description)
      && (Truthy(thumbnailPath) ==> thumbnailResponse.Some?)
      && s.result.value.thumbnail
         == (if Truthy(thumbnailPath) then thumbnailResponse.value.secureUrl else videos[id].thumbnail)
      && s.result.value.thumbnailPublicId == videos[id].thumbnailPublicId
      && s.result.value.(title := videos[id].title, description := videos[id].description,
                         thumbnail := videos[id].thumbnail) == videos[id]
  {
    var thumbnail := if Truthy(thumbnailPath) then UploadOnCloudinary(thumbnailPath, thumbnailResponse) else None;
    if Truthy(thumbnailPath) && thumbnail.None? then
      VideoStep(Err(InternalError, "Cannot read properties of null (reading 'secure_url')"), videos, [])
    else
      var patch := VideoPatch(
        if Truthy(title) then title else None,
        if Truthy(description) then description else None,
        if Truthy(thumbnailPath) then Some(thumbnail.value.secureUrl) else None);
      var updated := ApplyPatch(videos[id], patch);
      VideoStep(Ok(updated), videos[id := updated], [])
  }

  /** `updateVideo` by the user the middleware attached (`None` for `null`). */
  function UpdateOutcome(
    videos: map<VideoId, Video>, videoId: Option<string>, title: Option<string>, description: Option<string>,
    thumbnailPath: Option<string>, requester: Option<UserId>, thumbnailResponse: Option<Upload>)
    : (s: VideoStep<Video>)
    ensures s.effects == []
    ensures s.result.Err? ==> s.videos == videos
    ensures !Truthy(videoId) ==> s.result == Err(400, "videoId missing")
    ensures Truthy(videoId) && !Truthy(title) && !Truthy(description) && !Truthy(thumbnailPath) ==>
      s.result == Err(400, "either send updated title ,description or thumbnail")
    ensures Truthy(videoId) && (Truthy(title) || Truthy(description) || Truthy(thumbnailPath)) && requester.Some?
            && ParseObjectId(videoId.value).Some? && ParseObjectId(videoId.value).value in videos
            && videos[ParseObjectId(videoId.value).value].owner != requester.value ==>
      s.result == Err(400, "login with owner id")
    ensures s.result.Ok? ==>
      && Truthy(videoId) && ParseObjectId(videoId.value).Some?
      && ParseObjectId(videoId.value).value in videos
      && requester == Some(videos[ParseObjectId(videoId.value).value].owner)
      && s == PatchOutcome(videos, ParseObjectId(videoId.value).value, title, description, thumbnailPath, thumbnailResponse)
  {
    if !Truthy(videoId) then VideoStep(Err(400, "videoId missing"), videos, [])
    else if !Truthy(title) && !Truthy(description) && !Truthy(thumbnailPath) then
      VideoStep(Err(400, "either send updated title ,description or thumbnail"), videos, [])
    else if requester.None? then
      VideoStep(Err(InternalError, "Cannot read properties of null (reading '_id')"), videos, [])
    else match ParseObjectId(videoId.value)
      case None => VideoStep(Err(InternalError, "Cast to ObjectId failed"), videos, [])
      case Some(id) =>
        if id !in videos then VideoStep(Err(400, "video with this videoId is missing"), videos, [])
        else if videos[id].owner != requester.value then VideoStep(Err(400, "login with owner id"), videos, [])
        else PatchOutcome(videos, id, title, description, thumbnailPath, thumbnailResponse)
  }

  // ----- deleteVideo -----

  /** The storage cleanup after a deletion: the thumbnail asset, then the video asset, each when
      the record names one.  Its outcome is never awaited. */
  function CleanupRequests(v: Video): (e: seq<Effect>)
    ensures forall i :: 0 <= i < |e| ==> e[i].DestroyRequested?
    ensures DestroyRequested(v.thumbnailPublicId) in e <==> v.thumbnailPublicId != ""
    ensures DestroyRequested(v.videoFilePublicId) in e <==> v.videoFilePublicId != ""
  {
    (if v.thumbnailPublicId != "" then [DestroyRequested(v.thumbnailPublicId)] else [])
    + (if v.videoFilePublicId != "" then [DestroyRequested(v.videoFilePublicId)] else [])
  }

  /** `deleteVideo`: only the owner may delete; the record is removed first and the cleanup
      requests follow, and the answer is 200 whatever becomes of them. */
  function DeleteOutcome(videos: map<VideoId, Video>, videoId: Option<string>, requester: Option<UserId>)
    : (s: VideoStep<string>)
    ensures !Truthy(videoId) ==> s.result == Err(400, "videoId missing")
    ensures Truthy(videoId) && requester.None? ==> s.result == Err(400, "user not loggedIn")
    ensures s.result.Err? ==> s.videos == videos && s.effects == []
    ensures s.result.Ok? <==>
      && Truthy(videoId) && requester.Some? && ParseObjectId(videoId.value).Some?
      && ParseObjectId(videoId.value).value in videos
      && videos[ParseObjectId(videoId.value).value].owner == requester.value
    ensures s.result.Ok? ==>
      var id := ParseObjectId(videoId.value).value;
      && s.videos == videos - {id}
      && s.effects == [RecordRemoved(id)] + CleanupRequests(videos[id])
  {
    if !Truthy(videoId) then VideoStep(Err(400, "videoId missing"), videos, [])
    else if requester.None? then VideoStep(Err(400, "user not loggedIn"), videos, [])
    else match ParseObjectId(videoId.value)
      case None => VideoStep(Err(InternalError, "Cast to ObjectId failed"), videos, [])
      case Some(id) =>
        if id !in videos then VideoStep(Err(400, "video with this videoId is missing"), videos, [])
        else if videos[id].owner != requester.value then VideoStep(Err(400, "login with owner id"), videos, [])
        else
          VideoStep(Ok("video : " + videos[id].title + " is deleted"), videos - {id},
                    [RecordRemoved(id)] + CleanupRequests(videos[id]))
  }

  // ----- The collection -----

  class VideoCollection {
    var videos: map<VideoId, Video>
    /** Everything the handlers did outside the collection, oldest first. */
    var effects: seq<Effect>

    constructor ()
      ensures videos == map[] && effects == []
    {
      videos := map[];
      effects := [];
    }

    /** `publishAVideo` (with `fs` imported). */
    method PublishAVideo(
      files: Option<PublishFiles>, form: PublishForm, requester: Option<UserId>,
      videoResponse: Option<Upload>, thumbnailResponse: Option<Upload>, newId: VideoId)
      returns (r: Result<Video>)
      requires newId !in videos
      modifies this
      ensures var s := PublishOutcome(old(videos), files, form, requester, videoResponse, thumbnailResponse, newId);
        r == s.result && videos == s.videos && effects == old(effects) + s.effects
    {
      if files.None? {
        return Err(InternalError, "Cannot read properties of undefined (reading 'videoFile')");
      }
      var removed: seq<Effect> := [];
      if files.value.videoFile.None? || files.value.thumbnail.None? {
        if files.value.videoFile.Some? {
          removed := removed + [Unlinked(files.value.videoFile.value)];
        }
        if files.value.thumbnail.Some? {
          removed := removed + [Unlinked(files.value.thumbnail.value)];
        }
        assert removed == UnlinkPresent(files.value.videoFile) + UnlinkPresent(files.value.thumbnail);
        effects := effects + removed;
        return Err(401, MissingFile);
      }
      var videoFileLocalPath := files.value.videoFile;
      var thumbnailLocalPath := files.value.thumbnail;
      if !Truthy(form.title) || !Truthy(form.description) {
        if Truthy(videoFileLocalPath) {
          removed := removed + [Unlinked(videoFileLocalPath.value)];
        }
        if Truthy(thumbnailLocalPath) {
          removed := removed + [Unlinked(thumbnailLocalPath.value)];
        }
        assert removed == UnlinkIfTruthy(videoFileLocalPath) + UnlinkIfTruthy(thumbnailLocalPath);
        effects := effects + removed;
        return Err(401, MissingText);
      }
      r := CreateVideo(videoFileLocalPath.value, thumbnailLocalPath.value, form, requester,
                       videoResponse, thumbnailResponse, newId);
    }

    /** The owner check, the two uploads and `Video.create`. */
    method CreateVideo(
      videoFileLocalPath: string, thumbnailLocalPath: string, form: PublishForm, requester: Option<UserId>,
      videoResponse: Option<Upload>, thumbnailResponse: Option<Upload>, newId: VideoId)
      returns (r: Result<Video>)
      requires newId !in videos && Truthy(form.title) && Truthy(form.description)
      modifies this
      ensures var s := PublishCreate(old(videos), videoFileLocalPath, thumbnailLocalPath, form, requester,
                                     videoResponse, thumbnailResponse, newId);
        r == s.result && videos == s.videos && effects == old(effects)
    {
      var ownerId := requester;
      if ownerId.None? {
        return Err(401, "user not loggedin");
      }
      var videoFile := UploadOnCloudinary(Some(videoFileLocalPath), videoResponse);
      var thumbnail := UploadOnCloudinary(Some(thumbnailLocalPath), thumbnailResponse);
      if thumbnail.None? || videoFile.None? {
        return Err(InternalError, "uploading error when uploading either video or thumbnail to cloudinary");
      }
      var video := Video(
        videoFile.value.secureUrl, videoFile.value.publicId, thumbnail.value.secureUrl,
        thumbnail.value.publicId, ownerId.value, form.title.value, form.description.value,
        videoFile.value.duration, form.isPublic != Some("false"));
      videos := videos[newId := video];
      r := Ok(video);
    }

    /** `updateVideo`: the patch is filled field by field and `$set` on the record. */
    method UpdateVideo(
      videoId: Option<string>, title: Option<string>, description: Option<string>,
      thumbnailPath: Option<string>, requester: Option<UserId>, thumbnailResponse: Option<Upload>)
      returns (r: Result<Video>)
      modifies this
      ensures var s := UpdateOutcome(old(videos), videoId, title, description, thumbnailPath, requester, thumbnailResponse);
        r == s.result && videos == s.videos && effects == old(effects)
    {
      if !Truthy(videoId) {
        return Err(400, "videoId missing");
      }
      if !Truthy(title) && !Truthy(description) && !Truthy(thumbnailPath) {
        return Err(400, "either send updated title ,description or thumbnail");
      }
      if requester.None? {
        return Err(InternalError, "Cannot read properties of null (reading '_id')");
      }
      var parsed := ParseObjectId(videoId.value);
      if parsed.None? {
        return Err(InternalError, "Cast to ObjectId failed");
      }
      var id := parsed.value;
      if id !in videos {
        return Err(400, "video with this videoId is missing");
      }
      if videos[id].owner != requester.value {
        return Err(400, "login with owner id");
      }
      r := PatchVideo(id, title, description, thumbnailPath, thumbnailResponse);
    }

    /** Upload the new thumbnail, fill `updatedObj` field by field and `$set` it. */
    method PatchVideo(
      id: VideoId, title: Option<string>, description: Option<string>, thumbnailPath: Option<string>,
      thumbnailResponse: Option<Upload>)
      returns (r: Result<Video>)
      requires id in videos
      modifies this
      ensures var s := PatchOutcome(old(videos), id, title, description, thumbnailPath, thumbnailResponse);
        r == s.result && videos == s.videos && effects == old(effects)
    {
      var thumbnail: Option<Upload> := None;
      if Truthy(thumbnailPath) {
        thumbnail := UploadOnCloudinary(thumbnailPath, thumbnailResponse);
      }
      var updatedObj := VideoPatch(None, None, None);
      if Truthy(title) {
        updatedObj := updatedObj.(title := title);
      }
      if Truthy(description) {
        updatedObj := updatedObj.(description := description);
      }
      if Truthy(thumbnailPath) {
        if thumbnail.None? {
          return Err(InternalError, "Cannot read properties of null (reading 'secure_url')");
        }
        updatedObj := updatedObj.(thumbnail := Some(thumbnail.value.secureUrl));
      }
      var updatedVideo := ApplyPatch(videos[id], updatedObj);
      videos := videos[id := updatedVideo];
      r := Ok(updatedVideo);
    }

    /** `deleteVideo`: remove the record, then request the cleanup without waiting for it. */
    method DeleteVideo(videoId: Option<string>, requester: Option<UserId>) returns (r: Result<string>)
      modifies this
      ensures var s := DeleteOutcome(old(videos), videoId, requester);
        r == s.result && videos == s.videos && effects == old(effects) + s.effects
    {
      if !Truthy(videoId) {
        return Err(400, "videoId missing");
      }
      if requester.None? {
        return Err(400, "user not loggedIn");
      }
      var parsed := ParseObjectId(videoId.value);
      if parsed.None? {
        return Err(InternalError, "Cast to ObjectId failed");
      }
      var id := parsed.value;
      if id !in videos {
        return Err(400, "video with this videoId is missing");
      }
      var video := videos[id];
      if video.owner != requester.value {
        return Err(400, "login with owner id");
      }
      videos := videos - {id};
      effects := effects + [RecordRemoved(id)];
      if video.thumbnailPublicId != "" {
        effects := effects + [DestroyRequested(video.thumbnailPublicId)];
      }
      if video.videoFilePublicId != "" {
        effects := effects + [DestroyRequested(video.videoFilePublicId)];
      }
      r := Ok("video : " + video.title + " is deleted");
    }
  }

  // ----- Properties across handlers -----

  /** A video published with `isPublic` "false" cannot be read back, not even by its owner
      (`getVideoById` does not look at the requester at all). */
  lemma PrivateVideoHidden(
    videos: map<VideoId, Video>, files: PublishFiles, form: PublishForm, owner: UserId,
    videoResponse: Option<Upload>, thumbnailResponse: Option<Upload>, videoId: string)
    requires ParseObjectId(videoId).Some? && ParseObjectId(videoId).value !in videos
    requires form.isPublic == Some("false")
    ensures var newId := ParseObjectId(videoId).value;
      var s := PublishOutcome(videos, Some(files), form, Some(owner), videoResponse, thumbnailResponse, newId);
      GetVideoById(s.videos, Some(videoId)).Err? && GetVideoById(s.videos, Some(videoId)).status == 400
  {
  }

  /** A published video can be read back by anyone. */
  lemma PublishedVideoVisible(
    videos: map<VideoId, Video>, files: PublishFiles, form: PublishForm, owner: UserId,
    videoResponse: Option<Upload>, thumbnailResponse: Option<Upload>, videoId: string)
    requires ParseObjectId(videoId).Some? && ParseObjectId(videoId).value !in videos
    requires PublishOutcome(videos, Some(files), form, Some(owner), videoResponse, thumbnailResponse,
                            ParseObjectId(videoId).value).result.Ok?
    requires form.isPublic != Some("false")
    ensures var newId := ParseObjectId(videoId).value;
      var s := PublishOutcome(videos, Some(files), form, Some(owner), videoResponse, thumbnailResponse, newId);
      GetVideoById(s.videos, Some(videoId)) == s.result
  {
  }

  /** A deleted video is gone: reading, updating or deleting it again is refused. */
  lemma DeletedVideoGone(videos: map<VideoId, Video>, videoId: string, requester: UserId)
    requires DeleteOutcome(videos, Some(videoId), Some(requester)).result.Ok?
    ensures var after := DeleteOutcome(videos, Some(videoId), Some(requester)).videos;
      && GetVideoById(after, Some(videoId)).status == 400
      && DeleteOutcome(after, Some(videoId), Some(requester)).result == Err(400, "video with this videoId is missing")
  {
  }

  /** Updates and deletions by anyone but the owner change nothing. */
  lemma OnlyOwnerChanges(
    videos: map<VideoId, Video>, videoId: string, requester: UserId, title: Option<string>,
    description: Option<string>, thumbnailPath: Option<string>, thumbnailResponse: Option<Upload>)
    requires ParseObjectId(videoId).Some? && ParseObjectId(videoId).value in videos
    requires videos[ParseObjectId(videoId).value].owner != requester
    ensures DeleteOutcome(videos, Some(videoId), Some(requester)).videos == videos
    ensures UpdateOutcome(videos, Some(videoId), title, description, thumbnailPath, Some(requester), thumbnailResponse).videos == videos
  {
  }

  /** The total of the pagination block does not depend on the query, the owner filter or the
      sort: only on the published videos. */
  lemma PaginationIgnoresFilters(videos: map<VideoId, Video>, q1: VideoQuery, q2: VideoQuery)
    requires ListVideos(videos, q1).Ok? && ListVideos(videos, q2).Ok?
    requires LimitOf(q1) == LimitOf(q2)
    ensures ListVideos(videos, q1).value.pagination.totalVideos == ListVideos(videos, q2).value.pagination.totalVideos
    ensures ListVideos(videos, q1).value.pagination.totalPages == ListVideos(videos, q2).value.pagination.totalPages
  {
  }
}
