/**
 * handler_upload_thumbnail.go: getImgExt, the image name, URL and file path
 * built from 16 random bytes, and handlerUploadThumbnail as a run of fallible
 * steps with early return, recording what each step did.
 */
module UploadThumbnail {
  import opened Wrappers
  import opened Api
  import GoStrings
  import Base64Url

  /** The second segments getImgExt accepts. */
  predicate IsImageSubtype(s: string) {
    s == "png" || s == "jpeg" || s == "jpg"
  }

  /** getImgExt: the second "/"-separated segment of the content type, accepted
      only when it is png, jpeg or jpg; a refusal comes with an empty extension
      and one of the two messages. */
  function GetImgExt(contentType: string): (r: ExtResult)
    ensures r.err.None? ==> IsImageSubtype(r.ext)
    ensures r.err.Some? ==> r.ext == "" && (r.err == Some(ParseFailure) || r.err == Some(WrongType))
  {
    var parts := GoStrings.Split(contentType);
    if |parts| < 2 then ExtResult("", Some(ParseFailure))
    else if IsImageSubtype(parts[1]) then ExtResult(parts[1], None)
    else ExtResult("", Some(WrongType))
  }

  /** What getImgExt returns, in terms of the cut t + "/" + second + rest of the
      content type: no slash is a parse failure; otherwise only the second
      segment decides, and an accepted one is returned unchanged. */
  lemma GetImgExtCases(contentType: string)
    ensures GoStrings.Slash !in contentType ==>
      GetImgExt(contentType) == ExtResult("", Some(ParseFailure))
    ensures forall t, second, rest | GoStrings.Cuts(contentType, t, second, rest) ::
      GetImgExt(contentType) ==
        if IsImageSubtype(second) then ExtResult(second, None) else ExtResult("", Some(WrongType))
  {
    GoStrings.CutOfSplit(contentType);
    GoStrings.SplitOfAnyCut(contentType);
  }

  /** The parse failure is reported exactly when there is no slash; the type
      is accepted exactly when its second segment is png, jpeg or jpg, and
      then that segment is what comes back. */
  lemma ImgAccepted(contentType: string)
    ensures GetImgExt(contentType).err == Some(ParseFailure) <==> GoStrings.Slash !in contentType
    ensures GetImgExt(contentType).err.None? <==>
      exists t, second, rest ::
        GoStrings.Cuts(contentType, t, second, rest) && IsImageSubtype(second)
    ensures GetImgExt(contentType).err.None? ==>
      IsImageSubtype(GetImgExt(contentType).ext) &&
      GetImgExt(contentType).ext == GoStrings.Split(contentType)[1]
    ensures GetImgExt(contentType).err.Some? ==> GetImgExt(contentType).ext == ""
  {
    GoStrings.CutOfSplit(contentType);
    GetImgExtCases(contentType);
    assert ParseFailure[0] != WrongType[0];
  }

  /** Any slash-free type before "/png", "/jpeg" or "/jpg" is accepted. */
  lemma ImgAcceptsListed(t: string, subtype: string)
    requires GoStrings.Slash !in t
    requires IsImageSubtype(subtype)
    ensures GetImgExt(t + "/" + subtype) == ExtResult(subtype, None)
  {
    assert GoStrings.Cuts(t + "/" + subtype, t, subtype, "");
    GetImgExtCases(t + "/" + subtype);
  }

  /** "image/gif" and every other unlisted second segment is refused,
      whatever segments follow it. */
  lemma ImgRefusesOthers(t: string, subtype: string, rest: string)
    requires GoStrings.Slash !in t && GoStrings.Slash !in subtype
    requires rest == [] || rest[0] == GoStrings.Slash
    requires !IsImageSubtype(subtype)
    ensures GetImgExt(t + "/" + subtype + rest) == ExtResult("", Some(WrongType))
  {
    assert GoStrings.Cuts(t + "/" + subtype + rest, t, subtype, rest);
    GetImgExtCases(t + "/" + subtype + rest);
  }

  /** An empty second segment ("image/", "image//png") is refused, not a parse
      failure. */
  lemma ImgRefusesEmptySubtype(t: string, rest: string)
    requires GoStrings.Slash !in t
    requires rest == [] || rest[0] == GoStrings.Slash
    ensures GetImgExt(t + "/" + rest) == ExtResult("", Some(WrongType))
  {
    assert t + "/" + rest == t + "/" + "" + rest;
    ImgRefusesOthers(t, "", rest);
  }

  /** The port and directory the images are served from. */
  const AssetsURL := "http://localhost:8091/"
  const AssetsDir := "assets/"
  /** os.WriteFile's permission bits, 0644. */
  const FileMode := 0x1A4

  /** RawURLEncoding.EncodeToString of the 16 random bytes. */
  function ImageName(nameBytes: NameBytes): (name: string)
    ensures |name| == 22
    ensures forall i :: 0 <= i < |name| ==> Base64Url.IsUrlSafe(name[i])
    ensures GoStrings.Slash !in name
  {
    Base64Url.Encode(nameBytes)
  }

  /** The name gives back the bytes it was drawn from. */
  lemma ImageNameDecodes(nameBytes: NameBytes)
    ensures Base64Url.Decode(ImageName(nameBytes)) == Some(nameBytes)
  {
    Base64Url.DecodeEncode(nameBytes);
  }

  /** fmt.Sprintf("assets/%s.%s", name, ext). */
  function ImagePath(name: string, ext: string): (path: string)
    ensures |path| == |AssetsDir| + |name| + 1 + |ext|
    ensures path[..|AssetsDir|] == AssetsDir
    ensures path[|AssetsDir|..|AssetsDir| + |name|] == name
    ensures path[|AssetsDir| + |name|] == '.'
    ensures path[|AssetsDir| + |name| + 1..] == ext
  {
    AssetsDir + name + "." + ext
  }

  /** fmt.Sprintf("http://localhost:8091/assets/%s.%s", name, ext). */
  function ImageURL(name: string, ext: string): (url: string)
    ensures |url| == |AssetsURL| + |AssetsDir| + |name| + 1 + |ext|
    ensures url[..|AssetsURL|] == AssetsURL
    ensures url[|AssetsURL|..] == ImagePath(name, ext)
  {
    "http://localhost:8091/assets/" + name + "." + ext
  }

  /** The URL is the server's address followed by the written path. */
  lemma ImageURLServesPath(name: string, ext: string)
    ensures ImageURL(name, ext) == AssetsURL + ImagePath(name, ext)
  {
  }

  /** A drawn name with an extension from getImgExt stays inside assets/: no
      slash follows the directory. */
  lemma ImagePathInAssets(nameBytes: NameBytes, ext: string)
    requires GoStrings.Slash !in ext
    ensures ImagePath(ImageName(nameBytes), ext)[..|AssetsDir|] == AssetsDir
    ensures GoStrings.Slash !in ImagePath(ImageName(nameBytes), ext)[|AssetsDir|..]
  {
  }

  /** Distinct random names give distinct paths, whatever the extensions. */
  lemma ImagePathInjective(a: NameBytes, ea: string, b: NameBytes, eb: string)
    requires ImagePath(ImageName(a), ea) == ImagePath(ImageName(b), eb)
    ensures a == b && ea == eb
  {
    var pa, pb := ImagePath(ImageName(a), ea), ImagePath(ImageName(b), eb);
    assert ImageName(a) == pa[7..29];
    assert ImageName(b) == pb[7..29];
    Base64Url.EncodeInjective(a, b);
    assert ea == pa[30..];
    assert eb == pb[30..];
  }

  /** What the collaborators of handlerUploadThumbnail return, one field per
      call: uuid.Parse, auth.GetBearerToken, auth.ValidateJWT (the user),
      ParseMultipartForm, FormFile("thumbnail") and its Content-Type header,
      io.ReadAll, db.GetVideo, rand.Read (the bytes), os.WriteFile and
      db.UpdateVideo. */
  datatype Request = Request(
    videoID: Outcome,
    token: Outcome,
    userID: Option<Uuid>,
    form: Outcome,
    formFile: Outcome,
    contentType: string,
    read: Outcome,
    stored: Option<Video>,
    random: Option<NameBytes>,
    write: Outcome,
    update: Outcome)

  /** The arguments of os.WriteFile other than the data read from the form. */
  datatype WriteFileInput = WriteFileInput(path: string, perm: int)

  /** What the handler did: how many steps of Plan it took (the last one taken
      is the one it returned after), the calls it deferred, the file it asked
      to write, its local copy of the video record, and the record it handed
      to UpdateVideo. */
  datatype Effects = Effects(
    taken: nat,
    deferred: seq<Deferred>,
    write: Option<WriteFileInput>,
    vid: Option<Video>,
    updated: Option<Video>)

  /** The steps of handlerUploadThumbnail in source order. */
  const Plan: seq<Step> := [
    ParseVideoID, GetBearerToken, ValidateJWT, ParseForm, GetFormFile, ReadThumbnail,
    GetVideo, CheckOwner, CheckFormat, ReadRandom, SetThumbnailURL, WriteFile, UpdateVideo]

  /** Whether a step lets the handler go on. */
  predicate Passes(req: Request, step: Step) {
    match step
    case ParseVideoID => req.videoID == Ok
    case GetBearerToken => req.token == Ok
    case ValidateJWT => req.userID.Some?
    case ParseForm => req.form == Ok
    case GetFormFile => req.formFile == Ok
    case ReadThumbnail => req.read == Ok
    case GetVideo => req.stored.Some?
    case CheckOwner => req.stored.Some? && req.userID.Some? && req.stored.value.userID == req.userID.value
    case CheckFormat => GetImgExt(req.contentType).err.None?
    case ReadRandom => req.random.Some?
    case SetThumbnailURL => true
    case WriteFile => req.write == Ok
    case UpdateVideo => req.update == Ok
    case _ => false
  }

  /** The number of steps of Plan the handler takes: up to and including the
      first that fails, or all of them (setting ThumbnailURL cannot fail). */
  function Taken(req: Request): (n: nat)
    ensures 0 < n <= |Plan|
  {
    if req.videoID == Err then 1
    else if req.token == Err then 2
    else if req.userID.None? then 3
    else if req.form == Err then 4
    else if req.formFile == Err then 5
    else if req.read == Err then 6
    else if req.stored.None? then 7
    else if req.stored.value.userID != req.userID.value then 8
    else if GetImgExt(req.contentType).err.Some? then 9
    else if req.random.None? then 10
    else if req.write == Err then 12
    else 13
  }

  /** The inputs that n steps read: the stored record once GetVideo passed
      (n > 7), the random name once ReadRandom passed (n > 10). */
  predicate Fits(req: Request, n: nat) {
    (n > 7 ==> req.stored.Some?) && (n > 10 ==> req.random.Some?)
  }

  /** Taken stops at the first failing step: every step before it passed, the
      last one taken failed unless it is the last of Plan, and the inputs the
      steps read are there. */
  lemma TakenIsFirstFailure(req: Request)
    ensures forall i :: 0 <= i < Taken(req) - 1 ==> Passes(req, Plan[i])
    ensures Taken(req) < |Plan| ==> !Passes(req, Plan[Taken(req) - 1])
    ensures Fits(req, Taken(req))
  {
  }

  /** The error response of a step that fails. A failed write answers with the
      message of a failed GetVideo, as the source does. */
  function Failure(step: Step): (r: Response)
    ensures r.Error?
  {
    match step
    case ParseVideoID => Error(StatusBadRequest, "Invalid ID")
    case GetBearerToken => Error(StatusUnauthorized, "Couldn't find JWT")
    case ValidateJWT => Error(StatusUnauthorized, "Couldn't validate JWT")
    case ParseForm => Error(StatusBadRequest, "Couldn't parse multipart form")
    case GetFormFile => Error(StatusBadRequest, "Couldn't parse thumbnail")
    case ReadThumbnail => Error(StatusBadRequest, "Couldn't parse thumbnail data")
    case GetVideo => Error(StatusBadRequest, "Couldn't retrive video data from the database")
    case CheckOwner => Error(StatusUnauthorized, "You are not the author of that video")
    case CheckFormat => Error(StatusBadRequest, "Invalid image format")
    case ReadRandom => Error(StatusBadRequest, "Failed to create random image name")
    case WriteFile => Error(StatusBadRequest, "Couldn't retrive video data from the database")
    case UpdateVideo => Error(StatusBadRequest, "Couldn't update video data in the database")
    case _ => Error(StatusBadRequest, "")
  }

  /** A missing or invalid token and a caller who does not own the video are
      answered 401, every other failure 400. */
  lemma FailureStatus(step: Step)
    ensures Failure(step).status == StatusUnauthorized || Failure(step).status == StatusBadRequest
    ensures Failure(step).status == StatusUnauthorized <==>
      (step == GetBearerToken || step == ValidateJWT || step == CheckOwner)
  {
  }

  /** What the handler has done once it has taken the first n steps of Plan.
      The form file's Close is deferred once GetFormFile passed (n > 5); the
      local record is the stored one after GetVideo (n > 7) and gets its
      ThumbnailURL once the name is drawn (n > 10); the file is written next
      (n > 11) and the record goes to UpdateVideo as the last step (n > 12). */
  function EffectsAfter(req: Request, n: nat): Effects
    requires Fits(req, n)
  {
    var ext := GetImgExt(req.contentType).ext;
    var name := if n > 10 then ImageName(req.random.value) else "";
    var vid := if n <= 7 then None
               else if n <= 10 then Some(req.stored.value)
               else Some(req.stored.value.(thumbnailURL := Some(ImageURL(name, ext))));
    Effects(
      n,
      if n > 5 then [CloseFormFile] else [],
      if n > 11 then Some(WriteFileInput(ImagePath(name, ext), FileMode)) else None,
      vid,
      if n > 12 then vid else None)
  }

  /** The response after n steps: the updated record when all of Plan passed,
      otherwise the error of the last step taken. */
  function ResponseAfter(req: Request, n: nat): Response
    requires 0 < n <= |Plan|
    requires Fits(req, n)
  {
    if n == |Plan| && Passes(req, UpdateVideo) then Json(StatusOK, EffectsAfter(req, n).updated.value)
    else Failure(Plan[n - 1])
  }

  /** The handler answered res and left eff: it took Plan up to and including
      the first failing step, and did and answered what that many steps do. */
  predicate Ran(req: Request, res: Response, eff: Effects) {
    var n := Taken(req);
    Fits(req, n) && eff == EffectsAfter(req, n) && res == ResponseAfter(req, n)
  }

  /** One part of the handler, ending after step k: either it returned early,
      having run as Ran says, or every step up to k passed and it leaves the
      effects of k steps. */
  predicate Section(req: Request, k: nat, stopped: bool, res: Response, eff: Effects) {
    (stopped ==> Ran(req, res, eff)) &&
    (!stopped ==> Taken(req) > k && Fits(req, k) && eff == EffectsAfter(req, k))
  }

  /** Lines 18-35: parse the id and authenticate. */
  method Authenticate(req: Request) returns (stopped: bool, res: Response, eff: Effects)
    ensures Section(req, 3, stopped, res, eff)
  {
    stopped, res := true, Error(StatusBadRequest, "");
    eff := Effects(1, [], None, None, None);
    if req.videoID == Err { return true, Failure(ParseVideoID), eff; }
    eff := eff.(taken := 2);
    if req.token == Err { return true, Failure(GetBearerToken), eff; }
    eff := eff.(taken := 3);
    if req.userID.None? { return true, Failure(ValidateJWT), eff; }
    stopped := false;
  }

  /** Lines 41-61: parse the form and read the thumbnail's data. */
  method ReadForm(req: Request, eff0: Effects) returns (stopped: bool, res: Response, eff: Effects)
    requires Taken(req) > 3 && Fits(req, 3) && eff0 == EffectsAfter(req, 3)
    ensures Section(req, 6, stopped, res, eff)
  {
    stopped, res := true, Error(StatusBadRequest, "");
    eff := eff0.(taken := 4);
    if req.form == Err { return true, Failure(ParseForm), eff; }
    eff := eff.(taken := 5);
    if req.formFile == Err { return true, Failure(GetFormFile), eff; }
    // defer file.Close()
    eff := eff.(taken := 6, deferred := eff.deferred + [CloseFormFile]);
    if req.read == Err { return true, Failure(ReadThumbnail), eff; }
    stopped := false;
  }

  /** Lines 63-80: fetch the record, check its owner and the image type. */
  method CheckVideo(req: Request, eff0: Effects) returns (stopped: bool, res: Response, eff: Effects)
    requires Taken(req) > 6 && Fits(req, 6) && eff0 == EffectsAfter(req, 6)
    ensures Section(req, 9, stopped, res, eff)
  {
    stopped, res := true, Error(StatusBadRequest, "");
    var userID := req.userID.value;
    eff := eff0.(taken := 7);
    if req.stored.None? { return true, Failure(GetVideo), eff; }
    var vid := req.stored.value;
    eff := eff.(taken := 8, vid := Some(vid));
    if vid.userID != userID { return true, Failure(CheckOwner), eff; }
    eff := eff.(taken := 9);
    var img := GetImgExt(req.contentType);
    if img.err.Some? { return true, Failure(CheckFormat), eff; }
    stopped := false;
  }

  /** Lines 83-107: draw the name, set ThumbnailURL, write the file and write
      the record back. */
  method Save(req: Request, eff0: Effects) returns (res: Response, eff: Effects)
    requires Taken(req) > 9 && Fits(req, 9) && eff0 == EffectsAfter(req, 9)
    ensures Ran(req, res, eff)
  {
    var ext := GetImgExt(req.contentType).ext;
    eff := eff0.(taken := 10);
    if req.random.None? { return Failure(ReadRandom), eff; }
    var name := ImageName(req.random.value);
    var vid := eff.vid.value.(thumbnailURL := Some(ImageURL(name, ext)));
    eff := eff.(taken := 11, vid := Some(vid));
    eff := eff.(taken := 12, write := Some(WriteFileInput(ImagePath(name, ext), FileMode)));
    if req.write == Err { return Failure(WriteFile), eff; }
    eff := eff.(taken := 13, updated := Some(vid));
    if req.update == Err { return Failure(UpdateVideo), eff; }
    res := Json(StatusOK, vid);
  }

  /** handlerUploadThumbnail: its four parts in turn, each returning on the
      first step that fails. */
  method HandleUploadThumbnail(req: Request) returns (res: Response, eff: Effects)
    ensures Ran(req, res, eff)
  {
    var stopped;
    stopped, res, eff := Authenticate(req);
    if stopped { return; }
    stopped, res, eff := ReadForm(req, eff);
    if stopped { return; }
    stopped, res, eff := CheckVideo(req, eff);
    if stopped { return; }
    res, eff := Save(req, eff);
  }

  /** The answer: the record with its new ThumbnailURL exactly when every step
      passes, otherwise the error of the first step that fails. */
  lemma AnswerIsFirstFailure(req: Request, res: Response, eff: Effects)
    requires Ran(req, res, eff)
    ensures res.Json? <==> forall i :: 0 <= i < |Plan| ==> Passes(req, Plan[i])
    ensures res.Json? ==> (req.stored.Some? && req.random.Some? &&
      res == Json(StatusOK, req.stored.value.(thumbnailURL :=
        Some(ImageURL(ImageName(req.random.value), GetImgExt(req.contentType).ext)))))
    ensures res.Error? ==>
      exists i :: (0 <= i < |Plan| && !Passes(req, Plan[i]) &&
        (forall j :: 0 <= j < i ==> Passes(req, Plan[j])) && res == Failure(Plan[i]))
  {
    TakenIsFirstFailure(req);
    var n := Taken(req);
    if res.Error? {
      if n == |Plan| {
        assert !Passes(req, Plan[n - 1]);
      }
      assert 0 <= n - 1 < |Plan| && !Passes(req, Plan[n - 1]) && res == Failure(Plan[n - 1]);
    } else {
      assert n == |Plan| && Passes(req, Plan[12]);
    }
  }

  /** No file is written and nothing is stored for a caller who is not the
      owner, or for a type that getImgExt refuses; a written file is an image
      with the extension the type names. */
  lemma NothingWrittenUnlessAccepted(req: Request, res: Response, eff: Effects)
    requires Ran(req, res, eff)
    ensures eff.write.Some? || eff.updated.Some? ==>
      (req.userID.Some? && req.stored.Some? && req.stored.value.userID == req.userID.value &&
       GetImgExt(req.contentType).err.None? && IsImageSubtype(GetImgExt(req.contentType).ext))
  {
  }

  /** UpdateVideo runs only after the write succeeded, with the record whose
      ThumbnailURL serves the written path; a write is only asked for with
      ThumbnailURL already set. */
  lemma UpdateOnlyAfterWrite(req: Request, res: Response, eff: Effects)
    requires Ran(req, res, eff)
    ensures eff.updated.Some? ==>
      (req.write == Ok && eff.write.Some? && eff.updated == eff.vid &&
       eff.vid.value.thumbnailURL == Some(AssetsURL + eff.write.value.path))
    ensures eff.write.Some? ==> eff.vid.Some? && eff.vid.value.thumbnailURL.Some?
  {
    TakenIsFirstFailure(req);
    if eff.write.Some? {
      ImageURLServesPath(ImageName(req.random.value), GetImgExt(req.contentType).ext);
    }
    if eff.updated.Some? {
      assert Passes(req, Plan[11]);
    }
  }

  /** ThumbnailURL is set before the write, so when every earlier step passed
      and the write fails, the local record carries the new URL while nothing
      is written back. */
  lemma UrlNotPersistedOnFailedWrite(req: Request, res: Response, eff: Effects)
    requires Ran(req, res, eff)
    requires forall i :: 0 <= i < 11 ==> Passes(req, Plan[i])
    requires req.write == Err
    ensures eff.write.Some? && eff.updated.None? && res == Failure(WriteFile)
    ensures eff.vid.Some? && eff.vid.value.thumbnailURL == Some(AssetsURL + eff.write.value.path)
  {
    assert Passes(req, Plan[0]) && Passes(req, Plan[1]) && Passes(req, Plan[2]);
    assert Passes(req, Plan[3]) && Passes(req, Plan[4]) && Passes(req, Plan[5]);
    assert Passes(req, Plan[6]) && Passes(req, Plan[7]) && Passes(req, Plan[8]);
    assert Passes(req, Plan[9]);
    assert Taken(req) == 12;
    ImageURLServesPath(ImageName(req.random.value), GetImgExt(req.contentType).ext);
  }
}
