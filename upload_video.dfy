/**
 * handler_upload_video.go: getMp4Ext, the object key and URL built from 16
 * random bytes, and handlerUploadVideo as a run of fallible steps with early
 * return, recording what each step did.
 */
module UploadVideo {
  import opened Wrappers
  import opened Api
  import GoStrings
  import Base64Url

  /** getMp4Ext: the second "/"-separated segment of the content type, accepted
      only when it is "mp4"; a refusal comes with an empty extension and one of
      the two messages. */
  function GetMp4Ext(contentType: string): (r: ExtResult)
    ensures r.err.None? ==> r.ext == "mp4"
    ensures r.err.Some? ==> r.ext == "" && (r.err == Some(ParseFailure) || r.err == Some(WrongType))
  {
    var parts := GoStrings.Split(contentType);
    if |parts| < 2 then ExtResult("", Some(ParseFailure))
    else if parts[1] == "mp4" then ExtResult(parts[1], None)
    else ExtResult("", Some(WrongType))
  }

  /** What getMp4Ext returns, in terms of the cut t + "/" + second + rest of the
      content type: no slash is a parse failure; otherwise only the second
      segment decides, and "mp4" is the one accepted. */
  lemma GetMp4ExtCases(contentType: string)
    ensures GoStrings.Slash !in contentType ==>
      GetMp4Ext(contentType) == ExtResult("", Some(ParseFailure))
    ensures forall t, second, rest | GoStrings.Cuts(contentType, t, second, rest) ::
      GetMp4Ext(contentType) ==
        if second == "mp4" then ExtResult("mp4", None) else ExtResult("", Some(WrongType))
  {
    GoStrings.CutOfSplit(contentType);
    GoStrings.SplitOfAnyCut(contentType);
  }

  /** The parse failure is reported exactly when there is no slash; the type
      is accepted exactly when it reads t + "/mp4", possibly followed by "/"
      and anything, with t free of slashes, and then "mp4" comes back. */
  lemma Mp4Accepted(contentType: string)
    ensures GetMp4Ext(contentType).err == Some(ParseFailure) <==> GoStrings.Slash !in contentType
    ensures GetMp4Ext(contentType).err.None? <==>
      exists t, rest :: GoStrings.Cuts(contentType, t, "mp4", rest)
    ensures GetMp4Ext(contentType).err.None? ==> GetMp4Ext(contentType).ext == "mp4"
    ensures GetMp4Ext(contentType).err.Some? ==> GetMp4Ext(contentType).ext == ""
  {
    GoStrings.CutOfSplit(contentType);
    GetMp4ExtCases(contentType);
    assert ParseFailure[0] != WrongType[0];
  }

  /** "video/mp4", and any other slash-free type before "/mp4", is accepted. */
  lemma Mp4AcceptsAnyType(t: string)
    requires GoStrings.Slash !in t
    ensures GetMp4Ext(t + "/mp4") == ExtResult("mp4", None)
  {
    assert GoStrings.Cuts(t + "/mp4", t, "mp4", "");
    GetMp4ExtCases(t + "/mp4");
  }

  /** Segments after the second are not looked at: "x/mp4/y" is accepted. */
  lemma Mp4IgnoresLaterSegments(t: string, more: string)
    requires GoStrings.Slash !in t
    ensures GetMp4Ext(t + "/mp4/" + more) == ExtResult("mp4", None)
  {
    assert GoStrings.Cuts(t + "/mp4/" + more, t, "mp4", "/" + more);
    GetMp4ExtCases(t + "/mp4/" + more);
  }

  /** Any other second segment is refused, the empty one ("video/") too,
      whatever segments follow it. */
  lemma Mp4RefusesOtherSubtypes(t: string, subtype: string, rest: string)
    requires GoStrings.Slash !in t && GoStrings.Slash !in subtype
    requires rest == [] || rest[0] == GoStrings.Slash
    requires subtype != "mp4"
    ensures GetMp4Ext(t + "/" + subtype + rest) == ExtResult("", Some(WrongType))
  {
    assert GoStrings.Cuts(t + "/" + subtype + rest, t, subtype, rest);
    GetMp4ExtCases(t + "/" + subtype + rest);
  }

  const Bucket := "tubely-65365"
  const VideoContentType := "video/mp4"
  /** The public address of the bucket, up to and including the "/" before the key. */
  const BucketURL := "http://" + Bucket + ".s3.us-east-2.amazonaws.com/"

  /** fmt.Sprintf("%s.%s", RawURLEncoding.EncodeToString(b), ".mp4"): the
      format adds a dot before ".mp4", so the key ends in "..mp4". */
  function VideoKey(nameBytes: NameBytes): (key: string)
    ensures |key| == 27
    ensures key[22..] == "..mp4"
    ensures forall i :: 0 <= i < 22 ==> Base64Url.IsUrlSafe(key[i])
    ensures GoStrings.Slash !in key
  {
    Base64Url.Encode(nameBytes) + "." + ".mp4"
  }

  /** Distinct random names give distinct keys. */
  lemma VideoKeyInjective(a: NameBytes, b: NameBytes)
    requires VideoKey(a) == VideoKey(b)
    ensures a == b
  {
    assert Base64Url.Encode(a) == VideoKey(a)[..22];
    assert Base64Url.Encode(b) == VideoKey(b)[..22];
    Base64Url.EncodeInjective(a, b);
  }

  /** fmt.Sprintf("http://tubely-65365.s3.us-east-2.amazonaws.com/%s", key). */
  function VideoURL(key: string): (url: string)
    ensures |url| == |BucketURL| + |key|
    ensures url[..|BucketURL|] == BucketURL && url[|BucketURL|..] == key
  {
    BucketURL + key
  }

  /** The key a URL of the bucket ends in, if it is one. */
  function KeyOfURL(url: string): Option<string> {
    if |url| >= |BucketURL| && url[..|BucketURL|] == BucketURL then Some(url[|BucketURL|..])
    else None
  }

  /** The URL gives back the key the object was put under. */
  lemma KeyOfVideoURL(key: string)
    ensures KeyOfURL(VideoURL(key)) == Some(key)
  {
  }

  /** What the collaborators of handlerUploadVideo return, one field per call:
      uuid.Parse, auth.GetBearerToken, auth.ValidateJWT (the user), db.GetVideo,
      ParseMultipartForm, FormFile("video") and its Content-Type header,
      os.CreateTemp, io.Copy, rand.Read (the bytes), PutObject, db.UpdateVideo. */
  datatype Request = Request(
    videoID: Outcome,
    token: Outcome,
    userID: Option<Uuid>,
    stored: Option<Video>,
    form: Outcome,
    formFile: Outcome,
    contentType: string,
    createTemp: Outcome,
    copy: Outcome,
    random: Option<NameBytes>,
    put: Outcome,
    update: Outcome)

  /** The fields of s3.PutObjectInput the handler sets, the body being the temp file. */
  datatype PutObjectInput = PutObjectInput(bucket: string, key: string, contentType: string)

  /** What the handler did: how many steps of Plan it took (the last one taken
      is the one it returned after), the calls it deferred, whether a temp file
      exists, the object it asked S3 to store, its local copy of the video
      record, and the record it handed to UpdateVideo. */
  datatype Effects = Effects(
    taken: nat,
    deferred: seq<Deferred>,
    tempCreated: bool,
    put: Option<PutObjectInput>,
    vid: Option<Video>,
    updated: Option<Video>)

  /** The steps of handlerUploadVideo in source order. */
  const Plan: seq<Step> := [
    ParseVideoID, GetBearerToken, ValidateJWT, GetVideo, CheckOwner, ParseForm, GetFormFile,
    CheckFormat, CreateTemp, CopyToTemp, ReadRandom, PutObject, SetVideoURL, UpdateVideo]

  /** Whether a step lets the handler go on. */
  predicate Passes(req: Request, step: Step) {
    match step
    case ParseVideoID => req.videoID == Ok
    case GetBearerToken => req.token == Ok
    case ValidateJWT => req.userID.Some?
    case GetVideo => req.stored.Some?
    case CheckOwner => req.stored.Some? && req.userID.Some? && req.stored.value.userID == req.userID.value
    case ParseForm => req.form == Ok
    case GetFormFile => req.formFile == Ok
    case CheckFormat => GetMp4Ext(req.contentType).err.None?
    case CreateTemp => req.createTemp == Ok
    case CopyToTemp => req.copy == Ok
    case ReadRandom => req.random.Some?
    case PutObject => req.put == Ok
    case SetVideoURL => true
    case UpdateVideo => req.update == Ok
    case _ => false
  }

  /** The number of steps of Plan the handler takes: up to and including the
      first that fails, or all of them (setting VideoURL cannot fail). */
  function Taken(req: Request): (n: nat)
    ensures 0 < n <= |Plan|
  {
    if req.videoID == Err then 1
    else if req.token == Err then 2
    else if req.userID.None? then 3
    else if req.stored.None? then 4
    else if req.stored.value.userID != req.userID.value then 5
    else if req.form == Err then 6
    else if req.formFile == Err then 7
    else if GetMp4Ext(req.contentType).err.Some? then 8
    else if req.createTemp == Err then 9
    else if req.copy == Err then 10
    else if req.random.None? then 11
    else if req.put == Err then 12
    else 14
  }

  /** The inputs that n steps read: the stored record once GetVideo passed
      (n > 4), the random name once ReadRandom passed (n > 11). */
  predicate Fits(req: Request, n: nat) {
    (n > 4 ==> req.stored.Some?) && (n > 11 ==> req.random.Some?)
  }

  /** Taken stops at the first failing step: every step before it passed, the
      last one taken failed unless it is the last of Plan, and the inputs the
      steps read are there. */
  lemma TakenIsFirstFailure(req: Request)
    ensures forall i :: 0 <= i < Taken(req) - 1 ==> Passes(req, Plan[i])
    ensures Taken(req) < |Plan| ==> !Passes(req, Plan[Taken(req) - 1])
    ensures Fits(req, Taken(req))
  {
  }

  /** The error response of a step that fails: a status and a message, never
      a JSON body. */
  function Failure(step: Step): (r: Response)
    ensures r.Error?
  {
    match step
    case ParseVideoID => Error(StatusBadRequest, "Invalid ID")
    case GetBearerToken => Error(StatusUnauthorized, "Couldn't find JWT")
    case ValidateJWT => Error(StatusUnauthorized, "Couldn't validate JWT")
    case GetVideo => Error(StatusBadRequest, "Couldn't retrive video data from the database")
    case CheckOwner => Error(StatusUnauthorized, "You are not the author of that video")
    case ParseForm => Error(StatusBadRequest, "Couldn't parse multipart form")
    case GetFormFile => Error(StatusBadRequest, "Couldn't parse video")
    case CheckFormat => Error(StatusBadRequest, "Invalid video format")
    case CreateTemp => Error(StatusBadRequest, "Failed to create tmp file")
    case CopyToTemp => Error(StatusBadRequest, "Failed to write to tmp file")
    case ReadRandom => Error(StatusBadRequest, "Failed to create random video name")
    case PutObject => Error(StatusBadRequest, "Failed to write to cloud")
    case UpdateVideo => Error(StatusBadRequest, "Couldn't update video data in the database")
    case _ => Error(StatusBadRequest, "")
  }

  /** A missing or invalid token and a caller who does not own the video are
      answered 401, every other failure 400. */
  lemma FailureStatus(step: Step)
    ensures Failure(step).status == StatusUnauthorized || Failure(step).status == StatusBadRequest
    ensures Failure(step).status == StatusUnauthorized <==>
      (step == GetBearerToken || step == ValidateJWT || step == CheckOwner)
  {
  }

  /** What the handler has done once it has taken the first n steps of Plan.
      The form file's Close is deferred once GetFormFile passed (n > 7); the
      temp file exists once CreateTemp passed (n > 9); its removal and Close
      are deferred only once the copy passed (n > 10); the object is put under
      the drawn name once ReadRandom passed (n > 11); the local record is the
      stored one after GetVideo (n > 4) and gets its VideoURL once PutObject
      passed (n > 12); it goes to UpdateVideo as the last step (n > 13). */
  function EffectsAfter(req: Request, n: nat): Effects
    requires Fits(req, n)
  {
    var key := if n > 11 then VideoKey(req.random.value) else "";
    var vid := if n <= 4 then None
               else if n <= 12 then Some(req.stored.value)
               else Some(req.stored.value.(videoURL := Some(VideoURL(key))));
    Effects(
      n,
      (if n > 7 then [CloseFormFile] else []) + (if n > 10 then [RemoveTemp, CloseTemp] else []),
      n > 9,
      if n > 11 then Some(PutObjectInput(Bucket, key, VideoContentType)) else None,
      vid,
      if n > 13 then vid else None)
  }

  /** The response after n steps: the updated record when all of Plan passed,
      otherwise the error of the last step taken. */
  function ResponseAfter(req: Request, n: nat): Response
    requires 0 < n <= |Plan|
    requires Fits(req, n)
  {
    if n == |Plan| && Passes(req, UpdateVideo) then Json(StatusOK, EffectsAfter(req, n).updated.value)
    else Failure(Plan[n - 1])
  }

  /** The handler answered res and left eff: it took Plan up to and including
      the first failing step, and did and answered what that many steps do. */
  predicate Ran(req: Request, res: Response, eff: Effects) {
    var n := Taken(req);
    Fits(req, n) && eff == EffectsAfter(req, n) && res == ResponseAfter(req, n)
  }

  /** One section of the handler, ending after step k: either it returned
      early, having run as Ran says, or every step up to k passed and it leaves
      the effects of k steps. */
  predicate Section(req: Request, k: nat, stopped: bool, res: Response, eff: Effects) {
    (stopped ==> Ran(req, res, eff)) &&
    (!stopped ==> Taken(req) > k && Fits(req, k) && eff == EffectsAfter(req, k))
  }

  /** Lines 20-50: parse the id, authenticate, fetch the record and check its owner. */
  method Authorize(req: Request) returns (stopped: bool, res: Response, eff: Effects)
    ensures Section(req, 5, stopped, res, eff)
  {
    stopped, res := true, Error(StatusBadRequest, "");
    eff := Effects(1, [], false, None, None, None);
    if req.videoID == Err { return true, Failure(ParseVideoID), eff; }
    eff := eff.(taken := 2);
    if req.token == Err { return true, Failure(GetBearerToken), eff; }
    eff := eff.(taken := 3);
    if req.userID.None? { return true, Failure(ValidateJWT), eff; }
    var userID := req.userID.value;
    eff := eff.(taken := 4);
    if req.stored.None? { return true, Failure(GetVideo), eff; }
    var vid := req.stored.value;
    eff := eff.(taken := 5, vid := Some(vid));
    if vid.userID != userID { return true, Failure(CheckOwner), eff; }
    stopped := false;
  }

  /** Lines 52-87: read the form file, check its type and copy it to a temp file. */
  method Stage(req: Request, eff0: Effects) returns (stopped: bool, res: Response, eff: Effects)
    requires Taken(req) > 5 && Fits(req, 5) && eff0 == EffectsAfter(req, 5)
    ensures Section(req, 10, stopped, res, eff)
  {
    stopped, res := true, Error(StatusBadRequest, "");
    eff := eff0.(taken := 6);
    if req.form == Err { return true, Failure(ParseForm), eff; }
    eff := eff.(taken := 7);
    if req.formFile == Err { return true, Failure(GetFormFile), eff; }
    // defer file.Close()
    eff := eff.(taken := 8, deferred := eff.deferred + [CloseFormFile]);
    var mp4 := GetMp4Ext(req.contentType);
    if mp4.err.Some? { return true, Failure(CheckFormat), eff; }
    eff := eff.(taken := 9);
    if req.createTemp == Err { return true, Failure(CreateTemp), eff; }
    eff := eff.(taken := 10, tempCreated := true);
    if req.copy == Err { return true, Failure(CopyToTemp), eff; }
    stopped := false;
  }

  /** Lines 88-127: register the temp file's cleanup, draw the name, store the
      object, set VideoURL and write the record back. */
  method Upload(req: Request, eff0: Effects) returns (res: Response, eff: Effects)
    requires Taken(req) > 10 && Fits(req, 10) && eff0 == EffectsAfter(req, 10)
    ensures Ran(req, res, eff)
  {
    // defer os.Remove(tmpFile.Name()); defer tmpFile.Close()
    eff := eff0.(taken := 11, deferred := eff0.deferred + [RemoveTemp, CloseTemp]);
    if req.random.None? { return Failure(ReadRandom), eff; }
    var key := VideoKey(req.random.value);
    eff := eff.(taken := 12, put := Some(PutObjectInput(Bucket, key, VideoContentType)));
    if req.put == Err { return Failure(PutObject), eff; }
    var vid := eff.vid.value.(videoURL := Some(VideoURL(key)));
    eff := eff.(taken := 13, vid := Some(vid));
    eff := eff.(taken := 14, updated := Some(vid));
    if req.update == Err { return Failure(UpdateVideo), eff; }
    res := Json(StatusOK, vid);
  }

  /** handlerUploadVideo: its three sections in turn, each returning on the
      first step that fails. */
  method HandleUploadVideo(req: Request) returns (res: Response, eff: Effects)
    ensures Ran(req, res, eff)
  {
    var stopped;
    stopped, res, eff := Authorize(req);
    if stopped { return; }
    stopped, res, eff := Stage(req, eff);
    if stopped { return; }
    res, eff := Upload(req, eff);
  }

  /** The answer: the record with its new VideoURL exactly when every step
      passes, otherwise the error of the first step that fails. */
  lemma AnswerIsFirstFailure(req: Request, res: Response, eff: Effects)
    requires Ran(req, res, eff)
    ensures res.Json? <==> forall i :: 0 <= i < |Plan| ==> Passes(req, Plan[i])
    ensures res.Json? ==> (req.stored.Some? && req.random.Some? &&
      res == Json(StatusOK, req.stored.value.(videoURL := Some(VideoURL(VideoKey(req.random.value))))))
    ensures res.Error? ==>
      exists i :: (0 <= i < |Plan| && !Passes(req, Plan[i]) &&
        (forall j :: 0 <= j < i ==> Passes(req, Plan[j])) && res == Failure(Plan[i]))
  {
    TakenIsFirstFailure(req);
    var n := Taken(req);
    if res.Error? {
      if n == |Plan| {
        assert !Passes(req, Plan[n - 1]);
      }
      assert 0 <= n - 1 < |Plan| && !Passes(req, Plan[n - 1]) && res == Failure(Plan[n - 1]);
    } else {
      assert n == |Plan| && Passes(req, Plan[13]);
    }
  }

  /** Nothing is staged, stored or written back for a caller who is not the
      owner, or for a file that getMp4Ext refuses. */
  lemma NothingStoredUnlessAccepted(req: Request, res: Response, eff: Effects)
    requires Ran(req, res, eff)
    ensures eff.tempCreated || eff.put.Some? || eff.updated.Some? ==>
      req.userID.Some? && req.stored.Some? && req.stored.value.userID == req.userID.value &&
      GetMp4Ext(req.contentType).err.None?
  {
  }

  /** The temp file is left behind, created but with no removal deferred,
      exactly when the copy into it fails: cleanup is registered only after
      io.Copy. */
  lemma TempFileLeaksOnFailedCopy(req: Request, res: Response, eff: Effects)
    requires Ran(req, res, eff)
    ensures (eff.tempCreated && RemoveTemp !in eff.deferred) <==>
      (forall i :: 0 <= i < 9 ==> Passes(req, Plan[i])) && req.copy == Err
  {
    TakenIsFirstFailure(req);
    var n := Taken(req);
    if eff.tempCreated && RemoveTemp !in eff.deferred {
      assert n == 10 && !Passes(req, Plan[9]);
    } else if forall i :: 0 <= i < 9 ==> Passes(req, Plan[i]) {
      assert Passes(req, Plan[0]) && Passes(req, Plan[1]) && Passes(req, Plan[2]);
      assert Passes(req, Plan[3]) && Passes(req, Plan[4]) && Passes(req, Plan[5]);
      assert Passes(req, Plan[6]) && Passes(req, Plan[7]) && Passes(req, Plan[8]);
      assert n >= 10;
    }
  }

  /** VideoURL is set only after the put succeeded, names the key the object
      was put under, and is the only field of the record that changes; the
      record written back is the one carrying it. */
  lemma UrlFollowsPut(req: Request, res: Response, eff: Effects)
    requires Ran(req, res, eff)
    ensures eff.put.Some? ==>
      req.random.Some? && eff.put.value == PutObjectInput(Bucket, VideoKey(req.random.value), VideoContentType)
    ensures eff.vid.Some? ==> (req.stored.Some? &&
      eff.vid.value.(videoURL := req.stored.value.videoURL) == req.stored.value)
    ensures eff.vid.Some? && eff.vid.value.videoURL != req.stored.value.videoURL ==>
      (req.put == Ok && eff.put.Some? && eff.vid.value.videoURL == Some(VideoURL(eff.put.value.key)) &&
       KeyOfURL(eff.vid.value.videoURL.value) == Some(eff.put.value.key))
    ensures eff.updated.Some? ==> (eff.updated == eff.vid && req.put == Ok &&
      eff.vid.value.videoURL == Some(VideoURL(eff.put.value.key)))
  {
  }

  /** The deferred calls are registered in the order Go runs them backwards:
      the form file's Close, then the temp file's removal and Close, the latter
      only for a temp file that exists. */
  lemma DeferredInOrder(req: Request, res: Response, eff: Effects)
    requires Ran(req, res, eff)
    ensures eff.deferred <= [CloseFormFile, RemoveTemp, CloseTemp]
    ensures RemoveTemp in eff.deferred ==> eff.tempCreated && CloseFormFile in eff.deferred
  {
  }
}
