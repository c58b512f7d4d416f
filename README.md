# Upload handlers of the file-storage starter, modelled in Dafny

This project models the two upload handlers of a Go web service that stores
videos in S3 and thumbnails on local disk:

- `handlerUploadVideo` and `getMp4Ext` (handler_upload_video.go);
- `handlerUploadThumbnail` and `getImgExt` (handler_upload_thumbnail.go).

It covers three pieces of logic in those handlers:

- **Media-type validators.** `getMp4Ext` and `getImgExt` split the declared
  `Content-Type` on `/`, with the semantics of Go's `strings.Split`. Each
  refuses a type with fewer than two segments. Otherwise each accepts only an
  allow-listed second segment and returns it unchanged.
- **Object names and URLs.** 16 random bytes are encoded with
  `base64.RawURLEncoding`: the URL-safe alphabet of section 5 of RFC 4648,
  with the padding of section 3.2 omitted. The encoding is then formatted into
  the S3 key and URL of a video, or the file path and URL of a thumbnail.
- **Step ordering.** Each handler is a strict sequence of fallible steps and
  returns on the first one that fails. The model records what each step did:
  defers registered, temp file created, object put, URL field set, file
  written, record written back.

Files, one module each:

- `wrappers.dfy`: `Option`.
- `go_strings.dfy`: `strings.Split` on `"/"`, with `Join` as its inverse, and
  the "first two segments" view of a string used by both validators.
- `base64url.dfy`: unpadded base64url encoding, as bytes to 6-bit values to
  characters, with a decoder as its partner.
- `api.dfy`: what both handlers share. This is the video record, the outcome
  of a collaborator call, the response, the step names and the deferred calls.
- `upload_video.dfy`: `getMp4Ext`, the video key and URL, and the video
  handler.
- `upload_thumbnail.dfy`: `getImgExt`, the image name, path and URL, and the
  thumbnail handler.

Each handler is a Dafny method over a request record. The record holds what
every collaborator returns: uuid parsing, JWT extraction and validation, the
database, form parsing, temp-file and file-system calls, `crypto/rand` and
S3.

The method returns the response and an effects record. Go's local `vid` is a
value copy of the stored record, and the effects carry it the same way.

Each handler calls section methods in turn, one per run of source lines, and
each section returns early exactly where the Go code does:

- video: `Authorize` (handler_upload_video.go:19-50: the id, the token, the
  record and the owner check), `Stage` (52-87: the form, the file, the type
  check, the temp file and the copy) and `Upload` (88-127: the deferred
  cleanup, the random name, the put, the URL and the update);
- thumbnail: `Authenticate` (handler_upload_thumbnail.go:18-35: the id and
  the token), `ReadForm` (41-61: the form, the file and its data),
  `CheckVideo` (63-80: the record, the owner check and the type check) and
  `Save` (83-107: the random name, the URL, the write and the update).

Each handler's contract is `Ran(req, res, eff)`:

- the handler took Plan (its steps in source order) up to and including the
  first failing step (`Taken`);
- it left `EffectsAfter(req, Taken(req))`;
- it answered `ResponseAfter(req, Taken(req))`.

The lemmas about `Ran` state the orderings the code guarantees, and one leak
it has.

Three facts of the code that the model keeps as written:

- The video key is `<name>..mp4` at the top of the bucket: the format
  `"%s.%s"` is given the extension `".mp4"`, dot included.
- `os.Remove` of the temp file is deferred only after `io.Copy` succeeds, so
  a failed copy leaves the temp file behind
  (`UploadVideo.TempFileLeaksOnFailedCopy`).
- Each handler writes the record back itself with `UpdateVideo`, as its last
  step.

## Model

| member | source | states |
|---|---|---|
| GoStrings.Split | handler_upload_video.go:131 | strings.Split on "/": one more part than there are slashes, and no part contains a slash |
| GoStrings.JoinSplit | handler_upload_video.go:131 | joining the parts of Split with "/" gives back the string |
| GoStrings.SplitJoin | handler_upload_video.go:131 | splitting a join of slash-free parts gives back those parts |
| GoStrings.SplitOfCut | handler_upload_video.go:131 | for s = t + "/" + second + rest, with t and second slash-free and rest empty or starting with "/", Split(s) has at least two parts, and they are t and second |
| GoStrings.CutOfSplit | handler_upload_video.go:131 | Split(s) has at least two parts exactly when s contains a slash, and then s is cut at its first two parts |
| Base64Url.Encode | handler_upload_video.go:102 | the unpadded base64url encoding has ceil(8n/6) characters, all from A-Z a-z 0-9 - _ |
| Base64Url.UnpackPack | handler_upload_video.go:102 | grouping bytes into 6-bit values loses nothing: regrouping gives the bytes back |
| Base64Url.SextetsOfChars | handler_upload_video.go:102 | each encoding character maps back to its 6-bit value |
| Base64Url.DecodeEncode | handler_upload_video.go:102 | decoding an encoding gives back the bytes |
| Base64Url.EncodeInjective | handler_upload_video.go:102 | distinct byte strings have distinct encodings |
| UploadVideo.GetMp4Ext | handler_upload_video.go:130-140 | an accepted type comes back as "mp4"; a refused one comes back as "" with "Failed to parse extension" or "Invalid file type for image" |
| UploadVideo.GetMp4ExtCases | handler_upload_video.go:130-140 | no slash gives ("", "Failed to parse extension"); otherwise the second segment alone decides: "mp4" gives ("mp4", nil), anything else gives ("", "Invalid file type for image") |
| UploadVideo.Mp4Accepted | handler_upload_video.go:131-139 | the parse failure happens exactly when there is no slash; the type is accepted exactly when its second segment is "mp4", and then "mp4" is returned; on error the string is empty |
| UploadVideo.Mp4IgnoresLaterSegments | handler_upload_video.go:131-136 | t + "/mp4/" + anything is accepted: later segments are not checked |
| UploadVideo.Mp4RefusesOtherSubtypes | handler_upload_video.go:131-139 | any other second segment, the empty one too, is refused with "Invalid file type for image", whatever segments follow it |
| UploadVideo.VideoKey | handler_upload_video.go:95-102 | the key is 27 characters: 22 URL-safe ones from the encoding, then "..mp4"; it has no slash |
| UploadVideo.VideoKeyInjective | handler_upload_video.go:95-102 | distinct random names give distinct keys |
| UploadVideo.VideoURL | handler_upload_video.go:118 | the URL is "http://tubely-65365.s3.us-east-2.amazonaws.com/" followed by the key |
| UploadVideo.KeyOfVideoURL | handler_upload_video.go:105-118 | the suffix of the URL after the bucket address is the key passed to PutObject |
| UploadVideo.Failure | handler_upload_video.go:23-124 | a failing step is answered with an error response, never with a JSON body |
| UploadVideo.FailureStatus | handler_upload_video.go:23-124 | a missing or invalid token and a caller who does not own the video get 401; every other failure gets 400 |
| UploadVideo.TakenIsFirstFailure | handler_upload_video.go:18-127 | the handler takes every step before the first failing one, then stops at that step |
| UploadVideo.Authorize | handler_upload_video.go:19-50 | parsing the id, authenticating, fetching the record and checking the owner either returns the first failing step's error with its effects, or passes all five |
| UploadVideo.Stage | handler_upload_video.go:52-87 | the form, the file, the type check, temp-file creation and the copy: each failure returns its error; the form file's Close is deferred once FormFile succeeds, and the temp file exists once CreateTemp succeeds |
| UploadVideo.Upload | handler_upload_video.go:88-127 | cleanup is deferred after the copy, the object is put under the drawn key, VideoURL is set after the put, then UpdateVideo; each failure returns its own error |
| UploadVideo.HandleUploadVideo | handler_upload_video.go:18-128 | the handler answers and acts as the first failing step dictates: its status and message, or 200 with the updated record |
| UploadVideo.AnswerIsFirstFailure | handler_upload_video.go:18-127 | the answer is 200 with the stored record carrying the new VideoURL exactly when every step passes; otherwise it is the error of the first failing step |
| UploadVideo.NothingStoredUnlessAccepted | handler_upload_video.go:47-78 | no temp file, no put and no update happen unless the caller owns the video and getMp4Ext accepts the type |
| UploadVideo.TempFileLeaksOnFailedCopy | handler_upload_video.go:78-89 | the temp file exists with no removal deferred exactly when every step before the copy passed and io.Copy failed |
| UploadVideo.UrlFollowsPut | handler_upload_video.go:102-122 | the put uses the bucket, the drawn key and "video/mp4"; VideoURL is the only field changed, it changes only after a successful put, and it names the put key; the record given to UpdateVideo carries it |
| UploadVideo.DeferredInOrder | handler_upload_video.go:66-89 | the defers are registered as Close of the form file, then removal and Close of the temp file, the latter two only for a temp file that exists |
| UploadThumbnail.GetImgExt | handler_upload_thumbnail.go:110-120 | an accepted type comes back as png, jpeg or jpg; a refused one comes back as "" with "Failed to parse extension" or "Invalid file type for image" |
| UploadThumbnail.GetImgExtCases | handler_upload_thumbnail.go:110-120 | no slash gives ("", "Failed to parse extension"); otherwise the second segment alone decides: png, jpeg or jpg is returned unchanged with nil, anything else gives ("", "Invalid file type for image") |
| UploadThumbnail.ImgAccepted | handler_upload_thumbnail.go:111-119 | the parse failure happens exactly when there is no slash; the type is accepted exactly when its second segment is png, jpeg or jpg, and then that segment is returned; on error the string is empty |
| UploadThumbnail.ImgAcceptsListed | handler_upload_thumbnail.go:115-116 | t + "/png", t + "/jpeg" and t + "/jpg" are accepted with their subtype |
| UploadThumbnail.ImgRefusesOthers | handler_upload_thumbnail.go:111-118 | any unlisted second segment, gif included, is refused, whatever segments follow it |
| UploadThumbnail.ImgRefusesEmptySubtype | handler_upload_thumbnail.go:111-118 | an empty second segment ("image/", "image//png") is refused as a wrong type, not as a parse failure |
| UploadThumbnail.ImageName | handler_upload_thumbnail.go:83-91 | the image name is 22 URL-safe characters, without a slash |
| UploadThumbnail.ImageNameDecodes | handler_upload_thumbnail.go:91 | the name decodes back to the drawn bytes |
| UploadThumbnail.ImagePath | handler_upload_thumbnail.go:96 | the written path is "assets/", then the name, then ".", then the extension |
| UploadThumbnail.ImageURL | handler_upload_thumbnail.go:93 | the URL starts with "http://localhost:8091/" and the rest of it is the written path |
| UploadThumbnail.ImageURLServesPath | handler_upload_thumbnail.go:93-96 | the URL is "http://localhost:8091/" followed by the written path "assets/<name>.<ext>" |
| UploadThumbnail.ImagePathInAssets | handler_upload_thumbnail.go:96 | with a slash-free extension, the written path is in assets/ and has no further slash |
| UploadThumbnail.ImagePathInjective | handler_upload_thumbnail.go:91-96 | distinct random names give distinct paths, whatever the extensions |
| UploadThumbnail.Failure | handler_upload_thumbnail.go:21-104 | a failing step is answered with an error response, never with a JSON body |
| UploadThumbnail.FailureStatus | handler_upload_thumbnail.go:21-104 | a missing or invalid token and a caller who does not own the video get 401; every other failure gets 400 |
| UploadThumbnail.TakenIsFirstFailure | handler_upload_thumbnail.go:17-107 | the handler takes every step before the first failing one, then stops at that step |
| UploadThumbnail.Authenticate | handler_upload_thumbnail.go:18-35 | parsing the id and authenticating either returns the first failing step's error or passes both |
| UploadThumbnail.ReadForm | handler_upload_thumbnail.go:41-61 | the form, the thumbnail file (its Close deferred) and reading its data: each failure returns its own error |
| UploadThumbnail.CheckVideo | handler_upload_thumbnail.go:63-80 | fetching the record, the owner check and getImgExt: each failure returns its own error |
| UploadThumbnail.Save | handler_upload_thumbnail.go:83-107 | drawing the name, setting ThumbnailURL, writing assets/<name>.<ext> with mode 0644, then UpdateVideo; a failed write answers with the GetVideo message |
| UploadThumbnail.HandleUploadThumbnail | handler_upload_thumbnail.go:17-108 | the handler answers and acts as the first failing step dictates: its status and message, or 200 with the updated record |
| UploadThumbnail.AnswerIsFirstFailure | handler_upload_thumbnail.go:17-107 | the answer is 200 with the stored record carrying the new ThumbnailURL exactly when every step passes; otherwise it is the error of the first failing step |
| UploadThumbnail.NothingWrittenUnlessAccepted | handler_upload_thumbnail.go:69-96 | no file is written and nothing is updated unless the caller owns the video and getImgExt accepts the type |
| UploadThumbnail.UpdateOnlyAfterWrite | handler_upload_thumbnail.go:94-104 | UpdateVideo runs only after a successful write, with the record whose ThumbnailURL serves the written path |
| UploadThumbnail.UrlNotPersistedOnFailedWrite | handler_upload_thumbnail.go:94-100 | when the write fails, the local record has its new ThumbnailURL but nothing is written back |

## Left out

- HTTP framing is not modelled: `MaxBytesReader`, `PathValue`, the multipart
  memory limit, `respondWithError` and `respondWithJSON`. A response is
  modelled as its status with its message or body.
- `uuid.Parse`, `auth.GetBearerToken`, `auth.ValidateJWT`, `db.GetVideo`,
  `db.UpdateVideo`, `ParseMultipartForm`, `FormFile`, `os.CreateTemp`,
  `io.Copy`, `io.ReadAll`, `os.WriteFile` and S3's `PutObject` are not part
  of this model. Each is an outcome in the request record: `Ok`/`Err`, or the
  value it returns.
- What these collaborators do with their arguments is not modelled.
  `PutObject` and `os.WriteFile` are recorded only as the arguments the
  handler passes them.
- `crypto/rand.Read` is the request's optional 16 bytes, taken as given. The
  random name `os.CreateTemp` picks is not modelled.
- File contents are not modelled: the bytes copied, read or written, the
  `Seek` back to the start, and the body handed to S3.
- The `fmt.Println` log line of the thumbnail handler is not modelled, since
  it is output only.
- The order in which Go runs the deferred calls on return is not modelled.
  The model records the registered calls, and `DeferredInOrder` states their
  order.
- Concurrency between requests is not modelled, since the handlers share no
  state.
- Go strings are byte strings and the model's are `seq<char>`. A
  `Content-Type` that is not valid UTF-8 has no counterpart here. For every
  other one the split on `/` and the comparisons with the ASCII subtypes give
  the same results.
- The Go handlers are single functions. In the model each handler calls its
  section methods in turn, and each section returns exactly where the Go code
  returns.
