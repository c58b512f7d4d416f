/**
 * What the two upload handlers share: the video record they read and write
 * back, the outcome of a call into a collaborator whose code is not part of
 * this model, the response they send and the steps they take.
 */
module Api {
  import opened Wrappers

  /** A uuid.UUID, opaque here. */
  type Uuid = nat

  /** The 16-byte buffer filled by crypto/rand.Read for a fresh object name. */
  type NameBytes = b: seq<bv8> | |b| == 16
    witness [0, 0, 0, 0, 0, 0, 0, 0, 0, 0, 0, 0, 0, 0, 0, 0]

  /** Whether a call into a collaborator returned a nil error. */
  datatype Outcome = Ok | Err

  /** The fields of database.Video the handlers read or set. The id is the
      record's key: the handlers never change it, so the record written back
      by UpdateVideo keeps the stored one's id. */
  datatype Video = Video(id: Uuid, userID: Uuid, thumbnailURL: Option<string>, videoURL: Option<string>)

  /** respondWithJSON(status, body) or respondWithError(status, message, err). */
  datatype Response = Json(status: int, body: Video) | Error(status: int, message: string)

  const StatusOK := 200
  const StatusBadRequest := 400
  const StatusUnauthorized := 401

  /** The (string, error) pair a content-type check returns. */
  datatype ExtResult = ExtResult(ext: string, err: Option<string>)

  const ParseFailure := "Failed to parse extension"
  const WrongType := "Invalid file type for image"

  /** The steps of a handler; each one either passes or makes it return an error. */
  datatype Step =
    | ParseVideoID | GetBearerToken | ValidateJWT | GetVideo | CheckOwner
    | ParseForm | GetFormFile | ReadThumbnail | CheckFormat
    | CreateTemp | CopyToTemp | ReadRandom | PutObject | SetVideoURL
    | SetThumbnailURL | WriteFile | UpdateVideo

  /** A call registered with defer; the registered calls run, last first, when
      the handler returns. */
  datatype Deferred = CloseFormFile | RemoveTemp | CloseTemp
}
