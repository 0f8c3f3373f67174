/** The image-prediction request: authenticate, upload the image, have it
    classified, record the prediction and link it to the user; and the
    listing of all recorded predictions. */
module PredictHandlers {
  import opened Store
  import opened NodePath
  import opened DocumentOrder

  /** The file the upload middleware received and saved to local disk. */
  datatype UploadedFile = UploadedFile(path: string, originalName: string, mimeType: string)

  datatype PredictRequest = PredictRequest(file: Option<UploadedFile>, authorization: Option<string>)

  /** The classification service's answer, taken as it comes. */
  datatype Prediction = Prediction(predictedClass: string, wasteType: string, probabilities: map<string, real>)

  /** What a library or remote call gives back: a value, or a thrown error's code. */
  datatype Outcome<T> = Returned(value: T) | Threw(code: ErrCode)

  /** What a Firestore write gives back: done, or an error carrying its
      numeric gRPC code (never one of Cloud Storage's string codes). */
  datatype WriteOutcome = Written | WriteFailed(grpc: int)

  /** The outcomes of the external calls one request makes, in call order. */
  datatype Services = Services(
    verifyIdToken: Outcome<string>,   // the uid of the verified token
    uuid: string,                     // the generated object name
    upload: Outcome<()>,              // writing the local file to the bucket
    signedUrl: Outcome<string>,       // a read URL for the uploaded object
    inference: Outcome<Prediction>,   // the classification service
    recordId: string,                 // the id the store generates for the history record
    now: Timestamp,                   // the record's timestamp
    recordWrite: WriteOutcome,        // writing the history record
    profileUpdate: WriteOutcome)      // updating the user document, when it exists

  /** The 200 body. */
  datatype PredictBody = PredictBody(imageUrl: string, predictedClass: string, wasteType: string, probabilities: map<string, real>)

  // ---------------------------------------------------------------------
  // The bearer token

  const BearerSeparator: string := "Bearer "

  predicate OccursAt(s: string, pat: string, i: nat) {
    i + |pat| <= |s| && s[i..i + |pat|] == pat
  }

  /** The first position at or after `from` where `pat` occurs in `s`. */
  function IndexOf(s: string, pat: string, from: nat): (r: Option<nat>)
    requires from <= |s|
    ensures r.Some? ==> from <= r.value && OccursAt(s, pat, r.value)
    ensures forall j :: from <= j && (r.None? || j < r.value) ==> !OccursAt(s, pat, j)
    decreases |s| - from
  {
    if OccursAt(s, pat, from) then Some(from)
    else if from == |s| then None
    else IndexOf(s, pat, from + 1)
  }

  /** Occurrences in a suffix are occurrences in the whole, shifted. */
  lemma OccursAtSuffix(s: string, pat: string, start: nat, p: nat)
    requires start <= |s|
    ensures OccursAt(s[start..], pat, p) <==> OccursAt(s, pat, start + p)
  {
    if start + p + |pat| <= |s| {
      assert s[start..][p..p + |pat|] == s[start + p..start + p + |pat|];
    }
  }

  /** `piece` starts right after the first occurrence of `sep`, found at
      `i`, and runs up to the next occurrence or to the end of `s`. */
  predicate PieceAfterFirst(s: string, sep: string, i: nat, piece: string) {
    var start := i + |sep|;
    var end := start + |piece|;
    && OccursAt(s, sep, i)
    && (forall j: nat :: j < i ==> !OccursAt(s, sep, j))
    && end <= |s| && s[start..end] == piece
    && (end == |s| || OccursAt(s, sep, end))
    && (forall p: nat :: start <= p < end ==> !OccursAt(s, sep, p))
  }

  /** The first `n` characters after the first occurrence of `sep` form the
      second piece when the next occurrence, or the end, comes right after them. */
  lemma {:induction false} PieceOfSplit(s: string, sep: string, i: nat, rest: string, n: nat)
    requires OccursAt(s, sep, i) && forall j: nat :: j < i ==> !OccursAt(s, sep, j)
    requires rest == s[i + |sep|..] && n <= |rest|
    requires n == |rest| || OccursAt(rest, sep, n)
    requires forall p: nat :: p < n ==> !OccursAt(rest, sep, p)
    ensures PieceAfterFirst(s, sep, i, rest[..n])
  {
    var start := i + |sep|;
    assert s[start..start + n] == rest[..n];
    if start + n < |s| {
      OccursAtSuffix(s, sep, start, n);
    }
    forall p: nat | start <= p < start + n ensures !OccursAt(s, sep, p) {
      OccursAtSuffix(s, sep, start, p - start);
    }
  }

  /** `s.split(sep)[1]`: the text between the first and the second
      occurrence of `sep`, or to the end; undefined without any occurrence. */
  function SplitSecond(s: string, sep: string): (r: Option<string>)
    requires sep != ""
    ensures r.None? <==> forall j :: !OccursAt(s, sep, j)
    ensures r.Some? ==> exists i: nat :: PieceAfterFirst(s, sep, i, r.value)
    ensures r.Some? ==> forall k :: !OccursAt(r.value, sep, k)
  {
    match IndexOf(s, sep, 0)
    case None => None
    case Some(i) =>
      var rest := s[i + |sep|..];
      match IndexOf(rest, sep, 0)
      case None =>
        PieceOfSplit(s, sep, i, rest, |rest|);
        assert rest[..|rest|] == rest;
        Some(rest)
      case Some(j) =>
        PieceOfSplit(s, sep, i, rest, j);
        assert forall k: nat :: OccursAt(rest[..j], sep, k) ==> OccursAt(rest, sep, k) && k < j by {
          forall k: nat | OccursAt(rest[..j], sep, k) ensures OccursAt(rest, sep, k) && k < j {
            assert rest[..j][k..k + |sep|] == rest[k..k + |sep|];
          }
        }
        Some(rest[..j])
  }

  /** `req.headers.authorization?.split("Bearer ")[1]`, where undefined and
      the empty string are both refused. */
  function BearerToken(authorization: Option<string>): (t: Option<string>)
    ensures t.Some? ==> authorization.Some? && t.value != "" && forall k :: !OccursAt(t.value, BearerSeparator, k)
    ensures authorization.None? ==> t.None?
    ensures authorization.Some? ==>
              var piece := SplitSecond(authorization.value, BearerSeparator);
              && (t.Some? <==> piece.Some? && piece.value != "")
              && (t.Some? ==> t == piece)
  {
    if authorization.None? then None
    else
      match SplitSecond(authorization.value, BearerSeparator)
      case None => None
      case Some(token) => if token == "" then None else Some(token)
  }

  /** A well-formed header yields exactly its token. */
  lemma BearerTokenOfHeader(token: string)
    requires token != "" && forall k :: !OccursAt(token, BearerSeparator, k)
    ensures BearerToken(Some(BearerSeparator + token)) == Some(token)
  {
    var h := BearerSeparator + token;
    assert h[0..|BearerSeparator|] == BearerSeparator;
    assert IndexOf(h, BearerSeparator, 0) == Some(0);
    assert h[|BearerSeparator|..] == token;
  }

  /** A header without the separator yields no token. */
  lemma NoSeparatorNoToken(header: string)
    requires forall k :: !OccursAt(header, BearerSeparator, k)
    ensures BearerToken(Some(header)) == None
  {
  }

  // ---------------------------------------------------------------------
  // The object name

  const UploadFolder: string := "predictedUploads/"

  /** Where the image is uploaded: a generated name plus the extension of
      the client's file name. */
  function Destination(uuid: string, originalName: string): (d: string)
    ensures |d| == |UploadFolder| + |uuid| + |Extname(originalName)|
    ensures d[..|UploadFolder|] == UploadFolder
    ensures d[|UploadFolder|..] == uuid + Extname(originalName)
  {
    ConcatParts(UploadFolder, uuid, Extname(originalName));
    UploadFolder + uuid + Extname(originalName)
  }

  /** The three parts of a concatenation, read back by position. */
  lemma ConcatParts(a: string, b: string, c: string)
    ensures a + (b + c) == a + b + c
    ensures (a + b + c)[..|a|] == a && (a + b + c)[|a|..] == b + c
    ensures (a + b + c)[|a|..|a| + |b|] == b
  {
    assert a + b + c == a + (b + c);
  }

  /** The client's file name contributes only its extension, which has no
      '/', so the object stays directly inside the upload folder. */
  lemma DestinationStaysInFolder(uuid: string, originalName: string)
    requires uuid != "" && '/' !in uuid
    ensures |Destination(uuid, originalName)| > |UploadFolder|
    ensures Destination(uuid, originalName)[..|UploadFolder|] == UploadFolder
    ensures '/' !in Destination(uuid, originalName)[|UploadFolder|..]
  {
    ConcatParts(UploadFolder, uuid, Extname(originalName));
  }

  /** Names generated from distinct ids of one length never collide. */
  lemma DistinctIdsDistinctDestinations(u1: string, u2: string, name1: string, name2: string)
    requires |u1| == |u2| && u1 != u2
    ensures Destination(u1, name1) != Destination(u2, name2)
  {
    ConcatParts(UploadFolder, u1, Extname(name1));
    ConcatParts(UploadFolder, u2, Extname(name2));
  }

  // ---------------------------------------------------------------------
  // Errors and stages

  /** The catch block's reply for an error thrown inside the try block. */
  function ErrorReply(code: ErrCode): (r: Reply<PredictBody>)
    ensures r.Message? && (r.status == 403 || r.status == 408 || r.status == 500)
  {
    if code == Text("storage/unauthorized") then Message(403, "Forbidden: Unauthorized access to storage")
    else if code == Text("storage/canceled") then Message(408, "Request Timeout: Upload canceled")
    else if code == Text("storage/unknown") then Message(500, "Internal Server Error: Unknown storage error")
    else Message(500, "Internal Server Error")
  }

  /** Storage's two recognised failure codes have their own statuses; every
      other error, the unknown storage error included, is a 500, and only
      that one carries its own message. */
  lemma ErrorStatus(code: ErrCode)
    ensures ErrorReply(code).Message?
    ensures ErrorReply(code).status == 403 <==> code == Text("storage/unauthorized")
    ensures ErrorReply(code).status == 408 <==> code == Text("storage/canceled")
    ensures ErrorReply(code).status == 500 <==> code != Text("storage/unauthorized") && code != Text("storage/canceled")
    ensures ErrorReply(code).status == 500 ==>
              ErrorReply(code).text == if code == Text("storage/unknown") then "Internal Server Error: Unknown storage error"
                                       else "Internal Server Error"
  {
  }

  /** Where a request stops. */
  datatype Stage =
    | NoImage
    | NoToken
    | BadToken
    | UploadFailed(code: ErrCode)
    | SignFailed(code: ErrCode)
    | InferenceFailed(code: ErrCode)
    | RecordFailed(grpc: int)
    | LinkFailed(grpc: int)
    | Completed

  function StageOf(req: PredictRequest, svc: Services, users: map<string, UserDoc>): (s: Stage)
    ensures Uploaded(s) ==> req.file.Some? && svc.verifyIdToken.Returned? && svc.upload.Returned?
    ensures Recorded(s) ==> svc.signedUrl.Returned? && svc.inference.Returned? && svc.recordWrite.Written?
    ensures s.Completed? ==> svc.verifyIdToken.value in users
  {
    if req.file.None? then NoImage
    else if BearerToken(req.authorization).None? then NoToken
    else if svc.verifyIdToken.Threw? then BadToken
    else TryStage(svc, users)
  }

  /** Where the try block stops once the caller is authenticated: each
      call in turn, the first that throws ends the request. A missing user
      document makes the profile update throw NOT_FOUND. */
  function TryStage(svc: Services, users: map<string, UserDoc>): (s: Stage)
    requires svc.verifyIdToken.Returned?
    ensures s.UploadFailed? || Uploaded(s)
    ensures Uploaded(s) ==> svc.upload.Returned?
    ensures Recorded(s) ==> svc.signedUrl.Returned? && svc.inference.Returned? && svc.recordWrite.Written?
    ensures s.Completed? ==> svc.verifyIdToken.value in users
  {
    if svc.upload.Threw? then UploadFailed(svc.upload.code)
    else if svc.signedUrl.Threw? then SignFailed(svc.signedUrl.code)
    else if svc.inference.Threw? then InferenceFailed(svc.inference.code)
    else RecordStage(svc, users)
  }

  /** Where the request stops once the image is classified. */
  function RecordStage(svc: Services, users: map<string, UserDoc>): (s: Stage)
    requires svc.verifyIdToken.Returned?
    ensures s.RecordFailed? || Recorded(s)
    ensures Recorded(s) ==> svc.recordWrite.Written?
    ensures s.Completed? ==> svc.verifyIdToken.value in users
  {
    if svc.recordWrite.WriteFailed? then RecordFailed(svc.recordWrite.grpc)
    else if svc.verifyIdToken.value !in users then LinkFailed(NotFound)
    else if svc.profileUpdate.WriteFailed? then LinkFailed(svc.profileUpdate.grpc)
    else Completed
  }

  /** The image has been written to the bucket. */
  predicate Uploaded(s: Stage) {
    s.SignFailed? || s.InferenceFailed? || s.RecordFailed? || Recorded(s)
  }

  /** The history record has been written. */
  predicate Recorded(s: Stage) {
    s.LinkFailed? || s.Completed?
  }

  /** The history record the request writes. */
  function RecordOf(svc: Services): (r: PredictRecord)
    requires svc.verifyIdToken.Returned? && svc.signedUrl.Returned? && svc.inference.Returned?
    ensures r.imageUrl == svc.signedUrl.value && r.userId == svc.verifyIdToken.value && r.timestamp == svc.now
    ensures r.predictedClass == svc.inference.value.predictedClass && r.wasteType == svc.inference.value.wasteType
    ensures r.probabilities == svc.inference.value.probabilities
  {
    var p := svc.inference.value;
    PredictRecord(svc.signedUrl.value, p.predictedClass, p.wasteType, p.probabilities, svc.now, svc.verifyIdToken.value)
  }

  /** The 200 body: the signed URL and the service's answer. */
  function BodyOf(svc: Services): (r: PredictBody)
    requires svc.signedUrl.Returned? && svc.inference.Returned?
    ensures r.imageUrl == svc.signedUrl.value
    ensures r.predictedClass == svc.inference.value.predictedClass && r.wasteType == svc.inference.value.wasteType
    ensures r.probabilities == svc.inference.value.probabilities
  {
    var p := svc.inference.value;
    PredictBody(svc.signedUrl.value, p.predictedClass, p.wasteType, p.probabilities)
  }

  /** The reply a request gets once it stops at `s`. */
  function ReplyAt(s: Stage, svc: Services): (r: Reply<PredictBody>)
    requires s.Completed? ==> svc.signedUrl.Returned? && svc.inference.Returned?
    ensures r.Json? <==> s.Completed?
    ensures r.Json? ==> r == Json(200, BodyOf(svc))
    ensures !r.Json? ==> r.Message?
    ensures r.status == 400 <==> s.NoImage?
    ensures r.status == 401 <==> s.NoToken? || s.BadToken?
  {
    match s
    case NoImage => Message(400, "No image file provided")
    case NoToken => Message(401, "Unauthorized: No token provided")
    case BadToken => Message(401, "Unauthorized: Invalid token")
    case UploadFailed(c) => ErrorReply(c)
    case SignFailed(c) => ErrorReply(c)
    case InferenceFailed(c) => ErrorReply(c)
    case RecordFailed(g) => ErrorReply(Number(g))
    case LinkFailed(g) => ErrorReply(Number(g))
    case Completed => Json(200, BodyOf(svc))
  }

  // ---------------------------------------------------------------------
  // The handler

  /** `handleImagePredict`. */
  method HandleImagePredict(b: Backend, req: PredictRequest, svc: Services) returns (reply: Reply<PredictBody>)
    requires b.Valid()
    modifies b
    ensures b.Valid()
    ensures reply == ReplyAt(StageOf(req, svc, old(b.users)), svc)
    ensures b.bucket == if Uploaded(StageOf(req, svc, old(b.users)))
                        then old(b.bucket) + {Destination(svc.uuid, req.file.value.originalName)}
                        else old(b.bucket)
    ensures b.predictHistory == if Recorded(StageOf(req, svc, old(b.users)))
                                then old(b.predictHistory)[svc.recordId := RecordOf(svc)]
                                else old(b.predictHistory)
    ensures b.users == if StageOf(req, svc, old(b.users)).Completed?
                       then old(b.users)[svc.verifyIdToken.value := Linked(old(b.users)[svc.verifyIdToken.value], svc.recordId)]
                       else old(b.users)
    ensures b.uploads == if StageOf(req, svc, old(b.users)).Completed?
                         then old(b.uploads) - {req.file.value.path}
                         else old(b.uploads)
    ensures unchanged(b`quizzes, b`results)
  {
    if req.file.None? {
      return Message(400, "No image file provided");
    }
    var idToken := BearerToken(req.authorization);
    if idToken.None? {
      return Message(401, "Unauthorized: No token provided");
    }
    if svc.verifyIdToken.Threw? {
      return Message(401, "Unauthorized: Invalid token");
    }
    reply := UploadAndClassify(b, req.file.value, svc);
  }

  /** The try block of `handleImagePredict`, entered with a verified token:
      upload the image, get a signed URL for it, have it classified. */
  method UploadAndClassify(b: Backend, file: UploadedFile, svc: Services) returns (reply: Reply<PredictBody>)
    requires b.Valid() && svc.verifyIdToken.Returned?
    modifies b
    ensures b.Valid()
    ensures reply == ReplyAt(TryStage(svc, old(b.users)), svc)
    ensures b.bucket == if Uploaded(TryStage(svc, old(b.users)))
                        then old(b.bucket) + {Destination(svc.uuid, file.originalName)}
                        else old(b.bucket)
    ensures b.predictHistory == if Recorded(TryStage(svc, old(b.users)))
                                then old(b.predictHistory)[svc.recordId := RecordOf(svc)]
                                else old(b.predictHistory)
    ensures b.users == if TryStage(svc, old(b.users)).Completed?
                       then old(b.users)[svc.verifyIdToken.value := Linked(old(b.users)[svc.verifyIdToken.value], svc.recordId)]
                       else old(b.users)
    ensures b.uploads == if TryStage(svc, old(b.users)).Completed?
                         then old(b.uploads) - {file.path}
                         else old(b.uploads)
    ensures unchanged(b`quizzes, b`results)
  {
    var fileName := svc.uuid + Extname(file.originalName);
    var destination := UploadFolder + fileName;
    ConcatParts(UploadFolder, svc.uuid, Extname(file.originalName));

    if svc.upload.Threw? {
      assert TryStage(svc, b.users) == UploadFailed(svc.upload.code);
      return ErrorReply(svc.upload.code);
    }
    b.bucket := b.bucket + {destination};
    assert b.Valid();

    if svc.signedUrl.Threw? {
      assert TryStage(svc, b.users) == SignFailed(svc.signedUrl.code);
      return ErrorReply(svc.signedUrl.code);
    }

    if svc.inference.Threw? {
      assert TryStage(svc, b.users) == InferenceFailed(svc.inference.code);
      return ErrorReply(svc.inference.code);
    }
    assert TryStage(svc, b.users) == RecordStage(svc, b.users);
    reply := RecordAndLink(b, file, svc);
  }

  /** The rest of the try block: store the record, then link it to the user. */
  method RecordAndLink(b: Backend, file: UploadedFile, svc: Services) returns (reply: Reply<PredictBody>)
    requires b.Valid()
    requires svc.verifyIdToken.Returned? && svc.signedUrl.Returned? && svc.inference.Returned?
    modifies b
    ensures b.Valid()
    ensures reply == ReplyAt(RecordStage(svc, old(b.users)), svc)
    ensures b.predictHistory == if Recorded(RecordStage(svc, old(b.users)))
                                then old(b.predictHistory)[svc.recordId := RecordOf(svc)]
                                else old(b.predictHistory)
    ensures b.users == if RecordStage(svc, old(b.users)).Completed?
                       then old(b.users)[svc.verifyIdToken.value := Linked(old(b.users)[svc.verifyIdToken.value], svc.recordId)]
                       else old(b.users)
    ensures b.uploads == if RecordStage(svc, old(b.users)).Completed?
                         then old(b.uploads) - {file.path}
                         else old(b.uploads)
    ensures unchanged(b`bucket, b`quizzes, b`results)
  {
    var userId := svc.verifyIdToken.value;
    var url := svc.signedUrl.value;
    var prediction := svc.inference.value;
    if svc.recordWrite.WriteFailed? {
      assert RecordStage(svc, b.users) == RecordFailed(svc.recordWrite.grpc);
      return ErrorReply(Number(svc.recordWrite.grpc));
    }
    var record := PredictRecord(url, prediction.predictedClass, prediction.wasteType,
                                prediction.probabilities, svc.now, userId);
    AllLinksValidAfterRecord(b.users, b.predictHistory, svc.recordId, record);
    b.predictHistory := b.predictHistory[svc.recordId := record];
    assert b.Valid();
    assert record == RecordOf(svc);
    var body := PredictBody(url, prediction.predictedClass, prediction.wasteType, prediction.probabilities);
    reply := LinkToUser(b, userId, svc.recordId, svc.profileUpdate, body, file.path);
  }

  /** The last steps on the success path: add the record id to the user's
      `predictCollection`, reply 200, and remove the temporary file. An
      update of a missing user document throws NOT_FOUND. */
  method LinkToUser(b: Backend, userId: string, recordId: string, update: WriteOutcome,
                    body: PredictBody, tempPath: string)
    returns (reply: Reply<PredictBody>)
    requires b.Valid() && recordId in b.predictHistory
    modifies b
    ensures b.Valid()
    ensures userId !in old(b.users) ==> reply == ErrorReply(Number(NotFound)) && unchanged(b`users, b`uploads)
    ensures userId in old(b.users) && update.WriteFailed? ==>
              reply == ErrorReply(Number(update.grpc)) && unchanged(b`users, b`uploads)
    ensures userId in old(b.users) && update.Written? ==>
              && reply == Json(200, body)
              && b.users == old(b.users)[userId := Linked(old(b.users)[userId], recordId)]
              && b.uploads == old(b.uploads) - {tempPath}
    ensures unchanged(b`predictHistory, b`bucket, b`quizzes, b`results)
  {
    if userId !in b.users {
      return ErrorReply(Number(NotFound));
    }
    if update.WriteFailed? {
      return ErrorReply(Number(update.grpc));
    }
    var linked := b.users[userId := Linked(b.users[userId], recordId)];
    AllLinksValidAfterLink(b.users, b.predictHistory, userId, recordId);
    b.users := linked;
    assert b.Valid();
    reply := Json(200, body);
    b.uploads := b.uploads - {tempPath};
  }

  // ---------------------------------------------------------------------
  // What the stages promise

  /** A history record exists only after the upload, the signed URL and the
      classification all succeeded, and it carries the verified uid. */
  lemma RecordOnlyAfterClassification(req: PredictRequest, svc: Services, users: map<string, UserDoc>)
    requires Recorded(StageOf(req, svc, users))
    ensures req.file.Some? && BearerToken(req.authorization).Some? && svc.verifyIdToken.Returned?
    ensures svc.upload.Returned? && svc.signedUrl.Returned? && svc.inference.Returned? && svc.recordWrite.Written?
    ensures RecordOf(svc).userId == svc.verifyIdToken.value
  {
  }

  /** Each status names one kind of outcome. */
  lemma StatusOfStage(req: PredictRequest, svc: Services, users: map<string, UserDoc>)
    ensures var s := StageOf(req, svc, users);
            var r := ReplyAt(s, svc);
            && (r.status == 200 <==> s.Completed?)
            && (r.status == 400 <==> req.file.None?)
            && (r.status == 401 <==> req.file.Some? && (BearerToken(req.authorization).None? || svc.verifyIdToken.Threw?))
            && (!Uploaded(s) && !s.UploadFailed? <==> r.status == 400 || r.status == 401)
  {
  }

  /** On success the reply and the stored record agree on every shared field. */
  lemma ReplyMatchesRecord(req: PredictRequest, svc: Services, users: map<string, UserDoc>)
    requires StageOf(req, svc, users).Completed?
    ensures var r := ReplyAt(StageOf(req, svc, users), svc);
            var rec := RecordOf(svc);
            && r.Json?
            && r.value.imageUrl == rec.imageUrl && r.value.predictedClass == rec.predictedClass
            && r.value.wasteType == rec.wasteType && r.value.probabilities == rec.probabilities
  {
  }

  /** When the profile update fails the record stays but the reply is the
      generic 500, whatever Firestore's error code. */
  lemma LinkFailureKeepsRecord(req: PredictRequest, svc: Services, users: map<string, UserDoc>)
    requires StageOf(req, svc, users).LinkFailed?
    ensures Recorded(StageOf(req, svc, users))
    ensures ReplyAt(StageOf(req, svc, users), svc) == Message(500, "Internal Server Error")
  {
  }

  /** When the record write fails the image stays in the bucket, nothing is
      recorded, and the reply is the generic 500. */
  lemma RecordFailureLeavesUpload(req: PredictRequest, svc: Services, users: map<string, UserDoc>)
    requires StageOf(req, svc, users).RecordFailed?
    ensures Uploaded(StageOf(req, svc, users)) && !Recorded(StageOf(req, svc, users))
    ensures ReplyAt(StageOf(req, svc, users), svc) == Message(500, "Internal Server Error")
  {
  }

  // ---------------------------------------------------------------------
  // Listing

  datatype HistoryEntry = HistoryEntry(id: string, record: PredictRecord)

  datatype PredictHistoryList = PredictHistoryList(predictHistory: seq<HistoryEntry>)

  function HistoryIds(list: seq<HistoryEntry>): (ids: seq<string>)
    ensures |ids| == |list| && forall i :: 0 <= i < |list| ==> ids[i] == list[i].id
  {
    seq(|list|, i requires 0 <= i < |list| => list[i].id)
  }

  /** `list` has one entry per record, carrying its id, in listing order. */
  ghost predicate ListsHistory(list: seq<HistoryEntry>, history: map<string, PredictRecord>) {
    && |list| == |history|
    && (forall i :: 0 <= i < |list| ==> list[i].id in history && list[i].record == history[list[i].id])
    && (forall id :: id in history ==> id in HistoryIds(list))
    && Ascending(HistoryIds(list))
  }

  /** `getAllPredictHistory`: every record with its id; an empty history is a 200 too. */
  function GetAllPredictHistory(history: map<string, PredictRecord>, fault: bool): (reply: Reply<PredictHistoryList>)
    ensures fault ==> reply == Message(500, "Internal Server Error")
    ensures !fault ==> reply.Json? && reply.status == 200 && ListsHistory(reply.value.predictHistory, history)
  {
    if fault then Message(500, "Internal Server Error")
    else
      var ids := SortedIds(history.Keys);
      var list := seq(|ids|, i requires 0 <= i < |ids| => HistoryEntry(ids[i], history[ids[i]]));
      assert HistoryIds(list) == ids;
      Json(200, PredictHistoryList(list))
  }
}
