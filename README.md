# Bin Detective backend — a Dafny model of its request handlers

Bin Detective is a waste-classification app. Its backend is a set of
Express handlers over Firebase: Firestore collections `users`,
`predict_history`, `quizzes` and `results`, plus a Cloud Storage bucket.
This project models the three handler files that hold the backend's logic:

- **The image-prediction pipeline** (`handleImagePredict`). It checks the
  uploaded image and the bearer token, then verifies the token. It uploads
  the image under `predictedUploads/<uuid><ext>` and gets a signed URL for
  it. It has the image classified and stores a `predict_history` record.
  It adds the record id to the caller's `predictCollection` and replies.
  Storage error codes map to 403, 408 or 500. The module also models the
  listing of all history records.
- **Quizzes**: creating and reading quizzes, scoring a submission
  (`calculateScore`), storing results, and the per-quiz leaderboard.
- **User profiles**: create with validation and defaults, read, partial
  update, delete, the listing, the join from `predictCollection` into
  `predict_history`, and a user's quiz results.

## How the model is built

- **State.** `Store.Backend` is one object holding the process-wide state:
  - every collection, as a map by document id (results as the sequence in
    which they were added);
  - the set of object paths in the bucket;
  - the temporary files the upload middleware left on disk.

  Handlers that write are methods that modify it. Each states its whole
  new state, the untouched parts included. Handlers that only read are
  functions over the collections they read.
- **Invariant.** `Backend.Valid()`: every user's `predictCollection` holds
  distinct ids of stored history records. Every writing handler preserves
  it.
- **External calls become inputs.** Each is a "returned this value" or
  "threw an error with this code" outcome:
  - for the pipeline, the token verifier, uuid, upload, signed URL,
    classification service, generated record id, clock and the two
    Firestore writes, gathered in `PredictHandlers.Services`. The two
    Firestore writes can fail only with a numeric gRPC code, never with one
    of Cloud Storage's string codes, so their failures always reach the
    generic 500;
  - for the other handlers, a `fault` flag standing for a failing
    Firestore call.
- **Replies.** A reply is `Json` (a JSON value), `Message` (a
  `{ message }` object) or `Plain` (a bare string). This follows the
  source, which mixes the three per handler.
- **The pipeline's stages.** `PredictHandlers.StageOf` names the step
  where a request stops. The handler's contract gives the reply and every
  part of the new state as a function of that stage.
- **Order of listings.** Collections are listed in ascending code-point
  order of document id (`DocumentOrder.SortedIds`).
- **JavaScript semantics made explicit:**
  - truthiness of optional strings (`Store.Truthy`);
  - `split("Bearer ")[1]` (`PredictHandlers.SplitSecond`);
  - Node's `path.extname` (`NodePath.Extname`);
  - `FieldValue.arrayUnion` (`Store.ArrayUnion`);
  - Firestore's `update` throwing NOT_FOUND (gRPC code 5) on a missing
    document.

The image is uploaded straight to `predictedUploads/`; the handler has no
promotion step from a temporary location and no rollback of an upload
whose later steps fail.

## Model

| member | source | states |
|---|---|---|
| Store.OrNull | src/handlers/authHandlers.js:27 | `v \|\| null`: a truthy value is kept, anything falsy becomes null, and a non-null result is truthy |
| Store.PredictIds | src/handlers/authHandlers.js:145 | `predictCollection \|\| []`: the stored list, or the empty list when the field is absent |
| Store.Backend.Valid | src/handlers/predictHandlers.js:62-76 | the link invariant: every user's `predictCollection` holds distinct ids of stored history records, which holds because a record is written before its id is linked |
| Store.Backend.constructor | src/app.js:41-59 | the process-wide `db` and `bucket` handles start with empty collections and an empty bucket, and the invariant holds |
| Store.ArrayUnion | src/handlers/predictHandlers.js:74-76 | the array after `arrayUnion(x)` holds exactly the old elements and `x`, keeps the old ones as its prefix, grows by at most one, is unchanged when `x` was there, and stays duplicate-free |
| Store.ArrayUnionIdempotent | src/handlers/predictHandlers.js:74-76 | a second `arrayUnion` of the same id changes nothing |
| Store.Linked | src/handlers/predictHandlers.js:73-76 | linking a record sets the user's prediction ids to their array union with the id and leaves every other profile field as it was |
| Store.LinkedIdempotent | src/handlers/predictHandlers.js:73-76 | linking the same record twice gives the same document as linking it once |
| Store.LinksValidAfterRecord | src/handlers/predictHandlers.js:62-70 | writing a history record keeps every user's links distinct and resolvable |
| Store.LinksValidAfterLink | src/handlers/predictHandlers.js:73-76 | linking a stored record keeps the user's links distinct and resolvable |
| Store.AllLinksValidAfterRecord | src/handlers/predictHandlers.js:62-70 | storing a history record keeps the links of the whole `users` collection valid |
| Store.AllLinksValidAfterLink | src/handlers/predictHandlers.js:73-76 | linking a stored record to one user keeps the links of the whole `users` collection valid |
| DocumentOrder.SortedIds | src/handlers/predictHandlers.js:127-131 | a listing names each document id of the collection exactly once, in strictly ascending id order |
| NodePath.Extname | src/handlers/predictHandlers.js:33 | the extension is empty or a '.' followed by no further '.', contains no '/', and is a proper suffix of the name's last component |
| NodePath.ExtnameOfLastComponent | src/handlers/predictHandlers.js:33 | only the last path component, trailing '/' ignored, decides the extension |
| NodePath.ExtnameOfName | src/handlers/predictHandlers.js:33 | a file name, other than "..", whose last '.' is at position d > 0 has exactly the suffix from d on as its extension |
| NodePath.ExtnameEmpty | src/handlers/predictHandlers.js:33 | a file name with no '.' after its first character, or "..", has the empty extension |
| NodePath.ExtnameOfPlainName | src/handlers/predictHandlers.js:33 | "bottle.jpg" keeps ".jpg" |
| NodePath.ExtnameKeepsLastSuffixOnly | src/handlers/predictHandlers.js:33 | "archive.tar.gz" keeps only ".gz" |
| NodePath.ExtnameOfDotFile | src/handlers/predictHandlers.js:33 | a name whose only '.' is its first character, such as ".profile", has no extension |
| NodePath.ExtnameIgnoresTrailingSlash | src/handlers/predictHandlers.js:33 | trailing '/' characters are ignored: "shot.png/" keeps ".png" |
| PredictHandlers.IndexOf | src/handlers/predictHandlers.js:16 | the position found is an occurrence of the pattern, and no earlier position at or after the start is one |
| PredictHandlers.SplitSecond | src/handlers/predictHandlers.js:16 | the second piece of the split is undefined exactly when the separator does not occur; otherwise it is the text that starts right after the first occurrence and runs up to the next occurrence or to the end, and it never contains the separator |
| PredictHandlers.BearerToken | src/handlers/predictHandlers.js:16-18 | a token is found exactly when the header is present and the second piece of its split on "Bearer " is defined and non-empty, and the token is then that piece |
| PredictHandlers.BearerTokenOfHeader | src/handlers/predictHandlers.js:16-18 | a header "Bearer t", with `t` non-empty and free of the separator, yields exactly `t` |
| PredictHandlers.NoSeparatorNoToken | src/handlers/predictHandlers.js:16-18 | a header without "Bearer " yields no token, so the request is refused with "No token provided" |
| PredictHandlers.Destination | src/handlers/predictHandlers.js:32-34 | the object path is `predictedUploads/` followed by the uuid and the extension of the client's file name |
| PredictHandlers.DestinationStaysInFolder | src/handlers/predictHandlers.js:32-34 | with a uuid free of '/', the object lies directly inside `predictedUploads/`: the client's name contributes no directory |
| PredictHandlers.DistinctIdsDistinctDestinations | src/handlers/predictHandlers.js:33-34 | distinct uuids of one length give distinct object paths, whatever the client's file names |
| PredictHandlers.ErrorReply | src/handlers/predictHandlers.js:105-120 | the catch block always answers a `{ message }` object with status 403, 408 or 500 |
| PredictHandlers.ErrorStatus | src/handlers/predictHandlers.js:105-120 | 403 exactly for "storage/unauthorized", 408 exactly for "storage/canceled", 500 for every other code, with the "Unknown storage error" message only for "storage/unknown" |
| PredictHandlers.StageOf | src/handlers/predictHandlers.js:9-122 | a request completes only with a verified uid naming an existing user, a signed URL and a classification |
| PredictHandlers.TryStage | src/handlers/predictHandlers.js:36-92 | once authenticated, a request either fails its upload or has its image in the bucket, and completes only with a URL, a classification and an existing user |
| PredictHandlers.RecordStage | src/handlers/predictHandlers.js:61-76 | after classification, a request either fails to write its record or has the record stored, and completes only for an existing user |
| PredictHandlers.RecordOf | src/handlers/predictHandlers.js:63-70 | the history record carries the signed URL, the service's class, waste type and probabilities, the clock's time and the verified uid |
| PredictHandlers.BodyOf | src/handlers/predictHandlers.js:79-84 | the 200 body carries the signed URL and the service's class, waste type and probabilities |
| PredictHandlers.ReplyAt | src/handlers/predictHandlers.js:11-120 | JSON exactly on success, with status 200 and the body; a `{ message }` object otherwise; 400 exactly for the missing image and 401 exactly for the missing or rejected token |
| PredictHandlers.HandleImagePredict | src/handlers/predictHandlers.js:9-122 | the reply is the stage's reply. The bucket gains `predictedUploads/<uuid><ext>` exactly once the upload has succeeded. The history gains the record exactly once its write has succeeded. The caller's profile links the record, and the temporary file is removed, only on success. Quizzes and results are untouched and the link invariant is kept |
| PredictHandlers.UploadAndClassify | src/handlers/predictHandlers.js:36-92 | the try block's effect on bucket, history, users and temporary files, as a function of where it stops |
| PredictHandlers.RecordAndLink | src/handlers/predictHandlers.js:61-92 | storing the record and linking it: the history gains the record once its write succeeded; the profile and temporary files change only on success; the bucket is untouched |
| PredictHandlers.LinkToUser | src/handlers/predictHandlers.js:72-92 | a missing user document or a failing update answers the error reply and changes neither profiles nor temporary files; otherwise the profile links the record, the reply is the 200 body and the temporary file is removed |
| PredictHandlers.RecordOnlyAfterClassification | src/handlers/predictHandlers.js:41-70 | a history record exists only if the image, token, verification, upload, signed URL, classification and record write all succeeded, and it carries the verified uid |
| PredictHandlers.StatusOfStage | src/handlers/predictHandlers.js:11-120 | 200 exactly on success; 400 exactly when no image was sent; 401 exactly when the token is missing or fails verification; and a 400 or 401 reply means nothing was uploaded |
| PredictHandlers.ReplyMatchesRecord | src/handlers/predictHandlers.js:62-84 | on success the 200 body and the stored record carry the same URL, class, waste type and probabilities |
| PredictHandlers.LinkFailureKeepsRecord | src/handlers/predictHandlers.js:72-120 | when linking to the profile fails, for a missing user document or any other Firestore error, the record stays stored and the reply is the generic 500 |
| PredictHandlers.RecordFailureLeavesUpload | src/handlers/predictHandlers.js:61-120 | when the record write fails the image stays in the bucket, no record is stored and the reply is the generic 500 |
| PredictHandlers.GetAllPredictHistory | src/handlers/predictHandlers.js:125-138 | 500 on a failing read; otherwise 200 with one entry per record, carrying its id and its fields, in id order, an empty history included |
| QuizzesHandlers.FindQuestion | src/handlers/quizzesHandlers.js:205 | the question found is the first one with the answer's id; none is found only when no question has that id |
| QuizzesHandlers.FindCorrect | src/handlers/quizzesHandlers.js:207 | the option found is the first one marked correct; none is found only when no option is |
| QuizzesHandlers.Points | src/handlers/quizzesHandlers.js:204-211 | an answer is worth 1 exactly when the first question with its id exists and the first correct option of that question is the one selected, otherwise 0 |
| QuizzesHandlers.Score | src/handlers/quizzesHandlers.js:197-215 | the score never exceeds the number of answers |
| QuizzesHandlers.CalculateScore | src/handlers/quizzesHandlers.js:197-215 | fails exactly when the quiz does not exist, and otherwise counts the credited answers |
| QuizzesHandlers.ScoreAppend | src/handlers/quizzesHandlers.js:204-212 | the score of concatenated answer lists is the sum of their scores |
| QuizzesHandlers.ScorePermutation | src/handlers/quizzesHandlers.js:204-212 | reordering the answers does not change the score |
| QuizzesHandlers.FullScore | src/handlers/quizzesHandlers.js:204-212 | the score equals the number of answers exactly when every answer is credited |
| QuizzesHandlers.UnknownQuestionsScoreZero | src/handlers/quizzesHandlers.js:205-206 | answers naming no existing question score 0 |
| QuizzesHandlers.CreateQuiz | src/handlers/quizzesHandlers.js:30-48 | 201 with the generated id and the quiz stored under it, or 500 and nothing written; no other collection changes |
| QuizzesHandlers.GetAllQuizzes | src/handlers/quizzesHandlers.js:64-84 | 404 on an empty collection; otherwise one id, title and description per quiz, in id order, without the questions |
| QuizzesHandlers.GetQuizById | src/handlers/quizzesHandlers.js:105-119 | 200 with exactly the stored quiz if it exists, 404 "Quiz not found" otherwise |
| QuizzesHandlers.CreatedQuizReadsBack | src/handlers/quizzesHandlers.js:33-43 | a quiz created under a fresh id reads back as stored, grows the collection by one and appears in the listing |
| QuizzesHandlers.SubmitQuizAnswers | src/handlers/quizzesHandlers.js:135-159 | on success appends exactly one result whose score is the score it replies with, that score being the answers' score against the stored quiz; otherwise 500 and no result written |
| QuizzesHandlers.EntryOf | src/handlers/quizzesHandlers.js:183-187 | an entry shows the result's user and score, and its submission time as the completion time |
| QuizzesHandlers.Entries | src/handlers/quizzesHandlers.js:170-187 | every entry is the projection of a result of that quiz, every such result's projection is an entry, and there are no more entries than results |
| QuizzesHandlers.EntriesCount | src/handlers/quizzesHandlers.js:170-187 | each entry occurs as many times as there are results of that quiz projecting to it |
| QuizzesHandlers.InsertByScore | src/handlers/quizzesHandlers.js:173 | inserting into a list ordered by descending score keeps it ordered and adds exactly that entry |
| QuizzesHandlers.OrderByScore | src/handlers/quizzesHandlers.js:173 | the leaderboard order is non-increasing in score and a permutation of its input |
| QuizzesHandlers.GetQuizLeaderboard | src/handlers/quizzesHandlers.js:167-194 | 404 exactly when no result names the quiz; otherwise 200 with exactly that quiz's entries, scores non-increasing |
| QuizzesHandlers.EntriesAfterSubmit | src/handlers/quizzesHandlers.js:144-150 | a new result adds its entry to its own quiz's entries and changes no other quiz's |
| QuizzesHandlers.SubmittedResultIsRanked | src/handlers/quizzesHandlers.js:144-187 | a submitted result appears on its quiz's leaderboard |
| AuthHandlers.NewUserDoc | src/handlers/authHandlers.js:24-30 | a new profile keeps the given name and birth date, a picture only if one was given, and empty prediction and quiz lists |
| AuthHandlers.CreateUser | src/handlers/authHandlers.js:8-38 | 400 and nothing written without a truthy `userName`; 500 and nothing written when the write fails or `dateOfBirth` is absent (Firestore rejects the undefined value); otherwise the caller's uid gets the new profile, replacing any, with 201 |
| AuthHandlers.GetUserById | src/handlers/authHandlers.js:42-60 | 200 with exactly the stored document if it exists, 404 "User not found" otherwise |
| AuthHandlers.ApplyUpdate | src/handlers/authHandlers.js:72-79 | each of name, birth date and picture is replaced exactly when the body gives a truthy value for it; predictions and quizzes taken are never touched |
| AuthHandlers.UpdateUserById | src/handlers/authHandlers.js:65-87 | 200 and the partial update of that one document when it exists and the body has a truthy field; 500 and nothing written when it does not exist, when the body has no truthy field (Firestore rejects an empty update), or when the write fails |
| AuthHandlers.UpdateIdempotent | src/handlers/authHandlers.js:72-79 | repeating an update changes nothing more |
| AuthHandlers.EmptyUpdateKeepsDoc | src/handlers/authHandlers.js:76-78 | a body with no truthy field leaves the document as it was |
| AuthHandlers.UpdateKeepsLinks | src/handlers/authHandlers.js:72-79 | an update keeps the user's prediction links valid |
| AuthHandlers.DeleteUserById | src/handlers/authHandlers.js:91-103 | 200 and the id removed whether or not it existed, or 500 and nothing removed; no other document changes |
| AuthHandlers.DeletedUserIsGone | src/handlers/authHandlers.js:95-98 | after a delete the id reads as not found and every other id reads as before |
| AuthHandlers.CreatedUserReadsBack | src/handlers/authHandlers.js:21-30 | a fresh profile reads back as created, with an empty prediction join whatever the history holds, and no quiz results |
| AuthHandlers.Shown | src/handlers/authHandlers.js:117-121 | a listed profile shows a picture only when it is truthy, and every other field as stored |
| AuthHandlers.GetAllUsers | src/handlers/authHandlers.js:106-129 | 404 on an empty collection; otherwise one entry per user with its id and its shown profile, in id order |
| AuthHandlers.Lookup | src/handlers/authHandlers.js:148-156 | reading a history document by id finds its record exactly when one is stored under that id |
| AuthHandlers.GetUserPredictCollection | src/handlers/authHandlers.js:133-167 | 404 for an unknown user; otherwise one item per linked id, in the profile's order, carrying the record exactly when one with that id exists; a missing list counts as empty |
| AuthHandlers.LinkedPredictionsResolve | src/handlers/authHandlers.js:145-156 | in a store whose links are valid, every item of the join carries its record |
| AuthHandlers.GetUserResults | src/handlers/authHandlers.js:179-199 | 404 for an unknown user; otherwise the stored `quizzesTaken`, or an empty list when the field is absent |

## Left out

- HTTP and gRPC transport to the classification service, and reading the
  image file, are not modelled: classification is one outcome input.
- Firebase initialisation, configuration, emulator switches and server
  start-up are not modelled; the global handles are `Store.Backend`.
- The routers are not modelled; they only wire paths to handlers.
- The content handlers are not part of this model.
- Token verification, uuid generation, signed-URL generation, record-id
  generation and timestamps are library calls modelled as inputs.
- The bucket's object metadata (the MIME type) is not kept.
- Removing the temporary file is modelled as its removal from
  `Backend.uploads`. The unlink is asynchronous and its own failure only
  logs, so neither is modelled.
- Console logging is not modelled.
- Firestore's rejection of `undefined` field values is modelled only for
  the missing `dateOfBirth` of `createUser`. A classification answer that
  lacks a field would make the record write throw too. The model takes the
  answer as complete, and a failing write is the `recordWrite` outcome.
- The "id" key that the spread in the listings could override is not
  modelled; records carry no "id" field.
- Fields outside the modelled documents are not modelled.
- Malformed request bodies are not modelled, such as `answers` that is
  not an array, or a question without `options`.
- Invalid document ids are not modelled.
- QuizzesHandlers.OrderByScore: states only that scores are non-increasing
  and that the entries are those of the quiz. Firestore orders ties by the
  results' generated document ids, which the model does not keep.
- QuizzesHandlers.CreatedQuizReadsBack: requires the generated id to be
  fresh. The uuid is an input, so its uniqueness is assumed, not proved.
- Listings are in ascending code-point order of document id. Firestore's
  own id ordering is close to this, but is not modelled in its details.
