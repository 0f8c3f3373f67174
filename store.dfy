/** The backend's shared state and the documents it keeps.

    The Express handlers reach the document store and the storage bucket
    through process-wide handles (`db`, `bucket`). Here that state is one
    `Backend` object handed to every handler that changes it; handlers that
    only read take the collections they read as plain values. */
module Store {

  datatype Option<+T> = None | Some(value: T)

  /** Milliseconds since the epoch; the handlers stamp documents with `new Date()`,
      which the model takes as an input. */
  type Timestamp = int

  /** The `code` property of a thrown error: Cloud Storage uses strings
      such as "storage/unauthorized", Firestore uses numeric gRPC codes, and
      an axios or a type error may carry none at all. */
  datatype ErrCode = Text(name: string) | Number(n: int) | NoCode

  /** Firestore's gRPC code for an `update` of a document that does not exist. */
  const NotFound: int := 5

  /** What a handler sends back: `res.status(status).send(...)` with a JSON
      value, with an object `{ message }`, or with a bare string. */
  datatype Reply<T> =
    | Json(status: nat, value: T)
    | Message(status: nat, text: string)
    | Plain(status: nat, text: string)

  /** JavaScript truthiness of an optional string field: present and non-empty. */
  predicate Truthy(v: Option<string>) {
    v.Some? && v.value != ""
  }

  /** `v || null` for an optional string. */
  function OrNull(v: Option<string>): (r: Option<string>)
    ensures Truthy(v) ==> r == v
    ensures !Truthy(v) ==> r == None
    ensures r.Some? ==> Truthy(r)
  {
    if Truthy(v) then v else None
  }

  // ---------------------------------------------------------------------
  // Documents

  /** One entry of a user's `quizzesTaken` array. */
  datatype TakenQuiz = TakenQuiz(quizId: string, score: int, completedAt: Timestamp)

  /** A document of the `users` collection. Every field may be absent in a
      stored document (`None`); `profilePictureUrl` is `None` also when it
      was stored as `null`. */
  datatype UserDoc = UserDoc(
    userName: Option<string>,
    dateOfBirth: Option<string>,
    profilePictureUrl: Option<string>,
    predictCollection: Option<seq<string>>,
    quizzesTaken: Option<seq<TakenQuiz>>)

  /** A document of the `predict_history` collection. */
  datatype PredictRecord = PredictRecord(
    imageUrl: string,
    predictedClass: string,
    wasteType: string,
    probabilities: map<string, real>,
    timestamp: Timestamp,
    userId: string)

  datatype QuizOption = QuizOption(id: string, text: string, isCorrect: bool)

  datatype Question = Question(questionId: string, text: string, questionType: string, options: seq<QuizOption>)

  /** A document of the `quizzes` collection. */
  datatype Quiz = Quiz(title: string, description: string, questions: seq<Question>, createdAt: Timestamp)

  datatype Answer = Answer(questionId: string, selectedOptionId: string)

  /** A document of the `results` collection. */
  datatype QuizResult = QuizResult(quizId: string, userId: string, answers: seq<Answer>, score: int, submittedAt: Timestamp)

  // ---------------------------------------------------------------------
  // The user's prediction links

  /** `predictCollection || []`. */
  function PredictIds(doc: UserDoc): (ids: seq<string>)
    ensures doc.predictCollection.Some? ==> ids == doc.predictCollection.value
    ensures doc.predictCollection.None? ==> ids == []
  {
    if doc.predictCollection.Some? then doc.predictCollection.value else []
  }

  predicate NoDuplicates(s: seq<string>) {
    forall i, j :: 0 <= i < j < |s| ==> s[i] != s[j]
  }

  /** The array that `FieldValue.arrayUnion(x)` leaves behind in a field
      holding `xs`: `x` is appended unless it is already there. */
  function ArrayUnion(xs: seq<string>, x: string): (r: seq<string>)
    ensures forall y :: y in r <==> y in xs || y == x
    ensures |xs| <= |r| <= |xs| + 1 && r[..|xs|] == xs
    ensures x in xs ==> r == xs
    ensures NoDuplicates(xs) ==> NoDuplicates(r)
  {
    if x in xs then xs else xs + [x]
  }

  /** Linking the same id twice leaves the array as linking it once did. */
  lemma ArrayUnionIdempotent(xs: seq<string>, x: string)
    ensures ArrayUnion(ArrayUnion(xs, x), x) == ArrayUnion(xs, x)
  {
  }

  /** Every prediction a user links is a distinct id of a stored history record. */
  predicate LinksValid(doc: UserDoc, history: map<string, PredictRecord>) {
    var ids := PredictIds(doc);
    NoDuplicates(ids) && forall i :: 0 <= i < |ids| ==> ids[i] in history
  }

  /** The document after `update({ predictCollection: arrayUnion(id) })`. */
  function Linked(doc: UserDoc, id: string): (d: UserDoc)
    ensures PredictIds(d) == ArrayUnion(PredictIds(doc), id)
    ensures d.userName == doc.userName && d.dateOfBirth == doc.dateOfBirth
    ensures d.profilePictureUrl == doc.profilePictureUrl && d.quizzesTaken == doc.quizzesTaken
  {
    doc.(predictCollection := Some(ArrayUnion(PredictIds(doc), id)))
  }

  /** Linking a prediction twice is linking it once. */
  lemma LinkedIdempotent(doc: UserDoc, id: string)
    ensures Linked(Linked(doc, id), id) == Linked(doc, id)
  {
  }

  /** Writing a history record keeps every existing link resolvable. */
  lemma LinksValidAfterRecord(doc: UserDoc, history: map<string, PredictRecord>, id: string, r: PredictRecord)
    requires LinksValid(doc, history)
    ensures LinksValid(doc, history[id := r])
  {
  }

  /** Linking a stored record keeps the links distinct and resolvable. */
  lemma LinksValidAfterLink(doc: UserDoc, history: map<string, PredictRecord>, id: string)
    requires LinksValid(doc, history) && id in history
    ensures LinksValid(Linked(doc, id), history)
  {
    var ids := PredictIds(Linked(doc, id));
    forall i | 0 <= i < |ids| ensures ids[i] in history {
      assert ids[i] in ids;
    }
  }

  /** Every user's links are valid against `history`. */
  predicate AllLinksValid(users: map<string, UserDoc>, history: map<string, PredictRecord>) {
    forall uid :: uid in users ==> LinksValid(users[uid], history)
  }

  /** Storing a history record keeps every user's links valid. */
  lemma AllLinksValidAfterRecord(users: map<string, UserDoc>, history: map<string, PredictRecord>,
                                 id: string, r: PredictRecord)
    requires AllLinksValid(users, history)
    ensures AllLinksValid(users, history[id := r])
  {
    forall uid | uid in users ensures LinksValid(users[uid], history[id := r]) {
      LinksValidAfterRecord(users[uid], history, id, r);
    }
  }

  /** Linking a stored record to one user keeps every user's links valid. */
  lemma AllLinksValidAfterLink(users: map<string, UserDoc>, history: map<string, PredictRecord>,
                               uid: string, id: string)
    requires AllLinksValid(users, history) && uid in users && id in history
    ensures AllLinksValid(users[uid := Linked(users[uid], id)], history)
  {
    LinksValidAfterLink(users[uid], history, id);
  }

  // ---------------------------------------------------------------------
  // The state

  class Backend {
    /** The `users` collection, by document id (the Firebase uid). */
    var users: map<string, UserDoc>
    /** The `predict_history` collection, by auto-generated document id. */
    var predictHistory: map<string, PredictRecord>
    /** The `quizzes` collection, by quiz id. */
    var quizzes: map<string, Quiz>
    /** The `results` collection, in the order the documents were added. */
    var results: seq<QuizResult>
    /** The object paths present in the storage bucket. */
    var bucket: set<string>
    /** The temporary files the upload middleware left on local disk. */
    var uploads: set<string>

    /** Every user's `predictCollection` holds distinct ids of existing
        history records. Records are never deleted and are written before
        they are linked, so every handler keeps this. */
    predicate Valid()
      reads this
    {
      AllLinksValid(users, predictHistory)
    }

    constructor (uploads: set<string>)
      ensures Valid()
      ensures users == map[] && predictHistory == map[] && quizzes == map[]
      ensures results == [] && bucket == {} && this.uploads == uploads
    {
      users, predictHistory, quizzes := map[], map[], map[];
      results, bucket := [], {};
      this.uploads := uploads;
    }
  }
}
