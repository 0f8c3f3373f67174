/** The user-profile handlers: documents of the `users` collection keyed by
    Firebase uid, and the join from a user's `predictCollection` into
    `predict_history`. */
module AuthHandlers {
  import opened Store
  import opened DocumentOrder

  /** The profile fields a request body may carry. */
  datatype UserFields = UserFields(userName: Option<string>, dateOfBirth: Option<string>, profilePictureUrl: Option<string>)

  /** The document `createUser` writes: the given fields, a picture only when
      one was given, and no predictions or quizzes yet. */
  function NewUserDoc(body: UserFields): (doc: UserDoc)
    ensures doc.userName == body.userName && doc.dateOfBirth == body.dateOfBirth
    ensures Truthy(body.profilePictureUrl) ==> doc.profilePictureUrl == body.profilePictureUrl
    ensures !Truthy(body.profilePictureUrl) ==> doc.profilePictureUrl == None
    ensures PredictIds(doc) == [] && doc.predictCollection.Some? && doc.quizzesTaken == Some([])
  {
    UserDoc(body.userName, body.dateOfBirth, OrNull(body.profilePictureUrl), Some([]), Some([]))
  }

  /** `createUser`: the caller's uid gets a fresh profile document, replacing
      any document already there; without a `userName` nothing is written.
      A body without `dateOfBirth` makes `set` write an undefined value,
      which Firestore rejects, so that request fails with 500 as well. */
  method CreateUser(b: Backend, uid: string, body: UserFields, fault: bool) returns (reply: Reply<()>)
    requires b.Valid()
    modifies b
    ensures b.Valid()
    ensures !Truthy(body.userName) ==> reply == Plain(400, "userName is required") && b.users == old(b.users)
    ensures Truthy(body.userName) && (fault || body.dateOfBirth.None?) ==>
              reply == Plain(500, "Internal Server Error") && b.users == old(b.users)
    ensures Truthy(body.userName) && body.dateOfBirth.Some? && !fault ==>
              reply == Message(201, "User created successfully") && b.users == old(b.users)[uid := NewUserDoc(body)]
    ensures unchanged(b`predictHistory, b`quizzes, b`results, b`bucket, b`uploads)
  {
    if !Truthy(body.userName) {
      return Plain(400, "userName is required");
    }
    if fault || body.dateOfBirth.None? {
      return Plain(500, "Internal Server Error");
    }
    b.users := b.users[uid := NewUserDoc(body)];
    reply := Message(201, "User created successfully");
  }

  /** `getUserById`. */
  function GetUserById(users: map<string, UserDoc>, userId: string, fault: bool): (reply: Reply<UserDoc>)
    ensures fault ==> reply == Plain(500, "Internal Server Error")
    ensures !fault ==> (reply.Json? <==> userId in users)
    ensures reply.Json? ==> reply == Json(200, users[userId])
    ensures !fault && userId !in users ==> reply == Plain(404, "User not found")
  {
    if fault then Plain(500, "Internal Server Error")
    else if userId !in users then Plain(404, "User not found")
    else Json(200, users[userId])
  }

  /** The document after `update` with the truthy fields of `body`. */
  function ApplyUpdate(doc: UserDoc, body: UserFields): (d: UserDoc)
    ensures d.userName == if Truthy(body.userName) then body.userName else doc.userName
    ensures d.dateOfBirth == if Truthy(body.dateOfBirth) then body.dateOfBirth else doc.dateOfBirth
    ensures d.profilePictureUrl == if Truthy(body.profilePictureUrl) then body.profilePictureUrl else doc.profilePictureUrl
    ensures d.predictCollection == doc.predictCollection && d.quizzesTaken == doc.quizzesTaken
  {
    var d1 := if Truthy(body.userName) then doc.(userName := body.userName) else doc;
    var d2 := if Truthy(body.dateOfBirth) then d1.(dateOfBirth := body.dateOfBirth) else d1;
    if Truthy(body.profilePictureUrl) then d2.(profilePictureUrl := body.profilePictureUrl) else d2
  }

  /** The body names at least one field to update. */
  predicate HasUpdate(body: UserFields) {
    Truthy(body.userName) || Truthy(body.dateOfBirth) || Truthy(body.profilePictureUrl)
  }

  /** `updateUserById`. Firestore's `update` fails on a document that does
      not exist and on an empty set of fields, so an unknown id or a body
      with no truthy field answers 500 and writes nothing. */
  method UpdateUserById(b: Backend, userId: string, body: UserFields, fault: bool) returns (reply: Reply<()>)
    requires b.Valid()
    modifies b
    ensures b.Valid()
    ensures fault || userId !in old(b.users) || !HasUpdate(body) ==>
              reply == Plain(500, "Internal Server Error") && b.users == old(b.users)
    ensures !fault && userId in old(b.users) && HasUpdate(body) ==>
              && reply == Message(200, "User updated successfully")
              && b.users == old(b.users)[userId := ApplyUpdate(old(b.users)[userId], body)]
    ensures unchanged(b`predictHistory, b`quizzes, b`results, b`bucket, b`uploads)
  {
    if fault || userId !in b.users || !HasUpdate(body) {
      return Plain(500, "Internal Server Error");
    }
    var doc := b.users[userId];
    UpdateKeepsLinks(doc, body, b.predictHistory);
    b.users := b.users[userId := ApplyUpdate(doc, body)];
    reply := Message(200, "User updated successfully");
  }

  /** Applying the same update twice changes nothing the first did not. */
  lemma UpdateIdempotent(doc: UserDoc, body: UserFields)
    ensures ApplyUpdate(ApplyUpdate(doc, body), body) == ApplyUpdate(doc, body)
  {
  }

  /** A body with no truthy field leaves the document as it was. */
  lemma EmptyUpdateKeepsDoc(doc: UserDoc, body: UserFields)
    requires !HasUpdate(body)
    ensures ApplyUpdate(doc, body) == doc
  {
  }

  lemma UpdateKeepsLinks(doc: UserDoc, body: UserFields, history: map<string, PredictRecord>)
    requires LinksValid(doc, history)
    ensures LinksValid(ApplyUpdate(doc, body), history)
  {
    assert PredictIds(ApplyUpdate(doc, body)) == PredictIds(doc);
  }

  /** `deleteUserById`: deleting an absent document succeeds as well. */
  method DeleteUserById(b: Backend, userId: string, fault: bool) returns (reply: Reply<()>)
    requires b.Valid()
    modifies b
    ensures b.Valid()
    ensures fault ==> reply == Plain(500, "Internal Server Error") && b.users == old(b.users)
    ensures !fault ==> reply == Message(200, "User deleted successfully") && b.users == old(b.users) - {userId}
    ensures unchanged(b`predictHistory, b`quizzes, b`results, b`bucket, b`uploads)
  {
    if fault {
      return Plain(500, "Internal Server Error");
    }
    b.users := b.users - {userId};
    reply := Message(200, "User deleted successfully");
  }

  /** After a delete the id reads as not found and every other user reads as before. */
  lemma DeletedUserIsGone(users: map<string, UserDoc>, userId: string, other: string, fault: bool)
    ensures GetUserById(users - {userId}, userId, false) == Plain(404, "User not found")
    ensures other != userId ==> GetUserById(users - {userId}, other, fault) == GetUserById(users, other, fault)
  {
  }

  /** A freshly created profile reads back with its defaults. */
  lemma CreatedUserReadsBack(users: map<string, UserDoc>, history: map<string, PredictRecord>,
                              uid: string, body: UserFields)
    ensures var u := users[uid := NewUserDoc(body)];
            && GetUserById(u, uid, false) == Json(200, NewUserDoc(body))
            && GetUserPredictCollection(u, history, uid, false) == Json(200, PredictHistoryItems([]))
            && GetUserResults(u, uid, false) == Json(200, [])
  {
  }

  datatype UserEntry = UserEntry(id: string, doc: UserDoc)

  /** The profile as `getAllUsers` shows it: a falsy picture URL becomes null. */
  function Shown(doc: UserDoc): (d: UserDoc)
    ensures d.profilePictureUrl == (if Truthy(doc.profilePictureUrl) then doc.profilePictureUrl else None)
    ensures d.profilePictureUrl.Some? ==> Truthy(d.profilePictureUrl)
    ensures d.userName == doc.userName && d.dateOfBirth == doc.dateOfBirth
    ensures d.predictCollection == doc.predictCollection && d.quizzesTaken == doc.quizzesTaken
  {
    doc.(profilePictureUrl := OrNull(doc.profilePictureUrl))
  }

  function UserIds(list: seq<UserEntry>): (ids: seq<string>)
    ensures |ids| == |list| && forall i :: 0 <= i < |list| ==> ids[i] == list[i].id
  {
    seq(|list|, i requires 0 <= i < |list| => list[i].id)
  }

  /** `list` has one entry per user, carrying its id, in listing order. */
  ghost predicate ListsUsers(list: seq<UserEntry>, users: map<string, UserDoc>) {
    && |list| == |users|
    && (forall i :: 0 <= i < |list| ==> list[i].id in users && list[i].doc == Shown(users[list[i].id]))
    && (forall id :: id in users ==> id in UserIds(list))
    && Ascending(UserIds(list))
  }

  /** `getAllUsers`. */
  function GetAllUsers(users: map<string, UserDoc>, fault: bool): (reply: Reply<seq<UserEntry>>)
    ensures fault ==> reply == Plain(500, "Internal Server Error")
    ensures !fault && users == map[] ==> reply == Message(404, "No users found")
    ensures !fault && users != map[] ==> reply.Json? && reply.status == 200 && ListsUsers(reply.value, users)
  {
    if fault then Plain(500, "Internal Server Error")
    else if users == map[] then Message(404, "No users found")
    else
      var ids := SortedIds(users.Keys);
      var list := seq(|ids|, i requires 0 <= i < |ids| => UserEntry(ids[i], Shown(users[ids[i]])));
      assert UserIds(list) == ids;
      Json(200, list)
  }

  /** One element of the join: the id, and the record's fields when a
      record with that id exists (`{ id, ...doc.data() }`). */
  datatype CollectionItem = CollectionItem(id: string, record: Option<PredictRecord>)

  datatype PredictHistoryItems = PredictHistoryItems(predictHistoryItems: seq<CollectionItem>)

  /** The record `doc(id).get()` finds, if there is one. */
  function Lookup(history: map<string, PredictRecord>, id: string): (r: Option<PredictRecord>)
    ensures r.Some? <==> id in history
    ensures r.Some? ==> r.value == history[id]
  {
    if id in history then Some(history[id]) else None
  }

  /** `getUserPredictCollection`. */
  function GetUserPredictCollection(users: map<string, UserDoc>, history: map<string, PredictRecord>,
                                    userId: string, fault: bool): (reply: Reply<PredictHistoryItems>)
    ensures fault ==> reply == Message(500, "Internal Server Error")
    ensures !fault ==> (reply.Json? <==> userId in users)
    ensures !fault && userId !in users ==> reply == Message(404, "User not found")
    ensures reply.Json? ==>
              var ids := PredictIds(users[userId]);
              var items := reply.value.predictHistoryItems;
              && reply.status == 200
              && |items| == |ids|
              && forall i :: 0 <= i < |items| ==>
                   items[i].id == ids[i] && (items[i].record.Some? <==> ids[i] in history) &&
                   (items[i].record.Some? ==> items[i].record.value == history[ids[i]])
  {
    if fault then Message(500, "Internal Server Error")
    else if userId !in users then Message(404, "User not found")
    else
      var ids := PredictIds(users[userId]);
      Json(200, PredictHistoryItems(seq(|ids|, i requires 0 <= i < |ids| => CollectionItem(ids[i], Lookup(history, ids[i])))))
  }

  /** In a consistent store every linked prediction resolves to its record. */
  lemma LinkedPredictionsResolve(users: map<string, UserDoc>, history: map<string, PredictRecord>, userId: string)
    requires userId in users && LinksValid(users[userId], history)
    ensures var reply := GetUserPredictCollection(users, history, userId, false);
            reply.Json? && forall i :: 0 <= i < |reply.value.predictHistoryItems| ==>
              reply.value.predictHistoryItems[i].record.Some?
  {
  }

  /** `getUserResults`. */
  function GetUserResults(users: map<string, UserDoc>, userId: string, fault: bool): (reply: Reply<seq<TakenQuiz>>)
    ensures fault ==> reply == Plain(500, "Internal Server Error")
    ensures !fault ==> (reply.Json? <==> userId in users)
    ensures !fault && userId !in users ==> reply == Message(404, "User not found")
    ensures reply.Json? ==>
              && reply.status == 200
              && reply.value == (if users[userId].quizzesTaken.Some? then users[userId].quizzesTaken.value else [])
  {
    if fault then Plain(500, "Internal Server Error")
    else if userId !in users then Message(404, "User not found")
    else
      match users[userId].quizzesTaken
      case None => Json(200, [])
      case Some(taken) => Json(200, taken)
  }
}
