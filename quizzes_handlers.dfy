/** The quiz handlers: authoring, listing, scoring a submission and the
    per-quiz leaderboard. */
module QuizzesHandlers {
  import opened Store
  import opened DocumentOrder

  // ---------------------------------------------------------------------
  // Scoring

  /** Where `questions.find(q => q.questionId === id)` stops, searching from
      position `from`: the first question with that id, if any. */
  function FindQuestion(questions: seq<Question>, id: string, from: nat): (r: Option<nat>)
    requires from <= |questions|
    ensures r.Some? ==> from <= r.value < |questions| && questions[r.value].questionId == id
    ensures forall j :: from <= j < (if r.Some? then r.value else |questions|) ==> questions[j].questionId != id
    decreases |questions| - from
  {
    if from == |questions| then None
    else if questions[from].questionId == id then Some(from)
    else FindQuestion(questions, id, from + 1)
  }

  /** Where `options.find(option => option.isCorrect)` stops, searching from
      position `from`: the first option marked correct, if any. */
  function FindCorrect(options: seq<QuizOption>, from: nat): (r: Option<nat>)
    requires from <= |options|
    ensures r.Some? ==> from <= r.value < |options| && options[r.value].isCorrect
    ensures forall m :: from <= m < (if r.Some? then r.value else |options|) ==> !options[m].isCorrect
    decreases |options| - from
  {
    if from == |options| then None
    else if options[from].isCorrect then Some(from)
    else FindCorrect(options, from + 1)
  }

  /** The answer earns its point: the first question with the answer's id
      exists, it has an option marked correct, and the first such option is
      the one selected. */
  ghost predicate Credited(a: Answer, questions: seq<Question>) {
    exists i, k ::
      && 0 <= i < |questions| && questions[i].questionId == a.questionId
      && (forall j :: 0 <= j < i ==> questions[j].questionId != a.questionId)
      && 0 <= k < |questions[i].options| && questions[i].options[k].isCorrect
      && (forall m :: 0 <= m < k ==> !questions[i].options[m].isCorrect)
      && questions[i].options[k].id == a.selectedOptionId
  }

  /** What one answer adds to the score. */
  function Points(a: Answer, questions: seq<Question>): (p: nat)
    ensures p <= 1
    ensures p == 1 <==> Credited(a, questions)
  {
    match FindQuestion(questions, a.questionId, 0)
    case None => 0
    case Some(i) =>
      match FindCorrect(questions[i].options, 0)
      case None => 0
      case Some(k) => if questions[i].options[k].id == a.selectedOptionId then 1 else 0
  }

  /** The score of a list of answers: one point per credited answer. */
  function Score(answers: seq<Answer>, questions: seq<Question>): (s: nat)
    ensures s <= |answers|
  {
    if |answers| == 0 then 0
    else Score(answers[..|answers| - 1], questions) + Points(answers[|answers| - 1], questions)
  }

  /** `calculateScore(answers, quizId)`: reads the quiz and counts the
      credited answers. Reading the `questions` of a quiz that does not
      exist throws, which is `None` here. */
  method CalculateScore(answers: seq<Answer>, quizzes: map<string, Quiz>, quizId: string)
    returns (score: Option<nat>)
    ensures score.None? <==> quizId !in quizzes
    ensures score.Some? ==> score.value == Score(answers, quizzes[quizId].questions)
  {
    if quizId !in quizzes {
      return None;
    }
    var questions := quizzes[quizId].questions;
    var total := 0;
    for i := 0 to |answers|
      invariant total == Score(answers[..i], questions)
    {
      var answer := answers[i];
      var q := FindQuestion(questions, answer.questionId, 0);
      if q.Some? {
        var c := FindCorrect(questions[q.value].options, 0);
        if c.Some? && questions[q.value].options[c.value].id == answer.selectedOptionId {
          total := total + 1;
        }
      }
      assert answers[..i + 1][..i] == answers[..i];
    }
    assert answers[..|answers|] == answers;
    score := Some(total);
  }

  /** Scores add up over concatenated answer lists. */
  lemma {:induction false} ScoreAppend(a: seq<Answer>, b: seq<Answer>, questions: seq<Question>)
    ensures Score(a + b, questions) == Score(a, questions) + Score(b, questions)
    decreases |b|
  {
    if |b| == 0 {
      assert a + b == a;
    } else {
      var b' := b[..|b| - 1];
      assert (a + b)[..|a + b| - 1] == a + b';
      assert (a + b)[|a + b| - 1] == b[|b| - 1];
      ScoreAppend(a, b', questions);
    }
  }

  /** Taking one answer out of a list takes its points out of the score. */
  lemma ScoreRemoveAt(b: seq<Answer>, j: nat, questions: seq<Question>)
    requires j < |b|
    ensures Score(b, questions) == Score(b[..j] + b[j + 1..], questions) + Points(b[j], questions)
  {
    assert b == b[..j] + ([b[j]] + b[j + 1..]);
    ScoreAppend(b[..j], [b[j]] + b[j + 1..], questions);
    ScoreAppend([b[j]], b[j + 1..], questions);
    ScoreAppend(b[..j], b[j + 1..], questions);
    assert [b[j]][..0] == [];
  }

  /** Taking out one element takes it out of the multiset. */
  lemma MultisetRemoveAt(s: seq<Answer>, j: nat)
    requires j < |s|
    ensures multiset(s[..j] + s[j + 1..]) == multiset(s) - multiset{s[j]}
  {
    assert s == s[..j] + [s[j]] + s[j + 1..];
  }

  /** Each answer counts on its own, so the order of the answers does not matter. */
  lemma {:induction false} ScorePermutation(a: seq<Answer>, b: seq<Answer>, questions: seq<Question>)
    requires multiset(a) == multiset(b)
    ensures Score(a, questions) == Score(b, questions)
    decreases |a|
  {
    if |a| == 0 {
      assert b == [];
    } else {
      var x := a[|a| - 1];
      var a' := a[..|a| - 1];
      assert a == a' + [x];
      assert x in multiset(b);
      var j :| 0 <= j < |b| && b[j] == x;
      var b' := b[..j] + b[j + 1..];
      MultisetRemoveAt(a, |a| - 1);
      MultisetRemoveAt(b, j);
      assert a[..|a| - 1] + a[|a|..] == a';
      ScorePermutation(a', b', questions);
      ScoreRemoveAt(b, j, questions);
    }
  }

  /** The score is the number of answers exactly when every answer is credited. */
  lemma {:induction false} FullScore(answers: seq<Answer>, questions: seq<Question>)
    ensures Score(answers, questions) == |answers| <==>
            forall i :: 0 <= i < |answers| ==> Credited(answers[i], questions)
  {
    if |answers| > 0 {
      var a' := answers[..|answers| - 1];
      FullScore(a', questions);
      assert forall i :: 0 <= i < |a'| ==> a'[i] == answers[i];
    }
  }

  /** No answer earns anything when no question carries its id. */
  lemma {:induction false} UnknownQuestionsScoreZero(answers: seq<Answer>, questions: seq<Question>)
    requires forall i, j :: 0 <= i < |answers| && 0 <= j < |questions| ==> questions[j].questionId != answers[i].questionId
    ensures Score(answers, questions) == 0
  {
    if |answers| > 0 {
      var a' := answers[..|answers| - 1];
      assert forall i :: 0 <= i < |a'| ==> a'[i] == answers[i];
      UnknownQuestionsScoreZero(a', questions);
      assert FindQuestion(questions, answers[|answers| - 1].questionId, 0) == None;
    }
  }

  // ---------------------------------------------------------------------
  // Authoring and reading quizzes

  datatype QuizCreated = QuizCreated(message: string, quizId: string)

  /** `createQuiz`: stores the quiz under the generated id `quizId`
      (replacing a document already there) and replies 201 with the id. */
  method CreateQuiz(b: Backend, title: string, description: string, questions: seq<Question>,
                    quizId: string, createdAt: Timestamp, fault: bool)
    returns (reply: Reply<QuizCreated>)
    modifies b
    ensures fault ==> reply == Plain(500, "Internal Server Error") && b.quizzes == old(b.quizzes)
    ensures !fault ==> reply == Json(201, QuizCreated("Quiz created successfully", quizId))
    ensures !fault ==> b.quizzes == old(b.quizzes)[quizId := Quiz(title, description, questions, createdAt)]
    ensures unchanged(b`users, b`predictHistory, b`results, b`bucket, b`uploads)
  {
    if fault {
      return Plain(500, "Internal Server Error");
    }
    b.quizzes := b.quizzes[quizId := Quiz(title, description, questions, createdAt)];
    reply := Json(201, QuizCreated("Quiz created successfully", quizId));
  }

  datatype QuizSummary = QuizSummary(quizId: string, title: string, description: string)

  function SummaryIds(list: seq<QuizSummary>): (ids: seq<string>)
    ensures |ids| == |list| && forall i :: 0 <= i < |list| ==> ids[i] == list[i].quizId
  {
    seq(|list|, i requires 0 <= i < |list| => list[i].quizId)
  }

  /** `list` has one summary per quiz, in listing order, without the questions. */
  ghost predicate SummarizesQuizzes(list: seq<QuizSummary>, quizzes: map<string, Quiz>) {
    && |list| == |quizzes|
    && (forall i :: 0 <= i < |list| ==>
          list[i].quizId in quizzes &&
          list[i].title == quizzes[list[i].quizId].title &&
          list[i].description == quizzes[list[i].quizId].description)
    && (forall id :: id in quizzes ==> id in SummaryIds(list))
    && Ascending(SummaryIds(list))
  }

  /** `getAllQuizzes`. */
  function GetAllQuizzes(quizzes: map<string, Quiz>, fault: bool): (reply: Reply<seq<QuizSummary>>)
    ensures fault ==> reply == Plain(500, "Internal Server Error")
    ensures !fault && quizzes == map[] ==> reply == Message(404, "No quizzes found")
    ensures !fault && quizzes != map[] ==> reply.Json? && reply.status == 200 && SummarizesQuizzes(reply.value, quizzes)
  {
    if fault then Plain(500, "Internal Server Error")
    else if quizzes == map[] then Message(404, "No quizzes found")
    else
      var ids := SortedIds(quizzes.Keys);
      var list := seq(|ids|, i requires 0 <= i < |ids| =>
                    QuizSummary(ids[i], quizzes[ids[i]].title, quizzes[ids[i]].description));
      assert SummaryIds(list) == ids;
      Json(200, list)
  }

  /** `getQuizById`. */
  function GetQuizById(quizzes: map<string, Quiz>, quizId: string, fault: bool): (reply: Reply<Quiz>)
    ensures fault ==> reply == Plain(500, "Internal Server Error")
    ensures !fault ==> (reply.Json? <==> quizId in quizzes)
    ensures reply.Json? ==> reply == Json(200, quizzes[quizId])
    ensures !fault && quizId !in quizzes ==> reply == Message(404, "Quiz not found")
  {
    if fault then Plain(500, "Internal Server Error")
    else if quizId !in quizzes then Message(404, "Quiz not found")
    else Json(200, quizzes[quizId])
  }

  /** A quiz just created under a fresh id reads back as stored and is listed. */
  lemma CreatedQuizReadsBack(quizzes: map<string, Quiz>, quizId: string, q: Quiz)
    requires quizId !in quizzes
    ensures GetQuizById(quizzes[quizId := q], quizId, false) == Json(200, q)
    ensures |quizzes[quizId := q]| == |quizzes| + 1
    ensures var r := GetAllQuizzes(quizzes[quizId := q], false);
            r.Json? && QuizSummary(quizId, q.title, q.description) in r.value
  {
    var r := GetAllQuizzes(quizzes[quizId := q], false);
    assert SummarizesQuizzes(r.value, quizzes[quizId := q]);
    assert quizId in quizzes[quizId := q];
    assert quizId in SummaryIds(r.value);
    var i :| 0 <= i < |r.value| && SummaryIds(r.value)[i] == quizId;
    assert r.value[i] == QuizSummary(quizId, q.title, q.description);
  }

  // ---------------------------------------------------------------------
  // Submissions and the leaderboard

  datatype AnswersSubmitted = AnswersSubmitted(message: string, score: nat)

  /** `submitQuizAnswers`: scores the answers against the stored quiz and
      adds one result document carrying that same score. */
  method SubmitQuizAnswers(b: Backend, quizId: string, userId: string, answers: seq<Answer>,
                           submittedAt: Timestamp, readFault: bool, writeFault: bool)
    returns (reply: Reply<AnswersSubmitted>)
    modifies b
    ensures readFault || quizId !in old(b.quizzes) || writeFault ==>
              reply == Plain(500, "Internal Server Error") && b.results == old(b.results)
    ensures !readFault && quizId in old(b.quizzes) && !writeFault ==>
              var score := Score(answers, old(b.quizzes)[quizId].questions);
              && reply == Json(200, AnswersSubmitted("Quiz answers submitted successfully", score))
              && b.results == old(b.results) + [QuizResult(quizId, userId, answers, score, submittedAt)]
    ensures unchanged(b`quizzes, b`users, b`predictHistory, b`bucket, b`uploads)
  {
    if readFault {
      return Plain(500, "Internal Server Error");
    }
    var score := CalculateScore(answers, b.quizzes, quizId);
    if score.None? || writeFault {
      return Plain(500, "Internal Server Error");
    }
    b.results := b.results + [QuizResult(quizId, userId, answers, score.value, submittedAt)];
    reply := Json(200, AnswersSubmitted("Quiz answers submitted successfully", score.value));
  }

  datatype LeaderEntry = LeaderEntry(userId: string, score: int, completedAt: Timestamp)

  /** The leaderboard's view of a result: who, what score, and when. */
  function EntryOf(r: QuizResult): (e: LeaderEntry)
    ensures e.userId == r.userId && e.score == r.score && e.completedAt == r.submittedAt
  {
    LeaderEntry(r.userId, r.score, r.submittedAt)
  }

  /** The results of one quiz as leaderboard entries, in stored order
      (`where("quizId", "==", quizId)` followed by the mapping). */
  function Entries(results: seq<QuizResult>, quizId: string): (r: seq<LeaderEntry>)
    ensures |r| <= |results|
    ensures forall e :: e in r ==> exists j :: 0 <= j < |results| && results[j].quizId == quizId && e == EntryOf(results[j])
    ensures forall j :: 0 <= j < |results| && results[j].quizId == quizId ==> EntryOf(results[j]) in r
  {
    if |results| == 0 then []
    else
      var last := results[|results| - 1];
      var init := Entries(results[..|results| - 1], quizId);
      if last.quizId == quizId then init + [EntryOf(last)] else init
  }

  /** The positions of `results` holding a result of `quizId` shown as `e`. */
  ghost function Positions(results: seq<QuizResult>, quizId: string, e: LeaderEntry): set<int> {
    set j | 0 <= j < |results| && results[j].quizId == quizId && EntryOf(results[j]) == e
  }

  /** One more result adds its own position, when it matches, and no other. */
  lemma PositionsSnoc(results: seq<QuizResult>, quizId: string, e: LeaderEntry)
    requires |results| > 0
    ensures var n := |results| - 1;
            var before := Positions(results[..n], quizId, e);
            n !in before &&
            Positions(results, quizId, e) ==
              if results[n].quizId == quizId && EntryOf(results[n]) == e then before + {n} else before
  {
    var n := |results| - 1;
    forall j | 0 <= j < n ensures results[..n][j] == results[j] {
    }
  }

  /** Each entry appears as often as there are matching results it projects. */
  lemma {:induction false} EntriesCount(results: seq<QuizResult>, quizId: string, e: LeaderEntry)
    ensures multiset(Entries(results, quizId))[e] == |Positions(results, quizId, e)|
  {
    if |results| == 0 {
      assert Positions(results, quizId, e) == {};
    } else {
      var n := |results| - 1;
      EntriesCount(results[..n], quizId, e);
      PositionsSnoc(results, quizId, e);
    }
  }

  predicate SortedByScore(s: seq<LeaderEntry>) {
    forall i, j :: 0 <= i < j < |s| ==> s[i].score >= s[j].score
  }

  /** An entry scoring at least the head of an ordered list may go in front of it. */
  lemma SortedCons(x: LeaderEntry, s: seq<LeaderEntry>)
    requires SortedByScore(s) && (s == [] || s[0].score <= x.score)
    ensures SortedByScore([x] + s)
  {
    var r := [x] + s;
    forall i, j | 0 <= i < j < |r| ensures r[i].score >= r[j].score {
      if i == 0 && j > 1 {
        assert r[j] == s[j - 1];
        assert s[0].score >= s[j - 1].score;
      }
    }
  }

  function InsertByScore(e: LeaderEntry, s: seq<LeaderEntry>): (r: seq<LeaderEntry>)
    requires SortedByScore(s)
    ensures SortedByScore(r)
    ensures multiset(r) == multiset(s) + multiset{e}
    ensures |r| == |s| + 1 && forall i :: 0 <= i < |r| ==> r[i] == e || r[i] in s
  {
    if s == [] || e.score >= s[0].score then
      SortedCons(e, s);
      [e] + s
    else
      var tail := InsertByScore(e, s[1..]);
      assert s == [s[0]] + s[1..];
      assert tail[0].score <= s[0].score by {
        if tail[0] != e {
          var k :| 0 <= k < |s[1..]| && s[1..][k] == tail[0];
          assert s[k + 1] == tail[0];
        }
      }
      SortedCons(s[0], tail);
      [s[0]] + tail
  }

  /** `orderBy("score", "desc")`; the order among equal scores is not promised. */
  function OrderByScore(s: seq<LeaderEntry>): (r: seq<LeaderEntry>)
    ensures SortedByScore(r)
    ensures multiset(r) == multiset(s)
  {
    if s == [] then []
    else
      assert s == [s[0]] + s[1..];
      InsertByScore(s[0], OrderByScore(s[1..]))
  }

  /** `getQuizLeaderboard`. */
  function GetQuizLeaderboard(results: seq<QuizResult>, quizId: string, fault: bool): (reply: Reply<seq<LeaderEntry>>)
    ensures fault ==> reply == Plain(500, "Internal Server Error")
    ensures !fault ==> (reply.Message? <==> forall j :: 0 <= j < |results| ==> results[j].quizId != quizId)
    ensures reply.Message? ==> reply == Message(404, "No results found for this quiz")
    ensures reply.Json? ==> reply.status == 200 && SortedByScore(reply.value)
    ensures reply.Json? ==> multiset(reply.value) == multiset(Entries(results, quizId))
  {
    if fault then Plain(500, "Internal Server Error")
    else
      var entries := Entries(results, quizId);
      var board := OrderByScore(entries);
      assert |board| == |entries| by {
        assert |multiset(board)| == |multiset(entries)|;
      }
      if board == [] then
        Message(404, "No results found for this quiz")
      else
        assert entries[0] in entries;
        Json(200, board)
  }

  /** Adding a result extends that quiz's entries by its entry and leaves
      every other quiz's entries as they were. */
  lemma EntriesAfterSubmit(results: seq<QuizResult>, r: QuizResult, quizId: string)
    ensures Entries(results + [r], quizId) ==
            if r.quizId == quizId then Entries(results, quizId) + [EntryOf(r)] else Entries(results, quizId)
  {
    assert (results + [r])[..|results + [r]| - 1] == results;
  }

  /** A submitted result appears on its quiz's leaderboard. */
  lemma SubmittedResultIsRanked(results: seq<QuizResult>, r: QuizResult)
    ensures var reply := GetQuizLeaderboard(results + [r], r.quizId, false);
            reply.Json? && EntryOf(r) in reply.value
  {
    EntriesAfterSubmit(results, r, r.quizId);
    var reply := GetQuizLeaderboard(results + [r], r.quizId, false);
    assert (results + [r])[|results|] == r;
    assert EntryOf(r) in multiset(reply.value);
  }
}
