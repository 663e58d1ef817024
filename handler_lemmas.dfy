/** Properties of the quiz handlers: each one keeps the store invariant, changes
    only what it targets, and the handlers agree with one another across calls. */
module HandlerLemmas {
  import opened Js
  import opened QuizModel
  import opened Handlers

  // ---------------------------------------------------------------------------
  // Lookups under the invariant

  /** With distinct quiz ids, findById finds exactly the quiz at its own position. */
  lemma QuizIndexOfUnique(quizzes: seq<Quiz>, i: nat)
    requires UniqueQuizIds(quizzes) && i < |quizzes|
    ensures QuizIndex(quizzes, quizzes[i].id) == Some(i)
  {
  }

  /** With distinct question ids, `questions.id(...)` finds exactly the question at its position. */
  lemma QuestionIndexOfUnique(questions: seq<Question>, j: nat)
    requires UniqueQuestionIds(questions) && j < |questions|
    ensures QuestionIndex(questions, questions[j].id) == Some(j)
  {
  }

  // ---------------------------------------------------------------------------
  // createQuiz

  /** createQuiz keeps the invariant; in particular it never stores a second quiz of the same name. */
  lemma CreatePreservesValid(db: Db, body: QuizBody)
    requires Valid(db)
    ensures Valid(CreateQuiz(db, body).db)
  {
  }

  /** A successful createQuiz appends exactly one quiz, with a fresh id, the given name and the
      given questions in order (each with a fresh id), and leaves every stored quiz as it was. */
  lemma CreateQuizAppends(db: Db, body: QuizBody)
    requires Valid(db)
    requires CreateQuiz(db, body).response.status == CREATED
    ensures var s := CreateQuiz(db, body);
      |s.db.quizzes| == |db.quizzes| + 1 && s.db.quizzes[..|db.quizzes|] == db.quizzes &&
      var quiz := s.db.quizzes[|db.quizzes|];
      s.response == Response(CREATED, QuizDoc(quiz)) &&
      !HasQuiz(db.quizzes, quiz.id) &&
      quiz.quizName == body.quizName.value &&
      |quiz.questions| == |body.questions.value| &&
      (forall k | 0 <= k < |quiz.questions| ::
        quiz.questions[k].fields == body.questions.value[k] && quiz.questions[k].id >= db.nextId) &&
      UniqueQuestionIds(quiz.questions)
  {
  }

  /** createQuiz answers 409 and stores nothing whenever the name is already taken,
      whatever the questions are. */
  lemma DuplicateNameConflicts(db: Db, k: nat, questions: seq<QuestionFields>)
    requires k < |db.quizzes| && db.quizzes[k].quizName != "" && |questions| != 0
    ensures var s := CreateQuiz(db, QuizBody(Some(db.quizzes[k].quizName), Some(questions)));
      s.db == db && s.response == Response(CONFLICT, Message(DUPLICATE_NAME))
  {
  }

  // ---------------------------------------------------------------------------
  // addQuestionByQuizId

  lemma AddPreservesValid(db: Db, quizId: nat, body: QuestionBody)
    requires Valid(db)
    ensures Valid(AddQuestion(db, quizId, body).db)
  {
  }

  /** A valid add-question request on a stored quiz appends one question, with a fresh id and
      the request's fields, at the end of that quiz's list, and echoes the fields back. The
      correct choice is stored as given, whether or not it indexes one of the choices. */
  lemma AddQuestionAppends(db: Db, i: nat, body: QuestionBody)
    requires Valid(db) && i < |db.quizzes| && QuestionBodyOk(body)
    ensures var s := AddQuestion(db, db.quizzes[i].id, body);
      var fields := QuestionFields(body.questionText.value, body.choices.value, body.correctChoice.value);
      s.response == Response(CREATED, QuestionAdded(QUESTION_ADDED, fields)) &&
      |s.db.quizzes| == |db.quizzes| &&
      (forall k | 0 <= k < |db.quizzes| && k != i :: s.db.quizzes[k] == db.quizzes[k]) &&
      s.db.quizzes[i].id == db.quizzes[i].id && s.db.quizzes[i].quizName == db.quizzes[i].quizName &&
      s.db.quizzes[i].questions == db.quizzes[i].questions + [Question(db.nextId, fields)] &&
      !HasQuestion(db.quizzes[i].questions, db.nextId)
  {
  }

  // ---------------------------------------------------------------------------
  // updateQuestionInQuiz

  lemma UpdatePreservesValid(db: Db, quizId: nat, questionId: nat, body: QuestionBody)
    requires Valid(db)
    ensures Valid(UpdateQuestion(db, quizId, questionId, body).db)
  {
  }

  /** A successful update rewrites only the targeted question: it keeps its id and position,
      each of its fields takes the given value when that value is truthy and keeps the old one
      otherwise, the other questions and the other quizzes are untouched, and the response is
      the updated question. */
  lemma UpdateChangesOnlyTarget(db: Db, i: nat, j: nat, body: QuestionBody)
    requires Valid(db) && i < |db.quizzes| && j < |db.quizzes[i].questions|
    ensures var quiz, old_q := db.quizzes[i], db.quizzes[i].questions[j];
      var s := UpdateQuestion(db, quiz.id, old_q.id, body);
      var new_q := s.db.quizzes[i].questions[j];
      s.response == Response(OK, QuestionDoc(new_q)) &&
      s.db.nextId == db.nextId && |s.db.quizzes| == |db.quizzes| &&
      (forall k | 0 <= k < |db.quizzes| && k != i :: s.db.quizzes[k] == db.quizzes[k]) &&
      s.db.quizzes[i].id == quiz.id && s.db.quizzes[i].quizName == quiz.quizName &&
      |s.db.quizzes[i].questions| == |quiz.questions| &&
      (forall k | 0 <= k < |quiz.questions| && k != j :: s.db.quizzes[i].questions[k] == quiz.questions[k]) &&
      new_q.id == old_q.id &&
      new_q.fields.questionText == (if TruthyString(body.questionText) then body.questionText.value else old_q.fields.questionText) &&
      new_q.fields.choices == (if TruthyArray(body.choices) then body.choices.value else old_q.fields.choices) &&
      new_q.fields.correctChoice == (if TruthyNumber(body.correctChoice) then body.correctChoice.value else old_q.fields.correctChoice)
  {
  }

  /** Sending only `choices` replaces the choices, even with an empty array, and keeps the
      text and the correct choice. */
  lemma ChoicesOnlyUpdate(f: QuestionFields, choices: seq<string>)
    ensures MergeFields(f, QuestionBody(None, Some(choices), None)) == f.(choices := choices)
  {
  }

  /** A worked example of the `||` merge treating the falsy values `""` and `0` as absent:
      a request that sets the correct choice to the first choice (index 0) is answered 200
      and changes nothing. `FalsyUpdateChangesNothing` states this for every stored question. */
  lemma ZeroCorrectChoiceIgnored()
    ensures var question := Question(1, QuestionFields("2+2?", ["3", "4", "5", "6"], 1));
      var db := Db([Quiz(0, "Math", [question])], 2);
      var s := UpdateQuestion(db, 0, 1, QuestionBody(Some(""), None, Some(0)));
      s.response == Response(OK, QuestionDoc(question)) && s.db == db
  {
    var question := Question(1, QuestionFields("2+2?", ["3", "4", "5", "6"], 1));
    // the merged question equals the old one, so writing it back leaves the list as it was
    assert [question][0 := question] == [question];
  }

  /** The same quirk for every stored question: an update whose text is `""` and whose
      correct choice is `0` answers 200 with the question as it was and changes nothing. */
  lemma FalsyUpdateChangesNothing(db: Db, i: nat, j: nat)
    requires Valid(db) && i < |db.quizzes| && j < |db.quizzes[i].questions|
    ensures var quiz, q := db.quizzes[i], db.quizzes[i].questions[j];
      UpdateQuestion(db, quiz.id, q.id, QuestionBody(Some(""), None, Some(0))) == Step(db, Response(OK, QuestionDoc(q)))
  {
    var quiz, q := db.quizzes[i], db.quizzes[i].questions[j];
    var s := UpdateQuestion(db, quiz.id, q.id, QuestionBody(Some(""), None, Some(0)));
    UpdateChangesOnlyTarget(db, i, j, QuestionBody(Some(""), None, Some(0)));
    assert s.db.quizzes[i].questions == quiz.questions;
  }

  // ---------------------------------------------------------------------------
  // deleteQuestionFromQuiz

  lemma DeleteQuestionPreservesValid(db: Db, quizId: nat, questionId: nat)
    requires Valid(db)
    ensures Valid(DeleteQuestion(db, quizId, questionId).db)
  {
  }

  /** Deleting a stored question removes exactly that question: the others stay in order, no
      question with that id is left, and nothing else in the store changes. */
  lemma DeleteQuestionRemovesTarget(db: Db, i: nat, j: nat)
    requires Valid(db) && i < |db.quizzes| && j < |db.quizzes[i].questions|
    ensures var quiz, questionId := db.quizzes[i], db.quizzes[i].questions[j].id;
      var s := DeleteQuestion(db, quiz.id, questionId);
      s.response == Response(OK, Message(QUESTION_DELETED)) &&
      s.db.nextId == db.nextId && |s.db.quizzes| == |db.quizzes| &&
      (forall k | 0 <= k < |db.quizzes| && k != i :: s.db.quizzes[k] == db.quizzes[k]) &&
      s.db.quizzes[i] == quiz.(questions := quiz.questions[..j] + quiz.questions[j + 1..]) &&
      !HasQuestion(s.db.quizzes[i].questions, questionId)
  {
  }

  /** Deleting the same question a second time is answered 404 "Question not found."
      and changes nothing. */
  lemma DeleteQuestionTwice(db: Db, quizId: nat, questionId: nat)
    requires Valid(db)
    requires DeleteQuestion(db, quizId, questionId).response.status == OK
    ensures var db' := DeleteQuestion(db, quizId, questionId).db;
      DeleteQuestion(db', quizId, questionId) == Step(db', Response(NOT_FOUND, Message(QUESTION_NOT_FOUND)))
  {
    var i := QuizIndex(db.quizzes, quizId).value;
    var j := QuestionIndex(db.quizzes[i].questions, questionId).value;
    DeleteQuestionRemovesTarget(db, i, j);
  }

  // ---------------------------------------------------------------------------
  // deleteQuizById, getQuizById, getQuizzes

  lemma DeleteQuizPreservesValid(db: Db, quizId: nat)
    requires Valid(db)
    ensures Valid(DeleteQuiz(db, quizId).db)
  {
  }

  /** Deleting a stored quiz removes it and keeps the others in order; afterwards getQuizById
      answers 404 for its id and getQuizzes no longer lists it. */
  lemma DeleteQuizRemoves(db: Db, i: nat)
    requires Valid(db) && i < |db.quizzes|
    ensures var quizId := db.quizzes[i].id;
      var s := DeleteQuiz(db, quizId);
      s.response == Response(OK, Message(QUIZ_DELETED)) &&
      s.db == Db(db.quizzes[..i] + db.quizzes[i + 1..], db.nextId) &&
      GetQuizById(s.db, quizId) == Response(NOT_FOUND, Message(QUIZ_NOT_FOUND)) &&
      GetQuizzes(s.db).status == OK &&
      forall q | q in GetQuizzes(s.db).payload.quizzes :: q.id != quizId
  {
  }

  /** getQuizzes answers 200 with every stored quiz, in insertion order. */
  lemma GetQuizzesListsAll(db: Db)
    ensures GetQuizzes(db).status == OK && GetQuizzes(db).payload == QuizList(db.quizzes)
  {
  }

  /** Listing agrees with lookup: a quiz is listed by getQuizzes exactly when getQuizById
      on its id answers 200 with that quiz. */
  lemma ListingAgreesWithLookup(db: Db, q: Quiz)
    requires Valid(db)
    ensures q in GetQuizzes(db).payload.quizzes <==> GetQuizById(db, q.id) == Response(OK, QuizDoc(q))
  {
  }

  // ---------------------------------------------------------------------------
  // A worked session

  /** Creating "Math" with one question in an empty store answers 201 with a quiz whose one
      question has a generated id and correct choice 1; creating "Math" again answers 409. */
  lemma MathScenario()
    ensures var body := QuizBody(Some("Math"), Some([QuestionFields("2+2?", ["3", "4", "5", "6"], 1)]));
      var s1 := CreateQuiz(Db([], 0), body);
      var s2 := CreateQuiz(s1.db, body);
      s1.response.status == CREATED && s1.response.payload.QuizDoc? &&
      |s1.response.payload.quiz.questions| == 1 &&
      s1.response.payload.quiz.questions[0].fields.correctChoice == 1 &&
      s1.response.payload.quiz.questions[0].id != s1.response.payload.quiz.id &&
      s2 == Step(s1.db, Response(CONFLICT, Message(DUPLICATE_NAME)))
  {
  }
}
