/** The quiz controller over a store it updates in place: the stored quiz
    collection and the id counter are fields, and each handler is a method that
    changes them and answers with a status and a payload. Each method is proved
    to do exactly what the corresponding function of `Handlers` describes, and
    to keep the store invariant. */
module Store {
  import opened Js
  import opened QuizModel
  import opened Handlers
  import HandlerLemmas

  class QuizStore {
    var quizzes: seq<Quiz>
    var nextId: nat

    /** The stored collection as a value. */
    function State(): (d: Db)
      reads this
    {
      Db(quizzes, nextId)
    }

    predicate Valid()
      reads this
    {
      Handlers.Valid(State())
    }

    /** An empty collection. */
    constructor ()
      ensures Valid() && quizzes == []
    {
      quizzes := [];
      nextId := 0;
    }

    /** createQuiz */
    method CreateQuiz(body: QuizBody) returns (res: Response)
      requires Valid()
      modifies this
      ensures Valid()
      ensures Step(State(), res) == Handlers.CreateQuiz(old(State()), body)
    {
      HandlerLemmas.CreatePreservesValid(State(), body);
      if !QuizBodyOk(body) {
        return Response(BAD_REQUEST, Message(INVALID_BODY));
      }
      var name, fields := body.quizName.value, body.questions.value;
      if NameTaken(quizzes, name) {
        return Response(CONFLICT, Message(DUPLICATE_NAME));
      }
      var quiz := Quiz(nextId, name, AssignIds(fields, nextId + 1));
      if !QuizValid(quiz) {
        // save() rejects the document
        return Response(SERVER_ERROR, Message(SERVER_FAILURE));
      }
      quizzes := quizzes + [quiz];
      nextId := nextId + 1 + |fields|;
      res := Response(CREATED, QuizDoc(quiz));
    }

    /** addQuestionByQuizId */
    method AddQuestion(quizId: nat, body: QuestionBody) returns (res: Response)
      requires Valid()
      modifies this
      ensures Valid()
      ensures Step(State(), res) == Handlers.AddQuestion(old(State()), quizId, body)
    {
      HandlerLemmas.AddPreservesValid(State(), quizId, body);
      if !QuestionBodyOk(body) {
        return Response(BAD_REQUEST, Message(INVALID_BODY));
      }
      var found := QuizIndex(quizzes, quizId);
      if found.None? {
        return Response(NOT_FOUND, Message(QUIZ_NOT_FOUND));
      }
      var i := found.value;
      var fields := QuestionFields(body.questionText.value, body.choices.value, body.correctChoice.value);
      var quiz := quizzes[i];
      quizzes := quizzes[i := quiz.(questions := quiz.questions + [Question(nextId, fields)])];
      nextId := nextId + 1;
      res := Response(CREATED, QuestionAdded(QUESTION_ADDED, fields));
    }

    /** getQuizzes */
    method GetQuizzes() returns (res: Response)
      ensures res == Handlers.GetQuizzes(State())
    {
      res := Response(OK, QuizList(quizzes));
    }

    /** getQuizById */
    method GetQuizById(quizId: nat) returns (res: Response)
      ensures res == Handlers.GetQuizById(State(), quizId)
    {
      var found := QuizIndex(quizzes, quizId);
      if found.None? {
        return Response(NOT_FOUND, Message(QUIZ_NOT_FOUND));
      }
      res := Response(OK, QuizDoc(quizzes[found.value]));
    }

    /** updateQuestionInQuiz: each field is overwritten with `given || field`. */
    method UpdateQuestion(quizId: nat, questionId: nat, body: QuestionBody) returns (res: Response)
      requires Valid()
      modifies this
      ensures Valid()
      ensures Step(State(), res) == Handlers.UpdateQuestion(old(State()), quizId, questionId, body)
    {
      HandlerLemmas.UpdatePreservesValid(State(), quizId, questionId, body);
      var found := QuizIndex(quizzes, quizId);
      if found.None? {
        return Response(NOT_FOUND, Message(QUIZ_NOT_FOUND));
      }
      var i := found.value;
      var quiz := quizzes[i];
      var at := QuestionIndex(quiz.questions, questionId);
      if at.None? {
        return Response(NOT_FOUND, Message(QUESTION_NOT_FOUND));
      }
      var j := at.value;
      var f := quiz.questions[j].fields;
      var questionText := if TruthyString(body.questionText) then body.questionText.value else f.questionText;
      var choices := if TruthyArray(body.choices) then body.choices.value else f.choices;
      var correctChoice := if TruthyNumber(body.correctChoice) then body.correctChoice.value else f.correctChoice;
      var question := Question(questionId, QuestionFields(questionText, choices, correctChoice));
      quizzes := quizzes[i := quiz.(questions := quiz.questions[j := question])];
      res := Response(OK, QuestionDoc(question));
    }

    /** deleteQuestionFromQuiz */
    method DeleteQuestion(quizId: nat, questionId: nat) returns (res: Response)
      requires Valid()
      modifies this
      ensures Valid()
      ensures Step(State(), res) == Handlers.DeleteQuestion(old(State()), quizId, questionId)
    {
      HandlerLemmas.DeleteQuestionPreservesValid(State(), quizId, questionId);
      var found := QuizIndex(quizzes, quizId);
      if found.None? {
        return Response(NOT_FOUND, Message(QUIZ_NOT_FOUND));
      }
      var i := found.value;
      var quiz := quizzes[i];
      var at := QuestionIndex(quiz.questions, questionId);
      if at.None? {
        return Response(NOT_FOUND, Message(QUESTION_NOT_FOUND));
      }
      var j := at.value;
      quizzes := quizzes[i := quiz.(questions := quiz.questions[..j] + quiz.questions[j + 1..])];
      res := Response(OK, Message(QUESTION_DELETED));
    }

    /** deleteQuizById (findByIdAndDelete) */
    method DeleteQuiz(quizId: nat) returns (res: Response)
      requires Valid()
      modifies this
      ensures Valid()
      ensures Step(State(), res) == Handlers.DeleteQuiz(old(State()), quizId)
    {
      HandlerLemmas.DeleteQuizPreservesValid(State(), quizId);
      var found := QuizIndex(quizzes, quizId);
      if found.None? {
        return Response(NOT_FOUND, Message(QUIZ_NOT_FOUND));
      }
      var i := found.value;
      quizzes := quizzes[..i] + quizzes[i + 1..];
      res := Response(OK, Message(QUIZ_DELETED));
    }
  }
}
