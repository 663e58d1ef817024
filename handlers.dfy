/** The seven request handlers of the quiz controller, as functions from the
    stored collection (and the request) to the new collection and the response.
    Mongoose's queries become lookups in the sequence of stored quizzes, kept in
    insertion order; ids are naturals drawn from one counter. */
module Handlers {
  import opened Js
  import opened QuizModel

  // HTTP status codes the handlers answer with
  const OK: nat := 200
  const CREATED: nat := 201
  const BAD_REQUEST: nat := 400
  const NOT_FOUND: nat := 404
  const CONFLICT: nat := 409
  const SERVER_ERROR: nat := 500

  // Messages of the `{ message }` bodies
  const INVALID_BODY := "Invalid request body."
  const DUPLICATE_NAME := "Quiz with this name already exists."
  const QUIZ_NOT_FOUND := "Quiz not found."
  const QUESTION_NOT_FOUND := "Question not found."
  const QUESTION_ADDED := "Question added successfully."
  const QUESTION_DELETED := "Question deleted successfully."
  const QUIZ_DELETED := "Quiz deleted successfully."
  const SERVER_FAILURE := "Server error. Please try again later."

  /** The JSON body of a response. */
  datatype Payload =
    | Message(text: string)
    | QuizDoc(quiz: Quiz)
    | QuizList(quizzes: seq<Quiz>)
    | QuestionDoc(question: Question)
    | QuestionAdded(message: string, newQuestion: QuestionFields)

  datatype Response = Response(status: nat, payload: Payload)

  /** The stored collection and the next id the store will hand out. */
  datatype Db = Db(quizzes: seq<Quiz>, nextId: nat)

  /** What a state-changing handler leaves behind: the new collection and its response. */
  datatype Step = Step(db: Db, response: Response)

  /** Body of a create-quiz request; `questions` is `None` when it is absent or not an array. */
  datatype QuizBody = QuizBody(quizName: Option<string>, questions: Option<seq<QuestionFields>>)

  /** Body of an add-question or update-question request; `choices` is `None` when it is
      absent (and, for add-question, also when it is not an array). */
  datatype QuestionBody = QuestionBody(questionText: Option<string>, choices: Option<seq<string>>, correctChoice: Option<int>)

  // ---------------------------------------------------------------------------
  // The store invariant

  predicate UniqueQuizIds(quizzes: seq<Quiz>)
  {
    forall a, b | 0 <= a < b < |quizzes| :: quizzes[a].id != quizzes[b].id
  }

  predicate UniqueNames(quizzes: seq<Quiz>)
  {
    forall a, b | 0 <= a < b < |quizzes| :: quizzes[a].quizName != quizzes[b].quizName
  }

  predicate UniqueQuestionIds(questions: seq<Question>)
  {
    forall a, b | 0 <= a < b < |questions| :: questions[a].id != questions[b].id
  }

  /** Every id in the quiz was handed out before `bound`. */
  predicate IdsBelow(q: Quiz, bound: nat)
  {
    q.id < bound && forall k | 0 <= k < |q.questions| :: q.questions[k].id < bound
  }

  /** What holds of the stored collection between requests: every quiz is a valid document,
      quiz ids and quiz names are pairwise distinct, question ids are distinct within their
      quiz, and no id is at or above the counter. */
  predicate Valid(db: Db)
  {
    UniqueQuizIds(db.quizzes) && UniqueNames(db.quizzes) &&
    forall i | 0 <= i < |db.quizzes| ::
      QuizValid(db.quizzes[i]) && UniqueQuestionIds(db.quizzes[i].questions) && IdsBelow(db.quizzes[i], db.nextId)
  }

  // ---------------------------------------------------------------------------
  // Lookups: Quiz.findById, Quiz.findOne({ quizName }) and quiz.questions.id

  predicate HasQuiz(quizzes: seq<Quiz>, id: nat)
  {
    exists k | 0 <= k < |quizzes| :: quizzes[k].id == id
  }

  predicate HasQuestion(questions: seq<Question>, id: nat)
  {
    exists k | 0 <= k < |questions| :: questions[k].id == id
  }

  /** Position of the first quiz with the given id. */
  function QuizIndex(quizzes: seq<Quiz>, id: nat): (r: Option<nat>)
    ensures r.None? <==> !HasQuiz(quizzes, id)
    ensures r.Some? ==> r.value < |quizzes| && quizzes[r.value].id == id
    ensures r.Some? ==> forall k | 0 <= k < r.value :: quizzes[k].id != id
  {
    if |quizzes| == 0 then None
    else if quizzes[0].id == id then Some(0)
    else match QuizIndex(quizzes[1..], id)
      case None => None
      case Some(k) => Some(k + 1)
  }

  /** Position of the first question with the given id. */
  function QuestionIndex(questions: seq<Question>, id: nat): (r: Option<nat>)
    ensures r.None? <==> !HasQuestion(questions, id)
    ensures r.Some? ==> r.value < |questions| && questions[r.value].id == id
    ensures r.Some? ==> forall k | 0 <= k < r.value :: questions[k].id != id
  {
    if |questions| == 0 then None
    else if questions[0].id == id then Some(0)
    else match QuestionIndex(questions[1..], id)
      case None => None
      case Some(k) => Some(k + 1)
  }

  /** Whether `Quiz.findOne({ quizName: name })` finds a document. */
  function NameTaken(quizzes: seq<Quiz>, name: string): (r: bool)
    ensures r <==> exists k | 0 <= k < |quizzes| :: quizzes[k].quizName == name
  {
    if |quizzes| == 0 then false
    else quizzes[0].quizName == name || NameTaken(quizzes[1..], name)
  }

  // ---------------------------------------------------------------------------
  // Building and editing documents

  /** The questions `new Quiz(...)` embeds: the given fields in order, each with its own
      id drawn from the `|fields|` ids that follow `first - 1`. */
  function AssignIds(fields: seq<QuestionFields>, first: nat): (qs: seq<Question>)
    ensures |qs| == |fields|
    ensures UniqueQuestionIds(qs)
    ensures forall k | 0 <= k < |qs| :: first <= qs[k].id < first + |fields| && qs[k].fields == fields[k]
  {
    seq(|fields|, k requires 0 <= k < |fields| => Question(first + k, fields[k]))
  }

  /** The three `field = given || field` assignments of the update handler. */
  function MergeFields(f: QuestionFields, body: QuestionBody): (m: QuestionFields)
  {
    QuestionFields(
      if TruthyString(body.questionText) then body.questionText.value else f.questionText,
      if TruthyArray(body.choices) then body.choices.value else f.choices,
      if TruthyNumber(body.correctChoice) then body.correctChoice.value else f.correctChoice)
  }

  function RemoveAt<T>(s: seq<T>, k: nat): (r: seq<T>)
    requires k < |s|
  {
    s[..k] + s[k + 1..]
  }

  // ---------------------------------------------------------------------------
  // The handlers

  /** The guard of createQuiz: a truthy name and a non-empty array of questions. */
  predicate QuizBodyOk(body: QuizBody)
  {
    TruthyString(body.quizName) && TruthyArray(body.questions) && |body.questions.value| != 0
  }

  /** The guard of addQuestionByQuizId: truthy text, a non-empty array of choices and a
      correct choice that is not `undefined` (its value is not checked). */
  predicate QuestionBodyOk(body: QuestionBody)
  {
    TruthyString(body.questionText) && TruthyArray(body.choices) && |body.choices.value| != 0 &&
    body.correctChoice.Some?
  }

  /** POST /quizzes */
  function CreateQuiz(db: Db, body: QuizBody): (s: Step)
    ensures s.response.status in {CREATED, BAD_REQUEST, CONFLICT, SERVER_ERROR}
    ensures s.response.status != CREATED ==> s.db == db
    ensures s.response.status == BAD_REQUEST <==> !QuizBodyOk(body)
    ensures s.response.status == CONFLICT <==> QuizBodyOk(body) && NameTaken(db.quizzes, body.quizName.value)
    ensures s.response.status == CONFLICT ==> s.response.payload == Message(DUPLICATE_NAME)
    ensures s.response.status == SERVER_ERROR <==>
      QuizBodyOk(body) && !NameTaken(db.quizzes, body.quizName.value) &&
      exists k | 0 <= k < |body.questions.value| :: !FieldsValid(body.questions.value[k])
  {
    if !QuizBodyOk(body) then
      Step(db, Response(BAD_REQUEST, Message(INVALID_BODY)))
    else if NameTaken(db.quizzes, body.quizName.value) then
      Step(db, Response(CONFLICT, Message(DUPLICATE_NAME)))
    else
      var fields := body.questions.value;
      var quiz := Quiz(db.nextId, body.quizName.value, AssignIds(fields, db.nextId + 1));
      if !QuizValid(quiz) then
        // save() rejects the document: the catch block answers 500
        Step(db, Response(SERVER_ERROR, Message(SERVER_FAILURE)))
      else
        Step(Db(db.quizzes + [quiz], db.nextId + 1 + |fields|), Response(CREATED, QuizDoc(quiz)))
  }

  /** POST /quizzes/:quizId/questions */
  function AddQuestion(db: Db, quizId: nat, body: QuestionBody): (s: Step)
    ensures s.response.status in {CREATED, BAD_REQUEST, NOT_FOUND}
    ensures s.response.status != CREATED ==> s.db == db
    ensures s.response.status == BAD_REQUEST <==> !QuestionBodyOk(body)
    ensures s.response.status == NOT_FOUND <==> QuestionBodyOk(body) && !HasQuiz(db.quizzes, quizId)
    ensures s.response.status == NOT_FOUND ==> s.response.payload == Message(QUIZ_NOT_FOUND)
  {
    if !QuestionBodyOk(body) then
      Step(db, Response(BAD_REQUEST, Message(INVALID_BODY)))
    else match QuizIndex(db.quizzes, quizId)
      case None => Step(db, Response(NOT_FOUND, Message(QUIZ_NOT_FOUND)))
      case Some(i) =>
        var fields := QuestionFields(body.questionText.value, body.choices.value, body.correctChoice.value);
        var quiz := db.quizzes[i];
        var quiz' := quiz.(questions := quiz.questions + [Question(db.nextId, fields)]);
        Step(Db(db.quizzes[i := quiz'], db.nextId + 1), Response(CREATED, QuestionAdded(QUESTION_ADDED, fields)))
  }

  /** GET /quizzes */
  function GetQuizzes(db: Db): (r: Response)
  {
    Response(OK, QuizList(db.quizzes))
  }

  /** GET /quizzes/:quizId */
  function GetQuizById(db: Db, quizId: nat): (r: Response)
    ensures r.status in {OK, NOT_FOUND}
    ensures r.status == OK <==> HasQuiz(db.quizzes, quizId)
    ensures r.status == OK ==> r.payload.QuizDoc? && r.payload.quiz in db.quizzes && r.payload.quiz.id == quizId
    ensures r.status == NOT_FOUND ==> r.payload == Message(QUIZ_NOT_FOUND)
  {
    match QuizIndex(db.quizzes, quizId)
    case None => Response(NOT_FOUND, Message(QUIZ_NOT_FOUND))
    case Some(i) => Response(OK, QuizDoc(db.quizzes[i]))
  }

  /** PUT /quizzes/:quizId/questions/:questionId */
  function UpdateQuestion(db: Db, quizId: nat, questionId: nat, body: QuestionBody): (s: Step)
    ensures s.response.status in {OK, NOT_FOUND}
    ensures s.response.status == NOT_FOUND ==> s.db == db
    ensures !HasQuiz(db.quizzes, quizId) ==> s.response == Response(NOT_FOUND, Message(QUIZ_NOT_FOUND))
    ensures s.response.status == OK <==>
      HasQuiz(db.quizzes, quizId) &&
      HasQuestion(db.quizzes[QuizIndex(db.quizzes, quizId).value].questions, questionId)
    ensures (HasQuiz(db.quizzes, quizId) &&
             !HasQuestion(db.quizzes[QuizIndex(db.quizzes, quizId).value].questions, questionId)) ==>
      s.response == Response(NOT_FOUND, Message(QUESTION_NOT_FOUND))
    ensures s.db.nextId == db.nextId && |s.db.quizzes| == |db.quizzes|
  {
    match QuizIndex(db.quizzes, quizId)
    case None => Step(db, Response(NOT_FOUND, Message(QUIZ_NOT_FOUND)))
    case Some(i) =>
      var quiz := db.quizzes[i];
      match QuestionIndex(quiz.questions, questionId)
      case None => Step(db, Response(NOT_FOUND, Message(QUESTION_NOT_FOUND)))
      case Some(j) =>
        var question := Question(questionId, MergeFields(quiz.questions[j].fields, body));
        var quiz' := quiz.(questions := quiz.questions[j := question]);
        Step(Db(db.quizzes[i := quiz'], db.nextId), Response(OK, QuestionDoc(question)))
  }

  /** DELETE /quizzes/:quizId/questions/:questionId */
  function DeleteQuestion(db: Db, quizId: nat, questionId: nat): (s: Step)
    ensures s.response.status in {OK, NOT_FOUND}
    ensures s.response.status == NOT_FOUND ==> s.db == db
    ensures !HasQuiz(db.quizzes, quizId) ==> s.response == Response(NOT_FOUND, Message(QUIZ_NOT_FOUND))
    ensures s.response.status == OK <==>
      HasQuiz(db.quizzes, quizId) &&
      HasQuestion(db.quizzes[QuizIndex(db.quizzes, quizId).value].questions, questionId)
    ensures (HasQuiz(db.quizzes, quizId) &&
             !HasQuestion(db.quizzes[QuizIndex(db.quizzes, quizId).value].questions, questionId)) ==>
      s.response == Response(NOT_FOUND, Message(QUESTION_NOT_FOUND))
    ensures s.db.nextId == db.nextId && |s.db.quizzes| == |db.quizzes|
  {
    match QuizIndex(db.quizzes, quizId)
    case None => Step(db, Response(NOT_FOUND, Message(QUIZ_NOT_FOUND)))
    case Some(i) =>
      var quiz := db.quizzes[i];
      match QuestionIndex(quiz.questions, questionId)
      case None => Step(db, Response(NOT_FOUND, Message(QUESTION_NOT_FOUND)))
      case Some(j) =>
        var quiz' := quiz.(questions := RemoveAt(quiz.questions, j));
        Step(Db(db.quizzes[i := quiz'], db.nextId), Response(OK, Message(QUESTION_DELETED)))
  }

  /** DELETE /quizzes/:quizId */
  function DeleteQuiz(db: Db, quizId: nat): (s: Step)
    ensures s.response.status in {OK, NOT_FOUND}
    ensures s.response.status == OK <==> HasQuiz(db.quizzes, quizId)
    ensures s.response.status == NOT_FOUND ==> s.db == db && s.response.payload == Message(QUIZ_NOT_FOUND)
    ensures s.response.status == OK ==> |s.db.quizzes| == |db.quizzes| - 1 && s.db.nextId == db.nextId
  {
    match QuizIndex(db.quizzes, quizId)
    case None => Step(db, Response(NOT_FOUND, Message(QUIZ_NOT_FOUND)))
    case Some(i) => Step(Db(RemoveAt(db.quizzes, i), db.nextId), Response(OK, Message(QUIZ_DELETED)))
  }
}
