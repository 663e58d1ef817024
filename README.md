# Quiz aggregate store

A Dafny model of the quiz server's persistence core: a collection of quiz
documents, each with a name and an ordered list of embedded multiple-choice
questions, and the seven request handlers of
`server/controllers/questionController.js` that create a quiz, append,
update and delete its questions, list and fetch quizzes, and delete a quiz.
Each handler answers with an HTTP status (200, 201, 400, 404, 409, 500) and a
JSON payload.

Layout:

- `js.dfy` (module `Js`): request-body fields as `Option` values (`None` is
  `undefined`) and JavaScript truthiness for strings (`""` falsy), numbers
  (`0` falsy) and arrays (every array truthy).
- `quiz_model.dfy` (module `QuizModel`): the `questionSchema` and
  `quizSchema` document shapes as datatypes, and what `required: true`
  demands of a document on save.
- `handlers.dfy` (module `Handlers`): the store as a value `Db` (the quizzes,
  kept in insertion order, plus an id counter), the store invariant `Valid`, the
  Mongoose lookups (`findById`, `findOne({ quizName })`, `questions.id`) as
  recursive index functions, and each handler as a function from the store
  and the request to the new store and the response.
- `handler_lemmas.dfy` (module `HandlerLemmas`): every handler keeps the
  invariant (so quiz names stay pairwise distinct), changes only what it
  targets, and the handlers agree with one another across calls.
- `quiz_store.dfy` (module `Store`): class `QuizStore`, whose fields are the
  stored quizzes and the id counter; each handler is a method that updates
  them in place and is proved equal to the `Handlers` function of the same
  name while keeping `Valid()`.

Behaviour worth knowing before relying on the store:

- The update handler merges each field with `given || old`, so
  `questionText: ""` and `correctChoice: 0` keep the old values, where a
  check for the field's presence would store them. `correctChoice: 0` is the
  first choice, so an update cannot move the answer to the first choice
  (`ZeroCorrectChoiceIgnored`, `FalsyUpdateChangesNothing`).
- Nothing checks `correctChoice` against the number of choices: not the
  create handler, not the add-question handler, not the schema. A stored
  question may have a correct choice that indexes none of its choices.
- A create request whose question is invalid is not answered 400: the
  controller checks only the name and that `questions` is a non-empty array.
  The document is rejected when saved, and the catch block answers 500.
- Add-question answers with the request's three fields, not with the stored
  question: the generated id is not in the response.

Ids are naturals handed out by one counter: a created quiz takes the counter,
its questions the following values, and an added question the next one.
Quiz-name uniqueness is part of the invariant because every handler keeps it;
the schema itself has no `unique` constraint (`SchemaAllowsSharedNames`).

## Model

| member | source | states |
|---|---|---|
| `QuizModel.FieldsValid` | server/models/questionModel.js:4-8 | a question passes save validation exactly when its text is non-empty; the choices array and the number pass by their types |
| `QuizModel.QuizValid` | server/models/questionModel.js:10-13 | a quiz passes save validation exactly when its name is non-empty and every question passes; nothing relates two quizzes |
| `QuizModel.ChoiceIndexUnconstrained` | server/models/questionModel.js:4-8 | a question whose `correctChoice` indexes none of its choices is still a valid document |
| `QuizModel.SchemaAllowsSharedNames` | server/models/questionModel.js:10-13 | two distinct quiz documents with the same `quizName` are each valid: the schema does not make names unique |
| `Handlers.QuizIndex` | server/controllers/questionController.js:42-45 | `findById` finds nothing exactly when no stored quiz has the id, and otherwise the first quiz that has it |
| `Handlers.QuestionIndex` | server/controllers/questionController.js:95-98 | `questions.id` finds nothing exactly when no question of the quiz has the id, and otherwise the first question that has it |
| `Handlers.NameTaken` | server/controllers/questionController.js:11-12 | `findOne({ quizName })` finds a document exactly when some stored quiz has that exact name |
| `Handlers.AssignIds` | server/controllers/questionController.js:17 | building the quiz keeps the given questions in order, each with its own id, the ids pairwise distinct and all fresh (at or above the given first id, below first plus the number of questions) |
| `Handlers.CreateQuiz` | server/controllers/questionController.js:5-24 | 400 exactly when the name is falsy or `questions` is not a non-empty array (the guard at :8, `QuizBodyOk`); else 409 exactly when the name is taken, with the duplicate-name message; else 500 exactly when some question has empty text (the one schema failure typed fields can express); the store changes only on 201 |
| `Handlers.AddQuestion` | server/controllers/questionController.js:26-57 | 400 exactly when the body fails the check at :33-37 (`QuestionBodyOk`: falsy text, choices not a non-empty array, correct choice undefined), before any lookup; else 404 "Quiz not found." exactly when no quiz has the id; the store changes only on 201 |
| `Handlers.GetQuizById` | server/controllers/questionController.js:70-84 | 200 with a stored quiz carrying that id exactly when one exists, else 404 "Quiz not found." |
| `Handlers.UpdateQuestion` | server/controllers/questionController.js:87-109 | 404 "Quiz not found." when the quiz is missing, 404 "Question not found." when the question is missing, 200 exactly when both exist; on 404 nothing changes; the counter and the number of quizzes never change |
| `Handlers.DeleteQuestion` | server/controllers/questionController.js:112-130 | 404 "Quiz not found." when the quiz is missing, 404 "Question not found." when the question is missing, 200 exactly when both exist; on 404 nothing changes |
| `Handlers.DeleteQuiz` | server/controllers/questionController.js:132-145 | 200 exactly when a quiz has the id, then one quiz fewer; otherwise 404 "Quiz not found." and nothing changes |
| `HandlerLemmas.QuizIndexOfUnique` | server/controllers/questionController.js:42 | with distinct quiz ids, `findById` on a stored quiz's id finds that quiz's position |
| `HandlerLemmas.QuestionIndexOfUnique` | server/controllers/questionController.js:95 | with distinct question ids, `questions.id` on a question's id finds that question's position |
| `HandlerLemmas.CreatePreservesValid` | server/controllers/questionController.js:8-19 | createQuiz keeps the invariant: distinct quiz ids, distinct names, distinct question ids per quiz, valid documents, ids below the counter |
| `HandlerLemmas.CreateQuizAppends` | server/controllers/questionController.js:17-19 | a 201 appends exactly one quiz with a fresh id, the given name and the given questions in order with fresh distinct ids, leaves every stored quiz in place, and answers with that quiz |
| `HandlerLemmas.DuplicateNameConflicts` | server/controllers/questionController.js:11-16 | creating a quiz under a stored quiz's name answers 409 "Quiz with this name already exists." and changes nothing, whatever the questions |
| `HandlerLemmas.AddPreservesValid` | server/controllers/questionController.js:42-49 | add-question keeps the invariant |
| `HandlerLemmas.AddQuestionAppends` | server/controllers/questionController.js:33-52 | a valid body on a stored quiz answers 201 echoing the request's fields and appends one question with a fresh id and those fields to that quiz only, whatever the correct choice |
| `HandlerLemmas.UpdatePreservesValid` | server/controllers/questionController.js:95-103 | update keeps the invariant; in particular the merged text stays non-empty |
| `HandlerLemmas.UpdateChangesOnlyTarget` | server/controllers/questionController.js:95-104 | updating a stored question answers 200 with the updated question; its id and position stay, each field takes the given value when truthy and keeps the old one otherwise; every other question and quiz is unchanged |
| `HandlerLemmas.ChoicesOnlyUpdate` | server/controllers/questionController.js:99-101 | the `||` merge (`MergeFields`): a body with only `choices` replaces the choices, even with `[]`, and keeps text and correct choice |
| `HandlerLemmas.ZeroCorrectChoiceIgnored` | server/controllers/questionController.js:99-101 | worked example on one store: an update with `questionText: ""` and `correctChoice: 0` answers 200 and leaves the question and the store exactly as they were (`FalsyUpdateChangesNothing` states it for every stored question) |
| `HandlerLemmas.FalsyUpdateChangesNothing` | server/controllers/questionController.js:99-104 | for every stored question, an update with `questionText: ""` and `correctChoice: 0` answers 200 with the question as it was and leaves the store unchanged |
| `HandlerLemmas.DeleteQuestionPreservesValid` | server/controllers/questionController.js:115-124 | deleting a question keeps the invariant |
| `HandlerLemmas.DeleteQuestionRemovesTarget` | server/controllers/questionController.js:119-125 | deleting a stored question answers 200, removes exactly that question keeping the rest in order, leaves no question with its id, and changes nothing else |
| `HandlerLemmas.DeleteQuestionTwice` | server/controllers/questionController.js:119-122 | after a successful delete, deleting the same question again answers 404 "Question not found." and changes nothing |
| `HandlerLemmas.DeleteQuizPreservesValid` | server/controllers/questionController.js:136-140 | deleting a quiz keeps the invariant |
| `HandlerLemmas.DeleteQuizRemoves` | server/controllers/questionController.js:136-140 | deleting a stored quiz answers 200, removes exactly it keeping the others in order; afterwards getQuizById answers 404 for its id and getQuizzes does not list it |
| `HandlerLemmas.GetQuizzesListsAll` | server/controllers/questionController.js:60-63 | getQuizzes answers 200 with every stored quiz in insertion order |
| `HandlerLemmas.ListingAgreesWithLookup` | server/controllers/questionController.js:60-84 | under the invariant, a quiz is listed by getQuizzes exactly when getQuizById on its id answers 200 with that quiz |
| `HandlerLemmas.MathScenario` | server/controllers/questionController.js:8-19 | creating "Math" with one question in an empty store answers 201 with one question carrying its own id and correct choice 1; creating "Math" again answers 409 and changes nothing |
| `Store.QuizStore.CreateQuiz` | server/controllers/questionController.js:5-24 | updates the stored quizzes and counter exactly as `Handlers.CreateQuiz` says, returns its response, and keeps the invariant |
| `Store.QuizStore.AddQuestion` | server/controllers/questionController.js:26-57 | pushes onto the quiz's question list exactly as `Handlers.AddQuestion` says, returns its response, and keeps the invariant |
| `Store.QuizStore.GetQuizzes` | server/controllers/questionController.js:60-68 | answers as `Handlers.GetQuizzes`: 200 with all stored quizzes, changing nothing |
| `Store.QuizStore.GetQuizById` | server/controllers/questionController.js:70-84 | answers as `Handlers.GetQuizById`, changing nothing |
| `Store.QuizStore.UpdateQuestion` | server/controllers/questionController.js:87-109 | assigns each of the three fields in place, the given value when truthy and the old one otherwise, exactly as `Handlers.UpdateQuestion` says, and keeps the invariant |
| `Store.QuizStore.DeleteQuestion` | server/controllers/questionController.js:112-130 | removes the sub-document in place exactly as `Handlers.DeleteQuestion` says, and keeps the invariant |
| `Store.QuizStore.DeleteQuiz` | server/controllers/questionController.js:132-145 | removes the quiz in place exactly as `Handlers.DeleteQuiz` says, and keeps the invariant |

## Left out

- Errors from the database and the transport: a failed connection or query,
  and a `quizId` that is not a well-formed ObjectId, which `findById` and
  `findByIdAndDelete` reject with a cast error that the catch blocks answer
  500. Ids are abstract naturals, so every id is well formed. A malformed
  `questionId` needs no special case: `questions.id()` finds no question for
  it, and the source answers 404 "Question not found.", as the model does for
  any absent id.
  The one 500 modelled is createQuiz's document failing schema validation on save.
- Request fields of a type other than the one the schema declares (a number
  for `questionText`, a string for `correctChoice`, `null`), which Mongoose
  would cast or reject on save. For create and add-question, `None` in an
  array field stands for both "absent" and "not an array", which the
  controller treats alike. Numbers are integers: `NaN` and fractions are not modelled.
- `Handlers.Valid`, `HandlerLemmas.CreateQuizAppends`: question `_id`s supplied in a
  create request are not modelled (the create body's questions carry only
  the three schema fields). Mongoose keeps a supplied `_id`, so a request
  with two questions of the same `_id` would store duplicate question ids,
  and `deleteOne` would then remove every question with that id. Question-id
  uniqueness and the fresh ids of created questions hold only for requests
  without `_id`s. Add-question builds its question from the three fields
  alone, so it is unaffected.
- `Handlers.CreateQuiz`: a question in a create request that lacks
  `correctChoice` cannot be expressed (`QuestionFields` holds all three
  fields). Saving such a question fails `required: true` on `correctChoice`
  and the catch block answers 500; the model's 500 covers only the
  empty-text case. A question without `choices` is expressible: Mongoose
  gives an array path the default `[]`, so it is modelled as `choices: []`
  and answered 201.
- `required: true` on `choices` is taken to accept any array, the empty one
  included; on a String it rejects the empty string.
- ObjectId format, timestamps and the `__v` version key of saved documents,
  JSON encoding, and the console logging.
- Concurrency: the check-then-insert race on `quizName` in createQuiz and
  interleaved read-modify-write of one quiz. Handlers run one at a time.
- `HandlerLemmas.GetQuizzesListsAll`, `HandlerLemmas.DeleteQuizRemoves`: the
  model lists quizzes in insertion order. `Quiz.find()` has no sort, so the
  source lists them in the database's natural order, which MongoDB does not
  promise to be insertion order.
- The Express routes, CORS and server start-up, and the React client,
  including its update loop of one PUT or POST per question.
- `Handlers.GetQuizzes`: no contract of its own, since it only returns the
  collection; `HandlerLemmas.GetQuizzesListsAll` states it.
