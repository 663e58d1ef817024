/** The document shapes of the Quiz collection: a quiz document with its
    embedded, ordered question sub-documents. */
module QuizModel {

  /** The three fields `questionSchema` declares: a string, an array of strings, a number. */
  datatype QuestionFields = QuestionFields(questionText: string, choices: seq<string>, correctChoice: int)

  /** An embedded question sub-document: the id generated when it is added, and its fields. */
  datatype Question = Question(id: nat, fields: QuestionFields)

  /** A quiz document: its generated id, its name and its questions in display order. */
  datatype Quiz = Quiz(id: nat, quizName: string, questions: seq<Question>)

  /** What `required: true` demands of a question when the document is saved: a required
      string must not be empty; the array and the number are present by their types. */
  predicate FieldsValid(f: QuestionFields)
  {
    f.questionText != ""
  }

  /** What `quizSchema` demands of a quiz on save: a non-empty name and valid questions.
      Nothing here relates one quiz to another. */
  predicate QuizValid(q: Quiz)
  {
    q.quizName != "" &&
    forall k | 0 <= k < |q.questions| :: FieldsValid(q.questions[k].fields)
  }

  /** The schema never ties `correctChoice` to the length of `choices`: a question whose
      correct choice indexes no choice at all is a valid document. */
  lemma ChoiceIndexUnconstrained()
    ensures exists f: QuestionFields :: FieldsValid(f) && !(0 <= f.correctChoice < |f.choices|)
  {
    var f := QuestionFields("2+2?", ["3", "4"], 7);
    assert FieldsValid(f) && !(0 <= f.correctChoice < |f.choices|);
  }

  /** `quizName` carries no `unique` constraint: two distinct quiz documents with the same
      name are each valid, so uniqueness can only come from the controller. */
  lemma SchemaAllowsSharedNames()
    ensures exists a: Quiz, b: Quiz :: QuizValid(a) && QuizValid(b) && a.id != b.id && a.quizName == b.quizName
  {
    var a, b := Quiz(0, "Math", []), Quiz(1, "Math", []);
    assert QuizValid(a) && QuizValid(b) && a.id != b.id && a.quizName == b.quizName;
  }
}
