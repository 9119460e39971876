// The question-set list (src/pages/Questions/Questions.tsx): the counts shown for each set,
// read from the set's stored `info` column only.
module QuestionsPage {
  import opened Wrappers
  import opened Content
  import Quiz
  import UploadPage

  /** A listed question set; the list query selects no question data. */
  datatype QuestionSet = QuestionSet(id: string, name: string, info: Option<QuestionInfo>, createdAt: string)

  /** `getQuestionCounts`: the stored per-type numbers and their sum, or all zeros without info. */
  function Counts(qs: QuestionSet): (c: QuestionCounts)
    ensures c.total == c.openQuestions + c.multipleChoice + c.fillInTheBlank + c.flashcards + c.microReels
    ensures qs.info.Some? ==>
              c.openQuestions == qs.info.value.openQuestions
              && c.multipleChoice == qs.info.value.multipleChoiceQuestions
              && c.fillInTheBlank == qs.info.value.fillInTheBlank
              && c.flashcards == qs.info.value.flashcards && c.microReels == qs.info.value.microReels
    ensures qs.info.None? ==> c == QuestionCounts(0, 0, 0, 0, 0, 0)
  {
    match qs.info
    case Some(i) =>
      QuestionCounts(i.openQuestions, i.multipleChoiceQuestions, i.fillInTheBlank, i.flashcards, i.microReels,
                     i.openQuestions + i.multipleChoiceQuestions + i.fillInTheBlank + i.flashcards + i.microReels)
    case None => QuestionCounts(0, 0, 0, 0, 0, 0)
  }

  /** The counts depend on the stored info alone, not on the set's id, name or date. */
  lemma CountsDependOnlyOnInfo(a: QuestionSet, b: QuestionSet)
    requires a.info == b.info
    ensures Counts(a) == Counts(b)
  {
  }

  /** With info present, the list shows what the quiz page shows for the same set, whatever its data. */
  lemma ListAgreesWithQuiz(qs: QuestionSet, d: StoredData)
    requires qs.info.Some?
    ensures Counts(qs) == Quiz.QuestionCountsOf(qs.info, d)
  {
  }

  /**
    * Without info the list shows zeros, while the quiz page falls back to counting the data: the two
    * agree only when the data holds no items.
    */
  lemma MissingInfoShowsZeros(qs: QuestionSet, d: StoredData)
    requires qs.info.None?
    ensures Counts(qs) == Quiz.QuestionCountsOf(None, d) <==> Quiz.QuestionCountsOf(None, d).total == 0
  {
  }

  /** A set uploaded from data shows the counts the upload page computed for that data. */
  lemma UploadedSetShowsUploadCounts(id: string, name: string, createdAt: string, d: StoredData)
    ensures Counts(QuestionSet(id, name, Some(UploadPage.ExtractQuestionInfo(d)), createdAt))
            == UploadPage.GetQuestionCounts(d)
  {
  }
}
