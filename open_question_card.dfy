// The open-question card (src/pages/Quiz/components/OpenQuestionCard.tsx):
// the learner types an answer, submits it, reveals the model answer and may
// mark their own answer as correct. Each handler returns the report it passes
// to `onStateChange`, or None when it does nothing.
module OpenQuestionCard {
  import opened Wrappers
  import opened Text
  import opened Content
  import opened QuizProgress

  class Card {
    var question: OpenQuestion
    var userAnswer: string
    var isSubmitted: bool
    var showCorrectAnswer: bool
    var isMarkedCorrect: bool

    /** The order the buttons impose: the answer is shown only after submitting, marked only once shown. */
    ghost predicate Valid()
      reads this
    {
      (showCorrectAnswer ==> isSubmitted) && (isMarkedCorrect ==> showCorrectAnswer)
    }

    /** The report describing the current fields, with `isCorrect` left out. */
    function Current(): Report
      reads this
    {
      OpenReport(userAnswer, isSubmitted, showCorrectAnswer, isMarkedCorrect, None)
    }

    // When each control is rendered and enabled.

    predicate CanSubmit()
      reads this
    {
      !isSubmitted && Trim(userAnswer) != ""
    }

    predicate CanType()
      reads this
    {
      !isSubmitted
    }

    predicate CanEdit()
      reads this
    {
      isSubmitted
    }

    predicate CanShowAnswer()
      reads this
    {
      isSubmitted && !showCorrectAnswer
    }

    predicate CanMarkCorrect()
      reads this
    {
      isSubmitted && showCorrectAnswer && !isMarkedCorrect
    }

    constructor (q: OpenQuestion)
      ensures Valid()
      ensures question == q && userAnswer == "" && !isSubmitted && !showCorrectAnswer && !isMarkedCorrect
    {
      question := q;
      userAnswer := "";
      isSubmitted := false;
      showCorrectAnswer := false;
      isMarkedCorrect := false;
    }

    /** The effect on `question.id`: a different question starts from the initial state. */
    method ChangeQuestion(q: OpenQuestion)
      requires Valid()
      modifies this
      ensures Valid() && question == q
      ensures q.id != old(question.id) ==>
                userAnswer == "" && !isSubmitted && !showCorrectAnswer && !isMarkedCorrect
      ensures q.id == old(question.id) ==>
                userAnswer == old(userAnswer) && isSubmitted == old(isSubmitted)
                && showCorrectAnswer == old(showCorrectAnswer) && isMarkedCorrect == old(isMarkedCorrect)
    {
      if q.id != question.id {
        userAnswer := "";
        isSubmitted := false;
        showCorrectAnswer := false;
        isMarkedCorrect := false;
      }
      question := q;
    }

    /** `handleSubmit`: only a non-blank answer is submitted, and the report carries it trimmed. */
    method Submit() returns (report: Option<Report>)
      requires Valid()
      modifies this
      ensures Valid()
      ensures report.Some? <==> Trim(old(userAnswer)) != ""
      ensures report.Some? ==> isSubmitted && report.value == OpenReport(Trim(userAnswer), true, false, false, None)
                               && Answered(report.value) && !Correct(report.value)
      ensures report.None? ==> isSubmitted == old(isSubmitted)
      ensures userAnswer == old(userAnswer) && showCorrectAnswer == old(showCorrectAnswer)
      ensures isMarkedCorrect == old(isMarkedCorrect) && question == old(question)
    {
      if Trim(userAnswer) != "" {
        isSubmitted := true;
        report := Some(OpenReport(Trim(userAnswer), true, false, false, None));
      } else {
        report := None;
      }
    }

    /** `handleShowAnswer`: reveals the model answer and changes nothing else. */
    method ShowAnswer() returns (report: Report)
      requires Valid()
      modifies this
      ensures old(CanShowAnswer()) ==> Valid() && Answered(report)
      ensures showCorrectAnswer
      ensures report == Current()
      ensures userAnswer == old(userAnswer) && isSubmitted == old(isSubmitted)
      ensures isMarkedCorrect == old(isMarkedCorrect) && question == old(question)
    {
      showCorrectAnswer := true;
      report := Current();
    }

    /** `handleMarkCorrect`: marks the answer correct and reports `isCorrect: true`. */
    method MarkCorrect() returns (report: Report)
      requires Valid()
      modifies this
      ensures old(CanMarkCorrect()) ==> Valid() && Answered(report)
      ensures isMarkedCorrect && Correct(report)
      ensures report == OpenReport(userAnswer, isSubmitted, showCorrectAnswer, true, Some(true))
      ensures userAnswer == old(userAnswer) && isSubmitted == old(isSubmitted)
      ensures showCorrectAnswer == old(showCorrectAnswer) && question == old(question)
    {
      isMarkedCorrect := true;
      report := OpenReport(userAnswer, isSubmitted, showCorrectAnswer, true, Some(true));
    }

    /** `handleEdit`: back to editing; the typed answer is kept, and the card counts as neither answered nor correct. */
    method Edit() returns (report: Report)
      requires Valid()
      modifies this
      ensures Valid()
      ensures !isSubmitted && !showCorrectAnswer && !isMarkedCorrect
      ensures report == Current() && !Answered(report) && !Correct(report)
      ensures userAnswer == old(userAnswer) && question == old(question)
    {
      isSubmitted := false;
      showCorrectAnswer := false;
      isMarkedCorrect := false;
      report := Current();
    }

    /** `handleAnswerChange`: typing replaces the answer and nothing else. */
    method ChangeAnswer(text: string) returns (report: Report)
      requires Valid()
      modifies this
      ensures Valid()
      ensures userAnswer == text && report == Current()
      ensures isSubmitted == old(isSubmitted) && showCorrectAnswer == old(showCorrectAnswer)
      ensures isMarkedCorrect == old(isMarkedCorrect) && question == old(question)
    {
      userAnswer := text;
      report := Current();
    }
  }

  /** A run of the enabled controls: type, submit, reveal, mark. The card then counts as answered and correct. */
  method SubmitRevealMark(q: OpenQuestion, text: string) returns (answered: bool, correct: bool)
    requires Trim(text) != ""
    ensures answered && correct
  {
    var card := new Card(q);
    var _ := card.ChangeAnswer(text);
    assert card.CanSubmit();
    var submitted := card.Submit();
    assert card.CanShowAnswer();
    var shown := card.ShowAnswer();
    assert card.CanMarkCorrect();
    var marked := card.MarkCorrect();
    answered, correct := Answered(marked), Correct(marked);
  }
}
